# JGS core in Dafny

JGS is a gradual security type system for Java, plus the tools around it.
This project models three of its parts and proves properties of them.

1. **The dynamic information-flow monitor.** Instrumented code calls a
   `HandleStmt` session to track a security level (LOW ⊑ MEDIUM ⊑ HIGH) for:
   - every local;
   - every field of every registered object;
   - every array slot (an array's "fields" are the decimal indices).

   The session holds a stack of local program counters, each entry tagged by
   its branch site. A stack of global program counters sits in the shared
   heap table. Entering a branch (`checkCondition`) raises both PCs to the
   join of the condition's operands and the enclosing PC; `exitInnerScope`
   undoes that.

   Assignments join the operands read since the previous assignment with the
   PC. They are refused (an illegal flow) under the no-sensitive-upgrade
   rule: the target must already be at least the PC. `checkThatNotHigh` is
   the sink check.

   The session's own source is not part of this model. Its behaviour is the
   one the level-2 unit tests assert, together with the rules their
   comments state. Each test is replayed as a method (module
   `MonitorTraces`) whose postcondition is what the test asserts.

2. **Constraint and signature values from GradualConstraints:**
   - the enumeration of all type assignments (`Assignments`) and its builder;
   - the persistent method→signature table (`SignatureTable`);
   - the signature constraint value type (`SigConstraint`), with Java
     equality, a 32-bit `hashCode` and its text form.

3. **The annotation extractor** (`extractor.AnnotationExtractor`):
   - the initial signature constraints of classes, methods and
     `@ArrayCreator` methods;
   - the rules that accept or reject the annotations of a class, a field or
     a method in LEVELS and CONSTRAINTS mode;
   - the store that builds each environment at most once.

   Everything the extractor asks Soot or the level mediator is an input
   record (`ClassInfo`, `FieldInfo`, `MethodInfo`).

Modules:
- `Outcomes`: `Option`, `Result` and `Outcome`.
- `Lattice`: the three levels.
- `Decimal`: decimal spelling of indices.
- `MonitorRules`: pure PC-stack, assignment and heap-table rules.
- `Monitor`: the `ObjectMap` and `HandleStmt` classes.
- `MonitorTraces`: the unit tests as methods.
- `Assignments`, `SignatureTables`, `SigConstraints`.
- `ExtractorConstraints`: constraint generation.
- `ExtractorEnvironments`: the environment rules.
- `ExtractorStore`: the memoising `AnnotationExtractor` class.

## Model

| member | source | states |
|---|---|---|
| Lattice.Join | DynamicAnalyzer/tests/analyzer/level2/AssignFieldsSuccess.java:79-94 | the result is an upper bound of both levels and below every common upper bound (least upper bound) |
| Lattice.JoinAll | DynamicAnalyzer/tests/analyzer/level2/AssignFieldsSuccess.java:84-94 | the join of a sequence of operand levels is their least upper bound; the empty join is bottom |
| Lattice.BottomIsLeast | DynamicAnalyzer/src/main/java/util/visitor/AnnotationStmtSwitch.java:95-104 | LOW (bottom) is below every level |
| Lattice.TopIsGreatest | DynamicAnalyzer/src/main/java/util/visitor/AnnotationStmtSwitch.java:95-104 | HIGH (top) is above every level |
| Lattice.LeqIsPartialOrder | DynamicAnalyzer/src/main/java/util/visitor/AnnotationStmtSwitch.java:95-104 | the order on LOW, MEDIUM, HIGH is reflexive, antisymmetric and transitive |
| Lattice.JoinLaws | DynamicAnalyzer/tests/analyzer/level2/AssignFieldsSuccess.java:84-94 | join is commutative, associative and idempotent; bottom is its unit and top absorbs; `a ⊑ b` iff `join(a, b) = b` |
| Lattice.JoinAllAppend | DynamicAnalyzer/tests/analyzer/level2/AssignFieldsSuccess.java:87-89 | joining the operands of two reads in a row is the join of the two joins |
| Decimal.NatToDecimal | DynamicAnalyzer/tests/analyzer/level2/ArraysSuccess.java:96-100 | the index key is a non-empty string of digits with no leading zero |
| Decimal.DecimalRoundTrip | DynamicAnalyzer/tests/analyzer/level2/ArraysSuccess.java:96-100 | reading the decimal key back gives the index |
| Decimal.NatToDecimalInjective | DynamicAnalyzer/tests/analyzer/level2/ArraysSuccess.java:96-100 | two indices have the same key iff they are equal |
| MonitorRules.EnterScope | DynamicAnalyzer/tests/analyzer/level2/IfStmtSuccess.java:34-45 | one entry is pushed on each stack, carrying the tag, and the entries below are kept; the new local PC is the least upper bound of the condition and the enclosing local PC; the new global PC is the least upper bound of that and the enclosing global PC |
| MonitorRules.ExitScope | DynamicAnalyzer/tests/analyzer/level2/IfStmtSuccess.java:47-58 | succeeds iff the innermost local entry carries the tag and a global entry exists, and then removes exactly the top of each stack; otherwise fails with a scope mismatch |
| MonitorRules.ExitUndoesEnter | DynamicAnalyzer/tests/analyzer/level2/IfStmtSuccess.java:41-58 | leaving a scope with the tag it was entered with restores both stacks exactly |
| MonitorRules.RunBranchBalanced | DynamicAnalyzer/tests/analyzer/level2/IfStmtSuccess.java:34-73 | any properly nested branch, at any depth and whatever its condition levels, never fails and leaves both PC stacks as it found them |
| MonitorRules.RunBranchesBalanced | DynamicAnalyzer/tests/analyzer/level2/IfStmtSuccess.java:34-73 | the same for a sequence of sibling branches |
| MonitorRules.GuardedAssign | DynamicAnalyzer/tests/analyzer/level2/AssignFieldsSuccess.java:38-42 | fails with an illegal flow iff the PC is not below the target's current level; otherwise yields the least upper bound of the operands and the PC |
| MonitorRules.GuardedArrayAssign | DynamicAnalyzer/tests/analyzer/level2/ArraysSuccess.java:92-95 | fails iff the slot is not above the global PC, the array reference and the index; otherwise yields the least upper bound of the global PC, the operands and the index |
| MonitorRules.GuardedAssignUnderBottom | DynamicAnalyzer/tests/analyzer/level2/AssignFieldsSuccess.java:43-53 | under a bottom PC an assignment never fails and yields the operands' level, even onto a HIGH target |
| MonitorRules.GuardedAssignUnderTop | DynamicAnalyzer/tests/analyzer/level2/AssignFieldsSuccess.java:55-60 | under a top PC only a HIGH target may be written, and it stays HIGH |
| MonitorRules.JoinLocals | DynamicAnalyzer/tests/analyzer/level2/IfStmtSuccess.java:34-45 | a condition's level is the least upper bound of the locals it reads; an unregistered local is reported by name |
| MonitorRules.ArraySlots | DynamicAnalyzer/tests/analyzer/level2/ArraysSuccess.java:29-33 | every slot of a newly registered array is bottom |
| MonitorRules.ArraySlotsIndex | DynamicAnalyzer/tests/analyzer/level2/ArraysSuccess.java:96-100 | the slot keyed by the decimal spelling of `i` exists iff `i` is below the length |
| MonitorRules.ArraySlotsOnlyIndices | DynamicAnalyzer/tests/analyzer/level2/ArraysSuccess.java:29-33 | every slot key is the decimal spelling of an index within the array |
| MonitorRules.ArraySlotsCount | DynamicAnalyzer/tests/analyzer/level2/ArraysSuccess.java:29-33 | an array of length `n` has exactly `n` slots |
| MonitorRules.SetField | DynamicAnalyzer/tests/analyzer/level2/AssignFieldsSuccess.java:135-172 | the written field reads the new level; every other field of every object reads as before; a not-yet-registered object becomes registered |
| Monitor.ObjectMap.constructor | DynamicAnalyzer/tests/analyzer/level2/IfStmtSuccess.java:23-32 | a fresh heap table has no objects and an empty global-PC stack |
| Monitor.HandleStmt.constructor | DynamicAnalyzer/tests/analyzer/level2/IfStmtSuccess.java:23-32 | a fresh session has no locals, no local scope and a bottom accumulator |
| Monitor.HandleStmt.AddLocal | DynamicAnalyzer/tests/analyzer/level2/CheckThatNotHigh.java:29-31 | registers the local at bottom; a registered local keeps its level |
| Monitor.HandleStmt.GetLocalLevel | DynamicAnalyzer/tests/analyzer/level2/CheckThatNotHigh.java:48-50 | the level of a registered local, an error for an unknown one |
| Monitor.HandleStmt.SetLevelOfLocalTo | DynamicAnalyzer/tests/analyzer/level2/CheckThatNotHigh.java:48-50 | a plain overwrite of a registered local with no flow check; nothing else changes |
| Monitor.HandleStmt.MakeLocalHigh | DynamicAnalyzer/tests/analyzer/level2/IfStmtSuccess.java:39-45 | the local becomes top |
| Monitor.HandleStmt.MakeLocalLow | DynamicAnalyzer/tests/analyzer/level2/IfStmtSuccess.java:75-79 | the local becomes bottom |
| Monitor.HandleStmt.AddLevelOfLocal | DynamicAnalyzer/tests/analyzer/level2/AssignFieldsSuccess.java:84-94 | returns the local's level and joins it into the accumulator |
| Monitor.HandleStmt.SetLevelOfLocal | DynamicAnalyzer/tests/analyzer/level2/ArraysSuccess.java:55-68 | the local's result is the no-sensitive-upgrade rule against the local PC; on success the local takes it and the accumulator is emptied; on failure nothing changes |
| Monitor.HandleStmt.CheckThatNotHigh | DynamicAnalyzer/tests/analyzer/level2/CheckThatNotHigh.java:22-58 | passes iff the local is registered and not HIGH; a HIGH local is an illegal flow |
| Monitor.HandleStmt.GetLocalPC | DynamicAnalyzer/tests/analyzer/level2/IfStmtSuccess.java:31-32 | the innermost local PC, bottom when no scope is open |
| Monitor.HandleStmt.GetGlobalPC | DynamicAnalyzer/tests/analyzer/level2/IfStmtSuccess.java:31-32 | the innermost global PC, bottom when none is open |
| Monitor.HandleStmt.PushLocalPC | DynamicAnalyzer/tests/analyzer/level2/IfStmtSuccess.java:76 | pushes exactly the given level and tag |
| Monitor.HandleStmt.PopLocalPC | DynamicAnalyzer/tests/analyzer/level2/IfStmtSuccess.java:91 | removes the innermost entry iff it carries the tag; otherwise a scope mismatch and no change |
| Monitor.HandleStmt.PushGlobalPC | DynamicAnalyzer/tests/analyzer/level2/IfStmtSuccess.java:77 | pushes exactly the given global level; objects unchanged |
| Monitor.HandleStmt.CheckCondition | DynamicAnalyzer/tests/analyzer/level2/IfStmtSuccess.java:34-45 | both stacks become `EnterScope` of the old ones and the condition's join; an unknown operand changes nothing |
| Monitor.HandleStmt.ExitInnerScope | DynamicAnalyzer/tests/analyzer/level2/IfStmtSuccess.java:47-58 | both stacks become `ExitScope` of the old ones; a mismatched tag changes nothing |
| Monitor.HandleStmt.Close | DynamicAnalyzer/tests/analyzer/level2/IfStmtSuccess.java:91-92 | closing succeeds iff every local scope has been closed |
| Monitor.HandleStmt.AddObjectToObjectMap | DynamicAnalyzer/tests/analyzer/level2/AssignFieldsSuccess.java:72-74 | registers the object with no fields unless already registered |
| Monitor.HandleStmt.AddFieldToObjectMap | DynamicAnalyzer/tests/analyzer/level2/AssignFieldsSuccess.java:34-45 | registers the field at bottom unless already registered |
| Monitor.HandleStmt.AddArrayToObjectMap | DynamicAnalyzer/tests/analyzer/level2/ArraysSuccess.java:29-33 | registers the array with `ArraySlots(length)` unless already registered |
| Monitor.HandleStmt.ContainsObjectInObjectMap | DynamicAnalyzer/tests/analyzer/level2/ArraysSuccess.java:47-52 | true iff the object is registered |
| Monitor.HandleStmt.GetNumberOfElementsInObjectMap | DynamicAnalyzer/tests/analyzer/level2/AssignFieldsSuccess.java:72-74 | the number of registered objects |
| Monitor.HandleStmt.GetNumberOfFieldsInObjectMap | DynamicAnalyzer/tests/analyzer/level2/ArraysSuccess.java:31-33 | the number of fields (slots) of a registered object |
| Monitor.HandleStmt.GetFieldLevel | DynamicAnalyzer/tests/analyzer/level2/AssignFieldsSuccess.java:43-45 | the level of a registered field or slot, an error otherwise |
| Monitor.HandleStmt.MakeFieldHigh | DynamicAnalyzer/tests/analyzer/level2/AssignFieldsSuccess.java:49-52 | the field becomes top; nothing else changes |
| Monitor.HandleStmt.SetLevelOfField | DynamicAnalyzer/tests/analyzer/level2/AssignFieldsSuccess.java:38-60 | the result is the no-sensitive-upgrade rule against the global PC, with an unseen field counting as bottom; on success the field takes it and the accumulator is emptied |
| Monitor.HandleStmt.AddLevelOfArrayField | DynamicAnalyzer/tests/analyzer/level2/ArraysSuccess.java:55-62 | returns the slot's level and joins it into the accumulator |
| Monitor.HandleStmt.SetLevelOfArrayField | DynamicAnalyzer/tests/analyzer/level2/ArraysSuccess.java:92-100 | the slot's result is `GuardedArrayAssign` with the levels of the array and index locals; on success the slot takes it |
| MonitorTraces.ReadPCs | DynamicAnalyzer/tests/analyzer/level2/IfStmtSuccess.java:31-32 | the (local PC, global PC) pair a test reads |
| MonitorTraces.IfStmtSimpleTrace | DynamicAnalyzer/tests/analyzer/level2/IfStmtSuccess.java:18-96 | the PC pairs the whole test reads, in order, are the ones it asserts, and the session closes |
| MonitorTraces.ScopesInLowContext | DynamicAnalyzer/tests/analyzer/level2/IfStmtSuccess.java:31-73 | the PC pairs read in the LOW context and the state left behind |
| MonitorTraces.LowScopeHoldingHighScope | DynamicAnalyzer/tests/analyzer/level2/IfStmtSuccess.java:34-58 | LOW/LOW in the outer scope, HIGH/HIGH in the inner one, LOW/LOW after each exit |
| MonitorTraces.HighScope | DynamicAnalyzer/tests/analyzer/level2/IfStmtSuccess.java:60-73 | a branch on a HIGH local runs at HIGH/HIGH and exits to LOW/LOW |
| MonitorTraces.NestedScopeInHighContext | DynamicAnalyzer/tests/analyzer/level2/IfStmtSuccess.java:75-89 | inside a pushed HIGH context a branch on a LOW local runs at HIGH/HIGH and exits to HIGH/HIGH |
| MonitorTraces.AssignConstantToFieldTrace | DynamicAnalyzer/tests/analyzer/level2/AssignFieldsSuccess.java:29-65 | the global PC, field level and assigned level the test asserts, three times |
| MonitorTraces.AssignLocalsToFieldTrace | DynamicAnalyzer/tests/analyzer/level2/AssignFieldsSuccess.java:67-101 | one object registered; every asserted operand and field level; the session closes |
| MonitorTraces.LocalsToFieldSteps | DynamicAnalyzer/tests/analyzer/level2/AssignFieldsSuccess.java:84-94 | bottom while only bottom locals are read, top once a top local is read |
| MonitorTraces.HighOperandToField | DynamicAnalyzer/tests/analyzer/level2/AssignFieldsSuccess.java:91-94 | a HIGH operand makes the field HIGH |
| MonitorTraces.AssignLocalsToStaticFieldTrace | DynamicAnalyzer/tests/analyzer/level2/AssignFieldsSuccess.java:103-133 | static fields, keyed on the class object, follow the same rule; the session closes |
| MonitorTraces.AssignLocalsToExternalFieldTrace | DynamicAnalyzer/tests/analyzer/level2/AssignFieldsSuccess.java:135-176 | a field of an unregistered object is written at bottom, then bottom, then top |
| MonitorTraces.ExternalFieldUpgrades | DynamicAnalyzer/tests/analyzer/level2/AssignFieldsSuccess.java:162-172 | a HIGH field written under a LOW global PC becomes LOW; under a HIGH one it becomes HIGH |
| MonitorTraces.CreateArrayTrace | DynamicAnalyzer/tests/analyzer/level2/ArraysSuccess.java:22-38 | an array of three elements has three tracked slots |
| MonitorTraces.ReadArrayTrace | DynamicAnalyzer/tests/analyzer/level2/ArraysSuccess.java:40-74 | the array is registered with three slots, and `x = a[i]` with everything bottom leaves `x` bottom |
| MonitorTraces.WriteArrayTrace | DynamicAnalyzer/tests/analyzer/level2/ArraysSuccess.java:76-106 | `a[2] = c` with a bottom array, index and PC leaves the slot bottom |
| MonitorTraces.CheckThatNotHighSuccessTrace | DynamicAnalyzer/tests/analyzer/level2/CheckThatNotHigh.java:22-37 | a freshly added local passes the sink check and the session closes |
| MonitorTraces.CheckThatNotHighFailTrace | DynamicAnalyzer/tests/analyzer/level2/CheckThatNotHigh.java:39-58 | a local set to HIGH reads HIGH and the sink check is an illegal flow |
| MonitorTraces.NsuPolicyTrace | DynamicAnalyzer/src/main/java/testclasses/NSUPolicy.java:12-31 | writing a LOW local that predates a branch on a HIGH secret, inside that branch, is an illegal flow |
| Assignments.Empty | GradualConstraints/src/de/unifreiburg/cs/proglang/jgs/constraints/Assignments.java:20-22 | the empty assignment binds no variable |
| Assignments.Extend | GradualConstraints/src/de/unifreiburg/cs/proglang/jgs/constraints/Assignments.java:38-43 | each extended assignment binds `v` to `t`, has the old domain plus `v`, and agrees with the old one elsewhere |
| Assignments.EnumerateNoVariables | GradualConstraints/src/de/unifreiburg/cs/proglang/jgs/constraints/Assignments.java:31-32 | no variables give exactly one assignment, the empty one |
| Assignments.FlatMapLength | GradualConstraints/src/de/unifreiburg/cs/proglang/jgs/constraints/Assignments.java:38-43 | the flat map has `|types| · |rest|` elements |
| Assignments.FlatMapIndex | GradualConstraints/src/de/unifreiburg/cs/proglang/jgs/constraints/Assignments.java:38-43 | element `i·|rest| + j` is the `j`-th rest assignment with `v` bound to the `i`-th type |
| Assignments.FlatMapMember | GradualConstraints/src/de/unifreiburg/cs/proglang/jgs/constraints/Assignments.java:38-43 | an assignment is in the flat map iff it is some rest assignment with `v` bound to some type |
| Assignments.EnumerateAllCount | GradualConstraints/src/de/unifreiburg/cs/proglang/jgs/constraints/Assignments.java:24-45 | the enumeration has `|types|^|variables|` elements |
| Assignments.EnumerateAllOrder | GradualConstraints/src/de/unifreiburg/cs/proglang/jgs/constraints/Assignments.java:38-43 | the head variable's type varies slowest |
| Assignments.EnumerateAllSound | GradualConstraints/src/de/unifreiburg/cs/proglang/jgs/constraints/Assignments.java:24-45 | every enumerated assignment binds exactly the variables, each to a type of the domain |
| Assignments.EnumerateAllComplete | GradualConstraints/src/de/unifreiburg/cs/proglang/jgs/constraints/Assignments.java:24-45 | every such assignment is enumerated |
| Assignments.EnumerateAllMember | GradualConstraints/src/de/unifreiburg/cs/proglang/jgs/constraints/Assignments.java:24-45 | membership in the enumeration iff the domain is the variable set and every binding is a domain type |
| Assignments.Builder.constructor | GradualConstraints/src/de/unifreiburg/cs/proglang/jgs/constraints/Assignments.java:53-58 | a new builder holds no bindings |
| Assignments.Builder.Add | GradualConstraints/src/de/unifreiburg/cs/proglang/jgs/constraints/Assignments.java:64-67 | binds `v` to `t`, replacing an earlier binding, and returns the builder itself |
| Assignments.Builder.Build | GradualConstraints/src/de/unifreiburg/cs/proglang/jgs/constraints/Assignments.java:60-62 | the bindings accumulated so far |
| Assignments.NewBuilder | GradualConstraints/src/de/unifreiburg/cs/proglang/jgs/constraints/Assignments.java:48-51 | a fresh builder holding exactly `v := t` |
| SignatureTables.Of | GradualConstraints/src/main/java/de/unifreiburg/cs/proglang/jgs/signatures/SignatureTable.java:21-23 | the table answers the given entries and the default for every other method |
| SignatureTables.Get | GradualConstraints/src/main/java/de/unifreiburg/cs/proglang/jgs/signatures/SignatureTable.java:41-49 | never empty; the stored signature, or one with the method's parameter count, no constraints and no effects |
| SignatureTables.ExtendWith | GradualConstraints/src/main/java/de/unifreiburg/cs/proglang/jgs/signatures/SignatureTable.java:29-34 | the new table answers `m` with the new signature and every other method as before; exactly `m` is added |
| SignatureTables.ExtendWithReplaces | GradualConstraints/src/main/java/de/unifreiburg/cs/proglang/jgs/signatures/SignatureTable.java:29-33 | a later extension of the same method replaces the earlier one |
| SignatureTables.ExtendWithCommutes | GradualConstraints/src/main/java/de/unifreiburg/cs/proglang/jgs/signatures/SignatureTable.java:29-34 | extensions with different methods commute |
| SignatureTables.GetDeterminesTable | GradualConstraints/src/main/java/de/unifreiburg/cs/proglang/jgs/signatures/SignatureTable.java:41-49 | over the same methods, two tables answer every lookup alike iff they are equal |
| SigConstraints.Symbols | GradualConstraints/src/main/java/de/unifreiburg/cs/proglang/jgs/signatures/SigConstraint.java:34-36 | exactly `[lhs, rhs]`, in that order |
| SigConstraints.Equals | GradualConstraints/src/main/java/de/unifreiburg/cs/proglang/jgs/signatures/SigConstraint.java:43-56 | true iff the argument is a constraint with equal fields, null matching only null |
| SigConstraints.EqualsReflexive | GradualConstraints/src/main/java/de/unifreiburg/cs/proglang/jgs/signatures/SigConstraint.java:43-56 | every constraint equals itself |
| SigConstraints.EqualsSymmetric | GradualConstraints/src/main/java/de/unifreiburg/cs/proglang/jgs/signatures/SigConstraint.java:43-56 | equality is symmetric |
| SigConstraints.Wrap | GradualConstraints/src/main/java/de/unifreiburg/cs/proglang/jgs/signatures/SigConstraint.java:58-64 | the 32-bit `int` congruent to the value modulo 2^32 |
| SigConstraints.WrapCongruent | GradualConstraints/src/main/java/de/unifreiburg/cs/proglang/jgs/signatures/SigConstraint.java:58-64 | values congruent modulo 2^32 wrap alike |
| SigConstraints.HashCode | GradualConstraints/src/main/java/de/unifreiburg/cs/proglang/jgs/signatures/SigConstraint.java:58-64 | the stepwise-wrapped hash equals `961·h(lhs) + 31·h(rhs) + h(kind)` wrapped once, with `h(null) = 0` |
| SigConstraints.HashCodeFolds | GradualConstraints/src/main/java/de/unifreiburg/cs/proglang/jgs/signatures/SigConstraint.java:58-64 | wrapping after each step equals wrapping at the end |
| SigConstraints.EqualsAgreesWithHashCode | GradualConstraints/src/main/java/de/unifreiburg/cs/proglang/jgs/signatures/SigConstraint.java:43-64 | equal constraints have equal hash codes |
| SigConstraints.ToString | GradualConstraints/src/main/java/de/unifreiburg/cs/proglang/jgs/signatures/SigConstraint.java:38-41 | defined iff no field is null, and then the left symbol's text, one space, the kind's text, one space and the right symbol's text |
| SigConstraints.SplitAtSpace | GradualConstraints/src/main/java/de/unifreiburg/cs/proglang/jgs/signatures/SigConstraint.java:38-41 | a space-free prefix and the rest are recovered from the text |
| SigConstraints.SpacedInjective | GradualConstraints/src/main/java/de/unifreiburg/cs/proglang/jgs/signatures/SigConstraint.java:38-41 | three parts joined by single spaces, the first two without spaces, are determined by the joined text |
| SigConstraints.ToStringInjective | GradualConstraints/src/main/java/de/unifreiburg/cs/proglang/jgs/signatures/SigConstraint.java:38-41 | when parts print without spaces and injectively, equal texts iff equal constraints |
| SigConstraints.ToTypingConstraint | GradualConstraints/src/main/java/de/unifreiburg/cs/proglang/jgs/signatures/SigConstraint.java:29-32 | the kind is kept |
| SigConstraints.TypingConstraintOfSymbols | GradualConstraints/src/main/java/de/unifreiburg/cs/proglang/jgs/signatures/SigConstraint.java:29-36 | the two sides are the translations of `symbols()[0]` and `symbols()[1]` by the same mapping |
| SigConstraints.TypingConstraintDependsOnSymbols | GradualConstraints/src/main/java/de/unifreiburg/cs/proglang/jgs/signatures/SigConstraint.java:29-36 | constraints with the same symbols and kind translate alike |
| ExtractorConstraints.AddBoundsFor | TaintTracking/src/extractor/AnnotationExtractor.java:535-541 | keeps the old constraints and adds exactly `component ≤ top` and `bottom ≤ component` |
| ExtractorConstraints.AddBoundsForAllBounds | TaintTracking/src/extractor/AnnotationExtractor.java:519-541 | adding bounds for one more component gives the bounds of the enlarged component set |
| ExtractorConstraints.ParameterRefsStep | TaintTracking/src/extractor/AnnotationExtractor.java:523-526 | the parameters `0..i` are those of `0..i-1` plus parameter `i` |
| ExtractorConstraints.GenerateInitialMethodConstraintsSignature | TaintTracking/src/extractor/AnnotationExtractor.java:519-533 | the loop yields exactly the bounds of the PC, parameters `0..n-1` and (if not void) the return component |
| ExtractorConstraints.AllBoundsBounds | TaintTracking/src/extractor/AnnotationExtractor.java:519-541 | a component is bounded in `AllBounds(comps)` iff it is in `comps` |
| ExtractorConstraints.InitialMethodSignatureBounds | TaintTracking/src/extractor/AnnotationExtractor.java:519-533 | the PC is bounded; parameter `i` iff `i < n`; the return iff the method is not void; nothing else appears |
| ExtractorConstraints.InitialClassConstraints | TaintTracking/src/extractor/AnnotationExtractor.java:543-548 | bounds the class's PC component and mentions no other component |
| ExtractorConstraints.ArrayCreatorConstraints | TaintTracking/src/extractor/AnnotationExtractor.java:488-517 | fails with an index error iff there are fewer levels than parameters |
| ExtractorConstraints.GenerateArrayCreatorConstraints | TaintTracking/src/extractor/AnnotationExtractor.java:488-517 | the loop yields `ArrayCreatorConstraints`, including the failure |
| ExtractorConstraints.ArrayCreatorStart | TaintTracking/src/extractor/AnnotationExtractor.java:500-504 | before any dimension the only constraint is `param 0 ≤ return`, present iff levels are given |
| ExtractorConstraints.ArrayCreatorStep | TaintTracking/src/extractor/AnnotationExtractor.java:505-515 | one more dimension adds its two level constraints and, below the parameter count, its parameter constraint |
| ExtractorConstraints.ArrayCreatorShape | TaintTracking/src/extractor/AnnotationExtractor.java:500-515 | dimension `j` in `1..n` is bounded both ways by `levels[j-1]`; `param j ≤ array j` iff `1 ≤ j < n`; `param 0 ≤ return` iff levels are given |
| ExtractorEnvironments.ClassEnvironmentFor | TaintTracking/src/extractor/AnnotationExtractor.java:216-269 | rejected iff an application class's mode annotation is unreadable; CONSTRAINTS: no effects, and the constraints are the initial class constraints plus the library constraints (library) or the annotated ones (none when absent); LEVELS: only the initial constraints, and the effects are the library ones or the annotated ones (none when absent) |
| ExtractorEnvironments.FieldLevelsFor | TaintTracking/src/extractor/AnnotationExtractor.java:281-303 | in both modes an application field is accepted iff it has a readable security annotation, and then takes its levels; missing means no-level error; library fields are always accepted |
| ExtractorEnvironments.FieldEnvironmentFor | TaintTracking/src/extractor/AnnotationExtractor.java:304-314 | accepted iff the levels are; holds exactly those levels and the declaring class's write effects |
| ExtractorEnvironments.Parameters | TaintTracking/src/extractor/AnnotationExtractor.java:417-424 | one parameter per level, parameter `i` at position `i` with level `i` |
| ExtractorEnvironments.ParametersStep | TaintTracking/src/extractor/AnnotationExtractor.java:417-424 | one more level appends the parameter at that position, with its name and level |
| ExtractorEnvironments.BuildParameters | TaintTracking/src/extractor/AnnotationExtractor.java:417-424 | the loop yields `Parameters` |
| ExtractorEnvironments.LevelsMethod | TaintTracking/src/extractor/AnnotationExtractor.java:377-466 | accepted iff `AcceptedInLevels`; a non-void method without a return annotation and a void method with one are rejected; the return level exists iff non-void and is the annotated (library: mediator's) one; one parameter per parameter (library: per mediator level), each at its position with its name and the annotated (library: mediator's) level; the effects are the annotated ones (none when absent) or the mediator's |
| ExtractorEnvironments.LevelsParameterNaming | TaintTracking/src/extractor/AnnotationExtractor.java:405-436 | parameter `i` gets the `i`-th annotated level and `names[i]`, or `arg(i+1)` when the name count differs |
| ExtractorEnvironments.ConstraintsMethod | TaintTracking/src/extractor/AnnotationExtractor.java:348-376 | rejected iff an application method that is not a class initializer has too few array-creator levels or an unreadable constraints annotation; otherwise the mediator's constraints (library), the class's constraints renamed to the method (class initializer), the generated array-creator constraints, or the annotated ones (none when absent) |
| ExtractorEnvironments.MethodEnvironmentFor | TaintTracking/src/extractor/AnnotationExtractor.java:323-486 | the class's write effects; accepted in LEVELS iff `AcceptedInLevels`, in CONSTRAINTS iff `ConstraintsMethod` accepts; CONSTRAINTS: exactly the initial method constraints plus `ConstraintsMethod`'s, no parameters, return level or effects; LEVELS: exactly the initial constraints and `LevelsMethod`'s parameters, return level and effects |
| ExtractorEnvironments.CheckedFieldEnvironment | TaintTracking/src/extractor/AnnotationExtractor.java:277-315 | accepted iff the field's levels and the declaring class are; the field's own error is reported first |
| ExtractorEnvironments.FirstRejected | TaintTracking/src/extractor/AnnotationExtractor.java:343-345 | every exception class before the index is accepted and the one at it, if any, is rejected |
| ExtractorEnvironments.FirstRejectedAccepted | TaintTracking/src/extractor/AnnotationExtractor.java:343-345 | every exception class before the first rejected index is accepted |
| ExtractorEnvironments.FirstRejectedAt | TaintTracking/src/extractor/AnnotationExtractor.java:343-345 | an index with every class before it accepted and the class at it rejected (or at the end) is the first rejected index |
| ExtractorEnvironments.CheckedMethodAcceptance | TaintTracking/src/extractor/AnnotationExtractor.java:323-346 | the whole method check accepts iff the declaring class, every exception class and the method's own annotations are |
| ExtractorEnvironments.LevelsAcceptance | TaintTracking/src/extractor/AnnotationExtractor.java:377-445 | with its classes accepted, a method is accepted in LEVELS iff `AcceptedInLevels` |
| ExtractorStore.AnnotationExtractor.constructor | TaintTracking/src/extractor/AnnotationExtractor.java:108-128 | an extractor starts with an empty store |
| ExtractorStore.AnnotationExtractor.AddClassEnvironmentForClass | TaintTracking/src/extractor/AnnotationExtractor.java:596-601 | passes iff the class is accepted; stores its environment once; keeps the store valid |
| ExtractorStore.AnnotationExtractor.AddFieldEnvironmentForField | TaintTracking/src/extractor/AnnotationExtractor.java:608-613 | a field already stored changes nothing; otherwise passes iff `CheckedFieldEnvironment` accepts and stores that environment; the field's levels are checked before its class is stored, which is the only class added |
| ExtractorStore.AnnotationExtractor.AddExceptionClasses | TaintTracking/src/extractor/AnnotationExtractor.java:343-345 | stores the exception classes in order up to the first rejected one, whose index it returns |
| ExtractorStore.AnnotationExtractor.CheckAndBuildMethodEnvironment | TaintTracking/src/extractor/AnnotationExtractor.java:323-346 | yields `CheckedMethodEnvironment`; the classes stored are exactly the declaring class and the exceptions before the first rejection |
| ExtractorStore.AnnotationExtractor.StoreMethodEnvironment | TaintTracking/src/extractor/AnnotationExtractor.java:198-201 | a method already stored changes nothing; otherwise passes iff `CheckedMethodEnvironment` accepts, stores that environment, and adds exactly the classes checked |
| ExtractorStore.AnnotationExtractor.StoreNewMethodEnvironment | TaintTracking/src/extractor/AnnotationExtractor.java:199-200 | for a method not stored yet: passes iff it is accepted, then stores its environment; the classes added are exactly the ones checked, even on rejection |
| ExtractorStore.AnnotationExtractor.AddMethodEnvironmentForMethod | TaintTracking/src/extractor/AnnotationExtractor.java:196-208 | stores the method once and, when asked, the first overridden method with no further recursion; passes iff both are accepted; an accepted method stays stored even when its overridden method is rejected; the method keys only grow, and only by these two |
| ExtractorStore.AnnotationExtractor.AddMethodEnvironment | TaintTracking/src/extractor/AnnotationExtractor.java:620-623 | passes iff the method and its first overridden method are both accepted; an accepted method is stored, and on success so is the overridden one; the method keys only grow, and only by these two; the class keys only grow, and only by the classes the two checks visit |

## Left out

- The source of `HandleStmt` is not part of this model. The session follows the level-2 tests and the rules stated in their comments.
  - Where the comments say "lpc" for field writes (AssignFieldsSuccess.java lines 81 and 116), the model checks fields against the global PC, as lines 40 and 146 say. Both PCs are bottom in those tests.
  - A general description of the system calls field and array writes a "permissive upgrade" that is never refused. The model follows the test comments instead, which check the target against the PC.
- Monitor.HandleStmt.SetLevelOfField: does not check the level of the reference through which the field is written. NSUPolicy3.java lines 36-37 call such a write "not ok", but the session's `setLevelOfField(object, field)` is given no reference local.
- Monitor.HandleStmt.SetLevelOfLocal: checks every registered local against the local PC, including one registered inside the raised scope. After `checkCondition` on a HIGH local, `addLocal("y")` and then `setLevelOfLocal("y")` is refused as an illegal flow on the first write to `y`. The tests do not show whether the session exempts locals declared inside the open scope; the model follows the "check ( x >= lpc)" comment of ArraysSuccess.java line 56, which has no such exemption.
- Monitor.HandleStmt.Close: the model demands that every local scope be closed. The tests close only after popping, so this is a modelling choice; the global-PC stack is not checked (IfStmtSuccess.java line 77 pushes one that is never popped).
- Branch tags are integers. The tests pass them as decimal strings (`"123"`) to `checkCondition` and as integers to `pushLocalPC`.
- `HandleStmt.init()` resets process-wide state. Here it is the construction of a fresh `ObjectMap`. Logging, threads and object identity are not modelled; objects are integer identities.
- Assignments.Builder.Build: returns the accumulated bindings as a value. The Java `Assignment` wraps the builder's live map, so later `add` calls would be seen through it; that aliasing is not modelled.
- `enumerateAll` follows the code. The comment's line `enumerateAll [] = []` disagrees: the code yields one empty assignment.
- The caller's variable list is not modified by `enumerateAll`. That holds by construction here, since sequences are values.
- The type domain's `enumerate()` is an input sequence.
- `makeSignature`, `Effects`, `symbolToCType`, `Constraints.make` and `TypeDomain` are not part of this model. A signature is the record of its three arguments, and effects are a set of levels. A typing constraint is the record of `Constraints.make`'s arguments, and the translation of symbols is a function parameter.
- The `hashCode`, `equals` and `toString` of symbols and constraint kinds are function parameters (`Equals` uses Dafny equality on them).
- ExtractorConstraints.AddBoundsFor: the Java method adds to its argument set in place; here it returns the enlarged set.
- Every call the extractor makes to Soot or to the level mediator is an input field of `ClassInfo`, `FieldInfo` or `MethodInfo`. This covers annotation presence and extraction, library levels, parameter names, the `@ArrayCreator` levels, the exception list and the overridden methods.
- `changeAllComponentsSignature`, used for class initializers, is the function parameter `rename`.
- Parameter types (`getParameterType`) are not recorded in `MethodParameter`. Their only effect is the index error for a library method with more mediator levels than parameters, which is modelled.
- The library return level depends on the parameter levels in the source. Here it is one input value.
- The extractor's flags `isIdFunction`, `isInit` and `isSootSecurityMethod` are only stored in the environment and are not modelled.
- The unknown-analysis-type branch cannot arise, because `AnalysisType` has exactly two values.
- `internalTransform`, `doExtraction`, `checkHierarchy` and `checkReasonability` are not modelled. They are scene traversal and checks over `ConstraintsSet` and sub-signatures, which are not part of this model.
- `Main.java`, both `AnnotationStmtSwitch.java` visitors, `TypeVarTest.java` and `IllegalArgumentsException.java` are not modelled. They are plumbing, instrumentation dispatch and tests of sources not shown.
- ExtractorStore.AnnotationExtractor.AddMethodEnvironment: the class entries added are bounded in the same way as for `AddMethodEnvironmentForMethod`, not stated exactly.
- ExtractorStore.AnnotationExtractor.AddMethodEnvironmentForMethod: the class entries added are bounded (old entries kept; new ones only from the checked classes of the two methods), not stated exactly. Every stored entry still equals its element's environment by `Valid`.
- An error is an `Err`/`Fail` value carrying the message kind. The Java exceptions also carry the element's signature and a cause.
