/**
 * The pure rules behind the dynamic information-flow monitor
 * (analyzer.level2.HandleStmt): the program-counter stacks, the checked
 * assignment rules for locals, fields and array slots, and the slot table
 * an array gets when it is registered.
 */
module MonitorRules {
  import opened Lattice
  import opened Outcomes
  import Decimal

  /** Identity of a heap object or array (Java reference equality). */
  type ObjectId = int

  /** Identity of a branch-entry site; the tests spell these as decimal strings. */
  type Tag = int

  datatype MonitorError =
    | IllegalFlow                                  // IllegalFlowException
    | UnknownLocal(name: string)                   // local never registered
    | UnknownField(obj: ObjectId, field: string)   // field or slot never registered
    | UnknownObject(obj: ObjectId)                 // object never registered
    | ScopeMismatch(tag: Tag)                      // unbalanced enter/exit of a scope

  // ---------------------------------------------------------------------
  // Program-counter stacks
  // ---------------------------------------------------------------------

  /** One entry of a session's local-PC stack. */
  datatype LocalPCEntry = LocalPCEntry(level: Level, tag: Tag)

  /** The local-PC stack of a session and the global-PC stack of the heap; tops are last. */
  datatype PcStacks = PcStacks(localPCs: seq<LocalPCEntry>, globalPCs: seq<Level>)

  /** The local PC: level of the innermost entry, bottom when no scope is open. */
  function LocalPC(ls: seq<LocalPCEntry>): Level
  {
    if ls == [] then Bottom() else ls[|ls| - 1].level
  }

  /** The global PC: the innermost global entry, bottom when none is open. */
  function GlobalPC(gs: seq<Level>): Level
  {
    if gs == [] then Bottom() else gs[|gs| - 1]
  }

  /**
   * `checkCondition`: open a scope whose condition reads operands of level
   * `cond`. The new local PC joins the condition with the enclosing local PC,
   * and the new global PC joins that with the enclosing global PC.
   */
  function EnterScope(st: PcStacks, cond: Level, tag: Tag): (r: PcStacks)
    ensures |r.localPCs| == |st.localPCs| + 1 && |r.globalPCs| == |st.globalPCs| + 1
    ensures r.localPCs[..|st.localPCs|] == st.localPCs && r.globalPCs[..|st.globalPCs|] == st.globalPCs
    ensures r.localPCs[|st.localPCs|].tag == tag
    ensures Leq(cond, LocalPC(r.localPCs)) && Leq(LocalPC(st.localPCs), LocalPC(r.localPCs))
    ensures forall c :: Leq(cond, c) && Leq(LocalPC(st.localPCs), c) ==> Leq(LocalPC(r.localPCs), c)
    ensures Leq(LocalPC(r.localPCs), GlobalPC(r.globalPCs)) && Leq(GlobalPC(st.globalPCs), GlobalPC(r.globalPCs))
    ensures forall c :: Leq(LocalPC(r.localPCs), c) && Leq(GlobalPC(st.globalPCs), c) ==> Leq(GlobalPC(r.globalPCs), c)
  {
    var l := Join(cond, LocalPC(st.localPCs));
    PcStacks(st.localPCs + [LocalPCEntry(l, tag)], st.globalPCs + [Join(GlobalPC(st.globalPCs), l)])
  }

  /**
   * `exitInnerScope`: close the innermost scope, which must carry `tag`;
   * one local and one global entry are removed.
   */
  function ExitScope(st: PcStacks, tag: Tag): (r: Result<PcStacks, MonitorError>)
    ensures r.Ok? <==> st.localPCs != [] && st.localPCs[|st.localPCs| - 1].tag == tag && st.globalPCs != []
    ensures r.Err? ==> r.error == ScopeMismatch(tag)
    ensures r.Ok? ==> r.value.localPCs + [st.localPCs[|st.localPCs| - 1]] == st.localPCs
    ensures r.Ok? ==> r.value.globalPCs + [st.globalPCs[|st.globalPCs| - 1]] == st.globalPCs
  {
    if st.localPCs == [] || st.localPCs[|st.localPCs| - 1].tag != tag || st.globalPCs == [] then
      Err(ScopeMismatch(tag))
    else
      Ok(PcStacks(st.localPCs[..|st.localPCs| - 1], st.globalPCs[..|st.globalPCs| - 1]))
  }

  /** Leaving a scope restores exactly the stacks that were there before it was entered. */
  lemma ExitUndoesEnter(st: PcStacks, cond: Level, tag: Tag)
    ensures ExitScope(EnterScope(st, cond, tag), tag) == Ok(st)
  {
    var inner := EnterScope(st, cond, tag);
    assert inner.localPCs[..|inner.localPCs| - 1] == st.localPCs;
    assert inner.globalPCs[..|inner.globalPCs| - 1] == st.globalPCs;
  }

  /** A properly nested branch: entered on a condition of some level, then its body, then left. */
  datatype Branch = Branch(tag: Tag, cond: Level, body: seq<Branch>)

  /** Runs one branch: enter its scope, run the nested branches, exit with the same tag. */
  function RunBranch(st: PcStacks, b: Branch): Result<PcStacks, MonitorError>
    decreases b, 1
  {
    match RunBranches(EnterScope(st, b.cond, b.tag), b.body)
    case Err(e) => Err(e)
    case Ok(inner) => ExitScope(inner, b.tag)
  }

  /** Runs a sequence of sibling branches one after another. */
  function RunBranches(st: PcStacks, bs: seq<Branch>): Result<PcStacks, MonitorError>
    decreases bs, 0
  {
    if bs == [] then Ok(st)
    else
      match RunBranch(st, bs[0])
      case Err(e) => Err(e)
      case Ok(next) => RunBranches(next, bs[1..])
  }

  /** Scope balance: a properly nested branch never fails and leaves both PCs as it found them. */
  lemma {:induction false} RunBranchBalanced(st: PcStacks, b: Branch)
    ensures RunBranch(st, b) == Ok(st)
    decreases b, 1
  {
    var inner := EnterScope(st, b.cond, b.tag);
    RunBranchesBalanced(inner, b.body);
    ExitUndoesEnter(st, b.cond, b.tag);
  }

  /** Scope balance for a sequence of sibling branches. */
  lemma {:induction false} RunBranchesBalanced(st: PcStacks, bs: seq<Branch>)
    ensures RunBranches(st, bs) == Ok(st)
    decreases bs, 0
  {
    if bs != [] {
      RunBranchBalanced(st, bs[0]);
      RunBranchesBalanced(st, bs[1..]);
    }
  }

  // ---------------------------------------------------------------------
  // Checked assignments
  // ---------------------------------------------------------------------

  /**
   * The no-sensitive-upgrade assignment to a local or a field: the target's
   * current level must be at least the program counter `pc`, and the target
   * then takes the join of the operands read and the program counter.
   */
  function GuardedAssign(current: Level, operands: Level, pc: Level): (r: Result<Level, MonitorError>)
    ensures r.Err? <==> !Leq(pc, current)
    ensures r.Err? ==> r.error == IllegalFlow
    ensures r.Ok? ==> Leq(pc, r.value) && Leq(operands, r.value)
    ensures r.Ok? ==> forall c :: Leq(pc, c) && Leq(operands, c) ==> Leq(r.value, c)
  {
    if Leq(pc, current) then Ok(Join(operands, pc)) else Err(IllegalFlow)
  }

  /**
   * Assignment to slot `a[i]`: the slot must be at least the join of the
   * global PC, the array reference and the index; it then takes the join of
   * the global PC, the operands read and the index.
   */
  function GuardedArrayAssign(current: Level, operands: Level, gpc: Level, arrayRef: Level, index: Level)
    : (r: Result<Level, MonitorError>)
    ensures r.Err? <==> !(Leq(gpc, current) && Leq(arrayRef, current) && Leq(index, current))
    ensures r.Err? ==> r.error == IllegalFlow
    ensures r.Ok? ==> Leq(gpc, r.value) && Leq(operands, r.value) && Leq(index, r.value)
    ensures r.Ok? ==> forall c :: Leq(gpc, c) && Leq(operands, c) && Leq(index, c) ==> Leq(r.value, c)
  {
    if Leq(Join(gpc, Join(arrayRef, index)), current) then Ok(Join(gpc, Join(operands, index)))
    else Err(IllegalFlow)
  }

  /** Under a bottom program counter a checked assignment never fails. */
  lemma GuardedAssignUnderBottom(current: Level, operands: Level)
    ensures GuardedAssign(current, operands, Bottom()) == Ok(operands)
  {
  }

  /** Under a top program counter only a target that is already top may be written. */
  lemma GuardedAssignUnderTop(current: Level, operands: Level)
    ensures GuardedAssign(current, operands, Top()).Ok? <==> current == Top()
    ensures GuardedAssign(current, operands, Top()).Ok? ==> GuardedAssign(current, operands, Top()).value == Top()
  {
  }

  /** The level of a branch condition: the join of the locals it reads, each of which must be registered. */
  function JoinLocals(locals: map<string, Level>, names: seq<string>): (r: Result<Level, MonitorError>)
    ensures r.Ok? <==> forall i :: 0 <= i < |names| ==> names[i] in locals
    ensures r.Err? ==> r.error.UnknownLocal? && r.error.name in names && r.error.name !in locals
    ensures r.Ok? ==> forall i :: 0 <= i < |names| ==> Leq(locals[names[i]], r.value)
    ensures r.Ok? ==> forall c :: (forall i :: 0 <= i < |names| ==> Leq(locals[names[i]], c)) ==> Leq(r.value, c)
  {
    if names == [] then Ok(Bottom())
    else if names[0] !in locals then Err(UnknownLocal(names[0]))
    else
      match JoinLocals(locals, names[1..])
      case Err(e) => Err(e)
      case Ok(rest) => Ok(Join(locals[names[0]], rest))
  }

  // ---------------------------------------------------------------------
  // The heap table
  // ---------------------------------------------------------------------

  /** The slots of a freshly registered array of `n` elements: keys "0" .. "n-1", all bottom. */
  function ArraySlots(n: nat): (m: map<string, Level>)
    ensures forall k :: k in m ==> m[k] == Bottom()
  {
    if n == 0 then map[] else ArraySlots(n - 1)[Decimal.NatToDecimal(n - 1) := Bottom()]
  }

  /** The slot for index `i` exists exactly when `i` is within the array. */
  lemma {:induction false} ArraySlotsIndex(n: nat, i: nat)
    ensures Decimal.NatToDecimal(i) in ArraySlots(n) <==> i < n
  {
    if n > 0 {
      ArraySlotsIndex(n - 1, i);
      Decimal.NatToDecimalInjective(i, n - 1);
    }
  }

  /** Every slot of a registered array is the decimal key of an index within the array. */
  lemma {:induction false} ArraySlotsOnlyIndices(n: nat, k: string)
    requires k in ArraySlots(n)
    ensures exists i: nat :: i < n && k == Decimal.NatToDecimal(i)
  {
    if k != Decimal.NatToDecimal(n - 1) {
      ArraySlotsOnlyIndices(n - 1, k);
    }
  }

  /** Registering an array of length `n` tracks exactly `n` slots. */
  lemma {:induction false} ArraySlotsCount(n: nat)
    ensures |ArraySlots(n)| == n
  {
    if n > 0 {
      ArraySlotsCount(n - 1);
      ArraySlotsIndex(n - 1, n - 1);
      assert Decimal.NatToDecimal(n - 1) !in ArraySlots(n - 1);
    }
  }

  /** The level of field `f` of object `o`, if both are registered. */
  function LookupField(objects: map<ObjectId, map<string, Level>>, o: ObjectId, f: string): Option<Level>
  {
    if o in objects && f in objects[o] then Some(objects[o][f]) else None
  }

  /** The level a field is checked against: its level, or bottom for a field not yet seen. */
  function FieldLevelOrBottom(objects: map<ObjectId, map<string, Level>>, o: ObjectId, f: string): Level
  {
    match LookupField(objects, o, f)
    case Some(l) => l
    case None => Bottom()
  }

  /** Sets field `f` of `o` to `l`, registering the object and the field if they are new. */
  function SetField(objects: map<ObjectId, map<string, Level>>, o: ObjectId, f: string, l: Level)
    : (r: map<ObjectId, map<string, Level>>)
    ensures LookupField(r, o, f) == Some(l)
    ensures forall o', f' :: (o', f') != (o, f) ==> LookupField(r, o', f') == LookupField(objects, o', f')
    ensures r.Keys == objects.Keys + {o}
  {
    objects[o := (if o in objects then objects[o] else map[])[f := l]]
  }
}
