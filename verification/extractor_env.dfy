/**
 * What the annotation extractor builds for a class, a field and a method
 * (`checkAndBuildClassEnvironment`, `checkAndBuildFieldEnvironment`,
 * `checkAndBuildMethodEnvironment` of extractor.AnnotationExtractor), and
 * when it rejects one.
 *
 * Everything the extractor asks Soot or the level mediator is an input
 * here: a `ClassInfo`, `FieldInfo` or `MethodInfo` records the flags of the
 * program element, what each annotation extraction yields, and the library
 * defaults the mediator supplies.
 */
module ExtractorEnvironments {
  import opened Outcomes
  import opened ExtractorConstraints
  import Decimal

  /** `main.AnalysisType`. */
  datatype AnalysisType = Constraints | Levels

  /**
   * What asking for one annotation yields: no annotation, an annotation
   * whose extraction throws `AnnotationExtractionException`, or its value.
   */
  datatype Annotation<X> = Absent | Unreadable | Present(value: X)

  /** The annotation's value, or `default` when there is none to read. */
  function ValueOr<X>(a: Annotation<X>, default: X): X
  {
    if a.Present? then a.value else default
  }

  datatype ClassInfo<L(==)> = ClassInfo(
    name: string,
    isLibrary: bool,
    writeEffectAnnotation: Annotation<seq<L>>,
    constraintsAnnotation: Annotation<set<Leq<L>>>,
    libraryWriteEffects: seq<L>,
    libraryConstraints: set<Leq<L>>)

  datatype FieldInfo<L(==)> = FieldInfo(
    signature: string,
    declaringClass: ClassInfo<L>,
    securityAnnotation: Annotation<seq<L>>,
    libraryLevels: seq<L>)

  /** What the mediator answers for a library method. */
  datatype LibraryLevels<L(==)> = LibraryLevels(
    parameterLevels: seq<L>,
    returnLevel: L,
    writeEffects: seq<L>,
    constraints: set<Leq<L>>)

  datatype MethodInfo<L(==)> = MethodInfo(
    signature: string,
    declaringClass: ClassInfo<L>,
    exceptions: seq<ClassInfo<L>>,
    isLibrary: bool,
    isVoid: bool,
    isClinit: bool,
    isArrayFunction: bool,
    parameterCount: nat,
    parameterNames: seq<string>,
    returnAnnotation: Annotation<L>,
    parameterAnnotation: Annotation<seq<L>>,
    writeEffectAnnotation: Annotation<seq<L>>,
    constraintsAnnotation: Annotation<set<Leq<L>>>,
    arrayCreatorLevels: seq<L>,
    library: LibraryLevels<L>,
    overridden: seq<MethodInfo<L>>)

  datatype ClassEnvironment<L(==)> = ClassEnvironment(writeEffects: seq<L>, constraints: set<Leq<L>>)

  datatype FieldEnvironment<L(==)> = FieldEnvironment(levels: seq<L>, classWriteEffects: seq<L>)

  /** `MethodEnvironment.MethodParameter` without its Soot type. */
  datatype MethodParameter<L(==)> = MethodParameter(position: nat, name: string, level: L)

  datatype MethodEnvironment<L(==)> = MethodEnvironment(
    parameters: seq<MethodParameter<L>>,
    returnLevel: Option<L>,
    writeEffects: seq<L>,
    classWriteEffects: seq<L>,
    constraints: set<Leq<L>>)

  // Classes

  /**
   * `checkAndBuildClassEnvironment`: the initial class constraints, plus in
   * CONSTRAINTS mode the annotated (or library) constraints, and in LEVELS
   * mode the annotated (or library) write effects.
   */
  function ClassEnvironmentFor<L(==)>(mode: AnalysisType, c: ClassInfo<L>, top: L, bottom: L)
    : (r: Result<ClassEnvironment<L>, ExtractorError>)
    ensures r.Ok? ==> InitialClassConstraints(c.name, top, bottom) <= r.value.constraints
    ensures r.Err? <==>
      (!c.isLibrary &&
       if mode == Constraints then c.constraintsAnnotation.Unreadable? else c.writeEffectAnnotation.Unreadable?)
    ensures r.Ok? && mode == Levels ==> r.value.constraints == InitialClassConstraints(c.name, top, bottom)
    ensures r.Ok? && mode == Constraints ==> r.value.writeEffects == []
    ensures r.Ok? && mode == Constraints ==>
      r.value.constraints == InitialClassConstraints(c.name, top, bottom)
                             + if c.isLibrary then c.libraryConstraints else ValueOr(c.constraintsAnnotation, {})
    ensures r.Ok? && mode == Levels ==>
      r.value.writeEffects == if c.isLibrary then c.libraryWriteEffects else ValueOr(c.writeEffectAnnotation, [])
  {
    var initial := InitialClassConstraints(c.name, top, bottom);
    match mode
    case Constraints =>
      if c.isLibrary then Ok(ClassEnvironment([], initial + c.libraryConstraints))
      else (
        match c.constraintsAnnotation
        case Absent => Ok(ClassEnvironment([], initial))
        case Unreadable => Err(ClassConstraintsError)
        case Present(cs) => Ok(ClassEnvironment([], initial + cs)))
    case Levels =>
      if c.isLibrary then Ok(ClassEnvironment(c.libraryWriteEffects, initial))
      else (
        match c.writeEffectAnnotation
        case Absent => Ok(ClassEnvironment([], initial))
        case Unreadable => Err(ClassEffectsError)
        case Present(es) => Ok(ClassEnvironment(es, initial)))
  }

  // Fields

  /**
   * The field levels `checkAndBuildFieldEnvironment` extracts, the same in
   * both analysis modes: an application field must carry a readable
   * field-security annotation; a library field takes the mediator's levels.
   */
  function FieldLevelsFor<L(==)>(f: FieldInfo<L>): (r: Result<seq<L>, ExtractorError>)
    ensures !f.declaringClass.isLibrary && f.securityAnnotation.Absent? ==> r == Err(FieldNoLevel)
    ensures r.Ok? <==> f.declaringClass.isLibrary || f.securityAnnotation.Present?
    ensures r.Ok? && !f.declaringClass.isLibrary ==> r.value == f.securityAnnotation.value
  {
    if f.declaringClass.isLibrary then Ok(f.libraryLevels)
    else
      match f.securityAnnotation
      case Absent => Err(FieldNoLevel)
      case Unreadable => Err(FieldLevelError)
      case Present(ls) => Ok(ls)
  }

  /** The field environment, given the environment of the declaring class. */
  function FieldEnvironmentFor<L(==)>(f: FieldInfo<L>, ce: ClassEnvironment<L>): (r: Result<FieldEnvironment<L>, ExtractorError>)
    ensures r.Ok? <==> FieldLevelsFor(f).Ok?
    ensures r.Ok? ==> r.value.levels == FieldLevelsFor(f).value
    ensures r.Ok? ==> r.value.classWriteEffects == ce.writeEffects
  {
    match FieldLevelsFor(f)
    case Err(e) => Err(e)
    case Ok(ls) => Ok(FieldEnvironment(ls, ce.writeEffects))
  }

  // Methods

  /** The name of parameter `i`: the declared name when every parameter has one, else `arg<i+1>`. */
  function ParameterName(i: nat, count: nat, names: seq<string>): string
    requires i < count
  {
    if count == |names| then names[i] else "arg" + Decimal.NatToDecimal(i + 1)
  }

  /** The parameter list built from `levels`: parameter `i` has position `i`, its name and `levels[i]`. */
  function Parameters<L(==)>(levels: seq<L>, count: nat, names: seq<string>): (ps: seq<MethodParameter<L>>)
    requires |levels| <= count
    ensures |ps| == |levels|
    ensures forall i :: 0 <= i < |ps| ==> ps[i].position == i && ps[i].level == levels[i]
  {
    seq(|levels|, i requires 0 <= i < |levels| => MethodParameter(i, ParameterName(i, count, names), levels[i]))
  }

  /** Extending the levels by one extends the parameter list by the parameter at that position. */
  lemma ParametersStep<L>(levels: seq<L>, count: nat, names: seq<string>, i: nat)
    requires i < |levels| <= count
    ensures Parameters(levels[..i + 1], count, names)
         == Parameters(levels[..i], count, names) + [MethodParameter(i, ParameterName(i, count, names), levels[i])]
  {
    var prefix := levels[..i + 1];
    assert prefix[..i] == levels[..i];
  }

  /** The loop of `checkAndBuildMethodEnvironment` that turns the parameter levels into parameters. */
  method BuildParameters<L(==)>(levels: seq<L>, count: nat, names: seq<string>) returns (ps: seq<MethodParameter<L>>)
    requires |levels| <= count
    ensures ps == Parameters(levels, count, names)
  {
    ps := [];
    var i := 0;
    while i < |levels|
      invariant 0 <= i <= |levels|
      invariant ps == Parameters(levels[..i], count, names)
    {
      var name := if count == |names| then names[i] else "arg" + Decimal.NatToDecimal(i + 1);
      ps := ps + [MethodParameter(i, name, levels[i])];
      ParametersStep(levels, count, names, i);
      i := i + 1;
    }
    assert levels[..i] == levels;
  }

  /** The LEVELS-mode parts of a method environment. */
  datatype MethodLevels<L(==)> = MethodLevels(parameters: seq<MethodParameter<L>>, returnLevel: Option<L>, writeEffects: seq<L>)

  /**
   * When LEVELS mode accepts a method: an application method carries a
   * readable return annotation exactly when it is not void, a readable
   * parameter annotation with one level per parameter when it has
   * parameters, and no unreadable write-effect annotation; a library method
   * gets no more parameter levels from the mediator than it has parameters.
   */
  ghost predicate AcceptedInLevels<L>(m: MethodInfo<L>)
  {
    if m.isLibrary then |m.library.parameterLevels| <= m.parameterCount
    else
      && (if m.isVoid then m.returnAnnotation.Absent? else m.returnAnnotation.Present?)
      && (m.parameterCount != 0 ==> m.parameterAnnotation.Present? && |m.parameterAnnotation.value| == m.parameterCount)
      && !m.writeEffectAnnotation.Unreadable?
  }

  /** The return level in LEVELS mode: checked first. */
  function LevelsReturn<L(==)>(m: MethodInfo<L>): Result<Option<L>, ExtractorError>
    requires !m.isLibrary
  {
    if !m.isVoid then
      match m.returnAnnotation
      case Absent => Err(ReturnNoLevel)
      case Unreadable => Err(ReturnLevelError)
      case Present(l) => Ok(Some(l))
    else if m.returnAnnotation.Absent? then Ok(None)
    else Err(ReturnOnVoid)
  }

  /** The parameters in LEVELS mode: checked second. */
  function LevelsParameters<L(==)>(m: MethodInfo<L>): Result<seq<MethodParameter<L>>, ExtractorError>
    requires !m.isLibrary
  {
    if m.parameterCount == 0 then Ok([])
    else
      match m.parameterAnnotation
      case Absent => Err(ParameterNoLevel)
      case Unreadable => Err(ParameterLevelError)
      case Present(ls) =>
        if |ls| == m.parameterCount then Ok(Parameters(ls, m.parameterCount, m.parameterNames))
        else Err(ParameterInvalid)
  }

  /** The write effects in LEVELS mode: checked last. */
  function LevelsEffects<L(==)>(m: MethodInfo<L>): Result<seq<L>, ExtractorError>
  {
    match m.writeEffectAnnotation
    case Absent => Ok([])
    case Unreadable => Err(MethodEffectsError)
    case Present(es) => Ok(es)
  }

  /**
   * The LEVELS branch of `checkAndBuildMethodEnvironment`: the annotated
   * return level, parameters and effects of an application method, or the
   * mediator's levels for a library method.
   */
  function LevelsMethod<L(==)>(m: MethodInfo<L>): (r: Result<MethodLevels<L>, ExtractorError>)
    ensures r.Ok? <==> AcceptedInLevels(m)
    ensures !m.isLibrary && !m.isVoid && m.returnAnnotation.Absent? ==> r == Err(ReturnNoLevel)
    ensures !m.isLibrary && m.isVoid && !m.returnAnnotation.Absent? ==> r == Err(ReturnOnVoid)
    ensures r.Ok? ==> (r.value.returnLevel.Some? <==> !m.isVoid)
    ensures r.Ok? ==> |r.value.parameters| == if m.isLibrary then |m.library.parameterLevels| else m.parameterCount
    ensures r.Ok? ==> forall i :: 0 <= i < |r.value.parameters| ==>
      r.value.parameters[i].position == i && r.value.parameters[i].name == ParameterName(i, m.parameterCount, m.parameterNames)
    ensures r.Ok? && m.isLibrary ==> forall i :: 0 <= i < |r.value.parameters| ==>
      r.value.parameters[i].level == m.library.parameterLevels[i]
    ensures r.Ok? && !m.isLibrary ==> forall i :: 0 <= i < |r.value.parameters| ==>
      m.parameterAnnotation.Present? && r.value.parameters[i].level == m.parameterAnnotation.value[i]
    ensures r.Ok? && !m.isVoid ==>
      r.value.returnLevel.value == if m.isLibrary then m.library.returnLevel else m.returnAnnotation.value
    ensures r.Ok? ==> r.value.writeEffects == if m.isLibrary then m.library.writeEffects else ValueOr(m.writeEffectAnnotation, [])
  {
    if m.isLibrary then
      if |m.library.parameterLevels| > m.parameterCount then Err(IndexOutOfBounds)
      else
        var ps := Parameters(m.library.parameterLevels, m.parameterCount, m.parameterNames);
        Ok(MethodLevels(ps, if m.isVoid then None else Some(m.library.returnLevel), m.library.writeEffects))
    else
      match LevelsReturn(m)
      case Err(e) => Err(e)
      case Ok(ret) =>
        match LevelsParameters(m)
        case Err(e) => Err(e)
        case Ok(ps) =>
          match LevelsEffects(m)
          case Err(e) => Err(e)
          case Ok(es) => Ok(MethodLevels(ps, ret, es))
  }

  /**
   * Parameter `i` of an accepted application method has the `i`-th annotated
   * level and its declared name, or `arg<i+1>` when the name count differs.
   */
  lemma LevelsParameterNaming<L>(m: MethodInfo<L>, i: nat)
    requires !m.isLibrary && LevelsMethod(m).Ok? && i < m.parameterCount
    ensures var p := LevelsMethod(m).value.parameters[i];
      && p.level == m.parameterAnnotation.value[i]
      && p.name == (if m.parameterCount == |m.parameterNames| then m.parameterNames[i] else "arg" + Decimal.NatToDecimal(i + 1))
  {
  }

  /**
   * The CONSTRAINTS branch: the class initializer takes the class's
   * constraints renamed to the method (`changeAllComponentsSignature`, an
   * input here as `rename`), an array creator its generated constraints, any
   * other application method its readable constraints annotation, a library
   * method the mediator's constraints.
   */
  function ConstraintsMethod<L(==)>(m: MethodInfo<L>, ce: ClassEnvironment<L>,
                                    rename: (string, set<Leq<L>>) -> set<Leq<L>>)
    : (r: Result<set<Leq<L>>, ExtractorError>)
    ensures r.Err? <==>
      (!m.isLibrary && !m.isClinit &&
       if m.isArrayFunction then |m.arrayCreatorLevels| < m.parameterCount else m.constraintsAnnotation.Unreadable?)
    ensures m.isLibrary ==> r == Ok(m.library.constraints)
    ensures !m.isLibrary && m.isClinit ==> r == Ok(rename(m.signature, ce.constraints))
    ensures !m.isLibrary && !m.isClinit && m.isArrayFunction ==>
      r == ArrayCreatorConstraints(m.signature, m.parameterCount, m.arrayCreatorLevels)
    ensures r.Ok? && !m.isLibrary && !m.isClinit && !m.isArrayFunction ==> r.value == ValueOr(m.constraintsAnnotation, {})
  {
    if m.isLibrary then Ok(m.library.constraints)
    else if m.isClinit then Ok(rename(m.signature, ce.constraints))
    else if m.isArrayFunction then ArrayCreatorConstraints(m.signature, m.parameterCount, m.arrayCreatorLevels)
    else
      match m.constraintsAnnotation
      case Absent => Ok({})
      case Unreadable => Err(MethodConstraintsError)
      case Present(cs) => Ok(cs)
  }

  /**
   * `checkAndBuildMethodEnvironment`, given the declaring class's
   * environment: the initial method constraints, the class's write effects,
   * and the mode-specific parts.
   */
  function MethodEnvironmentFor<L(==)>(mode: AnalysisType, m: MethodInfo<L>, ce: ClassEnvironment<L>, top: L, bottom: L,
                                       rename: (string, set<Leq<L>>) -> set<Leq<L>>)
    : (r: Result<MethodEnvironment<L>, ExtractorError>)
    ensures r.Ok? ==> AllBounds(MethodComponents(m.signature, m.parameterCount, m.isVoid), top, bottom) <= r.value.constraints
    ensures r.Ok? ==> r.value.classWriteEffects == ce.writeEffects
    ensures mode == Levels ==> (r.Ok? <==> AcceptedInLevels(m))
    ensures mode == Constraints ==> (r.Ok? <==> ConstraintsMethod(m, ce, rename).Ok?)
    ensures r.Ok? && mode == Constraints ==>
      && r.value.constraints == AllBounds(MethodComponents(m.signature, m.parameterCount, m.isVoid), top, bottom)
                                + ConstraintsMethod(m, ce, rename).value
      && r.value.parameters == [] && r.value.returnLevel == None && r.value.writeEffects == []
    ensures r.Ok? && mode == Levels ==>
      && r.value.constraints == AllBounds(MethodComponents(m.signature, m.parameterCount, m.isVoid), top, bottom)
      && r.value.parameters == LevelsMethod(m).value.parameters
      && r.value.returnLevel == LevelsMethod(m).value.returnLevel
      && r.value.writeEffects == LevelsMethod(m).value.writeEffects
  {
    var initial := AllBounds(MethodComponents(m.signature, m.parameterCount, m.isVoid), top, bottom);
    match mode
    case Constraints =>
      (match ConstraintsMethod(m, ce, rename)
       case Err(e) => Err(e)
       case Ok(cs) => Ok(MethodEnvironment([], None, [], ce.writeEffects, initial + cs)))
    case Levels =>
      (match LevelsMethod(m)
       case Err(e) => Err(e)
       case Ok(ml) => Ok(MethodEnvironment(ml.parameters, ml.returnLevel, ml.writeEffects, ce.writeEffects, initial)))
  }

  // The whole check of one field or method

  /**
   * What `checkAndBuildFieldEnvironment` yields: the field's levels are
   * checked first, then the declaring class's environment is built.
   */
  function CheckedFieldEnvironment<L(==)>(mode: AnalysisType, f: FieldInfo<L>, top: L, bottom: L)
    : (r: Result<FieldEnvironment<L>, ExtractorError>)
    ensures r.Ok? <==> FieldLevelsFor(f).Ok? && ClassEnvironmentFor(mode, f.declaringClass, top, bottom).Ok?
    ensures FieldLevelsFor(f).Err? ==> r == Err(FieldLevelsFor(f).error)
    ensures r.Ok? ==> r.value.levels == FieldLevelsFor(f).value
    ensures r.Ok? ==> r.value.classWriteEffects == ClassEnvironmentFor(mode, f.declaringClass, top, bottom).value.writeEffects
  {
    match FieldLevelsFor(f)
    case Err(e) => Err(e)
    case Ok(_) =>
      match ClassEnvironmentFor(mode, f.declaringClass, top, bottom)
      case Err(e) => Err(e)
      case Ok(ce) => FieldEnvironmentFor(f, ce)
  }

  /** The index of the first class in `cs` whose environment is rejected, or `|cs|`. */
  function FirstRejected<L(==)>(mode: AnalysisType, cs: seq<ClassInfo<L>>, top: L, bottom: L): (k: nat)
    ensures k <= |cs|
    ensures k < |cs| ==> ClassEnvironmentFor(mode, cs[k], top, bottom).Err?
  {
    if cs == [] then 0
    else if ClassEnvironmentFor(mode, cs[0], top, bottom).Err? then 0
    else 1 + FirstRejected(mode, cs[1..], top, bottom)
  }

  /** Every class before `FirstRejected` is accepted. */
  lemma {:induction false} FirstRejectedAccepted<L>(mode: AnalysisType, cs: seq<ClassInfo<L>>, top: L, bottom: L, j: nat)
    requires j < FirstRejected(mode, cs, top, bottom)
    ensures ClassEnvironmentFor(mode, cs[j], top, bottom).Ok?
  {
    if j > 0 {
      FirstRejectedAccepted(mode, cs[1..], top, bottom, j - 1);
    }
  }

  /**
   * `FirstRejected` is the only index up to which every class is accepted
   * and at which (unless it is `|cs|`) a class is rejected.
   */
  lemma {:induction false} FirstRejectedAt<L>(mode: AnalysisType, cs: seq<ClassInfo<L>>, top: L, bottom: L, k: nat)
    requires k <= |cs|
    requires forall j :: 0 <= j < k ==> ClassEnvironmentFor(mode, cs[j], top, bottom).Ok?
    requires k < |cs| ==> ClassEnvironmentFor(mode, cs[k], top, bottom).Err?
    ensures FirstRejected(mode, cs, top, bottom) == k
  {
    if k > 0 {
      assert ClassEnvironmentFor(mode, cs[0], top, bottom).Ok?;
      assert forall j :: 0 <= j < k - 1 ==> cs[1..][j] == cs[j + 1];
      FirstRejectedAt(mode, cs[1..], top, bottom, k - 1);
    }
  }

  /**
   * What `checkAndBuildMethodEnvironment` yields: the declaring class's
   * environment is built first, then those of the declared exceptions in
   * order, and the first rejection is the method's error.
   */
  function CheckedMethodEnvironment<L(==)>(mode: AnalysisType, m: MethodInfo<L>, top: L, bottom: L,
                                           rename: (string, set<Leq<L>>) -> set<Leq<L>>)
    : Result<MethodEnvironment<L>, ExtractorError>
  {
    match ClassEnvironmentFor(mode, m.declaringClass, top, bottom)
    case Err(e) => Err(e)
    case Ok(ce) =>
      var k := FirstRejected(mode, m.exceptions, top, bottom);
      if k < |m.exceptions| then Err(ClassEnvironmentFor(mode, m.exceptions[k], top, bottom).error)
      else MethodEnvironmentFor(mode, m, ce, top, bottom, rename)
  }

  /**
   * A method is accepted exactly when its declaring class and every declared
   * exception class are, and its own environment can be built.
   */
  lemma CheckedMethodAcceptance<L>(mode: AnalysisType, m: MethodInfo<L>, top: L, bottom: L,
                                   rename: (string, set<Leq<L>>) -> set<Leq<L>>)
    ensures CheckedMethodEnvironment(mode, m, top, bottom, rename).Ok? <==>
      && ClassEnvironmentFor(mode, m.declaringClass, top, bottom).Ok?
      && (forall e :: e in m.exceptions ==> ClassEnvironmentFor(mode, e, top, bottom).Ok?)
      && MethodEnvironmentFor(mode, m, ClassEnvironmentFor(mode, m.declaringClass, top, bottom).value, top, bottom, rename).Ok?
  {
    var k := FirstRejected(mode, m.exceptions, top, bottom);
    if k == |m.exceptions| {
      forall e | e in m.exceptions
        ensures ClassEnvironmentFor(mode, e, top, bottom).Ok?
      {
        var j :| 0 <= j < |m.exceptions| && m.exceptions[j] == e;
        FirstRejectedAccepted(mode, m.exceptions, top, bottom, j);
      }
    }
  }

  /**
   * In LEVELS mode an application method whose classes are accepted is
   * accepted exactly when its return, parameter and effect annotations are
   * as `AcceptedInLevels` demands.
   */
  lemma LevelsAcceptance<L>(m: MethodInfo<L>, top: L, bottom: L, rename: (string, set<Leq<L>>) -> set<Leq<L>>)
    requires ClassEnvironmentFor(Levels, m.declaringClass, top, bottom).Ok?
    requires forall e :: e in m.exceptions ==> ClassEnvironmentFor(Levels, e, top, bottom).Ok?
    ensures CheckedMethodEnvironment(Levels, m, top, bottom, rename).Ok? <==> AcceptedInLevels(m)
  {
  }
}
