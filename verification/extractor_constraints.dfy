/**
 * The initial signature constraints the annotation extractor generates
 * (extractor.AnnotationExtractor): every program-counter, parameter and
 * return component of a method is bounded by the lattice's least and
 * greatest level, a class bounds its program counter, and an
 * `@ArrayCreator` method ties its array dimensions to the annotated levels.
 *
 * Levels are a parameter `L`; the mediator's greatest lower bound and least
 * upper bound are passed in as `bottom` and `top`.
 */
module ExtractorConstraints {
  import opened Outcomes

  /** `IComponent`: the components a signature constraint relates. */
  datatype Component<L> =
    | ProgramCounterRef(signature: string)
    | ParameterRef(position: nat, signature: string)
    | ReturnRef(signature: string)
    | ArrayRef(returnOf: string, dimension: nat)
    | LevelRef(level: L)

  /** `LEQConstraint(lhs, rhs)`: `lhs` is at most `rhs`. */
  datatype Leq<L> = Leq(lhs: Component<L>, rhs: Component<L>)

  /** Why building an environment stops (the message keys of the exceptions thrown). */
  datatype ExtractorError =
    | ClassConstraintsError
    | ClassEffectsError
    | MethodConstraintsError
    | MethodEffectsError
    | FieldLevelError
    | FieldNoLevel
    | ReturnLevelError
    | ReturnNoLevel
    | ReturnOnVoid
    | ParameterLevelError
    | ParameterInvalid
    | ParameterNoLevel
    | IndexOutOfBounds

  /** `c` carries both bounds: `c <= top` and `bottom <= c`. */
  ghost predicate Bounded<L>(cs: set<Leq<L>>, c: Component<L>, top: L, bottom: L)
  {
    Leq(c, LevelRef(top)) in cs && Leq(LevelRef(bottom), c) in cs
  }

  /** `x` relates `c` to something, on either side. */
  ghost predicate Mentions<L>(x: Leq<L>, c: Component<L>)
  {
    x.lhs == c || x.rhs == c
  }

  /** Both bounds for every component of `comps`, and nothing else. */
  function AllBounds<L(==)>(comps: set<Component<L>>, top: L, bottom: L): set<Leq<L>>
  {
    (set c | c in comps :: Leq(c, LevelRef(top))) + (set c | c in comps :: Leq(LevelRef(bottom), c))
  }

  /** `addBoundsFor(constraints, component)`: adds `component <= top` and `bottom <= component`. */
  function AddBoundsFor<L(==)>(constraints: set<Leq<L>>, component: Component<L>, top: L, bottom: L): (r: set<Leq<L>>)
    ensures constraints <= r && Bounded(r, component, top, bottom)
    ensures r - constraints <= {Leq(component, LevelRef(top)), Leq(LevelRef(bottom), component)}
  {
    constraints + {Leq(component, LevelRef(top)), Leq(LevelRef(bottom), component)}
  }

  lemma AddBoundsForAllBounds<L>(constraints: set<Leq<L>>, comps: set<Component<L>>, c: Component<L>, top: L, bottom: L)
    requires constraints == AllBounds(comps, top, bottom)
    ensures AddBoundsFor(constraints, c, top, bottom) == AllBounds(comps + {c}, top, bottom)
  {
    var r := AddBoundsFor(constraints, c, top, bottom);
    var s := AllBounds(comps + {c}, top, bottom);
    forall x | x in s
      ensures x in r
    {
      if x.lhs == c || x.rhs == c {
      } else {
        assert x in constraints;
      }
    }
  }

  // Methods

  /** The parameter components `0 .. n-1` of a method. */
  function ParameterRefs<L(==)>(signature: string, n: nat): set<Component<L>>
  {
    set i | 0 <= i < n :: ParameterRef(i, signature)
  }

  /** The components a method's initial signature bounds: its PC, each parameter, and its return value unless void. */
  function MethodComponents<L(==)>(signature: string, n: nat, isVoid: bool): set<Component<L>>
  {
    {ProgramCounterRef(signature)} + ParameterRefs(signature, n) + (if isVoid then {} else {ReturnRef(signature)})
  }

  lemma ParameterRefsStep<L>(signature: string, i: nat)
    ensures ParameterRefs<L>(signature, i) + {ParameterRef(i, signature)} == ParameterRefs<L>(signature, i + 1)
  {
  }

  /** `generateInitialMethodConstraintsSignature(method, isVoid)`, for a method with `n` parameters. */
  method GenerateInitialMethodConstraintsSignature<L(==)>(signature: string, n: nat, isVoid: bool, top: L, bottom: L)
    returns (constraints: set<Leq<L>>)
    ensures constraints == AllBounds(MethodComponents(signature, n, isVoid), top, bottom)
  {
    var pc: Component<L> := ProgramCounterRef(signature);
    ghost var comps: set<Component<L>> := {pc} + ParameterRefs<L>(signature, 0);
    constraints := AddBoundsFor({}, pc, top, bottom);
    assert constraints == AllBounds(comps, top, bottom) by {
      AddBoundsForAllBounds({}, {}, pc, top, bottom);
      assert {} + {pc} == comps;
    }
    var i := 0;
    while i < n
      invariant 0 <= i <= n
      invariant comps == {pc} + ParameterRefs(signature, i)
      invariant constraints == AllBounds(comps, top, bottom)
    {
      var p := ParameterRef(i, signature);
      assert AddBoundsFor(constraints, p, top, bottom) == AllBounds(comps + {p}, top, bottom) by {
        AddBoundsForAllBounds(constraints, comps, p, top, bottom);
      }
      constraints := AddBoundsFor(constraints, p, top, bottom);
      comps := comps + {p};
      assert comps == {pc} + ParameterRefs(signature, i + 1) by {
        ParameterRefsStep<L>(signature, i);
      }
      i := i + 1;
    }
    if !isVoid {
      var ret := ReturnRef(signature);
      assert AddBoundsFor(constraints, ret, top, bottom) == AllBounds(comps + {ret}, top, bottom) by {
        AddBoundsForAllBounds(constraints, comps, ret, top, bottom);
      }
      constraints := AddBoundsFor(constraints, ret, top, bottom);
      comps := comps + {ret};
    }
    assert comps == MethodComponents(signature, n, isVoid);
  }

  /** Exactly the components other than levels that `AllBounds` holds bounds for. */
  lemma {:induction false} AllBoundsBounds<L>(comps: set<Component<L>>, c: Component<L>, top: L, bottom: L)
    requires !c.LevelRef?
    ensures Bounded(AllBounds(comps, top, bottom), c, top, bottom) <==> c in comps
    ensures Leq(c, LevelRef(top)) in AllBounds(comps, top, bottom) <==> c in comps
  {
  }

  /**
   * The initial method signature bounds the PC, exactly the parameters
   * `0 .. n-1`, and the return value exactly when the method is not void.
   */
  lemma InitialMethodSignatureBounds<L>(signature: string, n: nat, isVoid: bool, top: L, bottom: L, i: nat)
    ensures var cs := AllBounds(MethodComponents<L>(signature, n, isVoid), top, bottom);
      && Bounded(cs, ProgramCounterRef(signature), top, bottom)
      && (Bounded(cs, ParameterRef(i, signature), top, bottom) <==> i < n)
      && (Bounded(cs, ReturnRef(signature), top, bottom) <==> !isVoid)
      && (forall x :: x in cs ==> x.lhs in MethodComponents<L>(signature, n, isVoid) || x.rhs in MethodComponents<L>(signature, n, isVoid))
  {
    var comps := MethodComponents<L>(signature, n, isVoid);
    AllBoundsBounds(comps, ProgramCounterRef(signature), top, bottom);
    AllBoundsBounds(comps, ParameterRef(i, signature), top, bottom);
    AllBoundsBounds(comps, ReturnRef(signature), top, bottom);
  }

  // Classes

  /** `generateInitalClassConstraintsSignature(class)`: the bounds of the class's PC component only. */
  function InitialClassConstraints<L(==)>(className: string, top: L, bottom: L): (r: set<Leq<L>>)
    ensures Bounded(r, ProgramCounterRef(className), top, bottom)
    ensures forall x :: x in r ==> Mentions(x, ProgramCounterRef(className))
  {
    AddBoundsFor({}, ProgramCounterRef(className), top, bottom)
  }

  // Array creators

  /**
   * The constraints of an `@ArrayCreator` method after the first `i`
   * dimensions: `param 0 <= return` when levels are given; for each
   * dimension `j` the array component `j` equals `levels[j-1]`, and
   * `param j <= array j` while `j` is below the parameter count.
   */
  function ArrayCreatorUpTo<L(==)>(signature: string, n: nat, levels: seq<L>, i: nat): set<Leq<L>>
    requires i <= n && i <= |levels|
  {
    (if |levels| > 0 then {Leq(ParameterRef(0, signature), ReturnRef(signature))} else {})
    + (set k | 0 <= k < i :: Leq(LevelRef(levels[k]), ArrayRef(signature, k + 1)))
    + (set k | 0 <= k < i :: Leq(ArrayRef(signature, k + 1), LevelRef(levels[k])))
    + (set j | 1 <= j <= i && j < n :: Leq(ParameterRef(j, signature), ArrayRef(signature, j)))
  }

  /**
   * `generateArrayCreatorConstraints(method)` for a method with `n`
   * parameters and annotated levels `levels`: reading `levels[i]` for every
   * parameter fails when there are fewer levels than parameters.
   */
  function ArrayCreatorConstraints<L(==)>(signature: string, n: nat, levels: seq<L>): (r: Result<set<Leq<L>>, ExtractorError>)
    ensures r.Err? <==> |levels| < n
    ensures r.Err? ==> r.error == IndexOutOfBounds
  {
    if |levels| < n then Err(IndexOutOfBounds) else Ok(ArrayCreatorUpTo(signature, n, levels, n))
  }

  method GenerateArrayCreatorConstraints<L(==)>(signature: string, n: nat, levels: seq<L>)
    returns (r: Result<set<Leq<L>>, ExtractorError>)
    ensures r == ArrayCreatorConstraints(signature, n, levels)
  {
    var constraints: set<Leq<L>> := {};
    if |levels| > 0 {
      constraints := constraints + {Leq(ParameterRef(0, signature), ReturnRef(signature))};
    }
    ArrayCreatorStart(signature, n, levels);
    var i := 0;
    while i < n
      invariant 0 <= i <= n && i <= |levels|
      invariant constraints == ArrayCreatorUpTo(signature, n, levels, i)
    {
      var j := i + 1;
      if i >= |levels| {
        return Err(IndexOutOfBounds);
      }
      constraints := constraints + {Leq(LevelRef(levels[i]), ArrayRef(signature, j))};
      constraints := constraints + {Leq(ArrayRef(signature, j), LevelRef(levels[i]))};
      if j < n {
        constraints := constraints + {Leq(ParameterRef(j, signature), ArrayRef(signature, j))};
      }
      ArrayCreatorStep(signature, n, levels, i);
      i := j;
    }
    r := Ok(constraints);
  }

  /** Before any dimension, only `param 0 <= return` is there, and only when levels are given. */
  lemma ArrayCreatorStart<L>(signature: string, n: nat, levels: seq<L>)
    ensures ArrayCreatorUpTo(signature, n, levels, 0)
         == if |levels| > 0 then {Leq(ParameterRef(0, signature), ReturnRef(signature))} else {}
  {
  }

  /** One more dimension adds its two level constraints and, below the parameter count, its parameter constraint. */
  lemma ArrayCreatorStep<L>(signature: string, n: nat, levels: seq<L>, i: nat)
    requires i < n && i < |levels|
    ensures ArrayCreatorUpTo(signature, n, levels, i + 1)
         == ArrayCreatorUpTo(signature, n, levels, i)
            + {Leq(LevelRef(levels[i]), ArrayRef(signature, i + 1))}
            + {Leq(ArrayRef(signature, i + 1), LevelRef(levels[i]))}
            + (if i + 1 < n then {Leq(ParameterRef(i + 1, signature), ArrayRef(signature, i + 1))} else {})
  {
    var lower := set k | 0 <= k < i + 1 :: Leq(LevelRef(levels[k]), ArrayRef(signature, k + 1));
    assert lower == (set k | 0 <= k < i :: Leq(LevelRef(levels[k]), ArrayRef(signature, k + 1)))
                    + {Leq(LevelRef(levels[i]), ArrayRef(signature, i + 1))};
    var upper := set k | 0 <= k < i + 1 :: Leq(ArrayRef(signature, k + 1), LevelRef(levels[k]));
    assert upper == (set k | 0 <= k < i :: Leq(ArrayRef(signature, k + 1), LevelRef(levels[k])))
                    + {Leq(ArrayRef(signature, i + 1), LevelRef(levels[i]))};
    var params: set<Leq<L>> := set j | 1 <= j <= i + 1 && j < n :: Leq(ParameterRef(j, signature), ArrayRef(signature, j));
    assert params == (set j | 1 <= j <= i && j < n :: Leq(ParameterRef(j, signature), ArrayRef(signature, j)))
                     + (if i + 1 < n then {Leq(ParameterRef(i + 1, signature), ArrayRef(signature, i + 1))} else {});
  }

  /**
   * The shape of the array-creator constraints: dimension `j` in `1 .. n` is
   * bounded both ways by `levels[j-1]`; `param j <= array j` holds exactly
   * for `1 <= j < n`; `param 0 <= return` holds exactly when levels are given.
   */
  lemma ArrayCreatorShape<L>(signature: string, n: nat, levels: seq<L>, j: nat)
    requires n <= |levels|
    ensures var cs := ArrayCreatorUpTo(signature, n, levels, n);
      && (1 <= j <= n ==>
            Leq(LevelRef(levels[j - 1]), ArrayRef(signature, j)) in cs && Leq(ArrayRef(signature, j), LevelRef(levels[j - 1])) in cs)
      && (Leq(ParameterRef(j, signature), ArrayRef(signature, j)) in cs <==> 1 <= j < n)
      && (Leq(ParameterRef(0, signature), ReturnRef(signature)) in cs <==> |levels| > 0)
  {
    if 1 <= j <= n {
      var k := j - 1;
      assert Leq(LevelRef(levels[k]), ArrayRef(signature, k + 1)) in ArrayCreatorUpTo(signature, n, levels, n);
      assert Leq(ArrayRef(signature, k + 1), LevelRef(levels[k])) in ArrayCreatorUpTo(signature, n, levels, n);
    }
  }
}
