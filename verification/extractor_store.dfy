/**
 * The annotation extractor's memo of environments (the `UsedObjectStore`
 * that `addClassEnvironmentForClass`, `addFieldEvironmentForField` and
 * `addMethodEnvironmentForMethod` of extractor.AnnotationExtractor fill).
 *
 * An environment is built at most once per class, field or method and then
 * kept; a rejected element leaves no entry of its own, but the class entries
 * added while checking it stay, as they do when the extractor throws.
 */
module ExtractorStore {
  import opened Outcomes
  import opened ExtractorConstraints
  import opened ExtractorEnvironments

  /** The first `k + 1` elements are the first `k` and then `s[k]`. */
  lemma PrefixStep<T>(s: seq<T>, k: nat)
    requires k < |s|
    ensures forall x :: x in s[..k + 1] <==> x in s[..k] || x == s[k]
  {
    assert s[..k + 1] == s[..k] + [s[k]];
  }

  /** The keys of `after` are those of `before` and the classes in `added`. */
  ghost predicate StoredExactly<L(!new)>(before: map<ClassInfo<L>, ClassEnvironment<L>>, after: map<ClassInfo<L>, ClassEnvironment<L>>,
                                      added: seq<ClassInfo<L>>)
  {
    forall c :: c in after <==> c in before || c in added
  }

  class AnnotationExtractor<L(==,!new)> {
    const mode: AnalysisType
    const top: L
    const bottom: L
    /** `ConstraintsUtils.changeAllComponentsSignature`, which is not part of this model. */
    const rename: (string, set<Leq<L>>) -> set<Leq<L>>

    var classes: map<ClassInfo<L>, ClassEnvironment<L>>
    var fields: map<FieldInfo<L>, FieldEnvironment<L>>
    var methods: map<MethodInfo<L>, MethodEnvironment<L>>

    /**
     * Every stored environment is the one its element's check yields, and
     * the classes a stored field or method depends on are stored too.
     */
    ghost predicate Valid()
      reads this
    {
      && (forall c {:trigger classes[c]} :: c in classes ==> ClassEnvironmentFor(mode, c, top, bottom) == Ok(classes[c]))
      && (forall f {:trigger fields[f]} :: f in fields ==>
            f.declaringClass in classes && CheckedFieldEnvironment(mode, f, top, bottom) == Ok(fields[f]))
      && (forall m {:trigger methods[m]} :: m in methods ==>
            m.declaringClass in classes && CheckedMethodEnvironment(mode, m, top, bottom, rename) == Ok(methods[m]))
      && (forall m, e :: m in methods && e in m.exceptions ==> e in classes)
    }

    /** The classes checking `m` stores: its declaring class, then its exceptions up to the first rejected one. */
    ghost function ClassesChecked(m: MethodInfo<L>): seq<ClassInfo<L>>
    {
      if ClassEnvironmentFor(mode, m.declaringClass, top, bottom).Err? then []
      else [m.declaringClass] + m.exceptions[..FirstRejected(mode, m.exceptions, top, bottom)]
    }

    constructor (mode: AnalysisType, top: L, bottom: L, rename: (string, set<Leq<L>>) -> set<Leq<L>>)
      ensures Valid()
      ensures this.mode == mode && this.top == top && this.bottom == bottom && this.rename == rename
      ensures classes == map[] && fields == map[] && methods == map[]
    {
      this.mode := mode;
      this.top := top;
      this.bottom := bottom;
      this.rename := rename;
      classes := map[];
      fields := map[];
      methods := map[];
    }

    /** `addClassEnvironmentForClass`: builds and stores the class's environment unless it is stored already. */
    method AddClassEnvironmentForClass(c: ClassInfo<L>) returns (o: Outcome<ExtractorError>)
      requires Valid()
      modifies this
      ensures Valid()
      ensures o.Pass? <==> ClassEnvironmentFor(mode, c, top, bottom).Ok?
      ensures o.Fail? ==> o.error == ClassEnvironmentFor(mode, c, top, bottom).error
      ensures o.Pass? ==> classes == old(classes)[c := ClassEnvironmentFor(mode, c, top, bottom).value]
      ensures o.Fail? ==> classes == old(classes)
      ensures fields == old(fields) && methods == old(methods)
    {
      if c in classes {
        o := Pass;
        assert classes == classes[c := classes[c]];
        return;
      }
      var ce := ClassEnvironmentFor(mode, c, top, bottom);
      if ce.Err? {
        o := Fail(ce.error);
      } else {
        classes := classes[c := ce.value];
        o := Pass;
      }
    }

    /**
     * `addFieldEvironmentForField`: unless the field is stored already, checks
     * its levels, then stores its declaring class and the field.
     */
    method AddFieldEnvironmentForField(f: FieldInfo<L>) returns (o: Outcome<ExtractorError>)
      requires Valid()
      modifies this
      ensures Valid()
      ensures o.Pass? <==> CheckedFieldEnvironment(mode, f, top, bottom).Ok?
      ensures o.Fail? ==> o.error == CheckedFieldEnvironment(mode, f, top, bottom).error
      ensures f in old(fields) ==> fields == old(fields) && classes == old(classes)
      ensures f !in old(fields) && o.Pass? ==> fields == old(fields)[f := CheckedFieldEnvironment(mode, f, top, bottom).value]
      ensures f !in old(fields) && o.Fail? ==> fields == old(fields)
      ensures FieldLevelsFor(f).Err? ==> classes == old(classes)
      ensures StoredExactly(old(classes), classes,
        if FieldLevelsFor(f).Ok? && ClassEnvironmentFor(mode, f.declaringClass, top, bottom).Ok? then [f.declaringClass] else [])
      ensures methods == old(methods)
    {
      if f in fields {
        o := Pass;
        return;
      }
      var levels := FieldLevelsFor(f);
      if levels.Err? {
        o := Fail(levels.error);
        return;
      }
      o := AddClassEnvironmentForClass(f.declaringClass);
      if o.Pass? {
        fields := fields[f := FieldEnvironment(levels.value, classes[f.declaringClass].writeEffects)];
      }
    }

    /**
     * The loop of `checkAndBuildMethodEnvironment` over the declared
     * exceptions: stores each exception class in order and stops at the
     * first one rejected, whose index it answers (`|es|` when none is).
     */
    method AddExceptionClasses(es: seq<ClassInfo<L>>) returns (k: nat)
      requires Valid()
      modifies this
      ensures Valid()
      ensures k == FirstRejected(mode, es, top, bottom)
      ensures StoredExactly(old(classes), classes, es[..k])
      ensures fields == old(fields) && methods == old(methods)
    {
      k := 0;
      while k < |es|
        invariant 0 <= k <= |es|
        invariant forall j :: 0 <= j < k ==> ClassEnvironmentFor(mode, es[j], top, bottom).Ok?
        invariant Valid()
        invariant fields == old(fields) && methods == old(methods)
        invariant StoredExactly(old(classes), classes, es[..k])
      {
        var o := AddClassEnvironmentForClass(es[k]);
        if o.Fail? {
          FirstRejectedAt(mode, es, top, bottom, k);
          return;
        }
        PrefixStep(es, k);
        k := k + 1;
      }
      FirstRejectedAt(mode, es, top, bottom, k);
    }

    /**
     * `checkAndBuildMethodEnvironment`: stores the declaring class and then
     * each declared exception class, and yields the method's environment.
     * The classes stored before a rejection stay stored.
     */
    method CheckAndBuildMethodEnvironment(m: MethodInfo<L>) returns (r: Result<MethodEnvironment<L>, ExtractorError>)
      requires Valid()
      modifies this
      ensures Valid()
      ensures r == CheckedMethodEnvironment(mode, m, top, bottom, rename)
      ensures r.Ok? ==> m.declaringClass in classes && forall e :: e in m.exceptions ==> e in classes
      ensures StoredExactly(old(classes), classes, ClassesChecked(m))
      ensures fields == old(fields) && methods == old(methods)
    {
      var o := AddClassEnvironmentForClass(m.declaringClass);
      if o.Fail? {
        return Err(o.error);
      }
      var ce := classes[m.declaringClass];
      var k := AddExceptionClasses(m.exceptions);
      assert ClassesChecked(m) == [m.declaringClass] + m.exceptions[..k];
      if k < |m.exceptions| {
        r := Err(ClassEnvironmentFor(mode, m.exceptions[k], top, bottom).error);
      } else {
        assert m.exceptions[..k] == m.exceptions;
        r := MethodEnvironmentFor(mode, m, ce, top, bottom, rename);
      }
    }

    /** The body of `addMethodEnvironmentForMethod` for one method: stores its environment unless it is stored already. */
    method StoreMethodEnvironment(m: MethodInfo<L>) returns (o: Outcome<ExtractorError>)
      requires Valid()
      modifies this
      ensures Valid()
      ensures o.Pass? <==> CheckedMethodEnvironment(mode, m, top, bottom, rename).Ok?
      ensures o.Fail? ==> o.error == CheckedMethodEnvironment(mode, m, top, bottom, rename).error
      ensures m in old(methods) ==> methods == old(methods) && classes == old(classes)
      ensures m !in old(methods) && o.Pass? ==> methods == old(methods)[m := CheckedMethodEnvironment(mode, m, top, bottom, rename).value]
      ensures m !in old(methods) && o.Fail? ==> methods == old(methods)
      ensures m !in old(methods) ==> StoredExactly(old(classes), classes, ClassesChecked(m))
      ensures fields == old(fields)
    {
      if m in methods {
        o := Pass;
      } else {
        o := StoreNewMethodEnvironment(m);
      }
    }

    /** `StoreMethodEnvironment` for a method not stored yet. */
    method StoreNewMethodEnvironment(m: MethodInfo<L>) returns (o: Outcome<ExtractorError>)
      requires Valid() && m !in methods
      modifies this
      ensures Valid()
      ensures o.Pass? <==> CheckedMethodEnvironment(mode, m, top, bottom, rename).Ok?
      ensures o.Fail? ==> o.error == CheckedMethodEnvironment(mode, m, top, bottom, rename).error
      ensures o.Pass? ==> methods == old(methods)[m := CheckedMethodEnvironment(mode, m, top, bottom, rename).value]
      ensures o.Fail? ==> methods == old(methods)
      ensures StoredExactly(old(classes), classes, ClassesChecked(m))
      ensures fields == old(fields)
    {
      var me := CheckAndBuildMethodEnvironment(m);
      if me.Err? {
        return Fail(me.error);
      }
      ghost var checked := classes;
      methods := methods[m := me.value];
      assert classes == checked;
      o := Pass;
    }

    /**
     * `addMethodEnvironmentForMethod(m, overriden)`: stores the method's
     * environment unless it is stored already, and when `overriden` holds
     * does the same, once, for the first method `m` overrides.
     */
    method AddMethodEnvironmentForMethod(m: MethodInfo<L>, overriden: bool) returns (o: Outcome<ExtractorError>)
      requires Valid()
      modifies this
      decreases if overriden then 1 else 0
      ensures Valid()
      ensures o.Pass? <==>
        && CheckedMethodEnvironment(mode, m, top, bottom, rename).Ok?
        && (overriden && |m.overridden| >= 1 ==> CheckedMethodEnvironment(mode, m.overridden[0], top, bottom, rename).Ok?)
      ensures CheckedMethodEnvironment(mode, m, top, bottom, rename).Ok? ==> m in methods
      ensures o.Pass? && overriden && |m.overridden| >= 1 ==> m.overridden[0] in methods
      ensures forall n :: n in old(methods) ==> n in methods
      ensures forall n :: n in methods ==> n in old(methods) || n == m || (overriden && |m.overridden| >= 1 && n == m.overridden[0])
      ensures forall c :: c in old(classes) ==> c in classes
      ensures forall c :: c in classes ==>
        c in old(classes) || c in ClassesChecked(m) || (overriden && |m.overridden| >= 1 && c in ClassesChecked(m.overridden[0]))
      ensures fields == old(fields)
    {
      o := StoreMethodEnvironment(m);
      if o.Pass? && overriden && |m.overridden| >= 1 {
        o := AddMethodEnvironmentForMethod(m.overridden[0], false);
      }
    }

    /** `addMethodEnvironmentForMethod(m)`: the method and the first method it overrides. */
    method AddMethodEnvironment(m: MethodInfo<L>) returns (o: Outcome<ExtractorError>)
      requires Valid()
      modifies this
      ensures Valid()
      ensures o.Pass? <==>
        && CheckedMethodEnvironment(mode, m, top, bottom, rename).Ok?
        && (|m.overridden| >= 1 ==> CheckedMethodEnvironment(mode, m.overridden[0], top, bottom, rename).Ok?)
      ensures CheckedMethodEnvironment(mode, m, top, bottom, rename).Ok? ==> m in methods
      ensures o.Pass? && |m.overridden| >= 1 ==> m.overridden[0] in methods
      ensures forall n :: n in old(methods) ==> n in methods
      ensures forall n :: n in methods ==> n in old(methods) || n == m || (|m.overridden| >= 1 && n == m.overridden[0])
      ensures forall c :: c in old(classes) ==> c in classes
      ensures forall c :: c in classes ==>
        c in old(classes) || c in ClassesChecked(m) || (|m.overridden| >= 1 && c in ClassesChecked(m.overridden[0]))
      ensures fields == old(fields)
    {
      o := AddMethodEnvironmentForMethod(m, true);
    }
  }
}
