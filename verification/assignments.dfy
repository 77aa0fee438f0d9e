/**
 * Assignments of types to type variables (jgs.constraints.Assignments):
 * the empty assignment, the enumeration of every assignment of a list of
 * variables over a type domain, and the mutable builder.
 *
 * The type domain's `enumerate()` is an input here: `types` is the order in
 * which it yields its types.
 */
module Assignments {

  /** An assignment binds type variables to types. */
  type Assignment<V(==), T> = map<V, T>

  /** `empty()`: the assignment with no bindings. */
  function Empty<V(==), T>(): (a: Assignment<V, T>)
    ensures a.Keys == {}
  {
    map[]
  }

  /** The variables of a list, as a set. */
  function VarSet<V(==)>(vars: seq<V>): set<V>
  {
    set v | v in vars
  }

  function Pow(b: nat, e: nat): nat
  {
    if e == 0 then 1 else b * Pow(b, e - 1)
  }

  /** Every assignment of `rest` with `v` additionally bound to `t`, in order. */
  function Extend<V(==), T>(rest: seq<Assignment<V, T>>, v: V, t: T): (r: seq<Assignment<V, T>>)
    ensures |r| == |rest|
    ensures forall j :: 0 <= j < |r| ==> v in r[j] && r[j][v] == t
    ensures forall j :: 0 <= j < |r| ==> r[j].Keys == rest[j].Keys + {v} && r[j] - {v} == rest[j] - {v}
  {
    seq(|rest|, j requires 0 <= j < |rest| => rest[j][v := t])
  }

  /** `types.flatMap(t -> rest.map(ass -> ass[v := t]))`: the head type varies slowest. */
  function FlatMapTypes<V(==), T>(types: seq<T>, rest: seq<Assignment<V, T>>, v: V): seq<Assignment<V, T>>
  {
    if types == [] then [] else Extend(rest, v, types[0]) + FlatMapTypes(types[1..], rest, v)
  }

  /**
   * `enumerateAll(types, variables)`: no variables give the single empty
   * assignment; otherwise every type for the head variable is combined with
   * every assignment of the remaining variables.
   */
  function EnumerateAll<V(==), T>(types: seq<T>, vars: seq<V>): seq<Assignment<V, T>>
  {
    if vars == [] then [Empty()] else FlatMapTypes(types, EnumerateAll(types, vars[1..]), vars[0])
  }

  /** No variables: exactly one assignment, the empty one. */
  lemma EnumerateNoVariables<V, T>(types: seq<T>)
    ensures EnumerateAll<V, T>(types, []) == [map[]]
  {
  }

  lemma {:induction false} FlatMapLength<V, T>(types: seq<T>, rest: seq<Assignment<V, T>>, v: V)
    ensures |FlatMapTypes(types, rest, v)| == |types| * |rest|
  {
    if types != [] {
      FlatMapLength(types[1..], rest, v);
    }
  }

  /** Element `i * |rest| + j` pairs the `i`-th type with the `j`-th assignment of the rest. */
  lemma {:induction false} FlatMapIndex<V, T>(types: seq<T>, rest: seq<Assignment<V, T>>, v: V, i: nat, j: nat)
    requires i < |types| && j < |rest|
    ensures i * |rest| + j < |FlatMapTypes(types, rest, v)|
    ensures FlatMapTypes(types, rest, v)[i * |rest| + j] == rest[j][v := types[i]]
  {
    FlatMapLength(types, rest, v);
    if i > 0 {
      FlatMapIndex(types[1..], rest, v, i - 1, j);
      FlatMapLength(types[1..], rest, v);
      assert i * |rest| + j == |rest| + ((i - 1) * |rest| + j);
    }
  }

  /** An element of the flat map is an assignment of the rest with `v` bound to one of the types. */
  lemma {:induction false} FlatMapMember<V, T>(types: seq<T>, rest: seq<Assignment<V, T>>, v: V, a: Assignment<V, T>)
    ensures a in FlatMapTypes(types, rest, v) <==> exists t, b :: t in types && b in rest && a == b[v := t]
  {
    if types != [] {
      var head := Extend(rest, v, types[0]);
      var tail := FlatMapTypes(types[1..], rest, v);
      assert FlatMapTypes(types, rest, v) == head + tail;
      FlatMapMember(types[1..], rest, v, a);
      if a in head {
        var j :| 0 <= j < |rest| && head[j] == a;
        assert types[0] in types && rest[j] in rest && a == rest[j][v := types[0]];
      } else if a in tail {
        var t, b :| t in types[1..] && b in rest && a == b[v := t];
        assert t in types;
      }
      if exists t, b :: t in types && b in rest && a == b[v := t] {
        var t, b :| t in types && b in rest && a == b[v := t];
        if t == types[0] {
          var j :| 0 <= j < |rest| && rest[j] == b;
          assert head[j] == a;
          assert a in head;
        } else {
          assert t in types[1..];
          assert a in tail;
        }
      }
    }
  }

  /** The result has |types|^|vars| elements. */
  lemma {:induction false} EnumerateAllCount<V, T>(types: seq<T>, vars: seq<V>)
    ensures |EnumerateAll(types, vars)| == Pow(|types|, |vars|)
  {
    if vars != [] {
      EnumerateAllCount(types, vars[1..]);
      FlatMapLength(types, EnumerateAll(types, vars[1..]), vars[0]);
    }
  }

  /**
   * The head variable's type varies slowest: element `i * |rest| + j` binds
   * the head to the `i`-th type on top of the `j`-th assignment of the tail.
   */
  lemma EnumerateAllOrder<V, T>(types: seq<T>, vars: seq<V>, i: nat, j: nat)
    requires vars != [] && i < |types| && j < |EnumerateAll(types, vars[1..])|
    ensures var rest := EnumerateAll(types, vars[1..]);
            i * |rest| + j < |EnumerateAll(types, vars)| &&
            EnumerateAll(types, vars)[i * |rest| + j] == rest[j][vars[0] := types[i]]
  {
    FlatMapIndex(types, EnumerateAll(types, vars[1..]), vars[0], i, j);
  }

  /** Every variable of `a` is bound to a type of the domain. */
  ghost predicate BindsInto<V, T>(a: Assignment<V, T>, types: seq<T>)
  {
    forall v :: v in a ==> a[v] in types
  }

  /** Every enumerated assignment binds exactly the variables, each to a type of the domain. */
  lemma {:induction false} EnumerateAllSound<V, T>(types: seq<T>, vars: seq<V>, a: Assignment<V, T>)
    requires a in EnumerateAll(types, vars)
    ensures a.Keys == VarSet(vars) && BindsInto(a, types)
  {
    if vars != [] {
      var v := vars[0];
      var rest := EnumerateAll(types, vars[1..]);
      assert VarSet(vars) == {v} + VarSet(vars[1..]) by {
        assert vars == [v] + vars[1..];
      }
      FlatMapMember(types, rest, v, a);
      var t, b :| t in types && b in rest && a == b[v := t];
      EnumerateAllSound(types, vars[1..], b);
    }
  }

  /** Every assignment of exactly the variables to types of the domain is enumerated. */
  lemma {:induction false} EnumerateAllComplete<V, T>(types: seq<T>, vars: seq<V>, a: Assignment<V, T>)
    requires a.Keys == VarSet(vars) && BindsInto(a, types)
    ensures a in EnumerateAll(types, vars)
  {
    if vars == [] {
      assert a == map[];
    } else {
      var v := vars[0];
      var rest := EnumerateAll(types, vars[1..]);
      assert VarSet(vars) == {v} + VarSet(vars[1..]) by {
        assert vars == [v] + vars[1..];
      }
      var b := if v in VarSet(vars[1..]) then a else a - {v};
      assert b.Keys == VarSet(vars[1..]);
      EnumerateAllComplete(types, vars[1..], b);
      assert b[v := a[v]] == a;
      assert a[v] in types;
      FlatMapMember(types, rest, v, a);
    }
  }

  /**
   * An assignment is enumerated exactly when its domain is the set of
   * variables and every variable is bound to a type of the domain. This holds
   * for lists with repeated variables too: the head's binding wins.
   */
  lemma EnumerateAllMember<V, T>(types: seq<T>, vars: seq<V>, a: Assignment<V, T>)
    ensures a in EnumerateAll(types, vars) <==> a.Keys == VarSet(vars) && BindsInto(a, types)
  {
    if a in EnumerateAll(types, vars) {
      EnumerateAllSound(types, vars, a);
    }
    if a.Keys == VarSet(vars) && BindsInto(a, types) {
      EnumerateAllComplete(types, vars, a);
    }
  }

  /** `Assignments.Builder`: accumulates bindings in a mutable map. */
  class Builder<V(==), T> {
    var ass: map<V, T>

    constructor ()
      ensures ass == map[]
    {
      ass := map[];
    }

    /** `add(v, t)`: binds `v` to `t`, replacing an earlier binding, and returns the builder itself. */
    method Add(v: V, t: T) returns (self: Builder<V, T>)
      modifies this
      ensures self == this
      ensures ass == old(ass)[v := t]
    {
      ass := ass[v := t];
      self := this;
    }

    /** `build()`: the bindings accumulated so far. */
    method Build() returns (a: Assignment<V, T>)
      ensures a == ass
    {
      a := ass;
    }
  }

  /** `builder(v, t)`: a fresh builder holding the single binding `v := t`. */
  method NewBuilder<V(==), T>(v: V, t: T) returns (b: Builder<V, T>)
    ensures fresh(b)
    ensures b.ass == map[v := t]
  {
    b := new Builder();
    b := b.Add(v, t);
  }
}
