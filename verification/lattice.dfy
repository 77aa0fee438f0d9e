/**
 * The security lattice of the dynamic monitor: LOW, MEDIUM and HIGH,
 * totally ordered, with LOW as bottom and HIGH as top.
 */
module Lattice {

  datatype Level = Low | Medium | High

  function Bottom(): Level { Low }

  function Top(): Level { High }

  /** Position of a level in the total order. */
  function Rank(l: Level): nat
  {
    match l
    case Low => 0
    case Medium => 1
    case High => 2
  }

  /** The order of the lattice: `a` may flow to `b`. */
  predicate Leq(a: Level, b: Level)
  {
    Rank(a) <= Rank(b)
  }

  /** Least upper bound of two levels. */
  function Join(a: Level, b: Level): (r: Level)
    ensures Leq(a, r) && Leq(b, r)
    ensures forall c :: Leq(a, c) && Leq(b, c) ==> Leq(r, c)
  {
    if Rank(a) <= Rank(b) then b else a
  }

  /** Join of a whole sequence of levels; the empty join is bottom. */
  function JoinAll(ls: seq<Level>): (r: Level)
    ensures forall i :: 0 <= i < |ls| ==> Leq(ls[i], r)
    ensures forall c :: (forall i :: 0 <= i < |ls| ==> Leq(ls[i], c)) ==> Leq(r, c)
  {
    if ls == [] then Bottom() else Join(ls[0], JoinAll(ls[1..]))
  }

  lemma BottomIsLeast(l: Level)
    ensures Leq(Bottom(), l)
  {
  }

  lemma TopIsGreatest(l: Level)
    ensures Leq(l, Top())
  {
  }

  lemma LeqIsPartialOrder(a: Level, b: Level, c: Level)
    ensures Leq(a, a)
    ensures Leq(a, b) && Leq(b, a) ==> a == b
    ensures Leq(a, b) && Leq(b, c) ==> Leq(a, c)
  {
  }

  lemma JoinLaws(a: Level, b: Level, c: Level)
    ensures Join(a, b) == Join(b, a)
    ensures Join(a, Join(b, c)) == Join(Join(a, b), c)
    ensures Join(a, a) == a
    ensures Join(Bottom(), a) == a && Join(Top(), a) == Top()
    ensures Leq(a, b) <==> Join(a, b) == b
  {
  }

  /** Joining two sequences is the join of the two joins. */
  lemma {:induction false} JoinAllAppend(xs: seq<Level>, ys: seq<Level>)
    ensures JoinAll(xs + ys) == Join(JoinAll(xs), JoinAll(ys))
  {
    if xs != [] {
      assert (xs + ys)[1..] == xs[1..] + ys;
      JoinAllAppend(xs[1..], ys);
      JoinLaws(xs[0], JoinAll(xs[1..]), JoinAll(ys));
    } else {
      assert xs + ys == ys;
    }
  }
}
