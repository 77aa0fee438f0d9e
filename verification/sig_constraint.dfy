/**
 * Constraints between signature symbols (jgs.signatures.SigConstraint): a
 * value with nullable `lhs`, `rhs` and `kind`, Java-style structural
 * equality, a 32-bit hash code, its text form and its translation into a
 * typing constraint.
 *
 * The symbol and constraint-kind types are parameters; their own
 * `hashCode`, `toString` and the translation `symbolToCType` are passed in
 * as functions. Java's `null` is `None`.
 */
module SigConstraints {
  import opened Outcomes

  datatype SigConstraint<S, K> = SigConstraint(lhs: Option<S>, rhs: Option<S>, kind: Option<K>)

  /** The argument of `equals(Object o)`: null, another constraint, or an object of another class. */
  datatype JavaObject<S, K> = JNull | SigObject(that: SigConstraint<S, K>) | OtherObject(id: int)

  /** `symbols()`: the two symbols, `lhs` first. */
  function Symbols<S, K>(c: SigConstraint<S, K>): (r: seq<Option<S>>)
    ensures |r| == 2 && r[0] == c.lhs && r[1] == c.rhs
  {
    [c.lhs, c.rhs]
  }

  /** `a != null ? !a.equals(b) : b != null`: the two nullable symbols differ. */
  function SymbolsDiffer<S(==)>(a: Option<S>, b: Option<S>): bool
  {
    if a.Some? then !(b.Some? && a.value == b.value) else b.Some?
  }

  /**
   * `equals(o)`: false for null and for objects of another class, otherwise
   * field by field, a null field matching only a null field.
   */
  function Equals<S(==), K(==)>(c: SigConstraint<S, K>, o: JavaObject<S, K>): (r: bool)
    ensures r <==> o == SigObject(c)
  {
    match o
    case JNull => false
    case OtherObject(_) => false
    case SigObject(that) =>
      if SymbolsDiffer(c.lhs, that.lhs) then false
      else if SymbolsDiffer(c.rhs, that.rhs) then false
      else c.kind == that.kind
  }

  lemma EqualsReflexive<S, K>(c: SigConstraint<S, K>)
    ensures Equals(c, SigObject(c))
  {
  }

  lemma EqualsSymmetric<S, K>(c: SigConstraint<S, K>, d: SigConstraint<S, K>)
    ensures Equals(c, SigObject(d)) <==> Equals(d, SigObject(c))
  {
  }

  // Java `int` arithmetic

  newtype Int32 = x: int | -0x8000_0000 <= x < 0x8000_0000

  /** The 32-bit two's-complement value of `x`, as Java's `int` arithmetic yields it. */
  function Wrap(x: int): (r: Int32)
    ensures (r as int - x) % 0x1_0000_0000 == 0
  {
    (((x + 0x8000_0000) % 0x1_0000_0000) - 0x8000_0000) as Int32
  }

  /** Values that agree modulo 2^32 wrap to the same `int`. */
  lemma WrapCongruent(x: int, y: int, k: int)
    requires x == y + k * 0x1_0000_0000
    ensures Wrap(x) == Wrap(y)
  {
    var m := 0x1_0000_0000;
    var q := (y + 0x8000_0000) / m;
    var rem := (y + 0x8000_0000) % m;
    assert y + 0x8000_0000 == q * m + rem;
    assert x + 0x8000_0000 == (q + k) * m + rem;
  }

  /** The hash of a nullable field: 0 for null. */
  function FieldHash<X>(x: Option<X>, h: X -> Int32): Int32
  {
    if x.Some? then h(x.value) else 0
  }

  /**
   * `hashCode()`: `31 * (31 * h(lhs) + h(rhs)) + h(kind)` in `int`
   * arithmetic, each step wrapping, with `h(null) = 0`.
   */
  function HashCode<S, K>(c: SigConstraint<S, K>, hs: S -> Int32, hk: K -> Int32): (r: Int32)
    ensures r == Wrap(961 * FieldHash(c.lhs, hs) as int + 31 * FieldHash(c.rhs, hs) as int + FieldHash(c.kind, hk) as int)
  {
    var result := FieldHash(c.lhs, hs);
    var result := Wrap(31 * result as int + FieldHash(c.rhs, hs) as int);
    var result := Wrap(31 * result as int + FieldHash(c.kind, hk) as int);
    HashCodeFolds(FieldHash(c.lhs, hs) as int, FieldHash(c.rhs, hs) as int, FieldHash(c.kind, hk) as int);
    result
  }

  /** Wrapping after each of the two steps is the same as wrapping once at the end. */
  lemma HashCodeFolds(a: int, b: int, c: int)
    ensures Wrap(31 * Wrap(31 * a + b) as int + c) == Wrap(961 * a + 31 * b + c)
  {
    var inner := 31 * a + b;
    var w := Wrap(inner) as int;
    var k := (w - inner) / 0x1_0000_0000;
    assert w == inner + k * 0x1_0000_0000;
    WrapCongruent(31 * w + c, 961 * a + 31 * b + c, 31 * k);
  }

  /** Equal constraints have equal hash codes. */
  lemma EqualsAgreesWithHashCode<S, K>(c: SigConstraint<S, K>, d: SigConstraint<S, K>, hs: S -> Int32, hk: K -> Int32)
    requires Equals(c, SigObject(d))
    ensures HashCode(c, hs, hk) == HashCode(d, hs, hk)
  {
  }

  // Text form

  /**
   * `toString()`: `"lhs kind rhs"` separated by single spaces. Calling
   * `toString()` on a null field throws, which is `None` here.
   */
  function ToString<S, K>(c: SigConstraint<S, K>, showS: S -> string, showK: K -> string): (r: Option<string>)
    ensures r.Some? <==> c.lhs.Some? && c.rhs.Some? && c.kind.Some?
    ensures r.Some? ==> |r.value| == |showS(c.lhs.value)| + |showK(c.kind.value)| + |showS(c.rhs.value)| + 2
    ensures r.Some? ==>
      var n, k := |showS(c.lhs.value)|, |showK(c.kind.value)|;
      && r.value[..n] == showS(c.lhs.value) && r.value[n] == ' '
      && r.value[n + 1..n + 1 + k] == showK(c.kind.value) && r.value[n + 1 + k] == ' '
      && r.value[n + 2 + k..] == showS(c.rhs.value)
  {
    if c.lhs.Some? && c.rhs.Some? && c.kind.Some? then
      Some(showS(c.lhs.value) + " " + showK(c.kind.value) + " " + showS(c.rhs.value))
    else
      None
  }

  /** Splitting at the first space recovers a space-free prefix and the rest. */
  lemma {:induction false} SplitAtSpace(a: string, x: string, b: string, y: string)
    requires ' ' !in a && ' ' !in b
    requires a + " " + x == b + " " + y
    ensures a == b && x == y
  {
    if a == [] || b == [] {
      assert a == [] ==> (b + " " + y)[0] == ' ';
      assert b == [] ==> (a + " " + x)[0] == ' ';
      assert a == [] && b == [];
      assert x == (a + " " + x)[1..];
      assert y == (b + " " + y)[1..];
    } else {
      assert a[0] == (a + " " + x)[0] == (b + " " + y)[0] == b[0];
      assert a[1..] + " " + x == (a + " " + x)[1..];
      assert b[1..] + " " + y == (b + " " + y)[1..];
      SplitAtSpace(a[1..], x, b[1..], y);
      assert a == [a[0]] + a[1..];
      assert b == [b[0]] + b[1..];
    }
  }

  /**
   * When symbols and kinds print without spaces and distinct values print
   * differently, the text form determines the constraint.
   */
  lemma ToStringInjective<S, K>(c: SigConstraint<S, K>, d: SigConstraint<S, K>, showS: S -> string, showK: K -> string)
    requires forall s :: ' ' !in showS(s)
    requires forall k :: ' ' !in showK(k)
    requires forall s, s' :: showS(s) == showS(s') ==> s == s'
    requires forall k, k' :: showK(k) == showK(k') ==> k == k'
    requires ToString(c, showS, showK).Some?
    ensures ToString(c, showS, showK) == ToString(d, showS, showK) <==> c == d
  {
    if ToString(c, showS, showK) == ToString(d, showS, showK) {
      SpacedInjective(showS(c.lhs.value), showK(c.kind.value), showS(c.rhs.value),
                      showS(d.lhs.value), showK(d.kind.value), showS(d.rhs.value));
    }
  }

  /** Three parts joined by single spaces, the first two space-free, are recovered from the text. */
  lemma SpacedInjective(l: string, k: string, r: string, l': string, k': string, r': string)
    requires ' ' !in l && ' ' !in k && ' ' !in l' && ' ' !in k'
    requires l + " " + k + " " + r == l' + " " + k' + " " + r'
    ensures l == l' && k == k' && r == r'
  {
    assert l + " " + k + " " + r == l + " " + (k + " " + r);
    assert l' + " " + k' + " " + r' == l' + " " + (k' + " " + r');
    SplitAtSpace(l, k + " " + r, l', k' + " " + r');
    SplitAtSpace(k, r, k', r');
  }

  // Typing constraints

  /** `Constraints.make(kind, lhs, rhs)`, kept as the record of its arguments. */
  datatype TypingConstraint<K, T> = TypingConstraint(kind: Option<K>, lhs: T, rhs: T)

  /**
   * `toTypingConstraint(tvarMapping)`: the same kind over the two symbols,
   * each translated by `symbolToCType(tvarMapping, ·)`, given here as `toCType`.
   */
  function ToTypingConstraint<S, K, T>(c: SigConstraint<S, K>, toCType: Option<S> -> T): (r: TypingConstraint<K, T>)
    ensures r.kind == c.kind
  {
    TypingConstraint(c.kind, toCType(c.lhs), toCType(c.rhs))
  }

  /** The translated constraint relates the translations of `symbols()`, in order. */
  lemma TypingConstraintOfSymbols<S, K, T>(c: SigConstraint<S, K>, toCType: Option<S> -> T)
    ensures ToTypingConstraint(c, toCType).lhs == toCType(Symbols(c)[0])
    ensures ToTypingConstraint(c, toCType).rhs == toCType(Symbols(c)[1])
  {
  }

  /** Constraints with the same symbols and kind translate alike under one mapping. */
  lemma TypingConstraintDependsOnSymbols<S, K, T>(c: SigConstraint<S, K>, d: SigConstraint<S, K>, toCType: Option<S> -> T)
    requires Symbols(c) == Symbols(d) && c.kind == d.kind
    ensures ToTypingConstraint(c, toCType) == ToTypingConstraint(d, toCType)
  {
    assert Symbols(c)[0] == Symbols(d)[0] && Symbols(c)[1] == Symbols(d)[1];
  }
}
