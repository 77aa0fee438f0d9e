/**
 * The persistent table from methods to their security signatures
 * (jgs.signatures.SignatureTable). A table is a value: `extendWith` returns a
 * new table and never changes the receiver, and `of` copies its argument.
 *
 * `MethodSignatures.makeSignature` is not part of this model; a signature is
 * taken to be the record of the three values it is made from.
 */
module SignatureTables {
  import opened Outcomes

  /** A method, as far as the table sees it: its identity and its parameter count. */
  datatype Method = Method(id: int, parameterCount: nat)

  /** `makeSignature(parameterCount, constraints, effects)`; effects are a set of levels. */
  datatype Signature<C, L> = MakeSignature(parameterCount: nat, constraints: seq<C>, effects: set<L>)

  datatype SignatureTable<C, L> = SignatureTable(signatureMap: map<Method, Signature<C, L>>)

  /** `of(signatureMap)`: a table holding exactly the given entries. */
  function Of<C, L>(signatureMap: map<Method, Signature<C, L>>): (t: SignatureTable<C, L>)
    ensures forall m :: m in signatureMap ==> Get(t, m) == Some(signatureMap[m])
    ensures forall m :: m !in signatureMap ==> Get(t, m) == Some(DefaultSignature(m))
  {
    SignatureTable(signatureMap)
  }

  /** The signature `get` answers for a method the table does not hold: no constraints, no effects. */
  function DefaultSignature<C, L>(m: Method): Signature<C, L>
  {
    MakeSignature(m.parameterCount, [], {})
  }

  /**
   * `get(m)`: the stored signature, or the default one for `m`'s parameter
   * count. It never answers `None` and does not store the default.
   */
  function Get<C, L>(t: SignatureTable<C, L>, m: Method): (r: Option<Signature<C, L>>)
    ensures r.Some?
    ensures m in t.signatureMap ==> r.value == t.signatureMap[m]
    ensures m !in t.signatureMap ==> r.value.parameterCount == m.parameterCount
    ensures m !in t.signatureMap ==> r.value.constraints == [] && r.value.effects == {}
  {
    if m in t.signatureMap then Some(t.signatureMap[m]) else Some(DefaultSignature(m))
  }

  /**
   * `extendWith(m, constraints, effects)`: a new table in which `m` has the
   * signature made from its parameter count, `constraints` and `effects`;
   * every other method is looked up as before.
   */
  function ExtendWith<C, L>(t: SignatureTable<C, L>, m: Method, constraints: seq<C>, effects: set<L>)
    : (r: SignatureTable<C, L>)
    ensures Get(r, m) == Some(MakeSignature(m.parameterCount, constraints, effects))
    ensures forall m' :: m' != m ==> Get(r, m') == Get(t, m')
    ensures r.signatureMap.Keys == t.signatureMap.Keys + {m}
  {
    Of(t.signatureMap[m := MakeSignature(m.parameterCount, constraints, effects)])
  }

  /** A later `extendWith` of the same method replaces the earlier entry. */
  lemma ExtendWithReplaces<C, L>(t: SignatureTable<C, L>, m: Method, cs: seq<C>, es: set<L>, cs': seq<C>, es': set<L>)
    ensures ExtendWith(ExtendWith(t, m, cs, es), m, cs', es') == ExtendWith(t, m, cs', es')
  {
    var s := MakeSignature(m.parameterCount, cs, es);
    var s' := MakeSignature(m.parameterCount, cs', es');
    assert t.signatureMap[m := s][m := s'] == t.signatureMap[m := s'];
  }

  /** Extending with two different methods gives the same table in either order. */
  lemma ExtendWithCommutes<C, L>(t: SignatureTable<C, L>, m1: Method, cs1: seq<C>, es1: set<L>,
                                 m2: Method, cs2: seq<C>, es2: set<L>)
    requires m1 != m2
    ensures ExtendWith(ExtendWith(t, m1, cs1, es1), m2, cs2, es2)
         == ExtendWith(ExtendWith(t, m2, cs2, es2), m1, cs1, es1)
  {
    var s1 := MakeSignature(m1.parameterCount, cs1, es1);
    var s2 := MakeSignature(m2.parameterCount, cs2, es2);
    assert t.signatureMap[m1 := s1][m2 := s2] == t.signatureMap[m2 := s2][m1 := s1];
  }

  /** Two tables answer every lookup alike exactly when they hold the same entries. */
  lemma GetDeterminesTable<C, L>(t: SignatureTable<C, L>, u: SignatureTable<C, L>)
    requires t.signatureMap.Keys == u.signatureMap.Keys
    ensures (forall m :: Get(t, m) == Get(u, m)) <==> t == u
  {
    if forall m :: Get(t, m) == Get(u, m) {
      forall m | m in t.signatureMap
        ensures t.signatureMap[m] == u.signatureMap[m]
      {
        assert Get(t, m) == Get(u, m);
      }
      assert t.signatureMap == u.signatureMap;
    }
  }
}
