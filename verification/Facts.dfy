/** Stored facts and which of them are live. */
module Facts {
  import opened Octets
  import opened Values

  datatype Op = Assert | Retract

  datatype Fact = Fact(e: I64, a: I64, v: DataType, tx: I64, op: Op)

  ghost predicate SameTriple(f: Fact, e: I64, a: I64, v: DataType) {
    f.e == e && f.a == a && f.v == v
  }

  /** The assertion of transaction `tx` is the latest entry; an assert outranks a retract of one transaction. */
  ghost predicate LiveAt(facts: set<Fact>, e: I64, a: I64, v: DataType, tx: I64) {
    Fact(e, a, v, tx, Assert) in facts && forall f :: f in facts && SameTriple(f, e, a, v) ==> f.tx <= tx
  }

  ghost predicate Live(facts: set<Fact>, e: I64, a: I64, v: DataType) {
    exists tx: I64 :: LiveAt(facts, e, a, v, tx)
  }

  /** Every fact is older than `tx`. */
  ghost predicate Before(facts: set<Fact>, tx: I64) {
    forall f :: f in facts ==> f.tx < tx
  }

  /** What one transaction does to a triple: an assert makes it live, a lone retract ends it, nothing keeps it. */
  lemma LiveAfter(facts: set<Fact>, added: set<Fact>, tx: I64, e: I64, a: I64, v: DataType)
    requires Before(facts, tx) && forall f :: f in added ==> f.tx == tx
    ensures Live(facts + added, e, a, v) <==>
            Fact(e, a, v, tx, Assert) in added || (Live(facts, e, a, v) && Fact(e, a, v, tx, Retract) !in added)
  {
    var all := facts + added;
    if Fact(e, a, v, tx, Assert) in added {
      assert LiveAt(all, e, a, v, tx);
    } else if Live(facts, e, a, v) && Fact(e, a, v, tx, Retract) !in added {
      var t: I64 :| LiveAt(facts, e, a, v, t);
      forall f | f in all && SameTriple(f, e, a, v) ensures f.tx <= t {
        assert f == Fact(f.e, f.a, f.v, f.tx, f.op);
        assert f.op == Assert || f.op == Retract;
      }
      assert LiveAt(all, e, a, v, t);
    } else if Live(all, e, a, v) {
      var t: I64 :| LiveAt(all, e, a, v, t);
      assert Fact(e, a, v, t, Assert) in facts;
      assert LiveAt(facts, e, a, v, t);
      assert false;
    }
  }

  // --- Lookups over the live facts -------------------------------------------------------

  /** The entity a lookup of (`a`, `v`) in the unique index reports. */
  ghost function Owner(facts: set<Fact>, a: I64, v: DataType): (r: Option<I64>)
    ensures r.Some? ==> Live(facts, r.value, a, v)
    ensures r.None? ==> forall e: I64 :: !Live(facts, e, a, v)
  {
    if exists e: I64 :: Live(facts, e, a, v) then
      var e: I64 :| Live(facts, e, a, v);
      Some(e)
    else None
  }

  /** What a map of lookup results gives for (`a`, `v`): nothing for a value that is not equal to itself. */
  ghost function Hit(facts: set<Fact>, a: I64, v: DataType): Option<I64> {
    if Reflexive(v) then Owner(facts, a, v) else None
  }

  ghost function OldValue(facts: set<Fact>, e: I64, a: I64): (r: Option<DataType>)
    ensures r.Some? ==> Live(facts, e, a, r.value)
    ensures r.None? ==> forall v :: !Live(facts, e, a, v)
  {
    if exists v :: Live(facts, e, a, v) then
      var v :| Live(facts, e, a, v);
      Some(v)
    else None
  }

  /** At most one live owner of each value of `a` that is equal to itself. */
  ghost predicate OneOwner(facts: set<Fact>, a: I64) {
    forall d: I64, e: I64, v :: Reflexive(v) && Live(facts, d, a, v) && Live(facts, e, a, v) ==> d == e
  }

  /** At most one live value of `a` per entity. */
  ghost predicate OneValue(facts: set<Fact>, a: I64) {
    forall e: I64, v, w :: Live(facts, e, a, v) && Live(facts, e, a, w) ==> v == w
  }
}
