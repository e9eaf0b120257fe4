/** The state of a fresh database. */
module Bootstrap {
  import opened Octets
  import opened Values
  import opened Facts
  import opened Model
  import opened Partition
  import opened SchemaRules
  import opened Transact
  import opened Invariant
  import opened Runs

  // --- The tables ------------------------------------------------------------------------

  function Ns(ns: string, name: string): Keyword { Kw(Ascii(ns), Ascii(name)) }

  const SCHEMA_IDS: set<I64> := {DB_IDENT, DB_VALUE_TYPE, DB_CARDINALITY, DB_UNIQUE}
  const TX_IDS: set<I64> := {DB_TX_INSTANT, DB_TX_ID, DB_TX_RESULT, DB_TX_ERROR}
  const TYPE_IDS: set<I64> := {10, 11, 12, 13, 14, 15, 16, 17, 18, 19, 20, 21, 22}
  const ENUM_IDS: set<I64> :=
    {CARDINALITY_ONE, CARDINALITY_MANY, UNIQUE_VALUE, UNIQUE_IDENTITY, TX_COMMITTED, TX_ABORTED}
  const SYSTEM_IDS: set<I64> := SCHEMA_IDS + TX_IDS
  const BOOT_IDS: set<I64> := SYSTEM_IDS + TYPE_IDS + ENUM_IDS

  function TypeName(e: I64): Keyword {
    if e == 10 then Ns("db.type", "keyword")
    else if e == 11 then Ns("db.type", "string")
    else if e == 12 then Ns("db.type", "long")
    else if e == 13 then Ns("db.type", "ref")
    else if e == 14 then Ns("db.type", "boolean")
    else if e == 15 then Ns("db.type", "double")
    else if e == 16 then Ns("db.type", "float")
    else if e == 17 then Ns("db.type", "instant")
    else if e == 18 then Ns("db.type", "uuid")
    else if e == 19 then Ns("db.type", "bytes")
    else if e == 20 then Ns("db.type", "bigint")
    else if e == 21 then Ns("db.type", "vector")
    else Ns("db.type", "map")
  }

  function EnumName(e: I64): Keyword {
    if e == CARDINALITY_ONE then Ns("db.cardinality", "one")
    else if e == CARDINALITY_MANY then Ns("db.cardinality", "many")
    else if e == UNIQUE_VALUE then Ns("db.unique", "value")
    else if e == UNIQUE_IDENTITY then Ns("db.unique", "identity")
    else if e == TX_COMMITTED then Ns("db.tx", "committed")
    else Ns("db.tx", "aborted")
  }

  /** The ident of a bootstrap entity. */
  function BootName(e: I64): Keyword {
    if SystemAttribute(e).Some? then SystemAttribute(e).value.0 else if e in TYPE_IDS then TypeName(e) else EnumName(e)
  }

  // --- Telling the names apart -----------------------------------------------------------

  /** The lengths and the first byte of a name. */
  function Signature(k: Keyword): (nat, nat, Byte) {
    (|k.ns|, |k.name|, if k.name == [] then 0 else k.name[0])
  }

  /** The entity with that signature. */
  function BySignature(s: (nat, nat, Byte)): I64 {
    match s.0
    case 2 =>
      if s.1 == 5 then DB_IDENT else if s.1 == 9 then (if s.2 == 118 then DB_VALUE_TYPE else DB_TX_INSTANT)
      else if s.1 == 11 then DB_CARDINALITY else if s.1 == 6 then DB_UNIQUE else if s.1 == 4 then DB_TX_ID
      else if s.1 == 8 then DB_TX_RESULT else DB_TX_ERROR
    case 7 => TypeBySignature(s.1, s.2)
    case 14 => if s.1 == 3 then CARDINALITY_ONE else CARDINALITY_MANY
    case 9 => if s.1 == 5 then UNIQUE_VALUE else UNIQUE_IDENTITY
    case _ => if s.1 == 9 then TX_COMMITTED else TX_ABORTED
  }

  function TypeBySignature(n: nat, c: Byte): I64 {
    if n == 3 then (if c == 114 then 13 else 22)
    else if n == 4 then (if c == 108 then 12 else 18)
    else if n == 5 then (if c == 102 then 16 else 19)
    else if n == 6 then (if c == 115 then 11 else if c == 100 then 15 else if c == 98 then 20 else 21)
    else if c == 107 then 10 else if c == 98 then 14 else 17
  }

  lemma SystemSignature(e: I64)
    requires e in SYSTEM_IDS
    ensures BySignature(Signature(BootName(e))) == e
  {
    assert Ascii("valueType")[0] == 118 && Ascii("txInstant")[0] == 116;
    assert |Ascii("db")| == 2;
  }

  lemma TypeSignature(e: I64)
    requires e in TYPE_IDS
    ensures BySignature(Signature(BootName(e))) == e
  {
    assert BootName(e) == TypeName(e);
    assert |TypeName(e).ns| == 7;
    TypeBytes();
  }

  lemma TypeBytes()
    ensures Ascii("keyword")[0] == 107 && Ascii("string")[0] == 115 && Ascii("long")[0] == 108 && Ascii("ref")[0] == 114
    ensures Ascii("boolean")[0] == 98 && Ascii("double")[0] == 100 && Ascii("float")[0] == 102 &&
            Ascii("instant")[0] == 105
    ensures Ascii("uuid")[0] == 117 && Ascii("bytes")[0] == 98 && Ascii("bigint")[0] == 98 && Ascii("vector")[0] == 118
    ensures Ascii("map")[0] == 109
  {
  }

  lemma EnumSignature(e: I64)
    requires e in ENUM_IDS
    ensures BySignature(Signature(BootName(e))) == e
  {
    assert BootName(e) == EnumName(e);
    hide BootName, SystemAttribute, TypeName, TypeBySignature;
    assert |Ascii("db.cardinality")| == 14 && |Ascii("db.unique")| == 9 && |Ascii("db.tx")| == 5;
    hide Ascii;
  }

  lemma NameSignature(e: I64)
    requires e in BOOT_IDS
    ensures BySignature(Signature(BootName(e))) == e
  {
    hide BootName, Signature, BySignature;
    if e in SYSTEM_IDS { SystemSignature(e); } else if e in TYPE_IDS { TypeSignature(e); } else { EnumSignature(e); }
  }

  // --- The schema ------------------------------------------------------------------------

  function SystemDefinition(a: I64): Attribute {
    if SystemAttribute(a).Some? then SystemAttribute(a).value.1 else Attribute(VtLong, false, None)
  }

  const BOOT_NAMES: set<Keyword> := set e | e in BOOT_IDS :: BootName(e)

  /** `bootstrap_schema`. */
  const BOOT_SCHEMA: Schema := Schema(
    map e | e in BOOT_IDS :: BootName(e),
    map k | k in BOOT_NAMES :: BySignature(Signature(k)),
    map a | a in SYSTEM_IDS :: SystemDefinition(a))

  lemma BootInverse()
    ensures Inverse(BOOT_SCHEMA)
  {
    hide BootName, Signature, BySignature, BOOT_IDS, SystemAttribute;
    forall k | k in BOOT_SCHEMA.idents
      ensures BOOT_SCHEMA.idents[k] in BOOT_SCHEMA.entids && BOOT_SCHEMA.entids[BOOT_SCHEMA.idents[k]] == k
    {
      var e :| e in BOOT_IDS && k == BootName(e);
      NameSignature(e);
    }
    forall e | e in BOOT_SCHEMA.entids
      ensures BOOT_SCHEMA.entids[e] in BOOT_SCHEMA.idents && BOOT_SCHEMA.idents[BOOT_SCHEMA.entids[e]] == e
    {
      assert e in BOOT_IDS;
      NameSignature(e);
      assert BootName(e) in BOOT_NAMES;
    }
  }

  lemma BootSystem()
    ensures HasSystem(BOOT_SCHEMA)
  {
    forall a: I64 | SystemAttribute(a).Some? ensures a in SYSTEM_IDS {}
  }

  // --- The facts -------------------------------------------------------------------------

  const BOOT_KEY: TxKey := TxKey(0, 0)
  const BOOT_TX: I64 := TxEid(0)

  /** What the bootstrap transaction asserts about schema entities. */
  ghost const SCHEMA_FACTS: set<Fact> :=
    set e, a | e in BOOT_IDS && a in SCHEMA_IDS && SchemaValue(BOOT_SCHEMA, e, a).Some? ::
      Fact(e, a, SchemaValue(BOOT_SCHEMA, e, a).value, BOOT_TX, Assert)

  ghost const TX_FACTS: set<Fact> := {
    Fact(BOOT_TX, DB_TX_INSTANT, Instant(0), BOOT_TX, Assert), Fact(BOOT_TX, DB_TX_ID, Long(0), BOOT_TX, Assert),
    Fact(BOOT_TX, DB_TX_RESULT, Long(TX_COMMITTED), BOOT_TX, Assert)}

  /** A fresh database, as `init_db` leaves it. */
  ghost const BOOT: State := State(
    SCHEMA_FACTS + TX_FACTS, map[DB_PARTITION := DB_FLOOR, TX_PARTITION := 1, USER_PARTITION := 0], BOOT_SCHEMA,
      BOOT_KEY)

  /** In a store written by one transaction of assertions, every fact is live. */
  lemma OneTxLive(facts: set<Fact>, tx: I64, e: I64, a: I64, v: DataType)
    requires forall f :: f in facts ==> f.tx == tx && f.op == Assert
    ensures Live(facts, e, a, v) <==> Fact(e, a, v, tx, Assert) in facts
  {
    if Fact(e, a, v, tx, Assert) in facts { assert LiveAt(facts, e, a, v, tx); }
  }

  lemma BootFacts()
    ensures forall f :: f in BOOT.facts ==> f.tx == BOOT_TX && f.op == Assert
  {
    hide SchemaValue, BOOT_IDS, BOOT_SCHEMA, SCHEMA_IDS, BOOT_TX;
  }

  lemma BootLive(e: I64, a: I64, v: DataType)
    ensures Live(BOOT.facts, e, a, v) <==> Fact(e, a, v, BOOT_TX, Assert) in BOOT.facts
  {
    hide *;
    BootFacts();
    OneTxLive(BOOT.facts, BOOT_TX, e, a, v);
  }

  lemma SchemaFactIff(e: I64, a: I64, v: DataType)
    requires a in SCHEMA_IDS
    ensures Fact(e, a, v, BOOT_TX, Assert) in BOOT.facts <==> SchemaValue(BOOT_SCHEMA, e, a) == Some(v)
  {
    var f := Fact(e, a, v, BOOT_TX, Assert);
    assert f !in TX_FACTS;
    if SchemaValue(BOOT_SCHEMA, e, a) == Some(v) { SchemaValueOfBoot(e, a); }
  }

  lemma SchemaValueOfBoot(e: I64, a: I64)
    requires SchemaValue(BOOT_SCHEMA, e, a).Some?
    ensures e in BOOT_IDS
  {
  }

  lemma BootMirrors()
    ensures Mirrors(BOOT.facts, BOOT_SCHEMA)
  {
    hide Live, SchemaValue, BOOT_SCHEMA, BOOT, SCHEMA_IDS, BOOT_TX;
    forall e: I64, a: I64, v | DB_IDENT <= a <= DB_UNIQUE
      ensures Live(BOOT.facts, e, a, v) <==> SchemaValue(BOOT_SCHEMA, e, a) == Some(v)
    {
      BootLive(e, a, v);
      SchemaIdRange(a);
      SchemaFactIff(e, a, v);
    }
  }

  lemma SchemaIdRange(a: I64)
    ensures a in SCHEMA_IDS <==> DB_IDENT <= a <= DB_UNIQUE
  {
  }

  lemma BootEntry(e: I64)
    ensures (e in BOOT_SCHEMA.entids <==> e in BOOT_IDS) && (e in BOOT_IDS ==> BOOT_SCHEMA.entids[e] == BootName(e))
    ensures (e in BOOT_SCHEMA.attrs <==> e in SYSTEM_IDS) &&
            (e in SYSTEM_IDS ==> BOOT_SCHEMA.attrs[e] == SystemDefinition(e))
  {
    hide BootName, SystemDefinition, BOOT_IDS, SYSTEM_IDS, Signature, BySignature;
  }

  lemma BootParts()
    ensures BOOT.pm == map[DB_PARTITION := DB_FLOOR, TX_PARTITION := 1, USER_PARTITION := 0]
    ensures BOOT.schema == BOOT_SCHEMA && BOOT.latest == BOOT_KEY && BOOT.facts == SCHEMA_FACTS + TX_FACTS
  {
    hide BOOT_SCHEMA, SCHEMA_FACTS, TX_FACTS;
  }

  lemma BootValueShape(e: I64, a: I64)
    requires SchemaValue(BOOT_SCHEMA, e, a).Some?
    ensures var v := SchemaValue(BOOT_SCHEMA, e, a).value;
            && (a == DB_IDENT ==> v == Keyword(BootName(e)))
            && (a != DB_IDENT ==> v.Long? && 0 <= v.i < DB_FLOOR)
            && Valid(v)
  {
    BootEntry(e);
    hide BootName, SystemDefinition, BOOT_SCHEMA, BOOT_IDS, SYSTEM_IDS;
  }

  /** A fact of the bootstrap is a schema fact or one of the transaction entity. */
  lemma BootFactCases(f: Fact)
    requires f in BOOT.facts
    ensures f.tx == BOOT_TX && f.op == Assert
    ensures || (f.a in SCHEMA_IDS && f.e in BOOT_IDS && SchemaValue(BOOT_SCHEMA, f.e, f.a) == Some(f.v))
            || (f.e == BOOT_TX && f.a == DB_TX_INSTANT && f.v == Instant(0))
            || (f.e == BOOT_TX && f.a == DB_TX_ID && f.v == Long(0))
            || (f.e == BOOT_TX && f.a == DB_TX_RESULT && f.v == Long(TX_COMMITTED))
  {
    hide SchemaValue, BOOT_IDS, BOOT_SCHEMA, SCHEMA_IDS, BOOT_TX;
  }

  lemma SystemAttrs(a: I64)
    requires a in SYSTEM_IDS
    ensures SystemAttribute(a).Some? && a in BOOT_SCHEMA.attrs && a in BOOT_SCHEMA.entids &&
            BOOT_SCHEMA.attrs[a] == SystemAttribute(a).value.1
  {
    BootEntry(a);
    SystemKnown(a);
    hide *;
    BootSystem();
    SystemOf(BOOT_SCHEMA, a);
  }

  lemma SystemOf(schema: Schema, a: I64)
    requires HasSystem(schema) && SystemAttribute(a).Some?
    ensures a in schema.attrs && a in schema.entids && schema.attrs[a] == SystemAttribute(a).value.1
  {
  }

  lemma SystemKnown(a: I64)
    ensures a in SYSTEM_IDS <==> SystemAttribute(a).Some?
  {
  }

  lemma BootContains(e: I64)
    requires e == BOOT_TX || 0 <= e < DB_FLOOR
    ensures Contains(BOOT.pm, e)
  {
    assert BOOT_TX == MakeEntityId(TX_PARTITION, 0);
    hide *;
    BootParts();
    FreshCounters(BOOT.pm);
    if e != BOOT_TX { SystemContained(BOOT.pm, e); }
  }

  lemma FreshCounters(pm: Counters)
    requires pm == map[DB_PARTITION := DB_FLOOR, TX_PARTITION := 1, USER_PARTITION := 0]
    ensures CountersOk(pm) && Contains(pm, MakeEntityId(TX_PARTITION, 0))
  {
    hide MakeEntityId, ExtractPartition, ExtractCounter;
  }

  lemma FreshWritten(facts: set<Fact>, pm: Counters)
    requires pm == map[DB_PARTITION := DB_FLOOR, TX_PARTITION := 1, USER_PARTITION := 0]
    requires forall f :: f in facts ==> f.tx == COUNTER_SPAN
    ensures AllWritten(facts, pm) && InTime(facts, pm)
  {
    hide MakeEntityId, HasFact;
  }

  lemma BootIdsSmall(e: I64)
    requires e in BOOT_IDS
    ensures 0 < e < DB_FLOOR
  {
  }

  lemma BootTyped(f: Fact)
    requires f in BOOT.facts
    ensures TypedFact(f, BOOT_SCHEMA) && ReferencedFact(f, BOOT_SCHEMA, BOOT.pm)
  {
    hide BOOT, BOOT_SCHEMA, SchemaValue, BootName, Contains, BOOT_IDS, BOOT_TX, SCHEMA_IDS, SYSTEM_IDS, Valid;
    BootFactCases(f);
    SystemKnown(f.a);
    SchemaIdRange(f.a);
    SystemAttrs(f.a);
    if f.a in SCHEMA_IDS {
      hide SystemAttribute;
      BootValueShape(f.e, f.a);
      SchemaShape(f.a, f.v);
      BootIdsSmall(f.e);
      BootContains(f.e);
      if f.v.Long? { BootContains(f.v.i); }
    } else {
      PlainValid(f.v);
      BootContains(f.e);
      BootContains(TX_COMMITTED);
    }
  }

  lemma SchemaShape(a: I64, v: DataType)
    requires DB_IDENT <= a <= DB_UNIQUE && (a == DB_IDENT ==> v.Keyword?) && (a != DB_IDENT ==> v.Long?) &&
             SystemAttribute(a).Some?
    ensures Matches(SystemAttribute(a).value.1.valueType, v)
  {
  }

  lemma PlainValid(v: DataType)
    requires v.Instant? || v.Long?
    ensures Valid(v)
  {
  }

  lemma BootFunctional(f: Fact, g: Fact)
    requires f in BOOT.facts && g in BOOT.facts && f.e == g.e && f.a == g.a
    ensures f.v == g.v
  {
    hide BOOT_SCHEMA, SchemaValue, BOOT_IDS, BOOT_TX, BOOT;
    BootFactCases(f);
    BootFactCases(g);
  }

  lemma BootOwner(f: Fact, g: Fact)
    requires f in BOOT.facts && g in BOOT.facts && f.a == DB_IDENT && g.a == DB_IDENT && f.v == g.v
    ensures f.e == g.e
  {
    hide BOOT_SCHEMA, SchemaValue, BOOT_IDS, BOOT_TX, BOOT, BootName, Signature, BySignature;
    BootFactCases(f);
    BootFactCases(g);
    BootValueShape(f.e, f.a);
    BootValueShape(g.e, g.a);
    NameSignature(f.e);
    NameSignature(g.e);
  }

  lemma BootSingle()
    ensures SingleValued(BOOT.facts, BOOT_SCHEMA) && SingleOwner(BOOT.facts, BOOT_SCHEMA)
  {
    hide BOOT_SCHEMA, BOOT, Live, BOOT_TX;
    forall a: I64, e: I64, v, w | Live(BOOT.facts, e, a, v) && Live(BOOT.facts, e, a, w) ensures v == w {
      BootLive(e, a, v);
      BootLive(e, a, w);
      BootFunctional(Fact(e, a, v, BOOT_TX, Assert), Fact(e, a, w, BOOT_TX, Assert));
    }
    forall a | a in UniqueAttrs(BOOT_SCHEMA) ensures OneOwner(BOOT.facts, a) {
      OnlyIdentUnique(a);
      forall d: I64, e: I64, v | Reflexive(v) && Live(BOOT.facts, d, a, v) && Live(BOOT.facts, e, a, v) ensures d == e {
        BootLive(d, a, v);
        BootLive(e, a, v);
        BootOwner(Fact(d, a, v, BOOT_TX, Assert), Fact(e, a, v, BOOT_TX, Assert));
      }
    }
  }

  lemma OnlyIdentUnique(a: I64)
    requires a in UniqueAttrs(BOOT_SCHEMA)
    ensures a == DB_IDENT
  {
    BootEntry(a);
    hide BOOT_SCHEMA, BOOT_IDS, SYSTEM_IDS;
  }

  /** The invariants hold in a fresh database. */
  lemma BootHolds()
    ensures Inv(BOOT)
  {
    BootTables();
    BootCounters();
    BootLatest();
    hide BOOT, BOOT_SCHEMA, Inverse, HasSystem, Mirrors, SingleValued, SingleOwner, TypedFact, ReferencedFact,
         CountersOk, AllWritten, LatestStored, InTime;
    BootMirrors();
    BootSingle();
    forall f | f in BOOT.facts
      ensures TypedFact(f, BOOT_SCHEMA) && ReferencedFact(f, BOOT_SCHEMA, BOOT.pm)
    {
      BootTyped(f);
    }
  }

  lemma BootTables()
    ensures BOOT.schema == BOOT_SCHEMA && Inverse(BOOT_SCHEMA) && HasSystem(BOOT_SCHEMA)
  {
    BootInverse();
    BootSystem();
    BootParts();
    hide *;
  }

  lemma BootCounters()
    ensures CountersOk(BOOT.pm) && AllWritten(BOOT.facts, BOOT.pm) && InTime(BOOT.facts, BOOT.pm)
  {
    assert BOOT_TX == COUNTER_SPAN;
    hide *;
    BootParts();
    BootFacts();
    FreshCounters(BOOT.pm);
    FreshWritten(BOOT.facts, BOOT.pm);
  }

  lemma BootLatest()
    ensures LatestStored(BOOT)
  {
    BootParts();
    hide BOOT, BOOT_SCHEMA, SchemaValue, BOOT_IDS, SCHEMA_FACTS;
    forall f | f in BOOT.facts && f.e == BOOT_TX && f.a == DB_TX_INSTANT ensures f.v == Instant(0) { BootFactCases(f); }
  }

  /** Every state of every run of a fresh database has the invariants. */
  lemma Reachable(states: seq<State>, events: seq<Event>, i: nat)
    requires IsRun(states, events) && states[0] == BOOT && i < |states|
    ensures Inv(states[i])
  {
    hide *;
    BootHolds();
    RunKeeps(states, events, i);
  }
}
