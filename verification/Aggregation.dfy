/** Grouping the rows of a query by concatenated encodings. */
module Aggregation {
  import opened Octets
  import opened Values
  import opened Encode
  import opened Decode
  import opened Model

  /** A joined row, and the encodings it arrives as. */
  type Row = seq<DataType>
  type Tuple = seq<Octets>

  /** The columns grouped by, and the column of each aggregate. */
  datatype Plan = Plan(groupBy: seq<nat>, aggregates: seq<nat>)

  ghost predicate Fits(plan: Plan, row: Row) {
    && (forall i :: 0 <= i < |plan.groupBy| ==> plan.groupBy[i] < |row|)
    && (forall i :: 0 <= i < |plan.aggregates| ==> plan.aggregates[i] < |row|)
  }

  ghost predicate Encodes(t: Tuple, row: Row) {
    |t| == |row| && forall i :: 0 <= i < |row| ==> t[i] == Enc(row[i]) && Valid(row[i])
  }

  /** The values of some columns. */
  function Columns(row: Row, cols: seq<nat>): (r: seq<DataType>)
    requires forall i :: 0 <= i < |cols| ==> cols[i] < |row|
    ensures |r| == |cols| && forall i :: 0 <= i < |cols| ==> r[i] == row[cols[i]]
  {
    seq(|cols|, i requires 0 <= i < |cols| => row[cols[i]])
  }

  ghost function Concat(vs: seq<DataType>): Octets {
    if vs == [] then [] else Concat(vs[..|vs| - 1]) + Enc(vs[|vs| - 1])
  }

  /** The key of a row: the encodings of its group columns, one after the other. */
  ghost function GroupKey(plan: Plan, row: Row): Octets
    requires Fits(plan, row)
  {
    Concat(Columns(row, plan.groupBy))
  }

  // --- Keys without separators -----------------------------------------------------------

  ghost function ConcatFront(vs: seq<DataType>): Octets {
    if vs == [] then [] else Enc(vs[0]) + ConcatFront(vs[1..])
  }

  lemma {:induction false} ConcatBothWays(vs: seq<DataType>)
    ensures Concat(vs) == ConcatFront(vs)
  {
    if |vs| > 1 {
      var init, tail := vs[..|vs| - 1], vs[1..];
      ConcatBothWays(init);
      ConcatBothWays(tail);
      ConcatBothWays(init[1..]);
      assert tail[..|tail| - 1] == init[1..] && tail[|tail| - 1] == vs[|vs| - 1] && init[0] == vs[0];
      Associates(Enc(vs[0]), ConcatFront(init[1..]), Enc(vs[|vs| - 1]));
    } else if |vs| == 1 {
      assert vs[..0] == [] && vs[1..] == [];
      assert Concat(vs[..0]) == [] && ConcatFront(vs[1..]) == [];
      NeutralBothWays(Enc(vs[0]));
    }
  }

  lemma Associates(a: Octets, b: Octets, c: Octets)
    ensures (a + b) + c == a + (b + c)
  {
  }

  lemma NeutralBothWays(a: Octets)
    ensures [] + a == a + []
  {
  }

  /** Prefix-free encodings need no separator: the concatenation determines the values. */
  lemma {:induction false} ConcatInjective(vs: seq<DataType>, ws: seq<DataType>)
    requires |vs| == |ws| && ConcatFront(vs) == ConcatFront(ws)
    ensures vs == ws
  {
    if vs != [] {
      hide Enc;
      EncodingSplits(vs[0], ws[0], ConcatFront(vs[1..]), ConcatFront(ws[1..]));
      ConcatInjective(vs[1..], ws[1..]);
      assert vs == [vs[0]] + vs[1..] && ws == [ws[0]] + ws[1..];
    }
  }

  /** Two rows share a key exactly if they agree on every group column. */
  lemma SameGroup(plan: Plan, r: Row, q: Row)
    requires Fits(plan, r) && Fits(plan, q)
    ensures GroupKey(plan, r) == GroupKey(plan, q) <==>
            forall i :: 0 <= i < |plan.groupBy| ==> r[plan.groupBy[i]] == q[plan.groupBy[i]]
  {
    hide Concat, ConcatFront;
    var vs, ws := Columns(r, plan.groupBy), Columns(q, plan.groupBy);
    ConcatBothWays(vs);
    ConcatBothWays(ws);
    if GroupKey(plan, r) == GroupKey(plan, q) {
      ConcatInjective(vs, ws);
      assert forall i :: 0 <= i < |plan.groupBy| ==> vs[i] == ws[i];
    }
    if forall i :: 0 <= i < |plan.groupBy| ==> r[plan.groupBy[i]] == q[plan.groupBy[i]] { assert vs == ws; }
  }

  // --- Groups ----------------------------------------------------------------------------

  ghost predicate AllFit(plan: Plan, rows: seq<Row>) {
    forall i :: 0 <= i < |rows| ==> Fits(plan, rows[i])
  }

  /** The rows with a key, in order. */
  ghost function Members(plan: Plan, rows: seq<Row>, k: Octets): (r: seq<Row>)
    requires AllFit(plan, rows)
    ensures AllFit(plan, r)
  {
    if rows == [] then []
    else
      var init, row := rows[..|rows| - 1], rows[|rows| - 1];
      Members(plan, init, k) + if GroupKey(plan, row) == k then [row] else []
  }

  /** The values one aggregate is fed. */
  ghost function Fed(plan: Plan, rows: seq<Row>, k: Octets, a: nat): (r: seq<DataType>)
    requires AllFit(plan, rows) && a < |plan.aggregates|
  {
    var ms := Members(plan, rows, k);
    seq(|ms|, i requires 0 <= i < |ms| => ms[i][plan.aggregates[a]])
  }

  /** A group: the values of its columns and what each accumulator was fed. */
  datatype Group = Group(values: seq<DataType>, fed: seq<seq<DataType>>)

  type Groups = map<Octets, Group>

  ghost predicate HasKey(plan: Plan, rows: seq<Row>, k: Octets)
    requires AllFit(plan, rows)
  {
    exists i :: 0 <= i < |rows| && GroupKey(plan, rows[i]) == k
  }

  /** One group per key, plus the seeded one of a query without group columns. */
  ghost predicate GroupsOf(gs: Groups, plan: Plan, rows: seq<Row>)
    requires AllFit(plan, rows)
  {
    && (forall k :: k in gs <==> HasKey(plan, rows, k) || (plan.groupBy == [] && k == []))
    && (forall k :: k in gs ==> GroupIs(gs[k], plan, rows, k))
  }

  ghost predicate GroupIs(g: Group, plan: Plan, rows: seq<Row>, k: Octets)
    requires AllFit(plan, rows)
  {
    && Concat(g.values) == k && |g.values| == |plan.groupBy| && |g.fed| == |plan.aggregates|
    && forall a: nat :: a < |plan.aggregates| ==> g.fed[a] == Fed(plan, rows, k, a)
  }

  // --- Every row is counted once ---------------------------------------------------------

  ghost function Keys(plan: Plan, rows: seq<Row>): set<Octets>
    requires AllFit(plan, rows)
  {
    set i | 0 <= i < |rows| :: GroupKey(plan, rows[i])
  }

  /** The rows whose key is in a set. */
  ghost function Among(plan: Plan, rows: seq<Row>, ks: set<Octets>): nat
    requires AllFit(plan, rows)
  {
    if rows == [] then 0
    else
      Among(plan, rows[..|rows| - 1], ks) +
      if GroupKey(plan, rows[|rows| - 1]) in ks then 1 else 0
  }

  /** The sizes of the groups with keys in a set, added up. */
  ghost function Total(plan: Plan, rows: seq<Row>, ks: set<Octets>): nat
    requires AllFit(plan, rows)
  {
    if ks == {} then 0
    else
      var k :| k in ks;
      |Members(plan, rows, k)| + Total(plan, rows, ks - {k})
  }

  lemma {:induction false} AmongSplits(plan: Plan, rows: seq<Row>, ks: set<Octets>, k: Octets)
    requires AllFit(plan, rows) && k in ks
    ensures Among(plan, rows, ks) == |Members(plan, rows, k)| + Among(plan, rows, ks - {k})
  {
    hide GroupKey;
    if rows != [] { AmongSplits(plan, rows[..|rows| - 1], ks, k); }
  }

  lemma {:induction false} TotalIsAmong(plan: Plan, rows: seq<Row>, ks: set<Octets>)
    requires AllFit(plan, rows)
    ensures Total(plan, rows, ks) == Among(plan, rows, ks)
  {
    hide GroupKey, Members;
    if ks == {} {
      AmongNone(plan, rows);
    } else {
      var k :| k in ks && Total(plan, rows, ks) == |Members(plan, rows, k)| + Total(plan, rows, ks - {k});
      TotalIsAmong(plan, rows, ks - {k});
      AmongSplits(plan, rows, ks, k);
    }
  }

  lemma {:induction false} AmongNone(plan: Plan, rows: seq<Row>)
    requires AllFit(plan, rows)
    ensures Among(plan, rows, {}) == 0
  {
    if rows != [] { AmongNone(plan, rows[..|rows| - 1]); }
  }

  lemma {:induction false} AmongAll(plan: Plan, rows: seq<Row>, ks: set<Octets>)
    requires AllFit(plan, rows) && forall i :: 0 <= i < |rows| ==> GroupKey(plan, rows[i]) in ks
    ensures Among(plan, rows, ks) == |rows|
  {
    hide GroupKey;
    if rows != [] { AmongAll(plan, rows[..|rows| - 1], ks); }
  }

  /** The sizes of all groups add up to the number of rows; without group columns there is one group. */
  lemma CountsAddUp(gs: Groups, plan: Plan, rows: seq<Row>)
    requires AllFit(plan, rows) && GroupsOf(gs, plan, rows)
    ensures Total(plan, rows, gs.Keys) == |rows|
    ensures plan.groupBy == [] ==> gs.Keys == {[]}
    ensures forall k, a: nat :: k in gs && a < |plan.aggregates| ==> |gs[k].fed[a]| == |Members(plan, rows, k)|
  {
    forall i | 0 <= i < |rows| ensures GroupKey(plan, rows[i]) in gs.Keys {
      hide GroupKey;
      assert HasKey(plan, rows, GroupKey(plan, rows[i]));
    }
    AmongAll(plan, rows, gs.Keys);
    TotalIsAmong(plan, rows, gs.Keys);
    if plan.groupBy == [] {
      forall i | 0 <= i < |rows| ensures GroupKey(plan, rows[i]) == [] {}
    }
  }

  // --- The loop --------------------------------------------------------------------------

  /** Concatenating the group columns of a tuple. */
  method BuildKey(plan: Plan, t: Tuple, ghost row: Row) returns (k: Octets)
    requires Fits(plan, row) && Encodes(t, row)
    ensures k == GroupKey(plan, row)
  {
    hide Enc;
    k := [];
    ghost var vs := Columns(row, plan.groupBy);
    assert vs[..0] == [];
    for i := 0 to |plan.groupBy|
      invariant k == Concat(vs[..i])
    {
      assert vs[..i + 1][..i] == vs[..i];
      k := k + t[plan.groupBy[i]];
    }
    assert vs[..|vs|] == vs;
  }

  /** Decoding some columns of a tuple. */
  method DecodeColumns(cols: seq<nat>, t: Tuple, ghost row: Row) returns (vs: seq<DataType>)
    requires Encodes(t, row) && forall i :: 0 <= i < |cols| ==> cols[i] < |row|
    ensures vs == Columns(row, cols)
  {
    hide Enc, DecValue, Valid;
    vs := [];
    while |vs| < |cols|
      invariant |vs| <= |cols| && forall i :: 0 <= i < |vs| ==> vs[i] == row[cols[i]]
    {
      var c := cols[|vs|];
      Decodes(row[c]);
      var v := DecValue(t[c]);
      vs := vs + [v.value];
    }
  }

  lemma Decodes(v: DataType)
    requires Valid(v)
    ensures DecValue(Enc(v)) == Done(v, [])
  {
    hide Enc, DecValue;
    assert Enc(v) + [] == Enc(v);
    RoundTrip(v, []);
  }

  /** Feed one row to every accumulator. */
  method Feed(fed: seq<seq<DataType>>, vs: seq<DataType>) returns (out: seq<seq<DataType>>)
    requires |fed| == |vs|
    ensures |out| == |fed| && forall a :: 0 <= a < |fed| ==> out[a] == fed[a] + [vs[a]]
  {
    out := [];
    while |out| < |fed|
      invariant |out| <= |fed| && forall a :: 0 <= a < |out| ==> out[a] == fed[a] + [vs[a]]
    {
      out := out + [fed[|out|] + [vs[|out|]]];
    }
  }

  lemma MembersStep(plan: Plan, rows: seq<Row>, i: nat, k: Octets)
    requires AllFit(plan, rows) && i < |rows|
    ensures Members(plan, rows[..i + 1], k) == Members(plan, rows[..i], k) +
            if GroupKey(plan, rows[i]) == k then [rows[i]] else []
    ensures HasKey(plan, rows[..i + 1], k) <==> HasKey(plan, rows[..i], k) || GroupKey(plan, rows[i]) == k
  {
    hide GroupKey;
    var more := rows[..i + 1];
    assert more[..i] == rows[..i] && more[i] == rows[i];
    if HasKey(plan, rows[..i], k) {
      var j :| 0 <= j < i && GroupKey(plan, rows[..i][j]) == k;
      assert more[j] == rows[..i][j];
    }
    if GroupKey(plan, rows[i]) == k { assert GroupKey(plan, more[i]) == k; }
    if HasKey(plan, more, k) && GroupKey(plan, rows[i]) != k {
      var j :| 0 <= j < |more| && GroupKey(plan, more[j]) == k;
      assert rows[..i][j] == more[j];
    }
  }

  lemma FedStep(plan: Plan, rows: seq<Row>, i: nat, k: Octets, a: nat)
    requires AllFit(plan, rows) && i < |rows| && a < |plan.aggregates|
    ensures Fed(plan, rows[..i + 1], k, a) ==
            Fed(plan, rows[..i], k, a) + if GroupKey(plan, rows[i]) == k then [rows[i][plan.aggregates[a]]] else []
  {
    hide GroupKey, Members;
    MembersStep(plan, rows, i, k);
  }

  lemma {:induction false} NoMembers(plan: Plan, rows: seq<Row>, k: Octets)
    requires AllFit(plan, rows) && !HasKey(plan, rows, k)
    ensures Members(plan, rows, k) == []
  {
    hide GroupKey;
    if rows != [] {
      assert GroupKey(plan, rows[|rows| - 1]) != k;
      var init := rows[..|rows| - 1];
      forall j | 0 <= j < |init| ensures GroupKey(plan, init[j]) != k { assert init[j] == rows[j]; }
      NoMembers(plan, init, k);
    }
  }

  function EmptyFed(n: nat): (r: seq<seq<DataType>>)
    ensures |r| == n && forall a :: 0 <= a < n ==> r[a] == []
  {
    seq(n, _ => [])
  }

  lemma FreshGroup(plan: Plan, rows: seq<Row>, k: Octets, vs: seq<DataType>)
    requires AllFit(plan, rows) && !HasKey(plan, rows, k) && Concat(vs) == k && |vs| == |plan.groupBy|
    ensures GroupIs(Group(vs, EmptyFed(|plan.aggregates|)), plan, rows, k)
  {
    hide GroupKey, Concat;
    NoMembers(plan, rows, k);
  }

  /** Feeding a row keeps its group and all the others right. */
  lemma GroupFed(g: Group, plan: Plan, rows: seq<Row>, i: nat, k: Octets, out: seq<seq<DataType>>)
    requires AllFit(plan, rows) && i < |rows| && GroupIs(g, plan, rows[..i], k) && GroupKey(plan, rows[i]) == k
    requires |out| == |g.fed| && forall a :: 0 <= a < |g.fed| ==> out[a] == g.fed[a] + [rows[i][plan.aggregates[a]]]
    ensures GroupIs(g.(fed := out), plan, rows[..i + 1], k)
  {
    hide GroupKey, Concat, Fed;
    forall a: nat | a < |plan.aggregates|
      ensures out[a] == Fed(plan, rows[..i + 1], k, a)
    {
      FedStep(plan, rows, i, k, a);
    }
  }

  lemma GroupKept(g: Group, plan: Plan, rows: seq<Row>, i: nat, k: Octets)
    requires AllFit(plan, rows) && i < |rows| && GroupIs(g, plan, rows[..i], k) && GroupKey(plan, rows[i]) != k
    ensures GroupIs(g, plan, rows[..i + 1], k)
  {
    hide GroupKey, Concat, Fed;
    forall a: nat | a < |plan.aggregates|
      ensures Fed(plan, rows[..i], k, a) == Fed(plan, rows[..i + 1], k, a)
    {
      FedStep(plan, rows, i, k, a);
    }
  }

  lemma GroupsStep(gs: Groups, plan: Plan, rows: seq<Row>, i: nat, g: Group)
    requires AllFit(plan, rows) && i < |rows| && GroupsOf(gs, plan, rows[..i])
    requires GroupIs(g, plan, rows[..i + 1], GroupKey(plan, rows[i]))
    ensures GroupsOf(gs[GroupKey(plan, rows[i]) := g], plan, rows[..i + 1])
  {
    hide GroupKey, GroupIs, HasKey, Members;
    var key := GroupKey(plan, rows[i]);
    var next := gs[key := g];
    forall k
      ensures k in next <==> HasKey(plan, rows[..i + 1], k) || (plan.groupBy == [] && k == [])
    {
      MembersStep(plan, rows, i, k);
    }
    forall k | k in next ensures GroupIs(next[k], plan, rows[..i + 1], k) {
      if k != key { GroupKept(gs[k], plan, rows, i, k); }
    }
  }

  lemma Seeded(plan: Plan, rows: seq<Row>)
    requires AllFit(plan, rows)
    ensures GroupsOf(if plan.groupBy == [] then map[[] := Group([], EmptyFed(|plan.aggregates|))]
            else map[], plan, rows[..0])
  {
    if plan.groupBy == [] {
      assert !HasKey(plan, rows[..0], []);
      FreshGroup(plan, rows[..0], [], []);
    }
  }

  ghost predicate Rows(ts: seq<Tuple>, rows: seq<Row>, plan: Plan) {
    |ts| == |rows| && AllFit(plan, rows) && forall i :: 0 <= i < |ts| ==> Encodes(ts[i], rows[i])
  }

  /** `execute_aggregation` up to the finished accumulators. */
  method ExecuteAggregation(ts: seq<Tuple>, plan: Plan, ghost rows: seq<Row>) returns (gs: Groups)
    requires Rows(ts, rows, plan)
    ensures GroupsOf(gs, plan, rows)
  {
    hide GroupKey, GroupIs, HasKey, Members, GroupsOf, Fits, Encodes, Fed, Concat;
    gs := if plan.groupBy == [] then map[[] := Group([], EmptyFed(|plan.aggregates|))] else map[];
    Seeded(plan, rows);
    for i := 0 to |ts|
      invariant GroupsOf(gs, plan, rows[..i])
    {
      var key := BuildKey(plan, ts[i], rows[i]);
      FitsColumns(plan, rows[i]);
      GroupsUnfold(gs, plan, rows[..i], key);
      var g: Group;
      if key in gs {
        g := gs[key];
      } else {
        var vs := DecodeColumns(plan.groupBy, ts[i], rows[i]);
        KeyOfColumns(plan, rows[i]);
        FreshGroup(plan, rows[..i], key, vs);
        g := Group(vs, EmptyFed(|plan.aggregates|));
      }
      GroupShape(g, plan, rows[..i], key);
      var values := DecodeColumns(plan.aggregates, ts[i], rows[i]);
      var out := Feed(g.fed, values);
      GroupFed(g, plan, rows, i, key, out);
      GroupsStep(gs, plan, rows, i, g.(fed := out));
      gs := gs[key := g.(fed := out)];
    }
    assert rows[..|rows|] == rows;
  }

  lemma FitsColumns(plan: Plan, row: Row)
    requires Fits(plan, row)
    ensures forall i :: 0 <= i < |plan.groupBy| ==> plan.groupBy[i] < |row|
    ensures forall i :: 0 <= i < |plan.aggregates| ==> plan.aggregates[i] < |row|
  {
  }

  lemma KeyOfColumns(plan: Plan, row: Row)
    requires Fits(plan, row)
    ensures Concat(Columns(row, plan.groupBy)) == GroupKey(plan, row)
  {
  }

  lemma GroupsUnfold(gs: Groups, plan: Plan, rows: seq<Row>, k: Octets)
    requires AllFit(plan, rows) && GroupsOf(gs, plan, rows)
    ensures k in gs ==> GroupIs(gs[k], plan, rows, k)
    ensures k !in gs ==> !HasKey(plan, rows, k)
  {
    hide GroupKey, GroupIs;
  }

  lemma GroupShape(g: Group, plan: Plan, rows: seq<Row>, k: Octets)
    requires AllFit(plan, rows) && GroupIs(g, plan, rows, k)
    ensures |g.fed| == |plan.aggregates|
  {
  }
}
