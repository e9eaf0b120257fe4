/** Merging tempids that share an unresolved identity, and numbering the classes. */
module Labels {
  import opened Octets
  import opened Ordered
  import opened UnionFind

  type TempId = Octets
  type Edges = set<(TempId, TempId)>

  // --- The equivalence generated by a set of pairs ---------------------------------------

  ghost predicate Adjacent(edges: Edges, t: TempId, u: TempId) {
    (t, u) in edges || (u, t) in edges
  }

  ghost predicate IsPath(edges: Edges, p: seq<TempId>) {
    p != [] && forall i :: 0 <= i < |p| - 1 ==> Adjacent(edges, p[i], p[i + 1])
  }

  /** `t` and `u` are in one class of the least equivalence containing `edges`. */
  ghost predicate Joined(edges: Edges, t: TempId, u: TempId) {
    exists p :: IsPath(edges, p) && p[0] == t && p[|p| - 1] == u
  }

  lemma JoinedSelf(edges: Edges, t: TempId)
    ensures Joined(edges, t, t)
  {
    assert IsPath(edges, [t]);
  }

  lemma JoinedEdge(edges: Edges, t: TempId, u: TempId)
    requires Adjacent(edges, t, u)
    ensures Joined(edges, t, u)
  {
    var p := [t, u];
    assert IsPath(edges, p) && p[0] == t && p[|p| - 1] == u;
  }

  lemma JoinedTransitive(edges: Edges, t: TempId, u: TempId, w: TempId)
    requires Joined(edges, t, u) && Joined(edges, u, w)
    ensures Joined(edges, t, w)
  {
    var p :| IsPath(edges, p) && p[0] == t && p[|p| - 1] == u;
    var q :| IsPath(edges, q) && q[0] == u && q[|q| - 1] == w;
    var r := p + q[1..];
    forall i | 0 <= i < |r| - 1 ensures Adjacent(edges, r[i], r[i + 1]) {
      if i >= |p| - 1 {
        assert Adjacent(edges, q[i - |p| + 1], q[i - |p| + 2]);
        assert r[i] == q[i - |p| + 1] && r[i + 1] == q[i - |p| + 2];
      }
    }
    assert IsPath(edges, r) && r[0] == t && r[|r| - 1] == w;
  }

  lemma JoinedSymmetric(edges: Edges, t: TempId, u: TempId)
    requires Joined(edges, t, u)
    ensures Joined(edges, u, t)
  {
    var p :| IsPath(edges, p) && p[0] == t && p[|p| - 1] == u;
    var q := seq(|p|, i requires 0 <= i < |p| => p[|p| - 1 - i]);
    forall i | 0 <= i < |q| - 1 ensures Adjacent(edges, q[i], q[i + 1]) {
      assert Adjacent(edges, p[|p| - 2 - i], p[|p| - 2 - i + 1]);
    }
    assert IsPath(edges, q) && q[0] == u && q[|q| - 1] == t;
  }

  /** The equivalence is the least: any equivalence joining every edge joins every joined pair. */
  lemma {:induction false} PathWithin(edges: Edges, p: seq<TempId>, rel: Edges)
    requires IsPath(edges, p)
    requires forall t, u :: Adjacent(edges, t, u) ==> Joined(rel, t, u)
    ensures Joined(rel, p[0], p[|p| - 1])
    decreases |p|
  {
    if |p| == 1 {
      JoinedSelf(rel, p[0]);
    } else {
      var q := p[1..];
      forall i | 0 <= i < |q| - 1 ensures Adjacent(edges, q[i], q[i + 1]) {
        assert Adjacent(edges, p[i + 1], p[i + 1 + 1]);
      }
      PathWithin(edges, q, rel);
      assert Adjacent(edges, p[0], p[0 + 1]);
      JoinedTransitive(rel, p[0], p[1], p[|p| - 1]);
    }
  }

  lemma JoinedWithin(edges: Edges, rel: Edges, t: TempId, u: TempId)
    requires forall x, y :: Adjacent(edges, x, y) ==> Joined(rel, x, y)
    requires Joined(edges, t, u)
    ensures Joined(rel, t, u)
  {
    var p :| IsPath(edges, p) && p[0] == t && p[|p| - 1] == u;
    PathWithin(edges, p, rel);
  }

  /** Adding one pair merges exactly the two classes it links. */
  ghost predicate JoinedVia(edges: Edges, a: TempId, b: TempId, t: TempId, u: TempId) {
    || Joined(edges, t, u)
    || (Joined(edges, t, a) && Joined(edges, b, u))
    || (Joined(edges, t, b) && Joined(edges, a, u))
  }

  lemma {:induction false} PathVia(edges: Edges, a: TempId, b: TempId, p: seq<TempId>)
    requires IsPath(edges + {(a, b)}, p)
    ensures JoinedVia(edges, a, b, p[0], p[|p| - 1])
    decreases |p|
  {
    JoinedSelf(edges, p[0]);
    if |p| > 1 {
      var q := p[1..];
      forall i | 0 <= i < |q| - 1 ensures Adjacent(edges + {(a, b)}, q[i], q[i + 1]) {
        assert Adjacent(edges + {(a, b)}, p[i + 1], p[i + 1 + 1]);
      }
      PathVia(edges, a, b, q);
      assert Adjacent(edges + {(a, b)}, p[0], p[0 + 1]);
      ExtendVia(edges, a, b, p[0], p[1], p[|p| - 1]);
    }
  }

  lemma ExtendVia(edges: Edges, a: TempId, b: TempId, s: TempId, t: TempId, u: TempId)
    requires Adjacent(edges + {(a, b)}, s, t) && JoinedVia(edges, a, b, t, u)
    ensures JoinedVia(edges, a, b, s, u)
  {
    JoinedSelf(edges, a);
    JoinedSelf(edges, b);
    if Adjacent(edges, s, t) {
      JoinedEdge(edges, s, t);
      if Joined(edges, t, u) { JoinedTransitive(edges, s, t, u); }
      if Joined(edges, t, a) { JoinedTransitive(edges, s, t, a); }
      if Joined(edges, t, b) { JoinedTransitive(edges, s, t, b); }
    } else if s == a {
      if Joined(edges, b, a) && Joined(edges, b, u) {
        JoinedSymmetric(edges, b, a);
      }
    }
  }

  lemma JoinedAdd(edges: Edges, a: TempId, b: TempId, t: TempId, u: TempId)
    ensures Joined(edges + {(a, b)}, t, u) <==> JoinedVia(edges, a, b, t, u)
  {
    var more := edges + {(a, b)};
    if Joined(more, t, u) {
      var p :| IsPath(more, p) && p[0] == t && p[|p| - 1] == u;
      PathVia(edges, a, b, p);
    }
    forall x, y | Joined(edges, x, y) ensures Joined(more, x, y) { JoinedMonotone(edges, more, x, y); }
    JoinedEdge(more, a, b);
    JoinedEdge(more, b, a);
    if Joined(edges, t, a) && Joined(edges, b, u) {
      JoinedTransitive(more, t, a, b);
      JoinedTransitive(more, t, b, u);
    }
    if Joined(edges, t, b) && Joined(edges, a, u) {
      JoinedTransitive(more, t, b, a);
      JoinedTransitive(more, t, a, u);
    }
  }

  lemma JoinedMonotone(edges: Edges, more: Edges, t: TempId, u: TempId)
    requires edges <= more && Joined(edges, t, u)
    ensures Joined(more, t, u)
  {
    forall x, y | Adjacent(edges, x, y) ensures Joined(more, x, y) { JoinedEdge(more, x, y); }
    JoinedWithin(edges, more, t, u);
  }

  // --- Ranks in a finite ordered set -----------------------------------------------------

  ghost function Lower(s: set<TempId>, x: TempId): set<TempId> {
    set m | m in s && Less(m, x)
  }

  ghost function Rank(s: set<TempId>, x: TempId): nat { |Lower(s, x)| }

  lemma SubsetSmaller(a: set<TempId>, b: set<TempId>, x: TempId)
    requires a <= b && x in b && x !in a
    ensures |a| < |b|
  {
    SubsetAtMost(a, b - {x});
  }

  lemma {:induction false} SubsetAtMost(a: set<TempId>, b: set<TempId>)
    requires a <= b
    ensures |a| <= |b|
  {
    if a != {} {
      var x :| x in a;
      SubsetAtMost(a - {x}, b - {x});
    }
  }

  lemma RankMonotone(s: set<TempId>, x: TempId, y: TempId)
    requires x in s && Less(x, y)
    ensures Rank(s, x) < Rank(s, y)
  {
    forall m | m in Lower(s, x) ensures m in Lower(s, y) { LessTransitive(m, x, y); }
    if x in Lower(s, x) { LessAsymmetric(x, x); }
    SubsetSmaller(Lower(s, x), Lower(s, y), x);
  }

  /** Every rank below that of `x` belongs to a member below `x`. */
  lemma {:induction false} RankReached(s: set<TempId>, x: TempId, k: nat) returns (m: TempId)
    requires k < Rank(s, x)
    ensures m in s && Less(m, x) && Rank(s, m) == k
    decreases Rank(s, x)
  {
    var l := Lower(s, x);
    var g := GreatestOf(l);
    forall y ensures y in Lower(s, g) <==> y in l - {g} {
      if y in Lower(s, g) { LessTransitive(y, g, x); LessAsymmetric(y, g); }
      if y in l - {g} { LessTotal(y, g); }
    }
    assert Lower(s, g) == l - {g};
    if k == Rank(s, g) {
      m := g;
    } else {
      m := RankReached(s, g, k);
      LessTransitive(m, g, x);
    }
  }

  lemma {:induction false} GreatestOf(s: set<TempId>) returns (g: TempId)
    requires s != {}
    ensures g in s && forall y :: y in s ==> AtMost(y, g)
  {
    var x :| x in s;
    var rest := s - {x};
    g := x;
    var h := x;
    if rest != {} {
      h := GreatestOf(rest);
      LessTotal(x, h);
      if Less(x, h) { g := h; }
    }
    forall y | y in s ensures AtMost(y, g) {
      if y != x {
        assert y in rest;
        if g == x { AtMostTransitive(y, h, x); }
      }
    }
  }

  // --- Class labels ----------------------------------------------------------------------

  ghost function Class(tempids: set<TempId>, edges: Edges, t: TempId): set<TempId> {
    set u | u in tempids && Joined(edges, t, u)
  }

  ghost function ClassMin(tempids: set<TempId>, edges: Edges, t: TempId): (m: TempId)
    requires t in tempids
    ensures IsLeast(m, Class(tempids, edges, t))
  {
    JoinedSelf(edges, t);
    assert t in Class(tempids, edges, t);
    Least(Class(tempids, edges, t))
  }

  ghost function Minima(tempids: set<TempId>, edges: Edges): set<TempId> {
    set m | m in tempids && ClassMin(tempids, edges, m) == m
  }

  /** The label of a tempid: how many classes have a least member before that of its own class. */
  ghost function Labelling(tempids: set<TempId>, edges: Edges): map<TempId, nat> {
    map t | t in tempids :: Rank(Minima(tempids, edges), ClassMin(tempids, edges, t))
  }

  /** Labels are class numbers, dense and in order of first appearance. */
  ghost predicate IsLabelling(labels: map<TempId, nat>, tempids: set<TempId>, edges: Edges) {
    && labels.Keys == tempids
    && (forall t, u :: t in tempids && u in tempids ==> (labels[t] == labels[u] <==> Joined(edges, t, u)))
    && (forall t, k: nat :: t in tempids && k < labels[t] ==> EarlierWith(labels, t, k))
  }

  /** Label `k` belongs to a tempid before `t`. */
  ghost predicate EarlierWith(labels: map<TempId, nat>, t: TempId, k: nat) {
    exists u :: u in labels && Less(u, t) && labels[u] == k
  }

  lemma ClassMinSame(tempids: set<TempId>, edges: Edges, t: TempId, u: TempId)
    requires t in tempids && u in tempids && Joined(edges, t, u)
    ensures ClassMin(tempids, edges, t) == ClassMin(tempids, edges, u)
  {
    JoinedSymmetric(edges, t, u);
    forall w ensures Joined(edges, t, w) <==> Joined(edges, u, w) {
      if Joined(edges, t, w) { JoinedTransitive(edges, u, t, w); }
      if Joined(edges, u, w) { JoinedTransitive(edges, t, u, w); }
    }
    assert Class(tempids, edges, t) == Class(tempids, edges, u);
  }

  lemma ClassMinIsMinimum(tempids: set<TempId>, edges: Edges, t: TempId)
    requires t in tempids
    ensures var m := ClassMin(tempids, edges, t);
            m in Minima(tempids, edges) && Joined(edges, t, m) && AtMost(m, t)
  {
    var m := ClassMin(tempids, edges, t);
    JoinedSelf(edges, t);
    ClassMinSame(tempids, edges, t, m);
  }

  /** The closed form is a labelling. */
  lemma LabellingHolds(tempids: set<TempId>, edges: Edges)
    ensures IsLabelling(Labelling(tempids, edges), tempids, edges)
  {
    var labels := Labelling(tempids, edges);
    forall t, u | t in tempids && u in tempids ensures labels[t] == labels[u] <==> Joined(edges, t, u) {
      LabelsClassify(tempids, edges, t, u);
    }
    forall t, k: nat | t in tempids && k < labels[t] ensures EarlierWith(labels, t, k) {
      LowerLabelExists(tempids, edges, t, k);
    }
  }

  lemma LowerLabelExists(tempids: set<TempId>, edges: Edges, t: TempId, k: nat)
    requires t in tempids && k < Labelling(tempids, edges)[t]
    ensures EarlierWith(Labelling(tempids, edges), t, k)
  {
    ClassMinIsMinimum(tempids, edges, t);
    var m := ClassMin(tempids, edges, t);
    var u := RankReached(Minima(tempids, edges), m, k);
    AtMostTransitive(u, m, t);
    assert u in tempids && ClassMin(tempids, edges, u) == u;
  }

  lemma LabelsClassify(tempids: set<TempId>, edges: Edges, t: TempId, u: TempId)
    requires t in tempids && u in tempids
    ensures Labelling(tempids, edges)[t] == Labelling(tempids, edges)[u] <==> Joined(edges, t, u)
  {
    var minima, m, n := Minima(tempids, edges), ClassMin(tempids, edges, t), ClassMin(tempids, edges, u);
    if Joined(edges, t, u) {
      ClassMinSame(tempids, edges, t, u);
    } else {
      ClassMinIsMinimum(tempids, edges, t);
      ClassMinIsMinimum(tempids, edges, u);
      if m == n {
        JoinedSymmetric(edges, u, m);
        JoinedTransitive(edges, t, m, u);
      }
      LessTotal(m, n);
      if Less(m, n) { RankMonotone(minima, m, n); } else { RankMonotone(minima, n, m); }
    }
  }

  /** There is only one labelling, so no iteration order can show in the labels. */
  lemma LabellingUnique(a: map<TempId, nat>, b: map<TempId, nat>, tempids: set<TempId>, edges: Edges)
    requires IsLabelling(a, tempids, edges) && IsLabelling(b, tempids, edges)
    ensures a == b
  {
    if a != b {
      var differ := set t | t in tempids && a[t] != b[t];
      assert differ != {} by {
        if differ == {} {
          forall t | t in tempids ensures a[t] == b[t] { assert t !in differ; }
        }
      }
      var t := Least(differ);
      forall u | u in tempids && Less(u, t) ensures a[u] == b[u] {
        if u in differ { LessAsymmetric(u, t); }
      }
      NoLowerLabel(a, b, tempids, edges, t);
      NoLowerLabel(b, a, tempids, edges, t);
    }
  }

  /** Labels that agree on everything before `t` cannot be lower at `t`. */
  lemma NoLowerLabel(a: map<TempId, nat>, b: map<TempId, nat>, tempids: set<TempId>, edges: Edges, t: TempId)
    requires IsLabelling(a, tempids, edges) && IsLabelling(b, tempids, edges) && t in tempids
    requires forall u :: u in tempids && Less(u, t) ==> a[u] == b[u]
    ensures a[t] >= b[t]
  {
    if a[t] < b[t] {
      assert EarlierWith(b, t, a[t]);
      var u :| u in b && Less(u, t) && b[u] == a[t];
    }
  }

  // --- Labelling with the forest ---------------------------------------------------------

  /** Tempids that assert one unresolved identity. */
  type Group = seq<TempId>

  ghost function Star(groups: seq<Group>): Edges {
    set g, t | g in groups && g != [] && t in g :: (g[0], t)
  }

  ghost function Clique(groups: seq<Group>): Edges {
    set g, t, u | g in groups && t in g && u in g :: (t, u)
  }

  /** Linking every member to the first joins the same pairs as linking all members of a group. */
  lemma StarIsClique(groups: seq<Group>, t: TempId, u: TempId)
    ensures Joined(Star(groups), t, u) <==> Joined(Clique(groups), t, u)
  {
    if Joined(Star(groups), t, u) { JoinedMonotone(Star(groups), Clique(groups), t, u); }
    if Joined(Clique(groups), t, u) {
      forall x, y | Adjacent(Clique(groups), x, y) ensures Joined(Star(groups), x, y) {
        var g :| g in groups && x in g && y in g;
        JoinedEdge(Star(groups), x, g[0]);
        JoinedEdge(Star(groups), g[0], y);
        JoinedTransitive(Star(groups), x, g[0], y);
      }
      JoinedWithin(Clique(groups), Star(groups), t, u);
    }
  }

  ghost predicate Within(groups: seq<Group>, tempids: seq<TempId>) {
    forall g, t :: g in groups && t in g ==> t in tempids
  }

  /** Two positions have one representative exactly if `edges` join their tempids. */
  ghost predicate Represents(rep: seq<nat>, tempids: seq<TempId>, edges: Edges) {
    && |rep| == |tempids|
    && forall i, j :: 0 <= i < |rep| && 0 <= j < |rep| ==> (rep[i] == rep[j] <==> Joined(edges, tempids[i], tempids[j]))
  }

  lemma InitialReps(tempids: seq<TempId>)
    requires Sorted(tempids)
    ensures Represents(seq(|tempids|, i => i), tempids, {})
  {
    var rep := seq(|tempids|, i => i);
    forall i, j | 0 <= i < |rep| && 0 <= j < |rep| ensures rep[i] == rep[j] <==> Joined({}, tempids[i], tempids[j]) {
      JoinedSelf({}, tempids[i]);
      if Joined({}, tempids[i], tempids[j]) {
        var p :| IsPath({}, p) && p[0] == tempids[i] && p[|p| - 1] == tempids[j];
        assert |p| > 1 ==> Adjacent({}, p[0], p[0 + 1]);
        if i < j { LessAsymmetric(tempids[i], tempids[j]); }
        if j < i { LessAsymmetric(tempids[j], tempids[i]); }
      }
    }
  }

  /** One union adds one pair. */
  lemma MergeRepresents(rep: seq<nat>, tempids: seq<TempId>, edges: Edges, a: nat, b: nat)
    requires Represents(rep, tempids, edges) && a < |rep| && b < |rep|
    ensures Represents(Merge(rep, a, b), tempids, edges + {(tempids[a], tempids[b])})
  {
    var r, more := Merge(rep, a, b), edges + {(tempids[a], tempids[b])};
    forall i, j | 0 <= i < |rep| && 0 <= j < |rep| ensures r[i] == r[j] <==> Joined(more, tempids[i], tempids[j]) {
      JoinedAdd(edges, tempids[a], tempids[b], tempids[i], tempids[j]);
    }
  }

  /** The position of a tempid in the ordered list. */
  method IndexOf(tempids: seq<TempId>, t: TempId) returns (i: nat)
    requires t in tempids
    ensures i < |tempids| && tempids[i] == t
  {
    i := 0;
    while tempids[i] != t
      invariant i < |tempids| && t in tempids[i..]
      decreases |tempids| - i
    {
      i := i + 1;
    }
  }

  /** The union pass: every member of a group is merged with the first one, in any order of groups. */
  method UniteGroups(uf: UnionFind, tempids: seq<TempId>, groups: seq<Group>)
    requires uf.Valid() && Sorted(tempids) && Within(groups, tempids)
    requires Represents(uf.rep, tempids, {})
    modifies uf, uf.parent
    ensures uf.Valid() && uf.parent == old(uf.parent)
    ensures Represents(uf.rep, tempids, Star(groups))
  {
    assert Star(groups[..0]) == {};
    hide *;
    for i := 0 to |groups|
      invariant uf.Valid() && uf.parent == old(uf.parent)
      invariant Represents(uf.rep, tempids, Star(groups[..i]))
    {
      assert groups[i] in groups;
      StarStep(groups, i);
      UniteGroup(uf, tempids, groups[i], Star(groups[..i]));
    }
    assert groups[..|groups|] == groups;
  }

  method UniteGroup(uf: UnionFind, tempids: seq<TempId>, g: Group, ghost done: Edges)
    requires uf.Valid() && forall t :: t in g ==> t in tempids
    requires Represents(uf.rep, tempids, done)
    modifies uf, uf.parent
    ensures uf.Valid() && uf.parent == old(uf.parent)
    ensures Represents(uf.rep, tempids, done + (if g == [] then {} else Spokes(g, |g|)))
  {
    hide *;
    assert done + {} == done;
    if g != [] {
      NoSpokes(g, done);
      SameLength(uf.rep, tempids, done);
      var first := IndexOf(tempids, g[0]);
      for k := 0 to |g|
        invariant uf.Valid() && uf.parent == old(uf.parent) && |uf.rep| == |tempids|
        invariant Represents(uf.rep, tempids, done + Spokes(g, k))
      {
        var j := IndexOf(tempids, g[k]);
        MergeRepresents(uf.rep, tempids, done + Spokes(g, k), first, j);
        SpokesStep(g, k, done);
        uf.Union(first, j);
      }
    }
  }

  lemma NoSpokes(g: Group, done: Edges)
    requires g != []
    ensures done + Spokes(g, 0) == done
  {
  }

  lemma SameLength(rep: seq<nat>, tempids: seq<TempId>, edges: Edges)
    requires Represents(rep, tempids, edges)
    ensures |rep| == |tempids|
  {
  }

  ghost function Spokes(g: Group, k: nat): Edges
    requires g != [] && k <= |g|
  {
    set t | t in g[..k] :: (g[0], t)
  }

  lemma SpokesStep(g: Group, k: nat, done: Edges)
    requires g != [] && k < |g|
    ensures done + Spokes(g, k) + {(g[0], g[k])} == done + Spokes(g, k + 1)
  {
    assert g[..k + 1] == g[..k] + [g[k]];
  }

  lemma StarStep(groups: seq<Group>, i: nat)
    requires i < |groups|
    ensures Star(groups[..i + 1]) ==
            Star(groups[..i]) + (if groups[i] == [] then {} else Spokes(groups[i], |groups[i]|))
  {
    assert groups[..i + 1] == groups[..i] + [groups[i]];
    assert groups[i][..|groups[i]|] == groups[i];
  }

  /** The first `n` tempids are numbered by their representatives, listed in `dense` as they first appear. */
  ghost predicate Numbered(dense: seq<nat>, labels: seq<nat>, rep: seq<nat>, n: nat) {
    && n == |labels| <= |rep|
    && (forall i :: 0 <= i < n ==> labels[i] < |dense| && dense[labels[i]] == rep[i])
    && (forall k, l :: 0 <= k < l < |dense| ==> dense[k] != dense[l])
    && (forall k: nat :: k < |dense| ==> Given(labels, n, k))
    && (forall i: nat, k: nat :: i < n && k < labels[i] ==> Given(labels, i, k))
  }

  /** Label `k` was given to a position before `i`. */
  ghost predicate Given(labels: seq<nat>, i: nat, k: nat) {
    exists j :: 0 <= j < i && j < |labels| && labels[j] == k
  }

  /** `insert_full`: the position of `x`, appended when new. */
  method InsertFull(dense: seq<nat>, x: nat) returns (slot: nat, out: seq<nat>)
    requires forall k, l :: 0 <= k < l < |dense| ==> dense[k] != dense[l]
    ensures slot < |out| && out[slot] == x && slot <= |dense|
    ensures out == if slot < |dense| then dense else dense + [x]
    ensures forall k, l :: 0 <= k < l < |out| ==> out[k] != out[l]
  {
    slot := 0;
    while slot < |dense| && dense[slot] != x
      invariant slot <= |dense| && forall k :: 0 <= k < slot ==> dense[k] != x
    {
      slot := slot + 1;
    }
    out := if slot < |dense| then dense else dense + [x];
  }

  lemma GivenStays(labels: seq<nat>, slot: nat, i: nat, i': nat, k: nat)
    requires i <= i' && Given(labels, i, k)
    ensures Given(labels + [slot], i', k)
  {
    var j :| 0 <= j < i && j < |labels| && labels[j] == k;
    assert (labels + [slot])[j] == k;
  }

  lemma NumberedStep(dense: seq<nat>, labels: seq<nat>, rep: seq<nat>, n: nat, slot: nat, grown: seq<nat>)
    requires Numbered(dense, labels, rep, n) && n < |rep|
    requires slot < |grown| && grown[slot] == rep[n] && slot <= |dense|
    requires grown == if slot < |dense| then dense else dense + [rep[n]]
    requires forall k, l :: 0 <= k < l < |grown| ==> grown[k] != grown[l]
    ensures Numbered(grown, labels + [slot], rep, n + 1)
  {
    var given := labels + [slot];
    var next := n + 1;
    forall i: nat, k: nat | i < next && k < given[i] ensures Given(given, i, k) {
      GivenStays(labels, slot, i, i, k);
    }
    forall k: nat | k < |grown| ensures Given(given, next, k) {
      if k < |dense| { GivenStays(labels, slot, n, next, k); } else { assert given[n] == k; }
    }
  }

  /** The labelling pass over the ordered tempids. */
  method NumberClasses(uf: UnionFind, tempids: seq<TempId>) returns (labels: seq<nat>, dense: seq<nat>)
    requires uf.Valid() && |uf.rep| == |tempids|
    modifies uf.parent
    ensures uf.Valid() && Numbered(dense, labels, uf.rep, |tempids|)
  {
    hide Forest;
    labels, dense := [], [];
    while |labels| < |tempids|
      invariant uf.Valid() && |uf.rep| == |tempids| && uf.rep == old(uf.rep) && uf.parent == old(uf.parent)
      invariant Numbered(dense, labels, uf.rep, |labels|)
    {
      var rep := uf.Find(|labels|);
      var slot, grown := InsertFull(dense, rep);
      NumberedStep(dense, labels, uf.rep, |labels|, slot, grown);
      labels, dense := labels + [slot], grown;
    }
  }

  lemma NumberedIsLabelling(dense: seq<nat>, labels: seq<nat>, rep: seq<nat>, tempids: seq<TempId>, edges: Edges,
                            m: map<TempId, nat>)
    requires Sorted(tempids) && Represents(rep, tempids, edges) && Numbered(dense, labels, rep, |tempids|)
    requires forall t :: t in m <==> t in tempids
    requires forall i :: 0 <= i < |tempids| ==> tempids[i] in m && m[tempids[i]] == labels[i]
    ensures IsLabelling(m, (set t | t in tempids), edges)
  {
    hide Joined, Less;
    var all := set t | t in tempids;
    forall t, u | t in all && u in all ensures m[t] == m[u] <==> Joined(edges, t, u) {
      var i :| 0 <= i < |tempids| && tempids[i] == t;
      var j :| 0 <= j < |tempids| && tempids[j] == u;
      assert dense[labels[i]] == rep[i] && dense[labels[j]] == rep[j];
    }
    forall t, k: nat | t in all && k < m[t] ensures EarlierWith(m, t, k) {
      var i :| 0 <= i < |tempids| && tempids[i] == t;
      assert Given(labels, i, k);
      var j :| 0 <= j < i && labels[j] == k;
      assert tempids[j] in m && Less(tempids[j], t);
    }
  }

  /**
   * The tail of `temp_ids_in_allocations`: merge by groups, then number the classes. The result
   * is the labelling of the least equivalence, whatever the order of the groups.
   */
  method LabelTempids(tempids: set<TempId>, groups: seq<Group>) returns (m: map<TempId, nat>)
    requires forall g, t :: g in groups && t in g ==> t in tempids
    ensures m == Labelling(tempids, Clique(groups))
  {
    hide *;
    var sorted := SortKeys(tempids);
    var uf := new UnionFind(|sorted|);
    InitialReps(sorted);
    AllWithin(groups, sorted, tempids);
    UniteGroups(uf, sorted, groups);
    SameLength(uf.rep, sorted, Star(groups));
    var labels, dense := NumberClasses(uf, sorted);
    NumberedLength(dense, labels, uf.rep, |sorted|);
    m := MapLabels(sorted, labels);
    NumberedIsLabelling(dense, labels, uf.rep, sorted, Star(groups), m);
    assert (set t | t in sorted) == tempids;
    SameLabelling(m, tempids, Star(groups), Clique(groups), groups);
  }

  lemma AllWithin(groups: seq<Group>, sorted: seq<TempId>, tempids: set<TempId>)
    requires sorted == SortedSeq(tempids) && forall g, t :: g in groups && t in g ==> t in tempids
    ensures Within(groups, sorted)
  {
  }

  lemma NumberedLength(dense: seq<nat>, labels: seq<nat>, rep: seq<nat>, n: nat)
    requires Numbered(dense, labels, rep, n)
    ensures |labels| == n
  {
  }

  lemma SameLabelling(m: map<TempId, nat>, tempids: set<TempId>, star: Edges, clique: Edges, groups: seq<Group>)
    requires star == Star(groups) && clique == Clique(groups) && IsLabelling(m, tempids, star)
    ensures m == Labelling(tempids, clique)
  {
    forall t, u ensures Joined(star, t, u) <==> Joined(clique, t, u) { StarIsClique(groups, t, u); }
    LabellingHolds(tempids, clique);
    LabellingUnique(m, Labelling(tempids, clique), tempids, clique);
  }

  method MapLabels(sorted: seq<TempId>, labels: seq<nat>) returns (m: map<TempId, nat>)
    requires Sorted(sorted) && |labels| == |sorted|
    ensures forall t :: t in m <==> t in sorted
    ensures forall i :: 0 <= i < |sorted| ==> sorted[i] in m && m[sorted[i]] == labels[i]
  {
    m := map[];
    for i := 0 to |sorted|
      invariant forall t :: t in m <==> t in sorted[..i]
      invariant forall j :: 0 <= j < i ==> sorted[j] in m && m[sorted[j]] == labels[j]
    {
      assert sorted[..i + 1] == sorted[..i] + [sorted[i]];
      m := m[sorted[i] := labels[i]];
    }
    assert sorted[..|sorted|] == sorted;
  }
}
