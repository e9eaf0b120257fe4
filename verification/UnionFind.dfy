/** Disjoint-set forest with path compression. */
module UnionFind {
  /** The representatives after merging the class of `b` into that of `a`. */
  function Merge(rep: seq<nat>, a: nat, b: nat): (r: seq<nat>)
    requires a < |rep| && b < |rep|
    ensures |r| == |rep|
    ensures forall x :: 0 <= x < |rep| ==> r[x] == if rep[x] == rep[b] then rep[a] else rep[x]
  {
    seq(|rep|, x requires 0 <= x < |rep| => if rep[x] == rep[b] then rep[a] else rep[x])
  }

  /** What holds at one element: its links stay within its class and strictly gain height. */
  ghost predicate Linked(parent: seq<nat>, rep: seq<nat>, height: seq<nat>, top: nat, x: nat)
    requires |parent| == |rep| == |height| && x < |rep|
  {
    && parent[x] < |rep| && rep[x] < |rep|
    && rep[parent[x]] == rep[x] && parent[rep[x]] == rep[x]
    && (parent[x] == x ==> rep[x] == x)
    && (parent[x] != x ==> height[x] < height[parent[x]])
    && height[x] <= top
  }

  ghost predicate Forest(parent: seq<nat>, rep: seq<nat>, height: seq<nat>, top: nat) {
    |parent| == |rep| == |height| && forall x :: 0 <= x < |rep| ==> Linked(parent, rep, height, top, x)
  }

  lemma {:induction false} HeightBelowRoot(parent: seq<nat>, rep: seq<nat>, height: seq<nat>, top: nat, x: nat)
    requires Forest(parent, rep, height, top) && x < |rep| && parent[x] != x
    ensures rep[x] < |rep| && height[x] < height[rep[x]] && rep[x] != x
    decreases top - height[x]
  {
    assert Linked(parent, rep, height, top, x);
    var p := parent[x];
    assert Linked(parent, rep, height, top, p);
    if parent[p] != p { HeightBelowRoot(parent, rep, height, top, p); }
  }

  /** Pointing an element straight at its representative changes no class. */
  lemma Compress(parent: seq<nat>, rep: seq<nat>, height: seq<nat>, top: nat, x: nat)
    requires Forest(parent, rep, height, top) && x < |rep| && parent[x] != x
    ensures Forest(parent[x := rep[x]], rep, height, top)
  {
    HeightBelowRoot(parent, rep, height, top, x);
    assert Linked(parent, rep, height, top, x);
    assert Linked(parent, rep, height, top, rep[x]);
    var p' := parent[x := rep[x]];
    forall y | 0 <= y < |rep| ensures Linked(p', rep, height, top, y) {
      assert Linked(parent, rep, height, top, y);
    }
  }

  function Raised(height: seq<nat>, a: nat, b: nat): nat
    requires a < |height| && b < |height|
  {
    if height[a] > height[b] then height[a] else height[b] + 1
  }

  /** Hanging one root under another merges exactly their classes. */
  lemma Hang(parent: seq<nat>, rep: seq<nat>, height: seq<nat>, top: nat, a: nat, b: nat, top': nat)
    requires Forest(parent, rep, height, top) && a < |rep| && b < |rep| && rep[a] != rep[b]
    requires rep[a] < |height| && rep[b] < |height|
    requires top' >= top && top' >= Raised(height, rep[a], rep[b])
    ensures Forest(parent[rep[b] := rep[a]], Merge(rep, a, b), height[rep[a] := Raised(height, rep[a], rep[b])], top')
  {
    var p', r', h' := parent[rep[b] := rep[a]], Merge(rep, a, b), height[rep[a] := Raised(height, rep[a], rep[b])];
    assert Linked(parent, rep, height, top, a) && Linked(parent, rep, height, top, b);
    assert Linked(parent, rep, height, top, rep[a]) && Linked(parent, rep, height, top, rep[b]);
    forall x | 0 <= x < |rep| ensures Linked(p', r', h', top', x) {
      assert Linked(parent, rep, height, top, x);
      assert Linked(parent, rep, height, top, parent[x]);
    }
  }

  class UnionFind {
    var parent: array<nat>
    /** The representative of each element. */
    ghost var rep: seq<nat>
    /** Grows along every parent link, so that following links ends. */
    ghost var height: seq<nat>
    ghost var top: nat

    ghost predicate Valid()
      reads this, parent
    {
      Forest(parent[..], rep, height, top)
    }

    constructor (len: nat)
      ensures Valid() && fresh(parent)
      ensures rep == seq(len, i => i)
    {
      parent := new nat[len](i => i);
      rep := seq(len, i => i);
      height := seq(len, _ => 0);
      top := 0;
    }

    /** Returns the representative; only parent links are rewritten. */
    method Find(x: nat) returns (r: nat)
      requires Valid() && x < |rep|
      modifies parent
      ensures Valid() && r == rep[x]
      decreases top - height[x]
    {
      assert Linked(parent[..], rep, height, top, x);
      if parent[x] != x {
        r := Find(parent[x]);
        ghost var before := parent[..];
        assert Linked(before, rep, height, top, x);
        if before[x] != x { Compress(before, rep, height, top, x); }
        parent[x] := r;
        assert parent[..] == before[x := r];
      }
      r := parent[x];
    }

    method Union(a: nat, b: nat)
      requires Valid() && a < |rep| && b < |rep|
      modifies this, parent
      ensures Valid() && parent == old(parent)
      ensures rep == Merge(old(rep), a, b)
    {
      var aRoot := Find(a);
      var bRoot := Find(b);
      assert Linked(parent[..], rep, height, top, a) && Linked(parent[..], rep, height, top, b);
      if aRoot != bRoot {
        ghost var h := Raised(height, aRoot, bRoot);
        ghost var top' := if top > h then top else h;
        Hang(parent[..], rep, height, top, a, b, top');
        ghost var before := parent[..];
        parent[bRoot] := aRoot;
        assert parent[..] == before[bRoot := aRoot];
        rep, height, top := Merge(rep, a, b), height[aRoot := h], top';
      } else {
        assert rep == Merge(rep, a, b);
      }
    }
  }
}
