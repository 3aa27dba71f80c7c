/** The three structural rewrites. Each takes the node in one child slot
    (and, for the projection rules, the columns of the projection above it)
    and returns the node that takes that slot. */
module Rules {
  import opened Plan

  /** A filter whose only child is an inner join: the shape predicate
      pushdown looks for. */
  predicate FilterOverJoin(s: Node) {
    s.Filter? && |s.children| == 1 && s.children[0].Join?
  }

  /** Branch `b` produces every table the columns `cols` name. */
  predicate Covers(b: Node, cols: seq<Column>) {
    ColumnTables(cols) <= Tables(b)
  }

  /** The indices, from `i` on and in increasing order, of the branches that
      cover `cols`. */
  function CoveringFrom(bs: seq<Node>, cols: seq<Column>, i: nat): (r: seq<nat>)
    requires i <= |bs|
    ensures forall k :: 0 <= k < |r| ==> i <= r[k] < |bs| && Covers(bs[r[k]], cols)
    ensures forall j :: i <= j < |bs| && Covers(bs[j], cols) ==> j in r
    ensures forall p, q :: 0 <= p < q < |r| ==> r[p] < r[q]
    decreases |bs| - i
  {
    if i == |bs| then []
    else (if Covers(bs[i], cols) then [i] else []) + CoveringFrom(bs, cols, i + 1)
  }

  /** The join branches under a filter over a join. */
  function Branches(s: Node): seq<Node>
    requires FilterOverJoin(s)
  {
    s.children[0].children
  }

  /** The join branch a filter over a join moves to: the one branch that
      covers the filter's columns, if there is exactly one. */
  function Target(s: Node): (r: Option<nat>)
    ensures r.Some? ==>
      && FilterOverJoin(s)
      && r.value < |Branches(s)|
      && Covers(Branches(s)[r.value], s.cols)
      && forall j :: 0 <= j < |Branches(s)| && j != r.value ==> !Covers(Branches(s)[j], s.cols)
    ensures r.None? && FilterOverJoin(s) ==>
      forall i :: 0 <= i < |Branches(s)| && Covers(Branches(s)[i], s.cols) ==>
        exists j :: 0 <= j < |Branches(s)| && j != i && Covers(Branches(s)[j], s.cols)
  {
    if !FilterOverJoin(s) then None
    else
      var hits := CoveringFrom(Branches(s), s.cols, 0);
      if |hits| == 1 then
        SoleCover(Branches(s), s.cols, hits);
        Some(hits[0])
      else
        NoSoleCover(Branches(s), s.cols, hits);
        None
  }

  /** A single covering index is the only branch that covers. */
  lemma SoleCover(bs: seq<Node>, cols: seq<Column>, hits: seq<nat>)
    requires hits == CoveringFrom(bs, cols, 0)
    requires |hits| == 1
    ensures hits[0] < |bs| && Covers(bs[hits[0]], cols)
    ensures forall j :: 0 <= j < |bs| && j != hits[0] ==> !Covers(bs[j], cols)
  {
    forall j | 0 <= j < |bs| && Covers(bs[j], cols)
      ensures j == hits[0]
    {
      assert j in hits;
    }
  }

  /** When the covering indices are not exactly one, every covering branch
      has a covering sibling. */
  lemma NoSoleCover(bs: seq<Node>, cols: seq<Column>, hits: seq<nat>)
    requires hits == CoveringFrom(bs, cols, 0)
    requires |hits| != 1
    ensures forall i :: 0 <= i < |bs| && Covers(bs[i], cols) ==>
      exists j :: 0 <= j < |bs| && j != i && Covers(bs[j], cols)
  {
    forall i | 0 <= i < |bs| && Covers(bs[i], cols)
      ensures exists j :: 0 <= j < |bs| && j != i && Covers(bs[j], cols)
    {
      assert i in hits;
      if hits[0] != i {
        assert Covers(bs[hits[0]], cols);
      } else {
        assert hits[0] < hits[1];
        assert Covers(bs[hits[1]], cols);
      }
    }
  }

  /** The shape a pushed filter leaves behind: the join in the filter's
      place, and in branch `i`'s slot the filter directly above that branch. */
  ghost predicate Pushed(s: Node, i: nat, r: Node)
    requires FilterOverJoin(s) && i < |Branches(s)|
  {
    var j := s.children[0];
    && r.Join?
    && r.joinIds == j.joinIds
    && |r.children| == |j.children|
    && (forall k :: 0 <= k < |j.children| && k != i ==> r.children[k] == j.children[k])
    && r.children[i].Filter?
    && r.children[i].pred == s.pred
    && r.children[i].cols == s.cols
    && r.children[i].children == [j.children[i]]
    && (forall v :: v in r.children[i].videos <==> v in Tables(j.children[i]))
    && (forall a, b :: 0 <= a < b < |r.children[i].videos| ==> r.children[i].videos[a] != r.children[i].videos[b])
  }

  /** Moves the filter `s` below its join, into branch `i`'s slot. */
  function MoveInto(s: Node, i: nat): (r: Node)
    requires FilterOverJoin(s) && i < |Branches(s)|
    ensures Pushed(s, i, r)
    ensures Scans(r) == Scans(s)
  {
    var j := s.children[0];
    var b := j.children[i];
    var pushed := Filter(s.pred, s.cols, Videos(b), [b]);
    VideosAreTables(b);
    assert Scans(pushed) == ScansAll([b]) == Scans(b);
    ScansAllPointwise(j.children[i := pushed], j.children);
    assert s.children == [j];
    assert Scans(s) == ScansAll([j]) == Scans(j);
    Join(j.joinIds, j.children[i := pushed])
  }

  /** Predicate pushdown: a filter over a join moves into the slot of the one
      branch that covers its columns, directly above that branch, and its
      videos become the tables that branch reads. Otherwise nothing changes. */
  function PushPredicate(s: Node): (r: Node)
    ensures Target(s).None? ==> r == s
    ensures Target(s).Some? ==> Pushed(s, Target(s).value, r)
    ensures Scans(r) == Scans(s)
  {
    match Target(s)
    case None => s
    case Some(i) => MoveInto(s, i)
  }

  /** The columns the projection above a join needs from branch `b`: the
      branch's join columns first, then its projected columns, each once. */
  function Needed(outer: seq<Column>, joinIds: seq<Column>, b: Node): (r: seq<Column>)
    ensures forall c :: c in r <==> (c in joinIds || c in outer) && c.alias in Tables(b)
    ensures NoDup(r)
    ensures forall p, q :: 0 <= p < q < |r| && r[q] in joinIds ==> r[p] in joinIds
  {
    var js := Restrict(joinIds, Tables(b));
    var r := Union(js, Restrict(outer, Tables(b)));
    assert forall q :: 0 <= q < |r| ==> (r[q] in joinIds <==> r[q] in js);
    r
  }

  /** Needed, from the branch's join columns `js` and its projected
      columns `os`. */
  lemma NeededFrom(outer: seq<Column>, joinIds: seq<Column>, b: Node, js: seq<Column>, os: seq<Column>)
    requires Restrict(joinIds, Tables(b)) == js
    requires Restrict(outer, Tables(b)) == os
    ensures Needed(outer, joinIds, b) == Union(js, os)
  {
  }

  /** A filter branch whose own columns are all among the needed ones keeps
      its slot and gets the projection beneath it. */
  predicate KeepsFilterOnTop(b: Node, need: seq<Column>) {
    b.Filter? && forall c :: c in b.cols ==> c in need
  }

  /** The branch `b` with the projection of its needed columns inserted. */
  function Wrap(outer: seq<Column>, joinIds: seq<Column>, b: Node): (r: Node)
    ensures
      var need := Needed(outer, joinIds, b);
      if KeepsFilterOnTop(b, need) then
        r.Filter? && SameHead(r, b) && r.children == [Project(need, b.children)]
      else
        r == Project(need, [b])
    ensures Scans(r) == Scans(b)
  {
    var need := Needed(outer, joinIds, b);
    if KeepsFilterOnTop(b, need) then
      var r := Filter(b.pred, b.cols, b.videos, [Project(need, b.children)]);
      assert Scans(r) == ScansAll([Project(need, b.children)]) == ScansAll(b.children);
      r
    else
      var r := Project(need, [b]);
      assert Scans(r) == ScansAll([b]) == Scans(b);
      r
  }

  function WrapAll(outer: seq<Column>, joinIds: seq<Column>, bs: seq<Node>): (r: seq<Node>)
    ensures |r| == |bs|
    ensures forall i :: 0 <= i < |bs| ==> r[i] == Wrap(outer, joinIds, bs[i])
  {
    if bs == [] then [] else [Wrap(outer, joinIds, bs[0])] + WrapAll(outer, joinIds, bs[1..])
  }

  /** Projection pushdown through a join: every branch gets a projection of
      the columns the join and the projection above need from it. The join
      itself keeps its place and its join columns. */
  function PushProjectionJoin(outer: seq<Column>, j: Node): (r: Node)
    requires j.Join?
    ensures r.Join? && r.joinIds == j.joinIds
    ensures |r.children| == |j.children|
    ensures forall i :: 0 <= i < |j.children| ==> r.children[i] == Wrap(outer, j.joinIds, j.children[i])
    ensures Scans(r) == Scans(j)
  {
    var ks := WrapAll(outer, j.joinIds, j.children);
    ScansAllPointwise(ks, j.children);
    Join(j.joinIds, ks)
  }

  /** Projection pushdown through a filter: the filter keeps its slot, and a
      new projection of the outer columns and the filter's own columns takes
      over the filter's former children. */
  function PushProjectionSelect(outer: seq<Column>, s: Node): (r: Node)
    requires s.Filter?
    ensures r.Filter? && SameHead(r, s)
    ensures |r.children| == 1 && r.children[0].Project? && r.children[0].children == s.children
    ensures forall c :: c in r.children[0].cols <==> c in outer || c in s.cols
    ensures NoDup(r.children[0].cols)
    ensures Scans(r) == Scans(s)
  {
    var p := Project(Union(outer, s.cols), s.children);
    assert ScansAll([p]) == Scans(p);
    Filter(s.pred, s.cols, s.videos, [p])
  }
}
