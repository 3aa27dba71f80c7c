/** The rule-driven traversal: one top-down walk of the plan that, at every
    child slot, applies the enabled rewrites to the node in that slot and
    then walks on into the node the slot now holds. */
module Optimizer {
  import opened Plan
  import opened Rules

  /** The rewrites a caller can enable. */
  datatype Rule = PredicatePushdown | ProjectionPushdownJoin | ProjectionPushdownSelect

  /** The node that takes the slot of `c` under `parent` once the enabled
      rules have been tried in turn: predicate pushdown on a filter over a
      join, then projection pushdown through a join, then through a filter,
      each on what the previous one left in the slot. */
  function Rewrite(rules: set<Rule>, parent: Node, c: Node): Node {
    var c1 := if PredicatePushdown in rules then PushPredicate(c) else c;
    var c2 := if ProjectionPushdownJoin in rules && parent.Project? && c1.Join?
              then PushProjectionJoin(parent.cols, c1) else c1;
    if ProjectionPushdownSelect in rules && parent.Project? && c2.Filter?
    then PushProjectionSelect(parent.cols, c2) else c2
  }

  /** Every child of a rewritten slot is below the slot's original node in
      the walk's termination order. */
  lemma RewriteBelow(rules: set<Rule>, parent: Node, c: Node)
    ensures forall k :: k in Kids(Rewrite(rules, parent, c)) ==> Below(k, c)
  {
    var c1 := if PredicatePushdown in rules then PushPredicate(c) else c;
    var c2 := if ProjectionPushdownJoin in rules && parent.Project? && c1.Join?
              then PushProjectionJoin(parent.cols, c1) else c1;
    var c3 := Rewrite(rules, parent, c);
    if c1 != c {
      assert PredicatePushdown in rules && Target(c).Some?;
      if c2 != c1 {
        PushedThenJoinLighter(parent.cols, c);
      } else {
        PushPredicateLighter(c);
      }
    } else if c2 != c1 {
      JoinBelow(parent.cols, c);
    } else if c3 != c2 {
      SelectBelow(parent.cols, c);
    } else {
      forall k | k in Kids(c) ensures Below(k, c) {
        ChildBelow(c, k);
      }
    }
  }

  /** A pushed filter whose join then gets its branch projections leaves
      slots that each weigh less than the filter did. */
  lemma PushedThenJoinLighter(outer: seq<Column>, s: Node)
    requires Target(s).Some?
    ensures forall k :: k in Kids(PushProjectionJoin(outer, PushPredicate(s))) ==> Weight(k) < Weight(s)
  {
    var c1 := PushPredicate(s);
    var c2 := PushProjectionJoin(outer, c1);
    PushPredicateLighter(s);
    PushProjectionJoinWeight(outer, c1);
    forall k | k in Kids(c2) ensures Weight(k) < Weight(s) {
      var x :| 0 <= x < |c2.children| && c2.children[x] == k;
      assert c1.children[x] in Kids(c1);
    }
  }

  /** Projection pushdown through a join leaves slots below the join. */
  lemma JoinBelow(outer: seq<Column>, j: Node)
    requires j.Join?
    ensures forall k :: k in Kids(PushProjectionJoin(outer, j)) ==> Weight(k) < Weight(j)
  {
    var r := PushProjectionJoin(outer, j);
    PushProjectionJoinWeight(outer, j);
    forall k | k in Kids(r) ensures Weight(k) < Weight(j) {
      var x :| 0 <= x < |r.children| && r.children[x] == k;
      MemberBound(j.children, j.children[x]);
    }
  }

  /** Projection pushdown through a filter leaves one slot, below the
      filter. */
  lemma SelectBelow(outer: seq<Column>, s: Node)
    requires s.Filter?
    ensures forall k :: k in Kids(PushProjectionSelect(outer, s)) ==> Weight(k) < Weight(s)
  {
    var r := PushProjectionSelect(outer, s);
    assert Kids(r) == [r.children[0]];
    assert Weight(r.children[0]) == WeightAll(s.children);
  }

  /** The enabled rules never add, drop or duplicate a scan. */
  lemma RewriteScans(rules: set<Rule>, parent: Node, c: Node)
    ensures Scans(Rewrite(rules, parent, c)) == Scans(c)
  {
  }

  /** A pushed filter leaves a join whose slots each weigh less than the
      filter did. */
  lemma PushPredicateLighter(s: Node)
    requires Target(s).Some?
    ensures forall k :: k in Kids(PushPredicate(s)) ==> Weight(k) < Weight(s)
  {
    var r := PushPredicate(s);
    var j := s.children[0];
    var i := Target(s).value;
    assert s.children == [j];
    assert WeightAll([j]) == Weight(j);
    forall k | k in Kids(r) ensures Weight(k) < Weight(s) {
      var x :| 0 <= x < |r.children| && r.children[x] == k;
      if x == i {
        assert WeightAll([j.children[i]]) == Weight(j.children[i]);
        MemberBound(j.children, j.children[i]);
      } else {
        MemberBound(j.children, j.children[x]);
      }
    }
  }

  /** Projection pushdown through a join keeps the weight of every slot. */
  lemma PushProjectionJoinWeight(outer: seq<Column>, j: Node)
    requires j.Join?
    ensures forall x :: 0 <= x < |j.children| ==>
      Weight(PushProjectionJoin(outer, j).children[x]) == Weight(j.children[x])
  {
    forall x | 0 <= x < |j.children| {
      WrapWeight(outer, j.joinIds, j.children[x]);
    }
  }

  /** Inserting a branch's projection does not change its weight. */
  lemma WrapWeight(outer: seq<Column>, joinIds: seq<Column>, b: Node)
    ensures Weight(Wrap(outer, joinIds, b)) == Weight(b)
  {
    var need := Needed(outer, joinIds, b);
    if KeepsFilterOnTop(b, need) {
      assert WeightAll([Project(need, b.children)]) == WeightAll(b.children);
    } else {
      assert WeightAll([b]) == Weight(b);
    }
  }

  /** Rewrites the slot holding `c` under `parent`, then walks into it. */
  function Visit(rules: set<Rule>, parent: Node, c: Node): Node
    decreases Weight(c), Size(c), 1, 0
  {
    var c3 := Rewrite(rules, parent, c);
    RewriteBelow(rules, parent, c);
    Descend(rules, c3, c)
  }

  /** Visits the slots `ks` of `parent`, left to right. */
  function VisitAll(rules: set<Rule>, parent: Node, ks: seq<Node>, ghost orig: Node): (r: seq<Node>)
    requires forall k :: k in ks ==> Below(k, orig)
    ensures |r| == |ks|
    decreases Weight(orig), Size(orig), 0, |ks|
  {
    if ks == [] then []
    else
      assert ks[0] in ks && Below(ks[0], orig);
      assert Weight(ks[0]) < Weight(orig) || (Weight(ks[0]) == Weight(orig) && Size(ks[0]) < Size(orig));
      [Visit(rules, parent, ks[0])] + VisitAll(rules, parent, ks[1..], orig)
  }

  /** Walks below `n`: every child slot of `n` is visited with `n` as the
      parent. `orig` is the node the slot held before its rewrite. */
  function Descend(rules: set<Rule>, n: Node, ghost orig: Node): Node
    requires forall k :: k in Kids(n) ==> Below(k, orig)
    decreases Weight(orig), Size(orig), 0, |Kids(n)| + 1
  {
    WithKids(n, VisitAll(rules, n, Kids(n), orig))
  }

  /** The optimizer's entry point: the root itself is never a slot, so it is
      never rewritten; the walk starts at its child slots. */
  function Run(rules: set<Rule>, root: Node): Node {
    forall k | k in Kids(root) ensures Below(k, root) {
      ChildBelow(root, k);
    }
    Descend(rules, root, root)
  }
}
