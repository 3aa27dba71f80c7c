/** The scenario tests of src/query_optimizer/tests/t_rule_query_optimizer.py,
    each stated as the exact plan the optimizer returns. */
module Scenarios {
  import opened Plan
  import opened Rules
  import opened Optimizer

  const v1_1 := Column("v1", 1)
  const v1_3 := Column("v1", 3)
  const v1_4 := Column("v1", 4)
  const v1_7 := Column("v1", 7)
  const v2_1 := Column("v2", 1)
  const v2_2 := Column("v2", 2)
  const v2_3 := Column("v2", 3)
  const v2_4 := Column("v2", 4)
  const v2_7 := Column("v2", 7)
  const v3_3 := Column("v3", 3)
  const v3_4 := Column("v3", 4)

  /** The tests' predicate `column = 4`; the rules never read it. */
  const eq4 := Predicate("= 4")

  lemma ScanTables(a: string)
    ensures Tables(Scan(a)) == {a}
  {
    assert Scans(Scan(a)) == multiset{a};
  }

  lemma ScanVideos(a: string)
    ensures Videos(Scan(a)) == [a]
  {
    assert ScanOrder(Scan(a)) == [a];
    assert Distinct([a]) == [a] by {
      assert [a][..0] == [];
    }
  }

  lemma OneColumnTables(c: Column)
    ensures ColumnTables([c]) == {c.alias}
  {
    assert c in [c];
  }

  /** Visit each of the slots `ks` under `parent`, in order. */
  function VisitEach(rules: set<Rule>, parent: Node, ks: seq<Node>): (r: seq<Node>)
    ensures |r| == |ks|
    ensures forall i :: 0 <= i < |ks| ==> r[i] == Visit(rules, parent, ks[i])
  {
    if ks == [] then [] else [Visit(rules, parent, ks[0])] + VisitEach(rules, parent, ks[1..])
  }

  lemma {:induction false} VisitAllIsEach(rules: set<Rule>, parent: Node, ks: seq<Node>, orig: Node)
    requires forall k :: k in ks ==> Below(k, orig)
    ensures VisitAll(rules, parent, ks, orig) == VisitEach(rules, parent, ks)
  {
    if ks != [] {
      VisitAllIsEach(rules, parent, ks[1..], orig);
    }
  }

  /** One step of the walk: rewrite the slot, then visit the new node's
      children under it. */
  lemma VisitStep(rules: set<Rule>, parent: Node, c: Node, r: Node)
    requires Rewrite(rules, parent, c) == r
    ensures Visit(rules, parent, c) == WithKids(r, VisitEach(rules, r, Kids(r)))
  {
    RewriteBelow(rules, parent, c);
    VisitAllIsEach(rules, r, Kids(r), c);
  }

  lemma RunStep(rules: set<Rule>, root: Node)
    ensures Run(rules, root) == WithKids(root, VisitEach(rules, root, Kids(root)))
  {
    forall k | k in Kids(root) ensures Below(k, root) {
      ChildBelow(root, k);
    }
    VisitAllIsEach(rules, root, Kids(root), root);
  }

  /** A scan slot is never rewritten. */
  lemma VisitScan(rules: set<Rule>, parent: Node, a: string)
    ensures Visit(rules, parent, Scan(a)) == Scan(a)
  {
    assert Target(Scan(a)) == None;
    VisitStep(rules, parent, Scan(a), Scan(a));
  }

  /** Each of two slots visited. */
  /** With predicate pushdown alone, a slot's rewrite is that rule's. */
  lemma PredicateOnly(parent: Node, c: Node)
    ensures Rewrite({PredicatePushdown}, parent, c) == PushPredicate(c)
  {
  }

  /** Without predicate pushdown, a filter below a projection is rewritten by
      projection pushdown through the filter alone. */
  lemma SelectSlot(rules: set<Rule>, parent: Node, c: Node)
    requires PredicatePushdown !in rules && ProjectionPushdownSelect in rules
    requires parent.Project? && c.Filter?
    ensures Rewrite(rules, parent, c) == PushProjectionSelect(parent.cols, c)
  {
  }

  /** A slot under a projection whose predicate pushdown leaves a join gets
      that join's projection pushdown next, and nothing after it. */
  lemma PushThenJoinSlot(rules: set<Rule>, parent: Node, c: Node, j: Node)
    requires PredicatePushdown in rules && ProjectionPushdownJoin in rules
    requires parent.Project? && PushPredicate(c) == j && j.Join?
    ensures Rewrite(rules, parent, c) == PushProjectionJoin(parent.cols, j)
  {
  }

  /** Without predicate pushdown, a join below a projection is rewritten by
      projection pushdown through the join alone. */
  lemma JoinSlot(rules: set<Rule>, parent: Node, c: Node)
    requires PredicatePushdown !in rules && ProjectionPushdownJoin in rules
    requires parent.Project? && c.Join?
    ensures Rewrite(rules, parent, c) == PushProjectionJoin(parent.cols, c)
  {
  }

  lemma EachOfTwo(rules: set<Rule>, parent: Node, a: Node, b: Node)
    ensures VisitEach(rules, parent, [a, b]) == [Visit(rules, parent, a), Visit(rules, parent, b)]
  {
  }

  lemma EachOfOne(rules: set<Rule>, parent: Node, a: Node)
    ensures VisitEach(rules, parent, [a]) == [Visit(rules, parent, a)]
  {
  }

  /** A filter over a two-way join whose branch `i` alone covers the
      filter's columns targets that branch. */
  lemma TargetOfTwo(s: Node, i: nat)
    requires FilterOverJoin(s) && |Branches(s)| == 2 && i < 2
    requires Covers(Branches(s)[i], s.cols) && !Covers(Branches(s)[1 - i], s.cols)
    ensures Target(s) == Some(i)
  {
    var bs := Branches(s);
    var hits := CoveringFrom(bs, s.cols, 0);
    assert hits == [i] by {
      assert CoveringFrom(bs, s.cols, 2) == [];
      if i == 0 {
        assert CoveringFrom(bs, s.cols, 1) == [];
      } else {
        assert CoveringFrom(bs, s.cols, 1) == [1];
      }
    }
  }

  /** A filter over a two-way join whose first branch, the scan of `a`,
      alone covers its columns moves onto that scan with videos `a`. */
  lemma PushOntoFirst(p: Predicate, cols: seq<Column>, vs: seq<string>, ids: seq<Column>, a: string, y: Node)
    requires Covers(Scan(a), cols) && !Covers(y, cols)
    ensures PushPredicate(Filter(p, cols, vs, [Join(ids, [Scan(a), y])])) ==
      Join(ids, [Filter(p, cols, [a], [Scan(a)]), y])
  {
    var s := Filter(p, cols, vs, [Join(ids, [Scan(a), y])]);
    var f := Filter(p, cols, [a], [Scan(a)]);
    assert Target(s) == Some(0) by {
      TargetOfTwo(s, 0);
    }
    assert MoveInto(s, 0) == Join(ids, [f, y]) by {
      ScanVideos(a);
      assert [Scan(a), y][0 := f] == [f, y];
    }
  }

  /** The same when the second branch is the covering scan. */
  lemma PushOntoSecond(p: Predicate, cols: seq<Column>, vs: seq<string>, ids: seq<Column>, x: Node, a: string)
    requires Covers(Scan(a), cols) && !Covers(x, cols)
    ensures PushPredicate(Filter(p, cols, vs, [Join(ids, [x, Scan(a)])])) ==
      Join(ids, [x, Filter(p, cols, [a], [Scan(a)])])
  {
    var s := Filter(p, cols, vs, [Join(ids, [x, Scan(a)])]);
    var f := Filter(p, cols, [a], [Scan(a)]);
    assert Target(s) == Some(1) by {
      TargetOfTwo(s, 1);
    }
    assert MoveInto(s, 1) == Join(ids, [x, f]) by {
      ScanVideos(a);
      assert [x, Scan(a)][1 := f] == [x, f];
    }
  }

  /** The filter on v1.1 over the join of v1 and v2 moves into the v1
      branch, and its videos become v1. */
  lemma TwoWayPush()
    ensures
      var j1 := Join([v1_3, v2_3], [Scan("v1"), Scan("v2")]);
      PushPredicate(Filter(eq4, [v1_1], ["v1", "v2"], [j1])) ==
        Join([v1_3, v2_3], [Filter(eq4, [v1_1], ["v1"], [Scan("v1")]), Scan("v2")])
  {
    var t1 := Scan("v1");
    var t2 := Scan("v2");
    var s1 := Filter(eq4, [v1_1], ["v1", "v2"], [Join([v1_3, v2_3], [t1, t2])]);
    assert Covers(t1, [v1_1]) && !Covers(t2, [v1_1]) by {
      ScanTables("v1");
      ScanTables("v2");
      OneColumnTables(v1_1);
    }
    PushOntoFirst(eq4, [v1_1], ["v1", "v2"], [v1_3, v2_3], "v1", t2);
  }

  /** The declared video list plays no part: a filter on v2.7 that declares
      only v1 still moves onto the v2 scan with videos v2. */
  lemma DeclaredVideosIgnored()
    ensures
      var j1 := Join([v1_1, v2_1], [Scan("v1"), Scan("v2")]);
      PushPredicate(Filter(eq4, [v2_7], ["v1"], [j1])) ==
        Join([v1_1, v2_1], [Scan("v1"), Filter(eq4, [v2_7], ["v2"], [Scan("v2")])])
  {
    assert Covers(Scan("v2"), [v2_7]) && !Covers(Scan("v1"), [v2_7]) by {
      ScanTables("v1");
      ScanTables("v2");
      OneColumnTables(v2_7);
    }
    PushOntoSecond(eq4, [v2_7], ["v1"], [v1_1, v2_1], Scan("v1"), "v2");
  }

  /** Predicate pushdown across a two-way join: the join takes the
      filter's place, the filter sits directly above the v1 scan in the
      join's first slot, and its videos become v1. */
  lemma SimplePredicatePushdown()
    ensures
      var t1 := Scan("v1");
      var t2 := Scan("v2");
      var j1 := Join([v1_3, v2_3], [t1, t2]);
      var s1 := Filter(eq4, [v1_1], ["v1", "v2"], [j1]);
      var root := Project([v1_1, v2_2], [s1]);
      Run({PredicatePushdown}, root) ==
        Project([v1_1, v2_2], [Join([v1_3, v2_3], [Filter(eq4, [v1_1], ["v1"], [t1]), t2])])
  {
    var t1 := Scan("v1");
    var t2 := Scan("v2");
    var j1 := Join([v1_3, v2_3], [t1, t2]);
    var s1 := Filter(eq4, [v1_1], ["v1", "v2"], [j1]);
    var root := Project([v1_1, v2_2], [s1]);
    var pushed := Filter(eq4, [v1_1], ["v1"], [t1]);
    var j1' := Join([v1_3, v2_3], [pushed, t2]);
    var R := {PredicatePushdown};
    assert Rewrite(R, root, s1) == j1' by {
      TwoWayPush();
      PredicateOnly(root, s1);
    }
    // The pushed filter and the v2 scan are visited under the join.
    VisitOverScans(R, j1', pushed);
    VisitScan(R, j1', "v2");
    EachOfTwo(R, j1', pushed, t2);
    VisitStep(R, root, s1, j1');
    EachOfOne(R, root, s1);
    RunStep(R, root);
  }

  lemma TwoScanTables(a: string, b: string, ids: seq<Column>)
    ensures Tables(Join(ids, [Scan(a), Scan(b)])) == {a, b}
  {
    ScansAllConcat([Scan(a)], [Scan(b)]);
    assert [Scan(a)] + [Scan(b)] == [Scan(a), Scan(b)];
    assert ScansAll([Scan(a)]) == multiset{a};
    assert ScansAll([Scan(b)]) == multiset{b};
  }

  /** A node whose children are all scans is left as it is when its own
      slot is not rewritten. */
  lemma VisitOverScans(rules: set<Rule>, parent: Node, n: Node)
    requires Rewrite(rules, parent, n) == n
    requires forall k :: k in Kids(n) ==> k.Scan?
    ensures Visit(rules, parent, n) == n
  {
    VisitStep(rules, parent, n, n);
    var v := VisitEach(rules, n, Kids(n));
    forall x | 0 <= x < |Kids(n)| ensures v[x] == Kids(n)[x] {
      assert Kids(n)[x] in Kids(n);
      VisitScan(rules, n, Kids(n)[x].alias);
    }
    assert v == Kids(n);
  }

  lemma FilterScanTables(p: Predicate, cols: seq<Column>, vs: seq<string>, a: string)
    ensures Tables(Filter(p, cols, vs, [Scan(a)])) == {a}
  {
    assert [Scan(a)][0] == Scan(a) && [Scan(a)][1..] == [];
    assert ScansAll([Scan(a)]) == multiset{a};
  }

  /** The columns a two-way join branch reading the one table `a` needs when
      the join and the projection above each name one of its columns and one
      of the other branch's; the branch is the first of the two. */
  lemma NeededFirst(b: Node, a: string, id: Column, otherId: Column, col: Column, otherCol: Column)
    requires Tables(b) == {a}
    requires id.alias == a && col.alias == a && otherId.alias != a && otherCol.alias != a
    ensures Needed([col, otherCol], [id, otherId], b) == Union([id], [col])
  {
    RestrictKeepsFirst(id, otherId, {a});
    RestrictKeepsFirst(col, otherCol, {a});
    NeededFrom([col, otherCol], [id, otherId], b, [id], [col]);
  }

  /** As NeededFirst, for the second of the two branches. */
  lemma NeededSecond(b: Node, a: string, otherId: Column, id: Column, otherCol: Column, col: Column)
    requires Tables(b) == {a}
    requires id.alias == a && col.alias == a && otherId.alias != a && otherCol.alias != a
    ensures Needed([otherCol, col], [otherId, id], b) == Union([id], [col])
  {
    RestrictKeepsSecond(otherId, id, {a});
    RestrictKeepsSecond(otherCol, col, {a});
    NeededFrom([otherCol, col], [otherId, id], b, [id], [col]);
  }

  /** A branch that is not a filter keeping its place gets its projection
      directly above it. */
  lemma WrapAbove(outer: seq<Column>, ids: seq<Column>, b: Node, need: seq<Column>)
    requires Needed(outer, ids, b) == need && !KeepsFilterOnTop(b, need)
    ensures Wrap(outer, ids, b) == Project(need, [b])
  {
  }

  /** A filter branch whose columns are all needed gets the projection
      beneath it. */
  lemma WrapBelow(outer: seq<Column>, ids: seq<Column>, b: Node, need: seq<Column>)
    requires b.Filter? && Needed(outer, ids, b) == need && KeepsFilterOnTop(b, need)
    ensures Wrap(outer, ids, b) == Filter(b.pred, b.cols, b.videos, [Project(need, b.children)])
  {
    var w := Wrap(outer, ids, b);
    assert SameHead(w, b);
  }

  /** Projection pushdown through a two-way join, from its two wrapped
      branches. */
  lemma PushJoinOfTwo(outer: seq<Column>, ids: seq<Column>, a: Node, b: Node, wa: Node, wb: Node)
    requires Wrap(outer, ids, a) == wa && Wrap(outer, ids, b) == wb
    ensures PushProjectionJoin(outer, Join(ids, [a, b])) == Join(ids, [wa, wb])
  {
    var r := PushProjectionJoin(outer, Join(ids, [a, b]));
    assert r.children == [wa, wb];
  }

  lemma SimpleJoinRewrite()
    ensures
      var j1 := Join([v1_1, v2_1], [Scan("v1"), Scan("v2")]);
      PushProjectionJoin([v1_3, v2_4], j1) ==
        Join([v1_1, v2_1], [Project([v1_1, v1_3], [Scan("v1")]), Project([v2_1, v2_4], [Scan("v2")])])
  {
    assert Needed([v1_3, v2_4], [v1_1, v2_1], Scan("v1")) == [v1_1, v1_3] by {
      ScanTables("v1");
      NeededFirst(Scan("v1"), "v1", v1_1, v2_1, v1_3, v2_4);
      UnionOfTwo(v1_1, v1_3);
    }
    assert Needed([v1_3, v2_4], [v1_1, v2_1], Scan("v2")) == [v2_1, v2_4] by {
      ScanTables("v2");
      NeededSecond(Scan("v2"), "v2", v1_1, v2_1, v1_3, v2_4);
      UnionOfTwo(v2_1, v2_4);
    }
    WrapAbove([v1_3, v2_4], [v1_1, v2_1], Scan("v1"), [v1_1, v1_3]);
    WrapAbove([v1_3, v2_4], [v1_1, v2_1], Scan("v2"), [v2_1, v2_4]);
    PushJoinOfTwo([v1_3, v2_4], [v1_1, v2_1], Scan("v1"), Scan("v2"),
      Project([v1_1, v1_3], [Scan("v1")]), Project([v2_1, v2_4], [Scan("v2")]));
  }

  /** Projection pushdown through a two-way join: the root projection and
      the join stay in place, and each branch gets a projection of its join
      column followed by its projected column, directly above its scan. */
  lemma SimpleProjectionPushdownJoin()
    ensures
      var t1 := Scan("v1");
      var t2 := Scan("v2");
      var root := Project([v1_3, v2_4], [Join([v1_1, v2_1], [t1, t2])]);
      Run({ProjectionPushdownJoin}, root) ==
        Project([v1_3, v2_4], [Join([v1_1, v2_1], [Project([v1_1, v1_3], [t1]), Project([v2_1, v2_4], [t2])])])
  {
    var t1 := Scan("v1");
    var t2 := Scan("v2");
    var j1 := Join([v1_1, v2_1], [t1, t2]);
    var root := Project([v1_3, v2_4], [j1]);
    var R := {ProjectionPushdownJoin};
    var q1 := Project([v1_1, v1_3], [t1]);
    var q2 := Project([v2_1, v2_4], [t2]);
    var j1' := Join([v1_1, v2_1], [q1, q2]);
    SimpleJoinRewrite();
    assert Rewrite(R, root, j1) == j1';
    VisitOverScans(R, j1', q1);
    VisitOverScans(R, j1', q2);
    EachOfTwo(R, j1', q1, q2);
    VisitStep(R, root, j1, j1');
    EachOfOne(R, root, j1);
    RunStep(R, root);
  }

  /** Projection pushdown through a filter: the filter stays the root's
      only child, and a new projection of v1.3, v1.4 and the filter's v1.7
      sits between the filter and the scan. */
  lemma SimpleProjectionPushdownSelect()
    ensures
      var t1 := Scan("v1");
      var root := Project([v1_3, v1_4], [Filter(eq4, [v1_7], ["v1"], [t1])]);
      Run({ProjectionPushdownSelect}, root) ==
        Project([v1_3, v1_4], [Filter(eq4, [v1_7], ["v1"], [Project([v1_3, v1_4, v1_7], [t1])])])
  {
    var t1 := Scan("v1");
    var s1 := Filter(eq4, [v1_7], ["v1"], [t1]);
    var root := Project([v1_3, v1_4], [s1]);
    var R := {ProjectionPushdownSelect};
    UnionDisjoint([v1_3, v1_4], [v1_7]);
    var q := Project([v1_3, v1_4, v1_7], [t1]);
    var s1' := Filter(eq4, [v1_7], ["v1"], [q]);
    assert PushPredicate(s1) == s1 by {
      assert !FilterOverJoin(s1);
    }
    assert Union([v1_3, v1_4], [v1_7]) == [v1_3, v1_4, v1_7];
    assert PushProjectionSelect([v1_3, v1_4], s1) == s1';
    assert Rewrite(R, root, s1) == s1' by {
      SelectSlot(R, root, s1);
    }
    VisitOverScans(R, s1', q);
    EachOfOne(R, s1', q);
    VisitStep(R, root, s1, s1');
    EachOfOne(R, root, s1);
    RunStep(R, root);
  }
  /** Projection pushdown through a filter, from the union of the outer and
      the filter's columns. */
  lemma PushSelectFrom(outer: seq<Column>, s: Node, u: seq<Column>)
    requires s.Filter? && Union(outer, s.cols) == u
    ensures PushProjectionSelect(outer, s) == Filter(s.pred, s.cols, s.videos, [Project(u, s.children)])
  {
  }

  lemma CombinedJoinRewrite()
    ensures
      var s1 := Filter(eq4, [v2_7], ["v1"], [Scan("v2")]);
      PushProjectionJoin([v1_3, v2_4], Join([v1_1, v2_1], [Scan("v1"), s1])) ==
        Join([v1_1, v2_1], [Project([v1_1, v1_3], [Scan("v1")]), Project([v2_1, v2_4], [s1])])
  {
    var s1 := Filter(eq4, [v2_7], ["v1"], [Scan("v2")]);
    assert Needed([v1_3, v2_4], [v1_1, v2_1], Scan("v1")) == [v1_1, v1_3] by {
      ScanTables("v1");
      NeededFirst(Scan("v1"), "v1", v1_1, v2_1, v1_3, v2_4);
      UnionOfTwo(v1_1, v1_3);
    }
    assert Needed([v1_3, v2_4], [v1_1, v2_1], s1) == [v2_1, v2_4] by {
      FilterScanTables(eq4, [v2_7], ["v1"], "v2");
      NeededSecond(s1, "v2", v1_1, v2_1, v1_3, v2_4);
      UnionOfTwo(v2_1, v2_4);
    }
    assert !KeepsFilterOnTop(s1, [v2_1, v2_4]) by {
      assert v2_7 in s1.cols && v2_7 !in [v2_1, v2_4];
    }
    WrapAbove([v1_3, v2_4], [v1_1, v2_1], Scan("v1"), [v1_1, v1_3]);
    WrapAbove([v1_3, v2_4], [v1_1, v2_1], s1, [v2_1, v2_4]);
    PushJoinOfTwo([v1_3, v2_4], [v1_1, v2_1], Scan("v1"), s1,
      Project([v1_1, v1_3], [Scan("v1")]), Project([v2_1, v2_4], [s1]));
  }

  /** The filter branch of the combined test: the projection inserted above
      it pushes a projection of v2.1, v2.4 and the filter's v2.7 below it. */
  lemma CombinedFilterBranch()
    ensures
      var R := {ProjectionPushdownJoin, ProjectionPushdownSelect};
      var s1 := Filter(eq4, [v2_7], ["v1"], [Scan("v2")]);
      var q2 := Project([v2_1, v2_4], [s1]);
      Visit(R, q2, s1) == Filter(eq4, [v2_7], ["v1"], [Project([v2_1, v2_4, v2_7], [Scan("v2")])])
  {
    var R := {ProjectionPushdownJoin, ProjectionPushdownSelect};
    var s1 := Filter(eq4, [v2_7], ["v1"], [Scan("v2")]);
    var q2 := Project([v2_1, v2_4], [s1]);
    var p := Project([v2_1, v2_4, v2_7], [Scan("v2")]);
    var s1' := Filter(eq4, [v2_7], ["v1"], [p]);
    assert Union([v2_1, v2_4], [v2_7]) == [v2_1, v2_4, v2_7] by {
      UnionDisjoint([v2_1, v2_4], [v2_7]);
    }
    PushSelectFrom([v2_1, v2_4], s1, [v2_1, v2_4, v2_7]);
    assert Rewrite(R, q2, s1) == s1' by {
      SelectSlot(R, q2, s1);
    }
    VisitOverScans(R, s1', p);
    EachOfOne(R, s1', p);
    VisitStep(R, q2, s1, s1');
  }

  lemma CombinedSecondBranch()
    ensures
      var R := {ProjectionPushdownJoin, ProjectionPushdownSelect};
      var s1 := Filter(eq4, [v2_7], ["v1"], [Scan("v2")]);
      var q1 := Project([v1_1, v1_3], [Scan("v1")]);
      var q2 := Project([v2_1, v2_4], [s1]);
      var j1' := Join([v1_1, v2_1], [q1, q2]);
      Visit(R, j1', q2) ==
        Project([v2_1, v2_4], [Filter(eq4, [v2_7], ["v1"], [Project([v2_1, v2_4, v2_7], [Scan("v2")])])])
  {
    var R := {ProjectionPushdownJoin, ProjectionPushdownSelect};
    var s1 := Filter(eq4, [v2_7], ["v1"], [Scan("v2")]);
    var q1 := Project([v1_1, v1_3], [Scan("v1")]);
    var q2 := Project([v2_1, v2_4], [s1]);
    var j1' := Join([v1_1, v2_1], [q1, q2]);
    assert Rewrite(R, j1', q2) == q2;
    CombinedFilterBranch();
    EachOfOne(R, q2, s1);
    VisitStep(R, j1', q2, q2);
  }

  /** The slot of the combined test, rewritten and then walked: the first
      branch's projection stays put, the second's pushes one below the
      filter. */
  lemma CombinedSlot()
    ensures
      var R := {ProjectionPushdownJoin, ProjectionPushdownSelect};
      var s1 := Filter(eq4, [v2_7], ["v1"], [Scan("v2")]);
      var j1 := Join([v1_1, v2_1], [Scan("v1"), s1]);
      Visit(R, Project([v1_3, v2_4], [j1]), j1) ==
        Join([v1_1, v2_1], [
          Project([v1_1, v1_3], [Scan("v1")]),
          Project([v2_1, v2_4], [Filter(eq4, [v2_7], ["v1"], [Project([v2_1, v2_4, v2_7], [Scan("v2")])])])])
  {
    var t1 := Scan("v1");
    var t2 := Scan("v2");
    var s1 := Filter(eq4, [v2_7], ["v1"], [t2]);
    var j1 := Join([v1_1, v2_1], [t1, s1]);
    var root := Project([v1_3, v2_4], [j1]);
    var R := {ProjectionPushdownJoin, ProjectionPushdownSelect};
    var q1 := Project([v1_1, v1_3], [t1]);
    var q2 := Project([v2_1, v2_4], [s1]);
    var j1' := Join([v1_1, v2_1], [q1, q2]);
    assert Rewrite(R, root, j1) == j1' by {
      CombinedJoinRewrite();
      JoinSlot(R, root, j1);
    }
    assert VisitEach(R, j1', [q1, q2]) == [q1, Visit(R, j1', q2)] by {
      VisitOverScans(R, j1', q1);
      EachOfTwo(R, j1', q1, q2);
    }
    CombinedSecondBranch();
    VisitStep(R, root, j1, j1');
  }

  /** Both projection rules together on a join whose second branch is a
      filter: each branch gets a projection of its join column and its
      projected column; above the filter, since the filter's own column is
      not among those, and that projection pushes a further one, which adds
      the filter's column, beneath the filter. */
  lemma CombinedProjectionPushdown()
    ensures
      var t1 := Scan("v1");
      var t2 := Scan("v2");
      var s1 := Filter(eq4, [v2_7], ["v1"], [t2]);
      var root := Project([v1_3, v2_4], [Join([v1_1, v2_1], [t1, s1])]);
      Run({ProjectionPushdownJoin, ProjectionPushdownSelect}, root) ==
        Project([v1_3, v2_4], [Join([v1_1, v2_1], [
          Project([v1_1, v1_3], [t1]),
          Project([v2_1, v2_4], [Filter(eq4, [v2_7], ["v1"], [Project([v2_1, v2_4, v2_7], [t2])])])])])
  {
    var t1 := Scan("v1");
    var t2 := Scan("v2");
    var s1 := Filter(eq4, [v2_7], ["v1"], [t2]);
    var j1 := Join([v1_1, v2_1], [t1, s1]);
    var root := Project([v1_3, v2_4], [j1]);
    var R := {ProjectionPushdownJoin, ProjectionPushdownSelect};
    CombinedSlot();
    EachOfOne(R, root, j1);
    RunStep(R, root);
  }

  /** The slot of test five after all three rules: the filter moved into
      the v1 branch and then got the v1 projection beneath it, since its
      column is among those the branch needs; the v2 branch got its
      projection directly above the scan. */
  lemma BothRewrite()
    ensures
      var pushed := Filter(eq4, [v1_1], ["v1"], [Scan("v1")]);
      PushProjectionJoin([v1_1, v2_2], Join([v1_3, v2_3], [pushed, Scan("v2")])) ==
        Join([v1_3, v2_3], [
          Filter(eq4, [v1_1], ["v1"], [Project([v1_3, v1_1], [Scan("v1")])]),
          Project([v2_3, v2_2], [Scan("v2")])])
  {
    var pushed := Filter(eq4, [v1_1], ["v1"], [Scan("v1")]);
    assert Needed([v1_1, v2_2], [v1_3, v2_3], pushed) == [v1_3, v1_1] by {
      FilterScanTables(eq4, [v1_1], ["v1"], "v1");
      NeededFirst(pushed, "v1", v1_3, v2_3, v1_1, v2_2);
      UnionOfTwo(v1_3, v1_1);
    }
    assert Needed([v1_1, v2_2], [v1_3, v2_3], Scan("v2")) == [v2_3, v2_2] by {
      ScanTables("v2");
      NeededSecond(Scan("v2"), "v2", v1_3, v2_3, v1_1, v2_2);
      UnionOfTwo(v2_3, v2_2);
    }
    assert KeepsFilterOnTop(pushed, [v1_3, v1_1]);
    WrapBelow([v1_1, v2_2], [v1_3, v2_3], pushed, [v1_3, v1_1]);
    WrapAbove([v1_1, v2_2], [v1_3, v2_3], Scan("v2"), [v2_3, v2_2]);
    PushJoinOfTwo([v1_1, v2_2], [v1_3, v2_3], pushed, Scan("v2"),
      Filter(eq4, [v1_1], ["v1"], [Project([v1_3, v1_1], [Scan("v1")])]),
      Project([v2_3, v2_2], [Scan("v2")]));
  }

  lemma BothFirstBranch()
    ensures
      var R := {PredicatePushdown, ProjectionPushdownJoin, ProjectionPushdownSelect};
      var f := Filter(eq4, [v1_1], ["v1"], [Project([v1_3, v1_1], [Scan("v1")])]);
      var j1' := Join([v1_3, v2_3], [f, Project([v2_3, v2_2], [Scan("v2")])]);
      Visit(R, j1', f) == f
  {
    var R := {PredicatePushdown, ProjectionPushdownJoin, ProjectionPushdownSelect};
    var p := Project([v1_3, v1_1], [Scan("v1")]);
    var f := Filter(eq4, [v1_1], ["v1"], [p]);
    var j1' := Join([v1_3, v2_3], [f, Project([v2_3, v2_2], [Scan("v2")])]);
    assert Rewrite(R, j1', f) == f by {
      assert !FilterOverJoin(f);
    }
    assert Rewrite(R, f, p) == p;
    VisitOverScans(R, f, p);
    EachOfOne(R, f, p);
    VisitStep(R, j1', f, f);
  }

  /** The slot of test five, rewritten and then walked: nothing below the
      rewritten join moves again. */
  lemma BothSlot()
    ensures
      var R := {PredicatePushdown, ProjectionPushdownJoin, ProjectionPushdownSelect};
      var s1 := Filter(eq4, [v1_1], ["v1", "v2"], [Join([v1_3, v2_3], [Scan("v1"), Scan("v2")])]);
      Visit(R, Project([v1_1, v2_2], [s1]), s1) ==
        Join([v1_3, v2_3], [
          Filter(eq4, [v1_1], ["v1"], [Project([v1_3, v1_1], [Scan("v1")])]),
          Project([v2_3, v2_2], [Scan("v2")])])
  {
    var t1 := Scan("v1");
    var t2 := Scan("v2");
    var s1 := Filter(eq4, [v1_1], ["v1", "v2"], [Join([v1_3, v2_3], [t1, t2])]);
    var root := Project([v1_1, v2_2], [s1]);
    var R := {PredicatePushdown, ProjectionPushdownJoin, ProjectionPushdownSelect};
    var f := Filter(eq4, [v1_1], ["v1"], [Project([v1_3, v1_1], [t1])]);
    var q2 := Project([v2_3, v2_2], [t2]);
    var j1' := Join([v1_3, v2_3], [f, q2]);
    assert Rewrite(R, root, s1) == j1' by {
      TwoWayPush();
      BothRewrite();
      PushThenJoinSlot(R, root, s1, Join([v1_3, v2_3], [Filter(eq4, [v1_1], ["v1"], [t1]), t2]));
    }
    assert VisitEach(R, j1', [f, q2]) == [f, q2] by {
      BothFirstBranch();
      VisitOverScans(R, j1', q2);
      EachOfTwo(R, j1', f, q2);
    }
    VisitStep(R, root, s1, j1');
  }

  /** All three rules: the filter moves below the join into the v1 branch
      with its videos set to v1, and each branch gets the projection of
      its join column and its projected column, beneath the moved filter on
      the v1 side. */
  lemma BothProjectionAndPredicatePushdown()
    ensures
      var t1 := Scan("v1");
      var t2 := Scan("v2");
      var s1 := Filter(eq4, [v1_1], ["v1", "v2"], [Join([v1_3, v2_3], [t1, t2])]);
      var root := Project([v1_1, v2_2], [s1]);
      Run({PredicatePushdown, ProjectionPushdownJoin, ProjectionPushdownSelect}, root) ==
        Project([v1_1, v2_2], [Join([v1_3, v2_3], [
          Filter(eq4, [v1_1], ["v1"], [Project([v1_3, v1_1], [t1])]),
          Project([v2_3, v2_2], [t2])])])
  {
    var s1 := Filter(eq4, [v1_1], ["v1", "v2"], [Join([v1_3, v2_3], [Scan("v1"), Scan("v2")])]);
    var root := Project([v1_1, v2_2], [s1]);
    var R := {PredicatePushdown, ProjectionPushdownJoin, ProjectionPushdownSelect};
    BothSlot();
    EachOfOne(R, root, s1);
    RunStep(R, root);
  }

  /** The filter on v3.3 over the join of (v1 join v2) and v3 moves into the
      v3 branch, and its videos become v3. */
  lemma DoubleJoinPush()
    ensures
      var j1 := Join([v1_3, v2_3], [Scan("v1"), Scan("v2")]);
      var j2 := Join([v1_3, v2_3, v3_3], [j1, Scan("v3")]);
      PushPredicate(Filter(eq4, [v3_3], ["v1", "v2", "v3"], [j2])) ==
        Join([v1_3, v2_3, v3_3], [j1, Filter(eq4, [v3_3], ["v3"], [Scan("v3")])])
  {
    var j1 := Join([v1_3, v2_3], [Scan("v1"), Scan("v2")]);
    var j2 := Join([v1_3, v2_3, v3_3], [j1, Scan("v3")]);
    var s1 := Filter(eq4, [v3_3], ["v1", "v2", "v3"], [j2]);
    assert Covers(Scan("v3"), [v3_3]) && !Covers(j1, [v3_3]) by {
      TwoScanTables("v1", "v2", [v1_3, v2_3]);
      ScanTables("v3");
      OneColumnTables(v3_3);
      assert "v3" !in {"v1", "v2"};
    }
    PushOntoSecond(eq4, [v3_3], ["v1", "v2", "v3"], [v1_3, v2_3, v3_3], j1, "v3");
  }

  /** The rewrite of the double-join test's only slot: the filter leaves the
      slot to the outer join, having moved into its v3 branch. */
  lemma DoubleJoinRewrite()
    ensures
      var j1 := Join([v1_3, v2_3], [Scan("v1"), Scan("v2")]);
      var j2 := Join([v1_3, v2_3, v3_3], [j1, Scan("v3")]);
      var s1 := Filter(eq4, [v3_3], ["v1", "v2", "v3"], [j2]);
      var root := Project([v1_1, v2_2, v3_4], [s1]);
      Rewrite({PredicatePushdown}, root, s1) ==
        Join([v1_3, v2_3, v3_3], [j1, Filter(eq4, [v3_3], ["v3"], [Scan("v3")])])
  {
    var j1 := Join([v1_3, v2_3], [Scan("v1"), Scan("v2")]);
    var j2 := Join([v1_3, v2_3, v3_3], [j1, Scan("v3")]);
    var s1 := Filter(eq4, [v3_3], ["v1", "v2", "v3"], [j2]);
    DoubleJoinPush();
    PredicateOnly(Project([v1_1, v2_2, v3_4], [s1]), s1);
  }

  /** Below the rewritten outer join nothing else moves: the inner join and
      the pushed filter have only scans beneath them. */
  lemma DoubleJoinBranches()
    ensures
      var R := {PredicatePushdown};
      var j1 := Join([v1_3, v2_3], [Scan("v1"), Scan("v2")]);
      var f := Filter(eq4, [v3_3], ["v3"], [Scan("v3")]);
      var j2' := Join([v1_3, v2_3, v3_3], [j1, f]);
      VisitEach(R, j2', [j1, f]) == [j1, f]
  {
    var R := {PredicatePushdown};
    var j1 := Join([v1_3, v2_3], [Scan("v1"), Scan("v2")]);
    var f := Filter(eq4, [v3_3], ["v3"], [Scan("v3")]);
    var j2' := Join([v1_3, v2_3, v3_3], [j1, f]);
    assert Rewrite(R, j2', j1) == j1;
    VisitOverScans(R, j2', j1);
    assert Rewrite(R, j2', f) == f;
    VisitOverScans(R, j2', f);
    EachOfTwo(R, j2', j1, f);
  }

  /** Predicate pushdown below the outer of two joins: the filter lands
      directly above the v3 scan, the inner join keeps its place and its
      children, and the filter's videos become v3. */
  lemma DoubleJoinPredicatePushdown()
    ensures
      var t1 := Scan("v1");
      var t2 := Scan("v2");
      var t3 := Scan("v3");
      var j1 := Join([v1_3, v2_3], [t1, t2]);
      var j2 := Join([v1_3, v2_3, v3_3], [j1, t3]);
      var root := Project([v1_1, v2_2, v3_4], [Filter(eq4, [v3_3], ["v1", "v2", "v3"], [j2])]);
      Run({PredicatePushdown}, root) ==
        Project([v1_1, v2_2, v3_4], [Join([v1_3, v2_3, v3_3], [j1, Filter(eq4, [v3_3], ["v3"], [t3])])])
  {
    var t1 := Scan("v1");
    var t2 := Scan("v2");
    var t3 := Scan("v3");
    var j1 := Join([v1_3, v2_3], [t1, t2]);
    var j2 := Join([v1_3, v2_3, v3_3], [j1, t3]);
    var s1 := Filter(eq4, [v3_3], ["v1", "v2", "v3"], [j2]);
    var root := Project([v1_1, v2_2, v3_4], [s1]);
    var R := {PredicatePushdown};
    var f := Filter(eq4, [v3_3], ["v3"], [t3]);
    var j2' := Join([v1_3, v2_3, v3_3], [j1, f]);
    DoubleJoinRewrite();
    DoubleJoinBranches();
    VisitStep(R, root, s1, j2');
    EachOfOne(R, root, s1);
    RunStep(R, root);
  }
}
