/** The prototype's projection pushdown through a condition, set against the
    rule the optimizer's tests describe. The prototype gives the new
    projection only the outer projection's attributes, so a column that only
    the condition reads is projected away beneath the condition that needs
    it; the rule keeps the union of both. */
module Findings {
  import opened Plan
  import opened Rules
  import opened Optimizer
  import Prototype
  import opened Scenarios

  /** As written: whatever the condition reads, a column the outer
      projection does not list is missing from the projection the prototype
      pushes below the condition. */
  lemma PrototypeDropsConditionColumn(attrs: seq<Column>, pred: Predicate, kids: Prototype.ChildField,
                                      outerKids: Prototype.ChildField, read: Column)
    requires read !in attrs
    ensures
      var r := Prototype.PushdownSelect(Prototype.PProjection(attrs, outerKids), Prototype.PCondition(pred, kids));
      r.children.One? && read !in r.children.node.attributes
  {
  }

  /** The prototype on the tree of the select test: a projection of v1.3 and
      v1.4 over a condition reading v1.7 over the v1 table. The projection it
      pushes holds v1.3 and v1.4 only. */
  lemma PrototypeOnSelectTest()
    ensures
      var table := Prototype.POther("v1", Prototype.Many([]));
      var cond := Prototype.PCondition(eq4, Prototype.Many([table]));
      var root := Prototype.PProjection([v1_3, v1_4], Prototype.Many([cond]));
      var r := Prototype.Run(root);
      && r == Prototype.PProjection([v1_3, v1_4], Prototype.Many([
           Prototype.PCondition(eq4, Prototype.One(Prototype.PProjection([v1_3, v1_4], Prototype.Many([table]))))]))
      && v1_7 !in r.children.nodes[0].children.node.attributes
  {
    var table := Prototype.POther("v1", Prototype.Many([]));
    var cond := Prototype.PCondition(eq4, Prototype.Many([table]));
    var root := Prototype.PProjection([v1_3, v1_4], Prototype.Many([cond]));
    var p := Prototype.PProjection([v1_3, v1_4], Prototype.Many([table]));
    assert Prototype.Traverse(table) == table by {
      assert Prototype.VisitSeq(table, []) == [];
    }
    assert Prototype.Visit(p, table) == table;
    assert Prototype.VisitSeq(p, [table]) == [table];
    assert Prototype.Visit(root, cond) == Prototype.PCondition(eq4, Prototype.One(p));
    assert Prototype.VisitSeq(root, [cond]) == [Prototype.PCondition(eq4, Prototype.One(p))];
    assert Prototype.VisitKids(root, root.children) == Prototype.Many([Prototype.PCondition(eq4, Prototype.One(p))]);
  }

  /** A projection over a filter over a projection that lists `c`. */
  predicate KeptBelowFilter(n: Node, c: Column) {
    && n.Project? && |n.children| == 1
    && n.children[0].Filter? && |n.children[0].children| == 1
    && n.children[0].children[0].Project?
    && c in n.children[0].children[0].cols
  }

  /** Corrected: on the same tree the optimizer's rule pushes a projection
      that keeps v1.7 for the filter above it, and every column the filter
      reads survives the pushdown in general. */
  lemma RuleKeepsConditionColumn(outer: seq<Column>, s: Node)
    requires s.Filter?
    ensures forall c :: c in s.cols ==> c in PushProjectionSelect(outer, s).children[0].cols
    ensures
      var t1 := Scan("v1");
      var root := Project([v1_3, v1_4], [Filter(eq4, [v1_7], ["v1"], [t1])]);
      KeptBelowFilter(Run({ProjectionPushdownSelect}, root), v1_7)
  {
    SimpleProjectionPushdownSelect();
    var t1 := Scan("v1");
    var r := Project([v1_3, v1_4], [Filter(eq4, [v1_7], ["v1"], [Project([v1_3, v1_4, v1_7], [t1])])]);
    assert KeptBelowFilter(r, v1_7);
  }
}
