/** The prototype optimizer of evaQL/build/rule_query_optimizer.py. Its
    nodes are projections (with `attributes`), conditions, cross products and
    any other node kind, and their `children` field holds either a list or,
    after a rewrite, a single bare node. Only projection pushdown through a
    condition is implemented there. */
module Prototype {
  import opened Plan

  /** What a `children` field holds: a list of nodes, or one bare node. */
  datatype ChildField = Many(nodes: seq<PNode>) | One(node: PNode)

  datatype PNode =
    | PProjection(attributes: seq<Column>, children: ChildField)
    | PCondition(pred: Predicate, children: ChildField)
    | PCross(children: ChildField)
    | POther(name: string, children: ChildField)

  /** The children a traversal iterates over: a bare node counts as a
      one-element list. */
  function ChildList(k: ChildField): (r: seq<PNode>)
    ensures k.One? ==> r == [k.node]
    ensures k.Many? ==> r == k.nodes
  {
    match k
    case Many(ns) => ns
    case One(n) => [n]
  }

  /** The only rewrite the prototype performs: the condition's children
      become one new projection that copies the outer projection's
      attributes and takes over the condition's former children. */
  function PushdownSelect(outer: PNode, cond: PNode): (r: PNode)
    requires outer.PProjection? && cond.PCondition?
    ensures r.PCondition? && r.pred == cond.pred
    ensures r.children.One? && r.children.node.PProjection?
    ensures r.children.node.attributes == outer.attributes
    ensures r.children.node.children == cond.children
  {
    PCondition(cond.pred, One(PProjection(outer.attributes, cond.children)))
  }

  /** The rule applied at the edge from `parent` to `c`, if any. */
  function RewriteEdge(parent: PNode, c: PNode): PNode {
    if parent.PProjection? && c.PCondition? then PushdownSelect(parent, c) else c
  }

  /** `traverse`: stops at a cross product; otherwise visits every child
      edge in order. */
  function Traverse(n: PNode): PNode
    decreases n, 1
  {
    if n.PCross? then n else WithChildren(n, VisitKids(n, n.children))
  }

  function WithChildren(n: PNode, k: ChildField): PNode {
    match n
    case PProjection(a, _) => PProjection(a, k)
    case PCondition(p, _) => PCondition(p, k)
    case PCross(_) => PCross(k)
    case POther(s, _) => POther(s, k)
  }

  /** Visits each child of `parent`, keeping the shape of the field. */
  function VisitKids(parent: PNode, k: ChildField): ChildField
    decreases k, 2
  {
    match k
    case Many(ns) => Many(VisitSeq(parent, ns))
    case One(c) => One(Visit(parent, c))
  }

  function VisitSeq(parent: PNode, ns: seq<PNode>): (r: seq<PNode>)
    ensures |r| == |ns|
    decreases ns, 2
  {
    if ns == [] then [] else [Visit(parent, ns[0])] + VisitSeq(parent, ns[1..])
  }

  /** One loop iteration of `traverse`: the edge is rewritten, then the
      traversal recurses into the (possibly rewritten) child. A rewritten
      condition's only child is the new projection, which is traversed in
      turn over the condition's former children. */
  function Visit(parent: PNode, c: PNode): PNode
    decreases c, 3
  {
    if parent.PProjection? && c.PCondition? then
      var p := PProjection(parent.attributes, c.children);
      PCondition(c.pred, One(WithChildren(p, VisitKids(p, c.children))))
    else
      Traverse(c)
  }

  /** `run`: traverses the tree it is given and returns it. */
  function Run(root: PNode): PNode {
    Traverse(root)
  }

  /** The prototype's predicate simplification returns its argument. */
  function SimplifyPredicate(p: Predicate): (r: Predicate)
    ensures r == p
  {
    p
  }

  /** A rewrite can happen somewhere in `n`: a projection over a condition,
      reached without passing a cross product. */
  predicate Touched(n: PNode)
    decreases n, 1
  {
    !n.PCross? && TouchedKids(n, n.children)
  }

  predicate TouchedKids(parent: PNode, k: ChildField)
    decreases k, 2
  {
    match k
    case Many(ns) => TouchedSeq(parent, ns)
    case One(c) => (parent.PProjection? && c.PCondition?) || Touched(c)
  }

  predicate TouchedSeq(parent: PNode, ns: seq<PNode>)
    decreases ns, 2
  {
    ns != [] &&
    ((parent.PProjection? && ns[0].PCondition?) || Touched(ns[0]) || TouchedSeq(parent, ns[1..]))
  }

  function PSize(n: PNode): nat
    decreases n, 1
  {
    1 + KidsSize(n.children)
  }

  function KidsSize(k: ChildField): nat
    decreases k, 2
  {
    match k
    case Many(ns) => SeqSize(ns)
    case One(c) => PSize(c)
  }

  function SeqSize(ns: seq<PNode>): nat
    decreases ns, 2
  {
    if ns == [] then 0 else PSize(ns[0]) + SeqSize(ns[1..])
  }

  /** Visiting an edge is rewriting it and then traversing the child that
      the edge now leads to. */
  lemma VisitRewritesThenTraverses(parent: PNode, c: PNode)
    ensures Visit(parent, c) == Traverse(RewriteEdge(parent, c))
  {
    if parent.PProjection? && c.PCondition? {
      var c' := PushdownSelect(parent, c);
      var p := c'.children.node;
      assert Traverse(c') == PCondition(c.pred, One(Visit(c', p)));
      assert Visit(c', p) == Traverse(p);
    }
  }

  /** A cross product is neither rewritten nor descended into, wherever it
      stands: a projection whose only child is a cross product comes back
      unchanged, even when a projection stands over a condition below the
      cross product. */
  lemma CrossIsOpaque(parent: PNode, k: ChildField, attrs: seq<Column>)
    ensures Traverse(PCross(k)) == PCross(k)
    ensures Visit(parent, PCross(k)) == PCross(k)
    ensures Run(PProjection(attrs, Many([PCross(k)]))) == PProjection(attrs, Many([PCross(k)]))
  {
    var root := PProjection(attrs, Many([PCross(k)]));
    assert Visit(root, PCross(k)) == Traverse(PCross(k)) == PCross(k);
    assert VisitSeq(root, []) == [];
    assert VisitSeq(root, [PCross(k)]) == [Visit(root, PCross(k))] + VisitSeq(root, []);
    assert [PCross(k)] + [] == [PCross(k)];
    assert Traverse(root) == WithChildren(root, VisitKids(root, root.children));
  }

  /** A bare child is traversed exactly as a one-element list holding it
      would be; the field keeps its shape. */
  lemma BareChildIsOneElementList(parent: PNode, c: PNode)
    ensures VisitKids(parent, One(c)).One?
    ensures ChildList(VisitKids(parent, One(c))) == ChildList(VisitKids(parent, Many([c])))
  {
    assert VisitSeq(parent, [c]) == [Visit(parent, c)] + VisitSeq(parent, []);
  }

  /** The root keeps its kind and its own fields. */
  lemma RunKeepsRoot(root: PNode)
    ensures WithChildren(Run(root), Many([])) == WithChildren(root, Many([]))
  {
  }

  lemma {:induction false} TraverseGrows(n: PNode)
    ensures PSize(Traverse(n)) >= PSize(n)
    ensures Touched(n) ==> PSize(Traverse(n)) > PSize(n)
    ensures !Touched(n) ==> Traverse(n) == n
    decreases n, 1
  {
    if !n.PCross? {
      VisitKidsGrows(n, n.children);
    }
  }

  lemma {:induction false} VisitKidsGrows(parent: PNode, k: ChildField)
    ensures KidsSize(VisitKids(parent, k)) >= KidsSize(k)
    ensures TouchedKids(parent, k) ==> KidsSize(VisitKids(parent, k)) > KidsSize(k)
    ensures !TouchedKids(parent, k) ==> VisitKids(parent, k) == k
    decreases k, 2
  {
    match k
    case Many(ns) => VisitSeqGrows(parent, ns);
    case One(c) => VisitGrows(parent, c);
  }

  lemma {:induction false} VisitSeqGrows(parent: PNode, ns: seq<PNode>)
    ensures SeqSize(VisitSeq(parent, ns)) >= SeqSize(ns)
    ensures TouchedSeq(parent, ns) ==> SeqSize(VisitSeq(parent, ns)) > SeqSize(ns)
    ensures !TouchedSeq(parent, ns) ==> VisitSeq(parent, ns) == ns
    decreases ns, 2
  {
    if ns != [] {
      var v := VisitSeq(parent, ns);
      assert v[0] == Visit(parent, ns[0]) && v[1..] == VisitSeq(parent, ns[1..]);
      VisitGrows(parent, ns[0]);
      VisitSeqGrows(parent, ns[1..]);
      if !TouchedSeq(parent, ns) {
        assert ns == [ns[0]] + ns[1..];
      }
    }
  }

  lemma {:induction false} VisitGrows(parent: PNode, c: PNode)
    ensures PSize(Visit(parent, c)) >= PSize(c)
    ensures (parent.PProjection? && c.PCondition?) || Touched(c) ==> PSize(Visit(parent, c)) > PSize(c)
    ensures !((parent.PProjection? && c.PCondition?) || Touched(c)) ==> Visit(parent, c) == c
    decreases c, 3
  {
    if parent.PProjection? && c.PCondition? {
      var p := PProjection(parent.attributes, c.children);
      var q := WithChildren(p, VisitKids(p, c.children));
      VisitKidsGrows(p, c.children);
      assert PSize(q) == 1 + KidsSize(VisitKids(p, c.children));
      assert PSize(Visit(parent, c)) == 1 + KidsSize(One(q)) == 1 + PSize(q);
    } else {
      TraverseGrows(c);
    }
  }

  /** The prototype changes a tree exactly when some projection stands
      directly over a condition above every cross product on the way. */
  lemma {:induction false} RunChangesIffTouched(root: PNode)
    ensures Run(root) == root <==> !Touched(root)
  {
    TraverseGrows(root);
  }
}
