/** What a run of the optimizer preserves, whatever the plan and the rules:
    the root, the scanned tables, and (without predicate pushdown) the whole
    plan except for the projections the rules insert. */
module Properties {
  import opened Plan
  import opened Rules
  import opened Optimizer

  // ---------------------------------------------------------------------
  // The root is never replaced.

  /** The root keeps its operator kind and its attributes (its output
      columns, if it is a projection); only its children change, and each of
      its child slots keeps exactly the scans it had. */
  lemma {:induction false} RunKeepsRoot(rules: set<Rule>, root: Node)
    ensures SameHead(Run(rules, root), root)
    ensures |Kids(Run(rules, root))| == |Kids(root)|
    ensures forall i :: 0 <= i < |Kids(root)| ==> Scans(Kids(Run(rules, root))[i]) == Scans(Kids(root)[i])
  {
    forall k | k in Kids(root) ensures Below(k, root) {
      ChildBelow(root, k);
    }
    forall i | 0 <= i < |Kids(root)|
      ensures Scans(Kids(Run(rules, root))[i]) == Scans(Kids(root)[i])
    {
      VisitAllAt(rules, root, Kids(root), root, i);
      VisitScans(rules, root, Kids(root)[i]);
    }
  }

  /** Slot `i` of a visited list is the visit of slot `i`. */
  lemma {:induction false} VisitAllAt(rules: set<Rule>, parent: Node, ks: seq<Node>, orig: Node, i: nat)
    requires forall k :: k in ks ==> Below(k, orig)
    requires i < |ks|
    ensures VisitAll(rules, parent, ks, orig)[i] == Visit(rules, parent, ks[i])
    decreases i
  {
    if i > 0 {
      VisitAllAt(rules, parent, ks[1..], orig, i - 1);
    }
  }

  // ---------------------------------------------------------------------
  // With no rule enabled the plan comes back unchanged.

  lemma {:induction false} VisitNoRules(parent: Node, c: Node)
    ensures Visit({}, parent, c) == c
    decreases Weight(c), Size(c), 1, 0
  {
    RewriteBelow({}, parent, c);
    assert Rewrite({}, parent, c) == c;
    DescendNoRules(c, c);
  }

  lemma {:induction false} VisitAllNoRules(parent: Node, ks: seq<Node>, orig: Node)
    requires forall k :: k in ks ==> Below(k, orig)
    ensures VisitAll({}, parent, ks, orig) == ks
    decreases Weight(orig), Size(orig), 0, |ks|
  {
    if ks != [] {
      assert ks[0] in ks && Below(ks[0], orig);
      VisitNoRules(parent, ks[0]);
      VisitAllNoRules(parent, ks[1..], orig);
      assert ks == [ks[0]] + ks[1..];
    }
  }

  lemma {:induction false} DescendNoRules(n: Node, orig: Node)
    requires forall k :: k in Kids(n) ==> Below(k, orig)
    ensures Descend({}, n, orig) == n
    decreases Weight(orig), Size(orig), 0, |Kids(n)| + 1
  {
    VisitAllNoRules(n, Kids(n), orig);
  }

  /** The empty rule set is the identity transform. */
  lemma {:induction false} RunNoRules(root: Node)
    ensures Run({}, root) == root
  {
    forall k | k in Kids(root) ensures Below(k, root) {
      ChildBelow(root, k);
    }
    DescendNoRules(root, root);
  }

  // ---------------------------------------------------------------------
  // Every scan survives, none is duplicated.

  lemma {:induction false} VisitScans(rules: set<Rule>, parent: Node, c: Node)
    ensures Scans(Visit(rules, parent, c)) == Scans(c)
    decreases Weight(c), Size(c), 1, 0
  {
    RewriteBelow(rules, parent, c);
    RewriteScans(rules, parent, c);
    DescendScans(rules, Rewrite(rules, parent, c), c);
  }

  lemma {:induction false} VisitAllScans(rules: set<Rule>, parent: Node, ks: seq<Node>, orig: Node)
    requires forall k :: k in ks ==> Below(k, orig)
    ensures ScansAll(VisitAll(rules, parent, ks, orig)) == ScansAll(ks)
    decreases Weight(orig), Size(orig), 0, |ks|
  {
    if ks != [] {
      assert ks[0] in ks && Below(ks[0], orig);
      var v := VisitAll(rules, parent, ks, orig);
      var rest := VisitAll(rules, parent, ks[1..], orig);
      assert v == [Visit(rules, parent, ks[0])] + rest;
      assert v[0] == Visit(rules, parent, ks[0]) && v[1..] == rest;
      VisitScans(rules, parent, ks[0]);
      VisitAllScans(rules, parent, ks[1..], orig);
    }
  }

  lemma {:induction false} DescendScans(rules: set<Rule>, n: Node, orig: Node)
    requires forall k :: k in Kids(n) ==> Below(k, orig)
    ensures Scans(Descend(rules, n, orig)) == Scans(n)
    decreases Weight(orig), Size(orig), 0, |Kids(n)| + 1
  {
    VisitAllScans(rules, n, Kids(n), orig);
  }

  /** The multiset of scanned tables reachable from the root is the same
      before and after the run: no table is dropped or duplicated. */
  lemma {:induction false} RunKeepsScans(rules: set<Rule>, root: Node)
    ensures Scans(Run(rules, root)) == Scans(root)
    ensures Tables(Run(rules, root)) == Tables(root)
  {
    forall k | k in Kids(root) ensures Below(k, root) {
      ChildBelow(root, k);
    }
    DescendScans(rules, root, root);
  }

  // ---------------------------------------------------------------------
  // The projection rules only insert projections.

  lemma StripAllSingle(x: Node)
    ensures StripAll([x]) == if x.Project? then StripAll(x.children) else [Strip(x)]
  {
    assert [x][0] == x && [x][1..] == [];
  }

  /** A branch with its projection inserted strips back to the branch. */
  lemma WrapStrip(outer: seq<Column>, joinIds: seq<Column>, b: Node)
    ensures StripAll([Wrap(outer, joinIds, b)]) == StripAll([b])
  {
    var need := Needed(outer, joinIds, b);
    var w := Wrap(outer, joinIds, b);
    StripAllSingle(w);
    StripAllSingle(b);
    if KeepsFilterOnTop(b, need) {
      StripAllSingle(Project(need, b.children));
    } else {
      StripAllSingle(b);
    }
  }

  lemma {:induction false} WrapAllStrip(outer: seq<Column>, joinIds: seq<Column>, bs: seq<Node>)
    ensures StripAll(WrapAll(outer, joinIds, bs)) == StripAll(bs)
  {
    if bs != [] {
      var w := WrapAll(outer, joinIds, bs);
      assert w == [Wrap(outer, joinIds, bs[0])] + WrapAll(outer, joinIds, bs[1..]);
      StripAllConcat([Wrap(outer, joinIds, bs[0])], WrapAll(outer, joinIds, bs[1..]));
      WrapStrip(outer, joinIds, bs[0]);
      WrapAllStrip(outer, joinIds, bs[1..]);
      assert bs == [bs[0]] + bs[1..];
      StripAllConcat([bs[0]], bs[1..]);
    }
  }

  /** Without predicate pushdown, a rewritten slot strips back to what the
      slot held before. */
  lemma RewriteStrip(rules: set<Rule>, parent: Node, c: Node)
    requires PredicatePushdown !in rules
    ensures StripAll([Rewrite(rules, parent, c)]) == StripAll([c])
  {
    var r := Rewrite(rules, parent, c);
    if ProjectionPushdownJoin in rules && parent.Project? && c.Join? {
      assert r == PushProjectionJoin(parent.cols, c);
      assert r.children == WrapAll(parent.cols, c.joinIds, c.children);
      WrapAllStrip(parent.cols, c.joinIds, c.children);
      StripAllSingle(r);
      StripAllSingle(c);
    } else if ProjectionPushdownSelect in rules && parent.Project? && c.Filter? {
      var p := r.children[0];
      assert r.children == [p];
      StripAllSingle(r);
      StripAllSingle(c);
      StripAllSingle(p);
    }
  }

  lemma {:induction false} VisitStrip(rules: set<Rule>, parent: Node, c: Node)
    requires PredicatePushdown !in rules
    ensures StripAll([Visit(rules, parent, c)]) == StripAll([c])
    decreases Weight(c), Size(c), 1, 0
  {
    RewriteBelow(rules, parent, c);
    DescendStrip(rules, Rewrite(rules, parent, c), c);
    RewriteStrip(rules, parent, c);
  }

  lemma {:induction false} VisitAllStrip(rules: set<Rule>, parent: Node, ks: seq<Node>, orig: Node)
    requires PredicatePushdown !in rules
    requires forall k :: k in ks ==> Below(k, orig)
    ensures StripAll(VisitAll(rules, parent, ks, orig)) == StripAll(ks)
    decreases Weight(orig), Size(orig), 0, |ks|
  {
    if ks != [] {
      assert ks[0] in ks && Below(ks[0], orig);
      var head := Visit(rules, parent, ks[0]);
      var rest := VisitAll(rules, parent, ks[1..], orig);
      assert VisitAll(rules, parent, ks, orig) == [head] + rest;
      StripAllConcat([head], rest);
      VisitStrip(rules, parent, ks[0]);
      VisitAllStrip(rules, parent, ks[1..], orig);
      assert ks == [ks[0]] + ks[1..];
      StripAllConcat([ks[0]], ks[1..]);
    }
  }

  lemma {:induction false} DescendStrip(rules: set<Rule>, n: Node, orig: Node)
    requires PredicatePushdown !in rules
    requires forall k :: k in Kids(n) ==> Below(k, orig)
    ensures StripAll([Descend(rules, n, orig)]) == StripAll([n])
    decreases Weight(orig), Size(orig), 0, |Kids(n)| + 1
  {
    var d := Descend(rules, n, orig);
    VisitAllStrip(rules, n, Kids(n), orig);
    StripAllSingle(d);
    StripAllSingle(n);
  }

  /** Projection pushdown through joins and filters only inserts
      projections: splicing every projection out of the result gives the
      input with its projections spliced out. */
  lemma {:induction false} ProjectionPushdownOnlyInserts(rules: set<Rule>, root: Node)
    requires PredicatePushdown !in rules
    ensures Strip(Run(rules, root)) == Strip(root)
  {
    forall k | k in Kids(root) ensures Below(k, root) {
      ChildBelow(root, k);
    }
    var r := Run(rules, root);
    VisitAllStrip(rules, root, Kids(root), root);
    assert Kids(r) == VisitAll(rules, root, Kids(root), root) || root.Scan?;
  }
  // ---------------------------------------------------------------------
  // Every rewrite needs a filter or a join in the slot.

  /** Only scans and projections. */
  predicate Plain(n: Node) {
    match n
    case Scan(_) => true
    case Project(_, ks) => forall k :: k in ks ==> Plain(k)
    case Filter(_, _, _, _) => false
    case Join(_, _) => false
  }

  lemma {:induction false} VisitPlain(rules: set<Rule>, parent: Node, c: Node)
    requires Plain(c)
    ensures Visit(rules, parent, c) == c
    decreases Weight(c), Size(c), 1, 0
  {
    RewriteBelow(rules, parent, c);
    assert PushPredicate(c) == c by {
      assert !FilterOverJoin(c);
    }
    assert Rewrite(rules, parent, c) == c;
    DescendPlain(rules, c, c);
  }

  lemma {:induction false} VisitAllPlain(rules: set<Rule>, parent: Node, ks: seq<Node>, orig: Node)
    requires forall k :: k in ks ==> Below(k, orig) && Plain(k)
    ensures VisitAll(rules, parent, ks, orig) == ks
    decreases Weight(orig), Size(orig), 0, |ks|
  {
    if ks != [] {
      assert ks[0] in ks && Below(ks[0], orig);
      VisitPlain(rules, parent, ks[0]);
      VisitAllPlain(rules, parent, ks[1..], orig);
      assert ks == [ks[0]] + ks[1..];
    }
  }

  lemma {:induction false} DescendPlain(rules: set<Rule>, n: Node, orig: Node)
    requires Plain(n)
    requires forall k :: k in Kids(n) ==> Below(k, orig)
    ensures Descend(rules, n, orig) == n
    decreases Weight(orig), Size(orig), 0, |Kids(n)| + 1
  {
    VisitAllPlain(rules, n, Kids(n), orig);
  }

  /** A plan of scans and projections only comes back unchanged, whatever
      rules are enabled. */
  lemma {:induction false} RunPlain(rules: set<Rule>, root: Node)
    requires Plain(root)
    ensures Run(rules, root) == root
  {
    forall k | k in Kids(root) ensures Below(k, root) {
      ChildBelow(root, k);
    }
    DescendPlain(rules, root, root);
  }
}
