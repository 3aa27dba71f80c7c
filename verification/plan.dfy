/** Logical query plans as the rule-based optimizer sees them: a tree of
    table scans, filters, projections and inner joins. Parent links are left
    implicit: a node's parent is the node whose `children` hold it. */
module Plan {

  /** A qualified column such as `v1.3`: the table alias and the column index. */
  datatype Column = Column(alias: string, idx: nat)

  /** A filter's predicate. The rewrite rules never look inside it; they read
      the filter's `cols` instead. */
  datatype Predicate = Predicate(text: string)

  datatype Option<T> = None | Some(value: T)

  /** One logical operator and the operators below it. Videos are their
      table aliases. */
  datatype Node =
    | Scan(alias: string)
    | Filter(pred: Predicate, cols: seq<Column>, videos: seq<string>, children: seq<Node>)
    | Project(cols: seq<Column>, children: seq<Node>)
    | Join(joinIds: seq<Column>, children: seq<Node>)

  /** The children of any node; a scan has none. */
  function Kids(n: Node): seq<Node> {
    if n.Scan? then [] else n.children
  }

  /** `n` with its children replaced; a scan stays as it is. */
  function WithKids(n: Node, ks: seq<Node>): (r: Node)
    ensures Kids(r) == if n.Scan? then [] else ks
  {
    match n
    case Scan(_) => n
    case Filter(p, c, v, _) => Filter(p, c, v, ks)
    case Project(c, _) => Project(c, ks)
    case Join(j, _) => Join(j, ks)
  }

  /** Two nodes agree on everything but their children. */
  predicate SameHead(a: Node, b: Node) {
    WithKids(a, []) == WithKids(b, [])
  }

  /** The scan leaves under `n`, as a multiset of aliases. */
  function Scans(n: Node): multiset<string> {
    match n
    case Scan(a) => multiset{a}
    case Filter(_, _, _, ks) => ScansAll(ks)
    case Project(_, ks) => ScansAll(ks)
    case Join(_, ks) => ScansAll(ks)
  }

  function ScansAll(ks: seq<Node>): multiset<string> {
    if ks == [] then multiset{} else Scans(ks[0]) + ScansAll(ks[1..])
  }

  /** The tables a subtree reads: the aliases of the scans under it. */
  function Tables(n: Node): set<string> {
    set a | a in Scans(n)
  }

  /** The tables a list of columns names. */
  function ColumnTables(cols: seq<Column>): set<string> {
    set c | c in cols :: c.alias
  }

  lemma ScansAllConcat(a: seq<Node>, b: seq<Node>)
    ensures ScansAll(a + b) == ScansAll(a) + ScansAll(b)
  {
    if a != [] {
      assert (a + b)[0] == a[0] && (a + b)[1..] == a[1..] + b;
      ScansAllConcat(a[1..], b);
    } else {
      assert a + b == b;
    }
  }

  /** Lists whose members pairwise read the same scans read the same scans. */
  lemma {:induction false} ScansAllPointwise(a: seq<Node>, b: seq<Node>)
    requires |a| == |b|
    requires forall i :: 0 <= i < |a| ==> Scans(a[i]) == Scans(b[i])
    ensures ScansAll(a) == ScansAll(b)
  {
    if a != [] {
      ScansAllPointwise(a[1..], b[1..]);
    }
  }

  /** The columns of `cols` that belong to one of the tables `ts`, in order. */
  function Restrict(cols: seq<Column>, ts: set<string>): (r: seq<Column>)
    ensures forall c :: c in r <==> c in cols && c.alias in ts
  {
    if cols == [] then []
    else (if cols[0].alias in ts then [cols[0]] else []) + Restrict(cols[1..], ts)
  }

  lemma RestrictPair(x: Column, y: Column, ts: set<string>)
    ensures Restrict([x, y], ts) ==
      (if x.alias in ts then [x] else []) + (if y.alias in ts then [y] else [])
  {
    assert [x, y][1..] == [y];
    assert [y][1..] == [];
    assert Restrict([y], ts) == (if y.alias in ts then [y] else []) + Restrict([], ts);
  }

  lemma RestrictKeepsFirst(x: Column, y: Column, ts: set<string>)
    requires x.alias in ts && y.alias !in ts
    ensures Restrict([x, y], ts) == [x]
  {
    RestrictPair(x, y, ts);
    assert [x] + [] == [x];
  }

  lemma RestrictKeepsSecond(x: Column, y: Column, ts: set<string>)
    requires x.alias !in ts && y.alias in ts
    ensures Restrict([x, y], ts) == [y]
  {
    RestrictPair(x, y, ts);
    assert [] + [y] == [y];
  }

  /** The aliases of the scans under `n`, left to right. */
  function ScanOrder(n: Node): seq<string> {
    match n
    case Scan(a) => [a]
    case Filter(_, _, _, ks) => ScanOrderAll(ks)
    case Project(_, ks) => ScanOrderAll(ks)
    case Join(_, ks) => ScanOrderAll(ks)
  }

  function ScanOrderAll(ks: seq<Node>): seq<string> {
    if ks == [] then [] else ScanOrder(ks[0]) + ScanOrderAll(ks[1..])
  }

  /** The scan order lists every scan once: as a multiset it is `Scans`. */
  lemma {:induction false} ScanOrderCounts(n: Node)
    ensures multiset(ScanOrder(n)) == Scans(n)
  {
    match n
    case Scan(_) =>
    case Filter(_, _, _, ks) => ScanOrderAllCounts(ks);
    case Project(_, ks) => ScanOrderAllCounts(ks);
    case Join(_, ks) => ScanOrderAllCounts(ks);
  }

  lemma {:induction false} ScanOrderAllCounts(ks: seq<Node>)
    ensures multiset(ScanOrderAll(ks)) == ScansAll(ks)
  {
    if ks != [] {
      ScanOrderCounts(ks[0]);
      ScanOrderAllCounts(ks[1..]);
    }
  }

  /** `vs` with repeats dropped, each alias kept where it first occurs. */
  function Distinct(vs: seq<string>): seq<string> {
    if vs == [] then []
    else
      var init := Distinct(vs[..|vs| - 1]);
      if vs[|vs| - 1] in init then init else init + [vs[|vs| - 1]]
  }

  /** `Distinct` keeps every alias of `vs`, adds none, and lists each once. */
  lemma {:induction false} DistinctKeeps(vs: seq<string>)
    ensures forall v :: v in Distinct(vs) <==> v in vs
    ensures forall i, j :: 0 <= i < j < |Distinct(vs)| ==> Distinct(vs)[i] != Distinct(vs)[j]
  {
    if vs != [] {
      DistinctKeeps(vs[..|vs| - 1]);
      assert vs == vs[..|vs| - 1] + [vs[|vs| - 1]];
    }
  }

  /** The tables a subtree reads, each once, in the order of its scans. */
  function Videos(n: Node): seq<string> {
    Distinct(ScanOrder(n))
  }

  /** `Videos` lists exactly the tables the subtree reads, each once. */
  lemma VideosAreTables(n: Node)
    ensures forall v :: v in Videos(n) <==> v in Tables(n)
    ensures forall i, j :: 0 <= i < j < |Videos(n)| ==> Videos(n)[i] != Videos(n)[j]
  {
    ScanOrderCounts(n);
    DistinctKeeps(ScanOrder(n));
    assert forall v :: v in ScanOrder(n) <==> v in multiset(ScanOrder(n));
  }

  predicate NoDup(s: seq<Column>) {
    forall i, j :: 0 <= i < j < |s| ==> s[i] != s[j]
  }

  /** `acc` followed by the members of `s` that are not yet present, each
      once, in the order of their first occurrence. */
  function AppendNew(acc: seq<Column>, s: seq<Column>): (r: seq<Column>)
    ensures |acc| <= |r| && r[..|acc|] == acc
    ensures forall x :: x in r <==> x in acc || x in s
    ensures forall q :: |acc| <= q < |r| ==> r[q] !in acc
    ensures NoDup(acc) ==> NoDup(r)
    decreases s
  {
    if s == [] then acc
    else
      var acc' := if s[0] in acc then acc else acc + [s[0]];
      var r := AppendNew(acc', s[1..]);
      AppendNewStep(acc, s, acc', r);
      r
  }

  /** One step of AppendNew: what holds of `r` for `acc'`, the accumulator
      with the head of `s` added if new, holds of it for `acc`. */
  lemma AppendNewStep(acc: seq<Column>, s: seq<Column>, acc': seq<Column>, r: seq<Column>)
    requires s != [] && acc' == if s[0] in acc then acc else acc + [s[0]]
    requires |acc'| <= |r| && r[..|acc'|] == acc'
    requires forall x :: x in r <==> x in acc' || x in s[1..]
    requires forall q :: |acc'| <= q < |r| ==> r[q] !in acc'
    requires NoDup(acc') ==> NoDup(r)
    ensures |acc| <= |r| && r[..|acc|] == acc
    ensures forall x :: x in r <==> x in acc || x in s
    ensures forall q :: |acc| <= q < |r| ==> r[q] !in acc
    ensures NoDup(acc) ==> NoDup(r)
  {
    assert r[..|acc|] == acc by {
      assert acc'[..|acc|] == acc;
      assert r[..|acc|] == r[..|acc'|][..|acc|];
    }
    assert forall x :: x in r <==> x in acc || x in s by {
      assert s == [s[0]] + s[1..];
    }
    assert forall q :: |acc| <= q < |r| ==> r[q] !in acc by {
      forall q | |acc| <= q < |acc'| ensures r[q] !in acc {
        assert r[q] == r[..|acc'|][q] == s[0];
      }
    }
    assert NoDup(acc) ==> NoDup(r) by {
      if NoDup(acc) && s[0] !in acc {
        assert forall i :: 0 <= i < |acc| ==> acc'[i] == acc[i];
      }
    }
  }

  /** The list `a` followed by the new members of `b`, without duplicates. */
  function Union(a: seq<Column>, b: seq<Column>): (r: seq<Column>)
    ensures forall x :: x in r <==> x in a || x in b
    ensures NoDup(r)
    ensures forall p, q :: 0 <= p < q < |r| && r[q] in a ==> r[p] in a
  {
    var d := AppendNew([], a);
    var r := AppendNew(d, b);
    assert forall p :: 0 <= p < |d| ==> r[p] == d[p];
    r
  }

  /** Appending members that are new and distinct just concatenates. */
  lemma {:induction false} AppendNewFresh(acc: seq<Column>, s: seq<Column>)
    requires NoDup(s)
    requires forall x :: x in s ==> x !in acc
    ensures AppendNew(acc, s) == acc + s
    decreases s
  {
    if s != [] {
      var acc' := acc + [s[0]];
      assert AppendNew(acc, s) == AppendNew(acc', s[1..]) by {
        assert s[0] in s;
      }
      FreshTail(acc, s);
      AppendNewFresh(acc', s[1..]);
      SnocThenRest(acc, s);
    }
  }

  /** The tail of a distinct list of new members is distinct and new to the
      accumulator extended by the head. */
  lemma FreshTail(acc: seq<Column>, s: seq<Column>)
    requires s != [] && NoDup(s)
    requires forall x :: x in s ==> x !in acc
    ensures NoDup(s[1..])
    ensures forall x :: x in s[1..] ==> x !in acc + [s[0]]
  {
    forall x | x in s[1..] ensures x !in acc + [s[0]] {
      var k :| 0 <= k < |s[1..]| && s[1..][k] == x;
      assert s[k + 1] == x && s[0] != s[k + 1];
    }
  }

  lemma SnocThenRest(acc: seq<Column>, s: seq<Column>)
    requires s != []
    ensures acc + [s[0]] + s[1..] == acc + s
  {
    assert s == [s[0]] + s[1..];
  }

  /** The union of two distinct, disjoint lists is their concatenation. */
  lemma UnionDisjoint(a: seq<Column>, b: seq<Column>)
    requires NoDup(a) && NoDup(b)
    requires forall x :: x in a ==> x !in b
    ensures Union(a, b) == a + b
  {
    AppendNewFresh([], a);
    assert [] + a == a;
    AppendNewFresh(a, b);
  }

  lemma UnionOfTwo(x: Column, y: Column)
    requires x != y
    ensures Union([x], [y]) == [x, y]
  {
    UnionDisjoint([x], [y]);
  }

  /** Number of non-projection operators: the rewrites never change it. */
  function Weight(n: Node): nat {
    match n
    case Scan(_) => 1
    case Filter(_, _, _, ks) => 1 + WeightAll(ks)
    case Project(_, ks) => WeightAll(ks)
    case Join(_, ks) => 1 + WeightAll(ks)
  }

  function WeightAll(ks: seq<Node>): nat {
    if ks == [] then 0 else Weight(ks[0]) + WeightAll(ks[1..])
  }

  function Size(n: Node): nat {
    match n
    case Scan(_) => 1
    case Filter(_, _, _, ks) => 1 + SizeAll(ks)
    case Project(_, ks) => 1 + SizeAll(ks)
    case Join(_, ks) => 1 + SizeAll(ks)
  }

  function SizeAll(ks: seq<Node>): nat {
    if ks == [] then 0 else Size(ks[0]) + SizeAll(ks[1..])
  }

  /** The termination order of the optimizer's walk: fewer non-projection
      operators, or as many and fewer nodes. */
  predicate Below(k: Node, n: Node) {
    Weight(k) < Weight(n) || (Weight(k) == Weight(n) && Size(k) < Size(n))
  }

  lemma {:induction false} MemberBound(ks: seq<Node>, k: Node)
    requires k in ks
    ensures Weight(k) <= WeightAll(ks) && Size(k) <= SizeAll(ks)
  {
    if ks[0] != k {
      MemberBound(ks[1..], k);
    }
  }

  lemma ChildBelow(n: Node, k: Node)
    requires k in Kids(n)
    ensures Below(k, n)
  {
    MemberBound(Kids(n), k);
  }

  /** `n` with every projection below it spliced out: its children take its
      place in its parent's list. */
  function Strip(n: Node): (r: Node)
    ensures SameHead(r, n)
  {
    match n
    case Scan(_) => n
    case Filter(p, c, v, ks) => Filter(p, c, v, StripAll(ks))
    case Project(c, ks) => Project(c, StripAll(ks))
    case Join(j, ks) => Join(j, StripAll(ks))
  }

  function StripAll(ks: seq<Node>): seq<Node> {
    if ks == [] then []
    else
      (match ks[0]
       case Project(_, cs) => StripAll(cs)
       case _ => [Strip(ks[0])])
      + StripAll(ks[1..])
  }

  lemma {:induction false} StripAllConcat(a: seq<Node>, b: seq<Node>)
    ensures StripAll(a + b) == StripAll(a) + StripAll(b)
  {
    if a != [] {
      assert (a + b)[0] == a[0] && (a + b)[1..] == a[1..] + b;
      StripAllConcat(a[1..], b);
      var h := match a[0] case Project(_, cs) => StripAll(cs) case _ => [Strip(a[0])];
      assert StripAll(a) == h + StripAll(a[1..]);
      assert StripAll(a + b) == h + StripAll(a[1..] + b);
    } else {
      assert a + b == b;
    }
  }
}
