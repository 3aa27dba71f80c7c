# Rule-based rewriter for logical query plans

This project models the rule-based optimizer of a video query engine. A
logical plan is a tree of four operator kinds:
- table scans;
- filters (selects), which carry the columns their predicate reads and a list of videos;
- projections, which carry their output columns;
- inner joins, which carry their join columns.

One top-down walk visits every parent/child slot and applies the enabled
rewrites there:
- **predicate pushdown:** a filter over a join moves into the slot of the one join branch that produces every table it reads;
- **projection pushdown through a join:** every branch gets a projection of the join columns and projected columns it provides;
- **projection pushdown through a filter:** the filter gets a projection beneath it, which keeps the outer columns and the filter's own columns.

The module that implements these rules is not part of this model. Their
behaviour is fixed by the scenario tests in
`src/query_optimizer/tests/t_rule_query_optimizer.py`. Every scenario is
proved as an exact equation between the input plan and the plan `Run`
returns. The project also models the partial prototype in
`evaQL/build/rule_query_optimizer.py`. That prototype implements the walk
and the projection pushdown through a condition, and the two disagree on
the columns of the pushed projection (see Findings).

Files:
- `plan.dfy`, module `Plan`: the plan datatype, with columns as
  (alias, index) pairs and an opaque predicate. It also holds the tables
  under a subtree (computed from its scans, as a multiset, as a set and as
  a duplicate-free list in scan order),
  ordered duplicate-free union of column lists, and the walk's termination
  measure.
- `rules.dfy`, module `Rules`: the three rewrites, each a pure function on
  the node in one slot.
- `optimizer.dfy`, module `Optimizer`: the rule set and the walk (`Visit`,
  `VisitAll`, `Descend`, `Run`).
- `properties.dfy`, module `Properties`: what every run preserves.
- `scenarios.dfy`, module `Scenarios`: the six scenario tests.
- `prototype.dfy`, module `Prototype`: the prototype, over its own node
  kinds (projection, condition, cross product, any other). Its `children`
  field is either a list or a single bare node.
- `findings.dfy`, module `Findings`: the prototype's projection pushdown
  against the tested rule.

How the walk works. The root is never a slot and is never rewritten. At
each child slot the enabled rules are tried in a fixed order: predicate
pushdown, then projection pushdown through a join, then projection pushdown
through a filter. Each rule sees what the previous one left in the slot.
The walk then descends into the node the slot now holds, and that node is
the parent of its own slots. Videos are modelled as alias strings. A
branch's tables are computed from the scans under it, not from any declared
video list. The combined test declares a filter over the v2 scan with the
videos `[v1]` (t_rule_query_optimizer.py:177), and still expects v2's
columns above it.

Where the tests pin the behaviour, the model follows them:
- **Rule order.** If projection pushdown through a filter were tried before
  predicate pushdown, the filter in the all-rules test would get a
  projection beneath it while it still stood above the join. That test
  expects the join to become the root's child (line 268), which rules the
  other order out. Predicate pushdown is tried first.
- **Several rules per slot.** If each slot could be rewritten by only one
  rule, the all-rules test would end with the join as the root's child but
  without the projections its branches are expected to get (lines 270-288).
  So more than one rule can rewrite a slot: there the slot first gets the
  join, then the join's branch projections.
- **Where a branch projection goes.** Always placing the projection above
  the branch is ruled out by the all-rules test: it expects the pushed
  filter to stay a direct join child with the projection below it (lines
  271-279). Always placing it below a filter branch is ruled out by the
  combined test: it expects a projection above a filter whose column v2.7
  the projection above does not list (lines 201-206). So a join branch that
  is a filter whose columns are all among those the branch needs keeps its
  slot and gets the projection beneath it; any other branch gets the
  projection above it.
- **Predicate pushdown's slot.** The first test expects the join, not the
  filter, as the root's direct child (line 58). So the rule rewrites the
  slot that holds the filter, and the join takes the filter's place in its
  grandparent.
- **Videos of a pushed filter.** Keeping the declared video list `[v1, v2]`
  is ruled out by the first test, which expects `[v1]` once the filter sits
  over the v1 scan (line 62). The pushed filter's videos are the tables the
  chosen branch reads, each once, in the order of its scans. The declared
  list plays no part, matching how tables are computed everywhere else.

## Model

| member | source | states |
|---|---|---|
| Rules.Target | src/query_optimizer/tests/t_rule_query_optimizer.py:57-65 | a filter over a join picks branch i exactly when branch i alone among the join's branches produces every table the filter's columns name; when none is picked, every covering branch has a covering sibling |
| Rules.PushPredicate | src/query_optimizer/tests/t_rule_query_optimizer.py:57-65 | when a branch is picked, the join takes the filter's slot with its join columns and all other branches unchanged; the picked branch's slot holds the filter with the same predicate and columns, the branch as its only child, and as videos exactly the tables the branch reads, each once; otherwise nothing changes; the multiset of scans is the same |
| Plan.VideosAreTables | src/query_optimizer/tests/t_rule_query_optimizer.py:62 | the video list given to a pushed filter holds exactly the tables its branch reads, and none of them twice |
| Rules.Needed | src/query_optimizer/tests/t_rule_query_optimizer.py:106-109 | a branch needs exactly the join columns and projected columns of its own tables, each once, with the join columns first |
| Rules.Wrap | src/query_optimizer/tests/t_rule_query_optimizer.py:199-217 | a branch gets a projection of its needed columns directly above it, unless it is a filter whose columns are all needed, which keeps its operator and gets the projection as its only child; scans are kept |
| Rules.PushProjectionJoin | src/query_optimizer/tests/t_rule_query_optimizer.py:103-113 | the join keeps its slot, its join columns and its number of branches, and every branch is replaced by that branch with its projection inserted; scans are kept |
| Rules.PushProjectionSelect | src/query_optimizer/tests/t_rule_query_optimizer.py:147-156 | the filter keeps its slot and fields; its only child is a new projection over its former children whose columns are exactly the outer columns and the filter's columns, without duplicates; scans are kept |
| Properties.RunKeepsRoot | src/query_optimizer/tests/t_rule_query_optimizer.py:57-58 | the root keeps its operator kind, its fields and its number of children, and each of its child slots reads exactly the scans it read before |
| Properties.RunKeepsScans | src/query_optimizer/tests/t_rule_query_optimizer.py:341-359 | the multiset of scanned tables under the root is the same before and after a run, whatever the rules: no scan is lost or duplicated |
| Properties.RunNoRules | src/query_optimizer/tests/t_rule_query_optimizer.py:47-52 | with no rule enabled, a run returns the plan unchanged |
| Properties.RunPlain | src/query_optimizer/tests/t_rule_query_optimizer.py:47-52 | a plan with no filter and no join is returned unchanged whatever rules are enabled |
| Properties.ProjectionPushdownOnlyInserts | src/query_optimizer/tests/t_rule_query_optimizer.py:103-113 | without predicate pushdown, the result with every projection spliced out equals the input with every projection spliced out: the projection rules only insert projections |
| Scenarios.SimplePredicatePushdown | src/query_optimizer/tests/t_rule_query_optimizer.py:14-67 | the filter on v1.1 over the join of v1 and v2 ends up directly above the v1 scan in the join's first slot, with videos [v1]; the join becomes the root's only child |
| Scenarios.SimpleProjectionPushdownJoin | src/query_optimizer/tests/t_rule_query_optimizer.py:70-114 | the join's branches become projections [v1.1, v1.3] over the v1 scan and [v2.1, v2.4] over the v2 scan |
| Scenarios.SimpleProjectionPushdownSelect | src/query_optimizer/tests/t_rule_query_optimizer.py:117-157 | the filter stays the root's child and gets a projection [v1.3, v1.4, v1.7] over the v1 scan beneath it |
| Scenarios.CombinedProjectionPushdown | src/query_optimizer/tests/t_rule_query_optimizer.py:160-218 | the filter branch gets a projection [v2.1, v2.4] above it; that projection in turn pushes a projection [v2.1, v2.4, v2.7] below the filter; the scan branch gets [v1.1, v1.3] |
| Scenarios.BothProjectionAndPredicatePushdown | src/query_optimizer/tests/t_rule_query_optimizer.py:225-290 | the filter moves into the v1 branch with videos [v1] and gets a projection [v1.3, v1.1] beneath it; the v2 branch gets a projection [v2.3, v2.2]; the join becomes the root's child |
| Scenarios.DoubleJoinPredicatePushdown | src/query_optimizer/tests/t_rule_query_optimizer.py:293-360 | the filter on v3.3 lands directly above the v3 scan in the outer join's second slot with videos [v3]; the inner join and its children are untouched |
| Prototype.PushdownSelect | evaQL/build/rule_query_optimizer.py:72-77 | the condition keeps its predicate and gets one bare child: a new projection with exactly the outer projection's attributes over the condition's former children |
| Prototype.ChildList | evaQL/build/rule_query_optimizer.py:17-20 | a bare child reads as a one-element list, a list as itself |
| Prototype.BareChildIsOneElementList | evaQL/build/rule_query_optimizer.py:17-20 | visiting a bare child gives the same children as visiting a one-element list holding it, and the field stays bare |
| Prototype.CrossIsOpaque | evaQL/build/rule_query_optimizer.py:14-15 | a cross product is neither rewritten nor descended into, as the root or as a child; a projection over a cross product comes back unchanged even when a projection over a condition lies below the cross product |
| Prototype.VisitRewritesThenTraverses | evaQL/build/rule_query_optimizer.py:22-40 | visiting an edge is the same as rewriting it and then traversing the node the edge now leads to, so the inserted projection and the subtree under it are visited too |
| Prototype.RunKeepsRoot | evaQL/build/rule_query_optimizer.py:8-11 | the tree returned keeps its root's kind and fields |
| Prototype.TraverseGrows | evaQL/build/rule_query_optimizer.py:13-40 | traversal never shrinks a tree, grows it strictly when a projection-over-condition edge is reachable without passing a cross product, and returns it unchanged otherwise |
| Prototype.RunChangesIffTouched | evaQL/build/rule_query_optimizer.py:22-40 | the prototype changes a tree if and only if a projection stands directly over a condition somewhere above every cross product |
| Prototype.SimplifyPredicate | evaQL/build/rule_query_optimizer.py:86-88 | predicate simplification returns its argument unchanged |
| Findings.PrototypeDropsConditionColumn | evaQL/build/rule_query_optimizer.py:75-76 | a column the outer projection does not list is never in the projection the prototype pushes below a condition |
| Findings.PrototypeOnSelectTest | evaQL/build/rule_query_optimizer.py:72-77 | on the select test's tree the prototype pushes a projection of v1.3 and v1.4 only, without the condition's column v1.7 |
| Findings.RuleKeepsConditionColumn | src/query_optimizer/tests/t_rule_query_optimizer.py:152 | every column of the filter survives in the projection the rule pushes, and on the select test's tree v1.7 is kept below the filter |

## Left out

- Join elimination and constant folding of predicates are left out. The repository has no behaviour for them: `join_elimination` is empty, and `simply_predicate` returns its argument (modelled as `Prototype.SimplifyPredicate`).
- Reordering predicates so that the most selective runs first (`selective_first`, evaQL/build/rule_query_optimizer.py:80-82) is left out: its body is `pass`, so there is no ordering to model.
- The prototype's `predicate_pushdown` and `projection_pushdown_join` are left out: they are `pass` bodies whose sketches are commented out. The tested rules stand in for them.
- The double-join projection pushdown test is left out: it is commented out and marked TODO. Nested joins under projection pushdown are not pinned down by any assertion, so no property is claimed for them.
- The parser-to-optimizer pipeline test is left out. It needs the parser and the statement-to-plan converter, which are not part of this model. Its one-table plan has no filter over a join and no projection over a join or a filter; `Properties.RunPlain` states the analogous fact for scans and projections.
- Video metadata, loaders and expression objects are left out. A video is an alias string. A predicate is an opaque value that the rules carry but never read; the rules read only the column lists.
- Parent links and in-place mutation are left out. The plan is an immutable tree; "x.parent == y" becomes "x is a child of y". Object identity, aliasing of the prototype's attribute list, and a node appearing twice are not modelled.
- Videos declared on projections and joins are left out. No rule reads them, and the model computes a branch's tables from its scans.
- The prototype node fields other than a projection's attributes and a condition's predicate are left out, since those classes are not part of this model. Any node other than a projection, a condition or a cross product is `POther`.
- Idempotence of projection pushdown across two runs is not stated.
- Rules.PushPredicate: a plan whose root is itself a filter over a join is returned with that filter still on top, because only child slots are rewritten and the root has no parent slot to hand to the join. Every test puts a projection above the filter, so the tests do not decide this case.
- The rules to apply are a set and are tried in the fixed order above, so the order and repetitions of the rule list a caller passes are ignored. Every test lists its rules in that same order (t_rule_query_optimizer.py lines 47, 93, 137, 189, 257, 331).
- Prototype.ChildField: every prototype node is assumed to have a `children` field holding a list or one node, and a leaf holds the empty list. If the field is `None` or missing, the prototype raises an error at evaQL/build/rule_query_optimizer.py:17 or goes on to visit `None`. That failure is not modelled.
- The engine's rule order, the placement of a branch projection relative to a filter branch, and the videos of a pushed filter are reconstructions that fit every scenario test, because the tested module is not part of this model.
- Verbose printing and the test file's driver are left out.

## Findings

| source | as written | input that shows it | evidently intended | confidence | as-written member | corrected member |
|---|---|---|---|---|---|---|
| evaQL/build/rule_query_optimizer.py:75-76 | the projection pushed below a condition copies only the outer projection's attributes | a projection of v1.3 and v1.4 over a condition on v1.7 over the v1 table: the pushed projection drops v1.7, which the condition above it reads | the pushed projection also keeps the condition's columns, as t_rule_query_optimizer.py:152 expects | not executed; high | Findings.PrototypeOnSelectTest | Findings.RuleKeepsConditionColumn |
