/** The budgeted recursive analyser over an in-memory evidence index, for any child planner and any
    query handlers. The functions are the specification, threaded through a state value; class
    RlmController is the code over its mutable counters, list and index. */
module RecursiveAnalysis {
  import opened Basics

  datatype Budget = Budget(depth: nat, queries: nat, chars: nat, findings: nat)

  /** digest is the identity used for cycle detection. */
  datatype Query = Query(digest: nat, bucket: Option<nat>)
  datatype Record = Record(bucket: nat, size: nat)
  datatype Status = Ok | Empty | ReviewOnly | BudgetExhausted
  datatype Draft = Draft(id: nat, status: Status)
  datatype Finding = Finding(draft: Draft, predecessors: seq<nat>)
  datatype Synthetic = DepthExhausted | QueriesExhausted | CycleDetected

  /** One executed query, for history: what it was granted, what it read and what was made of it. */
  datatype Execution = Execution(query: Query, depth: nat, ancestors: set<nat>, slice: nat, read: seq<Record>,
                                 draft: Draft)

  /** handle sees the capped records and the findings of the index; synthesise makes the findings that need no query. */
  datatype Rules = Rules(budget: Budget, events: seq<Record>,
                         handle: (Query, seq<Record>, map<nat, Finding>) -> Draft,
                         plan: (Query, Draft) -> seq<Query>,
                         synthesise: (Query, Synthetic) -> Draft)

  datatype Progress = Progress(queries: nat, chars: nat, findings: nat, descendants: seq<Finding>,
                         index: map<nat, Finding>, executed: seq<Execution>)

  // ---------------------------------------------------------------- the records one query reads

  function Size(records: seq<Record>): nat {
    if records == [] then 0 else records[0].size + Size(records[1..])
  }

  lemma {:induction false} SizeAppend(a: seq<Record>, b: seq<Record>)
    ensures Size(a + b) == Size(a) + Size(b)
  {
    if a == [] {
      assert a + b == b;
    } else {
      assert (a + b)[1..] == a[1..] + b;
      SizeAppend(a[1..], b);
    }
  }

  function EventsFor(events: seq<Record>, bucket: Option<nat>): seq<Record> {
    if events == [] then []
    else (if bucket.None? || events[0].bucket == bucket.value then [events[0]] else []) + EventsFor(events[1..], bucket)
  }

  /** The records of the bucket, or all of them, each as often and in the order as in the evidence. */
  lemma {:induction false} EventsForSelects(events: seq<Record>, bucket: Option<nat>)
    ensures forall x :: multiset(EventsFor(events, bucket))[x]
                        == if bucket.None? || bucket == Some(x.bucket) then multiset(events)[x] else 0
    ensures bucket.None? ==> EventsFor(events, bucket) == events
  {
    if events != [] {
      EventsForSelects(events[1..], bucket);
      assert events == [events[0]] + events[1..];
    }
  }

  function Fitting(records: seq<Record>, room: nat): seq<Record> {
    if records == [] || records[0].size > room then []
    else [records[0]] + Fitting(records[1..], room - records[0].size)
  }

  /** The longest prefix that fits. */
  function Capped(records: seq<Record>, most: nat): seq<Record> {
    if most == 0 then [] else Fitting(records, most)
  }

  lemma {:induction false} FittingIsLongest(records: seq<Record>, room: nat)
    ensures var fit := Fitting(records, room);
            fit <= records && Size(fit) <= room && (|fit| < |records| ==> Size(fit) + records[|fit|].size > room)
  {
    if records != [] && records[0].size <= room {
      FittingIsLongest(records[1..], room - records[0].size);
    }
  }

  lemma CappedIsLongest(records: seq<Record>, most: nat)
    ensures var fit := Capped(records, most);
            fit <= records && Size(fit) <= most
                && (most > 0 && |fit| < |records| ==> Size(fit) + records[|fit|].size > most)
  {
    FittingIsLongest(records, most);
  }

  lemma {:induction false} FittingStops(records: seq<Record>, room: nat, n: nat)
    requires n <= |records| && Size(records[..n]) <= room
    requires n < |records| ==> Size(records[..n]) + records[n].size > room
    ensures Fitting(records, room) == records[..n]
  {
    if n > 0 {
      assert records[..n][1..] == records[1..][..n - 1];
      FittingStops(records[1..], room - records[0].size, n - 1);
    }
  }

  /** _cap_records. */
  method CapRecords(records: seq<Record>, most: int) returns (selected: seq<Record>)
    ensures selected == Capped(records, if most < 0 then 0 else most)
  {
    selected := [];
    if most <= 0 {
      return;
    }
    var used := 0;
    for i := 0 to |records|
      invariant selected == records[..i] && used == Size(selected) <= most
    {
      var size := records[i].size;
      if (selected != [] && used + size > most) || size > most {
        FittingStops(records, most, i);
        return;
      }
      SizeAppend(selected, [records[i]]);
      selected := selected + [records[i]];
      used := used + size;
    }
    FittingStops(records, most, |records|);
  }

  // ---------------------------------------------------------------- the recursion

  function Slice(b: Budget, s: Progress): nat
    requires s.queries < b.queries
  {
    (if s.chars <= b.chars then b.chars - s.chars else 0) / (b.queries - s.queries)
  }

  /** What has happened once a query was executed, before its children. */
  function Executed(r: Rules, s: Progress, query: Query, depth: nat, ancestors: set<nat>): (Progress, Draft)
    requires s.queries < r.budget.queries
  {
    var slice := Slice(r.budget, s);
    var read := Capped(EventsFor(r.events, query.bucket), slice);
    var draft := r.handle(query, read, s.index);
    (s.(queries := s.queries + 1, chars := s.chars + slice, findings := s.findings + 1,
        executed := s.executed + [Execution(query, depth, ancestors, slice, read, draft)]),
     draft)
  }

  function Ids(findings: seq<Finding>): seq<nat> {
    seq(|findings|, i requires 0 <= i < |findings| => findings[i].draft.id)
  }

  predicate Listed(findings: seq<Finding>, id: nat) {
    exists i :: 0 <= i < |findings| && findings[i].draft.id == id
  }

  /** Appends the findings whose id is not there yet. */
  function AppendNew(listed: seq<Finding>, children: seq<Finding>): seq<Finding>
    decreases |children|
  {
    if children == [] then listed
    else AppendNew(if Listed(listed, children[0].draft.id) then listed else listed + [children[0]], children[1..])
  }

  function Close(s: Progress, draft: Draft, children: seq<Finding>): (Progress, Finding) {
    var finding := Finding(draft, Ids(children));
    (s.(index := s.index[draft.id := finding], descendants := AppendNew(s.descendants, children)), finding)
  }

  function Analyzed(r: Rules, s: Progress, query: Query, depth: nat, ancestors: set<nat>): (Progress, Option<Finding>)
    requires depth <= r.budget.depth + 1
    decreases r.budget.depth + 1 - depth, 1, 0
  {
    if s.findings >= r.budget.findings then (s, None)
    else if depth > r.budget.depth then
      (s.(findings := s.findings + 1), Some(Finding(r.synthesise(query, DepthExhausted), [])))
    else if query.digest in ancestors then
      (s.(findings := s.findings + 1), Some(Finding(r.synthesise(query, CycleDetected), [])))
    else if s.queries >= r.budget.queries then
      (s.(findings := s.findings + 1), Some(Finding(r.synthesise(query, QueriesExhausted), [])))
    else
      var (t, draft) := Executed(r, s, query, depth, ancestors);
      var (u, children) := Children(r, t, r.plan(query, draft), depth, ancestors + {query.digest});
      var (v, finding) := Close(u, draft, children);
      (v, Some(finding))
  }

  /** The children in turn, until a budget closes. */
  function Children(r: Rules, s: Progress, todo: seq<Query>, depth: nat, ancestors: set<nat>): (Progress, seq<Finding>)
    requires depth <= r.budget.depth
    decreases r.budget.depth + 1 - depth, 0, |todo|
  {
    if todo == [] || s.findings >= r.budget.findings || s.queries >= r.budget.queries then (s, []) else
      var (t, child) := Analyzed(r, s, todo[0], depth + 1, ancestors);
      var (u, rest) := Children(r, t, todo[1..], depth, ancestors);
      (u, (if child.Some? then [child.value] else []) + rest)
  }

  /** The children from one on, once it was analysed or a budget closed. */
  lemma ChildrenFrom(r: Rules, s: Progress, todo: seq<Query>, i: nat, depth: nat, ancestors: set<nat>)
    requires i < |todo| && depth <= r.budget.depth
    ensures Children(r, s, todo[i..], depth, ancestors)
         == (if s.findings >= r.budget.findings || s.queries >= r.budget.queries then (s, []) else
               var (t, child) := Analyzed(r, s, todo[i], depth + 1, ancestors);
               var (u, rest) := Children(r, t, todo[i + 1..], depth, ancestors);
               (u, (if child.Some? then [child.value] else []) + rest))
  {
    hide Analyzed;
    assert todo[i..][1..] == todo[i + 1..];
  }

  lemma NoChildren(r: Rules, s: Progress, depth: nat, ancestors: set<nat>)
    requires depth <= r.budget.depth
    ensures Children(r, s, [], depth, ancestors) == (s, [])
  {
  }

  function Opening(index: map<nat, Finding>): Progress {
    Progress(0, 0, 0, [], index, [])
  }

  /** analyze: the root's finding first, then its descendants. */
  function Analysis(r: Rules, index: map<nat, Finding>, query: Query): (Progress, seq<Finding>) {
    var (s, root) := Analyzed(r, Opening(index), query, 0, {});
    (s, (if root.Some? then [root.value] else []) + s.descendants)
  }

  // ---------------------------------------------------------------- evidence slices

  /** What is left of B characters after i of N equal reservations. */
  function Left(b: nat, n: nat, i: nat): nat
    requires i <= n && n > 0
  {
    b / n * (n - i) + Min(b % n, n - i)
  }

  /** The i-th reservation: the quotient, and one more for the last remainder-many queries. */
  function Share(b: nat, n: nat, i: nat): nat
    requires i < n
  {
    b / n + if b % n >= n - i then 1 else 0
  }

  /** Dividing what is left among the queries that are left gives each a floor or ceiling share. */
  lemma SharesAreEven(b: nat, n: nat, i: nat)
    requires i < n
    ensures Left(b, n, 0) == b && Left(b, n, n) == 0
    ensures Left(b, n, i) / (n - i) == Share(b, n, i)
    ensures Left(b, n, i + 1) == Left(b, n, i) - Share(b, n, i)
  {
    var q, r, m := b / n, b % n, n - i;
    assert q * (m - 1) == q * m - q;
    if r >= m {
      assert (q + 1) * m == q * m + m;
      DivisionIsUnique(Left(b, n, i), m, q + 1, 0);
    } else {
      DivisionIsUnique(Left(b, n, i), m, q, r);
    }
  }

  ghost function Granted(executed: seq<Execution>): nat {
    if executed == [] then 0 else Granted(executed[..|executed| - 1]) + executed[|executed| - 1].slice
  }

  ghost function Consumed(executed: seq<Execution>): nat {
    if executed == [] then 0 else Consumed(executed[..|executed| - 1]) + Size(executed[|executed| - 1].read)
  }

  /** Every query read the longest prefix of its records that fits its share. */
  ghost predicate Fair(r: Rules, executed: seq<Execution>) {
    && |executed| <= r.budget.queries
    && forall i :: 0 <= i < |executed| ==>
         && executed[i].slice == Share(r.budget.chars, r.budget.queries, i)
         && executed[i].read == Capped(EventsFor(r.events, executed[i].query.bucket), executed[i].slice)
         && executed[i].depth <= r.budget.depth && executed[i].query.digest !in executed[i].ancestors
  }

  lemma {:induction false} SharesAddUp(r: Rules, executed: seq<Execution>)
    requires Fair(r, executed) && r.budget.queries > 0
    ensures Granted(executed) == r.budget.chars - Left(r.budget.chars, r.budget.queries, |executed|)
    ensures Consumed(executed) <= Granted(executed)
  {
    hide Left, Share;
    if executed == [] {
      SharesAreEven(r.budget.chars, r.budget.queries, 0);
    } else {
      var n := |executed| - 1;
      SharesAddUp(r, executed[..n]);
      SharesAreEven(r.budget.chars, r.budget.queries, n);
      CappedIsLongest(EventsFor(r.events, executed[n].query.bucket), executed[n].slice);
    }
  }

  // ---------------------------------------------------------------- what the recursion keeps

  ghost predicate Known(listed: seq<Finding>, f: Finding) {
    forall p :: p in f.predecessors ==> Listed(listed, p)
  }

  /** Ids are distinct and predecessors come earlier, so the references form a DAG. */
  ghost predicate Ordered(listed: seq<Finding>) {
    && (forall i, j :: 0 <= i < j < |listed| ==> listed[i].draft.id != listed[j].draft.id)
    && (forall i :: 0 <= i < |listed| ==> Known(listed[..i], listed[i]))
  }

  ghost predicate Healthy(r: Rules, s: Progress) {
    && s.queries == |s.executed| && Fair(r, s.executed)
    && s.findings <= r.budget.findings
    && s.chars == (if r.budget.queries == 0 then 0
                   else r.budget.chars - Left(r.budget.chars, r.budget.queries, s.queries))
    && Ordered(s.descendants)
  }

  /** From s to t, n findings were produced that are not listed yet; each finding was paid for. */
  ghost predicate Paid(s: Progress, t: Progress, n: nat) {
    && s.descendants <= t.descendants
    && |t.descendants| - |s.descendants| + n <= t.findings - s.findings
  }

  lemma KnownLater(listed: seq<Finding>, later: seq<Finding>, f: Finding)
    requires Known(listed, f) && listed <= later
    ensures Known(later, f)
  {
    forall p | p in f.predecessors
      ensures Listed(later, p)
    {
      var i :| 0 <= i < |listed| && listed[i].draft.id == p;
      assert later[i].draft.id == p;
    }
  }

  lemma ListedLater(listed: seq<Finding>, later: seq<Finding>, id: nat)
    requires Listed(listed, id) && listed <= later
    ensures Listed(later, id)
  {
    var i :| 0 <= i < |listed| && listed[i].draft.id == id;
    assert later[i].draft.id == id;
  }

  lemma OrderedAppend(listed: seq<Finding>, f: Finding)
    requires Ordered(listed) && Known(listed, f) && !Listed(listed, f.draft.id)
    ensures Ordered(listed + [f]) && Listed(listed + [f], f.draft.id)
  {
    var all := listed + [f];
    forall i | 0 <= i < |all|
      ensures Known(all[..i], all[i])
    {
      assert all[..i] == listed[..i];
      assert listed[..|listed|] == listed;
    }
    assert all[|listed|].draft.id == f.draft.id;
  }

  lemma {:induction false} AppendNewKeepsOrder(listed: seq<Finding>, children: seq<Finding>)
    requires Ordered(listed) && forall c :: c in children ==> Known(listed, c)
    ensures var all := AppendNew(listed, children);
            && listed <= all && |all| <= |listed| + |children| && Ordered(all)
            && forall c :: c in children ==> Listed(all, c.draft.id)
    decreases |children|
  {
    if children != [] {
      hide Ordered, Known, Listed;
      var first := children[0];
      var next := if Listed(listed, first.draft.id) then listed else listed + [first];
      if next != listed {
        OrderedAppend(listed, first);
      }
      forall c | c in children[1..]
        ensures Known(next, c)
      {
        KnownLater(listed, next, c);
      }
      AppendNewKeepsOrder(next, children[1..]);
      ListedLater(next, AppendNew(next, children[1..]), first.draft.id);
    }
  }

  lemma ExecutedHealthy(r: Rules, s: Progress, query: Query, depth: nat, ancestors: set<nat>)
    requires Healthy(r, s) && s.queries < r.budget.queries && s.findings < r.budget.findings
    requires depth <= r.budget.depth && query.digest !in ancestors
    ensures var t := Executed(r, s, query, depth, ancestors).0;
            Healthy(r, t) && Paid(s, t, 1) && t.descendants == s.descendants
  {
    hide Left, Share, Ordered, Capped, EventsFor;
    SharesAreEven(r.budget.chars, r.budget.queries, s.queries);
    LeftIsLess(r.budget.chars, r.budget.queries, s.queries);
  }

  lemma LeftIsLess(b: nat, n: nat, i: nat)
    requires i <= n && n > 0
    ensures 0 <= Left(b, n, i) <= b
  {
    assert b / n * (n - i) >= 0;
    assert b / n * n == b / n * (n - i) + b / n * i;
    assert b / n * i >= 0;
  }

  lemma IdsOf(findings: seq<Finding>, id: nat)
    requires id in Ids(findings)
    ensures exists f :: f in findings && f.draft.id == id
  {
    var i :| 0 <= i < |findings| && Ids(findings)[i] == id;
    assert findings[i] in findings;
  }

  lemma CloseHealthy(r: Rules, s: Progress, u: Progress, draft: Draft, children: seq<Finding>)
    requires Healthy(r, u) && Paid(s, u, |children| + 1) && forall c :: c in children ==> Known(u.descendants, c)
    ensures var (v, finding) := Close(u, draft, children);
            Healthy(r, v) && Paid(s, v, 1) && Known(v.descendants, finding)
  {
    hide Fair, Ordered, Left;
    AppendNewKeepsOrder(u.descendants, children);
    var (v, finding) := Close(u, draft, children);
    forall p | p in finding.predecessors
      ensures Listed(v.descendants, p)
    {
      IdsOf(children, p);
    }
  }

  lemma {:induction false} AnalyzedHealthy(r: Rules, s: Progress, query: Query, depth: nat, ancestors: set<nat>)
    requires depth <= r.budget.depth + 1 && Healthy(r, s)
    ensures var (t, f) := Analyzed(r, s, query, depth, ancestors);
            && Healthy(r, t) && Paid(s, t, if f.Some? then 1 else 0)
            && (f.Some? ==> Known(t.descendants, f.value)) && (f.None? <==> s.findings >= r.budget.findings)
    decreases r.budget.depth + 1 - depth, 1, 0
  {
    hide Fair, Ordered, Left, Executed, Close;
    if s.findings < r.budget.findings && depth <= r.budget.depth && query.digest !in ancestors
        && s.queries < r.budget.queries {
      hide Healthy, Paid;
      ExecutedHealthy(r, s, query, depth, ancestors);
      var (t, draft) := Executed(r, s, query, depth, ancestors);
      ChildrenHealthy(r, t, r.plan(query, draft), depth, ancestors + {query.digest});
      var (u, children) := Children(r, t, r.plan(query, draft), depth, ancestors + {query.digest});
      PaidTogether(s, t, u, 1, |children|);
      CloseHealthy(r, s, u, draft, children);
    }
  }

  lemma PaidTogether(s: Progress, t: Progress, u: Progress, m: nat, n: nat)
    requires Paid(s, t, m) && Paid(t, u, n)
    ensures Paid(s, u, m + n)
  {
  }

  lemma {:induction false} ChildrenHealthy(r: Rules, s: Progress, todo: seq<Query>, depth: nat, ancestors: set<nat>)
    requires depth <= r.budget.depth && Healthy(r, s)
    ensures var (t, children) := Children(r, s, todo, depth, ancestors);
            && Healthy(r, t) && Paid(s, t, |children|)
            && forall c :: c in children ==> Known(t.descendants, c)
    decreases r.budget.depth + 1 - depth, 0, |todo|
  {
    hide Healthy, Known;
    if todo != [] && s.findings < r.budget.findings && s.queries < r.budget.queries {
      AnalyzedHealthy(r, s, todo[0], depth + 1, ancestors);
      var (t, child) := Analyzed(r, s, todo[0], depth + 1, ancestors);
      ChildrenHealthy(r, t, todo[1..], depth, ancestors);
      var (u, rest) := Children(r, t, todo[1..], depth, ancestors);
      PaidTogether(s, t, u, 1, |rest|);
      KnownLater(t.descendants, u.descendants, child.value);
    }
  }

  lemma HealthyAnalysis(r: Rules, index: map<nat, Finding>, query: Query)
    ensures var (s, root) := Analyzed(r, Opening(index), query, 0, {});
            && Healthy(r, s) && (root.None? <==> r.budget.findings == 0) && (root.None? ==> s == Opening(index))
            && |s.descendants| + (if root.Some? then 1 else 0) <= s.findings
            && (root.Some? ==> Known(s.descendants, root.value))
  {
    hide Left, Share;
    if r.budget.queries > 0 {
      SharesAreEven(r.budget.chars, r.budget.queries, 0);
    }
    AnalyzedHealthy(r, Opening(index), query, 0, {});
  }

  /** For every planner and every handler: the recursion ends; executed queries, their depth and the returned findings
      stay within their caps; and what is read is within the character cap, each query within its even share, where
      the shares sum to exactly the cap once every query is used. */
  lemma AnalysisWithinBudget(r: Rules, index: map<nat, Finding>, query: Query)
    ensures var (s, result) := Analysis(r, index, query);
            && |result| <= s.findings <= r.budget.findings && (result == [] <==> r.budget.findings == 0)
            && |s.executed| == s.queries && Fair(r, s.executed)
            && Consumed(s.executed) <= Granted(s.executed) <= r.budget.chars
            && (s.queries == r.budget.queries > 0 ==> Granted(s.executed) == r.budget.chars)
  {
    hide Analyzed, Left, Share, Ordered, Known;
    HealthyAnalysis(r, index, query);
    var s, root := Analysis(r, index, query).0, Analyzed(r, Opening(index), query, 0, {}).1;
    assert root.Some? ==> |([root.value] + s.descendants)| == 1 + |s.descendants|;
    if r.budget.queries > 0 {
      SharesAddUp(r, s.executed);
      LeftIsLess(r.budget.chars, r.budget.queries, s.queries);
      SharesAreEven(r.budget.chars, r.budget.queries, 0);
    }
  }

  /** Every predecessor of a returned finding is returned too, a descendant's always before it: the findings after
      the root are a DAG in topological order, without a repeated id. */
  lemma AnalysisIsClosed(r: Rules, index: map<nat, Finding>, query: Query)
    requires r.budget.findings > 0
    ensures var result := Analysis(r, index, query).1;
            && result != [] && Ordered(result[1..]) && Known(result[1..], result[0])
            && forall f :: f in result ==> Known(result, f)
  {
    hide Analyzed, Fair, Ordered, Known;
    HealthyAnalysis(r, index, query);
    var (s, root) := Analyzed(r, Opening(index), query, 0, {});
    assert Analysis(r, index, query).1[1..] == s.descendants;
    ResultIsClosed(root.value, s.descendants);
  }

  lemma ResultIsClosed(root: Finding, listed: seq<Finding>)
    requires Ordered(listed) && Known(listed, root)
    ensures forall f :: f in [root] + listed ==> Known([root] + listed, f)
  {
    var all := [root] + listed;
    forall f, p | f in all && p in f.predecessors
      ensures Listed(all, p)
    {
      if f != root {
        var i :| 0 <= i < |listed| && listed[i] == f;
        ListedLater(listed[..i], listed, p);
      }
      var j :| 0 <= j < |listed| && listed[j].draft.id == p;
      assert all[j + 1].draft.id == p;
    }
  }

  // ---------------------------------------------------------------- what is asked

  /** How an analysis unfolds: a query that was executed with what came of the queries it planned, or a query that was
      answered without execution. */
  datatype Tree = Asked(execution: Execution, parts: seq<Tree>) | Assumed(query: Query, why: Synthetic, draft: Draft)

  ghost function DraftOf(t: Tree): Draft {
    if t.Asked? then t.execution.draft else t.draft
  }

  /** Its predecessors are the findings of the parts, in order. */
  ghost function FindingOf(t: Tree): Finding {
    Finding(DraftOf(t),
            if t.Assumed? then [] else seq(|t.parts|, i requires 0 <= i < |t.parts| => DraftOf(t.parts[i]).id))
  }

  ghost function FindingsOf(ts: seq<Tree>): seq<Finding> {
    seq(|ts|, i requires 0 <= i < |ts| => FindingOf(ts[i]))
  }

  /** The executions, each before those of its parts. */
  ghost function Preorder(t: Tree): seq<Execution> {
    if t.Asked? then [t.execution] + PreorderAll(t.parts) else []
  }

  ghost function PreorderAll(ts: seq<Tree>): seq<Execution> {
    if ts == [] then [] else Preorder(ts[0]) + PreorderAll(ts[1..])
  }

  ghost function Count(t: Tree): nat {
    1 + if t.Asked? then CountAll(t.parts) else 0
  }

  ghost function CountAll(ts: seq<Tree>): nat {
    if ts == [] then 0 else Count(ts[0]) + CountAll(ts[1..])
  }

  /** The findings below, those of a part's own parts before the parts. */
  ghost function Below(t: Tree): seq<Finding> {
    if t.Asked? then BelowAll(t.parts) + FindingsOf(t.parts) else []
  }

  ghost function BelowAll(ts: seq<Tree>): seq<Finding> {
    if ts == [] then [] else Below(ts[0]) + BelowAll(ts[1..])
  }

  /** The index once the analysis of t is over: an executed query's finding is added after those of its parts. */
  ghost function Learned(t: Tree, index: map<nat, Finding>): map<nat, Finding> {
    if t.Asked? then LearnedAll(t.parts, index)[t.execution.draft.id := FindingOf(t)] else index
  }

  ghost function LearnedAll(ts: seq<Tree>, index: map<nat, Finding>): map<nat, Finding> {
    if ts == [] then index else LearnedAll(ts[1..], Learned(ts[0], index))
  }

  /** Nothing that was planned is missing anywhere. */
  ghost predicate Complete(r: Rules, t: Tree) {
    t.Asked? ==>
      && |t.parts| == |r.plan(t.execution.query, t.execution.draft)|
      && forall i :: 0 <= i < |t.parts| ==> Complete(r, t.parts[i])
  }

  /** t is what became of the query at this depth, with this index. Below the depth limit and off its own ancestry a
      query is executed, and its parts are what became, in order, of the queries it planned, one level deeper and
      with the query among the ancestors. Only the last part can have been cut short. */
  ghost predicate Derives(r: Rules, t: Tree, query: Query, depth: nat, ancestors: set<nat>, index: map<nat, Finding>)
    decreases t
  {
    match t
    case Assumed(q, why, draft) =>
      && q == query && draft == r.synthesise(query, why)
      && (why == DepthExhausted <==> depth > r.budget.depth)
      && (why == CycleDetected <==> depth <= r.budget.depth && query.digest in ancestors)
    case Asked(e, parts) =>
      && e.query == query && e.depth == depth <= r.budget.depth && e.ancestors == ancestors
      && query.digest !in ancestors && e.draft == r.handle(query, e.read, index)
      && var planned := r.plan(query, e.draft);
      && |parts| <= |planned|
      && DeriveAll(r, parts, planned[..|parts|], depth + 1, ancestors + {query.digest}, index)
      && (forall i :: 0 <= i < |parts| ==> !(parts[i].Assumed? && parts[i].why == QueriesExhausted))
      && (forall i :: 0 <= i < |parts| - 1 ==> Complete(r, parts[i]))
  }

  ghost predicate DeriveAll(r: Rules, ts: seq<Tree>, queries: seq<Query>, depth: nat, ancestors: set<nat>,
                            index: map<nat, Finding>)
    decreases ts
  {
    && |ts| == |queries|
    && (ts != [] ==> && Derives(r, ts[0], queries[0], depth, ancestors, index)
                     && DeriveAll(r, ts[1..], queries[1..], depth, ancestors, Learned(ts[0], index)))
  }

  ghost predicate Closed(r: Rules, s: Progress) {
    s.queries >= r.budget.queries || s.findings >= r.budget.findings
  }

  /** From s to v exactly these analyses happened. */
  ghost predicate Grew(s: Progress, v: Progress, ts: seq<Tree>) {
    && v.index == LearnedAll(ts, s.index) && v.executed == s.executed + PreorderAll(ts)
    && v.queries == s.queries + |PreorderAll(ts)| && v.findings == s.findings + CountAll(ts)
    && v.descendants == AppendNew(s.descendants, BelowAll(ts))
  }

  lemma One(t: Tree, index: map<nat, Finding>)
    ensures PreorderAll([t]) == Preorder(t) && CountAll([t]) == Count(t) && BelowAll([t]) == Below(t)
    ensures LearnedAll([t], index) == Learned(t, index)
  {
    assert [t][1..] == [];
  }

  lemma {:induction false} AppendNewTwice(listed: seq<Finding>, a: seq<Finding>, b: seq<Finding>)
    ensures AppendNew(listed, a + b) == AppendNew(AppendNew(listed, a), b)
    decreases |a|
  {
    if a == [] {
      assert a + b == b;
    } else {
      assert (a + b)[1..] == a[1..] + b;
      AppendNewTwice(if Listed(listed, a[0].draft.id) then listed else listed + [a[0]], a[1..], b);
    }
  }

  lemma GrewMore(s: Progress, u: Progress, v: Progress, t: Tree, rest: seq<Tree>)
    requires Grew(s, u, [t]) && Grew(u, v, rest)
    ensures Grew(s, v, [t] + rest)
  {
    hide Preorder, Count, Below, Learned, AppendNew;
    One(t, s.index);
    assert ([t] + rest)[1..] == rest;
    AppendNewTwice(s.descendants, Below(t), BelowAll(rest));
  }

  lemma AssumedDerives(r: Rules, s: Progress, query: Query, depth: nat, ancestors: set<nat>, why: Synthetic)
    returns (t: Tree)
    requires (why == DepthExhausted <==> depth > r.budget.depth)
               && (why == CycleDetected <==> depth <= r.budget.depth && query.digest in ancestors)
    ensures t == Assumed(query, why, r.synthesise(query, why))
    ensures Derives(r, t, query, depth, ancestors, s.index) && Complete(r, t)
    ensures FindingOf(t) == Finding(r.synthesise(query, why), []) && Grew(s, s.(findings := s.findings + 1), [t])
  {
    t := Assumed(query, why, r.synthesise(query, why));
    One(t, s.index);
  }

  lemma IdsAreDrafts(parts: seq<Tree>)
    ensures Ids(FindingsOf(parts)) == seq(|parts|, i requires 0 <= i < |parts| => DraftOf(parts[i]).id)
  {
  }

  /** An executed query with its parts. */
  lemma AskedGrows(s: Progress, e: Execution, u: Progress, parts: seq<Tree>)
    requires Grew(s.(queries := s.queries + 1, findings := s.findings + 1, chars := s.chars + e.slice,
                     executed := s.executed + [e]), u, parts)
    ensures var t := Asked(e, parts);
            var (v, f) := Close(u, e.draft, FindingsOf(parts));
            Grew(s, v, [t]) && f == FindingOf(t) && v.queries == u.queries && v.findings == u.findings
  {
    hide AppendNew;
    var t := Asked(e, parts);
    One(t, s.index);
    IdsAreDrafts(parts);
    AppendNewTwice(s.descendants, BelowAll(parts), FindingsOf(parts));
  }

  lemma {:induction false} AnalyzedDerives(r: Rules, s: Progress, query: Query, depth: nat, ancestors: set<nat>)
    returns (t: Tree)
    requires depth <= r.budget.depth + 1 && s.findings < r.budget.findings
    ensures var (v, f) := Analyzed(r, s, query, depth, ancestors);
            && f == Some(FindingOf(t)) && Grew(s, v, [t]) && (!Complete(r, t) ==> Closed(r, v))
            && Derives(r, t, query, depth, ancestors, s.index)
            && (t.Assumed? && t.why == QueriesExhausted ==> s.queries >= r.budget.queries)
    decreases r.budget.depth + 1 - depth, 1, 0
  {
    hide Grew, Close;
    if depth > r.budget.depth {
      t := AssumedDerives(r, s, query, depth, ancestors, DepthExhausted);
    } else if query.digest in ancestors {
      t := AssumedDerives(r, s, query, depth, ancestors, CycleDetected);
    } else if s.queries >= r.budget.queries {
      t := AssumedDerives(r, s, query, depth, ancestors, QueriesExhausted);
    } else {
      var (u, draft) := Executed(r, s, query, depth, ancestors);
      var e := u.executed[|s.executed|];
      var parts := ChildrenDerive(r, u, r.plan(query, draft), depth, ancestors + {query.digest});
      var (w, children) := Children(r, u, r.plan(query, draft), depth, ancestors + {query.digest});
      AskedGrows(s, e, w, parts);
      t := Asked(e, parts);
    }
  }

  lemma {:induction false} ChildrenDerive(r: Rules, s: Progress, todo: seq<Query>, depth: nat, ancestors: set<nat>)
    returns (ts: seq<Tree>)
    requires depth <= r.budget.depth
    ensures var (v, children) := Children(r, s, todo, depth, ancestors);
            && |ts| <= |todo| && children == FindingsOf(ts) && Grew(s, v, ts)
            && DeriveAll(r, ts, todo[..|ts|], depth + 1, ancestors, s.index)
            && (forall i :: 0 <= i < |ts| ==> !(ts[i].Assumed? && ts[i].why == QueriesExhausted))
            && (forall i :: 0 <= i < |ts| - 1 ==> Complete(r, ts[i]))
            && ((|ts| < |todo| || exists i :: 0 <= i < |ts| && !Complete(r, ts[i])) ==> Closed(r, v))
    decreases r.budget.depth + 1 - depth, 0, |todo|
  {
    hide Derives, Complete, FindingOf;
    ts := [];
    if todo != [] && s.findings < r.budget.findings && s.queries < r.budget.queries {
      hide Grew;
      var t := AnalyzedDerives(r, s, todo[0], depth + 1, ancestors);
      var (u, child) := Analyzed(r, s, todo[0], depth + 1, ancestors);
      var rest := ChildrenDerive(r, u, todo[1..], depth, ancestors);
      ts := [t] + rest;
      var v := Children(r, u, todo[1..], depth, ancestors).0;
      GrewMore(s, u, v, t, rest);
      assert ts[1..] == rest && todo[..|ts|][1..] == todo[1..][..|rest|];
      LearnedOne(s, u, t);
      if !Complete(r, t) {
        assert rest == [];
      }
    }
  }

  lemma LearnedOne(s: Progress, u: Progress, t: Tree)
    requires Grew(s, u, [t])
    ensures u.index == Learned(t, s.index)
  {
    One(t, s.index);
  }

  /** What an analysis amounts to, without its recursion: everything planned was asked, in order, one level deeper, and
      nothing else; unless a budget is used up, and then it is the beginning of that. The result is the root's
      finding and, once each, the findings below it. */
  ghost predicate Unfolds(r: Rules, index: map<nat, Finding>, query: Query, t: Tree, s: Progress,
                          result: seq<Finding>)
  {
    && Derives(r, t, query, 0, {}, index)
    && s.executed == Preorder(t) && s.queries == |Preorder(t)| && s.findings == Count(t) && s.index == Learned(t, index)
    && (!Complete(r, t) ==> |Preorder(t)| >= r.budget.queries || Count(t) >= r.budget.findings)
    && (t.Assumed? && t.why == QueriesExhausted ==> r.budget.queries == 0)
    && result != [] && result[0] == FindingOf(t) && FirstOfEach(Below(t), result[1..])
  }

  /** Each id's first finding, in the order of first findings. */
  ghost predicate FirstOfEach(all: seq<Finding>, kept: seq<Finding>) {
    if all == [] then kept == [] else
      var before, last := all[..|all| - 1], all[|all| - 1];
      if Listed(before, last.draft.id) then FirstOfEach(before, kept)
      else kept != [] && kept[|kept| - 1] == last && FirstOfEach(before, kept[..|kept| - 1])
  }

  lemma {:induction false} AppendNewIsFirstOfEach(all: seq<Finding>)
    ensures FirstOfEach(all, AppendNew([], all))
    ensures forall id :: Listed(all, id) <==> Listed(AppendNew([], all), id)
  {
    if all != [] {
      var before, last := all[..|all| - 1], all[|all| - 1];
      AppendNewIsFirstOfEach(before);
      assert all == before + [last];
      AppendNewTwice([], before, [last]);
      var kept := AppendNew([], before);
      assert [last][1..] == [];
      ListedOneMore(before, last);
      ListedOneMore(kept, last);
    }
  }

  lemma ListedOneMore(listed: seq<Finding>, f: Finding)
    ensures forall id :: Listed(listed + [f], id) <==> Listed(listed, id) || id == f.draft.id
  {
    var all := listed + [f];
    assert all[|listed|] == f;
    forall id | Listed(listed, id)
      ensures Listed(all, id)
    {
      ListedLater(listed, all, id);
    }
  }

  /** Every analysis unfolds so. */
  lemma AnalysisUnfolds(r: Rules, index: map<nat, Finding>, query: Query) returns (t: Tree)
    requires r.budget.findings > 0
    ensures Unfolds(r, index, query, t, Analysis(r, index, query).0, Analysis(r, index, query).1)
  {
    hide Analyzed, Derives, Complete;
    t := AnalyzedDerives(r, Opening(index), query, 0, {});
    One(t, index);
    AppendNewIsFirstOfEach(Below(t));
    var (s, result) := Analysis(r, index, query);
    assert result[1..] == s.descendants;
  }

  /** The query was executed there under these ancestors, or has a reason not to be. */
  ghost predicate Pursued(r: Rules, executed: seq<Execution>, query: Query, depth: nat, ancestors: set<nat>) {
    || depth > r.budget.depth || query.digest in ancestors
    || exists f :: f in executed && f.query == query && f.depth == depth && f.ancestors == ancestors
  }

  lemma PursuedAmongMore(r: Rules, some: seq<Execution>, all: seq<Execution>, query: Query, depth: nat,
                         ancestors: set<nat>)
    requires Pursued(r, some, query, depth, ancestors) && forall f :: f in some ==> f in all
    ensures Pursued(r, all, query, depth, ancestors)
  {
  }

  lemma {:induction false} PartsArePursued(r: Rules, ts: seq<Tree>, queries: seq<Query>, depth: nat,
                                           ancestors: set<nat>,
                                           index: map<nat, Finding>, q: Query)
    requires DeriveAll(r, ts, queries, depth, ancestors, index) && q in queries
    requires forall i :: 0 <= i < |ts| ==> !(ts[i].Assumed? && ts[i].why == QueriesExhausted)
    ensures Pursued(r, PreorderAll(ts), q, depth, ancestors)
  {
    var executed := PreorderAll(ts);
    if q == queries[0] {
      if ts[0].Asked? {
        assert Preorder(ts[0])[0] == ts[0].execution && ts[0].execution in Preorder(ts[0]);
        assert forall f :: f in Preorder(ts[0]) ==> f in executed;
      }
    } else {
      PartsArePursued(r, ts[1..], queries[1..], depth, ancestors, Learned(ts[0], index), q);
      PursuedAmongMore(r, PreorderAll(ts[1..]), executed, q, depth, ancestors);
    }
  }

  /** Where no budget closed, every query that an executed query planned was executed one level deeper with that query
      among its ancestors, unless it is too deep or repeats an ancestor. */
  lemma {:induction false} PlannedIsPursued(r: Rules, t: Tree, query: Query, depth: nat, ancestors: set<nat>,
                                            index: map<nat, Finding>, e: Execution, q: Query)
    requires Derives(r, t, query, depth, ancestors, index) && Complete(r, t)
    requires e in Preorder(t) && q in r.plan(e.query, e.draft)
    ensures Pursued(r, Preorder(t), q, e.depth + 1, e.ancestors + {e.query.digest})
    decreases t, 0
  {
    var planned := r.plan(t.execution.query, t.execution.draft);
    assert planned[..|t.parts|] == planned;
    if e == t.execution {
      PartsArePursued(r, t.parts, planned, depth + 1, ancestors + {query.digest}, index, q);
      PursuedAmongMore(r, PreorderAll(t.parts), Preorder(t), q, e.depth + 1, e.ancestors + {e.query.digest});
    } else {
      PlannedBelow(r, t.parts, planned, depth + 1, ancestors + {query.digest}, index, e, q);
      PursuedAmongMore(r, PreorderAll(t.parts), Preorder(t), q, e.depth + 1, e.ancestors + {e.query.digest});
    }
  }

  lemma {:induction false} PlannedBelow(r: Rules, ts: seq<Tree>, queries: seq<Query>, depth: nat, ancestors: set<nat>,
                                        index: map<nat, Finding>, e: Execution, q: Query)
    requires DeriveAll(r, ts, queries, depth, ancestors, index) && forall i :: 0 <= i < |ts| ==> Complete(r, ts[i])
    requires e in PreorderAll(ts) && q in r.plan(e.query, e.draft)
    ensures Pursued(r, PreorderAll(ts), q, e.depth + 1, e.ancestors + {e.query.digest})
    decreases ts, 0
  {
    if e in Preorder(ts[0]) {
      PlannedIsPursued(r, ts[0], queries[0], depth, ancestors, index, e, q);
      PursuedAmongMore(r, Preorder(ts[0]), PreorderAll(ts), q, e.depth + 1, e.ancestors + {e.query.digest});
    } else {
      PlannedBelow(r, ts[1..], queries[1..], depth, ancestors, Learned(ts[0], index), e, q);
      PursuedAmongMore(r, PreorderAll(ts[1..]), PreorderAll(ts), q, e.depth + 1, e.ancestors + {e.query.digest});
    }
  }

  // ---------------------------------------------------------------- the code

  class RlmController {
    const rules: Rules
    var index: map<nat, Finding>
    var queries: nat
    var chars: nat
    var findings: nat
    var descendants: seq<Finding>
    ghost var executed: seq<Execution>

    ghost function State(): Progress
      reads this
    {
      Progress(queries, chars, findings, descendants, index, executed)
    }

    constructor (rules: Rules)
      ensures this.rules == rules && State() == Opening(map[])
    {
      this.rules := rules;
      queries, chars, findings, descendants, index, executed := 0, 0, 0, [], map[], [];
    }

    method Analyze(query: Query) returns (result: seq<Finding>)
      modifies this
      ensures (State(), result) == Analysis(rules, old(index), query)
      ensures rules.budget.findings > 0 ==> exists t :: Unfolds(rules, old(index), query, t, State(), result)
    {
      hide Analyzed, Unfolds;
      if rules.budget.findings > 0 {
        ghost var t := AnalysisUnfolds(rules, index, query);
      }
      queries, chars, findings, descendants, executed := 0, 0, 0, [], [];
      var root := AnalyzeAt(query, 0, {});
      result := (if root.Some? then [root.value] else []) + descendants;
    }

    method AnalyzeAt(query: Query, depth: nat, ancestors: set<nat>) returns (finding: Option<Finding>)
      requires depth <= rules.budget.depth + 1
      modifies this
      ensures (State(), finding) == Analyzed(rules, old(State()), query, depth, ancestors)
      decreases rules.budget.depth + 1 - depth, 1, 0
    {
      if findings >= rules.budget.findings {
        return None;
      }
      if depth > rules.budget.depth {
        findings := findings + 1;
        return Some(Finding(rules.synthesise(query, DepthExhausted), []));
      }
      if query.digest in ancestors {
        findings := findings + 1;
        return Some(Finding(rules.synthesise(query, CycleDetected), []));
      }
      if queries >= rules.budget.queries {
        findings := findings + 1;
        return Some(Finding(rules.synthesise(query, QueriesExhausted), []));
      }
      var draft := Execute(query, depth, ancestors);
      var children := AnalyzeChildren(rules.plan(query, draft), depth, ancestors + {query.digest});
      var closed := Finding(draft, Ids(children));
      index := index[draft.id := closed];
      AppendChildren(children);
      finding := Some(closed);
    }

    method Execute(query: Query, depth: nat, ghost ancestors: set<nat>) returns (draft: Draft)
      requires queries < rules.budget.queries
      modifies `queries, `chars, `findings, `executed
      ensures (State(), draft) == Executed(rules, old(State()), query, depth, ancestors)
    {
      var remaining := Max(0, rules.budget.chars - chars);
      var slice := remaining / (rules.budget.queries - queries);
      queries := queries + 1;
      var read := CapRecords(EventsFor(rules.events, query.bucket), slice);
      draft := rules.handle(query, read, index);
      chars := chars + slice;
      findings := findings + 1;
      executed := executed + [Execution(query, depth, ancestors, slice, read, draft)];
    }

    method AnalyzeChildren(todo: seq<Query>, depth: nat, ancestors: set<nat>) returns (children: seq<Finding>)
      requires depth <= rules.budget.depth
      modifies this
      ensures (State(), children) == Children(rules, old(State()), todo, depth, ancestors)
      decreases rules.budget.depth + 1 - depth, 0, 0
    {
      hide Analyzed, Children;
      children := [];
      assert todo[0..] == todo;
      for i := 0 to |todo|
        invariant var all := Children(rules, old(State()), todo, depth, ancestors);
                  var rest := Children(rules, State(), todo[i..], depth, ancestors);
                  all.0 == rest.0 && all.1 == children + rest.1
      {
        ChildrenFrom(rules, State(), todo, i, depth, ancestors);
        if findings >= rules.budget.findings || queries >= rules.budget.queries {
          assert children + [] == children;
          return;
        }
        var child := AnalyzeAt(todo[i], depth + 1, ancestors);
        if child.Some? {
          children := children + [child.value];
        }
      }
      NoChildren(rules, State(), depth, ancestors);
      assert todo[|todo|..] == [] && children + [] == children;
    }

    method AppendChildren(children: seq<Finding>)
      modifies `descendants
      ensures descendants == AppendNew(old(descendants), children)
    {
      for i := 0 to |children|
        invariant AppendNew(old(descendants), children) == AppendNew(descendants, children[i..])
      {
        if !Listed(descendants, children[i].draft.id) {
          descendants := descendants + [children[i]];
        }
      }
    }
  }
}
