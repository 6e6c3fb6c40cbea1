/** Reconciliation: the keyset-paged scan that offers every approved, not yet considered candidate to admission, writing
    exclusions as it goes, while other processes list, approve, admit and exclude candidates. Function Scan is the
    meaning of the code, class Reconciler is the code, and the lemmas say what a scan visits. */
module Reconciliation {
  import opened Basics
  import opened GuidancePointer
  import opened Transition
  import opened Runner

  const PAGE := 128

  datatype Listing = Listing(created: int, slot: Slot, version: Version)

  /** The sort key of the query: creation time, then candidate id. */
  datatype Key = Key(created: int, id: nat)

  predicate Less(a: Key, b: Key) {
    a.created < b.created || (a.created == b.created && a.id < b.id)
  }

  predicate Before(table: map<nat, Listing>, c: nat, d: nat)
    requires c in table && d in table
  {
    Less(Key(table[c].created, c), Key(table[d].created, d))
  }

  lemma {:induction false} LeastExists(table: map<nat, Listing>, s: set<nat>) returns (least: nat)
    requires s != {} && s <= table.Keys
    ensures least in s && forall c :: c in s && c != least ==> Before(table, least, c)
  {
    var any :| any in s;
    if s == {any} {
      least := any;
    } else {
      var rest := LeastExists(table, s - {any});
      least := if Before(table, any, rest) then any else rest;
      forall c | c in s && c != least
        ensures Before(table, least, c)
      {
        assert c != any ==> c in s - {any};
      }
    }
  }

  /** The rows of s as ORDER BY delivers them. */
  function InOrder(table: map<nat, Listing>, s: set<nat>): (list: seq<nat>)
    requires s <= table.Keys
    ensures forall c :: c in list ==> c in s
    decreases s
  {
    if s == {} then [] else
      assert exists c :: c in s && forall d :: d in s && d != c ==> Before(table, c, d) by {
        var least := LeastExists(table, s);
      }
      var first :| first in s && forall d :: d in s && d != first ==> Before(table, first, d);
      [first] + InOrder(table, s - {first})
  }

  /** Every row once, in strictly ascending order. */
  lemma {:induction false} InOrderListsAll(table: map<nat, Listing>, s: set<nat>)
    requires s <= table.Keys
    ensures |InOrder(table, s)| == |s|
    ensures forall c :: c in InOrder(table, s) <==> c in s
    ensures forall i, j :: 0 <= i < j < |InOrder(table, s)| ==>
              Before(table, InOrder(table, s)[i], InOrder(table, s)[j])
    decreases s
  {
    if s != {} {
      var list := InOrder(table, s);
      InOrderListsAll(table, s - {list[0]});
      assert list[1..] == InOrder(table, s - {list[0]});
      assert forall c :: c in list <==> c == list[0] || c in list[1..];
      forall i, j | 0 <= i < j < |list|
        ensures Before(table, list[i], list[j])
      {
        assert list[j] == list[1..][j - 1];
        if i > 0 {
          assert list[i] == list[1..][i - 1];
        }
      }
    }
  }

  lemma InOrderHead(table: map<nat, Listing>, s: set<nat>)
    requires s <= table.Keys && s != {}
    ensures var list := InOrder(table, s);
            list != [] && list[0] in s && list[1..] == InOrder(table, s - {list[0]})
            && (forall c :: c in s && c != list[0] ==> Before(table, list[0], c))
  {
    assert InOrder(table, s)[1..] == InOrder(table, s - {InOrder(table, s)[0]});
  }

  // ---------------------------------------------------------------- the tables, and what others do to them

  datatype Desk = Desk(core: Core, listed: map<nat, Listing>, approved: set<nat>, considered: set<nat>) {
    /** The rows of the query: approved candidates of the context with neither a transition nor a consideration. */
    function Eligible(context: nat): (eligible: set<nat>)
      ensures forall c :: c in eligible <==>
                && c in listed && c in approved && listed[c].slot.context == context
                && c !in core.rows && c !in considered
    {
      set c | c in listed && c in approved && listed[c].slot.context == context && !Settled(c)
    }

    predicate Settled(c: nat) {
      c in core.rows || c in considered
    }

    function Following(context: nat, cursor: Option<Key>): (following: set<nat>)
      ensures following <= listed.Keys
    {
      set c | c in Eligible(context) && (cursor.Some? ==> Less(cursor.value, Key(listed[c].created, c)))
    }

    /** One page: at most PAGE rows after the cursor. */
    function Page(context: nat, cursor: Option<Key>): seq<Envelope> {
      var ids := InOrder(listed, Following(context, cursor));
      seq(Min(PAGE, |ids|), i requires 0 <= i < Min(PAGE, |ids|) => Envelope(ids[i], listed[ids[i]]))
    }
  }

  datatype Envelope = Envelope(id: nat, row: Listing) {
    function At(): Key {
      Key(row.created, id)
    }
  }

  /** One action of another process. Listings, approvals and considerations are only ever added. */
  datatype Other = Machine(step: Step) | Lists(c: nat, row: Listing) | Approves(c: nat) | Excludes(c: nat)

  function Acted(d: Desk, o: Other): Desk {
    match o
    case Machine(step) => d.(core := Next(d.core, step))
    case Lists(c, row) => if c in d.listed then d else d.(listed := d.listed[c := row])
    case Approves(c) => d.(approved := d.approved + {c})
    case Excludes(c) => d.(considered := d.considered + {c})
  }

  function Since(d: Desk, others: seq<Other>): Desk {
    if others == [] then d else Acted(Since(d, others[..|others| - 1]), others[|others| - 1])
  }

  /** Nothing that the query looks at is ever withdrawn. */
  ghost predicate Later(d: Desk, e: Desk) {
    && (forall c :: c in d.listed ==> c in e.listed && e.listed[c] == d.listed[c])
    && d.approved <= e.approved && d.considered <= e.considered && d.core.rows.Keys <= e.core.rows.Keys
  }

  lemma LaterStill(d: Desk, e: Desk, f: Desk)
    requires Later(d, e) && Later(e, f)
    ensures Later(d, f)
  {
  }

  lemma ConsiderKeepsRows(s: Core, x: Proposal, checks: Checks, now: int)
    ensures s.rows.Keys <= Consider(s, x, checks, now).0.rows.Keys
  {
  }

  lemma NextKeepsRows(s: Core, step: Step)
    ensures s.rows.Keys <= Next(s, step).rows.Keys
  {
    hide Consider, Choose, Do, Observed, AfterReads;
    match step {
      case Admit(x, checks, now) => ConsiderKeepsRows(s, x, checks, now);
      case _ =>
    }
  }

  lemma {:induction false} RunKeepsRows(s: Core, steps: seq<Step>)
    ensures s.rows.Keys <= Transition.Run(s, steps).rows.Keys
  {
    if steps != [] {
      hide Next;
      RunKeepsRows(s, steps[..|steps| - 1]);
      NextKeepsRows(Transition.Run(s, steps[..|steps| - 1]), steps[|steps| - 1]);
    }
  }

  lemma {:induction false} SinceIsLater(d: Desk, others: seq<Other>)
    ensures Later(d, Since(d, others))
  {
    if others != [] {
      hide Next;
      var before, o := Since(d, others[..|others| - 1]), others[|others| - 1];
      SinceIsLater(d, others[..|others| - 1]);
      if o.Machine? {
        NextKeepsRows(before.core, o.step);
      }
    }
  }

  // ---------------------------------------------------------------- the scan

  /** What surrounds one candidate's admission: the facts it finds, what others do before its transaction, the clock,
      and what others do before the exclusion is written and the next row is taken. */
  datatype Around = Around(checks: Checks, within: seq<Step>, now: int, after: seq<Other>)

  function Asked(e: Envelope): Proposal {
    Proposal(e.id, e.row.slot, e.row.version)
  }

  function Offer(s: Core, e: Envelope, a: Around): (Core, Reply) {
    var met := if Screened(Asked(e), a.checks).Some? then s else Transition.Run(s, a.within);
    Consider(met, Asked(e), a.checks, a.now)
  }

  /** canary and already_running end the scan; an exception ends it as well. */
  predicate Stops(reply: Reply) {
    reply == Now(Canary) || reply == AlreadyRunning || reply == Raised
  }

  datatype Status = Going | Stopped | Finished

  /** page is what is left of the current page; others is what other processes did at the gaps so far. */
  datatype Progress = Progress(desk: Desk, page: seq<Envelope>, visited: seq<Envelope>, replies: seq<Reply>,
                               others: seq<Other>, status: Status)

  function Opened(d: Desk, context: nat, first: seq<Other>): Progress {
    var at := Since(d, first);
    var page := at.Page(context, None);
    Progress(at, page, [], [], first, if page == [] then Finished else Going)
  }

  /** One visit; a rejected candidate's exclusion is written, and the next page is fetched when this one is used up. */
  function Visited(p: Progress, context: nat, a: Around): Progress
    requires p.page != []
  {
    var e := p.page[0];
    var (core, reply) := Offer(p.desk.core, e, a);
    var visited, replies := p.visited + [e], p.replies + [reply];
    if Stops(reply) then Progress(p.desk.(core := core), p.page[1..], visited, replies, p.others, Stopped) else
      var acted := Since(p.desk.(core := core), a.after);
      var desk := if reply == RejectedReply then acted.(considered := acted.considered + {e.id}) else acted;
      var page := if |p.page| > 1 then p.page[1..] else desk.Page(context, Some(e.At()));
      Progress(desk, page, visited, replies, p.others + a.after, if page == [] then Finished else Going)
  }

  /** The scan over the planned visits. Where it is still going, the process ended there. */
  function Scan(d: Desk, context: nat, first: seq<Other>, plan: seq<Around>): (p: Progress)
    ensures p.status == Going ==> p.page != []
  {
    if plan == [] then Opened(d, context, first) else
      var p := Scan(d, context, first, plan[..|plan| - 1]);
      if p.status == Going then Visited(p, context, plan[|plan| - 1]) else p
  }

  lemma {:induction false} ScanEnds(d: Desk, context: nat, first: seq<Other>, plan: seq<Around>, more: seq<Around>)
    requires Scan(d, context, first, plan).status != Going
    ensures Scan(d, context, first, plan + more) == Scan(d, context, first, plan)
  {
    if more == [] {
      assert plan + more == plan;
    } else {
      ScanEnds(d, context, first, plan, more[..|more| - 1]);
      assert (plan + more)[..|plan + more| - 1] == plan + more[..|more| - 1];
    }
  }

  /** A row appears, if at all, for the offered candidate, and exactly when the reply to one that had none is canary. */
  lemma OnlyCanaryAdmits(s: Core, x: Proposal, checks: Checks, now: int)
    ensures var (t, reply) := Consider(s, x, checks, now);
            && (t == s || (reply == Now(Canary) && x.candidate !in s.rows
                           && t == s.(rows := s.rows[x.candidate := t.rows[x.candidate]])
                           && t.rows[x.candidate].phase == Canary && t.rows[x.candidate].slot == x.slot
                           && t.rows[x.candidate].version == x.version))
            && (x.candidate !in s.rows ==> (reply == Now(Canary) <==> x.candidate in t.rows)
                                           && (reply.Now? ==> reply == Now(Canary)))
  {
  }

  lemma OfferIsLater(d: Desk, e: Envelope, a: Around)
    ensures Later(d, d.(core := Offer(d.core, e, a).0))
  {
    hide Consider, Transition.Run;
    RunKeepsRows(d.core, a.within);
    ConsiderKeepsRows(Transition.Run(d.core, a.within), Asked(e), a.checks, a.now);
    ConsiderKeepsRows(d.core, Asked(e), a.checks, a.now);
  }

  lemma ExclusionIsLater(d: Desk, c: nat)
    ensures Later(d, d.(considered := d.considered + {c}))
  {
  }

  lemma VisitIsLater(p: Progress, context: nat, a: Around)
    requires p.page != []
    ensures Later(p.desk, Visited(p, context, a).desk)
  {
    hide Offer, Later, Since;
    var e := p.page[0];
    var replied := p.desk.(core := Offer(p.desk.core, e, a).0);
    var acted := Since(replied, a.after);
    OfferIsLater(p.desk, e, a);
    SinceIsLater(replied, a.after);
    LaterStill(p.desk, replied, acted);
    ExclusionIsLater(acted, e.id);
    LaterStill(p.desk, acted, acted.(considered := acted.considered + {e.id}));
  }

  // ---------------------------------------------------------------- what a scan visits

  ghost predicate Ascending(list: seq<Envelope>) {
    forall i, j :: 0 <= i < j < |list| ==> Less(list[i].At(), list[j].At())
  }

  /** c comes after everything in the list. */
  ghost predicate Beyond(list: seq<Envelope>, e: Envelope) {
    list != [] && Less(list[|list| - 1].At(), e.At())
  }

  /** Each is listed and approved for the context and was not settled when the scan began. */
  ghost predicate Sourced(d: Desk, context: nat, list: seq<Envelope>, now: Desk) {
    forall e :: e in list ==>
      && e.id in now.listed && now.listed[e.id] == e.row && e.id in now.approved
      && e.row.slot.context == context && e.id !in d.core.rows && e.id !in d.considered
  }

  /** Whoever was eligible when the scan began is settled by now, in the list, or still to come. */
  ghost predicate Accounted(d: Desk, context: nat, list: seq<Envelope>, more: bool, now: Desk) {
    forall c :: c in d.Eligible(context) ==>
      || c in now.core.rows || c in now.considered || Envelope(c, d.listed[c]) in list
      || (more && Beyond(list, Envelope(c, d.listed[c])))
  }

  ghost predicate Orderly(d: Desk, context: nat, p: Progress) {
    var list := p.visited + p.page;
    && Later(d, p.desk) && Ascending(list) && Sourced(d, context, list, p.desk)
    && Accounted(d, context, list, p.status != Finished, p.desk)
  }

  lemma PageIsNext(d: Desk, context: nat, cursor: Option<Key>)
    ensures var page := d.Page(context, cursor);
            && Ascending(page)
            && (forall e :: e in page ==> e.id in d.Following(context, cursor) && e.row == d.listed[e.id])
            && (forall c :: c in d.Following(context, cursor) ==>
                  Envelope(c, d.listed[c]) in page || (|page| == 128 && Beyond(page, Envelope(c, d.listed[c]))))
  {
    var found, page := d.Following(context, cursor), d.Page(context, cursor);
    var ids := InOrder(d.listed, found);
    InOrderListsAll(d.listed, found);
    hide InOrder, Desk.Following;
    forall c | c in found
      ensures Envelope(c, d.listed[c]) in page || (|page| == 128 && Beyond(page, Envelope(c, d.listed[c])))
    {
      var i :| 0 <= i < |ids| && ids[i] == c;
      if i < |page| {
        assert page[i] == Envelope(c, d.listed[c]);
      } else {
        assert Before(d.listed, ids[|page| - 1], ids[i]);
      }
    }
  }

  /** A page fetched after the list was used up continues it. */
  lemma PageContinues(d: Desk, context: nat, list: seq<Envelope>, now: Desk)
    requires list != [] && Later(d, now) && Ascending(list) && Sourced(d, context, list, now)
    requires Accounted(d, context, list, true, now)
    ensures var page := now.Page(context, Some(list[|list| - 1].At()));
            && Ascending(list + page) && Sourced(d, context, list + page, now)
            && Accounted(d, context, list + page, page != [], now)
  {
    hide Desk.Page;
    var cursor := list[|list| - 1].At();
    var page := now.Page(context, Some(cursor));
    PageIsNext(now, context, Some(cursor));
    var all := list + page;
    forall i, j | 0 <= i < j < |all|
      ensures Less(all[i].At(), all[j].At())
    {
      if i < |list| <= j {
        assert all[j] == page[j - |list|] && all[j] in page;
        assert i == |list| - 1 || Less(list[i].At(), cursor);
      } else if |list| <= i {
        assert all[i] == page[i - |list|] && all[j] == page[j - |list|];
      }
    }
    forall c | c in d.Eligible(context)
      ensures var e := Envelope(c, d.listed[c]); now.Settled(c) || e in all || (page != [] && Beyond(all, e))
    {
      var e := Envelope(c, d.listed[c]);
      if !now.Settled(c) && e !in list {
        assert c in now.Following(context, Some(cursor));
        assert Beyond(page, e) ==> all[|all| - 1] == page[|page| - 1];
      }
    }
  }

  lemma OpenedOrderly(d: Desk, context: nat, first: seq<Other>)
    ensures Orderly(d, context, Opened(d, context, first))
  {
    hide Since, Desk.Page;
    var p := Opened(d, context, first);
    SinceIsLater(d, first);
    PageIsNext(p.desk, context, None);
    assert p.visited + p.page == p.page;
    forall c | c in d.Eligible(context)
      ensures p.desk.Settled(c) || Envelope(c, d.listed[c]) in p.page || Beyond(p.page, Envelope(c, d.listed[c]))
    {
      assert !p.desk.Settled(c) ==> c in p.desk.Following(context, None);
    }
  }

  lemma LaterKeepsOrder(d: Desk, context: nat, list: seq<Envelope>, more: bool, at: Desk, now: Desk)
    requires Later(d, at) && Sourced(d, context, list, at) && Accounted(d, context, list, more, at) && Later(at, now)
    ensures Later(d, now) && Sourced(d, context, list, now) && Accounted(d, context, list, more, now)
  {
    hide Desk.Eligible;
  }

  lemma VisitedOrderly(d: Desk, context: nat, p: Progress, a: Around)
    requires Orderly(d, context, p) && p.status == Going && p.page != []
    ensures Orderly(d, context, Visited(p, context, a))
  {
    hide Offer, Since, Later, Ascending, Sourced, Accounted, Desk.Page;
    var next, list := Visited(p, context, a), p.visited + p.page;
    VisitIsLater(p, context, a);
    LaterKeepsOrder(d, context, list, true, p.desk, next.desk);
    if |p.page| > 1 || next.status == Stopped {
      assert next.visited + next.page == list;
    } else {
      assert list == next.visited && list[|list| - 1] == p.page[0];
      PageContinues(d, context, list, next.desk);
    }
  }

  /** However others interfere, a scan visits candidates in strictly ascending order, hence none twice, each listed and
      approved for the context and new to it; and whoever was eligible when it began is visited in turn or has
      been settled meanwhile. */
  lemma {:induction false} ScanIsOrderly(d: Desk, context: nat, first: seq<Other>, plan: seq<Around>)
    ensures Orderly(d, context, Scan(d, context, first, plan))
  {
    if plan == [] {
      OpenedOrderly(d, context, first);
    } else {
      hide Visited, Orderly;
      ScanIsOrderly(d, context, first, plan[..|plan| - 1]);
      var p := Scan(d, context, first, plan[..|plan| - 1]);
      if p.status == Going {
        VisitedOrderly(d, context, p, plan[|plan| - 1]);
      }
    }
  }

  /** A scan that comes to its end has missed nobody. */
  lemma FinishedScanMissesNobody(d: Desk, context: nat, first: seq<Other>, plan: seq<Around>, c: nat)
    requires c in d.Eligible(context) && Scan(d, context, first, plan).status == Finished
    ensures var p := Scan(d, context, first, plan);
            c in p.desk.core.rows || c in p.desk.considered || Envelope(c, d.listed[c]) in p.visited
  {
    ScanIsOrderly(d, context, first, plan);
    FinishedHasNoPage(d, context, first, plan);
  }

  lemma FinishedHasNoPage(d: Desk, context: nat, first: seq<Other>, plan: seq<Around>)
    ensures Scan(d, context, first, plan).status == Finished ==> Scan(d, context, first, plan).page == []
  {
    if plan != [] {
      FinishedHasNoPage(d, context, first, plan[..|plan| - 1]);
    }
  }

  /** But not whoever becomes eligible behind the cursor: two candidates, the later of them approved when the scan
      begins, the earlier one while that one is looked at. */
  lemma LateApprovalIsMissed(s: Core, checks: Checks)
    requires s.rows == map[] && checks.binding.None?
    ensures var listed := map[0 := Listing(0, Slot(0, 0), 0), 1 := Listing(1, Slot(0, 0), 1)];
            var p := Scan(Desk(s, listed, {1}, {}), 0, [], [Around(checks, [], 0, [Approves(0)])]);
            && p.status == Finished && 0 in p.desk.Eligible(0)
            && p.visited == [Envelope(1, listed[1])]
  {
    var listed := map[0 := Listing(0, Slot(0, 0), 0), 1 := Listing(1, Slot(0, 0), 1)];
    var d, a := Desk(s, listed, {1}, {}), Around(checks, [], 0, [Approves(0)]);
    var e := Envelope(1, listed[1]);
    assert d.Following(0, None) == {1};
    OneRow(listed, 1);
    assert d.Page(0, None) == [e];
    assert Since(d, []) == d && [a][..0] == [];
    assert Opened(d, 0, []).page == [e];
    var later := d.(approved := {1, 0});
    assert Since(d, a.after) == later by {
      assert a.after[..0] == [];
    }
    assert later.Following(0, Some(e.At())) == {};
    assert later.Page(0, Some(e.At())) == [];
  }

  lemma OneRow(table: map<nat, Listing>, c: nat)
    requires c in table
    ensures InOrder(table, {c}) == [c]
  {
    InOrderListsAll(table, {c});
    assert InOrder(table, {c})[0] in InOrder(table, {c});
  }

  // ---------------------------------------------------------------- what a scan answers and excludes

  ghost function ExcludedBy(others: seq<Other>): set<nat> {
    set o | o in others && o.Excludes? :: o.c
  }

  ghost function Rejected(visited: seq<Envelope>, replies: seq<Reply>): set<nat> {
    set i | 0 <= i < |visited| && i < |replies| && replies[i] == RejectedReply :: visited[i].id
  }

  lemma {:induction false} SinceExcludes(d: Desk, others: seq<Other>)
    ensures Since(d, others).considered == d.considered + ExcludedBy(others)
  {
    if others != [] {
      hide Next;
      var before := others[..|others| - 1];
      SinceExcludes(d, before);
      assert others == before + [others[|others| - 1]];
      ExcludedMore(before, [others[|others| - 1]]);
    }
  }

  lemma ExcludedMore(others: seq<Other>, more: seq<Other>)
    ensures ExcludedBy(others + more) == ExcludedBy(others) + ExcludedBy(more)
  {
    assert forall o :: o in others + more <==> o in others || o in more;
  }

  lemma RejectedMore(visited: seq<Envelope>, replies: seq<Reply>, e: Envelope, reply: Reply)
    requires |visited| == |replies|
    ensures Rejected(visited + [e], replies + [reply])
         == Rejected(visited, replies) + (if reply == RejectedReply then {e.id} else {})
  {
    var more, answers := visited + [e], replies + [reply];
    forall i | 0 <= i < |replies| && replies[i] == RejectedReply
      ensures visited[i].id in Rejected(more, answers)
    {
      assert more[i] == visited[i] && answers[i] == RejectedReply;
    }
    if reply == RejectedReply {
      assert more[|visited|].id in Rejected(more, answers);
    }
  }

  lemma NoneRejected()
    ensures Rejected([], []) == {}
  {
  }

  /** One answer to each visit, only the last of which may stop the scan; and exactly the visited candidates that were
      rejected have been excluded, besides those that others excluded. */
  ghost predicate Answered(d: Desk, p: Progress) {
    var n := |p.replies|;
    && n == |p.visited|
    && (forall i :: 0 <= i < n - 1 ==> p.replies[i] !in {Now(Canary), AlreadyRunning, Raised})
    && (p.status == Stopped <==> n > 0 && p.replies[n - 1] in {Now(Canary), AlreadyRunning, Raised})
    && p.desk.considered == d.considered + ExcludedBy(p.others) + Rejected(p.visited, p.replies)
  }

  lemma {:induction false} ScanAnswers(d: Desk, context: nat, first: seq<Other>, plan: seq<Around>)
    ensures Answered(d, Scan(d, context, first, plan))
  {
    hide Since, Desk.Page, ExcludedBy, Rejected;
    if plan == [] {
      SinceExcludes(d, first);
      NoneRejected();
    } else {
      hide Visited, Answered, Opened;
      var p := Scan(d, context, first, plan[..|plan| - 1]);
      ScanAnswers(d, context, first, plan[..|plan| - 1]);
      if p.status == Going {
        VisitAnswers(d, context, p, plan[|plan| - 1]);
      }
    }
  }

  lemma VisitAnswers(d: Desk, context: nat, p: Progress, a: Around)
    requires Answered(d, p) && p.status == Going && p.page != []
    ensures Answered(d, Visited(p, context, a))
  {
    hide Offer, Since, Desk.Page, ExcludedBy, Rejected;
    var e := p.page[0];
    var (core, reply) := Offer(p.desk.core, e, a);
    SinceExcludes(p.desk.(core := core), a.after);
    ExcludedMore(p.others, a.after);
    RejectedMore(p.visited, p.replies, e, reply);
  }

  // ---------------------------------------------------------------- a scan that is alone

  /** Other processes list, approve, exclude and admit nobody; they may do anything else. */
  ghost predicate Quiet(others: seq<Other>) {
    forall o :: o in others ==> o.Machine? && !o.step.Admit?
  }

  ghost predicate Alone(first: seq<Other>, plan: seq<Around>) {
    && Quiet(first)
    && forall a :: a in plan ==> Quiet(a.after) && forall step :: step in a.within ==> !step.Admit?
  }

  lemma OnlyAdmissionAddsRows(s: Core, step: Step)
    requires !step.Admit?
    ensures Next(s, step).rows.Keys == s.rows.Keys
  {
    hide Choose, Do, Observed, AfterReads;
  }

  lemma {:induction false} RunAddsNoRows(s: Core, steps: seq<Step>)
    requires forall step :: step in steps ==> !step.Admit?
    ensures Transition.Run(s, steps).rows.Keys == s.rows.Keys
  {
    if steps != [] {
      hide Next;
      RunAddsNoRows(s, steps[..|steps| - 1]);
      OnlyAdmissionAddsRows(Transition.Run(s, steps[..|steps| - 1]), steps[|steps| - 1]);
    }
  }

  ghost predicate SameTables(d: Desk, e: Desk) {
    e.listed == d.listed && e.approved == d.approved && e.core.rows.Keys == d.core.rows.Keys
  }

  lemma {:induction false} QuietSince(d: Desk, others: seq<Other>)
    requires Quiet(others)
    ensures SameTables(d, Since(d, others)) && ExcludedBy(others) == {}
  {
    if others != [] {
      hide Next;
      var before, o := others[..|others| - 1], others[|others| - 1];
      QuietSince(d, before);
      OnlyAdmissionAddsRows(Since(d, before).core, o.step);
    }
  }

  /** Alone, the tables stay as they are, but for the one row that the last visit adds if its reply is canary. */
  ghost predicate Undisturbed(d: Desk, p: Progress) {
    && p.desk.listed == d.listed && p.desk.approved == d.approved && ExcludedBy(p.others) == {}
    && (p.status != Stopped ==> p.desk.core.rows.Keys == d.core.rows.Keys)
    && (forall c :: c in p.desk.core.rows && c !in d.core.rows ==>
          && p.visited != [] && c == p.visited[|p.visited| - 1].id && p.desk.core.rows[c].phase == Canary
          && p.desk.core.rows[c].slot == p.visited[|p.visited| - 1].row.slot
          && p.desk.core.rows[c].version == p.visited[|p.visited| - 1].row.version
          && p.replies != [] && p.replies[|p.replies| - 1] == Now(Canary))
  }

  lemma AloneVisit(d: Desk, context: nat, p: Progress, a: Around)
    requires Undisturbed(d, p) && p.status == Going && p.page != [] && p.page[0].id !in d.core.rows
    requires Quiet(a.after) && forall step :: step in a.within ==> !step.Admit?
    ensures Undisturbed(d, Visited(p, context, a))
  {
    hide Consider, Transition.Run, Since, Desk.Page, ExcludedBy;
    var e, s := p.page[0], p.desk.core;
    RunAddsNoRows(s, a.within);
    OnlyCanaryAdmits(s, Asked(e), a.checks, a.now);
    OnlyCanaryAdmits(Transition.Run(s, a.within), Asked(e), a.checks, a.now);
    QuietSince(p.desk.(core := Offer(s, e, a).0), a.after);
    ExcludedMore(p.others, a.after);
  }

  lemma {:induction false} AloneStaysUndisturbed(d: Desk, context: nat, first: seq<Other>, plan: seq<Around>)
    requires Alone(first, plan)
    ensures Undisturbed(d, Scan(d, context, first, plan))
  {
    hide Since, Desk.Page, Visited;
    if plan == [] {
      QuietSince(d, first);
    } else {
      var p := Scan(d, context, first, plan[..|plan| - 1]);
      AloneStaysUndisturbed(d, context, first, plan[..|plan| - 1]);
      if p.status == Going {
        ScanIsOrderly(d, context, first, plan[..|plan| - 1]);
        assert p.page[0] in p.visited + p.page;
        AloneVisit(d, context, p, plan[|plan| - 1]);
      }
    }
  }

  ghost function Ids(list: seq<Envelope>): seq<nat> {
    seq(|list|, i requires 0 <= i < |list| => list[i].id)
  }

  /** Ascending rows that leave out none below them are the beginning of the ordered list. */
  lemma {:induction false} FirstInOrder(table: map<nat, Listing>, s: set<nat>, ids: seq<nat>)
    requires s <= table.Keys && forall c :: c in ids ==> c in s
    requires forall i, j :: 0 <= i < j < |ids| ==> Before(table, ids[i], ids[j])
    requires forall c, d :: c in s && d in ids && Before(table, c, d) ==> c in ids
    ensures |ids| <= |InOrder(table, s)| && ids == InOrder(table, s)[..|ids|]
    decreases |ids|
  {
    hide InOrder;
    if ids != [] {
      assert ids[0] in s;
      InOrderHead(table, s);
      var least := InOrder(table, s)[0];
      assert least in ids;
      assert ids[0] == least;
      forall c | c in ids[1..]
        ensures c in s - {least}
      {
      }
      FirstInOrder(table, s - {least}, ids[1..]);
      assert ids == [ids[0]] + ids[1..];
    }
  }

  /** Below what was visited, nobody is left out. */
  lemma AloneLeavesOutNone(d: Desk, context: nat, p: Progress, c: nat, e: Envelope)
    requires Orderly(d, context, p) && Undisturbed(d, p) && Answered(d, p)
    requires c in d.Eligible(context) && (e in p.visited && Less(Key(d.listed[c].created, c), e.At()))
    ensures Envelope(c, d.listed[c]) in p.visited
  {
    hide Less, Answered, Undisturbed, Sourced, Later;
    var me, list := Envelope(c, d.listed[c]), p.visited + p.page;
    if p.desk.Settled(c) {
      VisitedWhenSettled(d, context, p, c);
    }
    var i :| 0 <= i < |p.visited| && p.visited[i] == e;
    assert list[i] == e;
    if me in p.page {
      var j :| 0 <= j < |p.page| && p.page[j] == me;
      assert list[|p.visited| + j] == me;
      NotBoth(me.At(), e.At());
    } else if !p.desk.Settled(c) && me !in p.visited {
      assert Less(list[|list| - 1].At(), me.At());
      if i < |list| - 1 {
        assert Less(e.At(), list[|list| - 1].At());
        Transitive(e.At(), list[|list| - 1].At(), me.At());
      }
      NotBoth(me.At(), e.At());
    }
  }

  lemma NotBoth(a: Key, b: Key)
    ensures !(Less(a, b) && Less(b, a))
  {
  }

  lemma Transitive(a: Key, b: Key, c: Key)
    requires Less(a, b) && Less(b, c)
    ensures Less(a, c)
  {
  }

  lemma VisitedWhenSettled(d: Desk, context: nat, p: Progress, c: nat)
    requires Orderly(d, context, p) && Undisturbed(d, p) && Answered(d, p)
    requires c in d.Eligible(context) && p.desk.Settled(c)
    ensures Envelope(c, d.listed[c]) in p.visited
  {
    hide Ascending, Accounted, ExcludedBy;
    var e: Envelope;
    if c in p.desk.core.rows {
      e := p.visited[|p.visited| - 1];
    } else {
      assert c in Rejected(p.visited, p.replies);
      var i :| 0 <= i < |p.visited| && i < |p.replies| && p.replies[i] == RejectedReply && p.visited[i].id == c;
      e := p.visited[i];
    }
    assert e in p.visited + p.page;
  }

  ghost predicate AloneAt(d: Desk, context: nat, p: Progress) {
    Orderly(d, context, p) && Undisturbed(d, p) && Answered(d, p)
  }

  lemma VisitedIsPrefix(d: Desk, context: nat, p: Progress)
    requires AloneAt(d, context, p)
    ensures var list := InOrder(d.listed, d.Eligible(context));
            |p.visited| <= |list| && Ids(p.visited) == list[..|p.visited|]
  {
    hide InOrder, Answered, Accounted, Less;
    var ids, e, list := Ids(p.visited), d.Eligible(context), p.visited + p.page;
    forall i | 0 <= i < |ids|
      ensures ids[i] in e && p.visited[i] == Envelope(ids[i], d.listed[ids[i]])
    {
      assert list[i] == p.visited[i] && list[i] in list;
    }
    forall i, j | 0 <= i < j < |ids|
      ensures Before(d.listed, ids[i], ids[j])
    {
      assert Less(list[i].At(), list[j].At());
    }
    forall c, f | c in e && f in ids && Before(d.listed, c, f)
      ensures c in ids
    {
      var i :| 0 <= i < |ids| && ids[i] == f;
      AloneLeavesOutNone(d, context, p, c, p.visited[i]);
      var k :| 0 <= k < |p.visited| && p.visited[k] == Envelope(c, d.listed[c]);
      assert ids[k] == c;
    }
    FirstInOrder(d.listed, e, ids);
  }

  lemma FinishedVisitsAll(d: Desk, context: nat, p: Progress)
    requires AloneAt(d, context, p) && p.status == Finished && p.page == []
    ensures |p.visited| == |InOrder(d.listed, d.Eligible(context))|
  {
    hide InOrder, Answered, Less;
    VisitedIsPrefix(d, context, p);
    var list, n := InOrder(d.listed, d.Eligible(context)), |p.visited|;
    InOrderListsAll(d.listed, d.Eligible(context));
    if n < |list| {
      var c := list[n];
      assert c in list;
      if p.desk.Settled(c) {
        VisitedWhenSettled(d, context, p, c);
      }
      assert p.visited + p.page == p.visited;
      var i :| 0 <= i < n && p.visited[i] == Envelope(c, d.listed[c]);
      assert Ids(p.visited)[i] == c == list[i];
      assert Before(d.listed, list[i], list[n]);
      NotBoth(Key(d.listed[c].created, c), Key(d.listed[c].created, c));
    }
  }

  lemma GoingHasMore(d: Desk, context: nat, p: Progress)
    requires AloneAt(d, context, p) && p.page != []
    ensures |p.visited| < |InOrder(d.listed, d.Eligible(context))|
  {
    hide InOrder, Answered, Accounted, Less;
    VisitedIsPrefix(d, context, p);
    var ids, n, all := InOrder(d.listed, d.Eligible(context)), |p.visited|, p.visited + p.page;
    InOrderListsAll(d.listed, d.Eligible(context));
    var e := p.page[0];
    assert all[n] == e && e in all;
    assert e.id in ids;
    var k :| 0 <= k < |ids| && ids[k] == e.id;
    if k < n {
      assert all[k] == p.visited[k] && all[k] in all && Ids(p.visited)[k] == e.id;
      assert Less(all[k].At(), all[n].At());
      NotBoth(e.At(), e.At());
    }
  }

  lemma {:induction false} VisitsArePlanned(d: Desk, context: nat, first: seq<Other>, plan: seq<Around>)
    ensures var p := Scan(d, context, first, plan);
            |p.visited| <= |plan| && (p.status == Going ==> |p.visited| == |plan|)
  {
    if plan != [] {
      hide Offer, Since, Desk.Page;
      VisitsArePlanned(d, context, first, plan[..|plan| - 1]);
    }
  }

  /** Alone, the scan is one walk along the list that was eligible when it began: it visits a beginning of that list,
      all of it if nothing stops it, and it does end, since it is still going only where fewer visits were made
      than there are candidates. Pages and the exclusions written meanwhile make no difference. */
  lemma AloneScanVisitsPrefix(d: Desk, context: nat, first: seq<Other>, plan: seq<Around>)
    requires Alone(first, plan)
    ensures var p, list := Scan(d, context, first, plan), InOrder(d.listed, d.Eligible(context));
            var n := |p.visited|;
            && n <= |list| && Ids(p.visited) == list[..n]
            && (p.status == Finished ==> n == |list|)
            && (p.status == Going ==> n == |plan| < |list|)
            && Undisturbed(d, p)
  {
    hide Scan, InOrder, Orderly, Undisturbed, Answered;
    var p := Scan(d, context, first, plan);
    ScanIsOrderly(d, context, first, plan);
    ScanAnswers(d, context, first, plan);
    AloneStaysUndisturbed(d, context, first, plan);
    VisitedIsPrefix(d, context, p);
    VisitsArePlanned(d, context, first, plan);
    FinishedHasNoPage(d, context, first, plan);
    if p.status == Finished {
      FinishedVisitsAll(d, context, p);
    } else if p.status == Going {
      GoingHasMore(d, context, p);
    }
  }

  // ---------------------------------------------------------------- the code

  lemma ScanNone(d: Desk, context: nat, first: seq<Other>)
    ensures Scan(d, context, first, []) == Opened(d, context, first)
  {
  }

  lemma RunOfOne(s: Core, step: Step)
    ensures Transition.Run(s, [step]) == Next(s, step)
  {
    assert [step][..0] == [];
  }

  lemma ScanMore(d: Desk, context: nat, first: seq<Other>, plan: seq<Around>, i: nat)
    requires i < |plan| && Scan(d, context, first, plan[..i]).status == Going
    ensures Scan(d, context, first, plan[..i + 1]) == Visited(Scan(d, context, first, plan[..i]), context, plan[i])
  {
    assert plan[..i + 1][..i] == plan[..i];
  }

  lemma ScanLeft(d: Desk, context: nat, first: seq<Other>, plan: seq<Around>, i: nat)
    requires i <= |plan| && (Scan(d, context, first, plan[..i]).status != Going || i == |plan|)
    ensures Scan(d, context, first, plan) == Scan(d, context, first, plan[..i])
  {
    if i < |plan| {
      ScanEnds(d, context, first, plan[..i], plan[i..]);
      assert plan == plan[..i] + plan[i..];
    } else {
      assert plan == plan[..i];
    }
  }

  function Answer(p: Progress): Option<Reply> {
    if p.replies == [] then None else Some(p.replies[|p.replies| - 1])
  }

  /** Exactly the lapsed canaries of the context are rejected, under authority, and nothing else changes. */
  ghost predicate Expiring(before: Desk, after: Desk, context: nat, binding: Option<Binding>, published: nat -> bool,
                           now: int)
  {
    && after.listed == before.listed && after.approved == before.approved && after.considered == before.considered
    && after.core.p == before.core.p && after.core.receipts == before.core.receipts
    && after.core.rows.Keys == before.core.rows.Keys && after.core.resolvers == before.core.resolvers
    && forall c :: c in before.core.rows ==>
         after.core.rows[c] == Swept(before.core.rows[c], context, Standing(binding, published(c)), now)
  }

  class Reconciler {
    const runner: TransitionRunner
    var candidates: map<nat, Listing>
    var approved: set<nat>
    var considered: set<nat>

    constructor (runner: TransitionRunner, candidates: map<nat, Listing>, approved: set<nat>)
      ensures this.runner == runner && this.candidates == candidates && this.approved == approved && considered == {}
    {
      this.runner, this.candidates, this.approved, considered := runner, candidates, approved, {};
    }

    function Tables(): Desk
      reads this, runner, runner.guidance
    {
      Desk(runner.State(), candidates, approved, considered)
    }

    method Meanwhile(others: seq<Other>)
      requires runner.Valid()
      modifies `candidates, `approved, `considered, runner, runner.guidance
      ensures runner.Valid() && old(runner.trace) <= runner.trace && Tables() == Since(old(Tables()), others)
    {
      hide TransitionRunner.Valid, Next, Transition.Run;
      for i := 0 to |others|
        invariant runner.Valid() && old(runner.trace) <= runner.trace && Tables() == Since(old(Tables()), others[..i])
      {
        assert others[..i + 1][..i] == others[..i];
        match others[i] {
          case Machine(step) =>
            RunOfOne(runner.State(), step);
            runner.Meanwhile([step]);
          case Lists(c, row) =>
            if c !in candidates {
              candidates := candidates[c := row];
            }
          case Approves(c) => approved := approved + {c};
          case Excludes(c) => considered := considered + {c};
        }
      }
      assert others[..|others|] == others;
    }

    /** One pass through the body of the inner loop. */
    method VisitRow(e: Envelope, a: Around, ghost p: Progress, ghost context: nat) returns (reply: Reply)
      requires runner.Valid() && p.page != [] && p.page[0] == e && p.desk == Tables()
      modifies `candidates, `approved, `considered, runner, runner.guidance
      ensures runner.Valid() && old(runner.trace) <= runner.trace
      ensures var next := Visited(p, context, a);
              Tables() == next.desk && next.replies == p.replies + [reply]
    {
      hide TransitionRunner.Valid, Consider, Transition.Run, Since;
      reply := runner.ConsiderCandidate(Proposal(e.id, e.row.slot, e.row.version), a.checks, a.within, a.now);
      assert (runner.State(), reply) == Offer(p.desk.core, e, a);
      if !Stops(reply) {
        Meanwhile(a.after);
        if reply == RejectedReply {
          considered := considered + {e.id};
        }
      }
    }

    /** The inner loop, from visit i of the plan on. next is the number of visits made by its end; the page was left
        early if a reply stopped the scan or the plan ended there. */
    method VisitPage(page: seq<Envelope>, plan: seq<Around>, i: nat, last: Option<Reply>, ghost d: Desk,
                     ghost context: nat, ghost first: seq<Other>)
      returns (next: nat, result: Option<Reply>, left: bool)
      requires runner.Valid() && i <= |plan| && page != []
      requires var p := Scan(d, context, first, plan[..i]);
               p.status == Going && p.page == page && p.desk == Tables() && last == Answer(p)
      modifies `candidates, `approved, `considered, runner, runner.guidance
      ensures runner.Valid() && old(runner.trace) <= runner.trace && i <= next <= |plan|
      ensures var p := Scan(d, context, first, plan[..next]);
              && p.desk == Tables() && result == Answer(p)
              && (if left then p.status == Stopped || (p.status == Going && next == |plan|)
                  else next > i && p.page == Tables().Page(context, Some(page[|page| - 1].At()))
                       && p.status == (if p.page == [] then Finished else Going))
    {
      hide TransitionRunner.Valid, Offer, Since, Desk.Page, Scan;
      next, result, left := i, last, false;
      ghost var p := Scan(d, context, first, plan[..i]);
      for j := 0 to |page|
        invariant runner.Valid() && old(runner.trace) <= runner.trace && next == i + j <= |plan|
        invariant p == Scan(d, context, first, plan[..next]) && p.desk == Tables() && result == Answer(p)
        invariant if j < |page| then p.status == Going && p.page == page[j..]
                  else p.page == Tables().Page(context, Some(page[|page| - 1].At()))
                       && p.status == (if p.page == [] then Finished else Going)
      {
        if next == |plan| {
          left := true;
          return;
        }
        ScanMore(d, context, first, plan, next);
        var reply := VisitRow(page[j], plan[next], p, context);
        p := Visited(p, context, plan[next]);
        next, result := next + 1, Some(reply);
        if Stops(reply) {
          left := true;
          return;
        }
      }
    }

    /** reconcile_candidates after its resumption and expiry: the paged loop is the scan, over as many visits as the
        plan has; ended tells that the loop came to its end within them. */
    method ScanCandidates(context: nat, first: seq<Other>, plan: seq<Around>)
      returns (result: Option<Reply>, ended: bool)
      requires runner.Valid()
      modifies `candidates, `approved, `considered, runner, runner.guidance
      ensures runner.Valid() && old(runner.trace) <= runner.trace
      ensures var p := Scan(old(Tables()), context, first, plan);
              Tables() == p.desk && result == Answer(p) && (ended <==> p.status != Going)
    {
      hide TransitionRunner.Valid, Since, Desk.Page, Scan;
      ghost var d, p := Tables(), Opened(Tables(), context, first);
      assert p == Scan(d, context, first, plan[..0]) by { hide *; assert plan[..0] == []; ScanNone(d, context, first); }
      Meanwhile(first);
      result, ended := None, true;
      var cursor, i := None, 0;
      while true
        invariant runner.Valid() && old(runner.trace) <= runner.trace && i <= |plan|
        invariant p == Scan(d, context, first, plan[..i]) && p.desk == Tables() && result == Answer(p)
        invariant p.page == Tables().Page(context, cursor) && p.status == (if p.page == [] then Finished else Going)
        decreases |plan| - i
      {
        var page := Tables().Page(context, cursor);
        if page == [] {
          ScanLeft(d, context, first, plan, i);
          break;
        }
        var left;
        i, result, left := VisitPage(page, plan, i, result, d, context, first);
        p := Scan(d, context, first, plan[..i]);
        if left {
          ScanLeft(d, context, first, plan, i);
          ScanAnswers(d, context, first, plan[..i]);
          ended := result.Some? && Stops(result.value);
          return;
        }
        cursor := Some(page[|page| - 1].At());
      }
    }

    /** resume_incomplete_transitions of the context. */
    method Resume(context: nat, binding: Option<Binding>, published: nat -> bool, gaps: nat -> seq<Gap>,
                  outside: nat -> Outside)
      returns (interrupted: Option<nat>)
      requires runner.Valid() && runner.resolvers == map[] && forall c :: |gaps(c)| == 7
      modifies runner, runner.guidance
      ensures runner.Valid() && old(runner.trace) <= runner.trace
      ensures runner.rows.Keys == old(runner.rows).Keys && runner.receipts == old(runner.receipts)
      ensures interrupted.Some? ==> interrupted.value in old(runner.PendingOf(context))
                                    && interrupted.value in runner.rows && Pending(runner.rows[interrupted.value])
      ensures interrupted.None? && binding.Some? ==>
                forall c :: c in old(runner.PendingOf(context)) ==> c in runner.rows && !Pending(runner.rows[c])
      ensures forall c :: c in runner.rows && c !in old(runner.PendingOf(context)) ==>
                runner.rows[c] == old(runner.rows)[c]
    {
      hide TransitionRunner.Valid, Interrupted;
      ghost var reached;
      interrupted, reached := runner.ResumeIncomplete(context, binding, published, gaps, outside);
    }

    /** Without authority nothing expires. */
    method Expire(context: nat, binding: Option<Binding>, published: nat -> bool, now: int)
      requires runner.Valid()
      modifies runner
      ensures runner.Valid() && old(runner.trace) <= runner.trace && runner.resolvers == old(runner.resolvers)
      ensures runner.rows.Keys == old(runner.rows).Keys && runner.receipts == old(runner.receipts)
      ensures forall c :: c in runner.rows ==>
                runner.rows[c] == Swept(old(runner.rows)[c], context, Standing(binding, published(c)), now)
    {
      hide TransitionRunner.Valid;
      if binding.Some? {
        var _ := runner.ExpireCanaries(context, (c: nat) => Standing(binding, published(c)), now);
      }
    }

    /** reconcile_candidates. An exception or crash while pending transitions are resumed ends the call: nothing expires
        and nothing is scanned. Otherwise, and after whatever others do, lapsed canaries are rejected under an
        authority read anew, and the scan follows. resumed and swept are the tables after resumption and expiry. */
    method Reconcile(context: nat, binding: Option<Binding>, published: nat -> bool, gaps: nat -> seq<Gap>,
                     outside: nat -> Outside, between: seq<Other>, again: Option<Binding>, republished: nat -> bool,
                     now: int, first: seq<Other>, plan: seq<Around>)
      returns (interrupted: Option<nat>, result: Option<Reply>, ended: bool, ghost resumed: Desk, ghost swept: Desk)
      requires runner.Valid() && runner.resolvers == map[] && forall c :: |gaps(c)| == 7
      modifies `candidates, `approved, `considered, runner, runner.guidance
      ensures runner.Valid() && old(runner.trace) <= runner.trace
      ensures resumed.listed == old(candidates) && resumed.approved == old(approved)
                && resumed.considered == old(considered) && resumed.core.receipts == old(runner.receipts)
                && resumed.core.rows.Keys == old(runner.rows).Keys
      ensures forall c :: c in resumed.core.rows && c !in old(runner.PendingOf(context)) ==>
                resumed.core.rows[c] == old(runner.rows)[c]
      ensures interrupted.Some? ==>
                && interrupted.value in old(runner.PendingOf(context))
                && interrupted.value in resumed.core.rows && Pending(resumed.core.rows[interrupted.value])
                && Tables() == resumed && result.None? && ended
      ensures interrupted.None? ==>
                && (binding.Some? ==> forall c :: c in old(runner.PendingOf(context)) ==>
                     !Pending(resumed.core.rows[c]))
                && Expiring(Since(resumed, between), swept, context, again, republished, now)
                && var p := Scan(swept, context, first, plan);
                   Tables() == p.desk && result == Answer(p) && (ended <==> p.status != Going)
    {
      hide Scan, Since, TransitionRunner.Valid, TransitionRunner.PendingOf, Swept, Pending, Answer;
      result, ended := None, true;
      interrupted := Resume(context, binding, published, gaps, outside);
      resumed := Tables();
      swept := resumed;
      if interrupted.None? {
        Meanwhile(between);
        Expire(context, again, republished, now);
        swept := Tables();
        result, ended := ScanCandidates(context, first, plan);
      }
    }
  }
}
