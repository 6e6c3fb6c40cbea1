/** The runner's code over its tables. Every gap between two durable actions carries the foreign
    pointer writes that happen there and whether the process crashes; each method is proved to be a run of
    the transition machine, so the theorems about runs are theorems about this code. */
module Runner {
  import opened Basics
  import opened GuidancePointer
  import opened Transition
  import Decisions

  datatype Gap = Gap(writes: seq<PointerOp>, crash: bool)

  /** A step of candidate c's resolver, or a foreign pointer call. */
  ghost predicate Own(c: nat, step: Step) {
    match step
    case Foreign(_) => true
    case Begin(d) => d == c
    case Resolve(d, _) => d == c
    case Crash(d) => d == c
    case _ => false
  }

  /** Why a resolver may stop before its final write: a crash in one of its gaps, a refused grant, or a version
      that is not staged for the slot. */
  ghost predicate Interrupted(gaps: seq<Gap>, o: Outside, p: Pointers, row: Row) {
    (exists i :: 0 <= i < |gaps| && gaps[i].crash) || !o.authority || !InScope(p, row)
  }

  ghost predicate Extends(c: nat, before: seq<Step>, after: seq<Step>) {
    && before <= after
    && (forall i :: |before| <= i < |after| ==> Own(c, after[i]))
  }

  /** A canary of the context whose plan has run out, under matching authority. */
  predicate Lapsed(row: Row, context: nat, standing: Standing, now: int) {
    row.slot.context == context && row.phase == Canary && standing.Matches(row) && Expired(row, now)
  }

  /** A row after expiry. */
  function Swept(row: Row, context: nat, standing: Standing, now: int): Row {
    if Lapsed(row, context, standing, now) then row.(phase := Rejected, reason := CanaryExpired) else row
  }

  /** A pending row is left for recovery under authority other than its own; under its own it is settled, unless its
      resolver was interrupted. */
  ghost predicate Resumed(before: Row, after: Row, standing: Standing, interrupted: bool, gaps: seq<Gap>, o: Outside,
                          p: Pointers) {
    if interrupted then
      && after == before
      && (if standing.Matches(before) then Interrupted(gaps, o, p, before)
          else exists i :: 0 <= i < |gaps| && gaps[i].crash)
    else if standing.Matches(before) then !Pending(after)
    else after == before.(phase := RecoveryRequired, reason := AuthorityDrift)
  }

  lemma InterruptedEarlier(gaps: seq<Gap>, o: Outside, p: Pointers, q: Pointers, row: Row)
    requires gaps != [] && VersionsKept(p, q) && Interrupted(gaps[1..], o, q, row)
    ensures Interrupted(gaps, o, p, row)
  {
    if i :| 0 <= i < |gaps[1..]| && gaps[1..][i].crash {
      assert gaps[i + 1].crash;
    }
  }

  lemma InterruptedWithin(gaps: seq<Gap>, lo: nat, hi: nat, o: Outside, p: Pointers, q: Pointers, row: Row)
    requires lo <= hi <= |gaps| && VersionsKept(p, q) && Interrupted(gaps[lo..hi], o, q, row)
    ensures Interrupted(gaps, o, p, row)
  {
    if i :| 0 <= i < hi - lo && gaps[lo..hi][i].crash {
      assert gaps[lo + i].crash;
    }
  }

  lemma ResumedEarlier(before: Row, after: Row, standing: Standing, interrupted: bool, gaps: seq<Gap>, o: Outside,
                       p: Pointers, q: Pointers)
    requires VersionsKept(p, q) && Resumed(before, after, standing, interrupted, gaps, o, q)
    ensures Resumed(before, after, standing, interrupted, gaps, o, p)
  {
  }

  lemma KeptThroughout(p: Pointers, q: Pointers, r: Pointers)
    requires p == q == r || (VersionsKept(p, q) && VersionsKept(q, r))
    ensures VersionsKept(p, r)
  {
  }

  ghost function AfterVersion(pc: Pc, version: Option<Version>): Pc
    requires pc.ReadVersion? || pc.RereadVersion?
  {
    if pc.ReadVersion? then ReadRevision(version) else RereadRevision(pc.refused, version)
  }

  ghost function AfterRevision(item: Row, pc: Pc, version: Option<Version>, revision: nat, o: Outside): Pc
    requires pc.ReadVersion? || pc.RereadVersion?
  {
    if pc.ReadVersion? then AfterReads(item, version, revision, o)
    else if version == SwapTo(item) && revision == item.expected + 1 then Finish(true, revision, true)
    else Finish(false, pc.refused, false)
  }

  lemma VersionReadIs(s: Core, c: nat, o: Outside)
    requires c in s.resolvers && (s.resolvers[c].pc.ReadVersion? || s.resolvers[c].pc.RereadVersion?)
    ensures Next(s, Resolve(c, o))
         == (var r := s.resolvers[c];
             s.(resolvers := s.resolvers[c := r.(pc := AfterVersion(r.pc, s.p.CurrentVersion(r.item.slot)))]))
  {
  }

  lemma RevisionReadIs(s: Core, c: nat, pc: Pc, version: Option<Version>, o: Outside)
    requires c in s.resolvers && (pc.ReadVersion? || pc.RereadVersion?)
               && s.resolvers[c].pc == AfterVersion(pc, version)
    ensures Next(s, Resolve(c, o))
         == (var r := s.resolvers[c];
             var decided := AfterRevision(r.item, pc, version, s.p.LookupRevision(r.item.slot), o);
             s.(resolvers := s.resolvers[c := r.(pc := decided)]))
  {
    hide AfterReads;
  }

  /** What the pointer call makes of the resolver that asked for it. */
  function Called(resolver: Resolver, result: CasResult): Option<Resolver> {
    match result
    case Applied(revision) => Some(resolver.(pc := Finish(true, revision, false)))
    case Refused(revision) => Some(resolver.(pc := RereadVersion(revision)))
    case _ => None
  }

  lemma SwapIsCall(s: Core, c: nat, o: Outside)
    requires c in s.resolvers && s.resolvers[c].pc == Swap && o.authority
    ensures var (p, result) := Do(s.p, SwapOp(c, s.resolvers[c].item));
            var next := Called(s.resolvers[c], result);
            Next(s, Resolve(c, o)) == Core(p, s.rows, s.receipts,
                                           if next.Some? then s.resolvers[c := next.value] else s.resolvers - {c})
  {
    hide Do, SwapOp;
  }

  function Usable(version: Option<Version>, available: Version -> bool): Option<Version> {
    if version.Some? && available(version.value) then version else None
  }

  /** The choice on a fetched row, given which versions have a usable artifact. */
  function ChoiceOn(row: Row, seen: Option<Version>, revision: nat, standing: Standing, now: int,
                    assignment: Option<nat>, available: Version -> bool): Choice
  {
    Choose(row, seen, revision, standing, now, assignment, available(row.version),
           row.baseline.Some? && available(row.baseline.value))
  }

  /** Whether the slot is read at all: not for a row that is stopped anyway. */
  predicate MustRead(row: Row, standing: Standing, now: int) {
    standing.Matches(row) && !(row.phase == Canary && Expired(row, now))
  }

  /** What a choice on the fetched row leads to: a selection with its arm's artifact, the guarded mark of whatever the
      row is by then, or neither. */
  ghost predicate Selected(c: nat, fetched: Row, choice: Choice, exposure: nat, selection: Option<Selection>,
                           artifact: Option<Version>, before: Core, after: Core)
  {
    match choice
    case Nothing => selection.None? && artifact.None? && after == before
    case Chosen(arm) =>
      && after == before
      && var stage := if fetched.phase == Canary then InCanary else InMonitor;
      && selection == Some(Selection(c, fetched.slot, fetched.version, stage, arm, Some(exposure)))
      && artifact == (if arm == IncumbentArm then fetched.baseline else Some(fetched.version))
    case MarkRow(from, phase, reason) =>
      selection.None? && artifact.None? && after == before.Mark(c, from, phase, reason)
  }

  /** The same in terms of the row, the plan and the caller's facts: an arm is served, or the row is marked for its
      reason, or neither. */
  ghost predicate Answered(c: nat, fetched: Row, seen: Option<Version>, revision: nat, standing: Standing, now: int,
                           assignment: Option<nat>, available: Version -> bool, exposure: nat,
                           selection: Option<Selection>, artifact: Option<Version>, before: Core, after: Core)
  {
    && (forall arm :: Decisions.Served(fetched, seen, revision, standing, now, assignment, available, arm) ==>
          && selection == Some(Selection(c, fetched.slot, fetched.version,
                                         if fetched.phase == Canary then InCanary else InMonitor, arm, Some(exposure)))
          && artifact == Decisions.ServedVersion(fetched, arm) && after == before)
    && (forall from, phase, reason ::
          Decisions.Marked(fetched, seen, revision, standing, now, assignment, available, from, phase, reason) ==>
            selection.None? && artifact.None? && after == before.Mark(c, from, phase, reason))
    && (selection.Some? ==>
          exists arm :: Decisions.Served(fetched, seen, revision, standing, now, assignment, available, arm))
    && (after != before ==>
          exists from, phase, reason ::
            Decisions.Marked(fetched, seen, revision, standing, now, assignment, available, from, phase, reason))
    && (artifact.Some? ==> selection.Some?)
  }

  lemma SelectedIsAnswered(c: nat, fetched: Row, seen: Option<Version>, revision: nat, standing: Standing, now: int,
                           assignment: Option<nat>, available: Version -> bool, exposure: nat,
                           selection: Option<Selection>, artifact: Option<Version>, before: Core, after: Core)
    requires fetched.phase in {Canary, Monitoring}
    requires Selected(c, fetched, ChoiceOn(fetched, seen, revision, standing, now, assignment, available), exposure,
                      selection, artifact, before, after)
    ensures Answered(c, fetched, seen, revision, standing, now, assignment, available, exposure, selection, artifact,
                     before, after)
  {
    hide Choose, Decisions.Served, Decisions.Marked;
    Decisions.ChoiceMeans(fetched, seen, revision, standing, now, assignment, available);
    ServedArmIsKnown(fetched, seen, revision, standing, now, assignment, available);
  }

  lemma ServedArmIsKnown(row: Row, seen: Option<Version>, revision: nat, standing: Standing, now: int,
                         assignment: Option<nat>, available: Version -> bool)
    ensures !Decisions.Served(row, seen, revision, standing, now, assignment, available, UnknownArm)
  {
  }

  /** The refusal of a check that does not look at the store. */
  function Screened(x: Proposal, checks: Checks): Option<Reply> {
    if checks.binding.None? then Some(NotAuthorized)
    else if Settings(checks.binding.value, x.slot.bucket).None? || !checks.verified then Some(RejectedReply)
    else if checks.published.None? then Some(AuthorityUnavailable)
    else if !checks.published.value then Some(RejectedReply)
    else if !checks.approved then Some(PendingCoordinator)
    else if !checks.validated || !checks.artifact then Some(RejectedReply)
    else None
  }

  lemma ScreenedIsFinal(s: Core, x: Proposal, checks: Checks, now: int)
    ensures Screened(x, checks).Some? ==> Consider(s, x, checks, now) == (s, Screened(x, checks).value)
  {
  }

  class TransitionRunner {
    const guidance: GuidanceStore
    var rows: map<nat, Row>
    var receipts: seq<Receipt>
    /** Where the processes stand that resolve a pending row; the code keeps it on their stacks. */
    var resolvers: map<nat, Resolver>
    ghost const start: Core
    ghost var trace: seq<Step>

    function State(): Core
      reads this, guidance
    {
      Core(guidance.State(), rows, receipts, resolvers)
    }

    /** What happened so far is a run of the machine. */
    ghost predicate Valid()
      reads this, guidance
    {
      State() == Transition.Run(start, trace)
    }

    constructor (guidance: GuidanceStore)
      ensures this.guidance == guidance && Valid() && trace == []
      ensures rows == map[] && receipts == [] && resolvers == map[]
    {
      this.guidance := guidance;
      rows, receipts, resolvers, trace := map[], [], map[], [];
      start := Core(guidance.State(), map[], [], map[]);
    }

    /** Records the step that the preceding action was, and moves the resolvers accordingly. */
    method Note(before: Core, step: Step)
      requires before == Transition.Run(start, trace) && before.resolvers == resolvers
      requires var t := Next(before, step); guidance.State() == t.p && rows == t.rows && receipts == t.receipts
      modifies `trace, `resolvers
      ensures State() == Next(before, step) && trace == old(trace) + [step] && Valid()
    {
      resolvers := Next(before, step).resolvers;
      trace := trace + [step];
      assert trace[..|trace| - 1] == old(trace);
    }

    /** A step that only moves a resolver. */
    method Look(step: Step)
      requires Valid()
      requires var t := Next(State(), step); guidance.State() == t.p && rows == t.rows && receipts == t.receipts
      modifies `trace, `resolvers
      ensures State() == Next(old(State()), step) && trace == old(trace) + [step] && Valid()
    {
      Note(State(), step);
    }

    // ---------------------------------------------------------------- admission

    /** Whatever other processes do, as steps of the machine. */
    method Meanwhile(steps: seq<Step>)
      requires Valid()
      modifies this, guidance
      ensures Valid() && trace == old(trace) + steps && State() == Transition.Run(old(State()), steps)
    {
      hide Next;
      for i := 0 to |steps|
        invariant Valid() && trace == old(trace) + steps[..i] && State() == Transition.Run(old(State()), steps[..i])
      {
        assert steps[..i + 1][..i] == steps[..i];
        var before := State();
        var after := Next(before, steps[i]);
        guidance.Become(after.p);
        rows, receipts := after.rows, after.receipts;
        Note(before, steps[i]);
      }
      assert steps[..|steps|] == steps;
    }

    /** consider_candidate: checks of other modules' records first, then, after whatever others do, the transaction. */
    method ConsiderCandidate(x: Proposal, checks: Checks, others: seq<Step>, now: int) returns (reply: Reply)
      requires Valid()
      modifies this, guidance
      ensures Valid()
      ensures Screened(x, checks).Some? ==>
                Screened(x, checks) == Some(reply) && trace == old(trace) && State() == old(State())
      ensures Screened(x, checks).None? ==> trace == old(trace) + others + [Admit(x, checks, now)]
      ensures var met := if Screened(x, checks).Some? then old(State()) else Transition.Run(old(State()), others);
              (State(), reply) == Consider(met, x, checks, now)
    {
      hide Consider, Next, Transition.Run;
      var refusal := Screen(x, checks);
      ScreenedIsFinal(old(State()), x, checks, now);
      if refusal.Some? {
        return refusal.value;
      }
      Meanwhile(others);
      reply := AdmitRow(x, checks, now);
    }

    /** The checks ahead of the transaction, in the code's order. */
    method Screen(x: Proposal, checks: Checks) returns (refusal: Option<Reply>)
      ensures refusal == Screened(x, checks)
    {
      if checks.binding.None? {
        return Some(NotAuthorized);
      }
      var settings := Settings(checks.binding.value, x.slot.bucket);
      if settings.None? || !checks.verified {
        return Some(RejectedReply);
      }
      if checks.published.None? {
        return Some(AuthorityUnavailable);
      }
      if !checks.published.value {
        return Some(RejectedReply);
      }
      if !checks.approved {
        return Some(PendingCoordinator);
      }
      if !checks.validated || !checks.artifact {
        return Some(RejectedReply);
      }
      refusal := None;
    }

    /** The transaction. */
    method AdmitRow(x: Proposal, checks: Checks, now: int) returns (reply: Reply)
      requires Valid() && Screened(x, checks).None?
      modifies `rows, `trace, `resolvers
      ensures Valid() && trace == old(trace) + [Admit(x, checks, now)]
      ensures (State(), reply) == Consider(old(State()), x, checks, now)
    {
      var before := State();
      reply := InsertRow(x, checks, now);
      Note(before, Admit(x, checks, now));
    }

    method InsertRow(x: Proposal, checks: Checks, now: int) returns (reply: Reply)
      requires Screened(x, checks).None?
      modifies `rows
      ensures (State(), reply) == Consider(old(State()), x, checks, now)
    {
      var occupied := exists c :: c in rows && rows[c].slot == x.slot && Live(rows[c].phase);
      if occupied {
        return AlreadyRunning;
      }
      var baseline := if x.slot in guidance.active then Some(guidance.active[x.slot].version) else None;
      var revision := if x.slot in guidance.revisions then guidance.revisions[x.slot] else 0;
      if !checks.evidence(baseline) {
        return RejectedReply;
      }
      if !checks.replayReady && !(checks.replayMissingBaseline && baseline.None?) {
        return RejectedReply;
      }
      if !checks.grant {
        return Raised;
      }
      if x.candidate !in rows {
        if x.version !in guidance.versions {
          return Raised;
        }
        var zero := Counter(0, 0);
        var origin := Origin(revision, guidance.EffectiveNow(x.slot), |guidance.audits|);
        rows := rows[x.candidate := Row(x.slot, x.version, baseline, revision, Canary, zero, zero, zero,
                                        CandidateAdmitted, now, checks.binding.value, origin)];
      }
      reply := Now(rows[x.candidate].phase);
    }

    // ---------------------------------------------------------------- recording outcomes

    method DecideCanary(settings: CanarySettings, item: Row, hardFailures: nat) returns (next: Phase, reason: Reason)
      requires settings.minimum >= 1
      ensures (next, reason) == CanaryVerdict(settings, item.canary, item.control, hardFailures)
    {
      next, reason := Canary, OutcomeRecorded;
      var total := item.canary.observations + item.control.observations;
      if hardFailures > settings.veto {
        next, reason := Rejected, CandidateHardFailure;
      } else if total >= settings.horizon {
        if item.canary.observations < settings.minimum || item.control.observations < settings.minimum {
          next, reason := Rejected, CanaryUnderpowered;
        } else if Rate(item.canary) - Rate(item.control) > settings.margin {
          next, reason := RolledBack, CanaryRegression;
        } else {
          next, reason := Promoting, CanaryPassed;
        }
      }
    }

    method DecideMonitor(item: Row, hardFailures: nat) returns (next: Phase, reason: Reason)
      requires item.monitor.observations >= 1
      ensures (next, reason) == MonitorVerdict(item.binding.monitor, item.monitor, item.control, hardFailures)
    {
      var plan, n := item.binding.monitor, item.monitor.observations;
      next, reason := Monitoring, OutcomeRecorded;
      if item.control.observations < 1 {
        next, reason := RecoveryRequired, MonitorBaselineMissing;
      } else if hardFailures > plan.veto {
        next, reason := RollingBack, MonitorHardFailure;
      } else if n % plan.look == 0 || n >= plan.horizon {
        if Rate(item.monitor) - Rate(item.control) > plan.margin {
          next, reason := RollingBack, MonitorRegression;
        } else if n >= plan.horizon {
          next, reason := Retained, MonitorPassed;
        }
      }
    }

    /** The transaction of record_outcome, before any pointer work it leads to. */
    method RecordRow(x: Selection, success: Option<bool>, hard: Option<bool>, standing: Standing, now: int)
      returns (reply: Reply)
      modifies `rows, `receipts
      ensures (State(), reply) == Record(old(State()), x, success, hard, standing, now)
    {
      if success.None? {
        return OutcomeUnknown;
      }
      if hard.None? || x.exposure.None? {
        return InvalidOutcome;
      }
      if standing.binding.None? {
        return NotAuthorized;
      }
      var c := x.candidate;
      if c !in rows || rows[c].phase != StagePhase(x.stage) {
        return StaleSelection;
      }
      var item := rows[c];
      if item.slot != x.slot || item.version != x.version || !standing.Matches(item) {
        rows := rows[c := item.(phase := RecoveryRequired, reason := AuthorityDrift)];
        return Now(RecoveryRequired);
      }
      if x.stage == InCanary && Expired(item, now) {
        rows := rows[c := item.(phase := Rejected, reason := CanaryExpired)];
        return Now(Rejected);
      }
      var version := if x.slot in guidance.active then Some(guidance.active[x.slot].version) else None;
      var revision := if x.slot in guidance.revisions then guidance.revisions[x.slot] else 0;
      var expectedVersion := if x.stage == InMonitor then Some(item.version) else item.baseline;
      if version != expectedVersion || revision != item.expected {
        var reason := if x.stage == InCanary then CanaryBaselineDrift else ActivePointerDrift;
        rows := rows[c := item.(phase := RecoveryRequired, reason := reason)];
        return Now(RecoveryRequired);
      }
      if Recorded(receipts, c, x.exposure.value) {
        return DuplicateOutcome;
      }
      if x.arm == UnknownArm || (x.stage == InMonitor && x.arm != CandidateArm) {
        return StaleSelection;
      }
      reply := AcceptOutcome(x, success.value, hard.value);
    }

    /** The receipt, the arm's counters and the decision they lead to. */
    method AcceptOutcome(x: Selection, success: bool, hard: bool) returns (reply: Reply)
      requires x.candidate in rows && x.exposure.Some?
      modifies `rows, `receipts
      ensures var c, item := x.candidate, old(rows)[x.candidate];
              var inserted := old(receipts) + [Receipt(c, x.exposure.value, x.stage, x.arm, success, hard)];
              var next := Observed(item, Of(inserted, c), x.stage, x.arm, success);
              if next.None? then reply == Raised && rows == old(rows) && receipts == old(receipts)
              else reply == Now(next.value.phase) && rows == old(rows)[c := next.value] && receipts == inserted
    {
      var c, item := x.candidate, rows[x.candidate];
      var inserted := receipts + [Receipt(c, x.exposure.value, x.stage, x.arm, success, hard)];
      var hardFailures := HardFailures(Of(inserted, c), x.stage);
      if x.stage == InCanary {
        if x.arm == CandidateArm {
          item := item.(canary := item.canary.Observe(success));
        } else {
          item := item.(control := item.control.Observe(success));
        }
        var settings := Settings(item.binding, item.slot.bucket);
        if settings.None? {
          return Raised;
        }
        var next, reason := DecideCanary(settings.value, item, hardFailures);
        item := item.(phase := next, reason := reason);
      } else {
        item := item.(monitor := item.monitor.Observe(success));
        var next, reason := DecideMonitor(item, hardFailures);
        item := item.(phase := next, reason := reason);
      }
      receipts := inserted;
      rows := rows[c := item];
      reply := Now(item.phase);
    }

    method RecordOutcome(x: Selection, success: Option<bool>, hard: Option<bool>, standing: Standing, now: int)
      returns (reply: Reply)
      requires Valid()
      modifies this
      ensures Valid() && trace == old(trace) + [Step.RecordOutcome(x, success, hard, standing, now)]
      ensures (State(), reply) == Record(old(State()), x, success, hard, standing, now)
      ensures resolvers == old(resolvers)
      ensures if reply.Now? then x.candidate in rows && rows[x.candidate].phase == reply.phase
              else rows == old(rows) && receipts == old(receipts)
      ensures receipts != old(receipts) <==> Decisions.Counted(old(State()), x, success, hard, standing, now)
    {
      hide Decisions.Counted;
      Decisions.CountedExactly(State(), x, success, hard, standing, now);
      var before := State();
      reply := RecordRow(x, success, hard, standing, now);
      Note(before, Step.RecordOutcome(x, success, hard, standing, now));
    }

    // ---------------------------------------------------------------- gaps

    method Elsewhere(op: PointerOp)
      requires Valid()
      modifies guidance, `trace, `resolvers
      ensures Valid() && State() == Next(old(State()), Foreign(op)) && trace == old(trace) + [Foreign(op)]
      ensures VersionsKept(old(guidance.State()), guidance.State())
    {
      var before := State();
      StepKeepsVersions(before.p, op);
      if !op.actor.RunnerFor? {
        match op {
          case Cas(k, v, expected, action, actor) => var _ := guidance.CompareAndSwap(k, v, expected, action, actor);
          case Clear(k, expected, actor) => var _ := guidance.ClearSlot(k, expected, actor);
          case Stage(k, v, actor) => guidance.AppendVersion(v, k, actor);
        }
      }
      Note(before, Foreign(op));
    }

    method Others(c: nat, writes: seq<PointerOp>)
      requires Valid()
      modifies guidance, `trace, `resolvers
      ensures Valid() && Extends(c, old(trace), trace) && resolvers == old(resolvers)
      ensures VersionsKept(old(guidance.State()), guidance.State())
    {
      hide Valid;
      for i := 0 to |writes|
        invariant Valid() && Extends(c, old(trace), trace) && resolvers == old(resolvers)
        invariant VersionsKept(old(guidance.State()), guidance.State())
      {
        Elsewhere(writes[i]);
      }
    }

    /** One gap in candidate c's resolver. Afterwards either its position is as before, or it is gone. */
    method Pause(c: nat, gap: Gap) returns (crashed: bool)
      requires Valid()
      modifies guidance, `trace, `resolvers
      ensures Valid() && Extends(c, old(trace), trace)
      ensures resolvers == if crashed then old(resolvers) - {c} else old(resolvers)
      ensures crashed == gap.crash && VersionsKept(old(guidance.State()), guidance.State())
    {
      Others(c, gap.writes);
      crashed := gap.crash;
      if crashed {
        Note(State(), Crash(c));
      }
    }

    // ---------------------------------------------------------------- the resolver's actions

    ghost predicate Resolving(c: nat, item: Row, pc: Pc)
      reads this, guidance
    {
      Valid() && c in resolvers && resolvers[c] == Resolver(item, pc) && c in rows && rows[c] == item
    }

    method ActiveVersion(c: nat, item: Row, ghost pc: Pc, o: Outside) returns (version: Option<Version>)
      requires Resolving(c, item, pc) && (pc.ReadVersion? || pc.RereadVersion?)
      modifies `trace, `resolvers
      ensures Resolving(c, item, AfterVersion(pc, version)) && Extends(c, old(trace), trace)
                && resolvers.Keys == old(resolvers).Keys
      ensures resolvers - {c} == old(resolvers) - {c}
    {
      hide Next, AfterVersion, Valid;
      VersionReadIs(State(), c, o);
      var active := guidance.GetActive(item.slot);
      version := match active case None => None case Some(row) => Some(row.0);
      Look(Resolve(c, o));
    }

    method ActiveRevision(c: nat, item: Row, ghost pc: Pc, version: Option<Version>, o: Outside) returns (revision: nat)
      requires (pc.ReadVersion? || pc.RereadVersion?) && Resolving(c, item, AfterVersion(pc, version))
      modifies `trace, `resolvers
      ensures Resolving(c, item, AfterRevision(item, pc, version, revision, o)) && Extends(c, old(trace), trace)
      ensures resolvers.Keys == old(resolvers).Keys && resolvers - {c} == old(resolvers) - {c}
    {
      hide Next, AfterVersion, AfterRevision, Valid;
      RevisionReadIs(State(), c, pc, version, o);
      revision := guidance.GetRevision(item.slot);
      Look(Resolve(c, o));
    }

    /** _active_slot: two separate reads, with a gap between them. Its position afterwards is the
        resolver's decision, which the caller is about to make. */
    method ActiveSlot(c: nat, item: Row, ghost pc: Pc, gap: Gap, o: Outside)
      returns (crashed: bool, version: Option<Version>, revision: nat)
      requires Resolving(c, item, pc) && (pc.ReadVersion? || pc.RereadVersion?)
      modifies guidance, `trace, `resolvers
      ensures Valid() && Extends(c, old(trace), trace) && resolvers - {c} == old(resolvers) - {c}
      ensures crashed ==> c !in resolvers
      ensures !crashed ==> Resolving(c, item, AfterRevision(item, pc, version, revision, o))
      ensures crashed == gap.crash && VersionsKept(old(guidance.State()), guidance.State())
    {
      version := ActiveVersion(c, item, pc, o);
      revision := 0;
      crashed := Pause(c, gap);
      if !crashed {
        revision := ActiveRevision(c, item, pc, version, o);
      }
    }

    /** The pointer call: compare-and-swap, or clear when the incumbent is the empty baseline. */
    method CallPointer(c: nat, item: Row) returns (result: CasResult)
      requires Pending(item)
      modifies guidance
      ensures (guidance.State(), result) == Do(old(guidance.State()), SwapOp(c, item))
      ensures VersionsKept(old(guidance.State()), guidance.State())
      ensures !result.Applied? && !result.Refused? ==> !InScope(guidance.State(), item)
    {
      if item.phase == Promoting {
        result := guidance.CompareAndSwap(item.slot, item.version, Some(item.expected), AutomaticPromote, RunnerFor(c));
      } else if item.baseline.Some? {
        result := guidance.RollBack(item.slot, item.baseline.value, Some(item.expected), RunnerFor(c));
      } else {
        result := guidance.ClearSlot(item.slot, item.expected, RunnerFor(c));
      }
    }

    method SwapPointer(c: nat, item: Row, o: Outside) returns (result: CasResult)
      requires Resolving(c, item, Swap) && o.authority && Pending(item)
      modifies guidance, `trace, `resolvers
      ensures Valid() && Extends(c, old(trace), trace)
      ensures result.Applied? ==> Resolving(c, item, Finish(true, result.revision, false))
      ensures result.Refused? ==> Resolving(c, item, RereadVersion(result.revision))
      ensures resolvers - {c} == old(resolvers) - {c}
      ensures !result.Applied? && !result.Refused? ==> c !in resolvers && !InScope(guidance.State(), item)
      ensures VersionsKept(old(guidance.State()), guidance.State())
    {
      hide Do, SwapOp, Next, VersionsKept, InScope;
      var before := State();
      SwapIsCall(before, c, o);
      result := CallPointer(c, item);
      Note(before, Resolve(c, o));
    }

    /** After a refused call the slot is read again, because an earlier attempt may have succeeded. */
    method Confirm(c: nat, item: Row, refused: nat, gaps: seq<Gap>, o: Outside)
      returns (verdict: Option<(bool, nat, bool)>)
      requires Resolving(c, item, RereadVersion(refused)) && |gaps| == 2
      modifies guidance, `trace, `resolvers
      ensures Valid() && Extends(c, old(trace), trace) && resolvers - {c} == old(resolvers) - {c}
      ensures verdict.None? ==> c !in resolvers && exists i :: 0 <= i < |gaps| && gaps[i].crash
      ensures verdict.Some? ==> Resolving(c, item, Finish(verdict.value.0, verdict.value.1, verdict.value.2))
      ensures VersionsKept(old(guidance.State()), guidance.State())
    {
      hide Valid, Next;
      verdict := None;
      var crashed, seen, observed := ActiveSlot(c, item, RereadVersion(refused), gaps[0], o);
      if crashed { return; }
      crashed := Pause(c, gaps[1]);
      if crashed { return; }
      var target := if item.phase == Promoting then Some(item.version) else item.baseline;
      if seen == target && observed == item.expected + 1 {
        verdict := Some((true, observed, true));
      } else {
        verdict := Some((false, refused, false));
      }
    }

    /** Without a valid grant the pointer call raises. */
    method GiveUp(c: nat, item: Row, o: Outside)
      requires Resolving(c, item, Swap) && !o.authority
      modifies `trace, `resolvers
      ensures Valid() && Extends(c, old(trace), trace) && resolvers == old(resolvers) - {c}
    {
      Look(Resolve(c, o));
    }

    /** The authorised call with everything that follows it up to the final write. The result is None when the
        process crashed or an exception was raised. */
    method SwapAndConfirm(c: nat, item: Row, gaps: seq<Gap>, o: Outside) returns (verdict: Option<(bool, nat, bool)>)
      requires Resolving(c, item, Swap) && Pending(item) && |gaps| == 3
      modifies guidance, `trace, `resolvers
      ensures Valid() && Extends(c, old(trace), trace) && resolvers - {c} == old(resolvers) - {c}
      ensures verdict.None? ==> c !in resolvers && Interrupted(gaps, o, old(guidance.State()), item)
      ensures verdict.Some? ==> Resolving(c, item, Finish(verdict.value.0, verdict.value.1, verdict.value.2))
      ensures VersionsKept(old(guidance.State()), guidance.State())
    {
      hide Next, Valid;
      verdict := None;
      if !o.authority {
        GiveUp(c, item, o);
        return;
      }
      var result := SwapPointer(c, item, o);
      if result.OutOfScope? || result.Staged? { return; }
      var crashed := Pause(c, gaps[0]);
      if crashed { return; }
      if result.Applied? {
        return Some((true, result.revision, false));
      }
      verdict := Confirm(c, item, result.revision, gaps[1..], o);
    }

    method WriteRejected(c: nat, item: Row, reason: Reason, o: Outside)
      requires Resolving(c, item, Reject(reason)) && item.phase == Promoting
      modifies `rows, `trace, `resolvers
      ensures Valid() && Extends(c, old(trace), trace) && resolvers == old(resolvers) - {c}
      ensures rows == old(rows)[c := item.(phase := Rejected, reason := reason)]
    {
      var before := State();
      if rows[c].phase == Promoting {
        rows := rows[c := rows[c].(phase := Rejected, reason := reason)];
      }
      Note(before, Resolve(c, o));
    }

    method WriteResult(c: nat, item: Row, applied: bool, revision: nat, recovered: bool, o: Outside)
      requires Resolving(c, item, Finish(applied, revision, recovered)) && Pending(item)
      modifies `rows, `trace, `resolvers
      ensures Valid() && Extends(c, old(trace), trace) && resolvers == old(resolvers) - {c}
      ensures rows == old(rows)[c := FinishedRow(item, applied, revision, recovered)]
    {
      var before := State();
      if item.phase == Promoting && rows[c].phase == Promoting {
        var phase := if applied then Monitoring else Rejected;
        var reason := if applied then if recovered then PromotionRecovered else Promoted else ActiveRevisionConflict;
        rows := rows[c := rows[c].(phase := phase, reason := reason, expected := revision)];
      } else if rows[c].phase == RollingBack {
        var phase := if applied then RolledBack else RecoveryRequired;
        var reason := if applied then if recovered then RollbackRecovered else MonitorRollback else RollbackConflict;
        rows := rows[c := rows[c].(phase := phase, reason := reason)];
      }
      Note(before, Resolve(c, o));
    }

    method StartResolver(c: nat)
      requires Valid() && c in rows && Pending(rows[c]) && c !in resolvers
      modifies `trace, `resolvers
      ensures Resolving(c, rows[c], ReadVersion) && Extends(c, old(trace), trace) && resolvers - {c} == old(resolvers)
    {
      Note(State(), Begin(c));
    }

    // ---------------------------------------------------------------- _promote_pending and _rollback_pending

    /** The resolver's first two reads, up to its decision. */
    method ReadSlot(c: nat, gaps: seq<Gap>, o: Outside) returns (crashed: bool, version: Option<Version>, revision: nat)
      requires Valid() && c in rows && Pending(rows[c]) && c !in resolvers && |gaps| == 2
      modifies guidance, `trace, `resolvers
      ensures Valid() && Extends(c, old(trace), trace) && resolvers - {c} == old(resolvers)
      ensures crashed ==> c !in resolvers && exists i :: 0 <= i < |gaps| && gaps[i].crash
      ensures !crashed ==> Resolving(c, rows[c], AfterReads(rows[c], version, revision, o))
      ensures VersionsKept(old(guidance.State()), guidance.State())
    {
      hide Valid, Next, Advance, Own, AfterReads;
      StartResolver(c);
      crashed, version, revision := ActiveSlot(c, rows[c], ReadVersion, gaps[0], o);
      if crashed { return; }
      crashed := Pause(c, gaps[1]);
    }

    /** The last gap and the final write. */
    method Settle(c: nat, item: Row, applied: bool, revision: nat, recovered: bool, gap: Gap, o: Outside)
      returns (crashed: bool)
      requires Resolving(c, item, Finish(applied, revision, recovered)) && Pending(item)
      modifies this, guidance
      ensures Valid() && Extends(c, old(trace), trace) && resolvers == old(resolvers) - {c} && receipts == old(receipts)
      ensures rows == if crashed then old(rows) else old(rows)[c := FinishedRow(item, applied, revision, recovered)]
      ensures crashed == gap.crash && VersionsKept(old(guidance.State()), guidance.State())
    {
      hide Valid, Next, Advance, Own;
      crashed := Pause(c, gap);
      if crashed { return; }
      WriteResult(c, item, applied, revision, recovered, o);
    }

    /** _promote_pending, with six gaps. None means that the process crashed or an exception left the row
        promoting; otherwise the returned phase is the one the row was left in. */
    method PromotePending(c: nat, gaps: seq<Gap>, o: Outside) returns (outcome: Option<Phase>)
      requires Valid() && c in rows && rows[c].phase == Promoting && c !in resolvers && |gaps| == 6
      modifies this, guidance
      ensures Valid() && Extends(c, old(trace), trace) && resolvers == old(resolvers)
      ensures rows.Keys == old(rows).Keys && receipts == old(receipts)
      ensures forall d :: d in rows && d != c ==> rows[d] == old(rows)[d]
      ensures outcome == None ==> rows == old(rows)
      ensures outcome.Some? ==> outcome.value == rows[c].phase && outcome.value in {Monitoring, Rejected}
      ensures outcome == Some(Monitoring) ==> rows[c].reason in {Promoted, PromotionRecovered}
      ensures outcome == Some(Rejected) ==>
                || (&& rows[c].reason == CanaryExpired
                    && o.now - rows[c].createdAt >= rows[c].binding.canary.expirySeconds)
                || (rows[c].reason == CandidateArtifactUnavailable && !o.artifact)
                || rows[c].reason == ActiveRevisionConflict
      ensures outcome.None? ==> Interrupted(gaps, o, old(guidance.State()), old(rows)[c])
      ensures VersionsKept(old(guidance.State()), guidance.State())
    {
      hide Valid, Next, Advance, Own, Resolving, InScope, VersionsKept;
      ghost var p := guidance.State();
      var item := rows[c];
      outcome := None;
      var crashed, version, revision := ReadSlot(c, gaps[..2], o);
      ghost var q := guidance.State();
      KeptThroughout(q, q, q);
      if crashed { return; }
      var applied, recovered := false, false;
      if version == Some(item.version) && revision == item.expected + 1 {
        applied, recovered := true, true;
      } else if Expired(item, o.now) {
        WriteRejected(c, item, CanaryExpired, o);
        return Some(Rejected);
      } else if version == item.baseline && revision == item.expected {
        if !o.artifact {
          WriteRejected(c, item, CandidateArtifactUnavailable, o);
          return Some(Rejected);
        }
        var verdict := SwapAndConfirm(c, item, gaps[2..5], o);
        KeptThroughout(p, q, guidance.State());
        if verdict.None? {
          InterruptedWithin(gaps, 2, 5, o, p, q, item);
          return;
        }
        applied, revision, recovered := verdict.value.0, verdict.value.1, verdict.value.2;
      }
      q := guidance.State();
      crashed := Settle(c, item, applied, revision, recovered, gaps[5], o);
      KeptThroughout(p, q, guidance.State());
      if crashed { return; }
      outcome := Some(if applied then Monitoring else Rejected);
    }

    /** _rollback_pending, likewise. */
    method RollbackPending(c: nat, gaps: seq<Gap>, o: Outside) returns (outcome: Option<Phase>)
      requires Valid() && c in rows && rows[c].phase == RollingBack && c !in resolvers && |gaps| == 6
      modifies this, guidance
      ensures Valid() && Extends(c, old(trace), trace) && resolvers == old(resolvers)
      ensures rows.Keys == old(rows).Keys && receipts == old(receipts)
      ensures forall d :: d in rows && d != c ==> rows[d] == old(rows)[d]
      ensures outcome == None ==> rows == old(rows)
      ensures outcome.Some? ==> outcome.value == rows[c].phase && outcome.value in {RolledBack, RecoveryRequired}
      ensures outcome == Some(RolledBack) ==> rows[c].reason in {MonitorRollback, RollbackRecovered}
      ensures outcome == Some(RecoveryRequired) ==> rows[c].reason == RollbackConflict
      ensures outcome.None? ==> Interrupted(gaps, o, old(guidance.State()), old(rows)[c])
      ensures VersionsKept(old(guidance.State()), guidance.State())
    {
      hide Valid, Next, Advance, Own, Resolving, InScope, VersionsKept;
      ghost var p := guidance.State();
      var item := rows[c];
      outcome := None;
      var crashed, version, revision := ReadSlot(c, gaps[..2], o);
      ghost var q := guidance.State();
      KeptThroughout(q, q, q);
      if crashed { return; }
      var applied, recovered := false, false;
      if version == item.baseline && revision == item.expected + 1 {
        applied, recovered := true, true;
      } else if version == Some(item.version) && revision == item.expected {
        var verdict := SwapAndConfirm(c, item, gaps[2..5], o);
        KeptThroughout(p, q, guidance.State());
        if verdict.None? {
          InterruptedWithin(gaps, 2, 5, o, p, q, item);
          return;
        }
        applied, revision, recovered := verdict.value.0, verdict.value.1, verdict.value.2;
      }
      q := guidance.State();
      crashed := Settle(c, item, applied, revision, recovered, gaps[5], o);
      KeptThroughout(p, q, guidance.State());
      if crashed { return; }
      outcome := Some(if applied then RolledBack else RecoveryRequired);
    }

    /** record_outcome as a whole: the transaction, then the pointer work it leads to in the same call. */
    method RecordAndResolve(x: Selection, success: Option<bool>, hard: Option<bool>, standing: Standing, now: int,
                            gaps: seq<Gap>, o: Outside) returns (reply: Option<Reply>)
      requires Valid() && x.candidate !in resolvers && |gaps| == 6
      modifies this, guidance
      ensures Valid() && resolvers == old(resolvers)
      ensures |trace| > |old(trace)| && trace[..|old(trace)|] == old(trace)
              && trace[|old(trace)|] == Step.RecordOutcome(x, success, hard, standing, now)
              && Extends(x.candidate, trace[..|old(trace)| + 1], trace)
      ensures reply.Some? && reply.value.Now? ==> x.candidate in rows && rows[x.candidate].phase == reply.value.phase
      ensures reply.Some? && !reply.value.Now? ==> rows == old(rows) && receipts == old(receipts)
      ensures reply.None? ==> x.candidate in rows && Pending(rows[x.candidate])
                              && Interrupted(gaps, o, old(guidance.State()), rows[x.candidate])
    {
      hide Valid, Record, Own;
      var recorded := RecordOutcome(x, success, hard, standing, now);
      reply := Some(recorded);
      if recorded.Now? && recorded.phase == Promoting {
        var outcome := PromotePending(x.candidate, gaps, o);
        reply := if outcome.Some? then Some(Now(outcome.value)) else None;
      } else if recorded.Now? && recorded.phase == RollingBack {
        var outcome := RollbackPending(x.candidate, gaps, o);
        reply := if outcome.Some? then Some(Now(outcome.value)) else None;
      }
    }

    // ---------------------------------------------------------------- selection and expiry

    method MarkSelected(c: nat, from: set<Phase>, phase: Phase, reason: Reason, step: Step)
      requires Valid() && step.SelectMark? && step.candidate == c
      requires Choose(step.fetched, step.seen, step.revision, step.standing, step.now, step.assignment,
                      step.candidateArtifact, step.baselineArtifact) == MarkRow(from, phase, reason)
      modifies `rows, `trace, `resolvers
      ensures Valid() && trace == old(trace) + [step] && State() == old(State()).Mark(c, from, phase, reason)
    {
      hide Choose;
      var before := State();
      if c in rows && rows[c].phase in from {
        rows := rows[c := rows[c].(phase := phase, reason := reason)];
      }
      Note(before, step);
    }

    method LiveRow(k: Slot) returns (c: Option<nat>)
      ensures c.Some? ==> c.value in rows && rows[c.value].slot == k && rows[c.value].phase in {Canary, Monitoring}
      ensures c.None? ==> forall d :: d in rows && rows[d].slot == k ==> rows[d].phase !in {Canary, Monitoring}
    {
      if d: nat :| d in rows && rows[d].slot == k && (rows[d].phase == Canary || rows[d].phase == Monitoring) {
        c := Some(d);
      } else {
        c := None;
      }
    }

    /** The part of select_guidance that follows the fetch of live row c. */
    method SelectRow(c: nat, fetched: Row, exposure: nat, standing: Standing, now: int, assignment: Option<nat>,
                     available: Version -> bool, gaps: seq<seq<Step>>)
      returns (selection: Option<Selection>, artifact: Option<Version>,
               ghost seen: Option<Version>, ghost revision: nat)
      requires Valid() && |gaps| == 3 && standing.binding.Some? && fetched.phase in {Canary, Monitoring}
      modifies this, guidance
      ensures Valid() && old(trace) <= trace
      ensures var looks := MustRead(fetched, standing, now);
              var first := Transition.Run(old(State()), gaps[0]);
              var second := Transition.Run(first, gaps[1]);
              var last := if looks then Transition.Run(second, gaps[2]) else first;
              && (looks ==> seen == first.p.CurrentVersion(fetched.slot)
                            && revision == second.p.LookupRevision(fetched.slot))
              && Selected(c, fetched, ChoiceOn(fetched, seen, revision, standing, now, assignment, available), exposure,
                          selection, artifact, last, State())
              && Answered(c, fetched, seen, revision, standing, now, assignment, available, exposure, selection,
                          artifact, last, State())
    {
      hide Valid, Choose, Next, Transition.Run, MustRead, ChoiceOn, Selected, Answered;
      var version: Option<Version>, looked: nat := None, 0;
      Meanwhile(gaps[0]);
      if MustRead(fetched, standing, now) {
        var active := guidance.GetActive(fetched.slot);
        version := match active case None => None case Some(row) => Some(row.0);
        Meanwhile(gaps[1]);
        looked := guidance.GetRevision(fetched.slot);
        Meanwhile(gaps[2]);
      }
      seen, revision := version, looked;
      ghost var last := State();
      selection, artifact := Act(c, fetched, version, looked, exposure, standing, now, assignment, available);
      SelectedIsAnswered(c, fetched, version, looked, standing, now, assignment, available, exposure, selection,
                         artifact,
                         last, State());
    }

    /** A selection, or the guarded mark of the row. */
    method Act(c: nat, fetched: Row, version: Option<Version>, looked: nat, exposure: nat, standing: Standing, now: int,
               assignment: Option<nat>, available: Version -> bool)
      returns (selection: Option<Selection>, artifact: Option<Version>)
      requires Valid() && fetched.phase in {Canary, Monitoring}
      modifies `rows, `trace, `resolvers
      ensures Valid() && old(trace) <= trace
      ensures Selected(c, fetched, ChoiceOn(fetched, version, looked, standing, now, assignment, available), exposure,
                       selection, artifact, old(State()), State())
    {
      hide Valid, Choose;
      selection, artifact := None, None;
      var usable, former := available(fetched.version), fetched.baseline.Some? && available(fetched.baseline.value);
      var choice := Choose(fetched, version, looked, standing, now, assignment, usable, former);
      if choice.MarkRow? {
        MarkSelected(c, choice.from, choice.phase, choice.reason,
                     SelectMark(c, fetched, version, looked, standing, now, assignment, usable, former));
      } else if choice.Chosen? {
        var stage := if fetched.phase == Canary then InCanary else InMonitor;
        selection := Some(Selection(c, fetched.slot, fetched.version, stage, choice.arm, Some(exposure)));
        artifact := if choice.arm == IncumbentArm then fetched.baseline else Some(fetched.version);
      }
    }

    /** select_guidance: the slot's live row is fetched, the slot is read, and a selection is returned or a guarded mark
        is made, with any steps of other processes, writers of that row among them, between any two of these.
        available tells which versions have a usable artifact; basis names the row considered and what was read. */
    method SelectGuidance(k: Slot, exposure: nat, standing: Standing, now: int, assignment: Option<nat>,
                          available: Version -> bool, gaps: seq<seq<Step>>)
      returns (selection: Option<Selection>, artifact: Option<Version>,
               ghost basis: Option<(nat, Option<Version>, nat)>)
      requires Valid() && |gaps| == 3
      modifies this, guidance
      ensures Valid() && old(trace) <= trace
      ensures basis.None? <==>
                || standing.binding.None?
                || forall c :: c in old(rows) && old(rows)[c].slot == k ==> old(rows)[c].phase !in {Canary, Monitoring}
      ensures basis.None? ==> selection.None?
      ensures standing.binding.None? ==> artifact.None? && trace == old(trace) && State() == old(State())
      ensures basis.None? && standing.binding.Some? ==>
                && State() == Transition.Run(old(State()), gaps[0])
                && artifact == Usable(State().p.CurrentVersion(k), available)
      ensures basis.Some? ==>
                var (c, seen, revision) := basis.value;
                && c in old(rows) && old(rows)[c].slot == k && old(rows)[c].phase in {Canary, Monitoring}
                && var fetched := old(rows)[c];
                   var looks := MustRead(fetched, standing, now);
                   var first := Transition.Run(old(State()), gaps[0]);
                   var second := Transition.Run(first, gaps[1]);
                   var last := if looks then Transition.Run(second, gaps[2]) else first;
                && (looks ==> seen == first.p.CurrentVersion(k) && revision == second.p.LookupRevision(k))
                && Selected(c, fetched, ChoiceOn(fetched, seen, revision, standing, now, assignment, available),
                            exposure, selection, artifact, last, State())
                && Answered(c, fetched, seen, revision, standing, now, assignment, available, exposure, selection,
                            artifact, last, State())
    {
      hide Valid, Choose, Next, Transition.Run, Selected, Answered, ChoiceOn, MustRead;
      selection, artifact, basis := None, None, None;
      if standing.binding.None? {
        return;
      }
      var found := LiveRow(k);
      if found.None? {
        Meanwhile(gaps[0]);
        var active := guidance.GetActive(k);
        artifact := if active.Some? && available(active.value.0) then Some(active.value.0) else None;
      } else {
        ghost var seen, revision;
        var c := found.value;
        selection, artifact, seen, revision :=
          SelectRow(c, rows[c], exposure, standing, now, assignment, available, gaps);
        basis := Some((c, seen, revision));
      }
    }

    /** _expire_canaries: exactly the canaries of the context whose plan has run out, under matching authority. */
    method ExpireCanaries(context: nat, standing: nat -> Standing, now: int) returns (expired: nat)
      requires Valid()
      modifies this
      ensures Valid() && old(trace) <= trace && receipts == old(receipts) && resolvers == old(resolvers)
      ensures rows.Keys == old(rows).Keys
      ensures forall c :: c in rows ==>
                rows[c] == Swept(old(rows)[c], context, standing(c), now)
      ensures expired == |set c | c in old(rows) && Lapsed(old(rows)[c], context, standing(c), now)|
      ensures forall c :: c in rows ==>
                var row := old(rows)[c];
                if row.slot.context == context && Decisions.RanOut(row, now) && Decisions.InForce(row, standing(c))
                then rows[c] == row.(phase := Rejected, reason := CanaryExpired) else rows[c] == row
    {
      hide Valid;
      var lapsed := set c | c in rows && rows[c].slot.context == context && rows[c].phase == Canary
                            && standing(c).Matches(rows[c]) && Expired(rows[c], now);
      assert lapsed == set c | c in rows && Lapsed(rows[c], context, standing(c), now);
      hide Expired, Lapsed;
      ExpireRows(lapsed, standing, now);
      expired := |lapsed|;
    }

    ghost function RowsExpired(table: map<nat, Row>, lapsed: set<nat>): map<nat, Row> {
      map c | c in table :: if c in lapsed then table[c].(phase := Rejected, reason := CanaryExpired) else table[c]
    }

    method ExpireRows(lapsed: set<nat>, standing: nat -> Standing, now: int)
      requires Valid() && lapsed <= rows.Keys
      requires forall c :: c in lapsed ==>
                 rows[c].phase == Canary && standing(c).Matches(rows[c]) && Expired(rows[c], now)
      modifies this
      ensures Valid() && old(trace) <= trace && receipts == old(receipts) && resolvers == old(resolvers)
      ensures rows.Keys == old(rows).Keys
      ensures forall c :: c in rows ==>
                rows[c] == (if c in lapsed then old(rows)[c].(phase := Rejected, reason := CanaryExpired)
                    else old(rows)[c])
    {
      hide Valid, Expired;
      var rest := lapsed;
      while rest != {}
        invariant Valid() && old(trace) <= trace && receipts == old(receipts) && resolvers == old(resolvers)
        invariant rest <= lapsed && rows == RowsExpired(old(rows), lapsed - rest)
        decreases rest
      {
        var c :| c in rest;
        rest := rest - {c};
        ExpireRow(c, standing(c), now);
      }
    }

    method ExpireRow(c: nat, standing: Standing, now: int)
      requires Valid() && c in rows && rows[c].phase == Canary && standing.Matches(rows[c]) && Expired(rows[c], now)
      modifies this
      ensures Valid() && old(trace) <= trace && receipts == old(receipts) && resolvers == old(resolvers)
      ensures rows == old(rows)[c := old(rows)[c].(phase := Rejected, reason := CanaryExpired)]
    {
      var before := State();
      rows := rows[c := rows[c].(phase := Rejected, reason := CanaryExpired)];
      Note(before, ExpireCanary(c, standing, now));
    }

    // ---------------------------------------------------------------- restart

    /** One row of the loop. An exception or a crash leaves the row pending and ends the call. */
    method ResumeRow(c: nat, standing: Standing, gaps: seq<Gap>, o: Outside) returns (interrupted: bool)
      requires Valid() && resolvers == map[] && c in rows && Pending(rows[c]) && |gaps| == 7 && standing.binding.Some?
      modifies this, guidance
      ensures Valid() && old(trace) <= trace && resolvers == map[]
      ensures rows.Keys == old(rows).Keys && receipts == old(receipts)
      ensures forall d :: d in rows && d != c ==> rows[d] == old(rows)[d]
      ensures Resumed(old(rows)[c], rows[c], standing, interrupted, gaps, o, old(guidance.State()))
      ensures VersionsKept(old(guidance.State()), guidance.State())
    {
      hide Valid, VersionsKept, Own;
      ghost var p := guidance.State();
      interrupted := Pause(c, gaps[0]);
      if interrupted { return; }
      ghost var q := guidance.State();
      KeptThroughout(q, q, q);
      if !standing.Matches(rows[c]) {
        MarkDrifted(c, standing);
      } else if rows[c].phase == Promoting {
        var outcome := PromotePending(c, gaps[1..], o);
        interrupted := outcome.None?;
      } else {
        var outcome := RollbackPending(c, gaps[1..], o);
        interrupted := outcome.None?;
      }
      if interrupted {
        InterruptedEarlier(gaps, o, p, q, rows[c]);
      }
      KeptThroughout(p, q, guidance.State());
    }

    method MarkDrifted(c: nat, standing: Standing)
      requires Valid() && resolvers == map[] && c in rows && Pending(rows[c])
      requires standing.binding.Some? && !standing.Matches(rows[c])
      modifies this
      ensures Valid() && old(trace) <= trace && resolvers == map[] && receipts == old(receipts)
      ensures rows == old(rows)[c := old(rows)[c].(phase := RecoveryRequired, reason := AuthorityDrift)]
    {
      var before := State();
      rows := rows[c := rows[c].(phase := RecoveryRequired, reason := AuthorityDrift)];
      Note(before, Resume(c, standing));
    }

    /** The rows that a restart of one context has to resolve. */
    function PendingOf(context: nat): set<nat>
      reads this
    {
      set c | c in rows && rows[c].slot.context == context && Pending(rows[c])
    }

    /** resume_incomplete_transitions for one context: every pending row is fetched first, then resolved in turn under
        the authority of the call. The first exception or crash ends the loop: the rows reached before it are
        settled or left for recovery, the row it happened at stays pending, and the rest is not touched. */
    method ResumeIncomplete(context: nat, binding: Option<Binding>, published: nat -> bool, gaps: nat -> seq<Gap>,
                            o: nat -> Outside)
      returns (interrupted: Option<nat>, ghost reached: set<nat>)
      requires Valid() && resolvers == map[]
      requires forall c :: |gaps(c)| == 7
      modifies this, guidance
      ensures Valid() && old(trace) <= trace && resolvers == map[]
      ensures rows.Keys == old(rows).Keys && receipts == old(receipts) && reached <= old(PendingOf(context))
      ensures forall c :: c in rows && c !in reached ==> rows[c] == old(rows)[c]
      ensures forall c :: c in reached ==>
                Resumed(old(rows)[c], rows[c], Standing(binding, published(c)), interrupted == Some(c), gaps(c), o(c),
                    old(guidance.State()))
      ensures binding.None? ==> reached == {} && interrupted == None
      ensures if interrupted.None? then binding.Some? ==> reached == old(PendingOf(context))
              else interrupted.value in reached
    {
      hide Valid, Resumed;
      interrupted, reached := None, {};
      if binding.Some? {
        interrupted, reached := ResumeRows(PendingOf(context), binding, published, gaps, o);
      }
    }

    method ResumeRows(pending: set<nat>, binding: Option<Binding>, published: nat -> bool, gaps: nat -> seq<Gap>,
                      o: nat -> Outside)
      returns (interrupted: Option<nat>, ghost reached: set<nat>)
      requires Valid() && resolvers == map[] && binding.Some?
      requires forall c :: c in pending ==> c in rows && Pending(rows[c])
      requires forall c :: |gaps(c)| == 7
      modifies this, guidance
      ensures Valid() && old(trace) <= trace && resolvers == map[]
      ensures rows.Keys == old(rows).Keys && receipts == old(receipts) && reached <= pending
      ensures forall c :: c in rows && c !in reached ==> rows[c] == old(rows)[c]
      ensures forall c :: c in reached ==>
                Resumed(old(rows)[c], rows[c], Standing(binding, published(c)), interrupted == Some(c), gaps(c), o(c),
                    old(guidance.State()))
      ensures if interrupted.None? then reached == pending else interrupted.value in reached
    {
      hide *;
      var rest := pending;
      ghost var p := guidance.State();
      interrupted, reached := None, {};
      KeptThroughout(p, p, p);
      while rest != {}
        invariant Valid() && old(trace) <= trace && resolvers == map[] && interrupted == None
        invariant rest <= pending && reached == pending - rest && rows.Keys == old(rows).Keys
                    && receipts == old(receipts)
        invariant VersionsKept(p, guidance.State())
        invariant forall c :: c in rows && c !in reached ==> rows[c] == old(rows)[c]
        invariant forall c :: c in reached ==>
                    Resumed(old(rows)[c], rows[c], Standing(binding, published(c)), false, gaps(c), o(c), p)
        decreases rest
      {
        var c :| c in rest;
        ghost var q, row := guidance.State(), rows[c];
        rest, reached := rest - {c}, reached + {c};
        var stopped := ResumeRow(c, Standing(binding, published(c)), gaps(c), o(c));
        ResumedEarlier(row, rows[c], Standing(binding, published(c)), stopped, gaps(c), o(c), p, q);
        KeptThroughout(p, q, guidance.State());
        if stopped {
          interrupted := Some(c);
          return;
        }
      }
    }
  }
}
