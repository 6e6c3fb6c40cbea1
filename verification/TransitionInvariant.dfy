/** The invariant of the transition machine, stated per candidate as a relation between the pointer
    store, the candidate's row, its receipts and its resolver, and kept by every step. */
module TransitionInvariant {
  import opened Basics
  import opened GuidancePointer
  import opened Transition

  // ---------------------------------------------------------------- receipts and counters

  ghost predicate Countable(r: Receipt) {
    (r.stage == InCanary && r.arm != UnknownArm) || (r.stage == InMonitor && r.arm == CandidateArm)
  }

  /** Receipt conservation: one receipt per exposure, and every counter equals its receipts. */
  ghost predicate CountersOk(row: Row, mine: seq<Receipt>) {
    && row.canary == Tally(mine, InCanary, CandidateArm)
    && row.control == Tally(mine, InCanary, IncumbentArm)
    && row.monitor == Tally(mine, InMonitor, CandidateArm)
    && |mine| == row.canary.observations + row.control.observations + row.monitor.observations
    && (forall i, j :: 0 <= i < j < |mine| ==> mine[i].exposure != mine[j].exposure)
  }

  lemma TallyAppend(s: seq<Receipt>, r: Receipt, stage: Stage, arm: Arm)
    ensures Tally(s + [r], stage, arm)
              == (if Hits(r, stage, arm) then Tally(s, stage, arm).Observe(r.success) else Tally(s, stage, arm))
    ensures HardFailures(s + [r], stage)
              == HardFailures(s, stage) + (if Hits(r, stage, CandidateArm) && r.hard then 1 else 0)
  {
    assert (s + [r])[..|s|] == s;
  }

  lemma OfAppend(s: seq<Receipt>, r: Receipt, c: nat)
    ensures Of(s + [r], c) == Of(s, c) + (if r.candidate == c then [r] else [])
  {
    assert (s + [r])[..|s|] == s;
  }

  lemma {:induction false} OfKeepsAll(s: seq<Receipt>, c: nat, exposure: nat)
    requires !Recorded(s, c, exposure)
    ensures forall i :: 0 <= i < |Of(s, c)| ==> Of(s, c)[i].exposure != exposure
  {
    if s != [] {
      var before := s[..|s| - 1];
      assert s[|s| - 1].candidate == c ==> s[|s| - 1].exposure != exposure;
      assert forall i :: 0 <= i < |before| ==> before[i] == s[i];
      OfKeepsAll(before, c, exposure);
    }
  }

  // ---------------------------------------------------------------- the gates

  /** What the canary must have shown before the pointer may move. */
  ghost predicate CanaryGate(row: Row, mine: seq<Receipt>) {
    var settings := Settings(row.binding, row.slot.bucket);
    && settings.Some?
    && row.canary.observations + row.control.observations >= settings.value.horizon
    && row.canary.observations >= settings.value.minimum
    && row.control.observations >= settings.value.minimum
    && Rate(row.canary) - Rate(row.control) <= settings.value.margin
    && HardFailures(mine, InCanary) <= settings.value.veto
  }

  /** Counts over the first k monitoring receipts. */
  ghost function FirstMonitored(mine: seq<Receipt>, k: nat): Counter {
    if mine == [] || Tally(mine, InMonitor, CandidateArm).observations <= k then Tally(mine, InMonitor, CandidateArm)
    else FirstMonitored(mine[..|mine| - 1], k)
  }

  ghost predicate LookPassed(control: Counter, margin: real, mine: seq<Receipt>, k: nat)
    requires k > 0 && control.observations > 0
  {
    FirstMonitored(mine, k).failures as real / k as real - Rate(control) <= margin
  }

  /** Every look at or before n, the horizon included, was within margin. */
  ghost predicate LooksPassed(m: MonitorPlan, control: Counter, mine: seq<Receipt>, n: nat)
    requires m.look >= 1 && control.observations > 0
  {
    forall k :: 0 < k <= n && (k % m.look == 0 || k >= m.horizon) ==> LookPassed(control, m.margin, mine, k)
  }

  ghost predicate PhaseOk(row: Row, mine: seq<Receipt>) {
    var m := row.binding.monitor;
    && Settings(row.binding, row.slot.bucket).Some?
    && (row.phase == Canary ==> row.canary.observations + row.control.observations < row.binding.canary.horizon
                                && HardFailures(mine, InCanary) <= row.binding.canary.veto)
    && (row.phase in {Canary, Promoting} ==> row.monitor == Counter(0, 0) && HardFailures(mine, InMonitor) == 0)
    && (row.phase in {Promoting, Monitoring, RollingBack, Retained} ==> CanaryGate(row, mine))
    && (row.phase in {Monitoring, Retained} ==>
          && HardFailures(mine, InMonitor) <= m.veto
          && LooksPassed(m, row.control, mine, row.monitor.observations))
    && (row.phase == Monitoring ==> row.monitor.observations < m.horizon)
    && (row.phase == Retained ==> row.monitor.observations == m.horizon)
    && VerdictOk(row, mine)
  }

  ghost predicate OverMargin(trial: Counter, control: Counter, margin: real) {
    trial.observations > 0 && control.observations > 0 && Rate(trial) - Rate(control) > margin
  }

  /** The reasons that an outcome gives when it stops a candidate, and those that claim a move of the pointer. */
  predicate NeedsGrounds(reason: Reason) {
    || reason in {CandidateHardFailure, CanaryUnderpowered, CanaryRegression, MonitorHardFailure, MonitorRegression}
    || reason in {Promoted, MonitorRollback}
  }

  /** Whoever was stopped by its outcomes has failed on them. */
  ghost predicate VerdictOk(row: Row, mine: seq<Receipt>) {
    var settings, m := Settings(row.binding, row.slot.bucket), row.binding.monitor;
    var hard, total := HardFailures(mine, InCanary), row.canary.observations + row.control.observations;
    && settings.Some?
    && (row.reason == CandidateHardFailure ==> hard > settings.value.veto)
    && (row.reason in {CanaryUnderpowered, CanaryRegression} ==>
          hard <= settings.value.veto && total >= settings.value.horizon)
    && (row.reason == CanaryUnderpowered ==>
          row.canary.observations < settings.value.minimum || row.control.observations < settings.value.minimum)
    && (row.reason == CanaryRegression ==>
          && row.canary.observations >= settings.value.minimum && row.control.observations >= settings.value.minimum
          && OverMargin(row.canary, row.control, settings.value.margin))
    && (row.phase == RollingBack ==>
          if row.reason == MonitorHardFailure then HardFailures(mine, InMonitor) > m.veto
          else && row.reason == MonitorRegression && HardFailures(mine, InMonitor) <= m.veto
               && (row.monitor.observations % m.look == 0 || row.monitor.observations >= m.horizon)
               && OverMargin(row.monitor, row.control, m.margin))
  }

  // ---------------------------------------------------------------- the pointer

  /** The candidate proposes a version other than the incumbent's. */
  predicate Distinct(row: Row) {
    row.baseline != Some(row.version)
  }

  /** A canary's and a pending promotion's incumbent cannot have changed while the effective revision is
      still the recorded one; later phases have seen the pointer at their recorded revision, and it held
      the candidate then, unless the candidate proposes the version that was already active. */
  ghost predicate PointerOk(p: Pointers, row: Row) {
    var at := p.Effective(row.slot);
    && (row.phase in {Canary, Promoting} ==>
          && row.expected == row.origin.revision <= at
          && (at == row.expected ==> p.Pointer(row.slot) == row.baseline))
    && (row.phase in {Monitoring, RollingBack, Retained} ==>
          && row.origin.revision + 1 == row.expected <= at
          && (at == row.expected && Distinct(row) ==> p.Pointer(row.slot) == Some(row.version)))
    && (UndoneByResolver(row) ==>
          && row.expected + 1 <= at
          && (at == row.expected + 1 && Distinct(row) ==> p.Pointer(row.slot) == row.baseline))
  }

  /** Rolled back after a promotion; a canary that is stopped for its regression is rolled back as well, but
      never moved the pointer. */
  predicate UndoneByResolver(row: Row) {
    row.phase == RolledBack && row.reason in {MonitorRollback, RollbackRecovered}
  }

  /** A version read that shows the resolver's target cannot predate the move that it is about to recognise. */
  ghost predicate SeenOk(p: Pointers, row: Row, seen: Option<Version>) {
    var at := p.Effective(row.slot);
    if row.phase == Promoting then
      Distinct(row) && seen == Some(row.version) ==>
        at > row.expected && (at == row.expected + 1 ==> p.Pointer(row.slot) == seen)
    else
      && (at == row.expected ==> p.Pointer(row.slot) == seen)
      && (Distinct(row) && seen == row.baseline ==>
            at > row.expected && (at == row.expected + 1 ==> p.Pointer(row.slot) == seen))
  }

  ghost predicate ResolverOk(p: Pointers, row: Row, r: Resolver) {
    var at, expected := p.Effective(row.slot), row.expected;
    && r.item == row && Pending(row)
    && match r.pc
       case ReadRevision(seen) => SeenOk(p, row, seen)
       case RereadRevision(_, seen) => SeenOk(p, row, seen)
       case Swap => row.phase == RollingBack && at == expected ==> p.Pointer(row.slot) == Some(row.version)
       case Reject(reason) => row.phase == Promoting && !NeedsGrounds(reason)
       case Finish(applied, revision, _) =>
         applied ==> expected + 1 == revision <= at
                     && (Distinct(row) && at == revision ==> p.Pointer(row.slot) == SwapTo(row))
       case _ => true
  }

  // ---------------------------------------------------------------- the audit log

  function Moves(audits: seq<Audit>, c: nat, action: Action): nat {
    if audits == [] then 0 else
      var last := audits[|audits| - 1];
      Moves(audits[..|audits| - 1], c, action) + (if last.actor == RunnerFor(c) && last.action == action then 1 else 0)
  }

  lemma MovesAppend(audits: seq<Audit>, a: Audit, c: nat, action: Action)
    ensures Moves(audits + [a], c, action)
              == Moves(audits, c, action) + (if a.actor == RunnerFor(c) && a.action == action then 1 else 0)
  {
    assert (audits + [a])[..|audits|] == audits;
  }

  /** A promotion replaced the recorded incumbent at the recorded revision, which was then the effective one; a rollback
      replaced exactly the candidate at the revision its promotion produced. */
  ghost predicate RunnerAudit(row: Row, a: Audit) {
    && a.slot == row.slot && row.phase != Canary
    && match a.action
       case AutomaticPromote => a.previous == row.baseline && a.result == Some(row.version)
                                && a.expected == Some(row.origin.revision as int)
                                && a.resulting == row.origin.revision + 1
                                && row.origin.effective == row.origin.revision
       case Rollback => a.previous == Some(row.version) && a.result == row.baseline
                        && row.expected == row.origin.revision + 1
                        && a.expected == Some(row.expected as int) && a.resulting == row.expected + 1
       case Promote => false
  }

  ghost predicate AuditsOk(p: Pointers, c: nat, row: Row, mine: seq<Receipt>) {
    var promotions, rollbacks, at := Moves(p.audits, c, AutomaticPromote), Moves(p.audits, c, Rollback),
        p.Effective(row.slot);
    && (forall i :: 0 <= i < |p.audits| && p.audits[i].actor == RunnerFor(c) ==> RunnerAudit(row, p.audits[i]))
    && promotions <= 1 && rollbacks <= 1
    && (promotions > 0 ==> row.phase != Canary && CanaryGate(row, mine))
    && (row.phase == Promoting && promotions > 0 ==> at > row.expected)
    && (row.phase == RollingBack && rollbacks > 0 ==> at > row.expected)
    && (rollbacks > 0 ==> row.phase in {RollingBack, RolledBack, RecoveryRequired})
  }

  // ---------------------------------------------------------------- crash recovery

  /** Since its admission nobody but the runner, acting for this candidate, moved the slot's pointer. */
  ghost predicate OwnSlot(p: Pointers, c: nat, row: Row) {
    forall i :: row.origin.audits <= i < |p.audits| && p.audits[i].slot == row.slot ==>
        p.audits[i].actor == RunnerFor(c)
  }

  /** The slot as admission found it; a lagging slot row may meanwhile have been repaired. */
  ghost predicate AtBaseline(p: Pointers, row: Row) {
    && p.Pointer(row.slot) == row.baseline
    && p.Effective(row.slot) == row.origin.effective
    && p.SlotRevision(row.slot) in {row.origin.revision, row.origin.effective}
  }

  ghost predicate AtCandidate(p: Pointers, row: Row) {
    && p.Pointer(row.slot) == Some(row.version)
    && p.Effective(row.slot) == row.origin.revision + 1
    && p.LookupRevision(row.slot) == p.Effective(row.slot)
  }

  ghost predicate AtRestored(p: Pointers, row: Row) {
    p.Pointer(row.slot) == row.baseline && p.Effective(row.slot) == row.origin.revision + 2
  }

  /** With nobody else on the slot, the phase and the resolver's position determine the pointer. */
  ghost predicate Determined(p: Pointers, row: Row, resolver: Option<Resolver>) {
    match row.phase
    case Canary => AtBaseline(p, row)
    case Rejected => AtBaseline(p, row)
    case Monitoring => AtCandidate(p, row)
    case Retained => AtCandidate(p, row)
    case RolledBack => if UndoneByResolver(row) then AtRestored(p, row) else AtBaseline(p, row)
    case RecoveryRequired => AtBaseline(p, row) || AtCandidate(p, row) || AtRestored(p, row)
    case Promoting =>
      (AtBaseline(p, row) || AtCandidate(p, row))
      && (resolver.Some? ==>
            match resolver.value.pc
            case ReadVersion => true
            case ReadRevision(seen) => seen == p.Pointer(row.slot)
            case RereadRevision(_, seen) => seen == p.Pointer(row.slot) && AtBaseline(p, row)
            case Finish(applied, _, _) => if applied then AtCandidate(p, row) else AtBaseline(p, row)
            case _ => AtBaseline(p, row))
    case RollingBack =>
      (AtCandidate(p, row) || AtRestored(p, row))
      && (resolver.Some? ==>
            match resolver.value.pc
            case Finish(applied, _, _) => applied ==> AtRestored(p, row)
            case _ => true)
  }

  ghost predicate OriginOk(p: Pointers, row: Row) {
    && row.origin.revision <= row.origin.effective <= p.Effective(row.slot) && row.origin.audits <= |p.audits|
    && p.LookupRevision(row.slot) in {row.origin.revision, p.Effective(row.slot)}
  }

  // ---------------------------------------------------------------- the invariant

  ghost predicate CandidateOk(p: Pointers, c: nat, row: Row, mine: seq<Receipt>, resolver: Option<Resolver>) {
    && CountersOk(row, mine)
    && PhaseOk(row, mine)
    && PointerOk(p, row)
    && (resolver.Some? ==> ResolverOk(p, row, resolver.value))
    && AuditsOk(p, c, row, mine)
    && OriginOk(p, row)
    && ReasonOk(p, c, row, resolver)
    && (OwnSlot(p, c, row) ==> Determined(p, row, resolver))
  }

  /** A move that is not said to be recovered is in the audit log. */
  ghost predicate ReasonOk(p: Pointers, c: nat, row: Row, resolver: Option<Resolver>) {
    var promoted, undone := Moves(p.audits, c, AutomaticPromote) > 0, Moves(p.audits, c, Rollback) > 0;
    && (row.reason == Promoted ==> row.phase == Monitoring && promoted)
    && (row.reason == MonitorRollback ==> row.phase == RolledBack && undone)
    && (resolver.Some? && resolver.value.pc.Finish? && resolver.value.pc.applied && !resolver.value.pc.recovered ==>
          if row.phase == Promoting then promoted else undone)
  }

  ghost function ResolverOf(s: Core, c: nat): Option<Resolver> {
    if c in s.resolvers then Some(s.resolvers[c]) else None
  }

  /** At most one live transition per slot: the partial unique index. */
  ghost predicate OneLive(s: Core) {
    forall c, d ::
      (c in s.rows && d in s.rows && s.rows[c].slot == s.rows[d].slot && Live(s.rows[c].phase) && Live(s.rows[d].phase))
      ==> c == d
  }

  /** Nothing refers to a candidate without a row. */
  ghost predicate Untouched(s: Core, c: nat) {
    && Of(s.receipts, c) == []
    && c !in s.resolvers
    && (forall i :: 0 <= i < |s.p.audits| ==> s.p.audits[i].actor != RunnerFor(c))
  }

  ghost predicate Inv(s: Core) {
    && s.p.Wf()
    && OneLive(s)
    && (forall c :: c in s.rows ==> CandidateOk(s.p, c, s.rows[c], Of(s.receipts, c), ResolverOf(s, c)))
    && (forall c :: c !in s.rows ==> Untouched(s, c))
  }

  /** A store that may already hold pointers, lagging slot rows and history included, but no transitions. */
  ghost predicate Initial(s: Core) {
    && s.p.Wf() && (forall i :: 0 <= i < |s.p.audits| ==> !s.p.audits[i].actor.RunnerFor?)
    && s.rows == map[] && s.receipts == [] && s.resolvers == map[]
  }

  lemma InitialInv(s: Core)
    requires Initial(s)
    ensures Inv(s)
  {
  }

  // ---------------------------------------------------------------- what other actors can do to a candidate

  lemma ForeignKeepsDetermined(p: Pointers, op: PointerOp, c: nat, row: Row, resolver: Option<Resolver>)
    requires op.actor != RunnerFor(c) && OriginOk(p, row)
    requires OwnSlot(p, c, row) ==> Determined(p, row, resolver)
    ensures OwnSlot(Do(p, op).0, c, row) ==> Determined(Do(p, op).0, row, resolver)
  {
    var q := Do(p, op).0;
    StepReadings(p, op, row.slot);
    StepAppends(p, op);
    assert AppliesTo(p, op, row.slot) ==>
           q.audits[|p.audits|].slot == row.slot && q.audits[|p.audits|].actor == op.actor;
    if OwnSlot(q, c, row) {
      assert p.audits <= q.audits;
      forall i | row.origin.audits <= i < |p.audits| && p.audits[i].slot == row.slot
        ensures p.audits[i].actor == RunnerFor(c)
      {
        assert q.audits[i] == p.audits[i];
      }
    }
  }

  lemma ForeignKeepsAudits(p: Pointers, op: PointerOp, c: nat, row: Row, mine: seq<Receipt>)
    requires op.actor != RunnerFor(c) && AuditsOk(p, c, row, mine)
    ensures AuditsOk(Do(p, op).0, c, row, mine)
  {
    hide RunnerAudit, CanaryGate, Moves, Do;
    var q := Do(p, op).0;
    StepReadings(p, op, row.slot);
    StepAppends(p, op);
    if Do(p, op).1.Applied? {
      var a := q.audits[|p.audits|];
      assert q.audits == p.audits + [a] && a.actor == op.actor;
      MovesAppend(p.audits, a, c, AutomaticPromote);
      MovesAppend(p.audits, a, c, Rollback);
    }
  }

  /** Any pointer call by anyone else leaves a candidate's invariant intact. */
  lemma ForeignKeepsCandidate(p: Pointers, op: PointerOp, c: nat, row: Row, mine: seq<Receipt>,
                              resolver: Option<Resolver>)
    requires op.actor != RunnerFor(c) && CandidateOk(p, c, row, mine, resolver)
    ensures CandidateOk(Do(p, op).0, c, row, mine, resolver)
  {
    StepReadings(p, op, row.slot);
    StepAppends(p, op);
    ForeignKeepsAudits(p, op, c, row, mine);
    ForeignKeepsDetermined(p, op, c, row, resolver);
  }

  // ---------------------------------------------------------------- a candidate's own steps

  lemma {:induction false} NoMoves(audits: seq<Audit>, c: nat, action: Action)
    requires forall i :: 0 <= i < |audits| ==> audits[i].actor != RunnerFor(c)
    ensures Moves(audits, c, action) == 0
  {
    if audits != [] {
      var before := audits[..|audits| - 1];
      assert forall i :: 0 <= i < |before| ==> before[i] == audits[i];
      NoMoves(before, c, action);
    }
  }

  lemma AdmittedOk(s: Core, x: Proposal, checks: Checks, now: int)
    requires Inv(s) && x.candidate !in s.rows && x.candidate in Consider(s, x, checks, now).0.rows
    ensures var t := Consider(s, x, checks, now).0;
            CandidateOk(t.p, x.candidate, t.rows[x.candidate], [], None)
  {
    var t := Consider(s, x, checks, now).0;
    assert Untouched(s, x.candidate);
    NoMoves(s.p.audits, x.candidate, AutomaticPromote);
    NoMoves(s.p.audits, x.candidate, Rollback);
    StepReadings(s.p, Stage(x.slot, x.version, Coordinator(0)), x.slot);
  }

  lemma FirstMonitoredAppend(mine: seq<Receipt>, r: Receipt, k: nat)
    requires k <= Tally(mine, InMonitor, CandidateArm).observations
    ensures FirstMonitored(mine + [r], k) == FirstMonitored(mine, k)
  {
    assert (mine + [r])[..|mine|] == mine;
  }

  /** Accepting one outcome keeps counters, gates and looks. */
  lemma ObservedCounters(row: Row, mine: seq<Receipt>, r: Receipt)
    requires CountersOk(row, mine) && Countable(r)
    requires forall i :: 0 <= i < |mine| ==> mine[i].exposure != r.exposure
    requires Observed(row, mine + [r], r.stage, r.arm, r.success).Some?
    ensures CountersOk(Observed(row, mine + [r], r.stage, r.arm, r.success).value, mine + [r])
  {
    TallyAppend(mine, r, InCanary, CandidateArm);
    TallyAppend(mine, r, InCanary, IncumbentArm);
    TallyAppend(mine, r, InMonitor, CandidateArm);
  }

  lemma ObservedCanary(row: Row, mine: seq<Receipt>, r: Receipt)
    requires CountersOk(row, mine) && PhaseOk(row, mine) && row.phase == Canary
    requires r.stage == InCanary && r.arm != UnknownArm
    ensures PhaseOk(Observed(row, mine + [r], r.stage, r.arm, r.success).value, mine + [r])
  {
    TallyAppend(mine, r, InCanary, CandidateArm);
    TallyAppend(mine, r, InCanary, IncumbentArm);
    TallyAppend(mine, r, InMonitor, CandidateArm);
  }

  lemma ObservedLooks(row: Row, mine: seq<Receipt>, r: Receipt)
    requires CountersOk(row, mine) && PhaseOk(row, mine) && row.phase == Monitoring
    requires r.stage == InMonitor && r.arm == CandidateArm
    ensures row.control.observations > 0
    ensures var next := Observed(row, mine + [r], r.stage, r.arm, r.success).value;
            next.phase in {Monitoring, Retained} ==>
              LooksPassed(row.binding.monitor, row.control, mine + [r], row.monitor.observations + 1)
  {
    hide HardFailures, FirstMonitored;
    var next := Observed(row, mine + [r], r.stage, r.arm, r.success).value;
    var m, n := row.binding.monitor, row.monitor.observations;
    TallyAppend(mine, r, InMonitor, CandidateArm);
    if next.phase in {Monitoring, Retained} {
      forall k | 0 < k <= n + 1 && (k % m.look == 0 || k >= m.horizon)
        ensures LookPassed(row.control, m.margin, mine + [r], k)
      {
        if k <= n {
          FirstMonitoredAppend(mine, r, k);
          assert LookPassed(row.control, m.margin, mine, k);
        } else {
          AllMonitored(mine + [r], n + 1);
        }
      }
    }
  }

  lemma AllMonitored(mine: seq<Receipt>, k: nat)
    requires Tally(mine, InMonitor, CandidateArm).observations <= k
    ensures FirstMonitored(mine, k) == Tally(mine, InMonitor, CandidateArm)
  {
  }

  lemma ObservedMonitor(row: Row, mine: seq<Receipt>, r: Receipt)
    requires CountersOk(row, mine) && PhaseOk(row, mine) && row.phase == Monitoring
    requires r.stage == InMonitor && r.arm == CandidateArm
    ensures var next := Observed(row, mine + [r], r.stage, r.arm, r.success).value;
            PhaseOk(next, mine + [r]) && next.phase in {Monitoring, RollingBack, Retained}
  {
    hide HardFailures, Tally, LooksPassed, LookPassed, FirstMonitored;
    ObservedLooks(row, mine, r);
    TallyAppend(mine, r, InCanary, CandidateArm);
    TallyAppend(mine, r, InMonitor, CandidateArm);
  }

  /** Gates only look at canary receipts, so monitoring receipts cannot disturb them. */
  lemma RecordedOk(p: Pointers, c: nat, row: Row, mine: seq<Receipt>, r: Receipt)
    requires CandidateOk(p, c, row, mine, None) && Countable(r)
    requires row.phase == StagePhase(r.stage)
    requires forall i :: 0 <= i < |mine| ==> mine[i].exposure != r.exposure
    ensures var next := Observed(row, mine + [r], r.stage, r.arm, r.success);
            next.Some? && CandidateOk(p, c, next.value, mine + [r], None)
  {
    hide Tally, HardFailures, FirstMonitored, Moves, CountersOk, PhaseOk, PointerOk, AuditsOk, OriginOk, ReasonOk;
    hide OwnSlot, Determined;
    PhaseHasSettings(row, mine);
    ObservedChanges(row, mine, r);
    ObservedCounters(row, mine, r);
    if r.stage == InCanary {
      ObservedCanary(row, mine, r);
    } else {
      ObservedMonitor(row, mine, r);
    }
    ObservedKeepsRest(p, c, row, mine, r);
  }

  lemma PhaseHasSettings(row: Row, mine: seq<Receipt>)
    requires PhaseOk(row, mine)
    ensures Settings(row.binding, row.slot.bucket).Some?
  {
  }

  /** What an accepted outcome can change in a row. */
  ghost predicate ObservedFrom(row: Row, next: Row) {
    && next == row.(canary := next.canary, control := next.control, monitor := next.monitor, phase := next.phase,
                    reason := next.reason)
    && next.reason !in {Promoted, MonitorRollback, RollbackRecovered}
    && (row.phase == Canary ==> next.phase in {Canary, Promoting, Rejected, RolledBack})
    && (row.phase == Monitoring ==> next.phase in {Monitoring, RollingBack, Retained, RecoveryRequired}
                                    && next.canary == row.canary && next.control == row.control)
  }

  lemma ObservedChanges(row: Row, mine: seq<Receipt>, r: Receipt)
    requires row.phase == StagePhase(r.stage) && Settings(row.binding, row.slot.bucket).Some?
    ensures var next := Observed(row, mine + [r], r.stage, r.arm, r.success);
            next.Some? && ObservedFrom(row, next.value)
  {
    hide HardFailures, Settings;
  }

  /** Pointer, audits, origin and reason of a row that an outcome changed. */
  lemma ObservedKeepsRest(p: Pointers, c: nat, row: Row, mine: seq<Receipt>, r: Receipt)
    requires CandidateOk(p, c, row, mine, None) && Countable(r) && row.phase == StagePhase(r.stage)
    requires Observed(row, mine + [r], r.stage, r.arm, r.success).Some?
    requires ObservedFrom(row, Observed(row, mine + [r], r.stage, r.arm, r.success).value)
    requires var next := Observed(row, mine + [r], r.stage, r.arm, r.success).value;
             PhaseOk(next, mine + [r]) && (row.phase == Monitoring ==> next.phase in {Monitoring, RollingBack,
                                                                                      Retained})
    ensures var next := Observed(row, mine + [r], r.stage, r.arm, r.success).value;
            && PointerOk(p, next) && OriginOk(p, next) && ReasonOk(p, c, next, None)
            && AuditsOk(p, c, next, mine + [r]) && (OwnSlot(p, c, next) ==> Determined(p, next, None))
  {
    hide Observed, CountersOk, Moves, HardFailures;
    var next := Observed(row, mine + [r], r.stage, r.arm, r.success).value;
    TallyAppend(mine, r, InCanary, CandidateArm);
    if row.phase == Monitoring {
      GateStays(row, next, mine, r);
    }
    hide PhaseOk, CanaryGate;
  }

  /** Monitoring receipts cannot disturb the canary's gate. */
  lemma GateStays(row: Row, next: Row, mine: seq<Receipt>, r: Receipt)
    requires CanaryGate(row, mine) && row.phase == Monitoring && r.stage == InMonitor
    requires ObservedFrom(row, next)
    ensures CanaryGate(next, mine + [r])
  {
    hide HardFailures;
    TallyAppend(mine, r, InCanary, CandidateArm);
  }

  /** The guarded writes that stop a transition. */
  lemma StoppedOk(p: Pointers, c: nat, row: Row, mine: seq<Receipt>, phase: Phase, reason: Reason)
    requires CandidateOk(p, c, row, mine, None)
    requires (phase == RecoveryRequired && Live(row.phase)) || (phase == Rejected && row.phase == Canary)
    requires !NeedsGrounds(reason)
    ensures CandidateOk(p, c, row.(phase := phase, reason := reason), mine, None)
  {
    hide Tally, HardFailures, Moves;
  }

  lemma CrashedOk(p: Pointers, c: nat, row: Row, mine: seq<Receipt>, resolver: Option<Resolver>)
    requires CandidateOk(p, c, row, mine, resolver)
    ensures CandidateOk(p, c, row, mine, None)
  {
  }

  lemma BegunOk(p: Pointers, c: nat, row: Row, mine: seq<Receipt>)
    requires CandidateOk(p, c, row, mine, None) && Pending(row)
    ensures CandidateOk(p, c, row, mine, Some(Resolver(row, ReadVersion)))
  {
  }

  /** The first of the two slot reads, on either pass. */
  lemma VersionReadOk(p: Pointers, c: nat, row: Row, mine: seq<Receipt>, pc: Pc)
    requires p.Wf() && CandidateOk(p, c, row, mine, Some(Resolver(row, pc)))
    requires pc.ReadVersion? || pc.RereadVersion?
    ensures var next := if pc.ReadVersion? then ReadRevision(p.CurrentVersion(row.slot))
                        else RereadRevision(pc.refused, p.CurrentVersion(row.slot));
            CandidateOk(p, c, row, mine, Some(Resolver(row, next)))
  {
    assert p.CurrentVersion(row.slot) == p.Pointer(row.slot);
  }

  /** The second read and the decision it leads to. */
  lemma DecisionOk(p: Pointers, c: nat, row: Row, mine: seq<Receipt>, seen: Option<Version>, o: Outside)
    requires CandidateOk(p, c, row, mine, Some(Resolver(row, ReadRevision(seen))))
    ensures var pc := AfterReads(row, seen, p.LookupRevision(row.slot), o);
            CandidateOk(p, c, row, mine, Some(Resolver(row, pc)))
  {
    hide CountersOk, PhaseOk, AuditsOk, OwnSlot, Determined, Do;
    StepReadings(p, Stage(row.slot, row.version, Coordinator(0)), row.slot);
    if OwnSlot(p, c, row) {
      DecisionDetermined(p, row, seen, o);
    }
  }

  lemma DecisionDetermined(p: Pointers, row: Row, seen: Option<Version>, o: Outside)
    requires Pending(row) && PointerOk(p, row) && OriginOk(p, row) && SeenOk(p, row, seen)
    requires Determined(p, row, Some(Resolver(row, ReadRevision(seen))))
    ensures Determined(p, row, Some(Resolver(row, AfterReads(row, seen, p.LookupRevision(row.slot), o))))
  {
    StepReadings(p, Stage(row.slot, row.version, Coordinator(0)), row.slot);
  }

  lemma SecondDecisionOk(p: Pointers, c: nat, row: Row, mine: seq<Receipt>, refused: nat, seen: Option<Version>)
    requires CandidateOk(p, c, row, mine, Some(Resolver(row, RereadRevision(refused, seen))))
    ensures var revision := p.LookupRevision(row.slot);
            var pc := if seen == SwapTo(row) && revision == row.expected + 1 then Finish(true, revision, true)
                      else Finish(false, refused, false);
            CandidateOk(p, c, row, mine, Some(Resolver(row, pc)))
  {
    hide CountersOk, PhaseOk, AuditsOk, Do;
    StepReadings(p, Stage(row.slot, row.version, Coordinator(0)), row.slot);
  }

  lemma FinishedPhaseOk(row: Row, mine: seq<Receipt>, applied: bool, revision: nat, recovered: bool)
    requires CountersOk(row, mine) && PhaseOk(row, mine) && Pending(row)
    ensures CountersOk(FinishedRow(row, applied, revision, recovered), mine)
    ensures PhaseOk(FinishedRow(row, applied, revision, recovered), mine)
    ensures CanaryGate(row, mine) ==> CanaryGate(FinishedRow(row, applied, revision, recovered), mine)
  {
  }

  lemma FinishedOk(p: Pointers, c: nat, row: Row, mine: seq<Receipt>, applied: bool, revision: nat, recovered: bool)
    requires CandidateOk(p, c, row, mine, Some(Resolver(row, Finish(applied, revision, recovered))))
    ensures CandidateOk(p, c, FinishedRow(row, applied, revision, recovered), mine, None)
  {
    hide CountersOk, PhaseOk, CanaryGate, Moves, PointerOk, OriginOk, AuditsOk, ReasonOk, OwnSlot, Determined;
    FinishedPhaseOk(row, mine, applied, revision, recovered);
    FinishedPointerOk(p, row, applied, revision, recovered);
    FinishedAuditsOk(p, c, row, mine, applied, revision, recovered);
    if OwnSlot(p, c, row) {
      FinishedDetermined(p, row, applied, revision, recovered);
    }
    SameOwner(p, c, row, applied, revision, recovered);
  }

  lemma SameOwner(p: Pointers, c: nat, row: Row, applied: bool, revision: nat, recovered: bool)
    ensures OwnSlot(p, c, FinishedRow(row, applied, revision, recovered)) <==> OwnSlot(p, c, row)
  {
  }

  lemma FinishedPointerOk(p: Pointers, row: Row, applied: bool, revision: nat, recovered: bool)
    requires PointerOk(p, row) && OriginOk(p, row) && ResolverOk(p, row, Resolver(row, Finish(applied, revision,
                                                                                              recovered)))
    ensures var next := FinishedRow(row, applied, revision, recovered); PointerOk(p, next) && OriginOk(p, next)
  {
  }

  lemma FinishedAuditsOk(p: Pointers, c: nat, row: Row, mine: seq<Receipt>, applied: bool, revision: nat,
                         recovered: bool)
    requires AuditsOk(p, c, row, mine) && Pending(row)
    requires PointerOk(p, row) && ResolverOk(p, row, Resolver(row, Finish(applied, revision, recovered)))
    requires ReasonOk(p, c, row, Some(Resolver(row, Finish(applied, revision, recovered))))
    requires CanaryGate(row, mine) ==> CanaryGate(FinishedRow(row, applied, revision, recovered), mine)
    ensures var next := FinishedRow(row, applied, revision, recovered);
            AuditsOk(p, c, next, mine) && ReasonOk(p, c, next, None)
  {
    hide CanaryGate, Moves;
  }

  lemma FinishedDetermined(p: Pointers, row: Row, applied: bool, revision: nat, recovered: bool)
    requires Pending(row) && OriginOk(p, row) && PointerOk(p, row)
    requires ResolverOk(p, row, Resolver(row, Finish(applied, revision, recovered)))
    requires Determined(p, row, Some(Resolver(row, Finish(applied, revision, recovered))))
    ensures Determined(p, FinishedRow(row, applied, revision, recovered), None)
  {
  }

  lemma RejectedOk(p: Pointers, c: nat, row: Row, mine: seq<Receipt>, reason: Reason)
    requires CandidateOk(p, c, row, mine, Some(Resolver(row, Reject(reason))))
    ensures CandidateOk(p, c, row.(phase := Rejected, reason := reason), mine, None)
  {
    hide Tally, HardFailures, Moves;
  }

  /** The pointer call of a resolver: it replaces the recorded incumbent, or exactly the candidate. */
  lemma SwapAudits(p: Pointers, c: nat, row: Row, mine: seq<Receipt>)
    requires CandidateOk(p, c, row, mine, Some(Resolver(row, Swap)))
    ensures AuditsOk(Do(p, SwapOp(c, row)).0, c, row, mine)
  {
    hide CountersOk, VerdictOk, ReasonOk, Determined, OwnSlot, CanaryGate, LooksPassed, Moves, HardFailures;
    var (q, result) := Do(p, SwapOp(c, row));
    StepReadings(p, SwapOp(c, row), row.slot);
    StepAppends(p, SwapOp(c, row));
    if result.Applied? {
      var a := q.audits[|p.audits|];
      assert q.audits == p.audits + [a];
      assert RunnerAudit(row, a);
      MovesAppend(p.audits, a, c, AutomaticPromote);
      MovesAppend(p.audits, a, c, Rollback);
    }
  }

  lemma SwapDetermined(p: Pointers, c: nat, row: Row, mine: seq<Receipt>)
    requires CandidateOk(p, c, row, mine, Some(Resolver(row, Swap)))
    requires OwnSlot(Do(p, SwapOp(c, row)).0, c, row)
    ensures var (q, result) := Do(p, SwapOp(c, row));
            match result
            case Applied(revision) => Determined(q, row, Some(Resolver(row, Finish(true, revision, false))))
            case Refused(revision) => Determined(q, row, Some(Resolver(row, RereadVersion(revision))))
            case _ => Determined(q, row, None)
  {
    var (q, result) := Do(p, SwapOp(c, row));
    StepReadings(p, SwapOp(c, row), row.slot);
    StepAppends(p, SwapOp(c, row));
    assert p.audits <= q.audits;
    forall i | row.origin.audits <= i < |p.audits| && p.audits[i].slot == row.slot
      ensures p.audits[i].actor == RunnerFor(c)
    {
      assert q.audits[i] == p.audits[i];
    }
  }

  lemma SwapReason(p: Pointers, c: nat, row: Row, mine: seq<Receipt>)
    requires CandidateOk(p, c, row, mine, Some(Resolver(row, Swap)))
    ensures var (q, result) := Do(p, SwapOp(c, row));
            match result
            case Applied(revision) => ReasonOk(q, c, row, Some(Resolver(row, Finish(true, revision, false))))
            case Refused(revision) => ReasonOk(q, c, row, Some(Resolver(row, RereadVersion(revision))))
            case _ => ReasonOk(q, c, row, None)
  {
    var (q, result) := Do(p, SwapOp(c, row));
    StepAppends(p, SwapOp(c, row));
    if result.Applied? {
      var a := q.audits[|p.audits|];
      assert q.audits == p.audits + [a];
      MovesAppend(p.audits, a, c, AutomaticPromote);
      MovesAppend(p.audits, a, c, Rollback);
    }
  }

  lemma SwapOk(p: Pointers, c: nat, row: Row, mine: seq<Receipt>)
    requires CandidateOk(p, c, row, mine, Some(Resolver(row, Swap)))
    ensures var (q, result) := Do(p, SwapOp(c, row));
            match result
            case Applied(revision) => CandidateOk(q, c, row, mine, Some(Resolver(row, Finish(true, revision, false))))
            case Refused(revision) => CandidateOk(q, c, row, mine, Some(Resolver(row, RereadVersion(revision))))
            case _ => CandidateOk(q, c, row, mine, None)
  {
    hide AuditsOk, ReasonOk, Determined, OwnSlot, CountersOk, PhaseOk;
    var (q, result) := Do(p, SwapOp(c, row));
    StepReadings(p, SwapOp(c, row), row.slot);
    StepAppends(p, SwapOp(c, row));
    SwapAudits(p, c, row, mine);
    SwapReason(p, c, row, mine);
    if OwnSlot(q, c, row) {
      SwapDetermined(p, c, row, mine);
    }
  }
}
