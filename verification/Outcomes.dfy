/** What the recorded outcomes decide, in every run: a candidate advances exactly if its receipts are good enough for
    its plan, and is stopped exactly if they are not. Everything is counted in the receipt table itself. */
module Outcomes {
  import opened Basics
  import opened GuidancePointer
  import opened Transition
  import opened TransitionInvariant
  import opened TransitionRuns
  import opened TransitionTheorems
  import opened Decisions

  // ---------------------------------------------------------------- counting receipts

  ghost function Positions(table: seq<Receipt>, c: nat, stage: Stage, arm: Arm): set<nat> {
    set i: nat | i < |table| && table[i].candidate == c && table[i].stage == stage && table[i].arm == arm
  }

  ghost function MissedAt(table: seq<Receipt>, c: nat, stage: Stage, arm: Arm): set<nat> {
    set i | i in Positions(table, c, stage, arm) && !table[i].success
  }

  ghost function HardAt(table: seq<Receipt>, c: nat, stage: Stage): set<nat> {
    set i | i in Positions(table, c, stage, CandidateArm) && table[i].hard
  }

  ghost function Seen(table: seq<Receipt>, c: nat, stage: Stage, arm: Arm): nat {
    |Positions(table, c, stage, arm)|
  }

  ghost function Missed(table: seq<Receipt>, c: nat, stage: Stage, arm: Arm): nat {
    |MissedAt(table, c, stage, arm)|
  }

  ghost function Numbers(table: seq<Receipt>, c: nat, stage: Stage, arm: Arm): Counter {
    Counter(Seen(table, c, stage, arm), Missed(table, c, stage, arm))
  }

  ghost function Hard(table: seq<Receipt>, c: nat, stage: Stage): nat {
    |HardAt(table, c, stage)|
  }

  /** The counters and the count of hard failures are numbers of receipts. */
  lemma {:induction false} CountsAreReceipts(table: seq<Receipt>, c: nat, stage: Stage, arm: Arm)
    ensures Tally(Of(table, c), stage, arm) == Numbers(table, c, stage, arm)
    ensures HardFailures(Of(table, c), stage) == Hard(table, c, stage)
  {
    if table == [] {
      assert Positions(table, c, stage, arm) == {} && Positions(table, c, stage, CandidateArm) == {};
    } else {
      var before, n := table[..|table| - 1], |table| - 1;
      var r := table[n];
      CountsAreReceipts(before, c, stage, arm);
      assert table == before + [r];
      OfAppend(before, r, c);
      TallyAppend(Of(before, c), r, stage, arm);
      PositionsAppend(before, r, c, stage, arm);
      PositionsAppend(before, r, c, stage, CandidateArm);
    }
  }

  lemma OneMore(before: set<nat>, after: set<nat>, n: nat, hit: bool)
    requires n !in before && after == before + (if hit then {n} else {})
    ensures |after| == |before| + (if hit then 1 else 0)
  {
  }

  lemma PositionsGrow(table: seq<Receipt>, r: Receipt, c: nat, stage: Stage, arm: Arm)
    ensures Positions(table + [r], c, stage, arm)
         == Positions(table, c, stage, arm)
            + (if r.candidate == c && r.stage == stage && r.arm == arm then {|table|} else {})
  {
  }

  lemma PositionsArePast(table: seq<Receipt>, c: nat, stage: Stage, arm: Arm)
    ensures |table| !in Positions(table, c, stage, arm)
  {
  }

  lemma PositionsAppend(table: seq<Receipt>, r: Receipt, c: nat, stage: Stage, arm: Arm)
    ensures var hit := r.candidate == c && r.stage == stage && r.arm == arm;
            && Seen(table + [r], c, stage, arm) == Seen(table, c, stage, arm) + (if hit then 1 else 0)
            && Missed(table + [r], c, stage, arm) == Missed(table, c, stage, arm) + (if hit && !r.success then 1 else 0)
            && (arm == CandidateArm ==>
                  Hard(table + [r], c, stage) == Hard(table, c, stage) + (if hit && r.hard then 1 else 0))
  {
    var all, n := table + [r], |table|;
    var hit := r.candidate == c && r.stage == stage && r.arm == arm;
    PositionsGrow(table, r, c, stage, arm);
    PositionsArePast(table, c, stage, arm);
    OneMore(Positions(table, c, stage, arm), Positions(all, c, stage, arm), n, hit);
    MissedGrow(table, r, c, stage, arm);
    OneMore(MissedAt(table, c, stage, arm), MissedAt(all, c, stage, arm), n, hit && !r.success);
    if arm == CandidateArm {
      HardGrow(table, r, c, stage);
      OneMore(HardAt(table, c, stage), HardAt(all, c, stage), n, hit && r.hard);
    }
  }

  lemma MissedGrow(table: seq<Receipt>, r: Receipt, c: nat, stage: Stage, arm: Arm)
    ensures |table| !in MissedAt(table, c, stage, arm)
    ensures MissedAt(table + [r], c, stage, arm)
         == MissedAt(table, c, stage, arm)
            + (if r.candidate == c && r.stage == stage && r.arm == arm && !r.success then {|table|} else {})
  {
    PositionsGrow(table, r, c, stage, arm);
    PositionsArePast(table, c, stage, arm);
    var all := table + [r];
    assert forall i :: i in Positions(table, c, stage, arm) ==> all[i] == table[i];
  }

  lemma HardGrow(table: seq<Receipt>, r: Receipt, c: nat, stage: Stage)
    ensures |table| !in HardAt(table, c, stage)
    ensures HardAt(table + [r], c, stage)
         == HardAt(table, c, stage)
            + (if r.candidate == c && r.stage == stage && r.arm == CandidateArm && r.hard then {|table|} else {})
  {
    PositionsGrow(table, r, c, stage, CandidateArm);
    PositionsArePast(table, c, stage, CandidateArm);
    var all := table + [r];
    assert forall i :: i in Positions(table, c, stage, CandidateArm) ==> all[i] == table[i];
  }

  // ---------------------------------------------------------------- the canary

  /** The failure rate is over the control's by more than the margin. */
  ghost predicate Worse(trial: Counter, control: Counter, margin: real) {
    && trial.observations > 0 && control.observations > 0
    && trial.failures as real / trial.observations as real
         > control.failures as real / control.observations as real + margin
  }

  /** What the receipts of a canary come to: enough of them, enough on both arms, no more hard failures than the veto
      allows, and a failure rate within margin of the control's. */
  ghost predicate CanaryDecided(row: Row, table: seq<Receipt>, c: nat)
    requires row.slot.bucket in row.binding.canary.buckets
  {
    var plan, own := row.binding.canary, row.binding.canary.buckets[row.slot.bucket];
    var n, m := Seen(table, c, InCanary, CandidateArm), Seen(table, c, InCanary, IncumbentArm);
    var vetoed, enough := Hard(table, c, InCanary) > plan.veto, n + m >= plan.horizon;
    var powered := n >= own.minimum && m >= own.minimum;
    var worse := Worse(Numbers(table, c, InCanary, CandidateArm), Numbers(table, c, InCanary, IncumbentArm),
                       own.margin);
    && (row.reason == CandidateHardFailure <==> vetoed) && (row.reason == OutcomeRecorded <==> !vetoed && !enough)
    && (row.reason == CanaryUnderpowered <==> !vetoed && enough && !powered)
    && (row.reason == CanaryRegression <==> !vetoed && enough && powered && worse)
    && (row.reason == CanaryPassed <==> !vetoed && enough && powered && !worse)
    && (row.phase == Rejected <==> row.reason in {CandidateHardFailure, CanaryUnderpowered})
    && (row.phase == RolledBack <==> row.reason == CanaryRegression)
    && (row.phase == Promoting <==> row.reason == CanaryPassed)
    && (row.phase == Canary <==> row.reason == OutcomeRecorded)
  }

  // ---------------------------------------------------------------- the monitor

  /** The monitor looks at every interval of receipts and from the horizon on. */
  ghost predicate AtLook(plan: MonitorPlan, n: nat) {
    n >= plan.horizon || (plan.look > 0 && n % plan.look == 0)
  }

  /** What the receipts of a monitored candidate come to, against the canary's control. */
  ghost predicate MonitorDecided(row: Row, table: seq<Receipt>, c: nat) {
    var plan, n := row.binding.monitor, Seen(table, c, InMonitor, CandidateArm);
    var vetoed := Hard(table, c, InMonitor) > plan.veto;
    var over := AtLook(plan, n) && Worse(Numbers(table, c, InMonitor, CandidateArm),
                                         Numbers(table, c, InCanary, IncumbentArm), plan.margin);
    && Seen(table, c, InCanary, IncumbentArm) > 0
    && (row.phase == RollingBack <==> vetoed || over)
    && (row.phase == Retained <==> !vetoed && !over && n >= plan.horizon)
    && (row.phase == Monitoring <==> !vetoed && !over && n < plan.horizon)
    && (row.phase == RollingBack ==> row.reason == if vetoed then MonitorHardFailure else MonitorRegression)
  }

  // ---------------------------------------------------------------- in every run

  lemma CountersOf(s: Core, c: nat)
    requires Inv(s) && c in s.rows
    ensures var row := s.rows[c];
            && row.canary == Numbers(s.receipts, c, InCanary, CandidateArm)
            && row.control == Numbers(s.receipts, c, InCanary, IncumbentArm)
            && row.monitor == Numbers(s.receipts, c, InMonitor, CandidateArm)
            && HardFailures(Of(s.receipts, c), InCanary) == Hard(s.receipts, c, InCanary)
            && HardFailures(Of(s.receipts, c), InMonitor) == Hard(s.receipts, c, InMonitor)
  {
    hide Tally, HardFailures, Seen, Missed, Hard, Inv;
    AboutRow(s, c);
    CountsAreReceipts(s.receipts, c, InCanary, CandidateArm);
    CountsAreReceipts(s.receipts, c, InCanary, IncumbentArm);
    CountsAreReceipts(s.receipts, c, InMonitor, CandidateArm);
  }

  lemma CanaryVerdictMeans(row: Row, table: seq<Receipt>, c: nat, settings: CanarySettings)
    requires Settings(row.binding, row.slot.bucket) == Some(settings)
    requires row.canary == Numbers(table, c, InCanary, CandidateArm)
    requires row.control == Numbers(table, c, InCanary, IncumbentArm)
    requires (row.phase, row.reason) == CanaryVerdict(settings, row.canary, row.control, Hard(table, c, InCanary))
    ensures row.slot.bucket in row.binding.canary.buckets && CanaryDecided(row, table, c)
  {
    hide Seen, Missed, Hard;
  }

  lemma MonitorVerdictMeans(row: Row, table: seq<Receipt>, c: nat)
    requires row.monitor == Numbers(table, c, InMonitor, CandidateArm)
    requires row.control == Numbers(table, c, InCanary, IncumbentArm)
    requires row.monitor.observations > 0 && row.control.observations > 0
    requires (row.phase, row.reason)
          == MonitorVerdict(row.binding.monitor, row.monitor, row.control, Hard(table, c, InMonitor))
    ensures MonitorDecided(row, table, c)
  {
    hide Seen, Missed, Hard;
  }

  lemma RecordedVerdict(s: Core, x: Selection, success: Option<bool>, hard: Option<bool>, standing: Standing, now: int)
    requires Record(s, x, success, hard, standing, now).0.receipts != s.receipts
    ensures var t := Record(s, x, success, hard, standing, now).0;
            var c, mine := x.candidate, Of(t.receipts, x.candidate);
            && c in s.rows && c in t.rows
            && var row, settings := t.rows[c], Settings(t.rows[c].binding, t.rows[c].slot.bucket);
            && row.control.observations >= s.rows[c].control.observations
            && if x.stage == InCanary then
                 && settings.Some?
                 && (row.phase, row.reason)
                      == CanaryVerdict(settings.value, row.canary, row.control, HardFailures(mine, InCanary))
               else
                 && row.monitor.observations > 0
                 && (row.phase, row.reason)
                      == MonitorVerdict(row.binding.monitor, row.monitor, row.control, HardFailures(mine, InMonitor))
  {
    hide Of, HardFailures, CanaryVerdict, MonitorVerdict, Settings, Recorded;
  }

  /** The outcome that counts decides by all receipts so far, its own included: a canary goes on, advances or stops,
      and a monitored candidate goes on, is retained or rolled back, exactly as they say. */
  lemma OutcomeDecides(s: Core, steps: seq<Step>, x: Selection, success: Option<bool>, hard: Option<bool>,
                       standing: Standing, now: int)
    requires Initial(s)
    requires Counted(Transition.Run(s, steps), x, success, hard, standing, now)
    ensures var t := Record(Transition.Run(s, steps), x, success, hard, standing, now).0;
            && x.candidate in t.rows
            && var row := t.rows[x.candidate];
            if x.stage == InCanary
            then row.slot.bucket in row.binding.canary.buckets && CanaryDecided(row, t.receipts, x.candidate)
            else MonitorDecided(row, t.receipts, x.candidate)
  {
    hide Transition.Run, CanaryDecided, MonitorDecided, Inv, Record, Seen, Missed, Hard, Counted;
    InitialInv(s);
    Reachable(s, steps);
    var at := Transition.Run(s, steps);
    var t := Record(at, x, success, hard, standing, now).0;
    RecordStep(at, x, success, hard, standing, now);
    CountedExactly(at, x, success, hard, standing, now);
    RecordedVerdict(at, x, success, hard, standing, now);
    CountersOf(t, x.candidate);
    var row := t.rows[x.candidate];
    if x.stage == InCanary {
      CanaryVerdictMeans(row, t.receipts, x.candidate, Settings(row.binding, row.slot.bucket).value);
    } else {
      MonitoredHasControl(at, x, success, hard, standing, now);
      MonitorVerdictMeans(row, t.receipts, x.candidate);
    }
  }

  /** A monitored candidate passed a canary, which had observations of the control. */
  lemma MonitoredHasControl(s: Core, x: Selection, success: Option<bool>, hard: Option<bool>, standing: Standing,
                            now: int)
    requires Inv(s) && Counted(s, x, success, hard, standing, now) && x.stage == InMonitor
    ensures s.rows[x.candidate].control.observations > 0
  {
    AboutRow(s, x.candidate);
  }

  /** And at any later moment: a candidate that is monitored, retained or about to be rolled back is so exactly by its
      receipts, for a monitored one those at its last look. */
  lemma MonitorStands(s: Core, steps: seq<Step>, c: nat)
    requires Initial(s) && c in Transition.Run(s, steps).rows
    requires Transition.Run(s, steps).rows[c].phase in {Monitoring, RollingBack, Retained}
    ensures MonitorDecided(Transition.Run(s, steps).rows[c], Transition.Run(s, steps).receipts, c)
  {
    hide Transition.Run, Seen, Missed, Hard, Inv, Tally, HardFailures;
    InitialInv(s);
    Reachable(s, steps);
    var t := Transition.Run(s, steps);
    AboutRow(t, c);
    CountersOf(t, c);
    MonitorStandsAt(t.rows[c], t.receipts, c);
  }

  lemma MonitorStandsAt(row: Row, table: seq<Receipt>, c: nat)
    requires CountersOk(row, Of(table, c)) && PhaseOk(row, Of(table, c)) && row.phase in {Monitoring, RollingBack,
                                                                                          Retained}
    requires row.monitor == Numbers(table, c, InMonitor, CandidateArm)
    requires row.control == Numbers(table, c, InCanary, IncumbentArm)
    requires HardFailures(Of(table, c), InMonitor) == Hard(table, c, InMonitor)
    ensures MonitorDecided(row, table, c)
  {
    hide Seen, Missed, Hard;
    var mine, n, m := Of(table, c), row.monitor.observations, row.binding.monitor;
    FirstMonitoredCounts(mine, n);
    assert FirstMonitored(mine, n) == Tally(mine, InMonitor, CandidateArm);
    if row.phase != RollingBack && n > 0 && AtLook(m, n) {
      assert LookPassed(row.control, m.margin, mine, n);
    }
  }

  /** Whoever its canary stopped has failed it, by the receipts that are still there. */
  lemma StoppedCanaryHadFailed(s: Core, steps: seq<Step>, c: nat)
    requires Initial(s) && c in Transition.Run(s, steps).rows
    requires Transition.Run(s, steps).rows[c].reason in {CandidateHardFailure, CanaryUnderpowered, CanaryRegression}
    ensures var t := Transition.Run(s, steps);
            t.rows[c].slot.bucket in t.rows[c].binding.canary.buckets && StoppedFor(t.rows[c], t.receipts, c)
  {
    hide Transition.Run, Seen, Missed, Hard, Inv, Tally, HardFailures;
    InitialInv(s);
    Reachable(s, steps);
    var t := Transition.Run(s, steps);
    AboutRow(t, c);
    CountersOf(t, c);
  }

  ghost predicate StoppedFor(row: Row, table: seq<Receipt>, c: nat)
    requires row.slot.bucket in row.binding.canary.buckets
  {
    var plan, own := row.binding.canary, row.binding.canary.buckets[row.slot.bucket];
    var n, m := Seen(table, c, InCanary, CandidateArm), Seen(table, c, InCanary, IncumbentArm);
    match row.reason
    case CandidateHardFailure => Hard(table, c, InCanary) > plan.veto
    case CanaryUnderpowered =>
      Hard(table, c, InCanary) <= plan.veto && n + m >= plan.horizon && (n < own.minimum || m < own.minimum)
    case CanaryRegression =>
      && Hard(table, c, InCanary) <= plan.veto && n + m >= plan.horizon && n >= own.minimum && m >= own.minimum
      && Worse(Numbers(table, c, InCanary, CandidateArm), Numbers(table, c, InCanary, IncumbentArm), own.margin)
    case _ => true
  }
}
