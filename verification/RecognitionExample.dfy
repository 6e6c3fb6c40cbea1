/** A run that reaches rows whose candidate repeats the incumbent's version, ready to be promoted and then ready to
    be rolled back, so the mistakes shown in Recognition are real. */
module RecognitionExample {
  import opened Basics
  import opened GuidancePointer
  import opened Transition
  import opened TransitionInvariant
  import opened Recognition
  import Coordination

  const SLOT := Slot(0, 0)

  /** One bucket, two exposures, half of the traffic; then two monitored exposures with a look at each. */
  ghost const PLAN := Authority(1, CanaryPlan(map[0 := BucketPlan(1, 0.0)], 2, 1, 2, 0, 10), MonitorPlan(1, 2, 0.0, 0))

  /** Version 7 is active. */
  ghost const START := Core(Pointers(map[7 := SLOT], map[SLOT := ActiveRow(7, 1)], map[SLOT := 1], []), map[], [],
      map[])

  ghost function Row7(expected: nat, phase: Phase, canary: Counter, control: Counter, monitor: Counter,
                      reason: Reason): Row {
    Row(SLOT, 7, Some(7), expected, phase, canary, control, monitor, reason, 0, PLAN, Origin(1, 1, 0))
  }

  // ---------------------------------------------------------------- admission

  /** Version 7 is proposed again, with everything in order. */
  ghost function Proposed(): Step {
    Admit(Proposal(0, SLOT, 7),
          Checks(Some(PLAN), true, Some(true), true, true, true, _ => true, true, false, true), 0)
  }

  lemma AdmitsRepeat()
    ensures Next(START, Proposed())
         == START.(rows := map[0 := Row7(1, Canary, Counter(0, 0), Counter(0, 0), Counter(0, 0), CandidateAdmitted)])
  {
    assert Settings(PLAN, 0).Some?;
  }

  // ---------------------------------------------------------------- outcomes

  ghost function Outcome(stage: Stage, arm: Arm, exposure: nat, success: bool): Step {
    RecordOutcome(Selection(0, SLOT, 7, stage, arm, Some(exposure)), Some(success), Some(false),
        Standing(Some(PLAN), true), 1)
  }

  ghost function Taken(stage: Stage, arm: Arm, exposure: nat, success: bool): Receipt {
    Receipt(0, exposure, stage, arm, success, false)
  }

  lemma {:induction false} NoHardFailures(mine: seq<Receipt>, stage: Stage)
    requires forall i :: 0 <= i < |mine| ==> !mine[i].hard
    ensures HardFailures(mine, stage) == 0
  {
    if mine != [] {
      NoHardFailures(mine[..|mine| - 1], stage);
    }
  }

  lemma {:induction false} OfKeepsHard(s: seq<Receipt>)
    requires forall i :: 0 <= i < |s| ==> !s[i].hard
    ensures forall i :: 0 <= i < |Of(s, 0)| ==> !Of(s, 0)[i].hard
  {
    if s != [] {
      OfKeepsHard(s[..|s| - 1]);
    }
  }

  /** The row an accepted outcome makes of a row of the example, none of whose outcomes was a hard failure. */
  ghost function After(row: Row, stage: Stage, arm: Arm, success: bool): Row
    requires row.binding == PLAN
  {
    match stage
    case InCanary =>
      var canary := if arm == CandidateArm then row.canary.Observe(success) else row.canary;
      var control := if arm == CandidateArm then row.control else row.control.Observe(success);
      var (phase, reason) := CanaryVerdict(CanarySettings(1, 2, 50, 0.0, 0), canary, control, 0);
      row.(canary := canary, control := control, phase := phase, reason := reason)
    case InMonitor =>
      var monitor := row.monitor.Observe(success);
      var (phase, reason) := MonitorVerdict(PLAN.monitor, monitor, row.control, 0);
      row.(monitor := monitor, phase := phase, reason := reason)
  }

  lemma ObservedAfter(row: Row, mine: seq<Receipt>, stage: Stage, arm: Arm, success: bool)
    requires row.binding == PLAN && row.slot == SLOT && forall i :: 0 <= i < |mine| ==> !mine[i].hard
    ensures Observed(row, mine, stage, arm, success) == Some(After(row, stage, arm, success))
  {
    hide CanaryVerdict, MonitorVerdict, HardFailures;
    NoHardFailures(mine, stage);
    assert Settings(PLAN, 0) == Some(CanarySettings(1, 2, 50, 0.0, 0));
  }

  lemma Records(s: Core, row: Row, stage: Stage, arm: Arm, exposure: nat, success: bool)
    requires s.rows == map[0 := row] && row.slot == SLOT && row.version == 7 && row.binding == PLAN
               && row.createdAt == 0
    requires row.phase == StagePhase(stage) && PointerAsExpected(s.p, row, stage)
    requires arm == CandidateArm || (arm == IncumbentArm && stage == InCanary)
    requires forall i :: 0 <= i < |s.receipts| ==> !s.receipts[i].hard && s.receipts[i].exposure != exposure
    ensures Next(s, Outcome(stage, arm, exposure, success))
         == s.(rows := map[0 := After(row, stage, arm, success)],
             receipts := s.receipts + [Taken(stage, arm, exposure, success)])
  {
    hide Observed, After, PointerAsExpected;
    var receipts := s.receipts + [Taken(stage, arm, exposure, success)];
    OfKeepsHard(receipts);
    ObservedAfter(row, Of(receipts, 0), stage, arm, success);
    var t := Next(s, Outcome(stage, arm, exposure, success));
    assert t.rows == map[0 := After(row, stage, arm, success)];
  }

  // ---------------------------------------------------------------- ready to be promoted

  ghost const CANARY := [Taken(InCanary, CandidateArm, 1, true), Taken(InCanary, IncumbentArm, 2, true)]

  ghost const TO_PROMOTE: seq<Step> :=
    [] + [Proposed()] + [Outcome(InCanary, CandidateArm, 1, true)] + [Outcome(InCanary, IncumbentArm, 2, true)]

  ghost const PASSED := Row7(1, Promoting, Counter(1, 0), Counter(1, 0), Counter(0, 0), CanaryPassed)
  ghost const PROMOTABLE := START.(rows := map[0 := PASSED], receipts := CANARY)

  lemma ReachesPromoting()
    ensures Transition.Run(START, TO_PROMOTE) == PROMOTABLE
  {
    var row := Row7(1, Canary, Counter(0, 0), Counter(0, 0), Counter(0, 0), CandidateAdmitted);
    var s1 := START.(rows := map[0 := row]);
    var next := Row7(1, Canary, Counter(1, 0), Counter(0, 0), Counter(0, 0), OutcomeRecorded);
    var s2 := s1.(rows := map[0 := next], receipts := [Taken(InCanary, CandidateArm, 1, true)]);
    AdmitsRepeat();
    Records(s1, row, InCanary, CandidateArm, 1, true);
    Records(s2, next, InCanary, IncumbentArm, 2, true);
    assert After(row, InCanary, CandidateArm, true) == next;
    assert After(next, InCanary, IncumbentArm, true) == PASSED;
    hide Next, After;
    assert Transition.Run(START, []) == START;
    RunMore(START, [], Proposed());
    RunMore(START, [] + [Proposed()], Outcome(InCanary, CandidateArm, 1, true));
    RunMore(START, [] + [Proposed()] + [Outcome(InCanary, CandidateArm, 1, true)],
        Outcome(InCanary, IncumbentArm, 2, true));
    assert [] + [Taken(InCanary, CandidateArm, 1, true)] == s2.receipts;
    assert s2.receipts + [Taken(InCanary, IncumbentArm, 2, true)] == CANARY;
  }

  /** A reachable row that is ready to be promoted and proposes the version already active. */
  lemma RepeatedPromotionIsReachable()
    ensures var s := Transition.Run(START, TO_PROMOTE);
            Initial(START) && Ripe(s, 0) && !Distinct(s.rows[0]) && s.rows[0].phase == Promoting
  {
    ReachesPromoting();
  }

  // ---------------------------------------------------------------- ready to be rolled back

  const UNDISTURBED := Outside(1, true, true)

  ghost const SWAPPED := START.p.Moved(SLOT, Some(7), AutomaticPromote, Some(1), RunnerFor(0))
  ghost const MONITORED := Row7(2, Monitoring, Counter(1, 0), Counter(1, 0), Counter(0, 0), Promoted)
  ghost const MONITORING := Core(SWAPPED, map[0 := MONITORED], CANARY, map[])
  ghost const FAILED := Row7(2, RollingBack, Counter(1, 0), Counter(1, 0), Counter(1, 1), MonitorRegression)

  ghost const TO_MONITOR: seq<Step> :=
    TO_PROMOTE + [Begin(0)] + [Resolve(0, UNDISTURBED)] + [Resolve(0, UNDISTURBED)] + [Resolve(0, UNDISTURBED)]
    + [Resolve(0, UNDISTURBED)]

  ghost function Resolving(p: Pointers, pc: Pc): Core {
    Core(p, map[0 := PASSED], CANARY, map[0 := Resolver(PASSED, pc)])
  }

  /** The resolver, left alone, replaces version 7 by itself. */
  lemma PromotesRepeat()
    ensures Next(PROMOTABLE, Begin(0)) == Resolving(START.p, ReadVersion)
    ensures Next(Resolving(START.p, ReadVersion), Resolve(0, UNDISTURBED)) == Resolving(START.p, ReadRevision(Some(7)))
    ensures Next(Resolving(START.p, ReadRevision(Some(7))), Resolve(0, UNDISTURBED)) == Resolving(START.p, Swap)
  {
  }

  lemma SwapsRepeat()
    ensures Next(Resolving(START.p, Swap), Resolve(0, UNDISTURBED)) == Resolving(SWAPPED, Finish(true, 2, false))
    ensures Next(Resolving(SWAPPED, Finish(true, 2, false)), Resolve(0, UNDISTURBED)) == MONITORING
  {
  }

  lemma Then(steps: seq<Step>, at: Core, step: Step, next: Core)
    requires Transition.Run(START, steps) == at && Next(at, step) == next
    ensures Transition.Run(START, steps + [step]) == next
  {
    RunMore(START, steps, step);
  }

  lemma ReachesMonitoring()
    ensures Transition.Run(START, TO_MONITOR) == MONITORING
  {
    ReachesPromoting();
    PromotesRepeat();
    SwapsRepeat();
    var step, steps := Resolve(0, UNDISTURBED), TO_PROMOTE;
    assert TO_MONITOR == steps + [Begin(0)] + [step] + [step] + [step] + [step];
    hide *;
    Then(steps, PROMOTABLE, Begin(0), Resolving(START.p, ReadVersion));
    Then(steps + [Begin(0)], Resolving(START.p, ReadVersion), step, Resolving(START.p, ReadRevision(Some(7))));
    Then(steps + [Begin(0)] + [step], Resolving(START.p, ReadRevision(Some(7))), step, Resolving(START.p, Swap));
    Then(steps + [Begin(0)] + [step] + [step], Resolving(START.p, Swap), step,
        Resolving(SWAPPED, Finish(true, 2, false)));
    Then(steps + [Begin(0)] + [step] + [step] + [step], Resolving(SWAPPED, Finish(true, 2, false)), step, MONITORING);
  }

  /** A reachable row that is ready to be rolled back to the version it monitors. */
  lemma RepeatedRollbackIsReachable()
    ensures var s := Transition.Run(START, TO_MONITOR + [Outcome(InMonitor, CandidateArm, 3, false)]);
            Initial(START) && Ripe(s, 0) && !Distinct(s.rows[0]) && s.rows[0].phase == RollingBack
  {
    ReachesMonitoring();
    FailsMonitoring();
    FailedIsRipe();
    hide *;
    RunMore(START, TO_MONITOR, Outcome(InMonitor, CandidateArm, 3, false));
  }

  ghost const FAILING := Core(SWAPPED, map[0 := FAILED], CANARY + [Taken(InMonitor, CandidateArm, 3, false)], map[])

  lemma FailsMonitoring()
    ensures Next(MONITORING, Outcome(InMonitor, CandidateArm, 3, false)) == FAILING
  {
    assert PointerAsExpected(SWAPPED, MONITORED, InMonitor);
    Records(MONITORING, MONITORED, InMonitor, CandidateArm, 3, false);
    assert After(MONITORED, InMonitor, CandidateArm, false) == FAILED;
  }

  lemma FailedIsRipe()
    ensures Initial(START) && Ripe(FAILING, 0) && !Distinct(FAILING.rows[0]) && FAILING.rows[0].phase == RollingBack
  {
  }

  // ---------------------------------------------------------------- and evidence for them

  /** A replay of a version against itself passes the evidence chain. */
  lemma RepeatIsEvidence() returns (e: Coordination.Evidence)
    ensures Coordination.Chain(e, SLOT, 7, Some(7), Some(0)).Verified?
  {
    var ids := Coordination.Ids(1, 0, 2, 3, 4, 5);
    var metadata := Coordination.Metadata(Some(ids), 0);
    var candidate := Some(Coordination.CandidateBody(0, 1, 7, 3, 4, metadata, true));
    var evaluation := Some(Coordination.EvaluationBody(1, 4, true));
    var audit := Some(Coordination.AuditBody(4, 9, Coordination.PromotionReady, true, true, false, 7, 7, Some(7)));
    var replay := Coordination.Sealed(0, Coordination.PairedReplay, Some([]), Some(Coordination.ManifestBody(4, 9)));
    var training := Coordination.Sealed(0, Coordination.OptimizationTraining, Some([]), None);
    var run := Some(Coordination.RunBody(0, 7, 5, 4, 3));
    e := Coordination.Evidence(map[7 := Coordination.VersionRow(0, metadata, (0, metadata))],
                               map[0 := Coordination.CandidateRow(SLOT, 1, 7, candidate, candidate)],
                               map[2 := Coordination.EvaluationRow(0, evaluation, evaluation)],
                               map[3 := Coordination.AuditRow(0, 4, audit, audit)],
                               map[4 := Coordination.ManifestRow(replay, replay),
                                   5 := Coordination.ManifestRow(training, training)],
                               map[1 := Coordination.RunRow(0, true, run, run)]);
  }
}
