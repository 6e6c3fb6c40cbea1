/** Runs from a store whose slot row lags behind its pointer row: the candidate ends rejected, or rolled back after a
    failed canary, and the slot is not at the recorded revision although nobody moved it. */
module LaggingExample {
  import opened Basics
  import opened GuidancePointer
  import opened Transition
  import opened TransitionInvariant
  import opened TransitionTheorems
  import opened RecognitionExample
  import opened Recognition

  /** Version 5 is active at revision 3, and the slot row still says 1. */
  ghost const LAGGING := Core(Pointers(map[5 := SLOT, 7 := SLOT], map[SLOT := ActiveRow(5, 3)], map[SLOT := 1], []),
                              map[], [], map[])

  ghost function Row5(phase: Phase, canary: Counter, control: Counter, reason: Reason): Row {
    Row(SLOT, 7, Some(5), 1, phase, canary, control, Counter(0, 0), reason, 0, PLAN, Origin(1, 3, 0))
  }

  ghost const ADMITTED := Row5(Canary, Counter(0, 0), Counter(0, 0), CandidateAdmitted)
  ghost const EXPIRED := Row5(Rejected, Counter(0, 0), Counter(0, 0), CanaryExpired)
  ghost const MISSED := Row5(Canary, Counter(1, 1), Counter(0, 0), OutcomeRecorded)
  ghost const REGRESSED := Row5(RolledBack, Counter(1, 1), Counter(1, 0), CanaryRegression)

  ghost const EXPIRING := ExpireCanary(0, Standing(Some(PLAN), true), 10)

  lemma AdmitsOverLag()
    ensures Next(LAGGING, Proposed()) == LAGGING.(rows := map[0 := ADMITTED])
    ensures Transition.Run(LAGGING, [Proposed()]) == LAGGING.(rows := map[0 := ADMITTED])
  {
    assert Settings(PLAN, 0).Some?;
    assert [Proposed()][..0] == [];
  }

  /** Rejected, with the slot at revision 3 and not at the recorded 1. */
  lemma RejectedAheadOfRecorded()
    ensures var t := Transition.Run(LAGGING, [Proposed()] + [EXPIRING]);
            && Initial(LAGGING) && t.rows == map[0 := EXPIRED] && Lagged(EXPIRED)
            && OwnSlot(t.p, 0, EXPIRED) && t.p.Effective(SLOT) == 3
  {
    AdmitsOverLag();
    RunMore(LAGGING, [Proposed()], EXPIRING);
    assert LAGGING.(rows := map[0 := ADMITTED]).Mark(0, {Canary}, Rejected, CanaryExpired).rows == map[0 := EXPIRED];
  }

  lemma FailsCanary()
    ensures After(ADMITTED, InCanary, CandidateArm, false) == MISSED
    ensures After(MISSED, InCanary, IncumbentArm, true) == REGRESSED
  {
  }

  /** Rolled back after a failed canary, likewise. */
  lemma RolledBackAheadOfRecorded()
    ensures var fails, serves := Outcome(InCanary, CandidateArm, 1, false), Outcome(InCanary, IncumbentArm, 2, true);
            var t := Transition.Run(LAGGING, [Proposed()] + [fails] + [serves]);
            && Initial(LAGGING) && t.rows == map[0 := REGRESSED] && Lagged(REGRESSED) && !UndoneByResolver(REGRESSED)
            && OwnSlot(t.p, 0, REGRESSED) && t.p.Effective(SLOT) == 3
  {
    var fails, serves := Outcome(InCanary, CandidateArm, 1, false), Outcome(InCanary, IncumbentArm, 2, true);
    var s1 := LAGGING.(rows := map[0 := ADMITTED]);
    var s2 := s1.(rows := map[0 := MISSED], receipts := [Taken(InCanary, CandidateArm, 1, false)]);
    AdmitsOverLag();
    Records(s1, ADMITTED, InCanary, CandidateArm, 1, false);
    Records(s2, MISSED, InCanary, IncumbentArm, 2, true);
    FailsCanary();
    hide Next, After;
    assert [] + [Taken(InCanary, CandidateArm, 1, false)] == s2.receipts;
    RunMore(LAGGING, [Proposed()], fails);
    RunMore(LAGGING, [Proposed()] + [fails], serves);
  }
}
