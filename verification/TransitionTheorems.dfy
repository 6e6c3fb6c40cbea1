/** What every run of the transition machine guarantees, from any initial pointer store, with foreign
    writers and crashes anywhere and one resolver per candidate at a time. */
module TransitionTheorems {
  import opened Basics
  import opened GuidancePointer
  import opened Transition
  import opened TransitionInvariant
  import opened TransitionRuns

  lemma AboutCandidate(s: Core, c: nat)
    requires Inv(s) && c in s.rows
    ensures CandidateOk(s.p, c, s.rows[c], Of(s.receipts, c), ResolverOf(s, c))
  {
  }

  lemma AboutRow(s: Core, c: nat)
    requires Inv(s) && c in s.rows
    ensures CountersOk(s.rows[c], Of(s.receipts, c)) && PhaseOk(s.rows[c], Of(s.receipts, c))
  {
    AboutCandidate(s, c);
  }

  lemma AboutResolver(s: Core, c: nat)
    requires Inv(s) && c in s.resolvers
    ensures c in s.rows && Pending(s.rows[c]) && s.resolvers[c].item == s.rows[c]
    ensures PointerOk(s.p, s.rows[c]) && ResolverOk(s.p, s.rows[c], s.resolvers[c])
  {
    SettledRowsHaveNone(s, c);
    AboutCandidate(s, c);
    assert ResolverOf(s, c) == Some(s.resolvers[c]);
  }

  // ---------------------------------------------------------------- crash recovery

  /** Each candidate is promoted at most once and rolled back at most once, however often its resolver
      crashes and resumes. With nobody else moving the slot, the settled phase tells where the pointer
      is: rejected at the incumbent, retained at the candidate one revision on, rolled back at the
      incumbent, untouched after a failed canary or two revisions on after a promotion. */
  lemma CrashRecovery(s: Core, steps: seq<Step>, c: nat)
    requires Initial(s) && c in Transition.Run(s, steps).rows
    ensures var t := Transition.Run(s, steps);
            var p, row, k := t.p, t.rows[c], t.rows[c].slot;
            && Moves(p.audits, c, AutomaticPromote) <= 1 && Moves(p.audits, c, Rollback) <= 1
            && (OwnSlot(p, c, row) ==>
                  && (row.phase == Rejected ==> p.Pointer(k) == row.baseline && p.Effective(k) == row.origin.effective)
                  && (row.phase == Retained ==>
                       p.Pointer(k) == Some(row.version) && p.Effective(k) == row.origin.revision + 1)
                  && (row.phase == RolledBack ==>
                       && p.Pointer(k) == row.baseline
                       && p.Effective(k) == (if UndoneByResolver(row) then row.origin.revision + 2
                                             else row.origin.effective)))
  {
    hide Inv, Transition.Run, Moves, OwnSlot, Determined;
    InitialInv(s);
    Reachable(s, steps);
    var t := Transition.Run(s, steps);
    AboutMoves(t, c);
    DeterminedWhenSettled(t.p, t.rows[c], ResolverOf(t, c));
  }

  lemma AboutMoves(s: Core, c: nat)
    requires Inv(s) && c in s.rows
    ensures Moves(s.p.audits, c, AutomaticPromote) <= 1 && Moves(s.p.audits, c, Rollback) <= 1
    ensures OwnSlot(s.p, c, s.rows[c]) ==> Determined(s.p, s.rows[c], ResolverOf(s, c))
  {
    hide Inv, Moves, OwnSlot, Determined;
    AboutCandidate(s, c);
  }

  lemma DeterminedWhenSettled(p: Pointers, row: Row, resolver: Option<Resolver>)
    ensures Determined(p, row, resolver) ==>
              && (row.phase == Rejected ==> AtBaseline(p, row)) && (row.phase == Retained ==> AtCandidate(p, row))
              && (row.phase == RolledBack ==> if UndoneByResolver(row) then AtRestored(p, row) else AtBaseline(p, row))
  {
  }

  /** A transition that ended without a move is at the recorded revision exactly if the slot row did not lag behind the
      pointer row when the candidate was admitted. */
  lemma RecordedExactlyUnlessLagging(s: Core, steps: seq<Step>, c: nat)
    requires Initial(s) && c in Transition.Run(s, steps).rows
    requires var t := Transition.Run(s, steps);
             && OwnSlot(t.p, c, t.rows[c]) && t.rows[c].phase in {Rejected, RolledBack}
             && !UndoneByResolver(t.rows[c])
    ensures var t := Transition.Run(s, steps);
            t.p.Effective(t.rows[c].slot) == t.rows[c].origin.revision <==> !Lagged(t.rows[c])
  {
    hide Transition.Run, Moves, OwnSlot;
    CrashRecovery(s, steps, c);
  }

  /** The slot row lagged behind the pointer row at admission. */
  predicate Lagged(row: Row) {
    row.origin.revision != row.origin.effective
  }

  lemma {:induction false} SomeMove(audits: seq<Audit>, c: nat, action: Action) returns (i: nat)
    requires Moves(audits, c, action) > 0
    ensures i < |audits| && audits[i].actor == RunnerFor(c) && audits[i].action == action
  {
    i := |audits| - 1;
    if audits[i].actor != RunnerFor(c) || audits[i].action != action {
      i := SomeMove(audits[..i], c, action);
    }
  }

  /** Such a candidate is never promoted, in any run: the recorded revision is behind the effective one for good. */
  lemma LaggedIsNeverPromoted(s: Core, steps: seq<Step>, c: nat)
    requires Initial(s) && c in Transition.Run(s, steps).rows && Lagged(Transition.Run(s, steps).rows[c])
    ensures Moves(Transition.Run(s, steps).p.audits, c, AutomaticPromote) == 0
  {
    hide Transition.Run;
    var t := Transition.Run(s, steps);
    if Moves(t.p.audits, c, AutomaticPromote) > 0 {
      var i := SomeMove(t.p.audits, c, AutomaticPromote);
      RunnerAuditsAreExact(s, steps, i, c);
    }
  }

  /** A move that a row claims as its own is in the audit log, and was made once; only a recovered one need not be. */
  lemma ClaimedMovesAreLogged(s: Core, steps: seq<Step>, c: nat)
    requires Initial(s) && c in Transition.Run(s, steps).rows
    ensures var t := Transition.Run(s, steps);
            && (t.rows[c].reason == Promoted ==>
                  t.rows[c].phase == Monitoring && Moves(t.p.audits, c, AutomaticPromote) == 1)
            && (t.rows[c].reason == MonitorRollback ==>
                  t.rows[c].phase == RolledBack && Moves(t.p.audits, c, Rollback) == 1)
  {
    hide Transition.Run, Moves, Inv;
    InitialInv(s);
    Reachable(s, steps);
    AboutCandidate(Transition.Run(s, steps), c);
  }

  // ---------------------------------------------------------------- no foreign change is overwritten

  /** Every runner entry of the audit log replaced what the runner had recorded, at the revision it
      had recorded: a promotion the admitted incumbent, a rollback exactly the promoted candidate. */
  lemma RunnerAuditsAreExact(s: Core, steps: seq<Step>, i: nat, c: nat)
    requires Initial(s)
    requires i < |Transition.Run(s, steps).p.audits| && Transition.Run(s, steps).p.audits[i].actor == RunnerFor(c)
    ensures var t := Transition.Run(s, steps);
            c in t.rows && RunnerAudit(t.rows[c], t.p.audits[i])
  {
    InitialInv(s);
    Reachable(s, steps);
    assert c !in Transition.Run(s, steps).rows ==> Untouched(Transition.Run(s, steps), c);
  }

  /** In every run, a resolver's step changes a pointer only from the content it is entitled to replace. Whatever
      else foreign writers put there, even between its two reads, stays. */
  lemma ResolverMovesOnlyItsOwn(s: Core, steps: seq<Step>, c: nat, o: Outside, k: Slot)
    requires Initial(s) && c in Transition.Run(s, steps).resolvers
    requires var at := Transition.Run(s, steps);
             var t := Advance(at, c, o);
             t.p.Pointer(k) != at.p.Pointer(k) || t.p.Effective(k) != at.p.Effective(k)
    ensures var at := Transition.Run(s, steps);
            var t := Advance(at, c, o);
            && c in at.rows && at.rows[c].slot == k
            && at.p.Pointer(k) == SwapFrom(at.rows[c]) && at.p.Effective(k) == at.rows[c].expected
            && t.p.Pointer(k) == SwapTo(at.rows[c]) && t.p.Effective(k) == at.rows[c].expected + 1
  {
    hide Inv, Transition.Run;
    InitialInv(s);
    Reachable(s, steps);
    var at := Transition.Run(s, steps);
    AboutResolver(at, c);
    StepReadings(at.p, SwapOp(c, at.rows[c]), k);
  }

  // ---------------------------------------------------------------- resumption

  /** n further steps of candidate c's resolver. */
  function Drive(s: Core, c: nat, o: Outside, n: nat): Core {
    if n == 0 then s else
      var before := Drive(s, c, o, n - 1);
      if c in before.resolvers then Advance(before, c, o) else before
  }

  /** What a resolver left alone with current authority makes of the slot content it finds. */
  ghost function Verdict(p: Pointers, row: Row, o: Outside): (bool, bool) {
    var v, looked, k := p.Pointer(row.slot), p.LookupRevision(row.slot), row.slot;
    if v == SwapTo(row) && looked == row.expected + 1 then (true, false)
    else if row.phase == Promoting && (Expired(row, o.now) || !o.artifact) then (false, false)
    else if v == SwapFrom(row) && looked == row.expected && p.Effective(k) == row.expected then (true, true)
    else (v == SwapFrom(row) == SwapTo(row) && looked == row.expected && p.Effective(k) == row.expected + 1, false)
  }

  lemma {:induction false} DriveIdle(s: Core, c: nat, o: Outside, n: nat)
    requires c !in s.resolvers
    ensures Drive(s, c, o, n) == s
  {
    if n > 0 {
      DriveIdle(s, c, o, n - 1);
    }
  }

  lemma {:induction false} DriveOn(s: Core, c: nat, o: Outside, n: nat)
    requires c in s.resolvers && n > 0
    ensures Drive(s, c, o, n) == Drive(Advance(s, c, o), c, o, n - 1)
  {
    if n == 1 {
      assert Drive(s, c, o, 0) == s;
    } else {
      DriveOn(s, c, o, n - 1);
    }
  }

  ghost predicate SettledAs(t: Core, c: nat, phase: Phase, p: Pointers) {
    c in t.rows && c !in t.resolvers && t.rows[c].phase == phase && t.p == p
  }

  function ResultPhase(row: Row, applied: bool): Phase {
    if row.phase == Promoting then if applied then Monitoring else Rejected
    else if applied then RolledBack else RecoveryRequired
  }

  lemma DriveWrite(s: Core, c: nat, o: Outside, n: nat)
    requires c in s.rows && c in s.resolvers && s.resolvers[c].item == s.rows[c] && Pending(s.rows[c]) && n > 0
    requires var pc := s.resolvers[c].pc; pc.Finish? || (pc.Reject? && s.rows[c].phase == Promoting)
    ensures var pc := s.resolvers[c].pc;
            SettledAs(Drive(s, c, o, n), c, ResultPhase(s.rows[c], pc.Finish? && pc.applied), s.p)
  {
    DriveOn(s, c, o, n);
    DriveIdle(Advance(s, c, o), c, o, n - 1);
  }

  lemma DriveReread(s: Core, c: nat, o: Outside, n: nat)
    requires s.p.Wf() && c in s.rows && c in s.resolvers && s.resolvers[c].item == s.rows[c] && Pending(s.rows[c])
               && n >= 3
    requires s.resolvers[c].pc.RereadVersion?
    ensures var row := s.rows[c];
            SettledAs(Drive(s, c, o, n), c,
              ResultPhase(row, s.p.Pointer(row.slot) == SwapTo(row)
                  && s.p.LookupRevision(row.slot) == row.expected + 1), s.p)
  {
    var k := s.rows[c].slot;
    assert s.p.CurrentVersion(k) == s.p.Pointer(k);
    var s1 := Advance(s, c, o);
    var s2 := Advance(s1, c, o);
    DriveOn(s, c, o, n);
    DriveOn(s1, c, o, n - 1);
    DriveWrite(s2, c, o, n - 2);
  }

  /** The pointer call that a resolver makes after reading the content it expected. */
  lemma DriveSwap(s: Core, c: nat, o: Outside, n: nat)
    requires s.p.Wf() && c in s.rows && c in s.resolvers && s.resolvers[c].item == s.rows[c] && Pending(s.rows[c])
               && n >= 4
    requires s.resolvers[c].pc == Swap && o.authority && InScope(s.p, s.rows[c])
    requires s.p.Pointer(s.rows[c].slot) == SwapFrom(s.rows[c])
    ensures var row, k, q := s.rows[c], s.rows[c].slot, Do(s.p, SwapOp(c, s.rows[c])).0;
            var moved := s.p.Effective(k) == row.expected;
            && SettledAs(Drive(s, c, o, n), c,
                 ResultPhase(row, moved || (SwapFrom(row) == SwapTo(row) && s.p.Effective(k) == row.expected + 1)), q)
            && q.Pointer(k) == (if moved then SwapTo(row) else s.p.Pointer(k))
            && q.Effective(k) == s.p.Effective(k) + (if moved then 1 else 0)
  {
    var row := s.rows[c];
    StepReadings(s.p, SwapOp(c, row), row.slot);
    var s1 := Advance(s, c, o);
    DriveOn(s, c, o, n);
    if Do(s.p, SwapOp(c, row)).1.Applied? {
      DriveWrite(s1, c, o, n - 1);
    } else {
      DriveReread(s1, c, o, n - 1);
    }
  }

  /** Resuming settles every interrupted transition within six actions when authority is current: it
      accepts a move that already took effect, makes one that is still due, and reports everything else
      as a conflict without touching the pointer. */
  lemma ResumeSettles(s: Core, c: nat, o: Outside)
    requires s.p.Wf() && CanBegin(s, c) && o.authority && InScope(s.p, s.rows[c])
    ensures var t, row := Drive(Next(s, Begin(c)), c, o, 6), s.rows[c];
            var (applied, moved) := Verdict(s.p, row, o);
            && SettledAs(t, c, ResultPhase(row, applied), t.p)
            && t.p.Pointer(row.slot) == (if moved then SwapTo(row) else s.p.Pointer(row.slot))
            && t.p.Effective(row.slot) == s.p.Effective(row.slot) + (if moved then 1 else 0)
  {
    hide FinishedRow, Drive, SwapOp, Do;
    var row, k, s0 := s.rows[c], s.rows[c].slot, Next(s, Begin(c));
    assert s.p.CurrentVersion(k) == s.p.Pointer(k);
    var s1 := Advance(s0, c, o);
    var s2 := Advance(s1, c, o);
    DriveOn(s0, c, o, 6);
    DriveOn(s1, c, o, 5);
    StepReadings(s.p, SwapOp(c, row), k);
    if s2.resolvers[c].pc == Swap {
      DriveSwap(s2, c, o, 4);
    } else {
      DriveWrite(s2, c, o, 4);
    }
  }

  // ---------------------------------------------------------------- receipts

  /** In every reachable state the counters are their receipts, and each exposure has one at most. */
  lemma ReceiptConservation(s: Core, steps: seq<Step>, c: nat)
    requires Initial(s) && c in Transition.Run(s, steps).rows
    ensures var t := Transition.Run(s, steps); CountersOk(t.rows[c], Of(t.receipts, c))
  {
    InitialInv(s);
    Reachable(s, steps);
  }

  ghost predicate TakenAt(s: Core, step: Step, r: Receipt) {
    && Next(s, step).receipts == s.receipts + [r]
    && r.candidate in s.rows
    && s.rows[r.candidate].phase == StagePhase(r.stage)
    && PointerAsExpected(s.p, s.rows[r.candidate], r.stage)
    && !Recorded(s.receipts, r.candidate, r.exposure)
  }

  /** Every receipt was taken by a step that saw the expected pointer at the expected revision. */
  lemma {:induction false} ReceiptsSawExpectedPointer(s: Core, steps: seq<Step>, n: nat)
    requires s.receipts == [] && n < |Transition.Run(s, steps).receipts|
    ensures exists i :: 0 <= i < |steps|
              && TakenAt(Transition.Run(s, steps[..i]), steps[i], Transition.Run(s, steps).receipts[n])
    decreases |steps|
  {
    hide Next, TakenAt;
    var before := steps[..|steps| - 1];
    var t := Transition.Run(s, before);
    ReceiptsAppend(t, steps[|steps| - 1]);
    if n < |t.receipts| {
      ReceiptsSawExpectedPointer(s, before, n);
      var i :| 0 <= i < |before| && TakenAt(Transition.Run(s, before[..i]), before[i], t.receipts[n]);
      assert before[..i] == steps[..i];
    } else {
      assert steps[..|steps| - 1] == before;
    }
  }

  lemma ReceiptsAppend(s: Core, step: Step)
    ensures Next(s, step).receipts == s.receipts
            || (|Next(s, step).receipts| == |s.receipts| + 1 && TakenAt(s, step, Next(s, step).receipts[|s.receipts|])
                && s.receipts <= Next(s, step).receipts)
  {
    hide Observed, Consider, Do, Choose;
    ConsiderKeepsReceipts(s, step);
  }

  lemma ConsiderKeepsReceipts(s: Core, step: Step)
    ensures step.Admit? ==> Consider(s, step.proposal, step.checks, step.admittedAt).0.receipts == s.receipts
  {
  }

  // ---------------------------------------------------------------- monitoring

  lemma {:induction false} FirstMonitoredCounts(mine: seq<Receipt>, k: nat)
    requires k <= Tally(mine, InMonitor, CandidateArm).observations
    ensures FirstMonitored(mine, k).observations == k && FirstMonitored(mine, k).failures <= k
    ensures var all := Tally(mine, InMonitor, CandidateArm);
            all.failures <= FirstMonitored(mine, k).failures + (all.observations - k)
  {
    if mine != [] {
      var rest := mine[..|mine| - 1];
      FirstMonitoredCounts(rest, Min(k, Tally(rest, InMonitor, CandidateArm).observations));
    }
  }

  /** A retained candidate was within margin at every look and at the horizon. */
  lemma RetainedPassedEveryLook(s: Core, steps: seq<Step>, c: nat, k: nat)
    requires Initial(s) && c in Transition.Run(s, steps).rows && Transition.Run(s, steps).rows[c].phase == Retained
    requires var m := Transition.Run(s, steps).rows[c].binding.monitor;
             0 < k <= m.horizon && (k % m.look == 0 || k == m.horizon)
    ensures var t := Transition.Run(s, steps);
            var row, first := t.rows[c], FirstMonitored(Of(t.receipts, c), k);
            && row.control.observations > 0 && first.observations == k
            && Rate(first) - Rate(row.control) <= row.binding.monitor.margin
            && HardFailures(Of(t.receipts, c), InMonitor) <= row.binding.monitor.veto
  {
    InitialInv(s);
    Reachable(s, steps);
    var t := Transition.Run(s, steps);
    AboutCandidate(t, c);
    FirstMonitoredCounts(Of(t.receipts, c), k);
    assert LookPassed(t.rows[c].control, t.rows[c].binding.monitor.margin, Of(t.receipts, c), k);
  }

  lemma RateBound(failures: nat, k: nat, rate: real, margin: real)
    requires k > 0 && failures as real / k as real - rate <= margin
    ensures failures as real <= (rate + margin) * k as real
  {
    assert failures as real == (failures as real / k as real) * k as real;
  }

  /** The last multiple of the look interval at or before n. */
  function LastLook(n: nat, look: int): (k: nat)
    requires look >= 1
    ensures k <= n && k % look == 0 && n - k < look
  {
    assert n == n / look * look + n % look;
    DivisionIsUnique(n - n % look, look, n / look, 0);
    n - n % look
  }

  /** The row's failures stay within what its last look allowed plus the outcomes since. */
  ghost predicate WithinLastLook(row: Row) {
    var m, n := row.binding.monitor, row.monitor.observations;
    var k := LastLook(n, m.look);
    && row.control.observations > 0 && n < m.horizon
    && row.monitor.failures as real <= (Rate(row.control) + m.margin) * k as real + (n - k) as real
  }

  /** While a candidate is monitored, its failures are bounded by what the last look allowed plus
      the outcomes since, of which there are fewer than one look interval. */
  lemma LiveMonitorBound(s: Core, steps: seq<Step>, c: nat)
    requires Initial(s) && c in Transition.Run(s, steps).rows && Transition.Run(s, steps).rows[c].phase == Monitoring
    ensures WithinLastLook(Transition.Run(s, steps).rows[c])
  {
    hide Inv, WithinLastLook;
    InitialInv(s);
    Reachable(s, steps);
    var t := Transition.Run(s, steps);
    AboutRow(t, c);
    MonitoredBound(t.rows[c], Of(t.receipts, c));
  }

  lemma BoundSinceLook(failures: nat, first: nat, k: nat, n: nat, rate: real, margin: real)
    requires k <= n && first <= k && failures <= first + (n - k)
    requires k > 0 ==> first as real / k as real - rate <= margin
    ensures failures as real <= (rate + margin) * k as real + (n - k) as real
  {
    if k > 0 {
      RateBound(first, k, rate, margin);
    } else {
      assert (rate + margin) * k as real == 0.0;
    }
  }

  /** A monitored row has passed its last look. */
  lemma MonitoredLook(row: Row, mine: seq<Receipt>, k: nat)
    requires CountersOk(row, mine) && PhaseOk(row, mine) && row.phase == Monitoring
    requires k <= row.monitor.observations && k % row.binding.monitor.look == 0
    ensures row.control.observations > 0 && row.monitor.observations < row.binding.monitor.horizon
    ensures k > 0 ==>
              FirstMonitored(mine, k).failures as real / k as real - Rate(row.control) <= row.binding.monitor.margin
  {
    hide Tally, HardFailures, FirstMonitored;
    assert k > 0 ==> LookPassed(row.control, row.binding.monitor.margin, mine, k);
  }

  lemma MonitoredBound(row: Row, mine: seq<Receipt>)
    requires CountersOk(row, mine) && PhaseOk(row, mine) && row.phase == Monitoring
    ensures WithinLastLook(row)
  {
    var m, n := row.binding.monitor, row.monitor.observations;
    var k := LastLook(n, m.look);
    assert n == Tally(mine, InMonitor, CandidateArm).observations
           && row.monitor == Tally(mine, InMonitor, CandidateArm);
    hide LastLook, PhaseOk, CountersOk, Tally, FirstMonitored;
    MonitoredLook(row, mine, k);
    FirstMonitoredCounts(mine, k);
    BoundSinceLook(row.monitor.failures, FirstMonitored(mine, k).failures, k, n, Rate(row.control), m.margin);
  }

  // ---------------------------------------------------------------- lifecycle

  /** The only phase changes there are; every settled phase is final. */
  predicate Edge(a: Phase, b: Phase) {
    match a
    case Canary => b in {Canary, Promoting, RolledBack, Rejected, RecoveryRequired}
    case Promoting => b in {Promoting, Monitoring, Rejected, RecoveryRequired}
    case Monitoring => b in {Monitoring, RollingBack, Retained, RecoveryRequired}
    case RollingBack => b in {RollingBack, RolledBack, RecoveryRequired}
    case _ => b == a
  }

  /** How many more times a row can change. */
  function Potential(row: Row): int {
    var left := row.binding.canary.horizon - row.canary.observations - row.control.observations;
    match row.phase
    case Canary => left + row.binding.monitor.horizon + 3
    case Promoting => row.binding.monitor.horizon + 2
    case Monitoring => row.binding.monitor.horizon - row.monitor.observations + 1
    case RollingBack => 1
    case _ => 0
  }

  lemma PotentialNonNegative(p: Pointers, c: nat, row: Row, mine: seq<Receipt>, resolver: Option<Resolver>)
    requires CandidateOk(p, c, row, mine, resolver)
    ensures Potential(row) >= 0
  {
  }

  /** What one step may do to one row. */
  ghost predicate Progress(before: Row, after: Row) {
    && Edge(before.phase, after.phase)
    && after.slot == before.slot && after.version == before.version && after.baseline == before.baseline
    && after.origin == before.origin && after.binding == before.binding && after.createdAt == before.createdAt
    && (after == before || Potential(after) < Potential(before))
  }

  lemma LivePotential(p: Pointers, c: nat, row: Row, mine: seq<Receipt>, resolver: Option<Resolver>)
    requires CandidateOk(p, c, row, mine, resolver)
    ensures Live(row.phase) ==> Potential(row) >= 1
  {
  }

  lemma MarkProgress(s: Core, c: nat, from: set<Phase>, phase: Phase, reason: Reason, d: nat)
    requires Inv(s) && d in s.rows
    requires c in s.rows && s.rows[c].phase in from ==>
               (phase == RecoveryRequired && Live(s.rows[c].phase))
                   || (phase == Rejected && s.rows[c].phase in {Canary, Promoting})
    ensures var t := s.Mark(c, from, phase, reason); d in t.rows && Progress(s.rows[d], t.rows[d])
  {
    hide CandidateOk;
    AboutCandidate(s, d);
    LivePotential(s.p, d, s.rows[d], Of(s.receipts, d), ResolverOf(s, d));
  }

  lemma ObservedProgress(row: Row, mine: seq<Receipt>, r: Receipt)
    requires CountersOk(row, mine) && PhaseOk(row, mine) && row.phase == StagePhase(r.stage) && Countable(r)
    ensures var next := Observed(row, mine + [r], r.stage, r.arm, r.success);
            next.Some? && Progress(row, next.value)
  {
    TallyAppend(mine, r, InCanary, CandidateArm);
    if r.stage == InCanary {
      ObservedCanary(row, mine, r);
    } else {
      ObservedMonitor(row, mine, r);
    }
  }

  lemma RecordProgress(s: Core, x: Selection, success: Option<bool>, hard: Option<bool>, standing: Standing, now: int,
                       d: nat)
    requires Inv(s) && d in s.rows
    ensures var t := Record(s, x, success, hard, standing, now).0; d in t.rows && Progress(s.rows[d], t.rows[d])
  {
    hide CandidateOk, Progress, Observed;
    var c, phase, t := x.candidate, StagePhase(x.stage), Record(s, x, success, hard, standing, now).0;
    SameRowProgress(s.rows[d]);
    if t.receipts != s.receipts {
      if d == c {
        AcceptedProgress(s, c, t.receipts[|s.receipts|]);
      }
    } else if t != s {
      if t.rows[c].phase == Rejected {
        MarkProgress(s, c, {Canary}, Rejected, CanaryExpired, d);
      } else {
        MarkProgress(s, c, {phase}, RecoveryRequired, t.rows[c].reason, d);
      }
    }
  }

  lemma SameRowProgress(row: Row)
    ensures Progress(row, row)
  {
  }

  lemma AcceptedProgress(s: Core, c: nat, r: Receipt)
    requires Inv(s) && c in s.rows && r.candidate == c && Countable(r) && s.rows[c].phase == StagePhase(r.stage)
    ensures var next := Observed(s.rows[c], Of(s.receipts + [r], c), r.stage, r.arm, r.success);
            next.Some? && Progress(s.rows[c], next.value)
  {
    hide Progress, Observed;
    AboutCandidate(s, c);
    OfAppend(s.receipts, r, c);
    ObservedProgress(s.rows[c], Of(s.receipts, c), r);
  }

  lemma FinishProgress(row: Row, mine: seq<Receipt>, applied: bool, revision: nat, recovered: bool)
    requires CountersOk(row, mine) && PhaseOk(row, mine) && Pending(row)
    ensures Progress(row, FinishedRow(row, applied, revision, recovered))
  {
  }

  lemma ResolveProgress(s: Core, c: nat, o: Outside, d: nat)
    requires Inv(s) && c in s.resolvers && d in s.rows
    ensures var t := Advance(s, c, o); d in t.rows && Progress(s.rows[d], t.rows[d])
  {
    hide Do, AfterReads, CandidateOk, Progress, FinishedRow;
    AboutResolver(s, c);
    SameRowProgress(s.rows[d]);
    if d == c {
      match s.resolvers[c].pc {
        case Reject(reason) => MarkProgress(s, c, {Promoting}, Rejected, reason, c);
        case Finish(applied, revision, recovered) =>
          AboutRow(s, c);
          FinishProgress(s.rows[c], Of(s.receipts, c), applied, revision, recovered);
        case _ =>
      }
    }
  }

  /** Only the intended edges occur, settled rows never change again, and every change uses up potential. */
  lemma LifecycleStep(s: Core, step: Step, c: nat)
    requires Inv(s) && c in s.rows
    ensures c in Next(s, step).rows && Progress(s.rows[c], Next(s, step).rows[c])
  {
    hide Record, Advance, Do, Settings, CandidateOk, Progress, Inv;
    SameRowProgress(s.rows[c]);
    match step {
      case RecordOutcome(x, success, hard, standing, now) => RecordProgress(s, x, success, hard, standing, now, c);
      case Resolve(d, o) => if d in s.resolvers { ResolveProgress(s, d, o, c); }
      case SelectMark(d, fetched, seen, revision, standing, now, assignment, ca, ba) =>
        var choice := Choose(fetched, seen, revision, standing, now, assignment, ca, ba);
        if choice.MarkRow? { MarkProgress(s, d, choice.from, choice.phase, choice.reason, c); }
      case ExpireCanary(d, standing, now) => MarkProgress(s, d, {Canary}, Rejected, CanaryExpired, c);
      case Resume(d, standing) =>
        if CanBegin(s, d) { MarkProgress(s, d, {s.rows[d].phase}, RecoveryRequired, AuthorityDrift, c); }
      case _ =>
    }
  }

  /** How many steps of a run changed candidate c's row. */
  ghost function Changes(s: Core, steps: seq<Step>, c: nat): nat {
    if steps == [] then 0 else
      var before := Transition.Run(s, steps[..|steps| - 1]);
      var after := Transition.Run(s, steps);
      Changes(s, steps[..|steps| - 1], c)
      + (if c in before.rows && (c !in after.rows || after.rows[c] != before.rows[c]) then 1 else 0)
  }

  lemma {:induction false} RowsStay(s: Core, steps: seq<Step>, c: nat)
    requires Inv(s) && c in s.rows
    ensures c in Transition.Run(s, steps).rows
  {
    if steps != [] {
      var before := steps[..|steps| - 1];
      RowsStay(s, before, c);
      Reachable(s, before);
      LifecycleStep(Transition.Run(s, before), steps[|steps| - 1], c);
    }
  }

  /** A transition's row changes only a bounded number of times over any run: from its admission at most
      once per canary exposure and once per monitored exposure, plus three phase changes. */
  lemma {:induction false} LifetimeIsBounded(s: Core, steps: seq<Step>, c: nat)
    requires Inv(s) && c in s.rows
    ensures c in Transition.Run(s, steps).rows
    ensures Changes(s, steps, c)
         <= Potential(s.rows[c]) - Potential(Transition.Run(s, steps).rows[c]) <= Potential(s.rows[c])
  {
    hide Inv, Next, Potential, CandidateOk, Edge;
    RowsStay(s, steps, c);
    Reachable(s, steps);
    var t := Transition.Run(s, steps);
    AboutCandidate(t, c);
    PotentialNonNegative(t.p, c, t.rows[c], Of(t.receipts, c), ResolverOf(t, c));
    if steps != [] {
      var before := steps[..|steps| - 1];
      LifetimeIsBounded(s, before, c);
      Reachable(s, before);
      LifecycleStep(Transition.Run(s, before), steps[|steps| - 1], c);
    }
  }

  /** No two live transitions ever share a slot. */
  lemma OneLivePerSlot(s: Core, steps: seq<Step>, c: nat, d: nat)
    requires Initial(s) && c in Transition.Run(s, steps).rows && d in Transition.Run(s, steps).rows
    ensures var t := Transition.Run(s, steps);
            t.rows[c].slot == t.rows[d].slot && Live(t.rows[c].phase) && Live(t.rows[d].phase) ==> c == d
  {
    InitialInv(s);
    Reachable(s, steps);
  }
}
