/** What a resolver's two separate slot reads can and cannot recognise, with foreign writers between them:
    when the phases monitoring and rolled back really tell what the pointer held. */
module Recognition {
  import opened Basics
  import opened GuidancePointer
  import opened Transition
  import opened TransitionInvariant
  import opened TransitionRuns
  import opened TransitionTheorems

  // ---------------------------------------------------------------- identity over runs

  ghost predicate SameTransition(a: Row, b: Row) {
    b.slot == a.slot && b.version == a.version && b.baseline == a.baseline && b.origin == a.origin
        && b.binding == a.binding
  }

  /** A row keeps its identity over every run. */
  lemma {:induction false} RunKeepsIdentity(s: Core, steps: seq<Step>, c: nat)
    requires Inv(s) && c in s.rows
    ensures c in Transition.Run(s, steps).rows && SameTransition(s.rows[c], Transition.Run(s, steps).rows[c])
    decreases |steps|
  {
    hide Inv, Next, Edge, Potential;
    if steps != [] {
      var before := steps[..|steps| - 1];
      RunKeepsIdentity(s, before, c);
      Reachable(s, before);
      LifecycleStep(Transition.Run(s, before), steps[|steps| - 1], c);
    }
  }

  // ---------------------------------------------------------------- what a settled phase says now

  /** At the revision a monitored row recorded, the slot holds the candidate. */
  ghost predicate MonitorsCandidate(p: Pointers, row: Row) {
    row.phase == Monitoring && p.Effective(row.slot) == row.expected ==> p.Pointer(row.slot) == Some(row.version)
  }

  /** At the revision after it, a row rolled back by its resolver has the slot hold the incumbent again. */
  ghost predicate RestoresIncumbent(p: Pointers, row: Row) {
    UndoneByResolver(row) && p.Effective(row.slot) == row.expected + 1 ==> p.Pointer(row.slot) == row.baseline
  }

  ghost predicate Genuine(s: Core, c: nat) {
    c in s.rows ==> MonitorsCandidate(s.p, s.rows[c]) && RestoresIncumbent(s.p, s.rows[c])
  }

  lemma DistinctIsGenuine(s: Core, c: nat)
    requires Inv(s) && (c in s.rows ==> Distinct(s.rows[c]))
    ensures Genuine(s, c)
  {
    hide Inv;
    if c in s.rows {
      AboutCandidate(s, c);
    }
  }

  /** As long as the candidate proposes a version other than the incumbent's, a recovered promotion and a
      recovered rollback are genuine in every run, whatever foreign writers do between the two reads. */
  lemma DistinctCandidatesAreRecognised(s: Core, steps: seq<Step>, c: nat)
    requires Initial(s) && c in Transition.Run(s, steps).rows && Distinct(Transition.Run(s, steps).rows[c])
    ensures Genuine(Transition.Run(s, steps), c)
  {
    hide Inv, Genuine, Distinct;
    InitialInv(s);
    Reachable(s, steps);
    DistinctIsGenuine(Transition.Run(s, steps), c);
  }

  // ---------------------------------------------------------------- what a settled phase says of the past

  /** The slot content at a revision that the state of candidate c vouches for: the candidate at the recorded
      revision once it is monitored, a decided move's target, the incumbent once it is rolled back. */
  ghost predicate Vouches(s: Core, c: nat, v: Option<Version>, revision: nat) {
    && c in s.rows
    && var row := s.rows[c];
    || ((row.phase in {Monitoring, RollingBack, Retained} || UndoneByResolver(row))
        && v == Some(row.version) && revision == row.expected)
    || (c in s.resolvers && s.resolvers[c].pc.Finish? && s.resolvers[c].pc.applied
        && v == SwapTo(row) && revision == row.expected + 1)
    || (UndoneByResolver(row) && v == row.baseline && revision == row.expected + 1)
  }

  ghost predicate Holds(p: Pointers, k: Slot, v: Option<Version>, revision: nat) {
    p.Pointer(k) == v && p.Effective(k) == revision
  }

  ghost predicate HeldDuring(s: Core, steps: seq<Step>, k: Slot, v: Option<Version>, revision: nat) {
    exists i :: 0 <= i <= |steps| && Holds(Transition.Run(s, steps[..i]).p, k, v, revision)
  }

  /** A step of someone else's: candidate c's row is left alone or stopped, and no resolver of it advances. */
  ghost predicate Aside(s: Core, t: Core, c: nat) {
    && c in s.rows && c in t.rows
    && (t.rows[c] == s.rows[c] || (t.rows[c].phase in {Rejected, RecoveryRequired} && c !in t.resolvers))
    && (c in t.resolvers ==> (c in s.resolvers && t.resolvers[c] == s.resolvers[c]) || t.resolvers[c].pc == ReadVersion)
  }

  lemma AsideVouches(s: Core, t: Core, c: nat, v: Option<Version>, revision: nat)
    requires Aside(s, t, c) && Vouches(t, c, v, revision)
    ensures Vouches(s, c, v, revision)
  {
  }

  lemma StepsAside(s: Core, step: Step, c: nat)
    requires Inv(s) && c in s.rows
    requires !(step.Resolve? && step.candidate == c) && !(step.RecordOutcome? && step.selection.candidate == c)
    ensures Aside(s, Next(s, step), c)
  {
    hide Inv, Do, Choose, Observed, Consider, Record, AfterReads, FinishedRow, SwapOp, PointerOk, ResolverOk, Expired;
    if c in s.resolvers {
      AboutResolver(s, c);
    }
    match step {
      case Admit(x, checks, now) => ConsiderKeepsRow(s, x, checks, now, c);
      case RecordOutcome(_, _, _, _, _) => RecordConcernsOne(s, step, c);
      case SelectMark(_, _, _, _, _, _, _, _, _) => ChoiceStops(step);
      case _ =>
    }
  }

  /** A step makes a state vouch for nothing new, except for what the slot holds before or after it. */
  lemma StepVouches(s: Core, step: Step, c: nat, v: Option<Version>, revision: nat)
    requires Inv(s) && c in s.rows && Distinct(s.rows[c]) && Vouches(Next(s, step), c, v, revision)
    ensures var k := s.rows[c].slot;
            Vouches(s, c, v, revision) || Holds(s.p, k, v, revision) || Holds(Next(s, step).p, k, v, revision)
  {
    hide Inv, Vouches, Aside, Holds, Advance, Record;
    if step.Resolve? && step.candidate == c {
      if c in s.resolvers {
        ResolveVouches(s, c, step.outside, v, revision);
      }
    } else if step.RecordOutcome? && step.selection.candidate == c {
      RecordVouches(s, step, c, v, revision);
    } else {
      StepsAside(s, step, c);
      AsideVouches(s, Next(s, step), c, v, revision);
    }
  }

  lemma ChoiceStops(step: Step)
    requires step.SelectMark?
    ensures match Choose(step.fetched, step.seen, step.revision, step.standing, step.now, step.assignment,
                         step.candidateArtifact, step.baselineArtifact)
            case MarkRow(from, phase, _) => from <= {Canary, Monitoring} && phase in {Rejected, RecoveryRequired}
            case _ => true
  {
  }

  lemma ConsiderKeepsRow(s: Core, x: Proposal, checks: Checks, now: int, c: nat)
    requires c in s.rows
    ensures var t := Consider(s, x, checks, now).0;
            t.p == s.p && t.resolvers == s.resolvers && c in t.rows && t.rows[c] == s.rows[c]
  {
  }

  lemma RecordConcernsOne(s: Core, step: Step, c: nat)
    requires step.RecordOutcome? && c in s.rows && step.selection.candidate != c
    ensures var t := Next(s, step); t.p == s.p && t.resolvers == s.resolvers && c in t.rows && t.rows[c] == s.rows[c]
  {
    hide Observed;
  }

  /** An accepted outcome never completes a rollback, and only a monitored row stays in or leaves monitoring. */
  lemma ObservedPhases(row: Row, mine: seq<Receipt>, r: Receipt)
    requires CountersOk(row, mine) && row.phase == StagePhase(r.stage) && Countable(r)
    requires Observed(row, mine + [r], r.stage, r.arm, r.success).Some?
    ensures var next := Observed(row, mine + [r], r.stage, r.arm, r.success).value;
            && SameTransition(row, next) && next.expected == row.expected && !UndoneByResolver(next)
            && (next.phase in {Monitoring, RollingBack, Retained} ==> row.phase == Monitoring)
  {
    hide HardFailures, Tally;
  }

  /** Recording an outcome stops the row, leaves it alone or counts the outcome. */
  lemma RecordAsideOrCounts(s: Core, step: Step, c: nat)
    requires Inv(s) && step.RecordOutcome? && step.selection.candidate == c && c in s.rows
    ensures var t := Next(s, step);
            || Aside(s, t, c)
            || (&& c in t.rows && c !in t.resolvers
                && SameTransition(s.rows[c], t.rows[c]) && t.rows[c].expected == s.rows[c].expected
                && !UndoneByResolver(t.rows[c])
                && (t.rows[c].phase in {Monitoring, RollingBack, Retained} ==> s.rows[c].phase == Monitoring))
  {
    hide Inv, Observed, CountersOk, PhaseOk, PointerOk, ResolverOk, Expired, PointerAsExpected, Recorded, Of;
    hide Standing.Matches;
    AboutRow(s, c);
    if c in s.resolvers {
      AboutResolver(s, c);
    }
    var x, t := step.selection, Next(s, step);
    if t.receipts != s.receipts {
      var r := t.receipts[|s.receipts|];
      OfAppend(s.receipts, r, c);
      ObservedPhases(s.rows[c], Of(s.receipts, c), r);
    }
  }

  lemma RecordVouches(s: Core, step: Step, c: nat, v: Option<Version>, revision: nat)
    requires Inv(s) && step.RecordOutcome? && step.selection.candidate == c && c in s.rows
    requires Vouches(Next(s, step), c, v, revision)
    ensures Vouches(s, c, v, revision)
  {
    hide Inv, Next, Aside;
    RecordAsideOrCounts(s, step, c);
    if Aside(s, Next(s, step), c) {
      AsideVouches(s, Next(s, step), c, v, revision);
    }
  }

  lemma AboutPointer(s: Core, c: nat)
    requires Inv(s) && c in s.rows
    ensures PointerOk(s.p, s.rows[c]) && OriginOk(s.p, s.rows[c])
  {
    AboutCandidate(s, c);
  }

  lemma AppliedSwap(p: Pointers, c: nat, row: Row)
    requires Do(p, SwapOp(c, row)).1.Applied?
    ensures p.Effective(row.slot) == row.expected && SwapOp(c, row).Target() == SwapTo(row)
  {
  }

  /** The decision after the second read, on either pass: what was recognised is there. */
  lemma RecognisedIsThere(s: Core, c: nat, seen: Option<Version>)
    requires Inv(s) && c in s.resolvers && c in s.rows && Distinct(s.rows[c])
    requires s.resolvers[c].pc == ReadRevision(seen)
               || (s.resolvers[c].pc.RereadRevision? && s.resolvers[c].pc.seen == seen)
    requires seen == SwapTo(s.rows[c]) && s.p.LookupRevision(s.rows[c].slot) == s.rows[c].expected + 1
    ensures Holds(s.p, s.rows[c].slot, seen, s.rows[c].expected + 1)
  {
    hide Inv;
    AboutResolver(s, c);
    AboutPointer(s, c);
  }

  lemma ReadVouches(s: Core, c: nat, o: Outside, v: Option<Version>, revision: nat)
    requires Inv(s) && c in s.resolvers && c in s.rows && Distinct(s.rows[c])
    requires var pc := s.resolvers[c].pc; !pc.Swap? && !pc.Finish?
    requires Vouches(Advance(s, c, o), c, v, revision)
    ensures Vouches(s, c, v, revision) || Holds(s.p, s.rows[c].slot, v, revision)
  {
    hide Inv, Do, PointerOk, ResolverOk, SwapOp, SwapFrom, SwapTo, Holds;
    AboutResolver(s, c);
    var row, pc := s.rows[c], s.resolvers[c].pc;
    var seen := if pc.ReadRevision? || pc.RereadRevision? then pc.seen else None;
    if (pc.ReadRevision? || pc.RereadRevision?) && seen == SwapTo(row)
        && s.p.LookupRevision(row.slot) == row.expected + 1 {
      RecognisedIsThere(s, c, seen);
    }
  }

  lemma SwapVouches(s: Core, c: nat, o: Outside, v: Option<Version>, revision: nat)
    requires Inv(s) && c in s.resolvers && c in s.rows && s.resolvers[c].pc.Swap?
    requires Vouches(Advance(s, c, o), c, v, revision)
    ensures Vouches(s, c, v, revision) || Holds(Advance(s, c, o).p, s.rows[c].slot, v, revision)
  {
    hide Inv, Do, SwapOp, SwapTo, PointerOk, ResolverOk;
    AboutResolver(s, c);
    var row := s.rows[c];
    StepReadings(s.p, SwapOp(c, row), row.slot);
    SwapConcernsSlot(c, row);
    if Do(s.p, SwapOp(c, row)).1.Applied? {
      AppliedSwap(s.p, c, row);
    }
  }

  lemma FinishVouches(s: Core, c: nat, o: Outside, v: Option<Version>, revision: nat)
    requires Inv(s) && c in s.resolvers && c in s.rows && s.resolvers[c].pc.Finish?
    requires Vouches(Advance(s, c, o), c, v, revision)
    ensures Vouches(s, c, v, revision)
  {
    hide Inv, SwapTo, FinishedRow, PointerOk;
    AboutResolver(s, c);
    var pc := s.resolvers[c].pc;
    FinishedIdentity(s.rows[c], pc.applied, pc.revision, pc.recovered);
  }

  lemma ResolveVouches(s: Core, c: nat, o: Outside, v: Option<Version>, revision: nat)
    requires Inv(s) && c in s.resolvers && c in s.rows && Distinct(s.rows[c])
    requires Vouches(Advance(s, c, o), c, v, revision)
    ensures var k := s.rows[c].slot;
            Vouches(s, c, v, revision) || Holds(s.p, k, v, revision) || Holds(Advance(s, c, o).p, k, v, revision)
  {
    hide Inv, Advance, Vouches, Holds;
    if s.resolvers[c].pc.Swap? {
      SwapVouches(s, c, o, v, revision);
    } else if s.resolvers[c].pc.Finish? {
      FinishVouches(s, c, o, v, revision);
    } else {
      ReadVouches(s, c, o, v, revision);
    }
  }

  lemma SwapConcernsSlot(c: nat, row: Row)
    ensures SwapOp(c, row).slot == row.slot
  {
  }

  lemma FinishedIdentity(row: Row, applied: bool, revision: nat, recovered: bool)
    requires Pending(row)
    ensures var next := FinishedRow(row, applied, revision, recovered);
            && SameTransition(row, next)
            && (next.phase in {Monitoring, RollingBack, Retained} ==>
                  applied && next.expected == revision && SwapTo(row) == Some(row.version))
            && (UndoneByResolver(next) ==>
                  applied && row.phase == RollingBack && next.expected == row.expected && SwapTo(row) == row.baseline)
  {
  }

  lemma NewRowVouchesNothing(s: Core, step: Step, c: nat, v: Option<Version>, revision: nat)
    requires Inv(s) && c !in s.rows
    ensures !Vouches(Next(s, step), c, v, revision)
  {
    hide Do, Choose, Observed, CandidateOk, Settings, AfterReads, FinishedRow, SwapOp, PointerOk, ResolverOk, Expired;
    assert Untouched(s, c);
    if step.Resolve? && step.candidate in s.resolvers {
      AboutResolver(s, step.candidate);
    }
  }

  lemma HeldEarlier(s: Core, steps: seq<Step>, step: Step, k: Slot, v: Option<Version>, revision: nat)
    ensures HeldDuring(s, steps, k, v, revision) ==> HeldDuring(s, steps + [step], k, v, revision)
    ensures Holds(Transition.Run(s, steps).p, k, v, revision) ==> HeldDuring(s, steps + [step], k, v, revision)
    ensures Holds(Transition.Run(s, steps + [step]).p, k, v, revision) ==> HeldDuring(s, steps + [step], k, v, revision)
  {
    hide Holds, Transition.Run;
    var more := steps + [step];
    assert more[..|steps|] == steps && more[..|more|] == more;
    if HeldDuring(s, steps, k, v, revision) {
      var i :| 0 <= i <= |steps| && Holds(Transition.Run(s, steps[..i]).p, k, v, revision);
      assert more[..i] == steps[..i];
    }
  }

  /** What a state vouches for really happened: at some moment of the run the slot held just that, at just
      that revision. */
  lemma {:induction false} VouchedWasHeld(s: Core, steps: seq<Step>, c: nat, v: Option<Version>, revision: nat)
    requires Initial(s) && Vouches(Transition.Run(s, steps), c, v, revision)
               && Distinct(Transition.Run(s, steps).rows[c])
    ensures HeldDuring(s, steps, Transition.Run(s, steps).rows[c].slot, v, revision)
    decreases |steps|
  {
    hide Inv, Next, Vouches, HeldDuring, Holds, Distinct, Edge, Potential;
    assert c in Transition.Run(s, steps).rows by { VouchesForRow(Transition.Run(s, steps), c, v, revision); }
    var before, step := steps[..|steps| - 1], steps[|steps| - 1];
    var t := Transition.Run(s, before);
    assert steps == before + [step];
    InitialInv(s);
    Reachable(s, before);
    if c !in t.rows {
      NewRowVouchesNothing(t, step, c, v, revision);
    } else {
      LifecycleStep(t, step, c);
      DistinctStays(t.rows[c], Transition.Run(s, steps).rows[c]);
      StepVouches(t, step, c, v, revision);
      if Vouches(t, c, v, revision) {
        VouchedWasHeld(s, before, c, v, revision);
      }
      HeldEarlier(s, before, step, t.rows[c].slot, v, revision);
    }
  }

  lemma VouchesForRow(s: Core, c: nat, v: Option<Version>, revision: nat)
    requires Vouches(s, c, v, revision)
    ensures c in s.rows
  {
  }

  lemma DistinctStays(before: Row, after: Row)
    requires Progress(before, after)
    ensures Distinct(before) == Distinct(after)
  {
  }

  /** No settled phase is reached by mistake, with foreign writers acting anywhere, also between the two reads: a
      row is monitored or retained only if the slot held the candidate at the recorded revision, and a rollback
      counts as done only if the slot then held the incumbent at exactly the next one. Since a rollback ends
      in one of two phases, any other slot content leaves it for recovery. */
  lemma SettledPhasesAreTrue(s: Core, steps: seq<Step>, c: nat)
    requires Initial(s) && c in Transition.Run(s, steps).rows && Distinct(Transition.Run(s, steps).rows[c])
    ensures var row := Transition.Run(s, steps).rows[c];
            && (row.phase in {Monitoring, RollingBack, Retained} || UndoneByResolver(row) ==>
                  HeldDuring(s, steps, row.slot, Some(row.version), row.expected))
            && (UndoneByResolver(row) ==> HeldDuring(s, steps, row.slot, row.baseline, row.expected + 1))
  {
    hide HeldDuring, Transition.Run;
    var row := Transition.Run(s, steps).rows[c];
    if row.phase in {Monitoring, RollingBack, Retained} || UndoneByResolver(row) {
      VouchedWasHeld(s, steps, c, Some(row.version), row.expected);
    }
    if UndoneByResolver(row) {
      VouchedWasHeld(s, steps, c, row.baseline, row.expected + 1);
    }
  }

  // ---------------------------------------------------------------- candidates that repeat the incumbent

  /** A resolver may start, and the slot holds what it is going to replace at the revision it recorded. */
  ghost predicate Ripe(s: Core, c: nat) {
    && CanBegin(s, c)
    && s.p.Effective(s.rows[c].slot) == s.rows[c].expected
    && s.p.Pointer(s.rows[c].slot) == SwapFrom(s.rows[c])
  }

  /** A resolver that has read one version, and a foreign call that replaced it right after. */
  ghost predicate Overtaken(s: Core, c: nat, row: Row, w: Version) {
    && c in s.rows && s.rows[c] == row && c in s.resolvers && s.resolvers[c] == Resolver(row, ReadRevision(SwapTo(row)))
    && s.p.Pointer(row.slot) == Some(w) && s.p.LookupRevision(row.slot) == s.p.Effective(row.slot) == row.expected + 1
  }

  /** Staging changes nothing that a resolver looks at. */
  lemma StagedFirst(s: Core, c: nat, w: Version)
    requires s.p.Wf() && Ripe(s, c) && w !in s.p.versions
    ensures var t := Next(s, Foreign(Stage(s.rows[c].slot, w, Coordinator(0))));
            && t.p.Wf() && Ripe(t, c) && t.rows == s.rows && w in t.p.versions && t.p.versions[w] == s.rows[c].slot
  {
  }

  lemma WriteBetweenReads(s: Core, c: nat, w: Version, o: Outside)
    requires s.p.Wf() && Ripe(s, c) && !Distinct(s.rows[c])
    requires w in s.p.versions && s.p.versions[w] == s.rows[c].slot
    ensures var write := Foreign(Cas(s.rows[c].slot, w, None, Promote, Coordinator(0)));
            Overtaken(Next(Next(Next(s, Begin(c)), Resolve(c, o)), write), c, s.rows[c], w)
  {
    var k := s.rows[c].slot;
    assert s.p.CurrentVersion(k) == s.p.Pointer(k);
    StepReadings(s.p, Cas(k, w, None, Promote, Coordinator(0)), k);
  }

  lemma OvertakenIsMistaken(s: Core, c: nat, row: Row, w: Version, o: Outside)
    requires Overtaken(s, c, row, w) && Pending(row) && !Distinct(row) && w != row.version
    ensures !Genuine(Next(Next(s, Resolve(c, o)), Resolve(c, o)), c)
  {
    assert Next(s, Resolve(c, o)).resolvers[c].pc == Finish(true, row.expected + 1, true);
  }

  lemma RunMore(s: Core, steps: seq<Step>, step: Step)
    ensures Transition.Run(s, steps + [step]) == Next(Transition.Run(s, steps), step)
  {
    assert (steps + [step])[..|steps|] == steps;
  }

  /** When the candidate proposes the incumbent's own version, a foreign writer needs only stage a version and
      install it between the two reads: the runner then monitors it as the candidate, or reports a rollback
      that it never made while the slot holds it. */
  lemma RepeatedVersionIsMistaken(s: Core, c: nat) returns (more: seq<Step>)
    requires s.p.Wf() && Ripe(s, c) && !Distinct(s.rows[c])
    ensures !Genuine(Transition.Run(s, more), c)
  {
    var row, o := s.rows[c], Outside(0, true, true);
    assert Pending(row);
    hide Next, Genuine, Overtaken, Ripe;
    var w := Unused(s.p.versions.Keys);
    assert w != row.version by { IncumbentIsStaged(s, c); }
    var stage, write := Foreign(Stage(row.slot, w, Coordinator(0))),
        Foreign(Cas(row.slot, w, None, Promote, Coordinator(0)));
    var s1 := Next(s, stage);
    StagedFirst(s, c, w);
    WriteBetweenReads(s1, c, w, o);
    OvertakenIsMistaken(Next(Next(Next(s1, Begin(c)), Resolve(c, o)), write), c, row, w, o);
    more := [];
    assert Transition.Run(s, more) == s;
    RunMore(s, more, stage);
    more := more + [stage];
    RunMore(s, more, Begin(c));
    more := more + [Begin(c)];
    RunMore(s, more, Resolve(c, o));
    more := more + [Resolve(c, o)];
    RunMore(s, more, write);
    more := more + [write];
    RunMore(s, more, Resolve(c, o));
    more := more + [Resolve(c, o)];
    RunMore(s, more, Resolve(c, o));
    more := more + [Resolve(c, o)];
  }

  lemma IncumbentIsStaged(s: Core, c: nat)
    requires s.p.Wf() && Ripe(s, c) && !Distinct(s.rows[c])
    ensures s.rows[c].version in s.p.versions
  {
    var k := s.rows[c].slot;
    assert s.p.Pointer(k) == Some(s.rows[c].version) && k in s.p.active;
  }

  ghost predicate GenuineAfter(s: Core, more: seq<Step>, c: nat) {
    Genuine(Transition.Run(s, more), c)
  }

  /** The condition is exact. For a pending row of any run whose slot still is what its resolver will find, every
      continuation is free of such mistakes if and only if candidate and incumbent are different versions. */
  lemma GenuineExactlyWhenDistinct(s: Core, steps: seq<Step>, c: nat)
    requires Initial(s) && Ripe(Transition.Run(s, steps), c)
    ensures var t := Transition.Run(s, steps);
            Distinct(t.rows[c]) <==> forall more :: GenuineAfter(t, more, c)
  {
    hide Inv, Next, Genuine, Transition.Run;
    InitialInv(s);
    Reachable(s, steps);
    var t := Transition.Run(s, steps);
    if Distinct(t.rows[c]) {
      forall more
        ensures GenuineAfter(t, more, c)
      {
        Reachable(t, more);
        RunKeepsIdentity(t, more, c);
        DistinctIsGenuine(Transition.Run(t, more), c);
      }
    } else {
      InvGivesWf(t);
      var more := RepeatedVersionIsMistaken(t, c);
      assert !GenuineAfter(t, more, c);
    }
  }

  lemma InvGivesWf(s: Core)
    requires Inv(s)
    ensures s.p.Wf()
  {
  }
}
