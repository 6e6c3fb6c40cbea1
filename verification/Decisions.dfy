/** What the runner's three entry points decide, said of the tables, the plan and the caller's facts themselves: who is
    admitted, who is served which arm, and which outcomes count. */
module Decisions {
  import opened Basics
  import opened GuidancePointer
  import opened Transition

  // ---------------------------------------------------------------- a calibrated share of the traffic

  /** The plan names the bucket and gives candidates a whole percentage of the traffic, not none and not all. */
  ghost predicate Allocated(b: Binding, bucket: nat) {
    bucket in b.canary.buckets
    && exists percentage: int :: 1 <= percentage <= 99 && percentage * b.canary.denominator == 100 * b.canary.numerator
  }

  lemma SettingsExactlyWhenAllocated(b: Binding, bucket: nat)
    ensures Settings(b, bucket).Some? <==> Allocated(b, bucket)
  {
    var n, d := b.canary.numerator, b.canary.denominator;
    if bucket in b.canary.buckets {
      if percentage: int :| 1 <= percentage <= 99 && percentage * d == 100 * n {
        DivisionIsUnique(n * 100, d, percentage, 0);
      }
    }
  }

  /** An assignment between 0 and 99 that falls in the candidate's share. */
  ghost predicate InShare(b: Binding, assignment: nat) {
    assignment * b.canary.denominator < 100 * b.canary.numerator
  }

  lemma ShareIsPercentage(b: Binding, bucket: nat, assignment: nat)
    requires Settings(b, bucket).Some?
    ensures InShare(b, assignment) <==> assignment < Settings(b, bucket).value.percentage
  {
    var p, d := Settings(b, bucket).value.percentage, b.canary.denominator;
    assert p * d == 100 * b.canary.numerator;
    if assignment < p {
      AtLeastOnce(p - assignment, d);
      assert (p - assignment) * d == p * d - assignment * d;
    } else {
      assert (assignment - p) * d == assignment * d - p * d;
      assert (assignment - p) * d >= 0;
    }
  }

  lemma {:induction false} Below(n: nat, assignments: set<nat>)
    requires forall a: nat :: a in assignments <==> a < n
    ensures |assignments| == n
  {
    if n > 0 {
      Below(n - 1, assignments - {n - 1});
    } else {
      assert assignments == {};
    }
  }

  /** Of the hundred assignments exactly the planned percentage is in the candidate's share. */
  lemma ShareIsExact(b: Binding, bucket: nat)
    requires Allocated(b, bucket)
    ensures |set a: nat | a < 100 && InShare(b, a)| * b.canary.denominator == 100 * b.canary.numerator
  {
    SettingsExactlyWhenAllocated(b, bucket);
    hide InShare, Allocated;
    var p := Settings(b, bucket).value.percentage;
    assert 1 <= p <= 99;
    assert p * b.canary.denominator == 100 * b.canary.numerator;
    var served := set a: nat | a < 100 && InShare(b, a);
    forall a: nat
      ensures InShare(b, a) <==> a < p
    {
      ShareIsPercentage(b, bucket, a);
    }
    forall a: nat
      ensures a in served <==> a < p
    {
      assert InShare(b, a) <==> a < p;
    }
    Below(p, served);
  }

  // ---------------------------------------------------------------- selection

  /** The row's own authority is still in force and its publication still matches. */
  ghost predicate InForce(row: Row, standing: Standing) {
    standing.binding.Some? && standing.binding.value == row.binding && standing.published
  }

  ghost predicate RanOut(row: Row, now: int) {
    row.phase == Canary && now - row.createdAt >= row.binding.canary.expirySeconds
  }

  /** The slot as the row expects it: a canary's incumbent, or the monitored candidate, at the recorded revision. */
  ghost predicate AsRecorded(row: Row, seen: Option<Version>, revision: nat) {
    && revision == row.expected
    && (row.phase == Canary ==> seen == row.baseline) && (row.phase == Monitoring ==> seen == Some(row.version))
  }

  /** Nothing stands against serving the row. */
  ghost predicate Servable(row: Row, seen: Option<Version>, revision: nat, standing: Standing, now: int) {
    InForce(row, standing) && !RanOut(row, now) && AsRecorded(row, seen, revision)
  }

  /** The arm of an exposure: all of them are the candidate's once it is monitored. */
  ghost predicate AssignedTo(row: Row, assignment: Option<nat>, arm: Arm) {
    if row.phase == Monitoring then arm == CandidateArm
    else && Allocated(row.binding, row.slot.bucket) && assignment.Some?
         && arm == if InShare(row.binding, assignment.value) then CandidateArm else IncumbentArm
  }

  /** The version that an arm serves; a canary over an empty slot serves its incumbents nothing. */
  ghost function ServedVersion(row: Row, arm: Arm): Option<Version> {
    if arm == CandidateArm then Some(row.version) else row.baseline
  }

  ghost predicate CanServe(row: Row, arm: Arm, available: Version -> bool) {
    var version := ServedVersion(row, arm);
    version.Some? ==> available(version.value)
  }

  /** An arm is served exactly if the row is servable, the exposure is assigned to that arm and its artifact is
      there. */
  ghost predicate Served(row: Row, seen: Option<Version>, revision: nat, standing: Standing, now: int,
                         assignment: Option<nat>, available: Version -> bool, arm: Arm)
  {
    Servable(row, seen, revision, standing, now) && AssignedTo(row, assignment, arm) && CanServe(row, arm, available)
  }

  /** Why the row is marked, if it is. */
  ghost predicate Marked(row: Row, seen: Option<Version>, revision: nat, standing: Standing, now: int,
                         assignment: Option<nat>, available: Version -> bool, from: set<Phase>, phase: Phase,
                         reason: Reason)
  {
    && standing.binding.Some?
    && match reason
       case AuthorityDrift => !InForce(row, standing) && phase == RecoveryRequired && from == {Canary, Monitoring}
       case CanaryExpired => InForce(row, standing) && RanOut(row, now) && phase == Rejected && from == {Canary}
       case CanaryBaselineDrift =>
         && InForce(row, standing) && !RanOut(row, now) && !AsRecorded(row, seen, revision)
         && row.phase == Canary && phase == RecoveryRequired && from == {Canary}
       case ActivePointerDrift =>
         && InForce(row, standing) && !AsRecorded(row, seen, revision)
         && row.phase == Monitoring && phase == RecoveryRequired && from == {Monitoring}
       case ArtifactUnavailable =>
         && Servable(row, seen, revision, standing, now)
         && (exists arm :: AssignedTo(row, assignment, arm) && !CanServe(row, arm, available))
         && phase == RecoveryRequired && from == {Canary, Monitoring}
       case _ => false
  }

  /** Which arm is served, or how the row is marked, or that neither happens. */
  lemma ChoiceMeans(row: Row, seen: Option<Version>, revision: nat, standing: Standing, now: int,
                    assignment: Option<nat>, available: Version -> bool)
    requires row.phase in {Canary, Monitoring}
    ensures var choice := Choose(row, seen, revision, standing, now, assignment, available(row.version),
                                 row.baseline.Some? && available(row.baseline.value));
            && (forall arm :: choice == Chosen(arm)
                  <==> Served(row, seen, revision, standing, now, assignment, available, arm))
            && (forall from, phase, reason :: choice == MarkRow(from, phase, reason)
                  <==> Marked(row, seen, revision, standing, now, assignment, available, from, phase, reason))
  {
    SettingsExactlyWhenAllocated(row.binding, row.slot.bucket);
    if Settings(row.binding, row.slot.bucket).Some? && assignment.Some? {
      ShareIsPercentage(row.binding, row.slot.bucket, assignment.value);
    }
    hide Settings, Allocated, InShare;
    var placed := assignment.Some? && Allocated(row.binding, row.slot.bucket);
    if Servable(row, seen, revision, standing, now) && (row.phase == Monitoring || placed) {
      var arm := if row.phase == Monitoring || InShare(row.binding,
                                                       assignment.value) then CandidateArm else IncumbentArm;
      assert AssignedTo(row, assignment, arm);
    }
  }

  // ---------------------------------------------------------------- admission

  ghost predicate SlotTaken(s: Core, k: Slot) {
    exists c :: c in s.rows && s.rows[c].slot == k && s.rows[c].phase in {Canary, Promoting, Monitoring, RollingBack}
  }

  /** The facts that are checked ahead of the transaction. */
  ghost predicate Vouchable(x: Proposal, checks: Checks) {
    && checks.binding.Some? && Allocated(checks.binding.value, x.slot.bucket) && checks.verified
    && checks.published == Some(true) && checks.approved && checks.validated && checks.artifact
  }

  /** The replay was ready; without an incumbent, a replay that was held back for want of one will do. */
  ghost predicate Rehearsed(s: Core, x: Proposal, checks: Checks) {
    && checks.evidence(s.p.Pointer(x.slot))
    && (checks.replayReady || (s.p.Pointer(x.slot) == None && checks.replayMissingBaseline))
  }

  ghost predicate Admissible(s: Core, x: Proposal, checks: Checks) {
    && Vouchable(x, checks) && !SlotTaken(s, x.slot) && Rehearsed(s, x, checks) && checks.grant
    && x.version in s.p.versions
  }

  /** Why a candidate is not admitted. */
  ghost predicate Turned(s: Core, x: Proposal, checks: Checks, reply: Reply) {
    match reply
    case NotAuthorized => checks.binding.None?
    case AuthorityUnavailable => checks.binding.Some? && Allocated(checks.binding.value,
                                                                   x.slot.bucket) && checks.verified
                                 && checks.published.None?
    case PendingCoordinator => checks.binding.Some? && Allocated(checks.binding.value, x.slot.bucket) && checks.verified
                               && checks.published == Some(true) && !checks.approved
    case AlreadyRunning => Vouchable(x, checks) && SlotTaken(s, x.slot)
    case Raised => Vouchable(x, checks) && !SlotTaken(s, x.slot) && Rehearsed(s, x, checks)
                   && !(checks.grant && x.version in s.p.versions)
    case RejectedReply =>
      && checks.binding.Some?
      && (|| !Allocated(checks.binding.value, x.slot.bucket) || !checks.verified || checks.published == Some(false)
          || (checks.published == Some(true) && checks.approved && !(checks.validated && checks.artifact))
          || (Vouchable(x, checks) && !SlotTaken(s, x.slot) && !Rehearsed(s, x, checks)))
    case _ => false
  }

  /** A candidate without a transition gets one exactly if all of that holds, the authority's grant included: a
      canary over what the slot holds, at the revision of the slot row. Otherwise nothing changes and the reply says
      why. */
  lemma AdmissionMeans(s: Core, x: Proposal, checks: Checks, now: int)
    requires x.candidate !in s.rows
    ensures var (t, reply) := Consider(s, x, checks, now);
            && (x.candidate in t.rows <==> Admissible(s, x, checks))
            && (x.candidate in t.rows ==>
                  && reply == Now(Canary) && t == s.(rows := s.rows[x.candidate := t.rows[x.candidate]])
                  && var row := t.rows[x.candidate];
                  && row.slot == x.slot && row.version == x.version && row.phase == Canary
                  && row.reason == CandidateAdmitted
                  && row.baseline == s.p.Pointer(x.slot) && row.expected == s.p.SlotRevision(x.slot)
                  && Some(row.binding) == checks.binding && row.createdAt == now
                  && row.canary == row.control == row.monitor == Counter(0, 0))
            && (x.candidate !in t.rows ==> t == s)
            && forall r: Reply :: r != Now(Canary) ==>
                 (reply == r <==> !Admissible(s, x, checks) && Turned(s, x, checks, r))
  {
    if checks.binding.Some? {
      SettingsExactlyWhenAllocated(checks.binding.value, x.slot.bucket);
    }
    hide Settings, Allocated;
    assert s.Occupied(x.slot) <==> SlotTaken(s, x.slot);
  }

  // ---------------------------------------------------------------- outcomes

  /** The selection that an outcome reports on is of a row in that stage. */
  ghost predicate Addressed(s: Core, x: Selection) {
    x.candidate in s.rows && s.rows[x.candidate].phase == (if x.stage == InCanary then Canary else Monitoring)
  }

  ghost predicate Valid(x: Selection, success: Option<bool>, hard: Option<bool>) {
    success.Some? && hard.Some? && x.exposure.Some?
  }

  ghost predicate Matching(row: Row, x: Selection, standing: Standing) {
    row.slot == x.slot && row.version == x.version && InForce(row, standing)
  }

  ghost predicate InPlace(s: Core, row: Row) {
    AsRecorded(row, s.p.Pointer(row.slot), s.p.SlotRevision(row.slot))
  }

  ghost predicate Repeated(s: Core, x: Selection) {
    exists r :: r in s.receipts && r.candidate == x.candidate && Some(r.exposure) == x.exposure
  }

  /** Both arms report on a canary, only the candidate's on a monitored row. */
  ghost predicate KnownArm(x: Selection) {
    x.arm == CandidateArm || (x.arm == IncumbentArm && x.stage == InCanary)
  }

  ghost predicate Current(s: Core, x: Selection, standing: Standing, now: int)
    requires x.candidate in s.rows
  {
    var row := s.rows[x.candidate];
    Matching(row, x, standing) && !RanOut(row, now) && InPlace(s, row)
  }

  /** The outcome counts. */
  ghost predicate Counted(s: Core, x: Selection, success: Option<bool>, hard: Option<bool>, standing: Standing,
                          now: int) {
    && Valid(x, success, hard) && Addressed(s, x) && Current(s, x, standing, now)
    && !Repeated(s, x) && KnownArm(x)
    && (x.stage == InCanary ==> Allocated(s.rows[x.candidate].binding, x.slot.bucket))
  }

  /** The reply to an outcome that does not count and stops nothing. */
  ghost predicate Ignored(s: Core, x: Selection, success: Option<bool>, hard: Option<bool>, standing: Standing,
                          now: int,
                          reply: Reply)
  {
    match reply
    case OutcomeUnknown => success.None?
    case InvalidOutcome => success.Some? && !Valid(x, success, hard)
    case NotAuthorized => Valid(x, success, hard) && standing.binding.None?
    case StaleSelection =>
      && Valid(x, success, hard) && standing.binding.Some?
      && (!Addressed(s, x) || (Current(s, x, standing, now) && !Repeated(s, x) && !KnownArm(x)))
    case DuplicateOutcome =>
      Valid(x, success, hard) && Addressed(s, x) && Current(s, x, standing, now) && Repeated(s, x)
    case Raised =>
      && Valid(x, success, hard) && Addressed(s, x) && Current(s, x, standing, now) && !Repeated(s, x) && KnownArm(x)
      && x.stage == InCanary && !Allocated(s.rows[x.candidate].binding, x.slot.bucket)
    case _ => false
  }

  /** An outcome that stops its row instead of counting. */
  ghost predicate Halting(s: Core, x: Selection, success: Option<bool>, hard: Option<bool>, standing: Standing,
                          now: int,
                          phase: Phase, reason: Reason)
  {
    && Valid(x, success, hard) && standing.binding.Some? && Addressed(s, x)
    && var row := s.rows[x.candidate];
    match reason
    case AuthorityDrift => phase == RecoveryRequired && !Matching(row, x, standing)
    case CanaryExpired => phase == Rejected && Matching(row, x, standing) && RanOut(row, now)
    case CanaryBaselineDrift =>
      && phase == RecoveryRequired && x.stage == InCanary && Matching(row, x, standing) && !RanOut(row, now)
      && !InPlace(s, row)
    case ActivePointerDrift =>
      phase == RecoveryRequired && x.stage == InMonitor && Matching(row, x, standing) && !InPlace(s, row)
    case _ => false
  }

  ghost predicate Halted(s: Core, t: Core, c: nat, phase: Phase, reason: Reason)
    requires c in s.rows
  {
    t == s.(rows := s.rows[c := s.rows[c].(phase := phase, reason := reason)])
  }

  lemma SameFacts(s: Core, x: Selection)
    ensures x.candidate in s.rows && s.rows[x.candidate].slot == x.slot ==>
              Settings(s.rows[x.candidate].binding, x.slot.bucket).Some?
                == Allocated(s.rows[x.candidate].binding, x.slot.bucket)
    ensures x.exposure.Some? ==> (Repeated(s, x) <==> Recorded(s.receipts, x.candidate, x.exposure.value))
  {
    if x.candidate in s.rows {
      SettingsExactlyWhenAllocated(s.rows[x.candidate].binding, x.slot.bucket);
    }
  }

  /** An outcome concerns its own candidate's row and the receipts, and nothing else. */
  lemma OutcomeConcernsOne(s: Core, x: Selection, success: Option<bool>, hard: Option<bool>, standing: Standing,
                           now: int)
    ensures var (t, reply) := Record(s, x, success, hard, standing, now);
            && t.p == s.p && t.resolvers == s.resolvers && t.rows.Keys == s.rows.Keys
            && (forall d :: d in s.rows && d != x.candidate ==> t.rows[d] == s.rows[d])
            && (!reply.Now? ==> t == s)
  {
    hide Observed, Of, Recorded;
  }

  /** It counts, as one more receipt, exactly under these conditions. */
  lemma CountedExactly(s: Core, x: Selection, success: Option<bool>, hard: Option<bool>, standing: Standing, now: int)
    ensures var (t, reply) := Record(s, x, success, hard, standing, now);
            && (t.receipts != s.receipts <==> Counted(s, x, success, hard, standing, now))
            && (t.receipts != s.receipts ==>
                  && t.receipts == s.receipts
                       + [Receipt(x.candidate, x.exposure.value, x.stage, x.arm, success.value, hard.value)]
                  && reply == Now(t.rows[x.candidate].phase))
  {
    SameFacts(s, x);
    hide Settings, Allocated, CanaryVerdict, MonitorVerdict, HardFailures, Of, Recorded, Repeated;
  }

  /** It stops its row instead exactly under these. */
  lemma HaltedExactly(s: Core, x: Selection, success: Option<bool>, hard: Option<bool>, standing: Standing, now: int,
                      phase: Phase, reason: Reason)
    requires Halting(s, x, success, hard, standing, now, phase, reason)
    ensures var (t, reply) := Record(s, x, success, hard, standing, now);
            Halted(s, t, x.candidate, phase, reason) && reply == Now(phase)
  {
    hide Observed, Of, Recorded;
  }

  /** And otherwise it changes nothing, and the reply says why. */
  lemma IgnoredExactly(s: Core, x: Selection, success: Option<bool>, hard: Option<bool>, standing: Standing, now: int,
                       r: Reply)
    requires !r.Now?
    ensures Record(s, x, success, hard, standing, now).1 == r <==> Ignored(s, x, success, hard, standing, now, r)
  {
    SameFacts(s, x);
    hide Settings, Allocated, CanaryVerdict, MonitorVerdict, HardFailures, Of, Recorded, Repeated;
  }

  /** There is no fourth case. */
  lemma EveryOutcomeIsOne(s: Core, x: Selection, success: Option<bool>, hard: Option<bool>, standing: Standing,
                          now: int)
    ensures || Counted(s, x, success, hard, standing, now)
            || (exists reply :: Ignored(s, x, success, hard, standing, now, reply))
            || (exists phase, reason :: Halting(s, x, success, hard, standing, now, phase, reason))
  {
    var reply := Record(s, x, success, hard, standing, now).1;
    if !reply.Now? {
      IgnoredExactly(s, x, success, hard, standing, now, reply);
    } else if !Counted(s, x, success, hard, standing, now) {
      CountedExactly(s, x, success, hard, standing, now);
      HaltedRow(s, x, success, hard, standing, now);
    }
  }

  lemma HaltedRow(s: Core, x: Selection, success: Option<bool>, hard: Option<bool>, standing: Standing, now: int)
    requires var (t, reply) := Record(s, x, success, hard, standing, now); reply.Now? && t.receipts == s.receipts
    ensures x.candidate in s.rows
    ensures var row := Record(s, x, success, hard, standing, now).0.rows[x.candidate];
            Halting(s, x, success, hard, standing, now, row.phase, row.reason)
  {
    hide Observed, Of, Recorded;
  }
}
