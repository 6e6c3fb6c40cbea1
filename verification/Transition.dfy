/** The transition runner as a machine of durable steps: admission of a candidate to a live canary,
    recording of outcomes, and the resolver that moves the pointer, one transaction at a time.
    Foreign pointer writers and crashes may act between any two steps. */
module Transition {
  import opened Basics
  import opened GuidancePointer

  // ---------------------------------------------------------------- calibrated authority

  datatype BucketPlan = BucketPlan(minimum: int, margin: real)

  /** Allocation of candidate traffic is numerator over denominator. */
  datatype CanaryPlan = CanaryPlan(buckets: map<nat, BucketPlan>, horizon: int, numerator: int, denominator: int,
                                   veto: int, expirySeconds: int)
  datatype MonitorPlan = MonitorPlan(look: int, horizon: int, margin: real, veto: int)

  /** The authority identities and the two plans they fix by digest. */
  datatype Authority = Authority(id: nat, canary: CanaryPlan, monitor: MonitorPlan)

  /** What the typed-record schemas require of a stored plan. */
  ghost predicate Schematic(a: Authority) {
    && a.canary.horizon >= 1 && a.canary.veto >= 0 && a.canary.expirySeconds >= 1 && a.canary.denominator >= 1
    && (forall b :: b in a.canary.buckets ==> a.canary.buckets[b].minimum >= 1 && a.canary.buckets[b].margin >= 0.0)
    && 1 <= a.monitor.look <= a.monitor.horizon && a.monitor.veto >= 0 && a.monitor.margin >= 0.0
  }

  ghost const SMALLEST := Authority(0, CanaryPlan(map[], 1, 1, 2, 0, 1), MonitorPlan(1, 1, 0.0, 0))

  type Binding = a: Authority | Schematic(a) ghost witness SMALLEST

  datatype CanarySettings = CanarySettings(minimum: int, horizon: int, percentage: int, margin: real, veto: int)

  /** None is the integrity failure the code raises. */
  function Settings(b: Binding, bucket: nat): (s: Option<CanarySettings>)
    ensures s.Some? ==> s.value.minimum >= 1 && s.value.horizon == b.canary.horizon && s.value.veto == b.canary.veto
    ensures s.Some? ==> 1 <= s.value.percentage <= 99
                        && s.value.percentage * b.canary.denominator == 100 * b.canary.numerator
  {
    if bucket !in b.canary.buckets then None else
      var scaled, remainder := b.canary.numerator * 100 / b.canary.denominator,
          b.canary.numerator * 100 % b.canary.denominator;
      if remainder != 0 || !(1 <= scaled <= 99) then None
      else Some(CanarySettings(b.canary.buckets[bucket].minimum, b.canary.horizon, scaled,
                               b.canary.buckets[bucket].margin, b.canary.veto))
  }

  // ---------------------------------------------------------------- rows and receipts

  datatype Phase =
    | Canary | Promoting | Monitoring | RollingBack
    | Retained | RolledBack | Rejected | RecoveryRequired

  predicate Live(s: Phase) {
    s == Canary || s == Promoting || s == Monitoring || s == RollingBack
  }

  datatype Reason =
    | CandidateAdmitted | OutcomeRecorded | CandidateHardFailure | CanaryUnderpowered | CanaryRegression | CanaryPassed
    | CanaryExpired | CandidateArtifactUnavailable | ActiveRevisionConflict | Promoted | PromotionRecovered
    | MonitorBaselineMissing | MonitorHardFailure | MonitorRegression | MonitorPassed
    | MonitorRollback | RollbackRecovered | RollbackConflict
    | AuthorityDrift | CanaryBaselineDrift | ActivePointerDrift | ArtifactUnavailable

  datatype Counter = Counter(observations: nat, failures: nat) {
    function Observe(success: bool): Counter {
      Counter(observations + 1, failures + if success then 0 else 1)
    }
  }

  function Rate(c: Counter): real
    requires c.observations > 0
  {
    c.failures as real / c.observations as real
  }

  /** History of an admission, read by no transition: the recorded revision, the effective
      revision behind it, and the length of the audit log. */
  datatype Origin = Origin(revision: nat, effective: nat, audits: nat)

  datatype Row = Row(slot: Slot, version: Version, baseline: Option<Version>, expected: nat, phase: Phase,
                     canary: Counter, control: Counter, monitor: Counter, reason: Reason,
                     createdAt: int, binding: Binding, origin: Origin)

  datatype Stage = InCanary | InMonitor
  datatype Arm = CandidateArm | IncumbentArm | UnknownArm

  /** One row of the outcome table, in insertion order; (candidate, exposure) is its primary key. */
  datatype Receipt = Receipt(candidate: nat, exposure: nat, stage: Stage, arm: Arm, success: bool, hard: bool)

  function Hits(r: Receipt, stage: Stage, arm: Arm): bool {
    r.stage == stage && r.arm == arm
  }

  /** Observation and failure counts of one arm in one stage. */
  function Tally(s: seq<Receipt>, stage: Stage, arm: Arm): Counter {
    if s == [] then Counter(0, 0) else
      var rest, last := Tally(s[..|s| - 1], stage, arm), s[|s| - 1];
      if Hits(last, stage, arm) then rest.Observe(last.success) else rest
  }

  function HardFailures(s: seq<Receipt>, stage: Stage): nat {
    if s == [] then 0 else
      var last := s[|s| - 1];
      HardFailures(s[..|s| - 1], stage) + (if Hits(last, stage, CandidateArm) && last.hard then 1 else 0)
  }

  /** The receipts of one candidate, in order. */
  function Of(s: seq<Receipt>, c: nat): seq<Receipt> {
    if s == [] then [] else
      var rest, last := Of(s[..|s| - 1], c), s[|s| - 1];
      if last.candidate == c then rest + [last] else rest
  }

  predicate Recorded(s: seq<Receipt>, c: nat, exposure: nat) {
    exists i :: 0 <= i < |s| && s[i].candidate == c && s[i].exposure == exposure
  }

  // ---------------------------------------------------------------- decisions

  function CanaryVerdict(s: CanarySettings, canary: Counter, control: Counter, hard: nat): (Phase, Reason)
    requires s.minimum >= 1
  {
    if hard > s.veto then (Rejected, CandidateHardFailure)
    else if canary.observations + control.observations < s.horizon then (Canary, OutcomeRecorded)
    else if canary.observations < s.minimum || control.observations < s.minimum then (Rejected, CanaryUnderpowered)
    else if Rate(canary) - Rate(control) > s.margin then (RolledBack, CanaryRegression)
    else (Promoting, CanaryPassed)
  }

  function MonitorVerdict(m: MonitorPlan, monitor: Counter, control: Counter, hard: nat): (Phase, Reason)
    requires m.look >= 1 && monitor.observations >= 1
  {
    if control.observations < 1 then (RecoveryRequired, MonitorBaselineMissing)
    else if hard > m.veto then (RollingBack, MonitorHardFailure)
    else if monitor.observations % m.look == 0 || monitor.observations >= m.horizon then
      if Rate(monitor) - Rate(control) > m.margin then (RollingBack, MonitorRegression)
      else if monitor.observations >= m.horizon then (Retained, MonitorPassed)
      else (Monitoring, OutcomeRecorded)
    else (Monitoring, OutcomeRecorded)
  }

  // ---------------------------------------------------------------- the durable state

  /** Where a resolver stands between two of its durable actions, with the row it started from. */
  datatype Pc =
    | ReadVersion
    | ReadRevision(seen: Option<Version>)
    | Swap
    | RereadVersion(refused: nat)
    | RereadRevision(refused: nat, seen: Option<Version>)
    | Reject(reason: Reason)
    | Finish(applied: bool, revision: nat, recovered: bool)

  datatype Resolver = Resolver(item: Row, pc: Pc)

  datatype Core = Core(p: Pointers, rows: map<nat, Row>, receipts: seq<Receipt>, resolvers: map<nat, Resolver>)
  {
    predicate Occupied(k: Slot) {
      exists c :: c in rows && rows[c].slot == k && Live(rows[c].phase)
    }

    /** UPDATE ... WHERE candidate_id=c AND state IN from. */
    function Mark(c: nat, from: set<Phase>, phase: Phase, reason: Reason): Core {
      if c in rows && rows[c].phase in from
      then this.(rows := rows[c := rows[c].(phase := phase, reason := reason)])
      else this
    }

    function Drop(c: nat): Core {
      this.(resolvers := resolvers - {c})
    }

    function At(c: nat, pc: Pc): Core
      requires c in resolvers
    {
      this.(resolvers := resolvers[c := resolvers[c].(pc := pc)])
    }
  }

  /** The standing authority a call observes, and whether the publication still matches. */
  datatype Standing = Standing(binding: Option<Binding>, published: bool) {
    predicate Matches(row: Row) {
      binding == Some(row.binding) && published
    }
  }

  predicate Expired(row: Row, now: int) {
    now >= row.createdAt + row.binding.canary.expirySeconds
  }

  // ---------------------------------------------------------------- admission

  datatype Proposal = Proposal(candidate: nat, slot: Slot, version: Version)

  /** What admission learns from modules outside this model. evidence judges the chain against a
      baseline; published is None when the publication store cannot be read. */
  datatype Checks = Checks(binding: Option<Binding>, verified: bool, published: Option<bool>, approved: bool,
                           validated: bool, artifact: bool, evidence: Option<Version> -> bool,
                           replayReady: bool, replayMissingBaseline: bool, grant: bool)

  datatype Reply =
    | NotAuthorized | AuthorityUnavailable | PendingCoordinator | AlreadyRunning | RejectedReply
    | OutcomeUnknown | InvalidOutcome | StaleSelection | DuplicateOutcome | Raised
    | Now(phase: Phase)

  function Consider(s: Core, x: Proposal, checks: Checks, now: int): (Core, Reply) {
    if checks.binding.None? then (s, NotAuthorized)
    else if Settings(checks.binding.value, x.slot.bucket).None? || !checks.verified then (s, RejectedReply)
    else if checks.published.None? then (s, AuthorityUnavailable)
    else if !checks.published.value then (s, RejectedReply)
    else if !checks.approved then (s, PendingCoordinator)
    else if !checks.validated || !checks.artifact then (s, RejectedReply)
    else if s.Occupied(x.slot) then (s, AlreadyRunning)
    else
      var baseline := s.p.Pointer(x.slot);
      if !checks.evidence(baseline) then (s, RejectedReply)
      else if !checks.replayReady && !(checks.replayMissingBaseline && baseline.None?) then (s, RejectedReply)
      else if !checks.grant then (s, Raised)
      else if x.candidate in s.rows then (s, Now(s.rows[x.candidate].phase))  // INSERT OR IGNORE
      else if x.version !in s.p.versions then (s, Raised)
      else
        var row := Row(x.slot, x.version, baseline, s.p.SlotRevision(x.slot), Canary,
                       Counter(0, 0), Counter(0, 0), Counter(0, 0), CandidateAdmitted, now, checks.binding.value,
                       Origin(s.p.SlotRevision(x.slot), s.p.Effective(x.slot), |s.p.audits|));
        (s.(rows := s.rows[x.candidate := row]), Now(Canary))
  }

  // ---------------------------------------------------------------- recording an outcome

  datatype Selection = Selection(candidate: nat, slot: Slot, version: Version, stage: Stage, arm: Arm,
                                 exposure: Option<nat>)

  function StagePhase(stage: Stage): Phase {
    if stage.InCanary? then Canary else Monitoring
  }

  /** The version a live row expects the pointer to hold. */
  function ExpectedVersion(row: Row, stage: Stage): Option<Version> {
    if stage.InMonitor? then Some(row.version) else row.baseline
  }

  predicate PointerAsExpected(p: Pointers, row: Row, stage: Stage) {
    p.Pointer(row.slot) == ExpectedVersion(row, stage) && p.SlotRevision(row.slot) == row.expected
  }

  /** The row after one accepted outcome; mine are the candidate's receipts including the new one. */
  function Observed(row: Row, mine: seq<Receipt>, stage: Stage, arm: Arm, success: bool): Option<Row>
  {
    match stage
    case InCanary =>
      var canary := if arm == CandidateArm then row.canary.Observe(success) else row.canary;
      var control := if arm == CandidateArm then row.control else row.control.Observe(success);
      var settings := Settings(row.binding, row.slot.bucket);
      if settings.None? then None else
        var (phase, reason) := CanaryVerdict(settings.value, canary, control, HardFailures(mine, InCanary));
        Some(row.(canary := canary, control := control, phase := phase, reason := reason))
    case InMonitor =>
      var monitor := row.monitor.Observe(success);
      var (phase, reason) := MonitorVerdict(row.binding.monitor, monitor, row.control, HardFailures(mine, InMonitor));
      Some(row.(monitor := monitor, phase := phase, reason := reason))
  }

  function Record(s: Core, x: Selection, success: Option<bool>, hard: Option<bool>, standing: Standing,
                  now: int): (Core, Reply) {
    if success.None? then (s, OutcomeUnknown)
    else if hard.None? || x.exposure.None? then (s, InvalidOutcome)
    else if standing.binding.None? then (s, NotAuthorized)
    else if x.candidate !in s.rows || s.rows[x.candidate].phase != StagePhase(x.stage) then (s, StaleSelection)
    else
      var c, row, phase := x.candidate, s.rows[x.candidate], StagePhase(x.stage);
      if row.slot != x.slot || row.version != x.version || !standing.Matches(row)
      then (s.Mark(c, {phase}, RecoveryRequired, AuthorityDrift), Now(RecoveryRequired))
      else if x.stage.InCanary? && Expired(row, now)
      then (s.Mark(c, {Canary}, Rejected, CanaryExpired), Now(Rejected))
      else if !PointerAsExpected(s.p, row, x.stage)
      then (s.Mark(c, {phase}, RecoveryRequired, if x.stage.InCanary? then CanaryBaselineDrift else ActivePointerDrift),
            Now(RecoveryRequired))
      else if Recorded(s.receipts, c, x.exposure.value) then (s, DuplicateOutcome)
      else if x.arm == UnknownArm || (x.stage.InMonitor? && x.arm != CandidateArm) then (s, StaleSelection)
      else
        var receipts := s.receipts + [Receipt(c, x.exposure.value, x.stage, x.arm, success.value, hard.value)];
        var next := Observed(row, Of(receipts, c), x.stage, x.arm, success.value);
        if next.None? then (s, Raised)
        else (s.(rows := s.rows[c := next.value], receipts := receipts), Now(next.value.phase))
  }

  // ---------------------------------------------------------------- selection and expiry

  datatype Choice =
    | Nothing
    | MarkRow(from: set<Phase>, phase: Phase, reason: Reason)
    | Chosen(arm: Arm)

  /** select_guidance once it has fetched a row: what it decides from its own, possibly stale, reads. */
  function Choose(row: Row, seen: Option<Version>, revision: nat, standing: Standing, now: int,
                  assignment: Option<nat>, candidateArtifact: bool, baselineArtifact: bool): Choice {
    if standing.binding.None? then Nothing
    else if !standing.Matches(row) then MarkRow({Canary, Monitoring}, RecoveryRequired, AuthorityDrift)
    else if row.phase == Canary && Expired(row, now) then MarkRow({Canary}, Rejected, CanaryExpired)
    else if row.phase == Canary && (seen != row.baseline || revision != row.expected)
    then MarkRow({Canary}, RecoveryRequired, CanaryBaselineDrift)
    else if row.phase == Monitoring && (seen != Some(row.version) || revision != row.expected)
    then MarkRow({Monitoring}, RecoveryRequired, ActivePointerDrift)
    else if row.phase == Canary then
      var settings := Settings(row.binding, row.slot.bucket);
      if settings.None? || assignment.None? then Nothing
      else
        var arm := if assignment.value >= settings.value.percentage then IncumbentArm else CandidateArm;
        var usable := if arm == CandidateArm then candidateArtifact else row.baseline.None? || baselineArtifact;
        if usable then Chosen(arm) else MarkRow({Canary, Monitoring}, RecoveryRequired, ArtifactUnavailable)
    else if candidateArtifact then Chosen(CandidateArm)
    else MarkRow({Canary, Monitoring}, RecoveryRequired, ArtifactUnavailable)
  }

  // ---------------------------------------------------------------- the resolver

  /** What a resolver's action can observe outside the durable state. authority is whether the grant is
      valid and the binding still current at the pointer mutation; when not, the code raises. */
  datatype Outside = Outside(now: int, artifact: bool, authority: bool)

  function SwapFrom(item: Row): Option<Version> {
    if item.phase == Promoting then item.baseline else Some(item.version)
  }

  function SwapTo(item: Row): Option<Version> {
    if item.phase == Promoting then Some(item.version) else item.baseline
  }

  /** The store accepts the version the row's transition moves to. */
  predicate InScope(p: Pointers, row: Row) {
    SwapTo(row).Some? ==> SwapTo(row).value in p.versions && p.versions[SwapTo(row).value] == row.slot
  }

  function SwapOp(c: nat, item: Row): PointerOp {
    match SwapTo(item)
    case Some(v) =>
      var action := if item.phase == Promoting then AutomaticPromote else Rollback;
      Cas(item.slot, v, Some(item.expected), action, RunnerFor(c))
    case None => Clear(item.slot, item.expected, RunnerFor(c))
  }

  /** The decision after the two slot reads. */
  function AfterReads(item: Row, seen: Option<Version>, revision: nat, o: Outside): Pc {
    if seen == SwapTo(item) && revision == item.expected + 1 then Finish(true, revision, true)
    else if item.phase == Promoting && Expired(item, o.now) then Reject(CanaryExpired)
    else if seen == SwapFrom(item) && revision == item.expected then
      if item.phase == Promoting && !o.artifact then Reject(CandidateArtifactUnavailable) else Swap
    else Finish(false, revision, false)
  }

  function FinishedRow(row: Row, applied: bool, revision: nat, recovered: bool): Row {
    if row.phase == Promoting then
      row.(phase := if applied then Monitoring else Rejected,
           reason := if applied then if recovered then PromotionRecovered else Promoted else ActiveRevisionConflict,
           expected := revision)
    else
      row.(phase := if applied then RolledBack else RecoveryRequired,
           reason := if applied then if recovered then RollbackRecovered else MonitorRollback else RollbackConflict)
  }

  /** One durable action of _promote_pending or _rollback_pending. */
  function Advance(s: Core, c: nat, o: Outside): Core
    requires c in s.resolvers
  {
    var item, k := s.resolvers[c].item, s.resolvers[c].item.slot;
    match s.resolvers[c].pc
    case ReadVersion => s.At(c, ReadRevision(s.p.CurrentVersion(k)))
    case ReadRevision(seen) => s.At(c, AfterReads(item, seen, s.p.LookupRevision(k), o))
    case Swap =>
      if !o.authority then s.Drop(c)
      else
        var (p, result) := Do(s.p, SwapOp(c, item));
        match result
        {
          case Applied(revision) => s.(p := p).At(c, Finish(true, revision, false))
          case Refused(revision) => s.(p := p).At(c, RereadVersion(revision))
          case _ => s.(p := p).Drop(c)
        }
    case RereadVersion(refused) => s.At(c, RereadRevision(refused, s.p.CurrentVersion(k)))
    case RereadRevision(refused, seen) =>
      var revision := s.p.LookupRevision(k);
      if seen == SwapTo(item) && revision == item.expected + 1
      then s.At(c, Finish(true, revision, true))
      else s.At(c, Finish(false, refused, false))
    case Reject(reason) => s.Mark(c, {Promoting}, Rejected, reason).Drop(c)
    case Finish(applied, revision, recovered) =>
      if c in s.rows && s.rows[c].phase == item.phase
      then s.(rows := s.rows[c := FinishedRow(s.rows[c], applied, revision, recovered)]).Drop(c)
      else s.Drop(c)
  }

  // ---------------------------------------------------------------- the machine

  datatype Step =
    | Foreign(op: PointerOp)
    | Admit(proposal: Proposal, checks: Checks, admittedAt: int)
    | RecordOutcome(selection: Selection, success: Option<bool>, hard: Option<bool>, standing: Standing, now: int)
    | SelectMark(candidate: nat, fetched: Row, seen: Option<Version>, revision: nat, standing: Standing, now: int,
                 assignment: Option<nat>, candidateArtifact: bool, baselineArtifact: bool)
    | ExpireCanary(candidate: nat, standing: Standing, now: int)
    | Begin(candidate: nat)
    | Resume(candidate: nat, standing: Standing)
    | Resolve(candidate: nat, outside: Outside)
    | Crash(candidate: nat)

  predicate Pending(row: Row) {
    row.phase == Promoting || row.phase == RollingBack
  }

  /** Begin continues record_outcome in the same call; Resume is the restart path. Only one resolver
      works on a candidate at a time. */
  predicate CanBegin(s: Core, c: nat) {
    c in s.rows && Pending(s.rows[c]) && c !in s.resolvers
  }

  function Next(s: Core, step: Step): Core {
    match step
    case Foreign(op) => if op.actor.RunnerFor? then s else s.(p := Do(s.p, op).0)
    case Admit(x, checks, now) => Consider(s, x, checks, now).0
    case RecordOutcome(x, success, hard, standing, now) => Record(s, x, success, hard, standing, now).0
    case SelectMark(c, fetched, seen, revision, standing, now, assignment, ca, ba) =>
      (match Choose(fetched, seen, revision, standing, now, assignment, ca, ba)
       case MarkRow(from, phase, reason) => s.Mark(c, from, phase, reason)
       case _ => s)
    case ExpireCanary(c, standing, now) =>
      if c in s.rows && standing.Matches(s.rows[c]) && Expired(s.rows[c], now)
      then s.Mark(c, {Canary}, Rejected, CanaryExpired) else s
    case Begin(c) => if CanBegin(s, c) then s.(resolvers := s.resolvers[c := Resolver(s.rows[c], ReadVersion)]) else s
    case Resume(c, standing) =>
      if !CanBegin(s, c) || standing.binding.None? then s
      else if !standing.Matches(s.rows[c]) then s.Mark(c, {s.rows[c].phase}, RecoveryRequired, AuthorityDrift)
      else s.(resolvers := s.resolvers[c := Resolver(s.rows[c], ReadVersion)])
    case Resolve(c, o) => if c in s.resolvers then Advance(s, c, o) else s
    case Crash(c) => s.Drop(c)
  }

  function Run(s: Core, steps: seq<Step>): Core {
    if steps == [] then s else Next(Run(s, steps[..|steps| - 1]), steps[|steps| - 1])
  }
}
