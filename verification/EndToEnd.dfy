/** The queue, the transition machine and the pointer store together: how an automatic promotion came
    to be in the audit log, over every run with foreign writers and crashes. */
module EndToEnd {
  import opened Basics
  import opened GuidancePointer
  import opened Transition
  import opened TransitionInvariant
  import opened TransitionRuns
  import opened TransitionTheorems
  import opened Recognition
  import Coordination
  import JobQueue
  import QueueTheorems

  /** What a process that considers a candidate has found out before its transaction. */
  datatype Vetting = Vetting(proposal: Proposal, checks: Checks, config: nat)

  datatype World = World(queue: JobQueue.Queue, evidence: Coordination.Evidence, core: Core, vetted: map<nat, Vetting>)

  /** Persist appends one row: a version is staged together with its evidence row, and a candidate is one row for
      the queue's approvals and for the evidence chain. digest stands for the hash of a candidate's content.
      Considering a candidate takes two steps: process id vets it, and later, if it gets there, admits it. */
  datatype WorldStep =
    | QueueStep(op: JobQueue.Op)
    | Persist(write: Coordination.Write, digest: nat, createdAt: int)
    | Vet(id: nat, proposal: Proposal, checks: Checks, config: nat)
    | AdmitStep(id: nat, now: int)
    | CoreStep(step: Step)

  function Listed(row: Coordination.CandidateRow, digest: nat, createdAt: int): JobQueue.CandidateRow {
    JobQueue.CandidateRow(row.slot.context, row.slot.bucket, row.version, digest, createdAt)
  }

  /** Verification and approval are read from the candidate and approval tables. */
  function Vetted(w: World, x: Proposal, checks: Checks, config: nat): Checks {
    var q, c := w.queue, x.candidate;
    checks.(verified := checks.verified && c in q.candidates && q.candidates[c].context == x.slot.context
                        && q.candidates[c].bucket == x.slot.bucket && q.candidates[c].version == x.version,
            approved := c in q.approvals && c in q.candidates
                        && q.approvals[c].digest == q.candidates[c].digest && q.approvals[c].config == config)
  }

  /** The transaction reads the evidence itself, and takes the rest from the vetting. */
  function Judged(w: World, v: Vetting): Checks {
    var x := v.proposal;
    v.checks.(evidence := baseline =>
                Coordination.Chain(w.evidence, x.slot, x.version, baseline, Some(x.candidate)).Verified?)
  }

  function Admitted(w: World, id: nat, now: int): Core {
    if id in w.vetted then Consider(w.core, w.vetted[id].proposal, Judged(w, w.vetted[id]), now).0 else w.core
  }

  function Persisted(w: World, write: Coordination.Write, digest: nat, createdAt: int): World {
    match write
    case Call(op, _) =>
      if op.Stage? && !op.actor.RunnerFor?
      then w.(evidence := Coordination.Written(w.evidence, write), core := Next(w.core, Foreign(op))) else w
    case AppendCandidate(c, row) =>
      w.(evidence := Coordination.Written(w.evidence, write),
         queue := JobQueue.Do(w.queue, JobQueue.AppendCandidate(c, Listed(row, digest, createdAt))).0)
    case _ => w.(evidence := Coordination.Written(w.evidence, write))
  }

  /** Staging and candidates go through Persist, admission through Vet and AdmitStep. */
  function NextWorld(w: World, step: WorldStep): World {
    match step
    case QueueStep(op) => if op.AppendCandidate? then w else w.(queue := JobQueue.Do(w.queue, op).0)
    case Persist(write, digest, createdAt) => Persisted(w, write, digest, createdAt)
    case Vet(id, x, checks, config) =>
      w.(vetted := w.vetted[id := Vetting(x, Vetted(w, x, checks, config), config)])
    case AdmitStep(id, now) => w.(core := Admitted(w, id, now))
    case CoreStep(step) =>
      if step.Admit? || (step.Foreign? && step.op.Stage?) then w else w.(core := Next(w.core, step))
  }

  ghost predicate Begins(w: World) {
    w.queue == QueueTheorems.FRESH && w.evidence.candidates == map[] && Initial(w.core) && w.vetted == map[]
  }

  ghost predicate IsRun(w: seq<World>, s: seq<WorldStep>) {
    && |w| == |s| + 1 && Begins(w[0])
    && forall i :: 0 <= i < |s| ==> w[i + 1] == NextWorld(w[i], s[i])
  }

  /** The candidate table of the queue and that of the evidence chain are one table. */
  ghost predicate Linked(w: World) {
    && w.queue.candidates.Keys == w.evidence.candidates.Keys
    && forall c :: c in w.queue.candidates ==>
         var row := w.evidence.candidates[c];
         w.queue.candidates[c] == Listed(row, w.queue.candidates[c].digest, w.queue.candidates[c].createdAt)
  }

  lemma StepKeepsLinked(w: World, step: WorldStep)
    requires Linked(w)
    ensures Linked(NextWorld(w, step))
  {
    hide Next, Consider, JobQueue.Do;
    match step {
      case QueueStep(op) => if !op.AppendCandidate? { CandidatesStay(w.queue, op); }
      case Persist(AppendCandidate(c, row), digest, createdAt) =>
        AppendsCandidate(w.queue, c, Listed(row, digest, createdAt));
      case _ =>
    }
  }

  lemma AppendsCandidate(q: JobQueue.Queue, c: nat, row: JobQueue.CandidateRow)
    ensures JobQueue.Do(q, JobQueue.AppendCandidate(c, row)).0.candidates == Coordination.Inserted(q.candidates, c, row)
  {
  }

  lemma CandidatesStay(q: JobQueue.Queue, op: JobQueue.Op)
    requires !op.AppendCandidate?
    ensures JobQueue.Do(q, op).0.candidates == q.candidates
  {
  }

  /** What a vetting found in the tables holds of them. */
  ghost predicate StillHolds(q: JobQueue.Queue, v: Vetting) {
    var x, c := v.proposal, v.proposal.candidate;
    && (v.checks.verified ==> c in q.candidates && q.candidates[c].context == x.slot.context
                              && q.candidates[c].bucket == x.slot.bucket && q.candidates[c].version == x.version)
    && (v.checks.approved ==> c in q.approvals && c in q.candidates
                              && q.approvals[c].digest == q.candidates[c].digest && q.approvals[c].config == v.config)
  }

  /** Approvals and candidates are never changed or withdrawn. */
  ghost predicate Appended(q: JobQueue.Queue, r: JobQueue.Queue) {
    && (forall c :: c in q.approvals ==> c in r.approvals && r.approvals[c] == q.approvals[c])
    && (forall c :: c in q.candidates ==> c in r.candidates && r.candidates[c] == q.candidates[c])
  }

  lemma StillHoldsLater(q: JobQueue.Queue, r: JobQueue.Queue, v: Vetting)
    requires StillHolds(q, v) && Appended(q, r)
    ensures StillHolds(r, v)
  {
  }

  ghost predicate WorldInv(w: World) {
    && QueueTheorems.Wf(w.queue) && Inv(w.core) && Linked(w)
    && (forall c :: c in w.core.rows ==> c in w.queue.approvals)
    && (forall id :: id in w.vetted ==> StillHolds(w.queue, w.vetted[id]))
  }

  lemma QueueAppends(q: JobQueue.Queue, op: JobQueue.Op)
    ensures Appended(q, JobQueue.Do(q, op).0)
  {
  }

  lemma RowsComeFromAdmission(s: Core, step: Step, c: nat)
    requires Inv(s) && !step.Admit? && c in Next(s, step).rows
    ensures c in s.rows
  {
    hide Inv, Do, Observed, Choose;
    if step.Resolve? && step.candidate in s.resolvers {
      AboutResolver(s, step.candidate);
    }
  }

  lemma NextKeepsWorldInv(w: World, step: WorldStep)
    requires WorldInv(w)
    ensures WorldInv(NextWorld(w, step))
  {
    hide Inv, QueueTheorems.Wf, JobQueue.Do, Next, Linked, Coordination.Written;
    StepKeepsLinked(w, step);
    match step {
      case QueueStep(op) => QueueKeeps(w, op);
      case Persist(write, digest, createdAt) =>
        match write {
          case Call(op, _) => CoreKeeps(w, Foreign(op));
          case AppendCandidate(c, row) => QueueKeeps(w, JobQueue.AppendCandidate(c, Listed(row, digest, createdAt)));
          case _ =>
        }
      case Vet(_, _, _, _) =>
      case AdmitStep(id, now) => AdmissionKeeps(w, id, now);
      case CoreStep(core) =>
        if !core.Admit? {
          CoreKeeps(w, core);
        }
    }
  }

  lemma QueueKeeps(w: World, op: JobQueue.Op)
    requires WorldInv(w)
    ensures QueueTheorems.Wf(JobQueue.Do(w.queue, op).0)
    ensures forall c :: c in w.core.rows ==> c in JobQueue.Do(w.queue, op).0.approvals
    ensures forall id :: id in w.vetted ==> StillHolds(JobQueue.Do(w.queue, op).0, w.vetted[id])
  {
    hide Inv, QueueTheorems.Wf, JobQueue.Do, Linked, StillHolds;
    QueueTheorems.StepKeepsWf(w.queue, op);
    QueueAppends(w.queue, op);
    forall id | id in w.vetted
      ensures StillHolds(JobQueue.Do(w.queue, op).0, w.vetted[id])
    {
      StillHoldsLater(w.queue, JobQueue.Do(w.queue, op).0, w.vetted[id]);
    }
  }

  /** What was vetted earlier still holds when the candidate is admitted. */
  lemma AdmissionKeeps(w: World, id: nat, now: int)
    requires WorldInv(w)
    ensures Inv(Admitted(w, id, now)) && forall c :: c in Admitted(w, id, now).rows ==> c in w.queue.approvals
  {
    hide Inv, QueueTheorems.Wf, Linked;
    if id in w.vetted {
      TransitionRuns.AdmitStep(w.core, w.vetted[id].proposal, Judged(w, w.vetted[id]), now);
    }
  }

  lemma CoreKeeps(w: World, step: Step)
    requires WorldInv(w) && !step.Admit?
    ensures Inv(Next(w.core, step)) && forall c :: c in Next(w.core, step).rows ==> c in w.queue.approvals
  {
    hide Inv, QueueTheorems.Wf, Next, Linked;
    NextKeepsInv(w.core, step);
    forall c | c in Next(w.core, step).rows
      ensures c in w.queue.approvals
    {
      RowsComeFromAdmission(w.core, step, c);
    }
  }

  lemma RunStep(w: seq<World>, s: seq<WorldStep>, i: nat)
    requires IsRun(w, s) && i < |s|
    ensures |w| == |s| + 1 && w[i + 1] == NextWorld(w[i], s[i])
  {
  }

  lemma {:induction false} RunInv(w: seq<World>, s: seq<WorldStep>, n: nat)
    requires IsRun(w, s) && n <= |s|
    ensures WorldInv(w[n])
  {
    if n == 0 {
      InitialInv(w[0].core);
    } else {
      RunInv(w, s, n - 1);
      NextKeepsWorldInv(w[n - 1], s[n - 1]);
    }
  }

  // ---------------------------------------------------------------- what one step does to a slot and a row

  ghost predicate PinnedBy(p: Pointers, q: Pointers, k: Slot) {
    p.Effective(k) <= q.Effective(k) && (p.Effective(k) == q.Effective(k) ==> p.Pointer(k) == q.Pointer(k))
  }

  lemma CallPins(p: Pointers, op: PointerOp, k: Slot)
    ensures PinnedBy(p, Do(p, op).0, k)
  {
    StepReadings(p, op, k);
  }

  lemma Unmoved(p: Pointers, k: Slot)
    ensures PinnedBy(p, p, k)
  {
  }

  /** The effective revision never falls, and pins the pointer while it stands still. */
  lemma StepPins(w: World, step: WorldStep, k: Slot)
    ensures PinnedBy(w.core.p, NextWorld(w, step).core.p, k)
  {
    hide PinnedBy, Do, SwapOp, Observed, Choose, Consider, JobQueue.Do;
    Unmoved(w.core.p, k);
    match step {
      case QueueStep(_) =>
      case Persist(write, _, _) => if write.Call? { CallPins(w.core.p, write.op, k); }
      case Vet(_, _, _, _) =>
      case AdmitStep(id, now) => AdmissionKeepsPointers(w, id, now);
      case CoreStep(core) =>
        match core {
          case Foreign(op) => CallPins(w.core.p, op, k);
          case Resolve(c, o) => if c in w.core.resolvers { CallPins(w.core.p, SwapOp(c, w.core.resolvers[c].item), k); }
          case _ =>
        }
    }
  }

  lemma AdmissionKeepsPointers(w: World, id: nat, now: int)
    ensures Admitted(w, id, now).p == w.core.p
  {
  }

  lemma {:induction false} Pinned(w: seq<World>, s: seq<WorldStep>, x: nat, y: nat, k: Slot)
    requires IsRun(w, s) && x <= y <= |s|
    ensures PinnedBy(w[x].core.p, w[y].core.p, k)
  {
    if x == y {
      Unmoved(w[x].core.p, k);
    } else {
      hide NextWorld, Begins;
      Pinned(w, s, x, y - 1, k);
      StepPins(w[y - 1], s[y - 1], k);
    }
  }

  /** Each step adds at most one audit, and the runner's only through its resolver's pointer call. */
  ghost predicate AddsAudit(s: Core, t: Core, step: Step) {
    var p, q := s.p.audits, t.p.audits;
    || q == p
    || (|q| == |p| + 1 && p <= q
        && (q[|p|].actor.RunnerFor? ==>
              && step.Resolve? && step.candidate == q[|p|].actor.candidate
              && step.candidate in s.resolvers && s.resolvers[step.candidate].pc == Swap))
  }

  lemma CallAddsAudit(p: Pointers, op: PointerOp)
    ensures var q := Do(p, op).0.audits;
            q == p.audits || (|q| == |p.audits| + 1 && p.audits <= q && q[|p.audits|].actor == op.actor)
  {
    hide Do;
    StepAppends(p, op);
  }

  lemma SwapIsRunners(c: nat, row: Row)
    ensures SwapOp(c, row).actor == RunnerFor(c)
  {
  }

  lemma CoreAudits(s: Core, step: Step)
    requires !step.Admit?
    ensures AddsAudit(s, Next(s, step), step)
  {
    hide Do, SwapOp, AfterReads, FinishedRow, Choose, Observed, Expired;
    match step {
      case Foreign(op) => CallAddsAudit(s.p, op);
      case Resolve(c, o) =>
        if c in s.resolvers {
          CallAddsAudit(s.p, SwapOp(c, s.resolvers[c].item));
          SwapIsRunners(c, s.resolvers[c].item);
        }
      case _ =>
    }
  }

  ghost predicate AddsRunnerAudit(w: World, step: WorldStep) {
    var p, q := w.core.p.audits, NextWorld(w, step).core.p.audits;
    || q == p
    || (|q| == |p| + 1 && p <= q
        && (q[|p|].actor.RunnerFor? ==>
              && step.CoreStep? && step.step.Resolve? && step.step.candidate == q[|p|].actor.candidate
              && step.step.candidate in w.core.resolvers && w.core.resolvers[step.step.candidate].pc == Swap))
  }

  lemma StepAudits(w: World, step: WorldStep)
    ensures AddsRunnerAudit(w, step)
  {
    hide Next, Consider, JobQueue.Do, Coordination.Written;
    match step {
      case QueueStep(_) =>
      case Persist(write, _, _) => if write.Call? { CoreAudits(w.core, Foreign(write.op)); }
      case Vet(_, _, _, _) =>
      case AdmitStep(id, now) => AdmissionKeepsPointers(w, id, now);
      case CoreStep(core) => if !core.Admit? { CoreAudits(w.core, core); }
    }
  }

  /** Candidate c's row, once there, stays the same transition. */
  ghost predicate KeepsRow(a: World, b: World, c: nat) {
    c in a.core.rows ==> c in b.core.rows && SameTransition(a.core.rows[c], b.core.rows[c])
  }

  lemma StepKeepsRow(w: World, step: WorldStep, c: nat)
    requires WorldInv(w)
    ensures KeepsRow(w, w, c) && KeepsRow(w, NextWorld(w, step), c)
  {
    hide Inv, Next, Edge, Potential, Consider, WorldInv, JobQueue.Do, Coordination.Written;
    InvOf(w);
    if c in w.core.rows {
      match step {
        case QueueStep(_) =>
        case Persist(write, _, _) => if write.Call? { LifecycleStep(w.core, Foreign(write.op), c); }
        case Vet(_, _, _, _) =>
        case AdmitStep(id, now) => AdmissionAddsOnly(w, id, now, c);
        case CoreStep(core) => LifecycleStep(w.core, core, c);
      }
    }
  }

  lemma RunKeepsRow(w: seq<World>, s: seq<WorldStep>, x: nat, y: nat, c: nat)
    requires IsRun(w, s) && x <= y <= |s|
    ensures KeepsRow(w[x], w[y], c)
  {
    var keeps := (a: World, b: World) => KeepsRow(a, b, c);
    forall i | x < i <= y
      ensures keeps(w[i - 1], w[i])
    {
      RunInv(w, s, i - 1);
      StepKeepsRow(w[i - 1], s[i - 1], c);
    }
    assert keeps(w[x], w[x]);
    Chained(w, keeps, x, y);
  }

  lemma AdmissionAddsOnly(w: World, id: nat, now: int, c: nat)
    requires c in w.core.rows
    ensures var t := Admitted(w, id, now); c in t.rows && t.rows[c] == w.core.rows[c]
  {
  }

  // ---------------------------------------------------------------- the three moments

  /** A fenced completion approved candidate c: its worker held an unexpired lease on the running job,
      under the last token issued for it. */
  ghost predicate Approves(w: World, step: WorldStep, c: nat) {
    && step.QueueStep? && step.op.Complete? && step.op.body.Some? && step.op.body.value.candidate == Some(c)
    && var q, op := w.queue, step.op;
    && op.status == JobQueue.CandidateReady
    && op.key in q.leases && q.leases[op.key].owner == op.worker && q.leases[op.key].token == op.token
    && q.leases[op.key].expiresAt > op.now
    && op.key in q.fences && q.fences[op.key] == op.token
    && op.key in q.jobs && q.jobs[op.key].status == JobQueue.Running
    && c in q.candidates && q.candidates[c].context == q.jobs[op.key].context
    && op.body.value.digest == Some(q.candidates[c].digest) && op.body.value.config == q.jobs[op.key].config
    && c !in q.approvals && c in NextWorld(w, step).queue.approvals
    && ApprovedBy(NextWorld(w, step).queue.approvals[c], op, q.candidates[c].digest)
  }

  /** The row a completion leaves in the approval table. */
  ghost predicate ApprovedBy(a: JobQueue.Approval, op: JobQueue.Op, digest: nat) {
    && op.Complete? && op.body.Some? && op.body.value.config == Some(a.config)
    && a.key == op.key && a.token == op.token && a.digest == digest && a.approvedAt == op.now
  }

  /** Candidate c was admitted: approved under the configuration in force, with an evidence chain that verified against
      the slot's incumbent, and with incumbent and revision on record. */
  ghost predicate Admits(w: World, step: WorldStep, c: nat) {
    && step.AdmitStep? && step.id in w.vetted && w.vetted[step.id].proposal.candidate == c
    && c !in w.core.rows && c in NextWorld(w, step).core.rows
    && var row, q, v := NextWorld(w, step).core.rows[c], w.queue, w.vetted[step.id];
    && row.phase == Canary && row.slot == v.proposal.slot && row.version == v.proposal.version
    && row.baseline == w.core.p.Pointer(row.slot)
    && row.origin.revision == row.expected == w.core.p.SlotRevision(row.slot)
    && Coordination.Proves(w.evidence, row.slot, row.version, row.baseline, Some(c))
    && c in q.approvals && q.approvals[c].config == v.config
    && c in q.candidates && q.candidates[c].digest == q.approvals[c].digest
    && q.candidates[c].context == row.slot.context && q.candidates[c].bucket == row.slot.bucket
    && q.candidates[c].version == row.version
  }

  /** The runner's call that appended audit a: the canary had passed on counted receipts, and the call
      replaced the recorded incumbent at the recorded revision. */
  ghost predicate Promotes(w: World, step: WorldStep, c: nat, a: Audit) {
    && step.CoreStep? && step.step.Resolve? && step.step.candidate == c
    && NextWorld(w, step).core.p.audits == w.core.p.audits + [a]
    && c in w.core.rows
    && var row := w.core.rows[c];
    && row.phase == Promoting && row.expected == row.origin.revision
    && CountersOk(row, Of(w.core.receipts, c)) && CanaryGate(row, Of(w.core.receipts, c))
    && w.core.p.Pointer(row.slot) == row.baseline == a.previous
    && w.core.p.Effective(row.slot) == row.expected && a.expected == Some(row.expected as int)
    && a.slot == row.slot && a.result == Some(row.version)
  }

  lemma FindApproval(w: seq<World>, s: seq<WorldStep>, n: nat, c: nat) returns (i: nat)
    requires IsRun(w, s) && n <= |s| && c in w[n].queue.approvals
    ensures i < n && Approves(w[i], s[i], c)
  {
    hide Approves, Inv, Linked, QueueTheorems.Wf;
    i := Onset(w, (a: World) => c in a.queue.approvals, n);
    RunInv(w, s, i);
    NewApproval(w[i], s[i], c);
  }

  lemma NewApproval(w: World, step: WorldStep, c: nat)
    requires QueueTheorems.Wf(w.queue) && c !in w.queue.approvals && c in NextWorld(w, step).queue.approvals
    ensures Approves(w, step, c)
  {
    hide Next, Consider;
    OnlyCompletionsApprove(w.queue, step.op, c);
  }

  lemma OnlyCompletionsApprove(q: JobQueue.Queue, op: JobQueue.Op, c: nat)
    requires QueueTheorems.Wf(q) && c !in q.approvals && c in JobQueue.Do(q, op).0.approvals
    ensures op.Complete? && op.body.Some? && op.body.value.candidate == Some(c) && op.status == JobQueue.CandidateReady
    ensures op.key in q.jobs && q.Holds(op.key, op.worker, op.token, op.now)
    ensures JobQueue.Nominates(q.jobs[op.key], op.body, op.status) && JobQueue.Vouched(q, q.jobs[op.key], op.body.value)
    ensures ApprovedBy(JobQueue.Do(q, op).0.approvals[c], op, q.candidates[c].digest)
  {
  }

  /** The approval that admission finds is the one the completion left. */
  lemma ApprovalLasts(w: seq<World>, s: seq<WorldStep>, i: nat, j: nat, c: nat)
    requires IsRun(w, s) && i < j < |s| && Approves(w[i], s[i], c)
    ensures c in w[j].queue.approvals && ApprovedBy(w[j].queue.approvals[c], s[i].op, w[i].queue.candidates[c].digest)
  {
    hide NextWorld, Begins;
    var appended := (a: World, b: World) => Appended(a.queue, b.queue);
    forall x | i + 1 < x <= j
      ensures appended(w[x - 1], w[x])
    {
      StepAppendsOnly(w[x - 1], s[x - 1]);
    }
    RunStep(w, s, i);
    assert appended(w[i + 1], w[i + 1]);
    Chained(w, appended, i + 1, j);
  }

  lemma StepAppendsOnly(w: World, step: WorldStep)
    ensures Appended(w.queue, NextWorld(w, step).queue)
  {
    hide JobQueue.Do, Next, Admitted, Coordination.Written, Vetted;
    match step {
      case QueueStep(op) => QueueAppends(w.queue, op);
      case Persist(AppendCandidate(c, row), digest, createdAt) =>
        QueueAppends(w.queue, JobQueue.AppendCandidate(c, Listed(row, digest, createdAt)));
      case _ =>
    }
  }

  lemma FindAdmission(w: seq<World>, s: seq<WorldStep>, n: nat, c: nat) returns (j: nat)
    requires IsRun(w, s) && n <= |s| && c in w[n].core.rows
    ensures j < n && Admits(w[j], s[j], c)
  {
    hide Admits, Inv, Linked, QueueTheorems.Wf;
    j := Onset(w, (a: World) => c in a.core.rows, n);
    RunInv(w, s, j);
    NewRow(w[j], s[j], c);
  }

  lemma NewRow(w: World, step: WorldStep, c: nat)
    requires WorldInv(w) && c !in w.core.rows && c in NextWorld(w, step).core.rows
    ensures Admits(w, step, c)
  {
    hide Inv, Next, JobQueue.Do, QueueTheorems.Wf, Coordination.Chain, Coordination.Proves;
    forall k, v, baseline
      ensures Coordination.Chain(w.evidence, k, v, baseline, Some(c)).Verified?
           == Coordination.Proves(w.evidence, k, v, baseline, Some(c))
    {
      Coordination.ChainExactlyWhenProven(w.evidence, k, v, baseline, Some(c));
    }
    if step.CoreStep? && !step.step.Admit? {
      RowsComeFromAdmission(w.core, step.step, c);
    } else if step.Persist? && step.write.Call? {
      RowsComeFromAdmission(w.core, Foreign(step.write.op), c);
    }
  }

  lemma AuditsStay(w: seq<World>, s: seq<WorldStep>, x: nat, y: nat)
    requires IsRun(w, s) && x <= y <= |s|
    ensures w[x].core.p.audits <= w[y].core.p.audits
  {
    hide NextWorld, Begins;
    var grows := (a: World, b: World) => a.core.p.audits <= b.core.p.audits;
    forall i | x < i <= y
      ensures grows(w[i - 1], w[i])
    {
      StepAudits(w[i - 1], s[i - 1]);
    }
    Chained(w, grows, x, y);
  }

  lemma FindPromotion(w: seq<World>, s: seq<WorldStep>, n: nat, index: nat, c: nat) returns (m: nat)
    requires IsRun(w, s) && n <= |s| && index < |w[n].core.p.audits|
    requires w[n].core.p.audits[index].actor == RunnerFor(c) && w[n].core.p.audits[index].action == AutomaticPromote
    ensures m < n && Promotes(w[m], s[m], c, w[n].core.p.audits[index])
  {
    hide NextWorld, WorldInv, Promotes;
    AuditsStay(w, s, 0, n);
    m := Onset(w, (a: World) => index < |a.core.p.audits|, n);
    RunInv(w, s, m);
    StepAudits(w[m], s[m]);
    AuditsStay(w, s, m + 1, n);
    var a := w[n].core.p.audits[index];
    assert w[m + 1].core.p.audits == w[m].core.p.audits + [a];
    NewPromotion(w[m], s[m], c, a);
  }

  lemma AboutPromoting(s: Core, c: nat)
    requires Inv(s) && c in s.rows && s.rows[c].phase == Promoting
    ensures CountersOk(s.rows[c], Of(s.receipts, c)) && CanaryGate(s.rows[c], Of(s.receipts, c))
              && PointerOk(s.p, s.rows[c])
  {
    AboutCandidate(s, c);
  }

  /** The pointer call that appended a promotion. */
  lemma SwapPromotes(s: Core, c: nat, o: Outside, a: Audit)
    requires c in s.resolvers && s.resolvers[c].pc == Swap && Advance(s, c, o).p.audits == s.p.audits + [a]
    requires a.action == AutomaticPromote && Pending(s.resolvers[c].item)
    ensures var row := s.resolvers[c].item;
            && row.phase == Promoting && a.slot == row.slot && a.previous == s.p.Pointer(row.slot)
            && a.result == Some(row.version) && a.expected == Some(row.expected as int)
            && s.p.Effective(row.slot) == row.expected
  {
    assert |s.p.audits + [a]| == |s.p.audits| + 1;
    assert (s.p.audits + [a])[|s.p.audits|] == a;
  }

  lemma AboutPointerAtSwap(p: Pointers, row: Row)
    requires PointerOk(p, row) && row.phase == Promoting && p.Effective(row.slot) == row.expected
    ensures row.expected == row.origin.revision && p.Pointer(row.slot) == row.baseline
  {
  }

  lemma NewPromotion(w: World, step: WorldStep, c: nat, a: Audit)
    requires WorldInv(w) && NextWorld(w, step).core.p.audits == w.core.p.audits + [a]
    requires a.actor == RunnerFor(c) && a.action == AutomaticPromote
    ensures Promotes(w, step, c, a)
  {
    hide WorldInv, Inv, CanaryGate, CountersOk, PointerOk, ResolverOk;
    hide Consider, Choose, Record, JobQueue.Do, Do, SwapOp;
    StepAudits(w, step);
    assert (w.core.p.audits + [a])[|w.core.p.audits|] == a;
    InvOf(w);
    AboutResolver(w.core, c);
    var row := w.core.rows[c];
    SwapPromotes(w.core, c, step.step.outside, a);
    AboutPromoting(w.core, c);
    AboutPointerAtSwap(w.core.p, row);
  }

  lemma InvOf(w: World)
    requires WorldInv(w)
    ensures Inv(w.core)
  {
  }

  /** End to end. Every automatic promotion in the audit log has a history: a fenced completion under the
      job's last token approved the candidate, the candidate was admitted under that approval and the job's
      configuration against the slot's incumbent, its receipts met the horizon, both minimums, the margin and the
      veto, and the pointer call replaced exactly that incumbent. At every moment from admission to that call the
      slot held it at the same revision, and the evidence chain verified against it. */
  lemma PromotionHistory(w: seq<World>, s: seq<WorldStep>, index: nat, c: nat)
    requires IsRun(w, s) && index < |w[|s|].core.p.audits|
    requires var a := w[|s|].core.p.audits[index]; a.actor == RunnerFor(c) && a.action == AutomaticPromote
    ensures exists i, j, m :: 0 <= i < j < m < |s| && HistoryOf(w, s, i, j, m, c, w[|s|].core.p.audits[index])
  {
    var a := w[|s|].core.p.audits[index];
    var m := FindPromotion(w, s, |s|, index, c);
    var j := FindAdmission(w, s, m, c);
    var i := FindApproval(w, s, j, c);
    Undisturbed(w, s, j, m, c, a);
    ApprovalLasts(w, s, i, j, c);
    assert HistoryOf(w, s, i, j, m, c, a);
  }

  ghost predicate HistoryOf(w: seq<World>, s: seq<WorldStep>, i: nat, j: nat, m: nat, c: nat, a: Audit)
    requires i < j < m < |s| && |w| == |s| + 1
  {
    && Approves(w[i], s[i], c) && Admits(w[j], s[j], c) && Promotes(w[m], s[m], c, a)
    && ApprovedBy(w[j].queue.approvals[c], s[i].op, w[i].queue.candidates[c].digest)
    && w[i].queue.jobs[s[i].op.key].config == Some(w[j].vetted[s[j].id].config)
    && forall x :: j <= x <= m ==> SlotAt(w[x], a) && ProvenAt(w[x], c, a)
  }

  /** The slot holds the incumbent that audit a replaced, at the revision a expected. */
  ghost predicate SlotAt(w: World, a: Audit) {
    w.core.p.Pointer(a.slot) == a.previous && a.expected == Some(w.core.p.Effective(a.slot) as int)
  }

  /** The tables are evidence for candidate c against the incumbent that audit a replaced. */
  ghost predicate ProvenAt(w: World, c: nat, a: Audit) {
    a.result.Some? && Coordination.Proves(w.evidence, a.slot, a.result.value, a.previous, Some(c))
  }

  lemma StepGrows(w: World, step: WorldStep)
    ensures Coordination.Grows(w.evidence, NextWorld(w, step).evidence)
  {
    hide Next, Consider, JobQueue.Do, Coordination.Written, Coordination.Grows;
    Coordination.GrowsItself(w.evidence);
    if step.Persist? {
      Coordination.WrittenGrows(w.evidence, w.evidence, step.write);
    }
  }

  lemma EvidenceGrows(w: seq<World>, s: seq<WorldStep>, x: nat, y: nat)
    requires IsRun(w, s) && x <= y <= |s|
    ensures Coordination.Grows(w[x].evidence, w[y].evidence)
  {
    var grows := (a: World, b: World) => Coordination.Grows(a.evidence, b.evidence);
    forall a, b, d | grows(a, b) && grows(b, d)
      ensures grows(a, d)
    {
      Coordination.GrowsFurther(a.evidence, b.evidence, d.evidence);
    }
    hide NextWorld, Coordination.Grows, Begins;
    forall i | x < i <= y
      ensures grows(w[i - 1], w[i])
    {
      StepGrows(w[i - 1], s[i - 1]);
    }
    Coordination.GrowsItself(w[x].evidence);
    Chained(w, grows, x, y);
  }

  /** Since admission the evidence only grew, so it verifies at every later moment. */
  lemma Proven(w: seq<World>, s: seq<WorldStep>, j: nat, x: nat, c: nat, a: Audit)
    requires IsRun(w, s) && j < x < |s| && Admits(w[j], s[j], c) && w[j + 1] == NextWorld(w[j], s[j])
    requires var row := NextWorld(w[j], s[j]).core.rows[c];
             a.slot == row.slot && a.result == Some(row.version) && a.previous == row.baseline
    ensures ProvenAt(w[x], c, a) && ProvenAt(w[j], c, a)
  {
    hide NextWorld, Coordination.Proves, Coordination.Grows;
    EvidenceGrows(w, s, j, x);
    Coordination.EvidenceKept(w[j].evidence, w[x].evidence, a.slot, a.result.value, a.previous, Some(c));
  }

  lemma Undisturbed(w: seq<World>, s: seq<WorldStep>, j: nat, m: nat, c: nat, a: Audit)
    requires IsRun(w, s) && j < m < |s| && Admits(w[j], s[j], c) && Promotes(w[m], s[m], c, a)
    ensures forall x :: j <= x <= m ==> SlotAt(w[x], a) && ProvenAt(w[x], c, a)
  {
    hide NextWorld, CanaryGate, CountersOk, Begins, ProvenAt, Coordination.Proves;
    RunStep(w, s, j);
    RunKeepsRow(w, s, j + 1, m, c);
    StepReadings(w[j].core.p, Stage(a.slot, 0, Coordinator(0)), a.slot);
    forall x | j <= x <= m
      ensures SlotAt(w[x], a) && ProvenAt(w[x], c, a)
    {
      Proven(w, s, j, if x == j then m else x, c, a);
      Pinned(w, s, j, x, a.slot);
      Pinned(w, s, x, m, a.slot);
    }
  }
}
