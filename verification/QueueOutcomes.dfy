/** What each transaction of the queue comes to, said of the rows themselves, and how long a lease lasts. */
module QueueOutcomes {
  import opened Basics
  import opened JobQueue
  import opened QueueTheorems

  // ---------------------------------------------------------------- leases

  ghost predicate HeldBy(q: Queue, k: nat, lease: Lease) {
    k in q.leases && q.leases[k] == lease && k in q.jobs && q.jobs[k].status == Running
  }

  /** A granted claim and an accepted renewal both leave a lease that runs for the asked time, a second at the least. */
  lemma GrantLeases(q: Queue, op: Op)
    requires Wf(q) && op.Claim? && Do(q, op).1.Granted?
    ensures var (r, reply) := Do(q, op);
            HeldBy(r, reply.key, Lease(op.worker, reply.token, reply.expiresAt))
            && reply.expiresAt == op.later + Max(1, op.ttl)
  {
  }

  lemma RenewalLeases(q: Queue, op: Op)
    requires Wf(q) && op.Heartbeat?
    ensures var (r, reply) := Do(q, op);
            && (reply == Accepted <==>
                  && op.key in q.leases && q.leases[op.key].owner == op.worker && q.leases[op.key].token == op.token
                  && q.leases[op.key].expiresAt > op.now)
            && (reply == Accepted ==>
                  HeldBy(r, op.key, Lease(op.worker, q.leases[op.key].token, op.now + Max(1, op.ttl)))
                  && r == q.(leases := q.leases[op.key := r.leases[op.key]]))
            && (reply != Accepted ==> r == q && reply == Declined)
  {
  }

  /** Operations that leave the lease of job k alone: those of other workers, whatever they attempt, as long as their
      clocks have not passed its end. Its own worker's, an unfenced completion and an operator's cancellation are
      not. */
  ghost predicate Spares(op: Op, k: nat, lease: Lease) {
    match op
    case Enqueue(key, _, _, _, _, now) => key == k ==> now < lease.expiresAt
    case Claim(_, _, _, _, now, _, _) => now < lease.expiresAt
    case Heartbeat(key, worker, token, _, _) => !(key == k && worker == lease.owner && token == lease.token)
    case Complete(key, worker, token, _, _, _) => !(key == k && worker == lease.owner && token == lease.token)
    case CompleteUnfenced(key, _) => key != k
    case Cancel(key, held, _) => key == k ==> held.Some? && held != Some((lease.owner, lease.token as int))
    case Reclaim(now) => now < lease.expiresAt
    case AppendCandidate(_, _) => true
  }

  lemma SparedStep(q: Queue, op: Op, k: nat, lease: Lease)
    requires HeldBy(q, k, lease) && Spares(op, k, lease)
    ensures HeldBy(Do(q, op).0, k, lease) && Do(q, op).0.jobs[k] == q.jobs[k]
    ensures Do(q, op).1.Granted? ==> Do(q, op).1.key != k
  {
  }

  /** So until its end a lease keeps its job from every other worker. */
  lemma {:induction false} LeaseLasts(q: Queue, ops: seq<Op>, k: nat, lease: Lease)
    requires HeldBy(q, k, lease) && forall op :: op in ops ==> Spares(op, k, lease)
    ensures HeldBy(Run(q, ops), k, lease) && Run(q, ops).jobs[k] == q.jobs[k]
    ensures forall i :: 0 <= i < |ops| && ReplyAt(q, ops, i).Granted? ==> ReplyAt(q, ops, i).key != k
  {
    if ops != [] {
      hide Do, Spares;
      var before, last := ops[..|ops| - 1], ops[|ops| - 1];
      LeaseLasts(q, before, k, lease);
      SparedStep(Run(q, before), last, k, lease);
      PrefixReplies(q, ops);
    }
  }

  /** And its worker can report on the job all that time. */
  lemma ReportInTime(q: Queue, ops: seq<Op>, k: nat, lease: Lease, status: Status, now: int)
    requires HeldBy(q, k, lease) && (forall op :: op in ops ==> Spares(op, k, lease)) && now < lease.expiresAt
    ensures Do(Run(q, ops), Complete(k, lease.owner, lease.token, None, status, now)).1 == Accepted
  {
    hide Spares;
    LeaseLasts(q, ops, k, lease);
  }

  // ---------------------------------------------------------------- claims

  ghost predicate Waiting(q: Queue, filter: Option<nat>, k: nat) {
    k in q.jobs && q.jobs[k].status == Pending && (filter.Some? ==> q.jobs[k].context == filter.value)
  }

  /** The oldest job that waits in the filtered context. */
  ghost predicate Oldest(q: Queue, filter: Option<nat>, k: nat) {
    Waiting(q, filter, k) && forall o :: Waiting(q, filter, o) ==> q.jobs[k].createdAt <= q.jobs[o].createdAt
  }

  ghost function Attempts(q: Queue, k: nat, limit: Option<int>): (int, int)
    requires k in q.jobs
  {
    (q.jobs[k].attempts, if limit.None? then q.jobs[k].maxRetries else limit.value)
  }

  /** A claim takes the oldest waiting job if it has attempts left, and fails it for good if it has none. Nothing else
      changes but that expired leases are gone. */
  lemma ClaimMeans(q: Queue, op: Op)
    requires op.Claim? && q.Picks(op.filter, op.pick)
    ensures var (r, reply) := Do(q, op);
            && r.jobs.Keys == q.jobs.Keys
            && (forall k :: !(reply.Granted? && k == reply.key) ==>
                  && (k in r.leases <==> k in q.leases && q.leases[k].expiresAt > op.now)
                  && (k in r.leases ==> r.leases[k] == q.leases[k]))
            && (reply.Granted? ==>
                  && Oldest(q, op.filter, reply.key)
                  && Attempts(q, reply.key, op.limit).0 < Attempts(q, reply.key, op.limit).1
                  && reply.token == (if reply.key in q.fences then q.fences[reply.key] + 1 else 1)
                  && r.fences == q.fences[reply.key := reply.token]
                  && r.jobs == q.jobs[reply.key := q.jobs[reply.key].(status := Running,
                                                                      attempts := q.jobs[reply.key].attempts + 1)])
            && (!reply.Granted? ==>
                  && reply == NothingToClaim && r.fences == q.fences
                  && if r.jobs == q.jobs then forall k :: !Waiting(q, op.filter, k)
                     else exists k :: && Oldest(q, op.filter, k)
                                      && Attempts(q, k, op.limit).0 >= Attempts(q, k, op.limit).1
                                      && r.jobs == q.jobs[k := q.jobs[k].(status := Failed)])
            && r.candidates == q.candidates && r.approvals == q.approvals
  {
    assert forall k :: Waiting(q, op.filter, k) <==> q.Eligible(op.filter, k);
    if op.pick.Some? {
      assert Oldest(q, op.filter, op.pick.value);
    }
  }

  // ---------------------------------------------------------------- ends of attempts

  /** Reclaiming sends back exactly the running jobs whose lease has run out. */
  lemma ReclaimMeans(q: Queue, now: int)
    ensures var r := Do(q, Reclaim(now)).0;
            && r.jobs.Keys == q.jobs.Keys && r.fences == q.fences
            && r.candidates == q.candidates && r.approvals == q.approvals
            && forall k :: k in q.jobs ==>
                 if q.jobs[k].status == Running && k in q.leases && now >= q.leases[k].expiresAt then
                   && k !in r.leases
                   && r.jobs[k] == q.jobs[k].(status := r.jobs[k].status)
                   && r.jobs[k].status == (if q.jobs[k].attempts < q.jobs[k].maxRetries then Pending else Failed)
                 else
                   && r.jobs[k] == q.jobs[k] && (k in r.leases <==> k in q.leases)
                   && (k in q.leases ==> r.leases[k] == q.leases[k])
  {
  }

  /** The completion speaks for a candidate that awaits the coordinator, under the job's own configuration. */
  ghost predicate SpeaksFor(job: Job, body: Option<Body>, status: Status, c: nat) {
    && status == CandidateReady && body.Some? && body.value.candidate == Some(c)
    && body.value.pendingCoordinator && job.config.Some? && body.value.config == job.config
  }

  /** The candidate was recorded in the job's context with that very content. */
  ghost predicate OnRecord(q: Queue, job: Job, body: Option<Body>, c: nat) {
    body.Some? && c in q.candidates && q.candidates[c].context == job.context
    && Some(q.candidates[c].digest) == body.value.digest
  }

  /** A fenced completion is accepted exactly from the holder of an unexpired lease, and, where it speaks for a
      candidate, if that is on record; then it approves that candidate, once. */
  lemma CompletionMeans(q: Queue, op: Op)
    requires op.Complete?
    ensures var (r, reply) := Do(q, op);
            var held := op.key in q.jobs && op.key in q.leases && q.leases[op.key].owner == op.worker
                        && q.leases[op.key].token == op.token && q.leases[op.key].expiresAt > op.now;
            && (reply == Accepted <==>
                  held && forall c :: SpeaksFor(q.jobs[op.key], op.body, op.status, c) ==>
                            OnRecord(q, q.jobs[op.key], op.body, c))
            && (reply != Accepted ==> reply == Declined && r == q)
            && (reply == Accepted ==>
                  && r.jobs == q.jobs[op.key := q.jobs[op.key].(status := op.status)] && r.leases == q.leases - {op.key}
                  && r.fences == q.fences && r.candidates == q.candidates
                  && (forall c :: c in q.approvals ==> c in r.approvals && r.approvals[c] == q.approvals[c])
                  && (forall c :: c in r.approvals && c !in q.approvals <==>
                            c !in q.approvals && SpeaksFor(q.jobs[op.key], op.body, op.status, c)))
  {
    if op.key in q.jobs && Nominates(q.jobs[op.key], op.body, op.status) {
      assert SpeaksFor(q.jobs[op.key], op.body, op.status, op.body.value.candidate.value);
    }
  }

  /** Work that is not over is cancelled by an operator at any time, and by a lease holder under its unexpired lease. */
  lemma CancellationMeans(q: Queue, op: Op)
    requires op.Cancel?
    ensures var (r, reply) := Do(q, op);
            && (reply == Accepted <==>
                  && op.key in q.jobs && q.jobs[op.key].status in {Pending, Running}
                  && (op.lease.Some? ==>
                        && op.key in q.leases && q.leases[op.key].owner == op.lease.value.0
                        && q.leases[op.key].token == op.lease.value.1 && q.leases[op.key].expiresAt > op.now))
            && (reply != Accepted ==> reply == Declined && r == q)
            && (reply == Accepted ==>
                  && r == q.(jobs := q.jobs[op.key := q.jobs[op.key].(status := Cancelled)],
                             leases := q.leases - {op.key}))
  {
  }

  lemma StepKeepsCandidates(q: Queue, op: Op)
    ensures forall c :: c in q.candidates ==>
              c in Do(q, op).0.candidates && Do(q, op).0.candidates[c] == q.candidates[c]
  {
  }

  /** What is on record stays on record. */
  lemma {:induction false} RunKeepsCandidates(q: Queue, ops: seq<Op>)
    ensures forall c :: c in q.candidates ==>
              c in Run(q, ops).candidates && Run(q, ops).candidates[c] == q.candidates[c]
  {
    if ops != [] {
      hide Do;
      RunKeepsCandidates(q, ops[..|ops| - 1]);
      StepKeepsCandidates(Run(q, ops[..|ops| - 1]), ops[|ops| - 1]);
    }
  }
}
