/** Leased jobs with fencing tokens: the job, lease, fence-counter, candidate and approval tables.
    The functions specify each transaction; class JobStore is the code. Every operation carries
    the clock reading it used, and nothing is assumed about how those readings relate. */
module JobQueue {
  import opened Basics

  datatype Status = Pending | Running | Succeeded | Failed | Cancelled | CandidateReady | Promoted | Rejected

  predicate Terminal(s: Status) {
    s != Pending && s != Running
  }

  /** config is the payload's trusted configuration digest, when it is a well-formed one. */
  datatype Job = Job(context: nat, status: Status, attempts: nat, maxRetries: nat, config: Option<nat>, createdAt: int)
  datatype Lease = Lease(owner: nat, token: nat, expiresAt: int)
  datatype CandidateRow = CandidateRow(context: nat, bucket: nat, version: nat, digest: nat, createdAt: int)
  datatype Approval = Approval(key: nat, token: nat, digest: nat, config: nat, approvedAt: int)

  /** The part of a completion's result that the store reads. */
  datatype Body = Body(pendingCoordinator: bool, config: Option<nat>, candidate: Option<nat>, digest: Option<nat>)

  datatype Reply =
    | Accepted
    | Declined
    | ForeignKeyError
    | Granted(key: nat, token: nat, expiresAt: int)
    | NothingToClaim
    | Reclaimed(count: nat)

  datatype Queue = Queue(jobs: map<nat, Job>, leases: map<nat, Lease>, fences: map<nat, nat>,
                         candidates: map<nat, CandidateRow>, approvals: map<nat, Approval>)
  {
    predicate Leased(key: nat, now: int) {
      key in leases && leases[key].expiresAt > now
    }

    predicate Holds(key: nat, worker: nat, token: int, now: int) {
      Leased(key, now) && leases[key].owner == worker && leases[key].token == token
    }

    /** Ends the attempt: the job takes the status and loses its lease. */
    function Ended(key: nat, status: Status): Queue
      requires key in jobs
    {
      this.(jobs := jobs[key := jobs[key].(status := status)], leases := leases - {key})
    }

    function NextToken(key: nat): nat {
      if key in fences then fences[key] + 1 else 1
    }

    /** The oldest pending job of the filtered context, or none when there is no such job. */
    predicate Picks(filter: Option<nat>, pick: Option<nat>) {
      match pick
      case None => forall k :: k in jobs ==> !Eligible(filter, k)
      case Some(k) =>
        Eligible(filter, k) && forall o :: o in jobs && Eligible(filter, o) ==> jobs[k].createdAt <= jobs[o].createdAt
    }

    predicate Eligible(filter: Option<nat>, k: nat) {
      k in jobs && jobs[k].status == Pending && (filter == None || filter == Some(jobs[k].context))
    }

    predicate Expired(k: nat, now: int) {
      k in jobs && jobs[k].status == Running && k in leases && leases[k].expiresAt <= now
    }
  }

  datatype Op =
    | Enqueue(key: nat, context: nat, config: Option<nat>, maxRetries: int, force: bool, now: int)
    | Claim(worker: nat, ttl: int, filter: Option<nat>, limit: Option<int>, now: int, later: int, pick: Option<nat>)
    | Heartbeat(key: nat, worker: nat, token: int, ttl: int, now: int)
    | Complete(key: nat, worker: nat, token: int, body: Option<Body>, status: Status, now: int)
    | CompleteUnfenced(key: nat, status: Status)
    | Cancel(key: nat, lease: Option<(nat, int)>, now: int)
    | Reclaim(now: int)
    | AppendCandidate(candidate: nat, row: CandidateRow)

  /** Whether a completion asks for its candidate to be admitted. */
  predicate Nominates(job: Job, body: Option<Body>, status: Status) {
    && status == CandidateReady
    && body.Some?
    && body.value.pendingCoordinator
    && body.value.config.Some?
    && body.value.config == job.config
    && body.value.candidate.Some?
  }

  predicate Vouched(q: Queue, job: Job, body: Body)
    requires body.candidate.Some?
  {
    var c := body.candidate.value;
    c in q.candidates && q.candidates[c].context == job.context && body.digest == Some(q.candidates[c].digest)
  }

  function DoEnqueue(q: Queue, key: nat, context: nat, config: Option<nat>, maxRetries: int, force: bool,
                     now: int): (Queue, Reply) {
    if key in q.jobs && (!force || q.Leased(key, now)) then (q, Declined)
    else if key in q.jobs && key in q.leases then (q, ForeignKeyError)
    else (q.(jobs := q.jobs[key := Job(context, Pending, 0, Max(0, maxRetries), config, now)]), Accepted)
  }

  function Unexpired(leases: map<nat, Lease>, now: int): map<nat, Lease> {
    map k | k in leases && leases[k].expiresAt > now :: leases[k]
  }

  function DoClaim(q: Queue, worker: nat, ttl: int, limit: Option<int>, now: int, later: int,
                   pick: Option<nat>): (Queue, Reply)
    requires pick.Some? ==> pick.value in q.jobs
  {
    var swept := q.(leases := Unexpired(q.leases, now));
    if pick.None? then (swept, NothingToClaim) else Grant(swept, pick.value, worker, ttl, limit, later)
  }

  function Grant(q: Queue, k: nat, worker: nat, ttl: int, limit: Option<int>, later: int): (Queue, Reply)
    requires k in q.jobs
  {
    var job := q.jobs[k];
    if job.attempts >= (if limit.Some? then limit.value else job.maxRetries)
    then (q.(jobs := q.jobs[k := job.(status := Failed)]), NothingToClaim)
    else
      var token, expiry := q.NextToken(k), later + Max(1, ttl);
      (q.(jobs := q.jobs[k := job.(status := Running, attempts := job.attempts + 1)],
          fences := q.fences[k := token],
          leases := q.leases[k := Lease(worker, token, expiry)]),
       Granted(k, token, expiry))
  }

  function DoComplete(q: Queue, key: nat, worker: nat, token: int, body: Option<Body>, status: Status,
                      now: int): (Queue, Reply) {
    if key !in q.jobs || !q.Holds(key, worker, token, now) then (q, Declined)
    else
      var job, done := q.jobs[key], q.Ended(key, status);
      if !Nominates(job, body, status) then (done, Accepted)
      else if !Vouched(q, job, body.value) then (q, Declined)
      else
        var c := body.value.candidate.value;
        var approval := Approval(key, q.leases[key].token, q.candidates[c].digest, job.config.value, now);
        (if c in q.approvals then done else done.(approvals := q.approvals[c := approval]), Accepted)
  }

  function DoCancel(q: Queue, key: nat, lease: Option<(nat, int)>, now: int): (Queue, Reply) {
    if key !in q.jobs || Terminal(q.jobs[key].status) then (q, Declined)
    else if lease.Some? && !q.Holds(key, lease.value.0, lease.value.1, now) then (q, Declined)
    else (q.Ended(key, Cancelled), Accepted)
  }

  /** The jobs of the given keys go back to pending, or to failed when their attempts are used up. */
  function Requeue(q: Queue, keys: set<nat>): Queue {
    q.(jobs := map k | k in q.jobs :: if k in keys then Requeued(q.jobs[k]) else q.jobs[k],
       leases := q.leases - keys)
  }

  function DoReclaim(q: Queue, now: int): (Queue, Reply) {
    var expired := set k | k in q.jobs && q.Expired(k, now);
    (Requeue(q, expired), Reclaimed(|expired|))
  }

  function Requeued(job: Job): Job {
    job.(status := if job.attempts >= job.maxRetries then Failed else Pending)
  }

  function Do(q: Queue, op: Op): (Queue, Reply) {
    match op
    case Enqueue(key, context, config, maxRetries, force, now) =>
      DoEnqueue(q, key, context, config, maxRetries, force, now)
    case Claim(worker, ttl, filter, limit, now, later, pick) =>
      // A recorded choice that the query could not have made is not a step.
      if q.Picks(filter, pick) then DoClaim(q, worker, ttl, limit, now, later, pick) else (q, NothingToClaim)
    case Heartbeat(key, worker, token, ttl, now) =>
      if q.Holds(key, worker, token, now)
      then (q.(leases := q.leases[key := q.leases[key].(expiresAt := now + Max(1, ttl))]), Accepted)
      else (q, Declined)
    case Complete(key, worker, token, body, status, now) => DoComplete(q, key, worker, token, body, status, now)
    case CompleteUnfenced(key, status) => if key in q.jobs then (q.Ended(key, status), Accepted) else (q, Declined)
    case Cancel(key, lease, now) => DoCancel(q, key, lease, now)
    case Reclaim(now) => DoReclaim(q, now)
    case AppendCandidate(c, row) =>
      if c in q.candidates then (q, Declined) else (q.(candidates := q.candidates[c := row]), Accepted)
  }

  function Run(q: Queue, ops: seq<Op>): Queue {
    if ops == [] then q else Do(Run(q, ops[..|ops| - 1]), ops[|ops| - 1]).0
  }

  /** The reply to operation i of a run. */
  function ReplyAt(q: Queue, ops: seq<Op>, i: nat): Reply
    requires i < |ops|
  {
    Do(Run(q, ops[..i]), ops[i]).1
  }

  /** Sweeping expired leases does not change what the query picks. */
  lemma ClaimOnceSwept(q: Queue, worker: nat, ttl: int, filter: Option<nat>, limit: Option<int>, now: int, later: int,
                       pick: Option<nat>)
    requires q.(leases := Unexpired(q.leases, now)).Picks(filter, pick)
    ensures q.Picks(filter, pick) && (pick.Some? ==> pick.value in q.jobs)
    ensures Do(q, Claim(worker, ttl, filter, limit, now, later, pick))
              == DoClaim(q, worker, ttl, limit, now, later, pick)
    ensures DoClaim(q, worker, ttl, limit, now, later, pick)
         == (var swept := q.(leases := Unexpired(q.leases, now));
             if pick.None? then (swept, NothingToClaim) else Grant(swept, pick.value, worker, ttl, limit, later))
  {
    var swept := q.(leases := Unexpired(q.leases, now));
    assert forall k :: swept.Eligible(filter, k) == q.Eligible(filter, k);
  }

  lemma RequeueNone(q: Queue)
    ensures Requeue(q, {}) == q
  {
    assert Requeue(q, {}).jobs == q.jobs;
  }

  lemma RequeueOneMore(q: Queue, keys: set<nat>, k: nat)
    requires k in q.jobs && k !in keys
    ensures var r := Requeue(q, keys);
            Requeue(q, keys + {k}) == r.(jobs := r.jobs[k := Requeued(r.jobs[k])], leases := r.leases - {k})
  {
    var r := Requeue(q, keys);
    assert Requeue(q, keys + {k}).jobs == r.jobs[k := Requeued(r.jobs[k])];
    assert Requeue(q, keys + {k}).leases == r.leases - {k};
  }

  // ---------------------------------------------------------------- the code

  class JobStore {
    var jobs: map<nat, Job>
    var leases: map<nat, Lease>
    var fences: map<nat, nat>
    var candidates: map<nat, CandidateRow>
    var approvals: map<nat, Approval>

    ghost function State(): Queue
      reads this
    {
      Queue(jobs, leases, fences, candidates, approvals)
    }

    constructor ()
      ensures State() == Queue(map[], map[], map[], map[], map[])
    {
      jobs, leases, fences, candidates, approvals := map[], map[], map[], map[], map[];
    }

    method EnqueueJob(key: nat, context: nat, config: Option<nat>, maxRetries: int, force: bool, now: int)
      returns (reply: Reply)
      modifies this
      ensures (State(), reply) == Do(old(State()), Enqueue(key, context, config, maxRetries, force, now))
    {
      if key in jobs {
        var leased := key in leases && leases[key].expiresAt > now;
        if !force || leased {
          return Declined;
        }
        if key in leases {
          return ForeignKeyError;  // deleting the job row would orphan its lease row
        }
        jobs := jobs - {key};
      }
      jobs := jobs[key := Job(context, Pending, 0, Max(0, maxRetries), config, now)];
      assert jobs == old(jobs)[key := jobs[key]];
      reply := Accepted;
    }

    method OldestPending(filter: Option<nat>) returns (pick: Option<nat>)
      ensures State().Picks(filter, pick) && (pick.Some? ==> pick.value in jobs)
    {
      pick := None;
      var rest := jobs.Keys;
      while rest != {}
        invariant rest <= jobs.Keys
        invariant pick.None? ==> forall k :: k in jobs.Keys - rest ==> !State().Eligible(filter, k)
        invariant pick.Some? ==> State().Eligible(filter, pick.value)
        invariant pick.Some? ==> forall k :: k in jobs.Keys - rest && State().Eligible(filter, k)
                                             ==> jobs[pick.value].createdAt <= jobs[k].createdAt
        decreases rest
      {
        var k :| k in rest;
        rest := rest - {k};
        var matches := jobs[k].status == Pending && (filter == None || filter == Some(jobs[k].context));
        if matches && (pick.None? || jobs[k].createdAt < jobs[pick.value].createdAt) {
          pick := Some(k);
        }
      }
    }

    /** Returns the choice made as well, so that the call is one operation of a run. */
    method ClaimJob(worker: nat, ttl: int, filter: Option<nat>, limit: Option<int>, now: int, later: int)
      returns (reply: Reply, pick: Option<nat>)
      modifies this
      ensures old(State()).Picks(filter, pick)
      ensures (State(), reply) == Do(old(State()), Claim(worker, ttl, filter, limit, now, later, pick))
    {
      hide Queue.Picks, DoClaim;
      leases := Unexpired(leases, now);
      pick := OldestPending(filter);
      if pick.None? {
        reply := NothingToClaim;
      } else {
        reply := GrantJob(pick.value, worker, ttl, limit, later);
      }
      ClaimOnceSwept(old(State()), worker, ttl, filter, limit, now, later, pick);
    }

    /** Claims one pending job, or fails it for good when its attempts are used up. */
    method GrantJob(k: nat, worker: nat, ttl: int, limit: Option<int>, later: int) returns (reply: Reply)
      requires k in jobs
      modifies this
      ensures (State(), reply) == Grant(old(State()), k, worker, ttl, limit, later)
    {
      var bound := if limit.Some? then limit.value else jobs[k].maxRetries;
      if jobs[k].attempts >= bound {
        jobs := jobs[k := jobs[k].(status := Failed)];
        return NothingToClaim;
      }
      var token := if k in fences then fences[k] + 1 else 1;
      jobs := jobs[k := jobs[k].(status := Running, attempts := jobs[k].attempts + 1)];
      fences := fences[k := token];
      var expiry := later + Max(1, ttl);
      leases := leases[k := Lease(worker, token, expiry)];
      reply := Granted(k, token, expiry);
    }

    method HeartbeatJob(key: nat, worker: nat, token: int, ttl: int, now: int) returns (reply: Reply)
      modifies this
      ensures (State(), reply) == Do(old(State()), Heartbeat(key, worker, token, ttl, now))
    {
      if key in leases && leases[key].owner == worker && leases[key].token == token && leases[key].expiresAt > now {
        leases := leases[key := leases[key].(expiresAt := now + Max(1, ttl))];
        return Accepted;
      }
      reply := Declined;
    }

    method CompleteJob(key: nat, worker: nat, token: int, body: Option<Body>, status: Status, now: int)
      returns (reply: Reply)
      modifies this
      ensures (State(), reply) == Do(old(State()), Complete(key, worker, token, body, status, now))
    {
      if key !in jobs {
        return Declined;
      }
      if !(key in leases && leases[key].owner == worker && leases[key].token == token && leases[key].expiresAt > now) {
        return Declined;
      }
      var job, before := jobs[key], jobs;
      jobs := jobs[key := job.(status := status)];
      if Nominates(job, body, status) {
        var c := body.value.candidate.value;
        if c !in candidates || candidates[c].context != job.context || body.value.digest != Some(candidates[c].digest) {
          jobs := before;  // rollback
          return Declined;
        }
        if c !in approvals {
          approvals := approvals[c := Approval(key, leases[key].token, candidates[c].digest, job.config.value, now)];
        }
      }
      leases := leases - {key};
      reply := Accepted;
    }

    method CompleteJobUnfenced(key: nat, status: Status) returns (reply: Reply)
      modifies this
      ensures (State(), reply) == Do(old(State()), CompleteUnfenced(key, status))
    {
      if key !in jobs {
        return Declined;
      }
      jobs := jobs[key := jobs[key].(status := status)];
      leases := leases - {key};
      reply := Accepted;
    }

    method CancelJob(key: nat, lease: Option<(nat, int)>, now: int) returns (reply: Reply)
      modifies this
      ensures (State(), reply) == Do(old(State()), Cancel(key, lease, now))
    {
      if key !in jobs || Terminal(jobs[key].status) {
        return Declined;
      }
      if lease.Some? {
        var owned := key in leases && leases[key].owner == lease.value.0 && leases[key].token == lease.value.1
                     && leases[key].expiresAt > now;
        if !owned {
          return Declined;
        }
      }
      jobs := jobs[key := jobs[key].(status := Cancelled)];
      leases := leases - {key};
      reply := Accepted;
    }

    /** The body of the reclaim loop, row by row. */
    method RequeueRows(rows: set<nat>)
      requires rows <= jobs.Keys
      modifies `jobs, `leases
      ensures State() == Requeue(old(State()), rows)
    {
      ghost var before := State();
      var rest := rows;
      RequeueNone(before);
      while rest != {}
        invariant rest <= rows <= before.jobs.Keys
        invariant State() == Requeue(before, rows - rest)
        decreases rest
      {
        var k :| k in rest;
        RequeueOneMore(before, rows - rest, k);
        assert rows - (rest - {k}) == rows - rest + {k};
        var status := if jobs[k].attempts >= jobs[k].maxRetries then Failed else Pending;
        jobs := jobs[k := jobs[k].(status := status)];
        leases := leases - {k};
        rest := rest - {k};
      }
      assert rows - rest == rows;
    }

    method ReclaimExpired(now: int) returns (reply: Reply)
      modifies this
      ensures (State(), reply) == Do(old(State()), Reclaim(now))
    {
      var rows := set k | k in jobs && jobs[k].status == Running && k in leases && leases[k].expiresAt <= now;
      assert rows == set k | k in jobs && State().Expired(k, now);
      RequeueRows(rows);
      reply := Reclaimed(|rows|);
    }

    method Append(c: nat, row: CandidateRow) returns (reply: Reply)
      modifies this
      ensures (State(), reply) == Do(old(State()), AppendCandidate(c, row))
    {
      if c in candidates {
        return Declined;
      }
      candidates := candidates[c := row];
      reply := Accepted;
    }
  }
}
