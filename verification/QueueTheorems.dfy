/** What fencing tokens and attempt counters guarantee over whole runs of the job queue,
    whatever the clock readings of the operations were. */
module QueueTheorems {
  import opened Basics
  import opened JobQueue

  const FRESH := Queue(map[], map[], map[], map[], map[])

  /** A lease names a running job and carries the last token issued for it. The converse is false:
      a claim sweeps expired leases without requeueing their jobs. */
  ghost predicate Wf(q: Queue) {
    && (forall k :: k in q.leases ==> k in q.jobs && q.jobs[k].status == Running
                                      && k in q.fences && q.leases[k].token == q.fences[k])
    && (forall c :: c in q.approvals ==> c in q.candidates)
  }

  lemma ClaimKeepsWf(q: Queue, worker: nat, ttl: int, limit: Option<int>, now: int, later: int, pick: Option<nat>)
    requires Wf(q) && (pick.Some? ==> pick.value in q.jobs && q.jobs[pick.value].status == Pending)
    ensures Wf(DoClaim(q, worker, ttl, limit, now, later, pick).0)
  {
  }

  lemma CompleteKeepsWf(q: Queue, key: nat, worker: nat, token: int, body: Option<Body>, status: Status, now: int)
    requires Wf(q)
    ensures Wf(DoComplete(q, key, worker, token, body, status, now).0)
  {
  }

  lemma StepKeepsWf(q: Queue, op: Op)
    requires Wf(q)
    ensures Wf(Do(q, op).0)
  {
    hide DoClaim, DoComplete;
    match op
    case Claim(worker, ttl, filter, limit, now, later, pick) =>
      if q.Picks(filter, pick) {
        ClaimKeepsWf(q, worker, ttl, limit, now, later, pick);
      }
    case Complete(key, worker, token, body, status, now) => CompleteKeepsWf(q, key, worker, token, body, status, now);
    case _ =>
  }

  lemma {:induction false} RunKeepsWf(q: Queue, ops: seq<Op>)
    requires Wf(q)
    ensures Wf(Run(q, ops))
  {
    if ops != [] {
      RunKeepsWf(q, ops[..|ops| - 1]);
      StepKeepsWf(Run(q, ops[..|ops| - 1]), ops[|ops| - 1]);
    }
  }

  lemma {:induction false} RunSplit(q: Queue, first: seq<Op>, second: seq<Op>)
    ensures Run(q, first + second) == Run(Run(q, first), second)
  {
    if second == [] {
      assert first + second == first;
    } else {
      assert (first + second)[..|first + second| - 1] == first + second[..|second| - 1];
      RunSplit(q, first, second[..|second| - 1]);
    }
  }

  lemma RunFrom(q: Queue, ops: seq<Op>, i: nat, j: nat)
    requires i < j <= |ops|
    ensures Run(q, ops[..j]) == Run(Do(Run(q, ops[..i]), ops[i]).0, ops[i + 1..j])
  {
    assert ops[..i + 1][..i] == ops[..i];
    assert ops[..j] == ops[..i + 1] + ops[i + 1..j];
    RunSplit(q, ops[..i + 1], ops[i + 1..j]);
  }

  // ---------------------------------------------------------------- fencing

  /** Token t of job k can never authorise anything again: it was issued, and no present or
      future lease of k can carry it. */
  ghost predicate Dead(q: Queue, k: nat, t: int) {
    k in q.fences && q.fences[k] >= t && (k in q.leases ==> q.leases[k].token > t)
  }

  ghost predicate Presents(op: Op, k: nat, t: int) {
    match op
    case Heartbeat(key, _, token, _, _) => key == k && token == t
    case Complete(key, _, token, _, _, _) => key == k && token == t
    case Cancel(key, lease, _) => key == k && lease.Some? && lease.value.1 == t
    case _ => false
  }

  lemma StepKeepsDead(q: Queue, op: Op, k: nat, t: int)
    requires Dead(q, k, t)
    ensures Dead(Do(q, op).0, k, t)
  {
  }

  lemma {:induction false} DeadStaysDead(q: Queue, ops: seq<Op>, k: nat, t: int)
    requires Dead(q, k, t)
    ensures Dead(Run(q, ops), k, t)
  {
    if ops != [] {
      DeadStaysDead(q, ops[..|ops| - 1], k, t);
      StepKeepsDead(Run(q, ops[..|ops| - 1]), ops[|ops| - 1], k, t);
    }
  }

  /** The operations that end the current attempt at job k. */
  ghost predicate Ends(q: Queue, op: Op, k: nat) {
    match op
    case Complete(key, _, _, _, _, _) => key == k && Do(q, op).1 == Accepted
    case CompleteUnfenced(key, _) => key == k && Do(q, op).1 == Accepted
    case Cancel(key, _, _) => key == k && Do(q, op).1 == Accepted
    case Reclaim(now) => q.Expired(k, now)
    case Claim(_, _, _, _, _, _, _) => Do(q, op).1.Granted? && Do(q, op).1.key == k
    case _ => false
  }

  lemma EndingKillsIssuedTokens(q: Queue, op: Op, k: nat, t: int)
    requires Wf(q) && Ends(q, op, k) && k in q.fences && t <= q.fences[k]
    ensures Dead(Do(q, op).0, k, t)
  {
    StepKeepsWf(q, op);
  }

  /** Stale worker exclusion. After a job is completed, cancelled, reclaimed or claimed again, every
      later heartbeat, completion, failure report or leased cancellation that presents a token issued
      before is declined and changes nothing, at any later point of any continuation. */
  lemma StaleWorkerExcluded(q: Queue, op: Op, later: seq<Op>, k: nat, t: int, i: nat)
    requires Wf(q) && Ends(q, op, k) && k in q.fences && t <= q.fences[k]
    requires i < |later| && Presents(later[i], k, t)
    ensures var at := Run(Do(q, op).0, later[..i]);
            Do(at, later[i]) == (at, Declined)
  {
    EndingKillsIssuedTokens(q, op, k, t);
    DeadStaysDead(Do(q, op).0, later[..i], k, t);
  }

  lemma StepKeepsFences(q: Queue, op: Op, k: nat)
    requires k in q.fences
    ensures k in Do(q, op).0.fences && q.fences[k] <= Do(q, op).0.fences[k]
  {
  }

  lemma GrantIssuesNextToken(q: Queue, op: Op)
    requires Do(q, op).1.Granted?
    ensures var (r, reply) := Do(q, op);
            && reply.token == q.NextToken(reply.key)
            && reply.key in r.fences && r.fences[reply.key] == reply.token
  {
  }

  lemma {:induction false} FencesNeverFall(q: Queue, ops: seq<Op>, k: nat)
    requires k in q.fences
    ensures k in Run(q, ops).fences && q.fences[k] <= Run(q, ops).fences[k]
  {
    if ops != [] {
      FencesNeverFall(q, ops[..|ops| - 1], k);
      StepKeepsFences(Run(q, ops[..|ops| - 1]), ops[|ops| - 1], k);
    }
  }

  /** Issued tokens strictly increase per job, across completion, cancellation, expiry, reclaim and
      forced re-enqueue; no well-formedness is needed. */
  lemma TokensIncrease(q: Queue, ops: seq<Op>, i: nat, j: nat)
    requires i < j < |ops|
    requires ReplyAt(q, ops, i).Granted? && ReplyAt(q, ops, j).Granted?
    requires ReplyAt(q, ops, i).key == ReplyAt(q, ops, j).key
    ensures ReplyAt(q, ops, i).token < ReplyAt(q, ops, j).token
  {
    RunFrom(q, ops, i, j);
    GrantIssuesNextToken(Run(q, ops[..i]), ops[i]);
    GrantIssuesNextToken(Run(q, ops[..j]), ops[j]);
    FencesNeverFall(Do(Run(q, ops[..i]), ops[i]).0, ops[i + 1..j], ReplyAt(q, ops, i).key);
  }

  ghost predicate CompletesAt(q: Queue, ops: seq<Op>, i: nat, k: nat, t: int)
    requires i < |ops|
  {
    ops[i].Complete? && ops[i].key == k && ops[i].token == t && ReplyAt(q, ops, i) == Accepted
  }

  /** A successful fenced completion holds an unexpired lease on the last token issued. */
  lemma CompletionUsesLatestToken(q: Queue, ops: seq<Op>, i: nat, k: nat, t: int)
    requires Wf(q) && i < |ops| && CompletesAt(q, ops, i, k, t)
    ensures var at := Run(q, ops[..i]);
            && k in at.leases && at.leases[k].expiresAt > ops[i].now
            && k in at.fences && at.fences[k] == t
            && at.jobs[k].status == Running
  {
    RunKeepsWf(q, ops[..i]);
  }

  /** Completions of one job happen in strictly increasing token order, so each token
      yields at most one, even when the clock runs backwards. */
  lemma CompletionsFollowTokenOrder(q: Queue, ops: seq<Op>, i: nat, j: nat, k: nat, t: int, u: int)
    requires Wf(q) && i < j < |ops|
    requires CompletesAt(q, ops, i, k, t) && CompletesAt(q, ops, j, k, u)
    ensures t < u
  {
    CompletionUsesLatestToken(q, ops, i, k, t);
    RunKeepsWf(q, ops[..i]);
    EndingKillsIssuedTokens(Run(q, ops[..i]), ops[i], k, t);
    RunFrom(q, ops, i, j);
    DeadStaysDead(Do(Run(q, ops[..i]), ops[i]).0, ops[i + 1..j], k, t);
  }

  /** An attempt is exclusive: between a claim and the successful completion with its token nothing ended it,
      so nobody else was granted, completed, cancelled or reclaimed the job. */
  lemma AttemptIsExclusive(q: Queue, ops: seq<Op>, j: nat, i: nat, k: nat)
    requires Wf(q) && j < i < |ops|
    requires ReplyAt(q, ops, j).Granted? && ReplyAt(q, ops, j).key == k
               && CompletesAt(q, ops, i, k, ReplyAt(q, ops, j).token)
    ensures forall m :: j < m < i ==> !Ends(Run(q, ops[..m]), ops[m], k)
  {
    var t := ReplyAt(q, ops, j).token;
    forall m | j < m < i && Ends(Run(q, ops[..m]), ops[m], k)
      ensures false
    {
      var at := Run(q, ops[..m]);
      RunKeepsWf(q, ops[..m]);
      GrantIssuesNextToken(Run(q, ops[..j]), ops[j]);
      RunFrom(q, ops, j, m);
      FencesNeverFall(Do(Run(q, ops[..j]), ops[j]).0, ops[j + 1..m], k);
      RunFrom(q, ops, m, i);
      EndingKillsIssuedTokens(at, ops[m], k, t);
      DeadStaysDead(Do(at, ops[m]).0, ops[m + 1..i], k, t);
    }
  }

  /** A forced enqueue replaces a job exactly when no lease row of any age refers to it: a live lease
      declines it, an expired one trips the foreign key, and neither changes anything. Success leaves
      the job pending without a lease, and never resets its fence counter. */
  lemma EnqueueOutcome(q: Queue, key: nat, context: nat, config: Option<nat>, maxRetries: int, force: bool, now: int)
    requires Wf(q)
    ensures var (r, reply) := Do(q, Enqueue(key, context, config, maxRetries, force, now));
            && (reply == Accepted <==> key !in q.jobs || (force && key !in q.leases))
            && (reply != Accepted ==> r == q)
            && (reply == Declined <==> key in q.jobs && (force ==> key in q.leases && q.leases[key].expiresAt > now))
            && (reply == ForeignKeyError <==>
                  key in q.jobs && force && key in q.leases && q.leases[key].expiresAt <= now)
            && (reply == Accepted ==>
                  && key in r.jobs && key !in r.leases
                  && var job := r.jobs[key];
                  && job.status == Pending && job.attempts == 0 && job.context == context && job.config == config
                  && job.createdAt == now && job.maxRetries == (if maxRetries < 0 then 0 else maxRetries)
                  && r == q.(jobs := q.jobs[key := job]))
            && r.fences == q.fences
  {
  }

  // ---------------------------------------------------------------- jobs without a lease

  /** A running job that no lease refers to; reclaiming looks only at jobs with a lease. */
  ghost predicate Stranded(q: Queue, k: nat) {
    k in q.jobs && q.jobs[k].status == Running && k !in q.leases
  }

  /** A claim strands exactly the running jobs whose lease has expired, whichever job it is for. */
  lemma ClaimStrandsExpired(q: Queue, op: Op, k: nat)
    requires Wf(q) && op.Claim? && q.Picks(op.filter, op.pick) && k in q.leases
    ensures Stranded(Do(q, op).0, k) <==> q.leases[k].expiresAt <= op.now
  {
  }

  /** Nothing but a forced enqueue, an unfenced completion or an unleased cancellation of the job itself
      ends that; in particular no reclaim does. */
  lemma StrandedStays(q: Queue, op: Op, k: nat)
    requires Stranded(q, k)
    ensures || Stranded(Do(q, op).0, k)
            || (op.Enqueue? && op.key == k && op.force)
            || (op.CompleteUnfenced? && op.key == k && op.status != Running)
            || (op.Cancel? && op.key == k && op.lease.None?)
  {
    hide DoComplete;
    if op.Complete? {
      assert !q.Holds(k, op.worker, op.token, op.now);
      CompleteConcernsOne(q, op.key, op.worker, op.token, op.body, op.status, op.now, k);
    }
  }

  lemma CompleteConcernsOne(q: Queue, key: nat, worker: nat, token: int, body: Option<Body>, status: Status, now: int,
                            k: nat)
    requires k != key || !q.Holds(key, worker, token, now)
    ensures var r := DoComplete(q, key, worker, token, body, status, now).0;
            && (k in r.jobs <==> k in q.jobs) && (k in q.jobs ==> r.jobs[k] == q.jobs[k])
            && (k in r.leases <==> k in q.leases)
  {
  }

  /** So a running job need not have a lease: one job, claimed and left to expire, is stranded by the next claim. */
  lemma RunningJobWithoutLease()
    ensures var ops := [Enqueue(0, 0, None, 2, false, 0), Claim(0, 1, None, None, 0, 0, Some(0)),
                        Claim(1, 1, None, None, 1, 1, None), Reclaim(2)];
            Stranded(Run(FRESH, ops), 0)
  {
    var a, b := Enqueue(0, 0, None, 2, false, 0), Claim(0, 1, None, None, 0, 0, Some(0));
    var c, d := Claim(1, 1, None, None, 1, 1, None), Reclaim(2);
    assert [a, b, c, d][..3] == [a, b, c] && [a, b, c][..2] == [a, b] && [a, b][..1] == [a] && [a][..0] == [];
    var q := Do(Do(FRESH, a).0, b).0;
    assert Run(FRESH, [a]) == Do(FRESH, a).0;
    assert Run(FRESH, [a, b]) == q;
    assert Wf(q) by {
      StepKeepsWf(FRESH, a);
      StepKeepsWf(Do(FRESH, a).0, b);
    }
    ClaimStrandsExpired(q, c, 0);
    StrandedStays(Do(q, c).0, d, 0);
    assert Run(FRESH, [a, b, c]) == Do(q, c).0;
  }

  // ---------------------------------------------------------------- bounded attempts

  ghost predicate LimitedTo(ops: seq<Op>, limit: nat) {
    forall i :: 0 <= i < |ops| && ops[i].Claim? ==> ops[i].limit == Some(limit as int)
  }

  ghost predicate Enqueues(q: Queue, ops: seq<Op>, i: nat)
    requires i < |ops|
  {
    ops[i].Enqueue? && ReplyAt(q, ops, i) == Accepted
  }

  ghost function Grants(q: Queue, ops: seq<Op>, k: nat): nat {
    if ops == [] then 0 else
      var reply := Do(Run(q, ops[..|ops| - 1]), ops[|ops| - 1]).1;
      Grants(q, ops[..|ops| - 1], k) + (if reply.Granted? && reply.key == k then 1 else 0)
  }

  lemma PrefixReplies(q: Queue, ops: seq<Op>)
    requires ops != []
    ensures forall i :: 0 <= i < |ops| - 1 ==> ReplyAt(q, ops[..|ops| - 1], i) == ReplyAt(q, ops, i)
  {
    forall i | 0 <= i < |ops| - 1
      ensures ReplyAt(q, ops[..|ops| - 1], i) == ReplyAt(q, ops, i)
    {
      assert ops[..|ops| - 1][..i] == ops[..i];
    }
  }

  lemma OneJobsAttempts(q: Queue, op: Op, k: nat, limit: nat)
    requires k in q.jobs && q.jobs[k].attempts <= limit && (op.Claim? ==> op.limit == Some(limit as int))
    requires !(op.Enqueue? && Do(q, op).1 == Accepted && op.key == k)
    ensures var (r, reply) := Do(q, op);
            && k in r.jobs && r.jobs[k].attempts <= limit
            && r.jobs[k].attempts == q.jobs[k].attempts + (if reply.Granted? && reply.key == k then 1 else 0)
  {
  }

  /** Between two enqueues of a job, its attempts are exactly its successful claims, and they
      never pass the claim limit, through failures, retries, reclaims and lost leases. */
  lemma {:induction false} AttemptsCountClaims(q: Queue, ops: seq<Op>, k: nat, limit: nat)
    requires k in q.jobs && q.jobs[k].attempts <= limit && LimitedTo(ops, limit)
    requires forall i :: 0 <= i < |ops| && Enqueues(q, ops, i) ==> ops[i].key != k
    ensures var r := Run(q, ops);
            k in r.jobs && r.jobs[k].attempts == q.jobs[k].attempts + Grants(q, ops, k) <= limit
  {
    hide Do;
    if ops != [] {
      PrefixReplies(q, ops);
      assert !Enqueues(q, ops, |ops| - 1) || ops[|ops| - 1].key != k;
      var before := ops[..|ops| - 1];
      assert forall i :: 0 <= i < |before| ==> before[i] == ops[i];
      assert forall i :: 0 <= i < |before| && Enqueues(q, before, i) ==> Enqueues(q, ops, i);
      AttemptsCountClaims(q, before, k, limit);
      OneJobsAttempts(Run(q, before), ops[|ops| - 1], k, limit);
    }
  }

  ghost function Remaining(q: Queue, limit: nat): map<nat, int> {
    map k | k in q.jobs :: limit - q.jobs[k].attempts
  }

  /** All successful claims of a run, of any job. */
  ghost function AllGrants(q: Queue, ops: seq<Op>): nat {
    if ops == [] then 0 else
      AllGrants(q, ops[..|ops| - 1]) + (if Do(Run(q, ops[..|ops| - 1]), ops[|ops| - 1]).1.Granted? then 1 else 0)
  }

  ghost predicate WithinLimit(q: Queue, limit: nat) {
    forall k :: k in q.jobs ==> q.jobs[k].attempts <= limit
  }

  /** How one operation moves the attempt counters. */
  lemma StepAttempts(q: Queue, op: Op, limit: nat)
    requires WithinLimit(q, limit) && (op.Claim? ==> op.limit == Some(limit as int))
    requires !(op.Enqueue? && Do(q, op).1 == Accepted)
    ensures var (r, reply) := Do(q, op);
            && WithinLimit(r, limit) && r.jobs.Keys == q.jobs.Keys
            && (reply.Granted? ==> reply.key in q.jobs)
            && forall k :: k in q.jobs ==>
                 r.jobs[k].attempts == q.jobs[k].attempts + (if reply.Granted? && reply.key == k then 1 else 0)
  {
    hide DoClaim, DoComplete;
    match op
    case Claim(worker, ttl, filter, limit, now, later, pick) =>
      if q.Picks(filter, pick) {
        ClaimAttempts(q, worker, ttl, limit, now, later, pick);
      }
    case Complete(key, worker, token, body, status, now) =>
      CompleteKeepsAttempts(q, key, worker, token, body, status, now);
    case _ =>
  }

  lemma ClaimAttempts(q: Queue, worker: nat, ttl: int, limit: Option<int>, now: int, later: int, pick: Option<nat>)
    requires pick.Some? ==> pick.value in q.jobs
    ensures var (r, reply) := DoClaim(q, worker, ttl, limit, now, later, pick);
            && r.jobs.Keys == q.jobs.Keys && (reply.Granted? ==> Some(reply.key) == pick)
            && (reply.Granted? && limit.Some? ==> q.jobs[reply.key].attempts < limit.value)
            && forall k :: k in q.jobs ==>
                 r.jobs[k].attempts == q.jobs[k].attempts + (if reply.Granted? && reply.key == k then 1 else 0)
  {
  }

  lemma CompleteKeepsAttempts(q: Queue, key: nat, worker: nat, token: int, body: Option<Body>, status: Status, now: int)
    ensures var (r, reply) := DoComplete(q, key, worker, token, body, status, now);
            && r.jobs.Keys == q.jobs.Keys && !reply.Granted?
            && forall k :: k in q.jobs ==> r.jobs[k].attempts == q.jobs[k].attempts
  {
  }

  lemma StepSpendsBudget(q: Queue, op: Op, limit: nat)
    requires WithinLimit(q, limit) && (op.Claim? ==> op.limit == Some(limit as int))
    requires !(op.Enqueue? && Do(q, op).1 == Accepted)
    ensures var (r, reply) := Do(q, op);
            && WithinLimit(r, limit)
            && Total(Remaining(r, limit)) == Total(Remaining(q, limit)) - (if reply.Granted? then 1 else 0)
  {
    hide Do, WithinLimit, Total;
    var (r, reply) := Do(q, op);
    StepAttempts(q, op, limit);
    if reply.Granted? {
      var k := reply.key;
      assert Remaining(r, limit) == Remaining(q, limit)[k := Remaining(q, limit)[k] - 1];
      TotalUpdate(Remaining(q, limit), k, Remaining(q, limit)[k] - 1);
    } else {
      assert Remaining(r, limit) == Remaining(q, limit);
    }
  }

  lemma {:induction false} NonNegativeTotal(m: map<nat, int>)
    requires forall k :: k in m ==> m[k] >= 0
    ensures Total(m) >= 0
    decreases |m|
  {
    if |m| > 0 {
      NonNegativeTotal(m - {AnyKey(m)});
    }
  }

  /** With no new enqueues, every claim is paid for out of the attempts that were left, so the
      number of claims a run can still make is bounded by their sum. */
  lemma {:induction false} ClaimsAreBounded(q: Queue, ops: seq<Op>, limit: nat)
    requires WithinLimit(q, limit) && LimitedTo(ops, limit)
    requires forall i :: 0 <= i < |ops| ==> !Enqueues(q, ops, i)
    ensures WithinLimit(Run(q, ops), limit)
    ensures Total(Remaining(Run(q, ops), limit)) == Total(Remaining(q, limit)) - AllGrants(q, ops)
    ensures AllGrants(q, ops) <= Total(Remaining(q, limit))
  {
    hide Do;
    if ops != [] {
      PrefixReplies(q, ops);
      assert !Enqueues(q, ops, |ops| - 1);
      var before := ops[..|ops| - 1];
      forall i | 0 <= i < |before|
        ensures !Enqueues(q, before, i)
      {
        assert !Enqueues(q, ops, i);
      }
      ClaimsAreBounded(q, before, limit);
      StepSpendsBudget(Run(q, ops[..|ops| - 1]), ops[|ops| - 1], limit);
    }
    NonNegativeTotal(Remaining(Run(q, ops), limit));
  }
}
