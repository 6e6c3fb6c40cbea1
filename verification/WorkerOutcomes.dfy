/** What a worker's attempt comes to: where it stops, and that it settles its job if it renews in time. */
module WorkerOutcomes {
  import opened Basics
  import opened JobQueue
  import opened QueueTheorems
  import opened QueueOutcomes
  import opened WorkerLoop

  // ---------------------------------------------------------------- where the watch stops

  /** The first n rounds, each with its renewal. */
  ghost function Rounds(me: Settings, k: nat, token: int, rounds: seq<Round>, n: nat): seq<Op>
    requires n <= |rounds|
  {
    if n == 0 then [] else
      Rounds(me, k, token, rounds, n - 1) + rounds[n - 1].writes
      + [Heartbeat(k, me.id, token, me.ttl, rounds[n - 1].now)]
  }

  /** What the worker meets in round i, after the others' operations. */
  ghost function Met(q: Queue, me: Settings, k: nat, token: int, rounds: seq<Round>, i: nat): Queue
    requires i < |rounds|
  {
    Run(q, Rounds(me, k, token, rounds, i) + rounds[i].writes)
  }

  ghost predicate CancelledAt(q: Queue, k: nat) {
    k in q.jobs && q.jobs[k].status == Cancelled
  }

  ghost predicate HoldsAt(q: Queue, me: Settings, k: nat, token: int, now: int) {
    k in q.leases && q.leases[k].owner == me.id && q.leases[k].token == token && q.leases[k].expiresAt > now
  }

  /** Round i is passed: the job is not cancelled and the lease still the worker's. */
  ghost predicate Passed(q: Queue, me: Settings, k: nat, token: int, rounds: seq<Round>, i: nat)
    requires i < |rounds|
  {
    var met := Met(q, me, k, token, rounds, i);
    !CancelledAt(met, k) && HoldsAt(met, me, k, token, rounds[i].now)
  }

  /** The watch goes through its rounds until one shows a cancellation, which ends it before the renewal, or refuses the
      renewal, which ends it after. */
  lemma {:induction false} WatchStopsAtFirst(q: Queue, me: Settings, k: nat, token: int, rounds: seq<Round>)
    returns (n: nat)
    ensures n <= |rounds| && forall i :: 0 <= i < n ==> Passed(q, me, k, token, rounds, i)
    ensures var (ops, watch) := Watching(q, me, k, token, rounds);
            if n == |rounds| then watch == Ready && ops == Rounds(me, k, token, rounds, n) else
              && !Passed(q, me, k, token, rounds, n)
              && if CancelledAt(Met(q, me, k, token, rounds, n), k)
                 then watch == CancelSeen && ops == Rounds(me, k, token, rounds, n) + rounds[n].writes
                 else watch == LeaseLost && ops == Rounds(me, k, token, rounds, n + 1)
  {
    if rounds == [] {
      n := 0;
    } else {
      var before := rounds[..|rounds| - 1];
      n := WatchStopsAtFirst(q, me, k, token, before);
      SameRoundsBefore(me, k, token, before, rounds, n);
      forall i | 0 <= i < |before|
        ensures Passed(q, me, k, token, before, i) == Passed(q, me, k, token, rounds, i)
        ensures Met(q, me, k, token, before, i) == Met(q, me, k, token, rounds, i)
      {
        SameRoundsBefore(me, k, token, before, rounds, i);
      }
      if n < |before| {
        SameRoundsBefore(me, k, token, before, rounds, n + 1);
      } else {
        hide Watching, Passed, Met;
        LastRound(q, me, k, token, rounds);
        if Passed(q, me, k, token, rounds, n) {
          n := |rounds|;
        }
      }
    }
  }

  /** The watch over all rounds, when it went through all but the last. */
  lemma LastRound(q: Queue, me: Settings, k: nat, token: int, rounds: seq<Round>)
    requires rounds != [] && Watching(q, me, k, token, rounds[..|rounds| - 1])
                             == (Rounds(me, k, token, rounds, |rounds| - 1), Ready)
    ensures var n := |rounds| - 1;
            var (ops, watch) := Watching(q, me, k, token, rounds);
            if Passed(q, me, k, token, rounds, n) then watch == Ready && ops == Rounds(me, k, token, rounds, n + 1)
            else if CancelledAt(Met(q, me, k, token, rounds, n), k)
            then watch == CancelSeen && ops == Rounds(me, k, token, rounds, n) + rounds[n].writes
            else watch == LeaseLost && ops == Rounds(me, k, token, rounds, n + 1)
  {
    hide Run;
  }

  lemma {:induction false} SameRoundsBefore(me: Settings, k: nat, token: int, before: seq<Round>, rounds: seq<Round>,
                                            i: nat)
    requires i <= |before| && before <= rounds
    ensures Rounds(me, k, token, before, i) == Rounds(me, k, token, rounds, i)
  {
    if i > 0 {
      SameRoundsBefore(me, k, token, before, rounds, i - 1);
    }
  }

  // ---------------------------------------------------------------- an attempt in time

  ghost function LeaseAfter(me: Settings, lease: Lease, rounds: seq<Round>): Lease {
    if rounds == [] then lease else Lease(me.id, lease.token, rounds[|rounds| - 1].now + Max(1, me.ttl))
  }

  ghost predicate AllSpare(ops: seq<Op>, k: nat, lease: Lease) {
    forall op :: op in ops ==> Spares(op, k, lease)
  }

  /** Every renewal comes before the lease runs out, and others only do what spares it. */
  ghost predicate Timely(me: Settings, k: nat, lease: Lease, rounds: seq<Round>) {
    forall i :: 0 <= i < |rounds| ==>
      var held := LeaseAfter(me, lease, rounds[..i]);
      AllSpare(rounds[i].writes, k, held) && rounds[i].now < held.expiresAt
  }

  lemma {:induction false} TimelyWatch(q: Queue, me: Settings, k: nat, lease: Lease, rounds: seq<Round>)
    requires HeldBy(q, k, lease) && lease.owner == me.id && Timely(me, k, lease, rounds)
    ensures var (ops, watch) := Watching(q, me, k, lease.token, rounds);
            watch == Ready && HeldBy(Run(q, ops), k, LeaseAfter(me, lease, rounds)) && Run(q, ops).jobs[k] == q.jobs[k]
  {
    if rounds != [] {
      var before, last := rounds[..|rounds| - 1], rounds[|rounds| - 1];
      forall i | 0 <= i < |before|
        ensures rounds[..i] == before[..i]
      {
      }
      TimelyWatch(q, me, k, lease, before);
      var ops := Watching(q, me, k, lease.token, before).0;
      hide Watching;
      assert rounds[..|before|] == before;
      RunSplit(q, ops, last.writes);
      LeaseLasts(Run(q, ops), last.writes, k, LeaseAfter(me, lease, before));
      WatchedOnce(q, me, k, lease.token, before, last);
      RenewedOnce(q, ops + last.writes, me, k, LeaseAfter(me, lease, before), last.now);
    }
  }

  lemma WatchedOnce(q: Queue, me: Settings, k: nat, token: int, before: seq<Round>, last: Round)
    requires Watching(q, me, k, token, before).1 == Ready
    ensures var seen := Watching(q, me, k, token, before).0 + last.writes;
            !CancelledAt(Run(q, seen), k) && Do(Run(q, seen), Renewal(me, k, token, last.now)).1 == Accepted ==>
              Watching(q, me, k, token, before + [last]) == (seen + [Renewal(me, k, token, last.now)], Ready)
  {
    assert (before + [last])[..|before|] == before;
  }

  lemma RenewedOnce(q: Queue, seen: seq<Op>, me: Settings, k: nat, lease: Lease, now: int)
    requires HeldBy(Run(q, seen), k, lease) && lease.owner == me.id && now < lease.expiresAt
    ensures var renewal := Renewal(me, k, lease.token, now);
            && Do(Run(q, seen), renewal).1 == Accepted
            && HeldBy(Run(q, seen + [renewal]), k, Lease(me.id, lease.token, now + Max(1, me.ttl)))
            && Run(q, seen + [renewal]).jobs[k] == Run(q, seen).jobs[k]
  {
    RunMore(q, seen, Renewal(me, k, lease.token, now));
  }

  /** The status that the attempt reports. */
  ghost function Reported(me: Settings, ending: Ending, attempts: nat): Status {
    match ending
    case Done(status, _) => status
    case Failing(transient, _) => if transient && attempts < me.retries then Pending else Failed
  }

  /** The report is made before the lease runs out, others spare it, and a candidate it speaks for is on record. */
  ghost predicate ReportsInTime(q: Queue, k: nat, lease: Lease, it: Iteration)
    requires k in q.jobs
  {
    && AllSpare(it.last, k, lease) && it.finishAt < lease.expiresAt && it.slip.None?
    && match it.ending
       case Done(status, body) =>
         forall c :: SpeaksFor(q.jobs[k], Some(body), status, c) ==> OnRecord(q, q.jobs[k], Some(body), c)
       case Failing(_, pause) => AllSpare(pause, k, lease)
  }

  /** An attempt that renews and reports in time settles its job with the status it reports, whatever other workers try
      meanwhile, and gives the lease back. */
  lemma TimelyAttemptSettles(q: Queue, me: Settings, k: nat, lease: Lease, it: Iteration)
    requires HeldBy(q, k, lease) && lease.owner == me.id && Timely(me, k, lease, it.rounds)
    requires ReportsInTime(q, k, LeaseAfter(me, lease, it.rounds), it)
    ensures var (ops, lost) := Attempt(q, me, k, lease.token, it);
            && !lost && k !in Run(q, ops).leases && k in Run(q, ops).jobs
            && Run(q, ops).jobs[k] == q.jobs[k].(status := Reported(me, it.ending, q.jobs[k].attempts))
            && (it.ending.Done? ==>
                  forall c :: SpeaksFor(q.jobs[k], Some(it.ending.body), it.ending.status, c) ==>
                    c in Run(q, ops).approvals)
  {
    hide Watching, Timely, Do, Report, Spares, OnRecord, SpeaksFor, LeaseAfter, Run;
    var held, watched := LeaseAfter(me, lease, it.rounds), Watching(q, me, k, lease.token, it.rounds).0;
    TimelyWatch(q, me, k, lease, it.rounds);
    RunKeepsCandidates(q, watched);
    RecordStays(q, Run(q, watched), k, it.ending);
    LeaseAfterIsMine(me, lease, it.rounds);
    TimelyReportSettles(Run(q, watched), me, k, held, it);
    var report := Report(Run(q, watched), me, k, lease.token, it);
    RunSplit(q, watched, report);
    assert watched + report + [] == watched + report;
  }

  lemma LeaseAfterIsMine(me: Settings, lease: Lease, rounds: seq<Round>)
    requires lease.owner == me.id
    ensures LeaseAfter(me, lease, rounds).owner == me.id && LeaseAfter(me, lease, rounds).token == lease.token
  {
  }

  ghost predicate Vouches(q: Queue, job: Job, ending: Ending) {
    ending.Done? ==>
      forall c :: SpeaksFor(job, Some(ending.body), ending.status, c) ==> OnRecord(q, job, Some(ending.body), c)
  }

  lemma RecordStays(q: Queue, at: Queue, k: nat, ending: Ending)
    requires k in q.jobs && k in at.jobs && at.jobs[k] == q.jobs[k] && Vouches(q, q.jobs[k], ending)
    requires forall c :: c in q.candidates ==> c in at.candidates && at.candidates[c] == q.candidates[c]
    ensures Vouches(at, at.jobs[k], ending)
  {
    hide SpeaksFor;
  }

  lemma TimelyReportSettles(q: Queue, me: Settings, k: nat, lease: Lease, it: Iteration)
    requires HeldBy(q, k, lease) && lease.owner == me.id && ReportsInTime(q, k, lease, it)
    ensures var r := Run(q, Report(q, me, k, lease.token, it));
            && k !in r.leases && k in r.jobs
            && r.jobs[k] == q.jobs[k].(status := Reported(me, it.ending, q.jobs[k].attempts))
            && (it.ending.Done? ==>
                  forall c :: SpeaksFor(q.jobs[k], Some(it.ending.body), it.ending.status, c) ==> c in r.approvals)
  {
    hide Do, Spares, OnRecord, SpeaksFor, Run;
    LeaseLasts(q, it.last, k, lease);
    RunKeepsCandidates(q, it.last);
    var at := Run(q, it.last);
    RecordStays(q, at, k, it.ending);
    match it.ending {
      case Done(status, body) =>
        var op := Complete(k, me.id, lease.token, Some(body), status, it.finishAt);
        CompletionMeans(at, op);
        RunMore(q, it.last, op);
      case Failing(transient, pause) =>
        LeaseLasts(at, pause, k, lease);
        var op := Complete(k, me.id, lease.token, None, Reported(me, it.ending, q.jobs[k].attempts), it.finishAt);
        NobodySpeaks(at.jobs[k], op.status);
        CompletionMeans(Run(at, pause), op);
        RunMore(at, pause, op);
        RunSplit(q, it.last, pause + [op]);
    }
  }

  lemma NobodySpeaks(job: Job, status: Status)
    ensures forall c :: !SpeaksFor(job, None, status, c)
  {
  }

  // ---------------------------------------------------------------- a pass

  /** The latest operation reports the job as failed under the worker's lease, for another attempt only if the
      failure may pass and attempts are left. */
  ghost predicate ReportsFailure(ops: seq<Op>, me: Settings, k: nat, token: int, transient: bool, now: int) {
    && ops != []
    && exists status :: ops[|ops| - 1] == Complete(k, me.id, token, None, status, now)
                        && (status == Failed || (status == Pending && transient))
  }

  /** However an attempt went, an exception is the last thing it reports, with its own classification; without one, an
      attempt that was stopped reports nothing, and one that was not reports what the optimizer's call came to. */
  lemma AttemptReports(q: Queue, me: Settings, k: nat, token: int, it: Iteration)
    ensures var ops := Attempt(q, me, k, token, it).0;
            var (watched, watch) := Watching(q, me, k, token, it.rounds);
            && (it.slip.Some? ==> ReportsFailure(ops, me, k, token, it.slip.value.transient, it.slip.value.now))
            && (it.slip.None? && watch != Ready ==> ops == watched)
            && (it.slip.None? && watch == Ready && it.ending.Done? ==>
                  ops == watched + it.last
                           + [Complete(k, me.id, token, Some(it.ending.body), it.ending.status, it.finishAt)])
            && (it.slip.None? && watch == Ready && it.ending.Failing? ==>
                  watched + it.last + it.ending.pause <= ops
                  && |ops| == |watched| + |it.last| + |it.ending.pause| + 1
                  && ReportsFailure(ops, me, k, token, it.ending.transient, it.finishAt))
            && (Attempt(q, me, k, token, it).1 <==> it.slip.None? && watch == LeaseLost)
  {
    hide Watching, Run;
  }

  /** A pass requeues what has expired before it claims, claims once for itself within its retries, and then deals with
      exactly the job it was granted. */
  lemma PassReclaimsThenClaims(q: Queue, me: Settings, it: Iteration) returns (rest: seq<Op>)
    ensures var pass := PassOf(q, me, it);
            var asked := it.before + [Reclaim(it.reclaimAt)] + it.between;
            var claim := Claim(me.id, me.ttl, None, Some(me.retries), it.claimAt, it.grantedAt, it.pick);
            var reply := Do(Run(q, asked), claim).1;
            && pass.ops == asked + [claim] + rest && (pass.granted <==> reply.Granted?)
            && (!pass.granted ==> rest == [])
            && (pass.granted ==>
                  (rest, pass.lost) == Attempt(Run(q, asked + [claim]), me, reply.key, reply.token, it))
  {
    hide Run, Do, Attempt;
    RunMore(q, Asking(it), Claiming(me, it));
    var pass, asked := PassOf(q, me, it), Asking(it) + [Claiming(me, it)];
    rest := pass.ops[|asked|..];
    assert pass.ops == asked + rest;
  }
}
