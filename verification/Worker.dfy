/** A worker process as the queue operations it performs, with other processes acting between any two of
    them. Its loop is proved to be a run of the queue, so what holds of runs holds of it. */
module Worker {
  import opened Basics
  import opened JobQueue
  import opened QueueTheorems
  import opened WorkerLoop

  /** Operation i was made under the worker's own latest claim, operation j. */
  ghost predicate Under(q: Queue, ops: seq<Op>, mine: set<nat>, j: nat, i: nat, key: nat, token: int)
    requires i <= |ops|
  {
    && j in mine && j < i
    && ReplyAt(q, ops, j).Granted? && ReplyAt(q, ops, j).key == key && ReplyAt(q, ops, j).token == token
    && forall m :: m in mine && j < m < i ==> !ops[m].Claim?
  }

  /** Whatever the worker does to a job, it does under its latest claim, with the token that was granted. */
  ghost predicate Disciplined(q: Queue, ops: seq<Op>, mine: set<nat>) {
    && (forall i :: i in mine ==>
         i < |ops| && (ops[i].Claim? || ops[i].Reclaim? || ops[i].Heartbeat? || ops[i].Complete?))
    && (forall i :: i in mine && (ops[i].Heartbeat? || ops[i].Complete?) ==>
          exists j :: Under(q, ops, mine, j, i, ops[i].key, ops[i].token))
  }

  /** The worker's claims that were granted a job. */
  ghost function OwnGrants(q: Queue, ops: seq<Op>, mine: set<nat>): set<nat> {
    set i | i in mine && i < |ops| && ReplyAt(q, ops, i).Granted?
  }

  /** The worker's claims, granted or not. */
  ghost function OwnClaims(ops: seq<Op>, mine: set<nat>): set<nat> {
    set i | i in mine && i < |ops| && ops[i].Claim?
  }

  lemma GrantsArePast(q: Queue, ops: seq<Op>, mine: set<nat>)
    ensures forall i :: i in OwnGrants(q, ops, mine) || i in OwnClaims(ops, mine) ==> i < |ops|
  {
  }

  lemma OnlyClaimsGrant(q: Queue, op: Op)
    ensures Do(q, op).1.Granted? ==> op.Claim?
  {
  }

  /** The operations at these positions renew the lease of one job. */
  ghost predicate OnlyRenews(ops: seq<Op>, own: set<nat>, key: nat, token: int) {
    forall i :: i in own ==> i < |ops| && ops[i].Heartbeat? && ops[i].key == key && ops[i].token == token
  }

  lemma NothingYet(ops: seq<Op>, key: nat, token: int)
    ensures OnlyRenews(ops, {}, key, token)
  {
  }

  lemma StillOnlyRenews(ops: seq<Op>, more: seq<Op>, own: set<nat>, next: set<nat>, key: nat, token: int)
    requires ops <= more && OnlyRenews(ops, own, key, token)
    requires forall i :: i in next ==>
               i == |ops| < |more| && more[i].Heartbeat? && more[i].key == key && more[i].token == token
    ensures OnlyRenews(more, own + next, key, token)
  {
  }

  lemma OneMore(q: Queue, ops: seq<Op>, op: Op)
    ensures Run(q, ops + [op]) == Do(Run(q, ops), op).0
    ensures forall i :: 0 <= i < |ops| ==> ReplyAt(q, ops + [op], i) == ReplyAt(q, ops, i)
    ensures ReplyAt(q, ops + [op], |ops|) == Do(Run(q, ops), op).1
  {
    assert (ops + [op])[..|ops|] == ops;
    forall i | 0 <= i < |ops|
      ensures ReplyAt(q, ops + [op], i) == ReplyAt(q, ops, i)
    {
      assert (ops + [op])[..i] == ops[..i];
    }
  }

  lemma OthersKeepDiscipline(q: Queue, ops: seq<Op>, mine: set<nat>, op: Op)
    requires Disciplined(q, ops, mine)
    ensures Disciplined(q, ops + [op], mine)
    ensures forall j, key, token :: Under(q, ops, mine, j, |ops|, key, token) ==>
              Under(q, ops + [op], mine, j, |ops| + 1, key, token)
    ensures OwnGrants(q, ops + [op], mine) == OwnGrants(q, ops, mine)
    ensures OwnClaims(ops + [op], mine) == OwnClaims(ops, mine)
  {
    hide Run, ReplyAt;
    var more := ops + [op];
    OneMore(q, ops, op);
    forall i | i in mine && (more[i].Heartbeat? || more[i].Complete?)
      ensures exists j :: Under(q, more, mine, j, i, more[i].key, more[i].token)
    {
      var j :| Under(q, ops, mine, j, i, ops[i].key, ops[i].token);
      assert Under(q, more, mine, j, i, more[i].key, more[i].token);
    }
  }

  /** The worker's own next operation, under its latest claim. */
  lemma OwnKeepsDiscipline(q: Queue, ops: seq<Op>, mine: set<nat>, op: Op, j: nat)
    requires Disciplined(q, ops, mine) && (op.Heartbeat? || op.Complete?)
    requires Under(q, ops, mine, j, |ops|, op.key, op.token)
    ensures Disciplined(q, ops + [op], mine + {|ops|})
    ensures Under(q, ops + [op], mine + {|ops|}, j, |ops| + 1, op.key, op.token)
    ensures OwnGrants(q, ops + [op], mine + {|ops|}) == OwnGrants(q, ops, mine)
    ensures OwnClaims(ops + [op], mine + {|ops|}) == OwnClaims(ops, mine)
  {
    hide Run, ReplyAt, Do;
    var more, ours := ops + [op], mine + {|ops|};
    OneMore(q, ops, op);
    OnlyClaimsGrant(Run(q, ops), op);
    forall i | i in ours && (more[i].Heartbeat? || more[i].Complete?)
      ensures exists k :: Under(q, more, ours, k, i, more[i].key, more[i].token)
    {
      if i < |ops| {
        var k :| Under(q, ops, mine, k, i, ops[i].key, ops[i].token);
        assert Under(q, more, ours, k, i, more[i].key, more[i].token);
      } else {
        assert Under(q, more, ours, j, i, op.key, op.token);
      }
    }
  }

  lemma ClaimKeepsDiscipline(q: Queue, ops: seq<Op>, mine: set<nat>, op: Op)
    requires Disciplined(q, ops, mine) && (op.Claim? || op.Reclaim?)
    ensures Disciplined(q, ops + [op], mine + {|ops|})
    ensures var reply := Do(Run(q, ops), op).1;
            && (reply.Granted? ==> Under(q, ops + [op], mine + {|ops|}, |ops|, |ops| + 1, reply.key, reply.token))
            && OwnGrants(q, ops + [op], mine + {|ops|})
                 == OwnGrants(q, ops, mine) + (if reply.Granted? then {|ops|} else {})
            && OwnClaims(ops + [op], mine + {|ops|}) == OwnClaims(ops, mine) + (if op.Claim? then {|ops|} else {})
  {
    hide Run, ReplyAt, Do;
    var more, ours := ops + [op], mine + {|ops|};
    OneMore(q, ops, op);
    forall i | i in ours && (more[i].Heartbeat? || more[i].Complete?)
      ensures exists k :: Under(q, more, ours, k, i, more[i].key, more[i].token)
    {
      var k :| Under(q, ops, mine, k, i, ops[i].key, ops[i].token);
      assert Under(q, more, ours, k, i, more[i].key, more[i].token);
    }
  }

  /** No work is credited twice or to the wrong attempt: when the worker's completion is accepted, the job was its
      own, uninterrupted, from the claim it works under until then. */
  lemma AcceptedWorkWasExclusive(q: Queue, ops: seq<Op>, mine: set<nat>, i: nat)
    requires Wf(q) && Disciplined(q, ops, mine) && i in mine && ops[i].Complete? && ReplyAt(q, ops, i) == Accepted
    ensures exists j: nat :: Under(q, ops, mine, j, i, ops[i].key, ops[i].token)
                             && forall m :: j < m < i ==> !Ends(Run(q, ops[..m]), ops[m], ops[i].key)
  {
    var j :| Under(q, ops, mine, j, i, ops[i].key, ops[i].token);
    AttemptIsExclusive(q, ops, j, i, ops[i].key);
  }

  // ---------------------------------------------------------------- how a course unfolds

  lemma NoRounds(q: Queue, me: Settings, key: nat, token: int, rounds: seq<Round>)
    ensures Watching(q, me, key, token, []) == ([], Ready) && SameRounds(rounds[..0], []) && Run(q, []) == q
  {
  }

  lemma OneMoreRound(rounds: seq<Round>, i: nat, seen: seq<Round>, r: Round)
    requires i < |rounds| && SameRounds(rounds[..i], seen)
    requires r.now == rounds[i].now && Alike(rounds[i].writes, r.writes)
    ensures SameRounds(rounds[..i + 1], seen + [r]) && SameRounds(rounds, seen + [r] + rounds[i + 1..])
  {
    hide Alike;
    var all := seen + [r] + rounds[i + 1..];
    forall k | 0 <= k < |rounds|
      ensures all[k].now == rounds[k].now && Alike(rounds[k].writes, all[k].writes)
    {
      AlikeItself(rounds[k].writes);
      assert k < i ==> seen[k] == all[k] && rounds[..i][k] == rounds[k];
    }
  }

  lemma AlikeItself(ops: seq<Op>)
    ensures Alike(ops, ops)
  {
  }

  lemma SameItself(it: Iteration)
    ensures Alike(it.last, it.last) && SameEnding(it.ending, it.ending) && SameSlip(it.slip, it.slip)
            && SameRounds(it.rounds, it.rounds) && Same(it, it)
  {
  }

  lemma PollIs(q: Queue, me: Settings, key: nat, token: int, seen: seq<Round>, writes: seq<Op>, now: int)
    requires Watching(q, me, key, token, seen).1 == Ready
    ensures var ops := Watching(q, me, key, token, seen).0 + writes;
            var at, renewal := Run(q, ops), Renewal(me, key, token, now);
            Watching(q, me, key, token, seen + [Round(writes, now)])
              == if key in at.jobs && at.jobs[key].status == Cancelled then (ops, CancelSeen)
                 else (ops + [renewal], if Do(at, renewal).1 == Accepted then Ready else LeaseLost)
  {
    assert (seen + [Round(writes, now)])[..|seen|] == seen;
  }

  /** An attempt does not depend on what preceded it in its pass. */
  lemma SameAttempt(q: Queue, me: Settings, key: nat, token: int, a: Iteration, b: Iteration)
    requires a == b.(before := a.before, between := a.between, pick := a.pick)
    ensures Attempt(q, me, key, token, a) == Attempt(q, me, key, token, b)
  {
  }

  lemma SameReport(q: Queue, me: Settings, key: nat, token: int, a: Iteration, b: Iteration)
    requires a == b.(rounds := a.rounds, slip := a.slip)
    ensures Report(q, me, key, token, a) == Report(q, me, key, token, b)
  {
  }

  lemma AskedIs(q: Queue, before: seq<Op>, reclaimAt: int, between: seq<Op>)
    ensures Run(Do(Run(q, before), Reclaim(reclaimAt)).0, between) == Run(q, before + [Reclaim(reclaimAt)] + between)
  {
    OneMore(q, before, Reclaim(reclaimAt));
    RunSplit(q, before + [Reclaim(reclaimAt)], between);
  }

  lemma NoPasses(q: Queue, me: Settings, once: bool)
    ensures Loop(q, me, [], once) == Course([], 0, 0, 0, false) && Run(q, []) == q
  {
  }

  lemma OnePassMore(q: Queue, me: Settings, made: seq<Iteration>, it: Iteration, once: bool)
    requires !Loop(q, me, made, once).over
    ensures var before := Loop(q, me, made, once);
            var pass := PassOf(Run(q, before.ops), me, it);
            Loop(q, me, made + [it], once)
              == Course(before.ops + pass.ops, before.passes + 1, before.claims + (if pass.granted then 1 else 0),
                        before.losses + (if pass.lost then 1 else 0), once && !pass.lost)
  {
    assert (made + [it])[..|made|] == made;
  }

  lemma LoopStopsAt(q: Queue, me: Settings, made: seq<Iteration>, rest: seq<Iteration>)
    requires Loop(q, me, made, true).over
    ensures Loop(q, me, made + rest, true) == Loop(q, me, made, true)
    ensures forall it :: it in rest ==> Same(it, it)
  {
    hide Loop, Same;
    assert (made + rest)[..|made|] == made;
    LoopStops(q, me, made + rest, true, |made|);
    forall it | it in rest
      ensures Same(it, it)
    {
      SameItself(it);
    }
  }

  // ---------------------------------------------------------------- the code

  class QueueWorker {
    const store: JobStore
    const id: nat
    const ttl: int
    const retries: int
    ghost const start: Queue
    ghost var trace: seq<Op>
    ghost var mine: set<nat>

    constructor (store: JobStore, id: nat, ttl: int, retries: int)
      ensures this.store == store && Valid() && trace == [] && mine == {} && start == store.State()
    {
      this.store, this.id, this.ttl, this.retries := store, id, ttl, retries;
      start, trace, mine := store.State(), [], {};
    }

    /** What happened so far is a run of the queue, in which the worker kept its discipline. */
    ghost predicate Valid()
      reads this, store
    {
      store.State() == Run(start, trace) && Disciplined(start, trace, mine)
    }

    /** Its claims so far, and those of them that were granted a job. */
    ghost function Tally(): (set<nat>, set<nat>)
      reads this
    {
      (OwnClaims(trace, mine), OwnGrants(start, trace, mine))
    }

    /** The worker holds what its claim j granted. */
    ghost predicate Working(j: nat, key: nat, token: int)
      reads this, store
    {
      Valid() && Under(start, trace, mine, j, |trace|, key, token)
    }

    function Me(): Settings {
      Settings(id, ttl, retries)
    }

    /** One operation of any other process. */
    method Perform(op: Op) returns (ghost done: Op)
      requires Valid()
      modifies store, `trace
      ensures Valid() && trace == old(trace) + [done] && Rechosen(op, done) && Tally() == old(Tally())
      ensures store.State() == Do(old(store.State()), done).0
      ensures forall j, key, token :: old(Working(j, key, token)) ==> Working(j, key, token)
    {
      hide Run, Do, Disciplined, Under, OwnGrants, OwnClaims;
      done := op;
      match op {
        case Enqueue(key, context, config, maxRetries, force, now) =>
          var _ := store.EnqueueJob(key, context, config, maxRetries, force, now);
        case Claim(worker, lease, filter, limit, now, later, _) =>
          var _, pick := store.ClaimJob(worker, lease, filter, limit, now, later);
          done := op.(pick := pick);
        case Heartbeat(key, worker, token, lease, now) => var _ := store.HeartbeatJob(key, worker, token, lease, now);
        case Complete(key, worker, token, body, status, now) =>
          var _ := store.CompleteJob(key, worker, token, body, status, now);
        case CompleteUnfenced(key, status) => var _ := store.CompleteJobUnfenced(key, status);
        case Cancel(key, lease, now) => var _ := store.CancelJob(key, lease, now);
        case Reclaim(now) => var _ := store.ReclaimExpired(now);
        case AppendCandidate(c, row) => var _ := store.Append(c, row);
      }
      OneMore(start, trace, done);
      OthersKeepDiscipline(start, trace, mine, done);
      trace := trace + [done];
    }

    method Others(ops: seq<Op>) returns (ghost done: seq<Op>)
      requires Valid()
      modifies store, `trace
      ensures Valid() && trace == old(trace) + done && Alike(ops, done) && Tally() == old(Tally())
      ensures store.State() == Run(old(store.State()), done)
      ensures forall j, key, token :: old(Working(j, key, token)) ==> Working(j, key, token)
    {
      hide Valid, Working, Tally, Do;
      done := [];
      for i := 0 to |ops|
        invariant Valid() && trace == old(trace) + done && Alike(ops[..i], done) && Tally() == old(Tally())
        invariant store.State() == Run(old(store.State()), done)
        invariant forall j, key, token :: old(Working(j, key, token)) ==> Working(j, key, token)
      {
        ghost var next := Perform(ops[i]);
        assert (done + [next])[..|done|] == done;
        done := done + [next];
      }
      assert ops[..|ops|] == ops;
    }

    method Reclaim(now: int)
      requires Valid()
      modifies store, `trace, `mine
      ensures Valid() && trace == old(trace) + [Op.Reclaim(now)] && Tally() == old(Tally())
      ensures store.State() == Do(old(store.State()), Op.Reclaim(now)).0
    {
      hide Run, Do, Disciplined, OwnGrants, OwnClaims;
      OnlyClaimsGrant(store.State(), Op.Reclaim(now));
      var _ := store.ReclaimExpired(now);
      OneMore(start, trace, Op.Reclaim(now));
      ClaimKeepsDiscipline(start, trace, mine, Op.Reclaim(now));
      assert OwnClaims(trace, mine) + {} == OwnClaims(trace, mine)
             && OwnGrants(start, trace, mine) + {} == OwnGrants(start, trace, mine);
      mine, trace := mine + {|trace|}, trace + [Op.Reclaim(now)];
    }

    method Claim(now: int, later: int) returns (reply: Reply, ghost pick: Option<nat>, ghost j: nat)
      requires Valid()
      modifies store, `trace, `mine
      ensures Valid() && j == |old(trace)|
      ensures trace == old(trace) + [Op.Claim(id, ttl, None, Some(retries), now, later, pick)]
      ensures (store.State(), reply)
           == Do(old(store.State()), Op.Claim(id, ttl, None, Some(retries), now, later, pick))
      ensures reply.Granted? ==> Working(j, reply.key, reply.token)
      ensures Tally() == (old(Tally()).0 + {j}, old(Tally()).1 + (if reply.Granted? then {j} else {}))
      ensures forall i :: i in old(Tally()).0 || i in old(Tally()).1 ==> i < j
    {
      hide Run, Do, Disciplined, Under, OwnGrants, OwnClaims;
      j := |trace|;
      var chosen;
      reply, chosen := store.ClaimJob(id, ttl, None, Some(retries), now, later);
      pick := chosen;
      ghost var op := Op.Claim(id, ttl, None, Some(retries), now, later, pick);
      OneMore(start, trace, op);
      ClaimKeepsDiscipline(start, trace, mine, op);
      GrantsArePast(start, trace, mine);
      mine, trace := mine + {|trace|}, trace + [op];
    }

    method Heartbeat(key: nat, token: int, now: int, ghost j: nat) returns (renewed: bool)
      requires Working(j, key, token)
      modifies store, `trace, `mine
      ensures Working(j, key, token) && Tally() == old(Tally())
      ensures trace == old(trace) + [Renewal(Me(), key, token, now)] && mine == old(mine) + {|old(trace)|}
      ensures store.State() == Do(old(store.State()), Renewal(Me(), key, token, now)).0
      ensures renewed <==> Do(old(store.State()), Renewal(Me(), key, token, now)).1 == Accepted
    {
      hide Run, Do, Disciplined, Under, OwnGrants, OwnClaims;
      var reply := store.HeartbeatJob(key, id, token, ttl, now);
      ghost var op := Op.Heartbeat(key, id, token, ttl, now);
      OneMore(start, trace, op);
      OwnKeepsDiscipline(start, trace, mine, op, j);
      mine, trace := mine + {|trace|}, trace + [op];
      renewed := reply == Accepted;
    }

    method Complete(key: nat, token: int, body: Option<Body>, status: Status, now: int, ghost j: nat)
      returns (applied: bool)
      requires Working(j, key, token)
      modifies store, `trace, `mine
      ensures Working(j, key, token) && Tally() == old(Tally())
      ensures trace == old(trace) + [Op.Complete(key, id, token, body, status, now)]
                && mine == old(mine) + {|old(trace)|}
      ensures store.State() == Do(old(store.State()), Op.Complete(key, id, token, body, status, now)).0
      ensures applied <==> Do(old(store.State()), Op.Complete(key, id, token, body, status, now)).1 == Accepted
    {
      hide Run, Do, Disciplined, Under, OwnGrants, OwnClaims;
      var reply := store.CompleteJob(key, id, token, body, status, now);
      ghost var op := Op.Complete(key, id, token, body, status, now);
      OneMore(start, trace, op);
      OwnKeepsDiscipline(start, trace, mine, op, j);
      mine, trace := mine + {|trace|}, trace + [op];
      applied := reply == Accepted;
    }

    /** queue.fail: the attempts are read first, and others may act before the fenced completion. */
    method Fail(key: nat, token: int, transient: bool, pause: seq<Op>, now: int, ghost j: nat)
      returns (status: Status, ghost paused: seq<Op>)
      requires Working(j, key, token)
      modifies store, `trace, `mine
      ensures Working(j, key, token) && Tally() == old(Tally()) && Alike(pause, paused)
      ensures trace == old(trace) + Failure(old(store.State()), Me(), key, token, transient, paused, now)
      ensures store.State()
           == Run(old(store.State()), Failure(old(store.State()), Me(), key, token, transient, paused, now))
      ensures |trace| > 0 && trace[|trace| - 1] == Op.Complete(key, id, token, None, status, now)
                && mine == old(mine) + {|trace| - 1}
      ensures status in {Pending, Failed} && (status == Pending ==> transient)
      ensures key in old(store.jobs) ==>
                (status == Pending <==> transient && old(store.jobs)[key].attempts < Max(0, retries))
    {
      hide Run, Do, Disciplined, Under, OwnGrants, OwnClaims;
      var attempts := if key in store.jobs then store.jobs[key].attempts else 0;
      status := if transient && attempts < Max(0, retries) then Pending else Failed;
      paused := Others(pause);
      var _ := Complete(key, token, None, status, now, j);
      OneMore(old(store.State()), paused, Op.Complete(key, id, token, None, status, now));
    }

    /** _execute_job: while the optimizer runs, stop on a cancellation or on a refused heartbeat. */
    method Execute(key: nat, token: int, rounds: seq<Round>, ghost j: nat)
      returns (watch: Watch, ghost made: seq<Round>)
      requires Working(j, key, token)
      modifies store, `trace, `mine
      ensures Working(j, key, token) && Tally() == old(Tally()) && SameRounds(rounds, made)
      ensures OnlyRenews(trace, mine - old(mine), key, token)
      ensures var (ops, seen) := Watching(old(store.State()), Me(), key, token, made);
              watch == seen && trace == old(trace) + ops && store.State() == Run(old(store.State()), ops)
    {
      hide Run, Do, Disciplined, Under, OwnGrants, OwnClaims, OnlyRenews, SameRounds, Watching;
      ghost var q, ops := store.State(), [];
      watch, made := Ready, [];
      NothingYet(trace, key, token);
      assert mine - mine == {};
      NoRounds(q, Me(), key, token, rounds);
      for i := 0 to |rounds|
        invariant Working(j, key, token) && trace == old(trace) + ops && Tally() == old(Tally())
        invariant OnlyRenews(trace, mine - old(mine), key, token)
        invariant SameRounds(rounds[..i], made) && Watching(q, Me(), key, token, made) == (ops, Ready)
        invariant store.State() == Run(q, ops) && watch == Ready
      {
        ghost var before, own, seen := trace, mine - old(mine), made;
        ghost var writes := Others(rounds[i].writes);
        made := seen + [Round(writes, rounds[i].now)];
        OneMoreRound(rounds, i, seen, Round(writes, rounds[i].now));
        RunSplit(q, ops, writes);
        PollIs(q, Me(), key, token, seen, writes, rounds[i].now);
        ops := ops + writes;
        StillOnlyRenews(before, trace, own, {}, key, token);
        assert own + {} == own;
        if key in store.jobs && store.jobs[key].status == Cancelled {
          WatchingStops(q, Me(), key, token, made, rounds[i + 1..]);
          made := made + rounds[i + 1..];
          return CancelSeen, made;
        }
        before := trace;
        var renewed := Heartbeat(key, token, rounds[i].now, j);
        OneMore(q, ops, Renewal(Me(), key, token, rounds[i].now));
        ops := ops + [Renewal(Me(), key, token, rounds[i].now)];
        StillOnlyRenews(before, trace, own, (mine - old(mine)) - own, key, token);
        assert own + ((mine - old(mine)) - own) == mine - old(mine);
        if !renewed {
          WatchingStops(q, Me(), key, token, made, rounds[i + 1..]);
          made := made + rounds[i + 1..];
          return LeaseLost, made;
        }
      }
      assert rounds[..|rounds|] == rounds;
    }

    /** What follows an optimizer call that was not stopped: its result, or a failure, is reported. */
    method Finish(key: nat, token: int, it: Iteration, ghost j: nat) returns (ghost made: Iteration)
      requires Working(j, key, token)
      modifies store, `trace, `mine
      ensures Working(j, key, token) && Tally() == old(Tally())
      ensures made == it.(last := made.last, ending := made.ending)
              && Alike(it.last, made.last) && SameEnding(it.ending, made.ending)
      ensures var ops := Report(old(store.State()), Me(), key, token, made);
              trace == old(trace) + ops && store.State() == Run(old(store.State()), ops)
    {
      hide Run, Do, Disciplined, Under, OwnGrants, OwnClaims, Failure, Alike;
      ghost var q := store.State();
      ghost var last := Others(it.last);
      made := it.(last := last);
      match it.ending {
        case Failing(transient, pause) =>
          ghost var at := store.State();
          var _, paused := Fail(key, token, transient, pause, it.finishAt, j);
          made := made.(ending := Failing(transient, paused));
          RunSplit(q, last, Failure(at, Me(), key, token, transient, paused, it.finishAt));
        case Done(status, body) =>
          var _ := Complete(key, token, Some(body), status, it.finishAt, j);
          OneMore(q, last, Op.Complete(key, id, token, Some(body), status, it.finishAt));
      }
    }

    /** The handler around an attempt: whatever raised, a failure is reported with its own classification. */
    method Handle(key: nat, token: int, slip: Option<Slip>, ghost j: nat) returns (ghost made: Option<Slip>)
      requires Working(j, key, token)
      modifies store, `trace, `mine
      ensures Working(j, key, token) && Tally() == old(Tally()) && SameSlip(slip, made)
      ensures var ops := Handled(old(store.State()), Me(), key, token, made);
              trace == old(trace) + ops && store.State() == Run(old(store.State()), ops)
    {
      hide Run, Do, Disciplined, Under, OwnGrants, OwnClaims, Failure, Alike;
      made := None;
      NoPasses(store.State(), Me(), false);
      if slip.Some? {
        var s := slip.value;
        ghost var writes := Others(s.writes);
        ghost var at := store.State();
        var _, paused := Fail(key, token, s.transient, s.pause, s.now, j);
        made := Some(s.(writes := writes, pause := paused));
        RunSplit(old(store.State()), writes, Failure(at, Me(), key, token, s.transient, paused, s.now));
      }
    }

    /** What is done with a job that was granted. lost: the lease was lost, and the loop is to go on at once. */
    method Work(key: nat, token: int, it: Iteration, ghost j: nat) returns (lost: bool, ghost made: Iteration)
      requires Working(j, key, token)
      modifies store, `trace, `mine
      ensures Valid() && Tally() == old(Tally())
      ensures made == it.(rounds := made.rounds, last := made.last, ending := made.ending, slip := made.slip)
              && SameRounds(it.rounds, made.rounds) && Alike(it.last, made.last)
              && SameEnding(it.ending, made.ending) && SameSlip(it.slip, made.slip)
      ensures var (ops, left) := Attempt(old(store.State()), Me(), key, token, made);
              lost == left && trace == old(trace) + ops && store.State() == Run(old(store.State()), ops)
    {
      hide Run, Disciplined, Under, OwnGrants, OwnClaims, Tally, OnlyRenews, Watching, Report, Handled;
      hide SameRounds, Alike;
      ghost var q := store.State();
      var watch;
      ghost var rounds;
      watch, rounds := Execute(key, token, it.rounds, j);
      made := it.(rounds := rounds);
      SameItself(it);
      ghost var watched, at := Watching(q, Me(), key, token, rounds).0, store.State();
      ghost var done := watched;
      if watch == Ready {
        ghost var reported := Finish(key, token, it, j);
        made := made.(last := reported.last, ending := reported.ending);
        RunSplit(q, watched, Report(at, Me(), key, token, reported));
        done := watched + Report(at, Me(), key, token, reported);
        SameReport(at, Me(), key, token, reported, made);
      } else {
        assert watched + [] == watched;
      }
      ghost var before := store.State();
      ghost var slip := Handle(key, token, it.slip, j);
      SameReport(at, Me(), key, token, made, made.(slip := slip));
      made := made.(slip := slip);
      RunSplit(q, done, Handled(before, Me(), key, token, slip));
      assert Attempt(q, Me(), key, token, made).0 == done + Handled(before, Me(), key, token, slip);
      lost := watch == LeaseLost && it.slip.None?;
    }

    /** One pass: reclaim, claim, and if a job was granted, run and report it. */
    method Iterate(it: Iteration) returns (granted: bool, lost: bool, ghost made: Iteration)
      requires Valid()
      modifies store, `trace, `mine
      ensures Valid() && Same(it, made)
      ensures var pass := PassOf(old(store.State()), Me(), made);
              granted == pass.granted && lost == pass.lost && trace == old(trace) + pass.ops
              && store.State() == Run(old(store.State()), pass.ops)
      ensures |Tally().0| == |old(Tally()).0| + 1 && |Tally().1| == |old(Tally()).1| + (if granted then 1 else 0)
    {
      hide Run, Valid, Do, Disciplined, Under, Tally, Attempt, SameRounds, SameEnding, SameSlip, Alike;
      ghost var q := store.State();
      ghost var before := Others(it.before);
      Reclaim(it.reclaimAt);
      ghost var between := Others(it.between);
      AskedIs(q, before, it.reclaimAt, between);
      ghost var at := store.State();
      var reply;
      ghost var pick, j;
      reply, pick, j := Claim(it.claimAt, it.grantedAt);
      SameItself(it);
      made := it.(before := before, between := between, pick := pick);
      OneMore(q, Asking(made), Claiming(Me(), made));
      assert trace == old(trace) + (Asking(made) + [Claiming(Me(), made)]);
      granted, lost := reply.Granted?, false;
      if granted {
        ghost var claimed := store.State();
        ghost var worked;
        lost, worked := Work(reply.key, reply.token, it, j);
        made := made.(rounds := worked.rounds, last := worked.last, ending := worked.ending, slip := worked.slip);
        SameAttempt(claimed, Me(), reply.key, reply.token, worked, made);
        RunSplit(q, Asking(made) + [Claiming(Me(), made)],
                 Attempt(claimed, Me(), reply.key, reply.token, made).0);
      }
    }

    /** worker_loop over the given passes; the result counts the claims it was granted. */
    method WorkerLoop(plan: seq<Iteration>, once: bool)
      returns (claims: nat, ghost made: seq<Iteration>, ghost course: Course)
      requires Valid()
      modifies store, `trace, `mine
      ensures Valid() && |made| == |plan| && forall i :: 0 <= i < |plan| ==> Same(plan[i], made[i])
      ensures course == Loop(old(store.State()), Me(), made, once)
      ensures trace == old(trace) + course.ops && store.State() == Run(old(store.State()), course.ops)
      ensures claims == course.claims
      ensures |Tally().0| == |old(Tally()).0| + course.passes && |Tally().1| == |old(Tally()).1| + claims
      ensures course.losses <= claims <= course.passes <= |plan| && (!once ==> course.passes == |plan|)
      ensures once ==> course.passes <= course.losses + 1 && claims <= course.losses + 1
                       && (course.passes < |plan| ==> course.passes == course.losses + 1)
    {
      hide Run, Valid, Tally, PassOf, Same, Loop;
      ghost var q := store.State();
      claims, made := 0, [];
      NoPasses(q, Me(), once);
      course := Loop(q, Me(), [], once);
      for i := 0 to |plan|
        invariant Valid() && |made| == i && forall k :: 0 <= k < i ==> Same(plan[k], made[k])
        invariant course == Loop(q, Me(), made, once) && !course.over && claims == course.claims
        invariant trace == old(trace) + course.ops && store.State() == Run(q, course.ops)
        invariant |Tally().0| == |old(Tally()).0| + course.passes && |Tally().1| == |old(Tally()).1| + claims
      {
        ghost var at, next := store.State(), plan[i];
        var granted, lost;
        granted, lost, next := Iterate(plan[i]);
        OnePassMore(q, Me(), made, next, once);
        made, course := made + [next], Loop(q, Me(), made + [next], once);
        RunSplit(q, Loop(q, Me(), made[..i], once).ops, PassOf(at, Me(), next).ops);
        if granted {
          claims := claims + 1;
        }
        if lost {
          continue;
        }
        if once {
          LoopStopsAt(q, Me(), made, plan[i + 1..]);
          made := made + plan[i + 1..];
          break;
        }
      }
      LoopPasses(q, Me(), made, once);
    }
  }
}
