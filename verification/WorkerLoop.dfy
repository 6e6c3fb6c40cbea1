/** The meaning of a worker's loop: the queue operations that its passes are made of, given what other processes do in
    between, what the optimizer's calls come to, and the clock. */
module WorkerLoop {
  import opened Basics
  import opened JobQueue
  import opened QueueTheorems

  datatype Settings = Settings(id: nat, ttl: int, retries: int)

  /** One poll of the running optimizer: what others did before it, and its clock. */
  datatype Round = Round(writes: seq<Op>, now: int)

  /** What the optimizer's call comes to. Others act between the reading of the attempts and the report of a failure. */
  datatype Ending = Done(status: Status, body: Body) | Failing(transient: bool, pause: seq<Op>)

  /** An exception after the attempt was reported, the lease lost or the job cancelled. */
  datatype Slip = Slip(writes: seq<Op>, transient: bool, pause: seq<Op>, now: int)

  /** One pass. pick is the job that its claim chose. */
  datatype Iteration = Iteration(before: seq<Op>, reclaimAt: int, between: seq<Op>, pick: Option<nat>, claimAt: int,
                                 grantedAt: int, rounds: seq<Round>, last: seq<Op>, ending: Ending, finishAt: int,
                                 slip: Option<Slip>)

  /** The same operation, up to the job that a claim chose. */
  ghost predicate Rechosen(op: Op, done: Op) {
    done == op || (op.Claim? && done.Claim? && done == op.(pick := done.pick))
  }

  ghost predicate Alike(ops: seq<Op>, done: seq<Op>) {
    |ops| == |done| && forall i :: 0 <= i < |ops| ==> Rechosen(ops[i], done[i])
  }

  ghost predicate SameRounds(rounds: seq<Round>, made: seq<Round>) {
    && |rounds| == |made|
    && forall i :: 0 <= i < |rounds| ==> made[i].now == rounds[i].now && Alike(rounds[i].writes, made[i].writes)
  }

  ghost predicate SameEnding(ending: Ending, made: Ending) {
    match ending
    case Done(_, _) => made == ending
    case Failing(transient, pause) => made.Failing? && made.transient == transient && Alike(pause, made.pause)
  }

  ghost predicate SameSlip(slip: Option<Slip>, made: Option<Slip>) {
    match slip
    case None => made.None?
    case Some(s) =>
      && made.Some? && made.value == s.(writes := made.value.writes, pause := made.value.pause)
      && Alike(s.writes, made.value.writes) && Alike(s.pause, made.value.pause)
  }

  /** A pass as it was planned and as it was made: only the choices of claims differ. */
  ghost predicate Same(it: Iteration, made: Iteration) {
    && made == it.(before := made.before, between := made.between, pick := made.pick, rounds := made.rounds,
                   last := made.last, ending := made.ending, slip := made.slip)
    && Alike(it.before, made.before) && Alike(it.between, made.between) && SameRounds(it.rounds, made.rounds)
    && Alike(it.last, made.last) && SameEnding(it.ending, made.ending) && SameSlip(it.slip, made.slip)
  }

  // ---------------------------------------------------------------- one attempt

  /** queue.fail: the attempts are read first. */
  function Failure(q: Queue, me: Settings, key: nat, token: int, transient: bool, pause: seq<Op>, now: int): seq<Op> {
    var attempts := if key in q.jobs then q.jobs[key].attempts else 0;
    var status := if transient && attempts < Max(0, me.retries) then Pending else Failed;
    pause + [Complete(key, me.id, token, None, status, now)]
  }

  datatype Watch = Ready | CancelSeen | LeaseLost

  function Renewal(me: Settings, key: nat, token: int, now: int): Op {
    Heartbeat(key, me.id, token, me.ttl, now)
  }

  /** While the optimizer runs: stop on a cancellation or on a refused renewal. */
  function Watching(q: Queue, me: Settings, key: nat, token: int, rounds: seq<Round>): (seq<Op>, Watch) {
    if rounds == [] then ([], Ready) else
      var (ops, watch) := Watching(q, me, key, token, rounds[..|rounds| - 1]);
      if watch != Ready then (ops, watch) else
        var seen := ops + rounds[|rounds| - 1].writes;
        var at, renewal := Run(q, seen), Renewal(me, key, token, rounds[|rounds| - 1].now);
        if key in at.jobs && at.jobs[key].status == Cancelled then (seen, CancelSeen)
        else (seen + [renewal], if Do(at, renewal).1 == Accepted then Ready else LeaseLost)
  }

  lemma {:induction false} WatchingStops(q: Queue, me: Settings, key: nat, token: int, first: seq<Round>,
                                         rest: seq<Round>)
    requires Watching(q, me, key, token, first).1 != Ready
    ensures Watching(q, me, key, token, first + rest) == Watching(q, me, key, token, first)
  {
    if rest == [] {
      assert first + rest == first;
    } else {
      WatchingStops(q, me, key, token, first, rest[..|rest| - 1]);
      assert (first + rest)[..|first + rest| - 1] == first + rest[..|rest| - 1];
    }
  }

  function Report(q: Queue, me: Settings, key: nat, token: int, it: Iteration): seq<Op> {
    it.last + match it.ending
              case Done(status, body) => [Complete(key, me.id, token, Some(body), status, it.finishAt)]
              case Failing(transient, pause) =>
                Failure(Run(q, it.last), me, key, token, transient, pause, it.finishAt)
  }

  /** The handler of an exception reports a failure, whatever was reported before. */
  function Handled(q: Queue, me: Settings, key: nat, token: int, slip: Option<Slip>): seq<Op> {
    match slip
    case None => []
    case Some(s) => s.writes + Failure(Run(q, s.writes), me, key, token, s.transient, s.pause, s.now)
  }

  /** The operations of an attempt, and whether the loop's early continue follows: the lease was lost and nothing
      raised afterwards. */
  function Attempt(q: Queue, me: Settings, key: nat, token: int, it: Iteration): (seq<Op>, bool) {
    var (watched, watch) := Watching(q, me, key, token, it.rounds);
    var done := watched + (if watch == Ready then Report(Run(q, watched), me, key, token, it) else []);
    (done + Handled(Run(q, done), me, key, token, it.slip), watch == LeaseLost && it.slip.None?)
  }

  // ---------------------------------------------------------------- passes

  datatype Pass = Pass(ops: seq<Op>, granted: bool, lost: bool)

  function Claiming(me: Settings, it: Iteration): Op {
    Claim(me.id, me.ttl, None, Some(me.retries), it.claimAt, it.grantedAt, it.pick)
  }

  /** What precedes the claim of a pass. */
  function Asking(it: Iteration): seq<Op> {
    it.before + [Reclaim(it.reclaimAt)] + it.between
  }

  function PassOf(q: Queue, me: Settings, it: Iteration): Pass {
    var (at, reply) := Do(Run(q, Asking(it)), Claiming(me, it));
    var asked := Asking(it) + [Claiming(me, it)];
    if !reply.Granted? then Pass(asked, false, false) else
      var (ops, lost) := Attempt(at, me, reply.key, reply.token, it);
      Pass(asked + ops, true, lost)
  }

  /** over: the loop has left before its plan was used up. */
  datatype Course = Course(ops: seq<Op>, passes: nat, claims: nat, losses: nat, over: bool)

  /** worker_loop over the planned passes. After a lost lease the next pass begins before once is looked at. */
  function Loop(q: Queue, me: Settings, plan: seq<Iteration>, once: bool): Course {
    if plan == [] then Course([], 0, 0, 0, false) else
      var before := Loop(q, me, plan[..|plan| - 1], once);
      if before.over then before else
        var pass := PassOf(Run(q, before.ops), me, plan[|plan| - 1]);
        Course(before.ops + pass.ops, before.passes + 1, before.claims + (if pass.granted then 1 else 0),
               before.losses + (if pass.lost then 1 else 0), once && !pass.lost)
  }

  lemma {:induction false} LoopStops(q: Queue, me: Settings, plan: seq<Iteration>, once: bool, n: nat)
    requires n <= |plan|
    ensures Loop(q, me, plan[..n], once).over ==> Loop(q, me, plan, once) == Loop(q, me, plan[..n], once)
    ensures Loop(q, me, plan[..n], once).claims <= Loop(q, me, plan, once).claims
    decreases |plan|
  {
    if n < |plan| {
      LoopStops(q, me, plan[..|plan| - 1], once, n);
      assert plan[..|plan| - 1][..n] == plan[..n];
    } else {
      assert plan[..n] == plan;
    }
  }

  /** Without once the plan is used up. With it, the loop leaves after the first pass that does not lose its lease,
      so it makes one pass more than it loses leases. */
  lemma {:induction false} LoopPasses(q: Queue, me: Settings, plan: seq<Iteration>, once: bool)
    ensures var l := Loop(q, me, plan, once);
            && l.losses <= l.claims <= l.passes <= |plan|
            && (l.over ==> once && l.passes == l.losses + 1)
            && (!l.over ==> l.passes == |plan| && (once ==> l.losses == |plan|))
  {
    if plan != [] {
      hide PassOf;
      var rest := plan[..|plan| - 1];
      LoopPasses(q, me, rest, once);
      OnlyGrantedIsLost(Run(q, Loop(q, me, rest, once).ops), me, plan[|plan| - 1]);
    }
  }

  lemma OnlyGrantedIsLost(q: Queue, me: Settings, it: Iteration)
    ensures PassOf(q, me, it).lost ==> PassOf(q, me, it).granted
  {
    hide Attempt, Do;
  }

  /** once stands for at most one claim, unless the first pass loses its lease and the second is granted a job; then,
      and only then, it does not. */
  lemma OnceClaimsOnce(q: Queue, me: Settings, plan: seq<Iteration>)
    ensures Loop(q, me, plan, true).claims <= 1
       <==> (|plan| < 2 || var first := PassOf(q, me, plan[0]);
                           !first.lost || !PassOf(Run(q, first.ops), me, plan[1]).granted)
  {
    hide PassOf;
    LoopPasses(q, me, plan, true);
    if |plan| >= 2 {
      var first := PassOf(q, me, plan[0]);
      assert Loop(q, me, plan[..1], true)
          == Course(first.ops, 1, if first.granted then 1 else 0, if first.lost then 1 else 0, !first.lost) by {
        assert plan[..1][..0] == [] && [] + first.ops == first.ops;
        assert Run(q, []) == q;
      }
      assert plan[..2][..1] == plan[..1];
      var two := Loop(q, me, plan[..2], true);
      OnlyGrantedIsLost(q, me, plan[0]);
      OnlyGrantedIsLost(Run(q, first.ops), me, plan[1]);
      LoopStops(q, me, plan, true, 1);
      LoopStops(q, me, plan, true, 2);
    }
  }

  // ---------------------------------------------------------------- a loop that runs once and claims twice

  const ME := Settings(0, 45, 2)

  /** One job is enqueued and claimed at 0; the worker next renews at 100, after its lease ran out. */
  const LATE := Iteration([Enqueue(0, 0, None, 2, false, 0)], 0, [], Some(0), 0, 0, [Round([], 100)], [],
                          Failing(false, []), 100, None)

  /** The next pass requeues that job and claims it. */
  const AGAIN := Iteration([], 101, [], Some(0), 101, 101, [], [], Failing(false, []), 110, None)

  const QUEUED := FRESH.(jobs := map[0 := Job(0, Pending, 0, 2, None, 0)])
  const HELD := Queue(map[0 := Job(0, Running, 1, 2, None, 0)], map[0 := Lease(0, 1, 45)], map[0 := 1], map[], map[])
  const FREED := HELD.(jobs := map[0 := Job(0, Pending, 1, 2, None, 0)], leases := map[])

  lemma LosesLease()
    ensures var pass := PassOf(FRESH, ME, LATE); pass.lost && Run(FRESH, pass.ops) == HELD
  {
    var enqueue, reclaim, renewal := LATE.before[0], Reclaim(0), Renewal(ME, 0, 1, 100);
    assert Asking(LATE) == [enqueue, reclaim] && [enqueue, reclaim][..1] == [enqueue] && [enqueue][..0] == [];
    assert Run(FRESH, [enqueue]) == QUEUED;
    assert Do(QUEUED, reclaim).0 == QUEUED by {
      RequeueNone(QUEUED);
      assert (set k | k in QUEUED.jobs && QUEUED.Expired(k, 0)) == {};
    }
    assert Run(FRESH, [enqueue, reclaim]) == QUEUED;
    assert Do(QUEUED, Claiming(ME, LATE)) == (HELD, Granted(0, 1, 45)) by {
      assert QUEUED.Picks(None, Some(0));
      var (q, reply) := Grant(QUEUED, 0, 0, 45, Some(2), 0);
      assert q.jobs == HELD.jobs && q.leases == HELD.leases && q.fences == HELD.fences;
      assert Unexpired(QUEUED.leases, 0) == map[];
    }
    assert Do(HELD, renewal) == (HELD, Declined);
    assert Watching(HELD, ME, 0, 1, LATE.rounds) == ([renewal], LeaseLost) by {
      assert LATE.rounds[..0] == [];
      assert LATE.rounds[0].writes == [] && Run(HELD, []) == HELD;
      assert Watching(HELD, ME, 0, 1, []) == ([], Ready);
      assert [] + [renewal] == [renewal];
    }
    assert Attempt(HELD, ME, 0, 1, LATE) == ([renewal], true) by {
      assert [renewal] + [] == [renewal];
      assert LATE.slip == None;
    }
    var asked := [enqueue, reclaim];
    var pass := PassOf(FRESH, ME, LATE);
    assert pass.lost && pass.ops == asked + [Claiming(ME, LATE)] + [renewal];
    hide *;
    RunMore(FRESH, asked, Claiming(ME, LATE));
    RunMore(FRESH, asked + [Claiming(ME, LATE)], renewal);
  }

  lemma RunMore(q: Queue, ops: seq<Op>, op: Op)
    ensures Run(q, ops + [op]) == Do(Run(q, ops), op).0
  {
    assert (ops + [op])[..|ops|] == ops;
  }

  lemma ClaimsAgain()
    ensures PassOf(HELD, ME, AGAIN).granted
  {
    assert Asking(AGAIN) == [Reclaim(101)] && [Reclaim(101)][..0] == [];
    assert (set k | k in HELD.jobs && HELD.Expired(k, 101)) == {0};
    assert Do(HELD, Reclaim(101)).0 == FREED by {
      assert Requeue(HELD, {0}).jobs == FREED.jobs && Requeue(HELD, {0}).leases == FREED.leases;
    }
    assert Run(HELD, [Reclaim(101)]) == FREED;
    assert FREED.Picks(None, Some(0));
  }

  /** So it need not be one claim: a lease that runs out during the first pass is enough for a second. */
  lemma OnceClaimsTwice()
    ensures Loop(FRESH, ME, [LATE, AGAIN], true).claims == 2
  {
    hide PassOf, Run;
    LosesLease();
    ClaimsAgain();
    OnceClaimsOnce(FRESH, ME, [LATE, AGAIN]);
    LoopPasses(FRESH, ME, [LATE, AGAIN], true);
  }
}
