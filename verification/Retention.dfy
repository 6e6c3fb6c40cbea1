/** Evidence retention: a sweep by age, a stable sort, and one reverse pass that keeps the newest events within a
    cap per context and a cap per loop of a context. Events are taken as already projected. */
module Retention {
  import opened Basics

  datatype Event = Event(context: nat, objective: nat, iteration: int, ts: real, ref: nat, body: nat)
  {
    function Key(): (real, nat) {
      (ts, ref)
    }

    function LoopKey(): Loop {
      Loop(context, objective, iteration)
    }
  }

  datatype Loop = Loop(context: nat, objective: nat, iteration: int)
  datatype Policy = Policy(perContext: nat, perLoop: nat, ttl: nat)

  // ---------------------------------------------------------------- sweep and sort

  function Live(events: seq<Event>, oldest: real): seq<Event> {
    if events == [] then []
    else (if events[0].ts < oldest then [] else [events[0]]) + Live(events[1..], oldest)
  }

  predicate AtMost(a: Event, b: Event) {
    a.ts < b.ts || (a.ts == b.ts && a.ref <= b.ref)
  }

  predicate Sorted(s: seq<Event>) {
    forall i, j :: 0 <= i < j < |s| ==> AtMost(s[i], s[j])
  }

  function Inserted(e: Event, s: seq<Event>): seq<Event> {
    if s == [] || AtMost(e, s[0]) then [e] + s else [s[0]] + Inserted(e, s[1..])
  }

  /** list.sort by (timestamp, reference). */
  function StableSort(s: seq<Event>): seq<Event> {
    if s == [] then [] else Inserted(s[0], StableSort(s[1..]))
  }

  ghost function WithKey(s: seq<Event>, key: (real, nat)): seq<Event> {
    if s == [] then [] else (if s[0].Key() == key then [s[0]] else []) + WithKey(s[1..], key)
  }

  lemma SortedParts(s: seq<Event>)
    requires s != []
    ensures Sorted(s) <==> Sorted(s[1..]) && forall x :: x in s[1..] ==> AtMost(s[0], x)
  {
    if Sorted(s[1..]) && forall x :: x in s[1..] ==> AtMost(s[0], x) {
      forall i, j | 0 <= i < j < |s|
        ensures AtMost(s[i], s[j])
      {
        assert s[j] == s[1..][j - 1];
        assert i > 0 ==> s[i] == s[1..][i - 1];
      }
    }
  }

  lemma {:induction false} InsertedMembers(e: Event, s: seq<Event>)
    ensures multiset(Inserted(e, s)) == multiset(s) + multiset{e}
    ensures forall x :: x in Inserted(e, s) ==> x == e || x in s
  {
    if s != [] && !AtMost(e, s[0]) {
      InsertedMembers(e, s[1..]);
      assert s == [s[0]] + s[1..];
    }
  }

  lemma {:induction false} InsertedIsSorted(e: Event, s: seq<Event>)
    requires Sorted(s)
    ensures Sorted(Inserted(e, s))
  {
    hide Sorted, AtMost;
    SortedParts(Inserted(e, s));
    if s == [] {
      NoneIsSorted();
    } else {
      SortedParts(s);
      if AtMost(e, s[0]) {
        FirstIsLeast(e, s);
        assert Inserted(e, s)[1..] == s;
      } else {
        InsertedIsSorted(e, s[1..]);
        InsertedMembers(e, s[1..]);
        TotalOrder(e, s[0]);
        assert Inserted(e, s)[1..] == Inserted(e, s[1..]);
      }
    }
  }

  lemma NoneIsSorted()
    ensures Sorted([])
  {
  }

  lemma FirstIsLeast(e: Event, s: seq<Event>)
    requires s != [] && Sorted(s) && AtMost(e, s[0])
    ensures forall x :: x in s ==> AtMost(e, x)
  {
  }

  lemma TotalOrder(a: Event, b: Event)
    ensures AtMost(a, b) || AtMost(b, a)
  {
  }

  lemma {:induction false} InsertedIsStable(e: Event, s: seq<Event>, key: (real, nat))
    requires Sorted(s)
    ensures WithKey(Inserted(e, s), key) == WithKey([e] + s, key)
  {
    assert ([e] + s)[1..] == s;
    if s != [] && !AtMost(e, s[0]) {
      InsertedIsStable(e, s[1..], key);
      assert Inserted(e, s)[1..] == Inserted(e, s[1..]);
      assert ([e] + s[1..])[1..] == s[1..];
    }
  }

  /** The sort is a permutation in order that leaves events with equal keys as they came. */
  lemma {:induction false} StableSortSorts(s: seq<Event>, key: (real, nat))
    ensures Sorted(StableSort(s)) && multiset(StableSort(s)) == multiset(s)
    ensures WithKey(StableSort(s), key) == WithKey(s, key)
  {
    if s != [] {
      StableSortSorts(s[1..], key);
      InsertedIsSorted(s[0], StableSort(s[1..]));
      InsertedMembers(s[0], StableSort(s[1..]));
      InsertedIsStable(s[0], StableSort(s[1..]), key);
      assert s == [s[0]] + s[1..];
      assert ([s[0]] + StableSort(s[1..]))[1..] == StableSort(s[1..]);
    }
  }

  lemma {:induction false} SortedIsFixed(s: seq<Event>)
    requires Sorted(s)
    ensures StableSort(s) == s
  {
    if s != [] {
      SortedIsFixed(s[1..]);
      assert s == [s[0]] + s[1..];
    }
  }

  // ---------------------------------------------------------------- caps

  function ContextCount(s: seq<Event>, c: nat): nat {
    if s == [] then 0 else (if s[0].context == c then 1 else 0) + ContextCount(s[1..], c)
  }

  function LoopCount(s: seq<Event>, l: Loop): nat {
    if s == [] then 0 else (if s[0].LoopKey() == l then 1 else 0) + LoopCount(s[1..], l)
  }

  predicate Room(newer: seq<Event>, e: Event, p: Policy) {
    ContextCount(newer, e.context) < p.perContext && LoopCount(newer, e.LoopKey()) < p.perLoop
  }

  /** Newest first, an event is kept while what is already kept leaves room in its context and in its loop. */
  function Retained(s: seq<Event>, p: Policy): seq<Event> {
    if s == [] then [] else
      var newer := Retained(s[1..], p);
      if Room(newer, s[0], p) then [s[0]] + newer else newer
  }

  function RetainedOf(events: seq<Event>, p: Policy, now: real): seq<Event> {
    Retained(StableSort(Live(events, now - p.ttl as real)), p)
  }

  ghost function LoopsOf(s: seq<Event>, c: nat): set<Loop> {
    if s == [] then {} else (if s[0].context == c then {s[0].LoopKey()} else {}) + LoopsOf(s[1..], c)
  }

  /** What each loop of a context may keep at most: its live events, up to the loop cap. */
  ghost function Quotas(s: seq<Event>, p: Policy, c: nat): map<Loop, int> {
    map l | l in LoopsOf(s, c) :: Min(p.perLoop, LoopCount(s, l))
  }

  ghost function QuotaTotal(s: seq<Event>, p: Policy, c: nat): int {
    Total(Quotas(s, p, c))
  }

  /** Neither cap is ever exceeded, and while a context has room left each of its loops keeps all it may. */
  lemma {:induction false} RetainedFillsLoops(s: seq<Event>, p: Policy, l: Loop)
    ensures ContextCount(Retained(s, p), l.context) <= p.perContext
    ensures LoopCount(Retained(s, p), l) <= Min(p.perLoop, LoopCount(s, l))
    ensures ContextCount(Retained(s, p), l.context) < p.perContext
            ==> LoopCount(Retained(s, p), l) == Min(p.perLoop, LoopCount(s, l))
  {
    if s != [] {
      RetainedFillsLoops(s[1..], p, l);
      var newer := Retained(s[1..], p);
      assert ([s[0]] + newer)[1..] == newer;
    }
  }

  lemma {:induction false} AbsentLoop(s: seq<Event>, l: Loop)
    requires l !in LoopsOf(s, l.context)
    ensures LoopCount(s, l) == 0
  {
    if s != [] {
      AbsentLoop(s[1..], l);
    }
  }

  lemma {:induction false} LoopsAreInContext(s: seq<Event>, c: nat)
    ensures forall l :: l in LoopsOf(s, c) ==> l.context == c
  {
    if s != [] {
      LoopsAreInContext(s[1..], c);
    }
  }

  /** One event more raises the total by what its loop may keep in addition. */
  lemma QuotasGrow(s: seq<Event>, p: Policy, c: nat)
    requires s != []
    ensures QuotaTotal(s, p, c) == QuotaTotal(s[1..], p, c)
              + (if s[0].context != c then 0
                 else Min(p.perLoop, LoopCount(s, s[0].LoopKey())) - Min(p.perLoop, LoopCount(s[1..], s[0].LoopKey())))
  {
    hide Total;
    var rest, l := s[1..], s[0].LoopKey();
    var before := Quotas(rest, p, c);
    LoopsAreInContext(rest, c);
    if s[0].context == c {
      assert Quotas(s, p, c) == before[l := Min(p.perLoop, LoopCount(s, l))];
      TotalUpdate(before, l, Min(p.perLoop, LoopCount(s, l)));
      if l !in before {
        AbsentLoop(rest, l);
      }
    } else {
      assert Quotas(s, p, c) == before;
    }
  }

  /** Retention is maximal: a context keeps exactly the smaller of its cap and what its loops may keep in all. */
  lemma {:induction false} RetainedIsMaximal(s: seq<Event>, p: Policy, c: nat)
    ensures ContextCount(Retained(s, p), c) == Min(p.perContext, QuotaTotal(s, p, c))
  {
    if s == [] {
      assert Quotas(s, p, c) == map[];
    } else {
      hide QuotaTotal;
      RetainedIsMaximal(s[1..], p, c);
      QuotasGrow(s, p, c);
      RetainedFillsLoops(s[1..], p, s[0].LoopKey());
      var newer := Retained(s[1..], p);
      assert ([s[0]] + newer)[1..] == newer;
    }
  }

  // ---------------------------------------------------------------- what is kept and what is dropped

  /** indices are where the elements of a sublist come from. */
  ghost predicate Picks(sub: seq<Event>, s: seq<Event>, indices: seq<nat>) {
    && |indices| == |sub|
    && (forall i :: 0 <= i < |sub| ==> indices[i] < |s| && s[indices[i]] == sub[i])
    && (forall i, j :: 0 <= i < j < |sub| ==> indices[i] < indices[j])
  }

  ghost function Shifted(indices: seq<nat>): seq<nat> {
    seq(|indices|, i requires 0 <= i < |indices| => indices[i] + 1)
  }

  /** The indices of the kept events. */
  ghost function KeptAt(s: seq<Event>, p: Policy): seq<nat> {
    if s == [] then [] else
      var later := Shifted(KeptAt(s[1..], p));
      if Room(Retained(s[1..], p), s[0], p) then [0] + later else later
  }

  lemma ShiftedContains(indices: seq<nat>, n: nat)
    ensures n in Shifted(indices) <==> n > 0 && n - 1 in indices
  {
    if n > 0 && n - 1 in indices {
      var i :| 0 <= i < |indices| && indices[i] == n - 1;
      assert Shifted(indices)[i] == n;
    }
  }

  lemma {:induction false} RetainedIsSublist(s: seq<Event>, p: Policy)
    ensures Picks(Retained(s, p), s, KeptAt(s, p))
  {
    if s != [] {
      hide Room;
      RetainedIsSublist(s[1..], p);
      var newer, later := Retained(s[1..], p), KeptAt(s[1..], p);
      assert Picks(newer, s, Shifted(later)) by {
        forall i | 0 <= i < |newer|
          ensures Shifted(later)[i] < |s| && s[Shifted(later)[i]] == newer[i]
        {
          assert s[1..][later[i]] == newer[i];
        }
      }
      if Room(newer, s[0], p) {
        PicksFirst(s, newer, Shifted(later));
      }
    }
  }

  lemma PicksFirst(s: seq<Event>, newer: seq<Event>, indices: seq<nat>)
    requires s != [] && Picks(newer, s, indices) && forall i :: i in indices ==> i > 0
    ensures Picks([s[0]] + newer, s, [0] + indices)
  {
    var all := [0] + indices;
    forall i, j | 0 <= i < j < |all|
      ensures all[i] < all[j]
    {
      assert all[j] == indices[j - 1] && indices[j - 1] in indices;
      assert i > 0 ==> indices[i - 1] < indices[j - 1];
    }
  }

  /** The newer events are retained as if the older ones did not exist. */
  lemma {:induction false} NewerFirst(s: seq<Event>, p: Policy, i: nat)
    requires i <= |s|
    ensures |Retained(s[i..], p)| <= |Retained(s, p)|
    ensures Retained(s, p)[|Retained(s, p)| - |Retained(s[i..], p)|..] == Retained(s[i..], p)
  {
    if i > 0 {
      NewerFirst(s[1..], p, i - 1);
      assert s[1..][i - 1..] == s[i..];
    } else {
      assert s[0..] == s;
    }
  }

  /** The event at i is dropped exactly if the newer kept events, the tail of what is kept, already fill its context
      or its loop. */
  lemma {:induction false} DroppedWhenFull(s: seq<Event>, p: Policy, i: nat)
    requires i < |s|
    ensures var kept, newer := Retained(s, p), Retained(s[i + 1..], p);
            && |newer| <= |kept| && kept[|kept| - |newer|..] == newer
            && (i !in KeptAt(s, p) <==>
                 (ContextCount(newer, s[i].context) == p.perContext || LoopCount(newer, s[i].LoopKey()) == p.perLoop))
  {
    NewerFirst(s, p, i + 1);
    ShiftedContains(KeptAt(s[1..], p), i);
    if i > 0 {
      hide Room;
      DroppedWhenFull(s[1..], p, i - 1);
      assert s[1..][i..] == s[i + 1..];
    } else {
      RetainedFillsLoops(s[1..], p, s[0].LoopKey());
    }
  }

  lemma {:induction false} RetainedTwice(s: seq<Event>, p: Policy)
    ensures Retained(Retained(s, p), p) == Retained(s, p)
  {
    if s != [] {
      RetainedTwice(s[1..], p);
      var newer := Retained(s[1..], p);
      assert ([s[0]] + newer)[1..] == newer;
    }
  }

  lemma RetainedIsSorted(s: seq<Event>, p: Policy)
    requires Sorted(s)
    ensures Sorted(Retained(s, p))
  {
    RetainedIsSublist(s, p);
  }

  lemma {:induction false} LiveOnly(events: seq<Event>, oldest: real)
    ensures forall e :: e in Live(events, oldest) <==> e in events && e.ts >= oldest
  {
    if events != [] {
      LiveOnly(events[1..], oldest);
      assert forall e :: e in events <==> e == events[0] || e in events[1..];
    }
  }

  lemma {:induction false} LiveIsFixed(events: seq<Event>, oldest: real)
    requires forall e :: e in events ==> e.ts >= oldest
    ensures Live(events, oldest) == events
  {
    if events != [] {
      LiveIsFixed(events[1..], oldest);
      assert events == [events[0]] + events[1..];
    }
  }

  /** What is kept is in order and within the age limit, every kept event was given, and retaining again under the same
      policy at the same time changes nothing. */
  lemma RetentionIsIdempotent(events: seq<Event>, p: Policy, now: real)
    ensures var kept := RetainedOf(events, p, now);
            && Sorted(kept) && (forall e :: e in kept ==> e in events && e.ts >= now - p.ttl as real)
            && RetainedOf(kept, p, now) == kept
  {
    var oldest := now - p.ttl as real;
    var sorted, kept := StableSort(Live(events, oldest)), RetainedOf(events, p, now);
    hide Live, Retained, StableSort;
    StableSortSorts(Live(events, oldest), (0.0, 0));
    LiveOnly(events, oldest);
    RetainedIsSublist(sorted, p);
    RetainedIsSorted(sorted, p);
    forall e | e in kept
      ensures e in events && e.ts >= oldest
    {
      assert e in multiset(sorted);
    }
    LiveIsFixed(kept, oldest);
    SortedIsFixed(kept);
    RetainedTwice(sorted, p);
  }

  // ---------------------------------------------------------------- what becomes of an event

  /** The events within the age limit, each as often as it was supplied, oldest first, equal keys as they came. */
  ghost predicate Aged(events: seq<Event>, oldest: real, clean: seq<Event>) {
    && (forall e :: multiset(clean)[e] == if e.ts >= oldest then multiset(events)[e] else 0)
    && (forall i, j :: 0 <= i < j < |clean| ==>
         clean[i].ts < clean[j].ts || (clean[i].ts == clean[j].ts && clean[i].ref <= clean[j].ref))
    && forall key: (real, nat) :: key.0 >= oldest ==> WithKey(clean, key) == WithKey(events, key)
  }

  lemma {:induction false} LiveKeepsCounts(events: seq<Event>, oldest: real, e: Event)
    ensures multiset(Live(events, oldest))[e] == if e.ts >= oldest then multiset(events)[e] else 0
  {
    if events != [] {
      LiveKeepsCounts(events[1..], oldest, e);
      assert events == [events[0]] + events[1..];
    }
  }

  lemma {:induction false} LiveKeepsKeys(events: seq<Event>, oldest: real, key: (real, nat))
    requires key.0 >= oldest
    ensures WithKey(Live(events, oldest), key) == WithKey(events, key)
  {
    if events != [] {
      LiveKeepsKeys(events[1..], oldest, key);
      var live := Live(events[1..], oldest);
      assert events[0].ts < oldest ==> Live(events, oldest) == live;
      assert events[0].Key() != key ==> WithKey(events, key) == WithKey(events[1..], key);
      assert ([events[0]] + Live(events[1..], oldest))[1..] == Live(events[1..], oldest);
    }
  }

  /** The position in s of an event that is not among those kept. */
  lemma {:induction false} SomeDropped(s: seq<Event>, p: Policy, e: Event) returns (i: nat)
    requires multiset(Retained(s, p))[e] < multiset(s)[e]
    ensures i < |s| && s[i] == e && i !in KeptAt(s, p)
  {
    hide Room;
    assert s != [];
    assert s == [s[0]] + s[1..];
    var newer := Retained(s[1..], p);
    if s[0] == e && !Room(newer, s[0], p) {
      i := 0;
      ShiftedContains(KeptAt(s[1..], p), 0);
    } else {
      i := SomeDropped(s[1..], p, e);
      ShiftedContains(KeptAt(s[1..], p), i + 1);
      i := i + 1;
    }
  }

  /** Fewer copies of a live event are kept than were supplied only if its context or its loop is full. */
  lemma LiveIsKeptOrFull(events: seq<Event>, p: Policy, now: real, e: Event)
    requires e.ts >= now - p.ttl as real
    ensures var kept := RetainedOf(events, p, now);
            || multiset(kept)[e] == multiset(events)[e]
            || ContextCount(kept, e.context) == p.perContext || LoopCount(kept, e.LoopKey()) == p.perLoop
  {
    hide Retained, StableSort, Live, LoopCount, ContextCount, KeptAt, Sorted, WithKey;
    var oldest := now - p.ttl as real;
    var clean := StableSort(Live(events, oldest));
    var kept := RetainedOf(events, p, now);
    LiveKeepsCounts(events, oldest, e);
    StableSortSorts(Live(events, oldest), (0.0, 0));
    KeptCount(clean, p, e);
    if multiset(kept)[e] < multiset(events)[e] {
      var i := SomeDropped(clean, p, e);
      DroppedWhenFull(clean, p, i);
      var newer := Retained(clean[i + 1..], p);
      CountsOfTail(kept, |kept| - |newer|, e.context, e.LoopKey());
      RetainedFillsLoops(clean, p, e.LoopKey());
    }
  }

  lemma {:induction false} KeptCount(s: seq<Event>, p: Policy, e: Event)
    ensures multiset(Retained(s, p))[e] <= multiset(s)[e]
  {
    if s != [] {
      KeptCount(s[1..], p, e);
      assert s == [s[0]] + s[1..];
    }
  }

  lemma {:induction false} CountsOfTail(s: seq<Event>, n: nat, c: nat, l: Loop)
    requires n <= |s|
    ensures ContextCount(s[n..], c) <= ContextCount(s, c) && LoopCount(s[n..], l) <= LoopCount(s, l)
  {
    if n > 0 {
      CountsOfTail(s[1..], n - 1, c, l);
      assert s[1..][n - 1..] == s[n..];
    } else {
      assert s[0..] == s;
    }
  }

  /** Retention is decided over exactly the events within the age limit. */
  lemma RetainsAged(events: seq<Event>, p: Policy, now: real) returns (clean: seq<Event>)
    ensures Aged(events, now - p.ttl as real, clean) && RetainedOf(events, p, now) == Retained(clean, p)
  {
    var oldest := now - p.ttl as real;
    clean := StableSort(Live(events, oldest));
    hide StableSort, Live, WithKey;
    StableSortSorts(Live(events, oldest), (0.0, 0));
    forall e
      ensures multiset(clean)[e] == if e.ts >= oldest then multiset(events)[e] else 0
    {
      LiveKeepsCounts(events, oldest, e);
    }
    forall key: (real, nat) | key.0 >= oldest
      ensures WithKey(clean, key) == WithKey(events, key)
    {
      StableSortSorts(Live(events, oldest), key);
      LiveKeepsKeys(events, oldest, key);
    }
  }

  ghost function InLoop(s: seq<Event>, e: Event): set<nat> {
    set i: nat | i < |s| && s[i].context == e.context && s[i].objective == e.objective && s[i].iteration == e.iteration
  }

  lemma {:induction false} LoopCountAppend(s: seq<Event>, e: Event, l: Loop)
    ensures LoopCount(s + [e], l) == LoopCount(s, l) + (if e.LoopKey() == l then 1 else 0)
  {
    if s == [] {
      assert [e][1..] == [] && s + [e] == [e];
    } else {
      assert (s + [e])[1..] == s[1..] + [e];
      LoopCountAppend(s[1..], e, l);
    }
  }

  /** A loop is one iteration of one objective of one context. */
  lemma {:induction false} LoopCountIsInLoop(s: seq<Event>, e: Event)
    ensures LoopCount(s, e.LoopKey()) == |InLoop(s, e)|
  {
    if s == [] {
      assert InLoop(s, e) == {};
    } else {
      var before, n := s[..|s| - 1], |s| - 1;
      LoopCountIsInLoop(before, e);
      assert s == before + [s[n]];
      LoopCountAppend(before, s[n], e.LoopKey());
      assert InLoop(s, e) == InLoop(before, e) + (if s[n].LoopKey() == e.LoopKey() then {n} else {});
    }
  }

  // ---------------------------------------------------------------- the code

  function Reversed(s: seq<Event>): seq<Event> {
    if s == [] then [] else Reversed(s[1..]) + [s[0]]
  }

  lemma {:induction false} ReversedAppend(s: seq<Event>, e: Event)
    ensures Reversed(s + [e]) == [e] + Reversed(s)
  {
    if s != [] {
      assert (s + [e])[1..] == s[1..] + [e];
      ReversedAppend(s[1..], e);
    }
  }

  lemma {:induction false} LiveAppend(events: seq<Event>, e: Event, oldest: real)
    ensures Live(events + [e], oldest) == Live(events, oldest) + (if e.ts < oldest then [] else [e])
  {
    if events != [] {
      assert (events + [e])[1..] == events[1..] + [e];
      LiveAppend(events[1..], e, oldest);
    }
  }

  method RetainEvents(events: seq<Event>, p: Policy, now: real) returns (kept: seq<Event>)
    ensures kept == RetainedOf(events, p, now)
  {
    hide Live, StableSort, Retained;
    var clean := Sweep(events, now - p.ttl as real);
    kept := KeepNewest(StableSort(clean), p);
  }

  method Sweep(events: seq<Event>, oldest: real) returns (clean: seq<Event>)
    ensures clean == Live(events, oldest)
  {
    clean := [];
    for i := 0 to |events|
      invariant clean == Live(events[..i], oldest)
    {
      assert events[..i + 1] == events[..i] + [events[i]];
      LiveAppend(events[..i], events[i], oldest);
      if events[i].ts >= oldest {
        clean := clean + [events[i]];
      }
    }
    assert events[..|events|] == events;
  }

  /** The counters stand for the counts of what is kept so far. */
  ghost predicate Counts(kept: seq<Event>, byContext: map<nat, nat>, byLoop: map<Loop, nat>) {
    && (forall c :: ContextCount(kept, c) == if c in byContext then byContext[c] else 0)
    && (forall l :: LoopCount(kept, l) == if l in byLoop then byLoop[l] else 0)
  }

  lemma CountsGrow(kept: seq<Event>, byContext: map<nat, nat>, byLoop: map<Loop, nat>, e: Event)
    requires Counts(kept, byContext, byLoop)
    ensures Counts([e] + kept, byContext[e.context := ContextCount(kept, e.context) + 1],
                   byLoop[e.LoopKey() := LoopCount(kept, e.LoopKey()) + 1])
  {
    assert ([e] + kept)[1..] == kept;
  }

  method KeepNewest(clean: seq<Event>, p: Policy) returns (kept: seq<Event>)
    ensures kept == Retained(clean, p)
  {
    var byContext: map<nat, nat>, byLoop: map<Loop, nat> := map[], map[];
    var reversed: seq<Event> := [];
    for i := |clean| downto 0
      invariant Reversed(reversed) == Retained(clean[i..], p) && Counts(Retained(clean[i..], p), byContext, byLoop)
    {
      var event := clean[i];
      var context, loop := event.context, event.LoopKey();
      var inContext := if context in byContext then byContext[context] else 0;
      var inLoop := if loop in byLoop then byLoop[loop] else 0;
      assert clean[i..][1..] == clean[i + 1..];
      if p.perContext > 0 && p.perLoop > 0 && inContext < p.perContext && inLoop < p.perLoop {
        CountsGrow(Retained(clean[i + 1..], p), byContext, byLoop, event);
        ReversedAppend(reversed, event);
        byContext := byContext[context := inContext + 1];
        byLoop := byLoop[loop := inLoop + 1];
        reversed := reversed + [event];
      }
    }
    assert clean[0..] == clean;
    kept := Reversed(reversed);
  }
}
