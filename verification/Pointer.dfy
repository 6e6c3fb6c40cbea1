/** The active-guidance pointer of one store: compare-and-swap, rollback and clear
    over a pointer row, a revision row that outlives it, and an append-only audit log.
    The functions are the specification; class GuidanceStore is the code. */
module GuidancePointer {
  import opened Basics

  type Version = nat

  datatype Slot = Slot(context: nat, bucket: nat)
  datatype ActiveRow = ActiveRow(version: Version, revision: nat)
  datatype Action = Promote | AutomaticPromote | Rollback

  /** The audit's actor, together with the candidate its detail names when the actor is the runner. */
  datatype Actor = RunnerFor(candidate: nat) | Coordinator(id: nat)

  datatype Audit = Audit(slot: Slot, action: Action, previous: Option<Version>, result: Option<Version>,
                         expected: Option<int>, resulting: nat, actor: Actor)

  datatype CasResult = OutOfScope | Refused(revision: nat) | Applied(revision: nat) | Staged

  /** The three ways the code reads a slot's revision. */
  datatype Reader = ByMaximum | ByLookup | BySlotRow

  datatype Pointers = Pointers(versions: map<Version, Slot>, active: map<Slot, ActiveRow>,
                               revisions: map<Slot, nat>, audits: seq<Audit>)
  {
    function Pointer(k: Slot): Option<Version> {
      if k in active then Some(active[k].version) else None
    }

    function SlotRevision(k: Slot): nat {
      if k in revisions then revisions[k] else 0
    }

    function ActiveRevision(k: Slot): nat {
      if k in active then active[k].revision else 0
    }

    /** What compare-and-swap, rollback and clear compare against. */
    function Effective(k: Slot): nat {
      Max(SlotRevision(k), ActiveRevision(k))
    }

    /** get_active_guidance_revision: the slot row, or the pointer row when there is none. */
    function LookupRevision(k: Slot): nat {
      if k in revisions then revisions[k] else ActiveRevision(k)
    }

    function Read(reader: Reader, k: Slot): nat {
      match reader
      case ByMaximum => Effective(k)
      case ByLookup => LookupRevision(k)
      case BySlotRow => SlotRevision(k)
    }

    /** get_active_guidance: the pointer joined with its version row. */
    function Current(k: Slot): Option<(Version, nat)> {
      if k in active && active[k].version in versions
      then Some((active[k].version,
          Max(active[k].revision, if k in revisions then revisions[k] else active[k].revision)))
      else None
    }

    function CurrentVersion(k: Slot): Option<Version> {
      match Current(k)
      case None => None
      case Some(row) => Some(row.0)
    }

    /** The foreign key from pointer rows to version rows. */
    ghost predicate Wf() {
      forall k :: k in active ==> active[k].version in versions
    }

    /** A refused call writes back a lagging slot row. */
    function Repaired(k: Slot): Pointers {
      if Effective(k) != SlotRevision(k) then this.(revisions := revisions[k := Effective(k)]) else this
    }

    function Moved(k: Slot, to: Option<Version>, action: Action, expected: Option<int>, actor: Actor): Pointers {
      var next := Effective(k) + 1;
      Pointers(versions,
               if to.Some? then active[k := ActiveRow(to.value, next)] else active - {k},
               revisions[k := next],
               audits + [Audit(k, action, Pointer(k), to, expected, next, actor)])
    }
  }

  datatype PointerOp =
    | Cas(slot: Slot, version: Version, expected: Option<int>, action: Action, actor: Actor)
    | Clear(slot: Slot, revision: int, actor: Actor)
    | Stage(slot: Slot, version: Version, actor: Actor)
  {
    function Target(): Option<Version> {
      if Clear? then None else Some(version)
    }
  }

  function Do(p: Pointers, op: PointerOp): (Pointers, CasResult) {
    var revision := p.Effective(op.slot);
    match op
    case Cas(k, v, expected, action, actor) =>
      if v !in p.versions || p.versions[v] != k then (p, OutOfScope)
      else if expected.Some? && expected.value != revision then (p.Repaired(k), Refused(revision))
      else (p.Moved(k, Some(v), action, expected, actor), Applied(revision + 1))
    case Clear(k, expected, actor) =>
      if k !in p.active || expected != revision then (p.Repaired(k), Refused(revision))
      else (p.Moved(k, None, Rollback, Some(expected), actor), Applied(revision + 1))
    case Stage(k, v, actor) =>
      // INSERT OR IGNORE: an existing version row is never overwritten.
      (if v in p.versions then p else p.(versions := p.versions[v := k]), Staged)
  }

  function Run(p: Pointers, ops: seq<PointerOp>): Pointers {
    if ops == [] then p else Do(Run(p, ops[..|ops| - 1]), ops[|ops| - 1]).0
  }

  ghost predicate AppliesTo(p: Pointers, op: PointerOp, k: Slot) {
    op.slot == k && Do(p, op).1.Applied?
  }

  /** How many calls of a run moved the pointer of slot k. */
  ghost function AppliedCount(p: Pointers, ops: seq<PointerOp>, k: Slot): nat {
    if ops == [] then 0 else
      var before := ops[..|ops| - 1];
      AppliedCount(p, before, k) + (if AppliesTo(Run(p, before), ops[|ops| - 1], k) then 1 else 0)
  }

  /** Everything one call can do to the readings of one slot. The revision it returns is the one
      a lookup then finds, whether the call was applied or refused. */
  lemma StepReadings(p: Pointers, op: PointerOp, k: Slot)
    ensures var (q, r) := Do(p, op);
            && p.SlotRevision(k) <= p.LookupRevision(k) <= p.Effective(k)
            && q.Effective(k) == p.Effective(k) + (if AppliesTo(p, op, k) then 1 else 0)
            && (AppliesTo(p, op, k) ==> q.Pointer(k) == op.Target() && q.SlotRevision(k) == q.Effective(k))
            && (!AppliesTo(p, op, k) ==> q.Pointer(k) == p.Pointer(k)
                                         && q.SlotRevision(k) in {p.SlotRevision(k), p.Effective(k)}
                                         && q.LookupRevision(k) in {p.LookupRevision(k), p.Effective(k)})
            && (op.slot == k && (r.Applied? || r.Refused?) ==> q.LookupRevision(k) == q.Effective(k) == r.revision)
            && (p.Wf() ==> q.Wf())
  {
    hide Pointers.Moved, Pointers.Repaired;
    match op {
      case Cas(k0, v, expected, action, actor) =>
        MovedReadings(p, k0, Some(v), action, expected, actor, k);
        RepairedReadings(p, k0, k);
      case Clear(k0, expected, actor) =>
        MovedReadings(p, k0, None, Rollback, Some(expected), actor, k);
        RepairedReadings(p, k0, k);
      case Stage(_, _, _) =>
    }
  }

  lemma MovedReadings(p: Pointers, moved: Slot, to: Option<Version>, action: Action, expected: Option<int>,
                      actor: Actor, k: Slot)
    ensures var q := p.Moved(moved, to, action, expected, actor);
            && q.versions == p.versions
            && (if k == moved then q.Pointer(k) == to
                 && q.SlotRevision(k) == q.LookupRevision(k) == q.Effective(k) == p.Effective(k) + 1
                else q.Pointer(k) == p.Pointer(k) && q.SlotRevision(k) == p.SlotRevision(k)
                     && q.LookupRevision(k) == p.LookupRevision(k) && q.Effective(k) == p.Effective(k))
            && (p.Wf() && (to.Some? ==> to.value in p.versions) ==> q.Wf())
  {
  }

  lemma RepairedReadings(p: Pointers, repaired: Slot, k: Slot)
    ensures var q := p.Repaired(repaired);
            && q.versions == p.versions && q.active == p.active && q.audits == p.audits
            && q.Pointer(k) == p.Pointer(k) && q.Effective(k) == p.Effective(k)
            && (if k == repaired then q.SlotRevision(k) == q.LookupRevision(k) == p.Effective(k)
                else q.SlotRevision(k) == p.SlotRevision(k) && q.LookupRevision(k) == p.LookupRevision(k))
  {
  }

  /** Version rows are never overwritten or deleted. */
  ghost predicate VersionsKept(p: Pointers, q: Pointers) {
    forall v :: v in p.versions ==> v in q.versions && q.versions[v] == p.versions[v]
  }

  lemma StepKeepsVersions(p: Pointers, op: PointerOp)
    ensures VersionsKept(p, Do(p, op).0)
  {
  }

  /** The effective revision counts applied calls exactly; a run that applied none left the pointer alone. */
  lemma {:induction false} RevisionCountsAppliedCalls(p: Pointers, ops: seq<PointerOp>, k: Slot)
    ensures Run(p, ops).Effective(k) == p.Effective(k) + AppliedCount(p, ops, k)
    ensures AppliedCount(p, ops, k) == 0 ==> Run(p, ops).Pointer(k) == p.Pointer(k)
    ensures AppliedCount(p, ops, k) > 0 ==> Run(p, ops).SlotRevision(k) == Run(p, ops).Effective(k)
    ensures p.Wf() ==> Run(p, ops).Wf()
  {
    if ops != [] {
      var before := ops[..|ops| - 1];
      RevisionCountsAppliedCalls(p, before, k);
      StepReadings(Run(p, before), ops[|ops| - 1], k);
    }
  }

  lemma {:induction false} AppliedCountMonotone(p: Pointers, ops: seq<PointerOp>, i: nat, k: Slot)
    requires i <= |ops|
    ensures AppliedCount(p, ops[..i], k) <= AppliedCount(p, ops, k)
  {
    if i < |ops| {
      assert ops[..|ops| - 1][..i] == ops[..i];
      AppliedCountMonotone(p, ops[..|ops| - 1], i, k);
    } else {
      assert ops[..i] == ops;
    }
  }

  /** ABA freedom, for any mixture of the three readers: an equal later reading means that nothing
      was applied in between, so the pointer was the same at every moment of the run, even if
      slots had been cleared and re-installed before, and even if a slot row was lagging. */
  lemma EqualReadingsPinPointer(p: Pointers, ops: seq<PointerOp>, k: Slot, earlier: Reader, later: Reader)
    requires p.Read(earlier, k) == Run(p, ops).Read(later, k)
    ensures AppliedCount(p, ops, k) == 0
    ensures forall i :: 0 <= i <= |ops| ==> Run(p, ops[..i]).Pointer(k) == p.Pointer(k)
  {
    RevisionCountsAppliedCalls(p, ops, k);
    forall i | 0 <= i <= |ops|
      ensures Run(p, ops[..i]).Pointer(k) == p.Pointer(k)
    {
      AppliedCountMonotone(p, ops, i, k);
      RevisionCountsAppliedCalls(p, ops[..i], k);
    }
  }

  // ---------------------------------------------------------------- audit log as history

  ghost function SlotAudits(audits: seq<Audit>, k: Slot): seq<Audit> {
    if audits == [] then [] else
      var rest := SlotAudits(audits[..|audits| - 1], k);
      var last := audits[|audits| - 1];
      if last.slot == k then rest + [last] else rest
  }

  /** Replays one slot's audits over a starting pointer and revision. Each entry must name the
      current pointer as its previous one and take the next revision; otherwise the replay fails. */
  ghost function Replay(pointer: Option<Version>, revision: nat, audits: seq<Audit>): Option<(Option<Version>, nat)> {
    if audits == [] then Some((pointer, revision)) else
      var last := audits[|audits| - 1];
      match Replay(pointer, revision, audits[..|audits| - 1])
      case None => None
      case Some(at) =>
        if last.previous == at.0 && last.resulting == at.1 + 1 then Some((last.result, last.resulting)) else None
  }

  lemma SlotAuditsAppend(audits: seq<Audit>, a: Audit, k: Slot)
    ensures SlotAudits(audits + [a], k) == SlotAudits(audits, k) + (if a.slot == k then [a] else [])
  {
    assert (audits + [a])[..|audits|] == audits;
  }

  lemma ReplayAppend(pointer: Option<Version>, revision: nat, audits: seq<Audit>, a: Audit)
    requires Replay(pointer, revision, audits).Some?
    requires var at := Replay(pointer, revision, audits).value; a.previous == at.0 && a.resulting == at.1 + 1
    ensures Replay(pointer, revision, audits + [a]) == Some((a.result, a.resulting))
  {
    assert (audits + [a])[..|audits|] == audits;
  }

  /** One call either leaves the log alone or appends the entry that describes its move. */
  lemma StepAppends(p: Pointers, op: PointerOp)
    ensures var (q, r) := Do(p, op);
            if r.Applied? then
              exists a :: q.audits == p.audits + [a] && a.slot == op.slot && a.previous == p.Pointer(op.slot)
                          && a.result == op.Target() && a.resulting == r.revision && a.actor == op.actor
            else q.audits == p.audits
  {
    var (q, r) := Do(p, op);
    if r.Applied? {
      assert q.audits == p.audits + [q.audits[|p.audits|]];
    }
  }

  ghost predicate Explains(p: Pointers, q: Pointers, k: Slot) {
    && p.audits <= q.audits
    && Replay(p.Pointer(k), p.Effective(k), SlotAudits(q.audits[|p.audits|..], k))
         == Some((q.Pointer(k), q.Effective(k)))
  }

  lemma HistoryStep(p: Pointers, before: Pointers, op: PointerOp, k: Slot)
    requires Explains(p, before, k)
    ensures Explains(p, Do(before, op).0, k)
  {
    hide SlotAudits, Replay;
    StepReadings(before, op, k);
    StepAppends(before, op);
    var earlier, after := before.audits[|p.audits|..], Do(before, op).0;
    if Do(before, op).1.Applied? {
      var a :| after.audits == before.audits + [a] && a.slot == op.slot && a.previous == before.Pointer(op.slot)
               && a.result == op.Target() && a.resulting == Do(before, op).1.revision && a.actor == op.actor;
      assert (before.audits + [a])[|p.audits|..] == earlier + [a];
      SlotAuditsAppend(earlier, a, k);
      if a.slot == k {
        ReplayAppend(p.Pointer(k), p.Effective(k), SlotAudits(earlier, k), a);
      } else {
        assert SlotAudits(earlier, k) + [] == SlotAudits(earlier, k);
      }
      assert after.audits[|p.audits|..] == earlier + [a];
    }
  }

  /** The log is append-only, and what a run appended replays the slot's history exactly:
      consecutive revisions, linked previous entries, ending in the current pointer and revision. */
  lemma {:induction false} AuditLogReplaysHistory(p: Pointers, ops: seq<PointerOp>, k: Slot)
    ensures Explains(p, Run(p, ops), k)
  {
    if ops == [] {
      assert p.audits[|p.audits|..] == [];
    } else {
      var before, op := Run(p, ops[..|ops| - 1]), ops[|ops| - 1];
      AuditLogReplaysHistory(p, ops[..|ops| - 1], k);
      HistoryStep(p, before, op, k);
    }
  }

  // ---------------------------------------------------------------- the code

  class GuidanceStore {
    var versions: map<Version, Slot>
    var active: map<Slot, ActiveRow>
    var revisions: map<Slot, nat>
    var audits: seq<Audit>

    function State(): Pointers
      reads this
    {
      Pointers(versions, active, revisions, audits)
    }

    /** The effective revision, for history only: no decision of the code reads it. */
    function EffectiveNow(k: Slot): nat
      reads this
    {
      Max(if k in revisions then revisions[k] else 0, if k in active then active[k].revision else 0)
    }

    constructor (initial: Pointers)
      ensures State() == initial
    {
      versions, active, revisions, audits := initial.versions, initial.active, initial.revisions, initial.audits;
    }

    /** The tables as other processes leave them. */
    method Become(p: Pointers)
      modifies this
      ensures State() == p
    {
      versions, active, revisions, audits := p.versions, p.active, p.revisions, p.audits;
    }

    method CompareAndSwap(k: Slot, v: Version, expected: Option<int>, action: Action, actor: Actor)
      returns (result: CasResult)
      modifies this
      ensures (State(), result) == Do(old(State()), Cas(k, v, expected, action, actor))
    {
      if !(v in versions && versions[v] == k) {
        return OutOfScope;
      }
      var slotRevision := if k in revisions then revisions[k] else 0;
      var activeRevision := if k in active then active[k].revision else 0;
      var revision := Max(slotRevision, activeRevision);
      var previous := if k in active then Some(active[k].version) else None;
      if expected.Some? && revision != expected.value {
        if revision != slotRevision {
          revisions := revisions[k := revision];
        }
        return Refused(revision);
      }
      var next := revision + 1;
      active := active[k := ActiveRow(v, next)];
      revisions := revisions[k := next];
      audits := audits + [Audit(k, action, previous, Some(v), expected, next, actor)];
      return Applied(next);
    }

    method RollBack(k: Slot, v: Version, expected: Option<int>, actor: Actor) returns (result: CasResult)
      modifies this
      ensures (State(), result) == Do(old(State()), Cas(k, v, expected, Rollback, actor))
    {
      result := CompareAndSwap(k, v, expected, Rollback, actor);
    }

    method ClearSlot(k: Slot, expected: int, actor: Actor) returns (result: CasResult)
      modifies this
      ensures (State(), result) == Do(old(State()), Clear(k, expected, actor))
    {
      var slotRevision := if k in revisions then revisions[k] else 0;
      var activeRevision := if k in active then active[k].revision else 0;
      var revision := Max(slotRevision, activeRevision);
      if k !in active || revision != expected {
        if revision != slotRevision {
          revisions := revisions[k := revision];
        }
        return Refused(revision);
      }
      var next := revision + 1;
      var previous := active[k].version;
      active := active - {k};
      revisions := revisions[k := next];
      audits := audits + [Audit(k, Rollback, Some(previous), None, Some(expected), next, actor)];
      return Applied(next);
    }

    method AppendVersion(v: Version, k: Slot, ghost actor: Actor)
      modifies this
      ensures State() == Do(old(State()), Stage(k, v, actor)).0
    {
      if v !in versions {
        versions := versions[v := k];
      }
    }

    method GetActive(k: Slot) returns (row: Option<(Version, nat)>)
      ensures row == State().Current(k)
      ensures State().Wf() ==> (row.Some? <==> k in active)
      ensures row.Some? ==> row.value.0 == active[k].version && row.value.1 == State().Effective(k)
    {
      if k in active && active[k].version in versions {
        var slot := if k in revisions then revisions[k] else active[k].revision;
        row := Some((active[k].version, Max(active[k].revision, slot)));
      } else {
        row := None;
      }
    }

    method GetRevision(k: Slot) returns (revision: nat)
      ensures revision == State().LookupRevision(k)
      ensures k in revisions ==> revision == revisions[k]
      ensures k !in revisions ==> revision == if k in active then active[k].revision else 0
    {
      if k in revisions {
        return revisions[k];
      }
      revision := if k in active then active[k].revision else 0;
    }
  }
}
