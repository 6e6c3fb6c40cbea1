/** The invariant holds in every reachable state, with crashes and foreign pointer writers
    interleaved at every step; what follows from it is stated in TransitionTheorems. */
module TransitionRuns {
  import opened Basics
  import opened GuidancePointer
  import opened Transition
  import opened TransitionInvariant

  ghost predicate OthersSame(s: Core, t: Core, c: nat) {
    forall d :: d != c ==>
      && (d in s.rows <==> d in t.rows)
      && (d in s.rows ==> t.rows[d] == s.rows[d])
      && Of(t.receipts, d) == Of(s.receipts, d)
      && ResolverOf(t, d) == ResolverOf(s, d)
  }

  /** A step on one candidate's row, receipts or resolver that leaves the pointers alone. */
  lemma OwnStep(s: Core, t: Core, c: nat)
    requires Inv(s) && t.p == s.p && OthersSame(s, t, c) && c in t.rows
    requires CandidateOk(t.p, c, t.rows[c], Of(t.receipts, c), ResolverOf(t, c))
    requires if c in s.rows then t.rows[c].slot == s.rows[c].slot && (Live(t.rows[c].phase) ==> Live(s.rows[c].phase))
             else !s.Occupied(t.rows[c].slot)
    ensures Inv(t)
  {
    hide CandidateOk, Of;
    forall d | d in t.rows
      ensures CandidateOk(t.p, d, t.rows[d], Of(t.receipts, d), ResolverOf(t, d))
    {
      if d != c {
        assert d in s.rows;
      }
    }
    forall d | d !in t.rows
      ensures Untouched(t, d)
    {
      assert Untouched(s, d);
      assert ResolverOf(t, d) == ResolverOf(s, d);
    }
    assert c !in s.rows ==> forall d :: d in s.rows && s.rows[d].slot == t.rows[c].slot ==> !Live(s.rows[d].phase);
  }

  /** The usual own step: a new row, a new resolver position, or both. */
  lemma Updated(s: Core, t: Core, c: nat)
    requires Inv(s) && c in s.rows && c in t.rows
    requires t == s.(rows := s.rows[c := t.rows[c]], resolvers := t.resolvers)
    requires t.resolvers - {c} == s.resolvers - {c}
    requires CandidateOk(s.p, c, t.rows[c], Of(s.receipts, c), ResolverOf(t, c))
    requires t.rows[c].slot == s.rows[c].slot && (Live(t.rows[c].phase) ==> Live(s.rows[c].phase))
    ensures Inv(t)
  {
    hide CandidateOk, Of, Live, Inv, Untouched;
    forall d | d != c
      ensures ResolverOf(t, d) == ResolverOf(s, d)
    {
      assert d in t.resolvers <==> d in t.resolvers - {c};
      assert d in s.resolvers <==> d in s.resolvers - {c};
      assert d in s.resolvers ==> t.resolvers[d] == (t.resolvers - {c})[d] == (s.resolvers - {c})[d];
    }
    OwnStep(s, t, c);
  }

  lemma ForeignStep(s: Core, op: PointerOp)
    requires Inv(s) && !op.actor.RunnerFor?
    ensures Inv(s.(p := Do(s.p, op).0))
  {
    hide CandidateOk, Of;
    var t := s.(p := Do(s.p, op).0);
    StepReadings(s.p, op, op.slot);
    StepAppends(s.p, op);
    forall c | c in t.rows
      ensures CandidateOk(t.p, c, t.rows[c], Of(t.receipts, c), ResolverOf(t, c))
    {
      ForeignKeepsCandidate(s.p, op, c, s.rows[c], Of(s.receipts, c), ResolverOf(s, c));
      assert ResolverOf(t, c) == ResolverOf(s, c);
    }
    forall c | c !in t.rows
      ensures Untouched(t, c)
    {
      assert Untouched(s, c);
    }
  }

  lemma AdmitStep(s: Core, x: Proposal, checks: Checks, now: int)
    requires Inv(s)
    ensures Inv(Consider(s, x, checks, now).0)
  {
    hide CandidateOk, Of, Consider, Inv;
    var t := Consider(s, x, checks, now).0;
    AdmissionShape(s, x, checks, now);
    if t != s {
      NobodyYet(s, x.candidate);
      AdmittedOk(s, x, checks, now);
      OwnStep(s, t, x.candidate);
    }
  }

  lemma AdmissionShape(s: Core, x: Proposal, checks: Checks, now: int)
    ensures var t := Consider(s, x, checks, now).0;
            t == s || (&& x.candidate !in s.rows && x.candidate in t.rows && !s.Occupied(t.rows[x.candidate].slot)
                       && t == s.(rows := s.rows[x.candidate := t.rows[x.candidate]]))
  {
    hide Settings;
  }

  lemma NobodyYet(s: Core, c: nat)
    requires Inv(s) && c !in s.rows
    ensures Of(s.receipts, c) == [] && c !in s.resolvers
  {
    assert Untouched(s, c);
  }

  lemma MarkStep(s: Core, c: nat, from: set<Phase>, phase: Phase, reason: Reason)
    requires Inv(s)
    requires c in s.rows && s.rows[c].phase in from ==>
               && c !in s.resolvers
               && ((phase == RecoveryRequired && Live(s.rows[c].phase))
                    || (phase == Rejected && s.rows[c].phase == Canary))
    requires !NeedsGrounds(reason)
    ensures Inv(s.Mark(c, from, phase, reason))
  {
    hide CandidateOk, Of;
    var t := s.Mark(c, from, phase, reason);
    if t != s {
      assert ResolverOf(s, c) == ResolverOf(t, c) == None;
      StoppedOk(s.p, c, s.rows[c], Of(s.receipts, c), phase, reason);
      Updated(s, t, c);
    }
  }

  /** Only a pending row has a resolver. */
  lemma SettledRowsHaveNone(s: Core, c: nat)
    requires Inv(s) && c in s.resolvers
    ensures c in s.rows && s.resolvers[c].item == s.rows[c] && Pending(s.rows[c])
  {
    assert c !in s.rows ==> Untouched(s, c);
    assert ResolverOf(s, c).Some?;
  }

  lemma RecordStep(s: Core, x: Selection, success: Option<bool>, hard: Option<bool>, standing: Standing, now: int)
    requires Inv(s)
    ensures Inv(Record(s, x, success, hard, standing, now).0)
  {
    hide CandidateOk, Observed, Of;
    var c, t := x.candidate, Record(s, x, success, hard, standing, now).0;
    if t != s {
      if c in s.resolvers {
        SettledRowsHaveNone(s, c);
      }
      var row, phase := s.rows[c], StagePhase(x.stage);
      if |t.receipts| == |s.receipts| {
        if t.rows[c].phase == Rejected {
          MarkStep(s, c, {Canary}, Rejected, CanaryExpired);
        } else {
          MarkStep(s, c, {phase}, RecoveryRequired, t.rows[c].reason);
        }
      } else {
        AcceptedStep(s, x, success.value, hard.value);
      }
    }
  }

  lemma ObservedShape(row: Row, mine: seq<Receipt>, stage: Stage, arm: Arm, success: bool)
    requires Observed(row, mine, stage, arm, success).Some? && Live(row.phase)
    ensures Observed(row, mine, stage, arm, success).value.slot == row.slot
  {
  }

  lemma ReceiptConcernsOne(s: Core, t: Core, c: nat, r: Receipt)
    requires c in s.rows && c in t.rows && r.candidate == c
    requires t == s.(rows := s.rows[c := t.rows[c]], receipts := s.receipts + [r])
    ensures OthersSame(s, t, c)
  {
    forall d | d != c
      ensures Of(t.receipts, d) == Of(s.receipts, d)
    {
      OfAppend(s.receipts, r, d);
    }
  }

  lemma AcceptedStep(s: Core, x: Selection, success: bool, hard: bool)
    requires Inv(s) && x.candidate in s.rows && x.candidate !in s.resolvers && x.exposure.Some?
    requires s.rows[x.candidate].phase == StagePhase(x.stage)
    requires !Recorded(s.receipts, x.candidate, x.exposure.value)
    requires x.arm != UnknownArm && (x.stage.InMonitor? ==> x.arm == CandidateArm)
    ensures var c := x.candidate;
            var r := Receipt(c, x.exposure.value, x.stage, x.arm, success, hard);
            var next := Observed(s.rows[c], Of(s.receipts + [r], c), x.stage, x.arm, success);
            next.Some? && Inv(s.(rows := s.rows[c := next.value], receipts := s.receipts + [r]))
  {
    hide CandidateOk, Observed, Of, Recorded;
    var c := x.candidate;
    var r := Receipt(c, x.exposure.value, x.stage, x.arm, success, hard);
    OfKeepsAll(s.receipts, c, x.exposure.value);
    OfAppend(s.receipts, r, c);
    assert ResolverOf(s, c) == None;
    RecordedOk(s.p, c, s.rows[c], Of(s.receipts, c), r);
    var next := Observed(s.rows[c], Of(s.receipts + [r], c), x.stage, x.arm, success);
    ObservedShape(s.rows[c], Of(s.receipts + [r], c), x.stage, x.arm, success);
    var t := s.(rows := s.rows[c := next.value], receipts := s.receipts + [r]);
    ReceiptConcernsOne(s, t, c, r);
    assert ResolverOf(t, c) == None && Live(s.rows[c].phase);
    hide OthersSame, Inv, ResolverOf;
    OwnStep(s, t, c);
  }

  /** A resolver's pointer call concerns everyone else as a foreign call. */
  lemma SwapStep(s: Core, c: nat, t: Core)
    requires Inv(s) && c in s.rows && c in s.resolvers && s.resolvers[c].pc == Swap
    requires t.p == Do(s.p, SwapOp(c, s.rows[c])).0 && t.rows == s.rows && t.receipts == s.receipts
    requires OthersSame(s, t, c) && c in t.rows
    requires CandidateOk(t.p, c, t.rows[c], Of(t.receipts, c), ResolverOf(t, c))
    ensures Inv(t)
  {
    hide CandidateOk, Of;
    var op := SwapOp(c, s.rows[c]);
    StepReadings(s.p, op, op.slot);
    StepAppends(s.p, op);
    forall d | d in t.rows
      ensures CandidateOk(t.p, d, t.rows[d], Of(t.receipts, d), ResolverOf(t, d))
    {
      if d != c {
        ForeignKeepsCandidate(s.p, op, d, s.rows[d], Of(s.receipts, d), ResolverOf(s, d));
      }
    }
    forall d | d !in t.rows
      ensures Untouched(t, d)
    {
      assert Untouched(s, d) && ResolverOf(t, d) == ResolverOf(s, d);
    }
  }

  lemma ResolveWrite(s: Core, c: nat, o: Outside)
    requires Inv(s) && c in s.resolvers && (s.resolvers[c].pc.Reject? || s.resolvers[c].pc.Finish?)
    ensures Inv(Advance(s, c, o))
  {
    hide CandidateOk, Of, Live;
    SettledRowsHaveNone(s, c);
    var row, mine, t := s.rows[c], Of(s.receipts, c), Advance(s, c, o);
    assert ResolverOf(s, c) == Some(Resolver(row, s.resolvers[c].pc));
    match s.resolvers[c].pc {
      case Reject(reason) => RejectedStep(s, c, reason);
      case Finish(applied, revision, recovered) =>
        PendingIsLive(row);
        FinishedOk(s.p, c, row, mine, applied, revision, recovered);
        Updated(s, t, c);
    }
  }

  lemma PendingIsLive(row: Row)
    requires Pending(row)
    ensures Live(row.phase)
  {
  }

  lemma OnlyPromotionIsRejected(p: Pointers, c: nat, row: Row, mine: seq<Receipt>, reason: Reason)
    requires CandidateOk(p, c, row, mine, Some(Resolver(row, Reject(reason))))
    ensures row.phase == Promoting
  {
  }

  lemma RejectedStep(s: Core, c: nat, reason: Reason)
    requires Inv(s) && c in s.resolvers && s.resolvers[c].pc == Reject(reason)
    ensures Inv(s.Mark(c, {Promoting}, Rejected, reason).Drop(c))
  {
    hide CandidateOk, Of;
    SettledRowsHaveNone(s, c);
    assert ResolverOf(s, c) == Some(Resolver(s.rows[c], Reject(reason)));
    OnlyPromotionIsRejected(s.p, c, s.rows[c], Of(s.receipts, c), reason);
    RejectedOk(s.p, c, s.rows[c], Of(s.receipts, c), reason);
    Updated(s, s.Mark(c, {Promoting}, Rejected, reason).Drop(c), c);
  }

  lemma ResolveSwap(s: Core, c: nat, o: Outside)
    requires Inv(s) && c in s.resolvers && s.resolvers[c].pc == Swap
    ensures Inv(Advance(s, c, o))
  {
    hide CandidateOk, Do, SwapOp;
    SettledRowsHaveNone(s, c);
    var row, mine, t := s.rows[c], Of(s.receipts, c), Advance(s, c, o);
    assert ResolverOf(s, c) == Some(Resolver(row, Swap));
    if o.authority {
      SwapOk(s.p, c, row, mine);
      SwapStep(s, c, t);
    } else {
      CrashedOk(s.p, c, row, mine, ResolverOf(s, c));
      Updated(s, t, c);
    }
  }

  lemma ResolveRead(s: Core, c: nat, o: Outside)
    requires Inv(s) && c in s.resolvers
    requires var pc := s.resolvers[c].pc; !pc.Swap? && !pc.Reject? && !pc.Finish?
    ensures Inv(Advance(s, c, o))
  {
    hide CandidateOk, AfterReads, SwapTo;
    SettledRowsHaveNone(s, c);
    var row, mine, pc, t := s.rows[c], Of(s.receipts, c), s.resolvers[c].pc, Advance(s, c, o);
    assert ResolverOf(s, c) == Some(Resolver(row, pc));
    match pc {
      case ReadVersion => VersionReadOk(s.p, c, row, mine, pc);
      case RereadVersion(_) => VersionReadOk(s.p, c, row, mine, pc);
      case ReadRevision(seen) => DecisionOk(s.p, c, row, mine, seen, o);
      case RereadRevision(refused, seen) => SecondDecisionOk(s.p, c, row, mine, refused, seen);
    }
    Updated(s, t, c);
  }

  lemma ResolveStep(s: Core, c: nat, o: Outside)
    requires Inv(s) && c in s.resolvers
    ensures Inv(Advance(s, c, o))
  {
    hide Inv, Advance;
    match s.resolvers[c].pc {
      case Swap => ResolveSwap(s, c, o);
      case Reject(_) => ResolveWrite(s, c, o);
      case Finish(_, _, _) => ResolveWrite(s, c, o);
      case _ => ResolveRead(s, c, o);
    }
  }

  lemma BeginStep(s: Core, c: nat)
    requires Inv(s) && CanBegin(s, c)
    ensures Inv(s.(resolvers := s.resolvers[c := Resolver(s.rows[c], ReadVersion)]))
  {
    hide CandidateOk, Of;
    BegunOk(s.p, c, s.rows[c], Of(s.receipts, c));
    Updated(s, s.(resolvers := s.resolvers[c := Resolver(s.rows[c], ReadVersion)]), c);
  }

  lemma CrashStep(s: Core, c: nat)
    requires Inv(s)
    ensures Inv(s.Drop(c))
  {
    hide CandidateOk, Of;
    if c in s.resolvers {
      SettledRowsHaveNone(s, c);
      CrashedOk(s.p, c, s.rows[c], Of(s.receipts, c), ResolverOf(s, c));
      Updated(s, s.Drop(c), c);
    } else {
      assert s.Drop(c) == s;
    }
  }

  /** Every step of the machine keeps the invariant. */
  lemma NextKeepsInv(s: Core, step: Step)
    requires Inv(s)
    ensures Inv(Next(s, step))
  {
    hide Inv, Record, Consider, Advance;
    match step {
      case Foreign(op) => if !op.actor.RunnerFor? { ForeignStep(s, op); }
      case Admit(x, checks, now) => AdmitStep(s, x, checks, now);
      case RecordOutcome(x, success, hard, standing, now) => RecordStep(s, x, success, hard, standing, now);
      case SelectMark(c, fetched, seen, revision, standing, now, assignment, ca, ba) =>
        var choice := Choose(fetched, seen, revision, standing, now, assignment, ca, ba);
        if choice.MarkRow? {
          if c in s.resolvers { SettledRowsHaveNone(s, c); }
          MarkStep(s, c, choice.from, choice.phase, choice.reason);
        }
      case ExpireCanary(c, standing, now) =>
        if c in s.resolvers { SettledRowsHaveNone(s, c); }
        MarkStep(s, c, {Canary}, Rejected, CanaryExpired);
      case Begin(c) => if CanBegin(s, c) { BeginStep(s, c); }
      case Resume(c, standing) =>
        if CanBegin(s, c) && standing.binding.Some? {
          if standing.Matches(s.rows[c]) {
            BeginStep(s, c);
          } else {
            MarkStep(s, c, {s.rows[c].phase}, RecoveryRequired, AuthorityDrift);
          }
        }
      case Resolve(c, o) => if c in s.resolvers { ResolveStep(s, c, o); }
      case Crash(c) => CrashStep(s, c);
    }
  }

  lemma {:induction false} Reachable(s: Core, steps: seq<Step>)
    requires Inv(s)
    ensures Inv(Transition.Run(s, steps))
  {
    if steps != [] {
      Reachable(s, steps[..|steps| - 1]);
      NextKeepsInv(Transition.Run(s, steps[..|steps| - 1]), steps[|steps| - 1]);
    }
  }
}
