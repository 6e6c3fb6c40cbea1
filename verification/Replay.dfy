/** Frozen paired replay: both arms run on the same held-out cases, and a promotion is ready only if no case failed
    hard, no judge failed and no bucket of cases regressed beyond its limit. Scores are exact reals. */
module Replay {
  import opened Basics

  // ---------------------------------------------------------------- the frozen manifest

  /** A case as supplied: id is its own identifier, if it has one; digest stands for the hash of its content
      and position that replaces a missing one. */
  datatype RawCase = RawCase(id: Option<string>, digest: string, bucket: string, isProtected: bool)
  datatype Case = Case(id: string, bucket: string, isProtected: bool)

  datatype Frozen = Manifest(cases: seq<Case>) | NoCases | DuplicateIds | OverlapsTraining

  function CaseId(raw: RawCase): string {
    if raw.id.Some? && raw.id.value != "" then raw.id.value else raw.digest
  }

  function BucketOf(raw: RawCase): string {
    if raw.bucket == "" then "reasoning" else raw.bucket
  }

  /** Two positions hold the same case. */
  ghost predicate Repeats(cases: seq<RawCase>) {
    exists i, j :: 0 <= i < j < |cases| && CaseId(cases[i]) == CaseId(cases[j])
  }

  /** A manifest is exactly the supplied cases under distinct ids, and is refused only for want of cases or
      for a repeated id. */
  method CreateManifest(cases: seq<RawCase>) returns (frozen: Frozen)
    ensures frozen.NoCases? <==> cases == []
    ensures frozen.DuplicateIds? <==> Repeats(cases)
    ensures !frozen.OverlapsTraining?
    ensures frozen.Manifest? ==>
              && |frozen.cases| == |cases|
              && (forall i :: 0 <= i < |cases| ==>
                   frozen.cases[i] == Case(CaseId(cases[i]), BucketOf(cases[i]), cases[i].isProtected))
              && (forall i :: 0 <= i < |cases| && cases[i].id in {None, Some("")} ==>
                   frozen.cases[i].id == cases[i].digest)
              && (forall i :: 0 <= i < |cases| && cases[i].id !in {None, Some("")} ==>
                   Some(frozen.cases[i].id) == cases[i].id)
              && (forall i, j :: 0 <= i < j < |cases| ==> frozen.cases[i].id != frozen.cases[j].id)
  {
    if cases == [] {
      return NoCases;
    }
    var seen: set<string> := {};
    var rows: seq<Case> := [];
    for i := 0 to |cases|
      invariant |rows| == i
      invariant forall j :: 0 <= j < i ==> rows[j] == Case(CaseId(cases[j]), BucketOf(cases[j]), cases[j].isProtected)
      invariant seen == set j | 0 <= j < i :: CaseId(cases[j])
      invariant forall j, k :: 0 <= j < k < i ==> CaseId(cases[j]) != CaseId(cases[k])
    {
      var id := CaseId(cases[i]);
      if id in seen {
        return DuplicateIds;
      }
      assert forall j :: 0 <= j < i ==> CaseId(cases[j]) in seen;
      seen := seen + {id};
      rows := rows + [Case(id, BucketOf(cases[i]), cases[i].isProtected)];
    }
    frozen := Manifest(rows);
  }

  /** The held-out set shares no case with training. */
  method FreezeHeldOut(cases: seq<RawCase>, training: set<string>) returns (frozen: Frozen)
    ensures frozen.Manifest? <==>
              cases != [] && !Repeats(cases) && forall i :: 0 <= i < |cases| ==> CaseId(cases[i]) in training ==>
                CaseId(cases[i]) == ""
    ensures frozen.Manifest? ==>
              |frozen.cases| == |cases| && forall i :: 0 <= i < |cases| ==> frozen.cases[i].id == CaseId(cases[i])
  {
    frozen := CreateManifest(cases);
    if frozen.Manifest? {
      var ids := set i | 0 <= i < |frozen.cases| :: frozen.cases[i].id;
      assert forall i :: 0 <= i < |cases| ==> CaseId(cases[i]) in ids;
      if (training - {""}) * ids != {} {
        var id :| id in (training - {""}) * ids;
        assert exists i :: 0 <= i < |cases| && CaseId(cases[i]) == id;
        return OverlapsTraining;
      }
      forall i | 0 <= i < |cases| && CaseId(cases[i]) in training
        ensures CaseId(cases[i]) == ""
      {
        assert CaseId(cases[i]) in ids;
        assert CaseId(cases[i]) !in (training - {""}) * ids;
      }
    }
  }

  // ---------------------------------------------------------------- one paired trial

  type Arm = nat

  /** score is None when the evaluation reports something that is not a number. */
  datatype Outcome = Outcome(score: Option<real>, failures: seq<string>)
  datatype JudgeError = Exception(name: string) | InvalidResponse | InvalidVerdict | Inconclusive

  /** What the judge sees: two unlabelled outputs. */
  datatype Payload = Payload(shown: Case, a: Outcome, b: Outcome)
  datatype Trial = Trial(shown: Case, base: Outcome, trial: Outcome, error: Option<JudgeError>)

  function Clamped(x: real): (y: real)
    ensures 0.0 <= y <= 1.0 && (0.0 <= x <= 1.0 ==> y == x)
  {
    if x < 0.0 then 0.0 else if x > 1.0 then 1.0 else x
  }

  function Score(x: Option<real>): (y: real)
    ensures 0.0 <= y <= 1.0
  {
    if x.Some? then Clamped(x.value) else 0.0
  }

  function Blinded(shown: Case, base: Outcome, trial: Outcome, index: nat): Payload {
    if index % 2 == 0 then Payload(shown, base, trial) else Payload(shown, trial, base)
  }

  function RunTrial(shown: Case, index: nat, baseline: Arm, candidate: Arm, execute: (Case, Arm) -> Outcome,
                    judge: Option<Payload -> Option<JudgeError>>): Trial
  {
    var base, trial := execute(shown, baseline), execute(shown, candidate);
    Trial(shown, base, trial, if judge.None? then None else judge.value(Blinded(shown, base, trial, index)))
  }

  // ---------------------------------------------------------------- averages and regressions

  function BaseSum(trials: seq<Trial>): real {
    if trials == [] then 0.0 else Score(trials[0].base.score) + BaseSum(trials[1..])
  }

  function TrialSum(trials: seq<Trial>): real {
    if trials == [] then 0.0 else Score(trials[0].trial.score) + TrialSum(trials[1..])
  }

  function Average(sum: real, n: nat): real {
    if n == 0 then 0.0 else sum / n as real
  }

  /** How far the candidate's average falls below the baseline's. */
  function Regression(trials: seq<Trial>): real {
    var drop := Average(BaseSum(trials), |trials|) - Average(TrialSum(trials), |trials|);
    if drop > 0.0 then drop else 0.0
  }

  function InBucket(trials: seq<Trial>, bucket: string): seq<Trial> {
    if trials == [] then []
    else if trials[0].shown.bucket == bucket then [trials[0]] + InBucket(trials[1..], bucket)
    else InBucket(trials[1..], bucket)
  }

  function OutsideBucket(trials: seq<Trial>, bucket: string): seq<Trial> {
    if trials == [] then []
    else if trials[0].shown.bucket == bucket then OutsideBucket(trials[1..], bucket)
    else [trials[0]] + OutsideBucket(trials[1..], bucket)
  }

  function Buckets(trials: seq<Trial>): set<string> {
    set t | t in trials :: t.shown.bucket
  }

  lemma QuotientDrop(b: real, c: real, n: real, limit: real)
    requires n > 0.0
    ensures b / n - c / n <= limit <==> b - c <= limit * n
  {
    var drop := b / n - c / n;
    assert drop * n == b - c;
    if drop <= limit {
      assert (limit - drop) * n >= 0.0;
    } else {
      assert (drop - limit) * n > 0.0;
    }
  }

  /** A regression limit holds of the averages exactly if it holds of the sums. */
  lemma RegressionOfSums(trials: seq<Trial>, limit: real)
    requires limit >= 0.0
    ensures Regression(trials) <= limit <==> BaseSum(trials) - TrialSum(trials) <= limit * |trials| as real
  {
    if trials == [] {
      assert BaseSum(trials) == TrialSum(trials) == 0.0;
    } else {
      hide BaseSum, TrialSum;
      assert Average(BaseSum(trials), |trials|) - Average(TrialSum(trials), |trials|)
          == BaseSum(trials) / |trials| as real - TrialSum(trials) / |trials| as real;
      QuotientDrop(BaseSum(trials), TrialSum(trials), |trials| as real, limit);
    }
  }

  /** Sums and counts over a bucket and over the rest are those over all trials. */
  lemma {:induction false} GroupedSums(trials: seq<Trial>, bucket: string)
    ensures BaseSum(trials) == BaseSum(InBucket(trials, bucket)) + BaseSum(OutsideBucket(trials, bucket))
    ensures TrialSum(trials) == TrialSum(InBucket(trials, bucket)) + TrialSum(OutsideBucket(trials, bucket))
    ensures |trials| == |InBucket(trials, bucket)| + |OutsideBucket(trials, bucket)|
  {
    if trials != [] {
      GroupedSums(trials[1..], bucket);
      var inside, outside := InBucket(trials[1..], bucket), OutsideBucket(trials[1..], bucket);
      assert ([trials[0]] + inside)[1..] == inside && ([trials[0]] + outside)[1..] == outside;
    }
  }

  lemma {:induction false} OtherBuckets(trials: seq<Trial>, bucket: string, other: string)
    requires bucket != other
    ensures InBucket(OutsideBucket(trials, bucket), other) == InBucket(trials, other)
  {
    if trials != [] {
      OtherBuckets(trials[1..], bucket, other);
      assert ([trials[0]] + OutsideBucket(trials[1..], bucket))[1..] == OutsideBucket(trials[1..], bucket);
    }
  }

  lemma {:induction false} OutsideMembers(trials: seq<Trial>, bucket: string)
    ensures forall t :: t in OutsideBucket(trials, bucket) ==> t in trials && t.shown.bucket != bucket
  {
    if trials != [] {
      OutsideMembers(trials[1..], bucket);
    }
  }

  lemma TwoPartsBoundTheWhole(trials: seq<Trial>, bucket: string, limit: real)
    requires limit >= 0.0
    requires Regression(InBucket(trials, bucket)) <= limit && Regression(OutsideBucket(trials, bucket)) <= limit
    ensures Regression(trials) <= limit
  {
    hide Regression, BaseSum, TrialSum, InBucket, OutsideBucket;
    var inside, outside := InBucket(trials, bucket), OutsideBucket(trials, bucket);
    GroupedSums(trials, bucket);
    RegressionOfSums(inside, limit);
    RegressionOfSums(outside, limit);
    RegressionOfSums(trials, limit);
    assert limit * |trials| as real == limit * |inside| as real + limit * |outside| as real;
  }

  /** If every bucket is within the limit, so is the whole. */
  lemma {:induction false} BucketsBoundTheWhole(trials: seq<Trial>, buckets: set<string>, limit: real)
    requires limit >= 0.0 && forall t :: t in trials ==> t.shown.bucket in buckets
    requires forall b :: b in buckets ==> Regression(InBucket(trials, b)) <= limit
    ensures Regression(trials) <= limit
    decreases buckets
  {
    if trials != [] {
      hide Regression, InBucket, OutsideBucket;
      var b := trials[0].shown.bucket;
      forall other | other in buckets - {b}
        ensures Regression(InBucket(OutsideBucket(trials, b), other)) <= limit
      {
        OtherBuckets(trials, b, other);
      }
      OutsideMembers(trials, b);
      BucketsBoundTheWhole(OutsideBucket(trials, b), buckets - {b}, limit);
      TwoPartsBoundTheWhole(trials, b, limit);
    }
  }

  // ---------------------------------------------------------------- reasons and decision

  datatype Decision = PromotionReady | Rejected | ReviewOnly

  datatype Report = Report(decision: Decision, reasons: set<string>, paired: nat, baselineScore: real,
                           candidateScore: real, regression: real, regressions: map<string, real>)

  function ErrorText(error: JudgeError): string {
    match error
    case Exception(name) => "judge_exception:" + name
    case InvalidResponse => "judge_invalid_response"
    case InvalidVerdict => "judge_invalid_verdict"
    case Inconclusive => "judge_inconclusive"
  }

  function FailureText(id: string, arm: string, failure: string): string {
    id + ":" + (arm + ":" + failure)
  }

  function RegressionText(kind: string, bucket: string): string {
    kind + ":" + bucket
  }

  /** The reasons one trial gives. */
  function TrialReasons(t: Trial): set<string> {
    (set f | f in t.base.failures :: FailureText(t.shown.id, "baseline", f))
    + (set f | f in t.trial.failures :: FailureText(t.shown.id, "candidate", f))
    + (if t.error.Some? then {t.shown.id + ":" + ErrorText(t.error.value)} else {})
  }

  function AllTrialReasons(trials: seq<Trial>): set<string> {
    if trials == [] then {} else AllTrialReasons(trials[..|trials| - 1]) + TrialReasons(trials[|trials| - 1])
  }

  function Limit(bucket: string, protect: set<string>, tolerance: real): real {
    if bucket in protect then 0.0 else tolerance
  }

  /** The reason one bucket gives, if any. A protected bucket may not regress at all. */
  function BucketReasons(bucket: string, regression: real, protect: set<string>, tolerance: real): set<string> {
    if bucket in protect && regression > 0.0 then {RegressionText("protected_bucket_regression", bucket)}
    else if regression > tolerance then {RegressionText("tolerable_regression_exceeded", bucket)}
    else {}
  }

  predicate Mentions(text: string, marker: string) {
    marker <= text || (text != [] && Mentions(text[1..], marker))
  }

  const JUDGE := "judge_"

  function Decide(reasons: set<string>): Decision {
    if exists r :: r in reasons && Mentions(r, JUDGE) then ReviewOnly
    else if reasons != {} then Rejected
    else PromotionReady
  }

  function Protected(named: set<string>, cases: seq<Case>): set<string> {
    (named - {""}) + set c | c in cases && c.isProtected :: c.bucket
  }

  function AllBucketReasons(regressions: map<string, real>, protect: set<string>, tolerance: real): set<string> {
    set b, r | b in regressions && r in BucketReasons(b, regressions[b], protect, tolerance) :: r
  }

  function Regressions(trials: seq<Trial>): map<string, real> {
    map b | b in Buckets(trials) :: Regression(InBucket(trials, b))
  }

  /** The report on a list of trials. */
  function ReportOf(trials: seq<Trial>, protect: set<string>, tolerance: real): Report {
    var regressions := Regressions(trials);
    var reasons := AllTrialReasons(trials) + AllBucketReasons(regressions, protect, tolerance);
    Report(Decide(reasons), reasons, |trials|, Average(BaseSum(trials), |trials|), Average(TrialSum(trials), |trials|),
           Regression(trials), regressions)
  }

  function AllTrials(cases: seq<Case>, baseline: Arm, candidate: Arm, execute: (Case, Arm) -> Outcome,
                     judge: Option<Payload -> Option<JudgeError>>): seq<Trial>
  {
    seq(|cases|, i requires 0 <= i < |cases| => RunTrial(cases[i], i, baseline, candidate, execute, judge))
  }

  function Blank(decision: Decision, reason: string): Report {
    Report(decision, {reason}, 0, 0.0, 0.0, 0.0, map[])
  }

  // ---------------------------------------------------------------- what the decision means

  lemma {:induction false} TrialReasonsOf(trials: seq<Trial>, reason: string)
    ensures reason in AllTrialReasons(trials) <==> exists t :: t in trials && reason in TrialReasons(t)
  {
    if trials != [] {
      var before, last := trials[..|trials| - 1], trials[|trials| - 1];
      TrialReasonsOf(before, reason);
      assert trials == before + [last];
      assert forall t :: t in trials <==> t in before || t == last;
    }
  }

  ghost predicate Clean(t: Trial) {
    t.base.failures == [] && t.trial.failures == [] && t.error.None?
  }

  lemma UncleanGivesReason(t: Trial)
    ensures TrialReasons(t) == {} <==> Clean(t)
  {
    if t.base.failures != [] {
      assert FailureText(t.shown.id, "baseline", t.base.failures[0]) in TrialReasons(t);
    }
    if t.trial.failures != [] {
      assert FailureText(t.shown.id, "candidate", t.trial.failures[0]) in TrialReasons(t);
    }
  }

  lemma BucketGivesReason(regressions: map<string, real>, protect: set<string>, tolerance: real)
    requires tolerance >= 0.0
    ensures AllBucketReasons(regressions, protect, tolerance) == {}
       <==> forall b :: b in regressions ==> regressions[b] <= Limit(b, protect, tolerance)
  {
    forall b | b in regressions && regressions[b] > Limit(b, protect, tolerance)
      ensures AllBucketReasons(regressions, protect, tolerance) != {}
    {
      var r :| r in BucketReasons(b, regressions[b], protect, tolerance);
      assert r in AllBucketReasons(regressions, protect, tolerance);
    }
  }

  lemma NoTrialReasons(trials: seq<Trial>)
    ensures AllTrialReasons(trials) == {} <==> forall t :: t in trials ==> Clean(t)
  {
    hide Clean, TrialReasons;
    forall t | t in trials
      ensures TrialReasons(t) == {} <==> Clean(t)
    {
      UncleanGivesReason(t);
    }
    if r :| r in AllTrialReasons(trials) {
      TrialReasonsOf(trials, r);
    } else {
      forall t | t in trials
        ensures Clean(t)
      {
        if r :| r in TrialReasons(t) {
          TrialReasonsOf(trials, r);
        }
      }
    }
  }

  /** Promotion is ready if and only if no case failed hard on either arm, no judge failed, no protected bucket
      regressed and every other bucket is within tolerance; then the regression over all cases is within tolerance,
      too. */
  lemma ReadyExactlyWhenClean(trials: seq<Trial>, protect: set<string>, tolerance: real)
    requires tolerance >= 0.0
    ensures var report := ReportOf(trials, protect, tolerance);
            && (report.decision == PromotionReady <==>
                  && (forall t :: t in trials ==> Clean(t))
                  && (forall b :: b in Buckets(trials) ==>
                       Regression(InBucket(trials, b)) <= Limit(b, protect, tolerance)))
            && (report.decision == PromotionReady ==> report.regression <= tolerance)
  {
    hide Clean, Regression, InBucket, AllTrialReasons, AllBucketReasons;
    NoTrialReasons(trials);
    BucketGivesReason(Regressions(trials), protect, tolerance);
    var report := ReportOf(trials, protect, tolerance);
    assert report.decision == PromotionReady <==> report.reasons == {};
    if report.decision == PromotionReady {
      forall b | b in Buckets(trials)
        ensures Regression(InBucket(trials, b)) <= tolerance
      {
        assert Regressions(trials)[b] <= Limit(b, protect, tolerance);
      }
      BucketsBoundTheWhole(trials, Buckets(trials), tolerance);
    }
  }

  // ---------------------------------------------------------------- review or rejection

  lemma {:induction false} MentionsAcross(a: string, b: string, marker: string)
    requires marker != "" && ':' !in marker
    ensures Mentions(a + ":" + b, marker) <==> Mentions(a, marker) || Mentions(b, marker)
  {
    var all := a + ":" + b;
    assert all[|a|] == ':';
    assert |a| < |marker| ==> marker[|a|] in marker;
    if a == "" {
      assert all[1..] == b;
    } else {
      assert all[1..] == a[1..] + ":" + b;
      MentionsAcross(a[1..], b, marker);
      if marker <= all && |marker| <= |a| {
        assert marker <= a;
      }
    }
  }

  lemma {:induction false} FirstLetterNeeded(text: string, marker: string)
    requires marker != "" && marker[0] !in text
    ensures !Mentions(text, marker)
  {
    if text != "" {
      FirstLetterNeeded(text[1..], marker);
    }
  }

  lemma FailureMentions(id: string, arm: string, failure: string)
    requires arm in {"baseline", "candidate"}
    ensures Mentions(FailureText(id, arm, failure), JUDGE) <==> Mentions(id, JUDGE) || Mentions(failure, JUDGE)
  {
    assert ':' !in JUDGE;
    assert JUDGE[0] == 'j' && 'j' !in "baseline" && 'j' !in "candidate";
    FirstLetterNeeded(arm, JUDGE);
    hide Mentions;
    MentionsAcross(arm, failure, JUDGE);
    MentionsAcross(id, arm + ":" + failure, JUDGE);
  }

  lemma RegressionMentions(kind: string, bucket: string)
    requires kind in {"protected_bucket_regression", "tolerable_regression_exceeded"}
    ensures Mentions(RegressionText(kind, bucket), JUDGE) <==> Mentions(bucket, JUDGE)
  {
    assert ':' !in JUDGE;
    assert JUDGE[0] == 'j' && 'j' !in "protected_bucket_regression" && 'j' !in "tolerable_regression_exceeded";
    FirstLetterNeeded(kind, JUDGE);
    hide Mentions;
    MentionsAcross(kind, bucket, JUDGE);
  }

  lemma ErrorMentions(id: string, error: JudgeError)
    ensures Mentions(id + ":" + ErrorText(error), JUDGE)
  {
    assert JUDGE <= ErrorText(error);
    MentionsAcross(id, ErrorText(error), JUDGE);
  }

  /** A hard failure whose own label, or whose case id, contains the judge's marker. */
  ghost predicate Mislabelled(t: Trial) {
    exists f :: (f in t.base.failures || f in t.trial.failures) && (Mentions(t.shown.id, JUDGE) || Mentions(f, JUDGE))
  }

  ghost predicate SomeMention(reasons: set<string>) {
    exists r :: r in reasons && Mentions(r, JUDGE)
  }

  lemma TrialMentions(t: Trial)
    ensures SomeMention(TrialReasons(t)) <==> t.error.Some? || Mislabelled(t)
  {
    hide Mentions;
    var id := t.shown.id;
    forall f
      ensures Mentions(FailureText(id, "baseline", f), JUDGE) <==> Mentions(id, JUDGE) || Mentions(f, JUDGE)
      ensures Mentions(FailureText(id, "candidate", f), JUDGE) <==> Mentions(id, JUDGE) || Mentions(f, JUDGE)
    {
      FailureMentions(id, "baseline", f);
      FailureMentions(id, "candidate", f);
    }
    hide FailureText;
    if t.error.Some? {
      ErrorMentions(id, t.error.value);
      assert id + ":" + ErrorText(t.error.value) in TrialReasons(t);
    } else if Mislabelled(t) {
      var f :| (f in t.base.failures || f in t.trial.failures) && (Mentions(id, JUDGE) || Mentions(f, JUDGE));
      assert FailureText(id, "baseline", f) in TrialReasons(t) || FailureText(id, "candidate", f) in TrialReasons(t);
    }
  }

  lemma BucketMentions(bucket: string, regression: real, protect: set<string>, tolerance: real)
    requires tolerance >= 0.0
    ensures SomeMention(BucketReasons(bucket, regression, protect, tolerance))
       <==> regression > Limit(bucket, protect, tolerance) && Mentions(bucket, JUDGE)
  {
    hide Mentions;
    RegressionMentions("protected_bucket_regression", bucket);
    RegressionMentions("tolerable_regression_exceeded", bucket);
    var kind := if bucket in protect then "protected_bucket_regression" else "tolerable_regression_exceeded";
    var text := RegressionText(kind, bucket);
    if regression > Limit(bucket, protect, tolerance) {
      assert text in BucketReasons(bucket, regression, protect, tolerance);
    }
  }

  /** The report is review-only exactly if a judge failed, or a failing label happens to contain the judge's marker:
      then a hard failure or a regression reads as a judge failure, and is reviewed instead of rejected. */
  lemma ReviewExactlyWhenJudged(trials: seq<Trial>, protect: set<string>, tolerance: real)
    requires tolerance >= 0.0
    ensures ReportOf(trials, protect, tolerance).decision == ReviewOnly
       <==> || (exists t :: t in trials && (t.error.Some? || Mislabelled(t)))
            || (exists b :: b in Buckets(trials) && Regression(InBucket(trials, b)) > Limit(b, protect, tolerance)
                 && Mentions(b, JUDGE))
  {
    hide Mentions, Mislabelled, TrialReasons, BucketReasons, Regression, InBucket, Limit, AllTrialReasons;
    var report := ReportOf(trials, protect, tolerance);
    forall t
      ensures SomeMention(TrialReasons(t)) <==> t.error.Some? || Mislabelled(t)
    {
      TrialMentions(t);
    }
    forall b | b in Buckets(trials)
      ensures SomeMention(BucketReasons(b, Regressions(trials)[b], protect, tolerance))
         <==> Regression(InBucket(trials, b)) > Limit(b, protect, tolerance) && Mentions(b, JUDGE)
    {
      BucketMentions(b, Regressions(trials)[b], protect, tolerance);
    }
    forall r
      ensures r in AllTrialReasons(trials) <==> exists t :: t in trials && r in TrialReasons(t)
    {
      TrialReasonsOf(trials, r);
    }
    assert report.decision == ReviewOnly <==> SomeMention(report.reasons);
  }

  /** One case whose own id contains the marker, failed hard by the candidate, with no judge failure. */
  const MARKED := Trial(Case("judge_1", "", false), Outcome(Some(1.0), []), Outcome(Some(1.0), ["x"]), None)

  /** It is reviewed although no judge failed. */
  lemma MarkedCaseIsReviewed(protect: set<string>, tolerance: real)
    requires tolerance >= 0.0
    ensures ReportOf([MARKED], protect, tolerance).decision == ReviewOnly && MARKED.error.None?
  {
    assert JUDGE <= MARKED.shown.id;
    assert Mentions(MARKED.shown.id, JUDGE) && "x" in MARKED.trial.failures;
    hide Mentions;
    assert Mislabelled(MARKED);
    ReviewExactlyWhenJudged([MARKED], protect, tolerance);
  }

  // ---------------------------------------------------------------- the decision over what is replayed

  /** What is replayed: the cases, both arms, how they are run, and the judge if there is one. */
  datatype Setup = Setup(cases: seq<Case>, baseline: Arm, candidate: Arm, execute: (Case, Arm) -> Outcome,
                         judge: Option<Payload -> Option<JudgeError>>)

  ghost function Ran(x: Setup, i: nat, arm: Arm): Outcome
    requires i < |x.cases|
  {
    x.execute(x.cases[i], arm)
  }

  /** The judge is shown both outcomes of the i-th case, the baseline's first at even places. */
  ghost function Judged(x: Setup, i: nat): Option<JudgeError>
    requires i < |x.cases|
  {
    var a, b := if i % 2 == 0 then x.baseline else x.candidate, if i % 2 == 0 then x.candidate else x.baseline;
    if x.judge.None? then None else x.judge.value(Payload(x.cases[i], Ran(x, i, a), Ran(x, i, b)))
  }

  /** A missing score counts as none, and the others are cut off at 0 and 1. */
  ghost function Grade(score: Option<real>): real {
    if score.None? || score.value < 0.0 then 0.0 else if score.value > 1.0 then 1.0 else score.value
  }

  /** The grades of one arm over the bucket's cases among the first n. */
  ghost function GradeSum(x: Setup, bucket: string, arm: Arm, n: nat): real
    requires n <= |x.cases|
  {
    if n == 0 then 0.0 else
      GradeSum(x, bucket, arm, n - 1)
      + (if x.cases[n - 1].bucket == bucket then Grade(Ran(x, n - 1, arm).score) else 0.0)
  }

  ghost function Size(x: Setup, bucket: string, n: nat): nat
    requires n <= |x.cases|
  {
    if n == 0 then 0 else Size(x, bucket, n - 1) + (if x.cases[n - 1].bucket == bucket then 1 else 0)
  }

  lemma {:induction false} SizeIsPositive(x: Setup, i: nat, n: nat)
    requires i < n <= |x.cases|
    ensures Size(x, x.cases[i].bucket, n) > 0
  {
    if i < n - 1 {
      SizeIsPositive(x, i, n - 1);
    }
  }

  /** How far the candidate's average over the i-th case's bucket is below the baseline's. */
  ghost function Drop(x: Setup, i: nat): real
    requires i < |x.cases|
  {
    var bucket, n := x.cases[i].bucket, |x.cases|;
    SizeIsPositive(x, i, n);
    GradeSum(x, bucket, x.baseline, n) / Size(x, bucket, n) as real
    - GradeSum(x, bucket, x.candidate, n) / Size(x, bucket, n) as real
  }

  /** A bucket that is named, or that holds a protected case, may not drop at all. */
  ghost function Allowed(x: Setup, named: set<string>, tolerable: Option<real>, bucket: string): real {
    if bucket != "" && bucket in named then 0.0
    else if exists i :: 0 <= i < |x.cases| && x.cases[i].isProtected && x.cases[i].bucket == bucket then 0.0
    else Grade(tolerable)
  }

  /** No run of either arm failed hard, the judge objected to none, and no bucket drops by more than it may. */
  ghost predicate Passes(x: Setup, named: set<string>, tolerable: Option<real>) {
    && (forall i :: 0 <= i < |x.cases| ==>
         Ran(x, i, x.baseline).failures == [] && Ran(x, i, x.candidate).failures == [] && Judged(x, i) == None)
    && (forall i :: 0 <= i < |x.cases| ==> Drop(x, i) <= Allowed(x, named, tolerable, x.cases[i].bucket))
  }

  /** At this case the judge objected, or a failing label contains its marker. */
  ghost predicate DoubtedAt(x: Setup, named: set<string>, tolerable: Option<real>, i: nat)
    requires i < |x.cases|
  {
    var failures := Ran(x, i, x.baseline).failures + Ran(x, i, x.candidate).failures;
    || Judged(x, i) != None
    || (exists f :: f in failures && (Mentions(x.cases[i].id, JUDGE) || Mentions(f, JUDGE)))
    || (Mentions(x.cases[i].bucket, JUDGE) && Drop(x, i) > Allowed(x, named, tolerable, x.cases[i].bucket))
  }

  ghost predicate Doubted(x: Setup, named: set<string>, tolerable: Option<real>) {
    exists i :: 0 <= i < |x.cases| && DoubtedAt(x, named, tolerable, i)
  }

  ghost function TrialsOf(x: Setup): seq<Trial> {
    AllTrials(x.cases, x.baseline, x.candidate, x.execute, x.judge)
  }

  lemma TrialIs(x: Setup, i: nat)
    requires i < |x.cases|
    ensures TrialsOf(x)[i] == Trial(x.cases[i], Ran(x, i, x.baseline), Ran(x, i, x.candidate), Judged(x, i))
  {
  }

  lemma GradeIsScore(score: Option<real>)
    ensures Score(score) == Grade(score)
  {
  }

  lemma {:induction false} SumsAppend(trials: seq<Trial>, t: Trial)
    ensures BaseSum(trials + [t]) == BaseSum(trials) + Score(t.base.score)
    ensures TrialSum(trials + [t]) == TrialSum(trials) + Score(t.trial.score)
  {
    if trials == [] {
      assert [] + [t] == [t] && [t][1..] == [];
    } else {
      assert (trials + [t])[1..] == trials[1..] + [t];
      SumsAppend(trials[1..], t);
    }
  }

  lemma {:induction false} SumsAgree(x: Setup, bucket: string, n: nat)
    requires n <= |x.cases|
    ensures var inside := InBucket(TrialsOf(x)[..n], bucket);
            && BaseSum(inside) == GradeSum(x, bucket, x.baseline, n)
            && TrialSum(inside) == GradeSum(x, bucket, x.candidate, n)
            && |inside| == Size(x, bucket, n)
  {
    if n > 0 {
      hide BaseSum, TrialSum, InBucket, AllTrials, Score, Grade;
      var before, t := TrialsOf(x)[..n - 1], TrialsOf(x)[n - 1];
      SumsAgree(x, bucket, n - 1);
      TrialIs(x, n - 1);
      assert TrialsOf(x)[..n] == before + [t];
      InBucketAppend(before, t, bucket);
      SumsAppend(InBucket(before, bucket), t);
      GradeIsScore(t.base.score);
      GradeIsScore(t.trial.score);
      assert InBucket(before, bucket) + [] == InBucket(before, bucket);
    }
  }

  lemma RegressionIsDrop(x: Setup, i: nat)
    requires i < |x.cases|
    ensures Regression(InBucket(TrialsOf(x), x.cases[i].bucket)) == if Drop(x, i) > 0.0 then Drop(x, i) else 0.0
  {
    hide BaseSum, TrialSum, InBucket, AllTrials;
    var n := |x.cases|;
    assert |TrialsOf(x)| == n by { TrialCount(x); }
    assert TrialsOf(x)[..n] == TrialsOf(x);
    SumsAgree(x, x.cases[i].bucket, n);
    SizeIsPositive(x, i, n);
  }

  lemma TrialCount(x: Setup)
    ensures |TrialsOf(x)| == |x.cases|
  {
  }

  lemma LimitIsAllowed(x: Setup, named: set<string>, tolerable: Option<real>, bucket: string)
    ensures Limit(bucket, Protected(named, x.cases), Score(tolerable)) == Allowed(x, named, tolerable, bucket)
  {
    GradeIsScore(tolerable);
    if i :| 0 <= i < |x.cases| && x.cases[i].isProtected && x.cases[i].bucket == bucket {
      assert x.cases[i] in x.cases;
    }
  }

  ghost predicate Excessive(trials: seq<Trial>, bucket: string, protect: set<string>, tolerance: real) {
    Regression(InBucket(trials, bucket)) > Limit(bucket, protect, tolerance)
  }

  /** A bucket is over its limit in the report exactly if it drops by more than it may. */
  lemma OverLimit(x: Setup, named: set<string>, tolerable: Option<real>, i: nat)
    requires i < |x.cases|
    ensures var b := x.cases[i].bucket;
            Excessive(TrialsOf(x), b, Protected(named, x.cases), Score(tolerable))
              == (Drop(x, i) > Allowed(x, named, tolerable, b))
  {
    hide Regression, InBucket, Limit, Drop, TrialsOf;
    RegressionIsDrop(x, i);
    LimitIsAllowed(x, named, tolerable, x.cases[i].bucket);
    assert Allowed(x, named, tolerable, x.cases[i].bucket) >= 0.0;
  }

  lemma AboutTrial(x: Setup, named: set<string>, tolerable: Option<real>, i: nat)
    requires i < |x.cases|
    ensures |TrialsOf(x)| == |x.cases| && TrialsOf(x)[i] in TrialsOf(x)
    ensures var t := TrialsOf(x)[i];
            && t == Trial(x.cases[i], Ran(x, i, x.baseline), Ran(x, i, x.candidate), Judged(x, i))
            && t.shown.bucket in Buckets(TrialsOf(x))
            && Excessive(TrialsOf(x), t.shown.bucket, Protected(named, x.cases), Score(tolerable))
                 == (Drop(x, i) > Allowed(x, named, tolerable, t.shown.bucket))
  {
    hide Drop, Allowed, AllTrials, Excessive, Protected, Score;
    TrialCount(x);
    TrialIs(x, i);
    OverLimit(x, named, tolerable, i);
  }

  lemma SomeTrial(x: Setup, t: Trial) returns (i: nat)
    requires t in TrialsOf(x)
    ensures i < |x.cases| && |TrialsOf(x)| == |x.cases| && TrialsOf(x)[i] == t
  {
    TrialCount(x);
    i :| 0 <= i < |TrialsOf(x)| && TrialsOf(x)[i] == t;
  }

  lemma SomeBucket(x: Setup, bucket: string) returns (i: nat)
    requires bucket in Buckets(TrialsOf(x))
    ensures i < |x.cases| && x.cases[i].bucket == bucket
  {
    var t :| t in TrialsOf(x) && t.shown.bucket == bucket;
    i := SomeTrial(x, t);
    TrialIs(x, i);
  }

  /** Ready for promotion, from the runs themselves. */
  lemma ReadyOverRuns(x: Setup, named: set<string>, tolerable: Option<real>)
    ensures ReportOf(TrialsOf(x), Protected(named, x.cases), Score(tolerable)).decision == PromotionReady
       <==> Passes(x, named, tolerable)
  {
    hide ReportOf, Regression, InBucket, Limit, Drop, Allowed, TrialsOf, Judged, Protected, Buckets;
    var trials, protect := TrialsOf(x), Protected(named, x.cases);
    ReadyExactlyWhenClean(trials, protect, Score(tolerable));
    forall i | 0 <= i < |x.cases|
      ensures |trials| == |x.cases| && trials[i] in trials && x.cases[i].bucket in Buckets(trials)
      ensures trials[i] == Trial(x.cases[i], Ran(x, i, x.baseline), Ran(x, i, x.candidate), Judged(x, i))
      ensures Excessive(trials, x.cases[i].bucket, protect, Score(tolerable))
           == (Drop(x, i) > Allowed(x, named, tolerable, x.cases[i].bucket))
    {
      AboutTrial(x, named, tolerable, i);
    }
    if Passes(x, named, tolerable) {
      forall t | t in trials
        ensures Clean(t)
      {
        var i := SomeTrial(x, t);
      }
      forall b | b in Buckets(trials)
        ensures !Excessive(trials, b, protect, Score(tolerable))
      {
        var i := SomeBucket(x, b);
      }
    }
  }

  lemma DoubtedTrial(x: Setup, named: set<string>, tolerable: Option<real>, i: nat)
    requires i < |x.cases|
    ensures var trials := TrialsOf(x);
            && |trials| == |x.cases|
            && var t := trials[i];
            (DoubtedAt(x, named, tolerable, i) <==>
               || t.error.Some? || Mislabelled(t)
               || (Excessive(trials, t.shown.bucket, Protected(named, x.cases), Score(tolerable))
                   && Mentions(t.shown.bucket, JUDGE)))
  {
    hide Drop, Allowed, TrialsOf, Protected, Score, Excessive, Mentions;
    AboutTrial(x, named, tolerable, i);
    var a, b := Ran(x, i, x.baseline).failures, Ran(x, i, x.candidate).failures;
    assert forall f :: f in a + b <==> f in a || f in b;
  }

  /** Review only, likewise. */
  lemma ReviewOverRuns(x: Setup, named: set<string>, tolerable: Option<real>)
    ensures ReportOf(TrialsOf(x), Protected(named, x.cases), Score(tolerable)).decision == ReviewOnly
       <==> Doubted(x, named, tolerable)
  {
    hide ReportOf, Regression, InBucket, Limit, TrialsOf, Protected, Buckets, Mentions, Mislabelled, DoubtedAt;
    var trials, protect := TrialsOf(x), Protected(named, x.cases);
    ReviewExactlyWhenJudged(trials, protect, Score(tolerable));
    if i :| 0 <= i < |x.cases| && DoubtedAt(x, named, tolerable, i) {
      DoubtedTrial(x, named, tolerable, i);
      AboutTrial(x, named, tolerable, i);
    }
    if t :| t in trials && (t.error.Some? || Mislabelled(t)) {
      var i := SomeTrial(x, t);
      DoubtedTrial(x, named, tolerable, i);
    }
    if b :| b in Buckets(trials) && Excessive(trials, b, protect, Score(tolerable)) && Mentions(b, JUDGE) {
      var i := SomeBucket(x, b);
      AboutTrial(x, named, tolerable, i);
      DoubtedTrial(x, named, tolerable, i);
    }
  }

  /** The grades of one arm over the first n cases. */
  ghost function WholeSum(x: Setup, arm: Arm, n: nat): real
    requires n <= |x.cases|
  {
    if n == 0 then 0.0 else WholeSum(x, arm, n - 1) + Grade(Ran(x, n - 1, arm).score)
  }

  /** An arm's average over all cases. */
  ghost function Mean(x: Setup, arm: Arm): real {
    if x.cases == [] then 0.0 else WholeSum(x, arm, |x.cases|) / |x.cases| as real
  }

  lemma {:induction false} WholeSumsAgree(x: Setup, n: nat)
    requires n <= |x.cases|
    ensures BaseSum(TrialsOf(x)[..n]) == WholeSum(x, x.baseline, n)
    ensures TrialSum(TrialsOf(x)[..n]) == WholeSum(x, x.candidate, n)
  {
    if n > 0 {
      hide BaseSum, TrialSum, AllTrials, Score, Grade;
      var before, t := TrialsOf(x)[..n - 1], TrialsOf(x)[n - 1];
      WholeSumsAgree(x, n - 1);
      TrialIs(x, n - 1);
      assert TrialsOf(x)[..n] == before + [t];
      SumsAppend(before, t);
      GradeIsScore(t.base.score);
      GradeIsScore(t.trial.score);
    }
  }

  /** The figures of a report: every case is paired, and scores and regressions are those of the runs. */
  ghost predicate Figures(x: Setup, report: Report) {
    && report.paired == |x.cases|
    && report.baselineScore == Mean(x, x.baseline) && report.candidateScore == Mean(x, x.candidate)
    && report.regression == (if report.baselineScore > report.candidateScore
                             then report.baselineScore - report.candidateScore else 0.0)
    && (forall b :: b in report.regressions <==> exists i :: 0 <= i < |x.cases| && x.cases[i].bucket == b)
    && (forall i :: 0 <= i < |x.cases| ==>
         report.regressions[x.cases[i].bucket] == if Drop(x, i) > 0.0 then Drop(x, i) else 0.0)
  }

  lemma FiguresOverRuns(x: Setup, protect: set<string>, tolerance: real)
    ensures Figures(x, ReportOf(TrialsOf(x), protect, tolerance))
  {
    hide InBucket, BaseSum, TrialSum, Drop, AllTrials, AllTrialReasons, AllBucketReasons, Decide;
    var trials, report := TrialsOf(x), ReportOf(TrialsOf(x), protect, tolerance);
    TrialCount(x);
    WholeSumsAgree(x, |x.cases|);
    assert trials[..|x.cases|] == trials;
    assert report.baselineScore == Mean(x, x.baseline) && report.candidateScore == Mean(x, x.candidate);
    hide Mean, Regression;
    forall i | 0 <= i < |x.cases|
      ensures x.cases[i].bucket in Buckets(trials)
      ensures Regression(InBucket(trials, x.cases[i].bucket)) == if Drop(x, i) > 0.0 then Drop(x, i) else 0.0
    {
      TrialIs(x, i);
      assert trials[i] in trials;
      RegressionIsDrop(x, i);
    }
    forall b | b in report.regressions
      ensures exists i :: 0 <= i < |x.cases| && x.cases[i].bucket == b
    {
      var i := SomeBucket(x, b);
    }
  }

  // ---------------------------------------------------------------- the code

  lemma {:induction false} InBucketAppend(trials: seq<Trial>, t: Trial, bucket: string)
    ensures InBucket(trials + [t], bucket) == InBucket(trials, bucket) + (if t.shown.bucket == bucket then [t] else [])
  {
    if trials != [] {
      assert (trials + [t])[1..] == trials[1..] + [t];
      InBucketAppend(trials[1..], t, bucket);
    }
  }

  lemma {:induction false} NotInBucket(trials: seq<Trial>, bucket: string)
    requires bucket !in Buckets(trials)
    ensures InBucket(trials, bucket) == []
  {
    if trials != [] {
      assert trials[0] in trials;
      forall t | t in trials[1..]
        ensures t.shown.bucket != bucket
      {
        assert t in trials;
      }
      NotInBucket(trials[1..], bucket);
    }
  }

  /** The cases grouped by bucket. */
  ghost predicate Grouped(trials: seq<Trial>, groups: map<string, seq<Trial>>) {
    && groups.Keys == Buckets(trials)
    && forall b :: b in groups ==> groups[b] == InBucket(trials, b)
  }

  lemma GroupedMore(trials: seq<Trial>, groups: map<string, seq<Trial>>, t: Trial)
    requires Grouped(trials, groups)
    ensures var b := t.shown.bucket;
            Grouped(trials + [t], groups[b := (if b in groups then groups[b] else []) + [t]])
  {
    var b, all := t.shown.bucket, trials + [t];
    assert forall x :: x in all <==> x in trials || x == t;
    assert Buckets(all) == Buckets(trials) + {b};
    forall c
      ensures InBucket(all, c) == InBucket(trials, c) + (if b == c then [t] else [])
    {
      InBucketAppend(trials, t, c);
    }
    if b !in groups {
      NotInBucket(trials, b);
    }
  }

  method RunTrials(cases: seq<Case>, baseline: Arm, candidate: Arm, execute: (Case, Arm) -> Outcome,
                   judge: Option<Payload -> Option<JudgeError>>)
    returns (trials: seq<Trial>, groups: map<string, seq<Trial>>, reasons: set<string>)
    ensures trials == AllTrials(cases, baseline, candidate, execute, judge)
    ensures Grouped(trials, groups) && reasons == AllTrialReasons(trials)
  {
    hide RunTrial, TrialReasons;
    trials, groups, reasons := [], map[], {};
    for i := 0 to |cases|
      invariant |trials| == i && forall j :: 0 <= j < i ==>
                  trials[j] == RunTrial(cases[j], j, baseline, candidate, execute, judge)
      invariant Grouped(trials, groups) && reasons == AllTrialReasons(trials)
    {
      var trial := RunTrial(cases[i], i, baseline, candidate, execute, judge);
      var bucket := trial.shown.bucket;
      GroupedMore(trials, groups, trial);
      groups := groups[bucket := (if bucket in groups then groups[bucket] else []) + [trial]];
      assert (trials + [trial])[..i] == trials;
      trials := trials + [trial];
      reasons := reasons + TrialReasons(trial);
    }
  }

  method GateBuckets(groups: map<string, seq<Trial>>, protect: set<string>, tolerance: real)
    returns (regressions: map<string, real>, reasons: set<string>)
    ensures regressions == map b | b in groups :: Regression(groups[b])
    ensures reasons == AllBucketReasons(regressions, protect, tolerance)
  {
    hide Regression, BucketReasons;
    regressions, reasons := map[], {};
    var rest := groups.Keys;
    while rest != {}
      invariant rest <= groups.Keys && regressions == map b | b in groups && b !in rest :: Regression(groups[b])
      invariant reasons == AllBucketReasons(regressions, protect, tolerance)
      decreases rest
    {
      var b :| b in rest;
      rest := rest - {b};
      var regression := Regression(groups[b]);
      AnotherBucket(regressions, b, regression, protect, tolerance);
      regressions := regressions[b := regression];
      reasons := reasons + BucketReasons(b, regression, protect, tolerance);
    }
  }

  lemma AnotherBucket(regressions: map<string, real>, b: string, regression: real, protect: set<string>,
                      tolerance: real)
    requires b !in regressions
    ensures AllBucketReasons(regressions[b := regression], protect, tolerance)
         == AllBucketReasons(regressions, protect, tolerance) + BucketReasons(b, regression, protect, tolerance)
  {
    hide BucketReasons;
    var more := regressions[b := regression];
    forall r | r in AllBucketReasons(regressions, protect, tolerance)
      ensures r in AllBucketReasons(more, protect, tolerance)
    {
      var c :| c in regressions && r in BucketReasons(c, regressions[c], protect, tolerance);
      assert c in more && more[c] == regressions[c];
    }
    forall r | r in BucketReasons(b, regression, protect, tolerance)
      ensures r in AllBucketReasons(more, protect, tolerance)
    {
      assert more[b] == regression;
    }
  }

  method PairedReplay(cases: seq<Case>, baseline: Option<Arm>, candidate: Option<Arm>, revision: Option<string>,
                      activeRevision: Option<string>, named: set<string>, tolerable: Option<real>,
                      execute: (Case, Arm) -> Outcome, judge: Option<Payload -> Option<JudgeError>>)
    returns (report: Report)
    ensures report ==
              if baseline.None? then Blank(ReviewOnly, "missing_baseline")
              else if candidate.None? then Blank(Rejected, "missing_candidate")
              else if revision.None? || revision != activeRevision then Blank(ReviewOnly, "baseline_revision_mismatch")
              else ReportOf(AllTrials(cases, baseline.value, candidate.value, execute, judge),
                  Protected(named, cases), Score(tolerable))
    ensures var refused := baseline.None? || candidate.None? || revision.None? || revision != activeRevision;
            && (!refused ==> Figures(Setup(cases, baseline.value, candidate.value, execute, judge), report))
            && (report.decision == PromotionReady <==>
                  !refused && Passes(Setup(cases, baseline.value, candidate.value, execute, judge), named, tolerable))
            && (report.decision == ReviewOnly <==>
                  || baseline.None? || (candidate.Some? && (revision.None? || revision != activeRevision))
                  || (!refused
                      && Doubted(Setup(cases, baseline.value, candidate.value, execute, judge), named, tolerable)))
  {
    hide Decide, Regression, InBucket, Passes, Doubted, Figures;
    if baseline.None? {
      return Blank(ReviewOnly, "missing_baseline");
    }
    if candidate.None? {
      return Blank(Rejected, "missing_candidate");
    }
    if revision.None? || activeRevision.None? || revision.value != activeRevision.value {
      return Blank(ReviewOnly, "baseline_revision_mismatch");
    }
    var tolerance := Score(tolerable);
    var trials, groups, failed := RunTrials(cases, baseline.value, candidate.value, execute, judge);
    var regressions, regressed := GateBuckets(groups, Protected(named, cases), tolerance);
    assert regressions == Regressions(trials);
    var reasons := failed + regressed;
    var baselineScore, candidateScore := Average(BaseSum(trials), |trials|), Average(TrialSum(trials), |trials|);
    report := Report(Decide(reasons), reasons, |trials|, baselineScore, candidateScore, Regression(trials),
        regressions);
    ReadyOverRuns(Setup(cases, baseline.value, candidate.value, execute, judge), named, tolerable);
    FiguresOverRuns(Setup(cases, baseline.value, candidate.value, execute, judge), Protected(named, cases), tolerance);
    ReviewOverRuns(Setup(cases, baseline.value, candidate.value, execute, judge), named, tolerable);
  }
}
