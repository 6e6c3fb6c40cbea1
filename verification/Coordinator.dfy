/** The manual coordinator: it checks the persisted evidence chain of a staged version against the
    active baseline, row by row, and then asks the store for one compare-and-swap. Every read is a
    transaction of its own, so other writers may act between any two of them.
    The functions are the specification; class PromotionCoordinator is the code. */
module Coordination {
  import opened Basics
  import opened GuidancePointer

  // ---------------------------------------------------------------- evidence rows
  // A row's digest is injective in its body, so it is modelled as a copy of the body that was sealed.
  // A body that is not a JSON object is None.

  datatype Ids = Ids(run: nat, candidate: nat, evaluation: nat, audit: nat, manifest: nat, training: nat)

  /** persistence is None when the identifiers are absent or any of the six is missing or blank. */
  datatype Metadata = Metadata(persistence: Option<Ids>, rest: nat)
  datatype VersionRow = VersionRow(text: nat, metadata: Metadata, digest: (nat, Metadata))

  datatype CandidateBody = CandidateBody(candidate: nat, run: nat, version: Version, audit: nat, manifest: nat,
                                         metadata: Metadata, passed: bool)
  datatype CandidateRow = CandidateRow(slot: Slot, run: nat, version: Version,
                                       body: Option<CandidateBody>, digest: Option<CandidateBody>)

  datatype EvaluationBody = EvaluationBody(run: nat, manifest: nat, passed: bool)
  datatype EvaluationRow = EvaluationRow(candidate: nat, body: Option<EvaluationBody>, digest: Option<EvaluationBody>)

  datatype Decided = PromotionReady | ReviewOnly | OtherDecision
  datatype AuditBody = AuditBody(manifest: nat, manifestDigest: nat, decision: Decided, ready: bool, passed: bool,
                                 missingBaseline: bool, baseline: Version, activeBaseline: Version,
                                 provenance: Option<Version>)
  datatype AuditRow = AuditRow(candidate: nat, manifest: nat, body: Option<AuditBody>, digest: Option<AuditBody>)

  datatype Kind = PairedReplay | OptimizationTraining | OtherKind
  datatype ManifestBody = ManifestBody(manifest: nat, digest: nat)
  datatype Sealed = Sealed(context: nat, kind: Kind, samples: Option<seq<nat>>, payload: Option<ManifestBody>)
  datatype ManifestRow = ManifestRow(record: Sealed, digest: Sealed)

  datatype RunBody = RunBody(candidate: nat, version: Version, training: nat, manifest: nat, audit: nat)
  datatype RunRow = RunRow(context: nat, produced: bool, body: Option<RunBody>, digest: Option<RunBody>)

  datatype Evidence = Evidence(staged: map<Version, VersionRow>, candidates: map<nat, CandidateRow>,
                               evaluations: map<nat, EvaluationRow>, audits: map<nat, AuditRow>,
                               manifests: map<nat, ManifestRow>, runs: map<nat, RunRow>)

  function Find<K, V>(table: map<K, V>, key: K): Option<V> {
    if key in table then Some(table[key]) else None
  }

  /** The candidate query also names the slot. */
  function FindCandidate(table: map<nat, CandidateRow>, key: nat, k: Slot): Option<CandidateRow> {
    if key in table && table[key].slot == k then Some(table[key]) else None
  }

  // ---------------------------------------------------------------- the verdict on one set of rows

  datatype Refusal =
    | MissingActiveBaseline | MissingEvidence | MalformedEvidence | DigestMismatch
    | LinkageMismatch | ValidationNotReady | ReplayNotReady

  datatype Proof = Proof(ids: Ids, baseline: Option<Version>)
  datatype Verdict = Verified(proof: Proof) | Denied(refusal: Refusal)

  datatype Rows = Rows(staged: VersionRow, candidate: CandidateRow, evaluation: EvaluationRow, audit: AuditRow,
                       manifest: ManifestRow, training: ManifestRow, run: RunRow)

  predicate Malformed(r: Rows) {
    || r.manifest.record.samples.None? || r.training.record.samples.None?
    || r.candidate.body.None? || r.evaluation.body.None? || r.audit.body.None?
    || r.manifest.record.payload.None? || r.run.body.None?
  }

  predicate DigestsAgree(r: Rows) {
    && r.staged.digest == (r.staged.text, r.staged.metadata)
    && r.candidate.digest == r.candidate.body
    && r.run.digest == r.run.body
    && r.evaluation.digest == r.evaluation.body
    && r.audit.digest == r.audit.body
    && r.manifest.digest == r.manifest.record
    && r.training.digest == r.training.record
  }

  predicate Linked(r: Rows, ids: Ids, k: Slot, v: Version, wanted: Option<nat>)
    requires !Malformed(r)
  {
    var candidate, evaluation, run := r.candidate.body.value, r.evaluation.body.value, r.run.body.value;
    && r.candidate.run == ids.run
    && (wanted.Some? ==> ids.candidate == wanted.value)
    && r.candidate.version == v
    && candidate.candidate == ids.candidate && candidate.run == ids.run && candidate.version == v
    && candidate.audit == ids.audit && candidate.manifest == ids.manifest && candidate.metadata == r.staged.metadata
    && r.evaluation.candidate == ids.candidate
    && evaluation.run == ids.run && evaluation.manifest == ids.manifest
    && r.audit.candidate == ids.candidate && r.audit.manifest == ids.manifest
    && r.manifest.record.context == k.context && r.manifest.record.kind == PairedReplay
    && r.manifest.record.payload.value.manifest == ids.manifest
    && r.training.record.context == k.context && r.training.record.kind == OptimizationTraining
    && r.run.context == k.context && r.run.produced
    && run.candidate == ids.candidate && run.version == v && run.training == ids.training
    && run.manifest == ids.manifest && run.audit == ids.audit
  }

  predicate ReplayReady(r: Rows, ids: Ids, baseline: Option<Version>)
    requires !Malformed(r)
  {
    var audit := r.audit.body.value;
    && audit.manifest == ids.manifest && audit.manifestDigest == r.manifest.record.payload.value.digest
    && (match baseline
        case None => audit.missingBaseline && audit.decision == ReviewOnly && !audit.ready
        case Some(b) => && audit.decision == PromotionReady && audit.ready && audit.passed
                        && audit.baseline == b && audit.activeBaseline == b)
  }

  function Judge(r: Rows, ids: Ids, k: Slot, v: Version, baseline: Option<Version>, wanted: Option<nat>): Verdict {
    if Malformed(r) then Denied(MalformedEvidence)
    else if !DigestsAgree(r) then Denied(DigestMismatch)
    else if !Linked(r, ids, k, v, wanted) then Denied(LinkageMismatch)
    else if !r.candidate.body.value.passed || !r.evaluation.body.value.passed then Denied(ValidationNotReady)
    else if !ReplayReady(r, ids, baseline) then Denied(ReplayNotReady)
    else if r.audit.body.value.provenance != Some(v) then Denied(LinkageMismatch)
    else Verified(Proof(ids, baseline))
  }

  /** The chain as one snapshot of the tables shows it. */
  function Chain(e: Evidence, k: Slot, v: Version, baseline: Option<Version>, wanted: Option<nat>): Verdict {
    if v !in e.staged || e.staged[v].metadata.persistence.None? then Denied(MissingEvidence) else
      var ids := e.staged[v].metadata.persistence.value;
      if FindCandidate(e.candidates, ids.candidate, k).None? || ids.evaluation !in e.evaluations
          || ids.audit !in e.audits
         || ids.manifest !in e.manifests || ids.training !in e.manifests || ids.run !in e.runs
      then Denied(MissingEvidence)
      else Judge(Rows(e.staged[v], e.candidates[ids.candidate], e.evaluations[ids.evaluation], e.audits[ids.audit],
                      e.manifests[ids.manifest], e.manifests[ids.training], e.runs[ids.run]),
                 ids, k, v, baseline, wanted)
  }

  // ---------------------------------------------------------------- what evidence is

  /** The six rows that the staged version names are there, the candidate's in the slot. */
  ghost predicate Present(e: Evidence, k: Slot, v: Version) {
    && v in e.staged && e.staged[v].metadata.persistence.Some?
    && var ids := e.staged[v].metadata.persistence.value;
    && ids.run in e.runs && ids.candidate in e.candidates && e.candidates[ids.candidate].slot == k
    && ids.evaluation in e.evaluations && ids.audit in e.audits && ids.manifest in e.manifests
    && ids.training in e.manifests
  }

  ghost function Named(e: Evidence, v: Version): Ids
    requires v in e.staged && e.staged[v].metadata.persistence.Some?
  {
    e.staged[v].metadata.persistence.value
  }

  /** Every body is an object, but for the training manifest's, and both manifests list their samples. */
  ghost predicate Readable(e: Evidence, k: Slot, v: Version)
    requires Present(e, k, v)
  {
    var ids := Named(e, v);
    && e.candidates[ids.candidate].body.Some? && e.evaluations[ids.evaluation].body.Some?
    && e.audits[ids.audit].body.Some? && e.runs[ids.run].body.Some?
    && e.manifests[ids.manifest].record.payload.Some?
    && e.manifests[ids.manifest].record.samples.Some? && e.manifests[ids.training].record.samples.Some?
  }

  /** No row was altered after its digest was taken. */
  ghost predicate Intact(e: Evidence, k: Slot, v: Version)
    requires Present(e, k, v)
  {
    var ids := Named(e, v);
    && e.staged[v].digest == (e.staged[v].text, e.staged[v].metadata)
    && e.candidates[ids.candidate].digest == e.candidates[ids.candidate].body
    && e.evaluations[ids.evaluation].digest == e.evaluations[ids.evaluation].body
    && e.audits[ids.audit].digest == e.audits[ids.audit].body && e.runs[ids.run].digest == e.runs[ids.run].body
    && e.manifests[ids.manifest].digest == e.manifests[ids.manifest].record
    && e.manifests[ids.training].digest == e.manifests[ids.training].record
  }

  /** Whatever the rows say of one another, and of slot and version, is what the staged version names. */
  ghost predicate Coherent(e: Evidence, k: Slot, v: Version, wanted: Option<nat>)
    requires Present(e, k, v) && Readable(e, k, v)
  {
    var ids := Named(e, v);
    var candidate, evaluation, audit := e.candidates[ids.candidate], e.evaluations[ids.evaluation], e.audits[ids.audit];
    var manifest, training, run := e.manifests[ids.manifest].record, e.manifests[ids.training].record, e.runs[ids.run];
    && (wanted == None || wanted == Some(ids.candidate))
    // the candidate
    && {candidate.body.value.candidate, evaluation.candidate, audit.candidate,
        run.body.value.candidate} == {ids.candidate}
    // the run that produced it
    && {candidate.run, candidate.body.value.run, evaluation.body.value.run} == {ids.run} && run.produced
    // the replay
    && {candidate.body.value.audit, run.body.value.audit} == {ids.audit}
    && {candidate.body.value.manifest, evaluation.body.value.manifest, audit.manifest, manifest.payload.value.manifest,
        run.body.value.manifest} == {ids.manifest}
    && run.body.value.training == ids.training
    // the version
    && {candidate.version, candidate.body.value.version, run.body.value.version} == {v}
    && candidate.body.value.metadata == e.staged[v].metadata
    // the context
    && {manifest.context, training.context, run.context} == {k.context}
    && manifest.kind == PairedReplay && training.kind == OptimizationTraining
  }

  /** Candidate and evaluation both passed validation. */
  ghost predicate Validated(e: Evidence, k: Slot, v: Version)
    requires Present(e, k, v) && Readable(e, k, v)
  {
    e.candidates[Named(e, v).candidate].body.value.passed && e.evaluations[Named(e, v).evaluation].body.value.passed
  }

  /** The replay of that manifest was ready against the baseline; without one, it was held back for just that reason. */
  ghost predicate Replayed(e: Evidence, k: Slot, v: Version, baseline: Option<Version>)
    requires Present(e, k, v) && Readable(e, k, v)
  {
    var ids := Named(e, v);
    var audit := e.audits[ids.audit].body.value;
    && audit.manifest == ids.manifest && audit.manifestDigest == e.manifests[ids.manifest].record.payload.value.digest
    && (baseline.Some? ==>
          && audit.decision == PromotionReady && audit.ready && audit.passed
          && Some(audit.baseline) == baseline && Some(audit.activeBaseline) == baseline)
    && (baseline.None? ==> audit.missingBaseline && audit.decision == ReviewOnly && !audit.ready)
  }

  /** It was this version that was replayed. */
  ghost predicate Traced(e: Evidence, k: Slot, v: Version)
    requires Present(e, k, v) && Readable(e, k, v)
  {
    e.audits[Named(e, v).audit].body.value.provenance == Some(v)
  }

  /** The evidence for a version of a slot against a baseline. */
  ghost predicate Proves(e: Evidence, k: Slot, v: Version, baseline: Option<Version>, wanted: Option<nat>) {
    && Present(e, k, v) && Readable(e, k, v) && Intact(e, k, v) && Coherent(e, k, v, wanted) && Validated(e, k, v)
    && Replayed(e, k, v, baseline) && Traced(e, k, v)
  }

  /** The first thing that is wanting. */
  ghost predicate Wanting(e: Evidence, k: Slot, v: Version, baseline: Option<Version>, wanted: Option<nat>,
                          refusal: Refusal)
  {
    if !Present(e, k, v) then refusal == MissingEvidence
    else if !Readable(e, k, v) then refusal == MalformedEvidence
    else if !Intact(e, k, v) then refusal == DigestMismatch
    else if !Coherent(e, k, v, wanted) then refusal == LinkageMismatch
    else if !Validated(e, k, v) then refusal == ValidationNotReady
    else if !Replayed(e, k, v, baseline) then refusal == ReplayNotReady
    else refusal == LinkageMismatch && !Traced(e, k, v)
  }

  /** The chain verifies exactly if the rows are evidence, and otherwise names the first thing that is wanting. */
  lemma ChainExactlyWhenProven(e: Evidence, k: Slot, v: Version, baseline: Option<Version>, wanted: Option<nat>)
    ensures var verdict := Chain(e, k, v, baseline, wanted);
            && (verdict.Verified? <==> Proves(e, k, v, baseline, wanted))
            && (verdict.Denied? ==> Wanting(e, k, v, baseline, wanted, verdict.refusal))
  {
    if Present(e, k, v) && Readable(e, k, v) {
      LinkedIsCoherent(e, k, v, wanted);
      hide Linked, Coherent;
    }
  }

  ghost function RowsOf(e: Evidence, k: Slot, v: Version): Rows
    requires Present(e, k, v)
  {
    var ids := Named(e, v);
    Rows(e.staged[v], e.candidates[ids.candidate], e.evaluations[ids.evaluation], e.audits[ids.audit],
         e.manifests[ids.manifest], e.manifests[ids.training], e.runs[ids.run])
  }

  lemma LinkedIsCoherent(e: Evidence, k: Slot, v: Version, wanted: Option<nat>)
    requires Present(e, k, v) && Readable(e, k, v)
    ensures Linked(RowsOf(e, k, v), Named(e, v), k, v, wanted) <==> Coherent(e, k, v, wanted)
  {
    var ids := Named(e, v);
    var candidate, evaluation, audit := e.candidates[ids.candidate], e.evaluations[ids.evaluation], e.audits[ids.audit];
    var manifest, run := e.manifests[ids.manifest].record, e.runs[ids.run];
    AllAre({candidate.body.value.candidate, evaluation.candidate, audit.candidate, run.body.value.candidate},
           ids.candidate);
    AllAre({candidate.run, candidate.body.value.run, evaluation.body.value.run}, ids.run);
    AllAre({candidate.body.value.audit, run.body.value.audit}, ids.audit);
    AllAre({candidate.body.value.manifest, evaluation.body.value.manifest, audit.manifest,
            manifest.payload.value.manifest, run.body.value.manifest}, ids.manifest);
    AllAre({candidate.version, candidate.body.value.version, run.body.value.version}, v);
    AllAre({manifest.context, e.manifests[ids.training].record.context, run.context}, k.context);
  }

  lemma AllAre(s: set<nat>, x: nat)
    requires s != {}
    ensures s == {x} <==> forall y :: y in s ==> y == x
  {
    var y :| y in s;
  }

  // ---------------------------------------------------------------- other writers

  datatype Write =
    | Call(op: PointerOp, staged: VersionRow)   // staged is the body of the version a Stage call appends
    | AppendCandidate(candidate: nat, candidateRow: CandidateRow)
    | AppendEvaluation(evaluation: nat, evaluationRow: EvaluationRow)
    | AppendAudit(audit: nat, auditRow: AuditRow)
    | AppendManifest(manifest: nat, manifestRow: ManifestRow)
    | AppendRun(run: nat, runRow: RunRow)

  datatype Scene = Scene(evidence: Evidence, p: Pointers)

  /** INSERT OR IGNORE. */
  function Inserted<K, V>(table: map<K, V>, key: K, row: V): map<K, V> {
    if key in table then table else table[key := row]
  }

  function Written(e: Evidence, w: Write): Evidence {
    match w
    case Call(op, row) => if op.Stage? then e.(staged := Inserted(e.staged, op.version, row)) else e
    case AppendCandidate(key, row) => e.(candidates := Inserted(e.candidates, key, row))
    case AppendEvaluation(key, row) => e.(evaluations := Inserted(e.evaluations, key, row))
    case AppendAudit(key, row) => e.(audits := Inserted(e.audits, key, row))
    case AppendManifest(key, row) => e.(manifests := Inserted(e.manifests, key, row))
    case AppendRun(key, row) => e.(runs := Inserted(e.runs, key, row))
  }

  function After(s: Scene, writes: seq<Write>): Scene {
    if writes == [] then s else
      var before, w := After(s, writes[..|writes| - 1]), writes[|writes| - 1];
      Scene(Written(before.evidence, w), if w.Call? then Do(before.p, w.op).0 else before.p)
  }

  ghost predicate Kept<K(!new), V>(m: map<K, V>, n: map<K, V>) {
    forall k :: k in m ==> k in n && n[k] == m[k]
  }

  ghost predicate Grows(e: Evidence, f: Evidence) {
    && Kept(e.staged, f.staged) && Kept(e.candidates, f.candidates) && Kept(e.evaluations, f.evaluations)
    && Kept(e.audits, f.audits) && Kept(e.manifests, f.manifests) && Kept(e.runs, f.runs)
  }

  /** What others do before each of the coordinator's eight actions that follow its look at the pointer: reading the
      staged version, candidate, evaluation, audit, manifest, training manifest and run, and the swap. */
  type Gaps = gaps: seq<seq<Write>> | |gaps| == 8 witness seq(8, _ => [])

  /** The scene just before action n. */
  function Moment(s: Scene, gaps: Gaps, n: nat): Scene
    requires n <= 8
  {
    if n == 0 then s else After(Moment(s, gaps, n - 1), gaps[n - 1])
  }

  /** verified_evidence_chain, each row read in the scene of its own moment. */
  function Verifying(s: Scene, k: Slot, v: Version, baseline: Option<Version>, allowMissing: bool,
                     wanted: Option<nat>, gaps: Gaps): (Scene, Verdict)
  {
    if baseline.None? && !allowMissing then (s, Denied(MissingActiveBaseline)) else
      var first := Moment(s, gaps, 1);
      if v !in first.evidence.staged || first.evidence.staged[v].metadata.persistence.None?
      then (first, Denied(MissingEvidence)) else
        var ids := first.evidence.staged[v].metadata.persistence.value;
        var candidate := FindCandidate(Moment(s, gaps, 2).evidence.candidates, ids.candidate, k);
        var evaluation := Find(Moment(s, gaps, 3).evidence.evaluations, ids.evaluation);
        var audit := Find(Moment(s, gaps, 4).evidence.audits, ids.audit);
        var manifest := Find(Moment(s, gaps, 5).evidence.manifests, ids.manifest);
        var training := Find(Moment(s, gaps, 6).evidence.manifests, ids.training);
        var run := Find(Moment(s, gaps, 7).evidence.runs, ids.run);
        if candidate.None? || evaluation.None? || audit.None? || manifest.None? || training.None? || run.None?
        then (Moment(s, gaps, 7), Denied(MissingEvidence))
        else (Moment(s, gaps, 7),
              Judge(Rows(first.evidence.staged[v], candidate.value, evaluation.value, audit.value, manifest.value,
                         training.value, run.value), ids, k, v, baseline, wanted))
  }

  datatype Outcome = Promoted | RolledBack | Conflict | Because(refusal: Refusal)
  datatype Decision =
    | UnknownVersion   // the store raises: the version is not staged for this slot
    | Decision(applied: bool, previous: Option<Version>, expected: int, resulting: int, outcome: Outcome)

  function Observed(p: Pointers, k: Slot): nat {
    match p.Current(k)
    case None => 0
    case Some(row) => row.1
  }

  function Settle(result: CasResult, previous: Option<Version>, expected: int, done: Outcome): Decision {
    match result
    case Applied(revision) => Decision(true, previous, expected, revision, done)
    case Refused(revision) => Decision(false, previous, expected, revision, Conflict)
    case _ => UnknownVersion
  }

  /** promote, with the scene in which its compare-and-swap runs (or in which it gave up), and the final scene. */
  function Promoting(s: Scene, id: nat, k: Slot, v: Version, given: Option<int>, gaps: Gaps): (Scene, Scene, Decision) {
    var previous, observed := s.p.CurrentVersion(k), Observed(s.p, k);
    var expected := if given.Some? then given.value else observed;
    var (checked, verdict) := Verifying(s, k, v, previous, false, None, gaps);
    match verdict
    case Denied(refusal) => (checked, checked, Decision(false, previous, expected, observed, Because(refusal)))
    case Verified(_) =>
      var at := After(checked, gaps[7]);
      var (q, result) := Do(at.p, Cas(k, v, Some(expected), Promote, Coordinator(id)));
      (at, Scene(at.evidence, q), Settle(result, previous, expected, Promoted))
  }

  function Restoring(s: Scene, id: nat, k: Slot, v: Version, given: Option<int>, gap: seq<Write>):
    (Scene, Scene, Decision)
  {
    var previous, observed := s.p.CurrentVersion(k), Observed(s.p, k);
    var expected := if given.Some? then given.value else observed;
    var at := After(s, gap);
    var (q, result) := Do(at.p, Cas(k, v, Some(expected), Rollback, Coordinator(id)));
    (at, Scene(at.evidence, q), Settle(result, previous, expected, RolledBack))
  }

  // ---------------------------------------------------------------- what other writers can change

  ghost function Calls(writes: seq<Write>): seq<PointerOp> {
    if writes == [] then [] else
      var last := writes[|writes| - 1];
      Calls(writes[..|writes| - 1]) + (if last.Call? then [last.op] else [])
  }

  lemma GrowsItself(e: Evidence)
    ensures Grows(e, e)
  {
  }

  lemma WrittenGrows(e: Evidence, f: Evidence, w: Write)
    requires Grows(e, f)
    ensures Grows(e, Written(f, w))
  {
  }

  /** Evidence only grows, and the pointers go through a run of calls. */
  lemma {:induction false} AfterIsRun(s: Scene, writes: seq<Write>)
    ensures Grows(s.evidence, After(s, writes).evidence)
    ensures After(s, writes).p == GuidancePointer.Run(s.p, Calls(writes))
  {
    if writes != [] {
      hide Grows, Kept, Written, Do;
      var before, w := After(s, writes[..|writes| - 1]), writes[|writes| - 1];
      AfterIsRun(s, writes[..|writes| - 1]);
      WrittenGrows(s.evidence, before.evidence, w);
      var earlier := Calls(writes[..|writes| - 1]);
      if w.Call? {
        assert Calls(writes)[..|Calls(writes)| - 1] == earlier;
      } else {
        assert Calls(writes) == earlier;
      }
    } else {
      assert Calls(writes) == [];
    }
  }

  /** Later scenes have grown evidence and revisions that did not fall; an equal revision means an
      untouched pointer. */
  ghost predicate Later(s: Scene, t: Scene, k: Slot) {
    && Grows(s.evidence, t.evidence)
    && s.p.Effective(k) <= t.p.Effective(k)
    && (s.p.Effective(k) == t.p.Effective(k) ==> t.p.Pointer(k) == s.p.Pointer(k))
    && (s.p.Wf() ==> t.p.Wf())
  }

  lemma AfterIsLater(s: Scene, writes: seq<Write>, k: Slot)
    ensures Later(s, After(s, writes), k)
  {
    hide After;
    AfterIsRun(s, writes);
    RevisionCountsAppliedCalls(s.p, Calls(writes), k);
  }

  lemma LaterStill(s: Scene, t: Scene, u: Scene, k: Slot)
    requires Later(s, t, k) && Later(t, u, k)
    ensures Later(s, u, k)
  {
  }

  /** A verified chain stays verified, with the same proof, whatever is appended later. */
  lemma ChainKept(e: Evidence, f: Evidence, k: Slot, v: Version, baseline: Option<Version>, wanted: Option<nat>)
    requires Grows(e, f) && Chain(e, k, v, baseline, wanted).Verified?
    ensures Chain(f, k, v, baseline, wanted) == Chain(e, k, v, baseline, wanted)
  {
    hide Judge;
  }

  /** What is evidence stays evidence. */
  lemma EvidenceKept(e: Evidence, f: Evidence, k: Slot, v: Version, baseline: Option<Version>, wanted: Option<nat>)
    requires Grows(e, f) && Proves(e, k, v, baseline, wanted)
    ensures Proves(f, k, v, baseline, wanted)
  {
    hide Grows, Proves, Chain;
    ChainExactlyWhenProven(e, k, v, baseline, wanted);
    ChainKept(e, f, k, v, baseline, wanted);
    ChainExactlyWhenProven(f, k, v, baseline, wanted);
  }

  /** One staged version is evidence for one slot and one baseline only, now and ever after. */
  lemma ChainPinsBaseline(e: Evidence, f: Evidence, k: Slot, l: Slot, v: Version,
                          baseline: Option<Version>, other: Option<Version>, wanted: Option<nat>, again: Option<nat>)
    requires Grows(e, f) && Chain(e, k, v, baseline, wanted).Verified? && Chain(f, l, v, other, again).Verified?
    ensures k == l && baseline == other
    ensures Chain(e, k, v, baseline, wanted).proof == Chain(f, l, v, other, again).proof
  {
    ChainKept(e, f, k, v, baseline, wanted);
  }

  /** Rows read at different moments are all in every later snapshot. */
  lemma RowsStay(e1: Evidence, e2: Evidence, e3: Evidence, e4: Evidence, e5: Evidence, e6: Evidence, e7: Evidence,
                 ids: Ids, k: Slot, v: Version, baseline: Option<Version>, wanted: Option<nat>)
    requires Grows(e1, e7) && Grows(e2, e7) && Grows(e3, e7) && Grows(e4, e7) && Grows(e5, e7) && Grows(e6, e7)
    requires v in e1.staged && e1.staged[v].metadata.persistence == Some(ids)
    requires FindCandidate(e2.candidates, ids.candidate, k).Some? && ids.evaluation in e3.evaluations
    requires ids.audit in e4.audits && ids.manifest in e5.manifests && ids.training in e6.manifests
               && ids.run in e7.runs
    ensures Chain(e7, k, v, baseline, wanted)
         == Judge(Rows(e1.staged[v], e2.candidates[ids.candidate], e3.evaluations[ids.evaluation], e4.audits[ids.audit],
                       e5.manifests[ids.manifest], e6.manifests[ids.training], e7.runs[ids.run]),
                  ids, k, v, baseline, wanted)
  {
    hide Judge;
  }

  lemma {:induction false} MomentIsLater(s: Scene, gaps: Gaps, i: nat, n: nat, k: Slot)
    requires i <= n <= 8
    ensures Later(Moment(s, gaps, i), Moment(s, gaps, n), k)
  {
    hide After;
    if i < n {
      hide Later;
      MomentIsLater(s, gaps, i, n - 1, k);
      AfterIsLater(Moment(s, gaps, n - 1), gaps[n - 1], k);
      LaterStill(Moment(s, gaps, i), Moment(s, gaps, n - 1), Moment(s, gaps, n), k);
    }
  }

  lemma MomentGrows(s: Scene, gaps: Gaps, i: nat)
    requires i <= 7
    ensures Grows(Moment(s, gaps, i).evidence, Moment(s, gaps, 7).evidence)
  {
    hide Moment, Grows;
    MomentIsLater(s, gaps, i, 7, Slot(0, 0));
  }

  /** A verdict reached row by row, at different moments, is the verdict of the snapshot at its end, unless a row or the
      baseline was missing. */
  lemma VerifyingIsChain(s: Scene, k: Slot, v: Version, baseline: Option<Version>, allowMissing: bool,
                         wanted: Option<nat>, gaps: Gaps)
    ensures var (t, verdict) := Verifying(s, k, v, baseline, allowMissing, wanted, gaps);
            && Later(s, t, k)
            && (verdict == Denied(MissingActiveBaseline) <==> baseline.None? && !allowMissing)
            && (verdict !in {Denied(MissingActiveBaseline), Denied(MissingEvidence)} ==>
                 Chain(t.evidence, k, v, baseline, wanted) == verdict)
  {
    hide Judge, Later, Chain, Grows;
    MomentIsLater(s, gaps, 0, 0, k);
    MomentIsLater(s, gaps, 0, 1, k);
    MomentIsLater(s, gaps, 0, 7, k);
    JudgedIsPresent();
    hide Moment;
    var first := Moment(s, gaps, 1);
    if Verifying(s, k, v, baseline, allowMissing, wanted, gaps).1
      !in {Denied(MissingActiveBaseline), Denied(MissingEvidence)} {
      forall i | 1 <= i <= 6
        ensures Grows(Moment(s, gaps, i).evidence, Moment(s, gaps, 7).evidence)
      {
        MomentGrows(s, gaps, i);
      }
      RowsStay(first.evidence, Moment(s, gaps, 2).evidence, Moment(s, gaps, 3).evidence, Moment(s, gaps, 4).evidence,
               Moment(s, gaps, 5).evidence, Moment(s, gaps, 6).evidence, Moment(s, gaps, 7).evidence,
               first.evidence.staged[v].metadata.persistence.value, k, v, baseline, wanted);
    }
  }

  lemma JudgedIsPresent()
    ensures forall r, ids, k, v, baseline, wanted ::
              Judge(r, ids, k, v, baseline, wanted) !in {Denied(MissingActiveBaseline), Denied(MissingEvidence)}
  {
  }

  /** What was evidence at the start is still found and accepted, whatever others append meanwhile. */
  lemma EvidenceSuffices(s: Scene, k: Slot, v: Version, baseline: Option<Version>, allowMissing: bool,
                         wanted: Option<nat>, gaps: Gaps)
    requires Proves(s.evidence, k, v, baseline, wanted) && (baseline.Some? || allowMissing)
    ensures Verifying(s, k, v, baseline, allowMissing, wanted, gaps).1
         == Verified(Proof(Named(s.evidence, v), baseline))
  {
    hide Moment, Judge, Grows;
    forall i | 1 <= i <= 7
      ensures Grows(s.evidence, Moment(s, gaps, i).evidence)
    {
      StartGrows(s, gaps, i);
    }
    ChainExactlyWhenProven(s.evidence, k, v, baseline, wanted);
    hide Proves;
    SameRows(s.evidence, Moment(s, gaps, 1).evidence, Moment(s, gaps, 2).evidence, Moment(s, gaps, 3).evidence,
             Moment(s, gaps, 4).evidence, Moment(s, gaps, 5).evidence, Moment(s, gaps, 6).evidence,
             Moment(s, gaps, 7).evidence, k, v);
    ProofOfChain(s.evidence, k, v, baseline, wanted);
  }

  lemma VerifiedIsProof(s: Scene, k: Slot, v: Version, baseline: Option<Version>, allowMissing: bool,
                        wanted: Option<nat>, gaps: Gaps)
    ensures var (t, verdict) := Verifying(s, k, v, baseline, allowMissing, wanted, gaps);
            verdict.Verified? ==> Proves(t.evidence, k, v, baseline, wanted)
  {
    hide Verifying, Proves, Chain;
    VerifyingIsChain(s, k, v, baseline, allowMissing, wanted, gaps);
    ChainExactlyWhenProven(Verifying(s, k, v, baseline, allowMissing, wanted, gaps).0.evidence, k, v, baseline, wanted);
  }

  /** A row reported missing was not there at the start. */
  lemma MissingWasMissing(s: Scene, k: Slot, v: Version, baseline: Option<Version>, allowMissing: bool,
                          wanted: Option<nat>, gaps: Gaps)
    requires Verifying(s, k, v, baseline, allowMissing, wanted, gaps).1 == Denied(MissingEvidence)
    ensures !Present(s.evidence, k, v)
  {
    hide Moment, Judge, Grows, Present;
    JudgedIsPresent();
    forall i | 1 <= i <= 7
      ensures Grows(s.evidence, Moment(s, gaps, i).evidence)
    {
      StartGrows(s, gaps, i);
    }
    SameRows(s.evidence, Moment(s, gaps, 1).evidence, Moment(s, gaps, 2).evidence, Moment(s, gaps, 3).evidence,
             Moment(s, gaps, 4).evidence, Moment(s, gaps, 5).evidence, Moment(s, gaps, 6).evidence,
             Moment(s, gaps, 7).evidence, k, v);
    if Present(s.evidence, k, v) {
      PresentNamesIds(s.evidence, k, v);
    }
  }

  lemma PresentNamesIds(e: Evidence, k: Slot, v: Version)
    requires Present(e, k, v)
    ensures v in e.staged && e.staged[v].metadata.persistence.Some?
  {
  }

  lemma ProofOfChain(e: Evidence, k: Slot, v: Version, baseline: Option<Version>, wanted: Option<nat>)
    requires Chain(e, k, v, baseline, wanted).Verified?
    ensures Present(e, k, v)
    ensures Judge(RowsOf(e, k, v), Named(e, v), k, v, baseline, wanted) == Verified(Proof(Named(e, v), baseline))
  {
  }

  lemma StartGrows(s: Scene, gaps: Gaps, i: nat)
    requires i <= 7
    ensures Grows(s.evidence, Moment(s, gaps, i).evidence)
  {
    hide Grows;
    MomentIsLater(s, gaps, 0, i, Slot(0, 0));
    assert Moment(s, gaps, 0) == s;
  }

  /** Rows that are there at first are the rows read later. */
  lemma SameRows(e: Evidence, e1: Evidence, e2: Evidence, e3: Evidence, e4: Evidence, e5: Evidence, e6: Evidence,
                 e7: Evidence, k: Slot, v: Version)
    requires Grows(e, e1) && Grows(e, e2) && Grows(e, e3) && Grows(e, e4)
    requires Grows(e, e5) && Grows(e, e6) && Grows(e, e7)
    ensures Present(e, k, v) ==>
              var ids := Named(e, v);
              && v in e1.staged && e1.staged[v] == e.staged[v]
              && FindCandidate(e2.candidates, ids.candidate, k) == Some(e.candidates[ids.candidate])
              && Find(e3.evaluations, ids.evaluation) == Some(e.evaluations[ids.evaluation])
              && Find(e4.audits, ids.audit) == Some(e.audits[ids.audit])
              && Find(e5.manifests, ids.manifest) == Some(e.manifests[ids.manifest])
              && Find(e6.manifests, ids.training) == Some(e.manifests[ids.training])
              && Find(e7.runs, ids.run) == Some(e.runs[ids.run])
  {
  }

  // ---------------------------------------------------------------- time of check, time of use

  predicate WithinObserved(s: Scene, k: Slot, given: Option<int>) {
    given.None? || given.value <= Observed(s.p, k)
  }

  /** The compare-and-swap of a promotion pins the pointer the evidence was checked against. If the caller's
      expected revision is absent or no newer than the observed one, then whatever others do between the
      reads and before the swap, an applied promotion replaced exactly the version it reports, and the rows are
      evidence against it in the snapshot of that very instant. */
  lemma AppliedPromotionIsCurrent(s: Scene, id: nat, k: Slot, v: Version, given: Option<int>, gaps: Gaps)
    requires s.p.Wf() && WithinObserved(s, k, given)
    requires Promoting(s, id, k, v, given, gaps).2.Decision? && Promoting(s, id, k, v, given, gaps).2.applied
    ensures var (at, after, decision) := Promoting(s, id, k, v, given, gaps);
            && decision.previous.Some? && at.p.Pointer(k) == decision.previous == s.p.Pointer(k)
            && Chain(at.evidence, k, v, decision.previous, None).Verified?
            && Proves(at.evidence, k, v, decision.previous, None)
            && after.p.Pointer(k) == Some(v)
            && decision.resulting == after.p.Effective(k) == s.p.Effective(k) + 1
  {
    hide Judge, After, Verifying, Chain, Grows;
    var previous := s.p.CurrentVersion(k);
    VerifyingIsChain(s, k, v, previous, false, None, gaps);
    var (checked, verdict) := Verifying(s, k, v, previous, false, None, gaps);
    AfterIsLater(checked, gaps[7], k);
    var at := After(checked, gaps[7]);
    if previous.Some? {
      ChainKept(checked.evidence, at.evidence, k, v, previous, None);
      ChainExactlyWhenProven(at.evidence, k, v, previous, None);
    } else {
      MissingBaselineIsDenied(s, k, v, gaps);
    }
  }

  /** And evidence is not refused: a version that is proven against the slot's content when the promotion starts is
      applied exactly if the slot is at the expected revision when the swap is made. */
  lemma ProvenPromotionIsApplied(s: Scene, id: nat, k: Slot, v: Version, given: Option<int>, gaps: Gaps)
    requires s.p.Wf() && s.p.Pointer(k).Some? && v in s.p.versions && s.p.versions[v] == k
    requires Proves(s.evidence, k, v, s.p.Pointer(k), None)
    ensures var (at, after, decision) := Promoting(s, id, k, v, given, gaps);
            && decision.Decision? && decision.previous == s.p.Pointer(k)
            && decision.expected == (if given.Some? then given.value else s.p.Effective(k))
            && (decision.applied <==> at.p.Effective(k) == decision.expected)
            && decision.outcome == (if decision.applied then Promoted else Conflict)
            && (decision.applied ==> after.p.Pointer(k) == Some(v))
            && (!decision.applied ==> after.p.Pointer(k) == at.p.Pointer(k))
  {
    hide Proves, After, Verifying;
    EvidenceSuffices(s, k, v, s.p.Pointer(k), false, None, gaps);
    VerifyingKeepsVersions(s, k, v, gaps);
    var checked := Verifying(s, k, v, s.p.Pointer(k), false, None, gaps).0;
    ElsewhereStays(checked, v, gaps[7]);
    var at := After(checked, gaps[7]);
    var expected := if given.Some? then given.value else s.p.Effective(k);
    StepReadings(at.p, Cas(k, v, Some(expected), Promote, Coordinator(id)), k);
  }

  /** A refusal names what is wanting, and leaves the slot to others. */
  lemma RefusedPromotionIsWanting(s: Scene, id: nat, k: Slot, v: Version, given: Option<int>, gaps: Gaps)
    requires s.p.Wf()
    requires Promoting(s, id, k, v, given, gaps).2.Decision? && Promoting(s, id, k, v, given, gaps).2.outcome.Because?
    ensures var (at, after, decision) := Promoting(s, id, k, v, given, gaps);
            var refusal := decision.outcome.refusal;
            && at == after && !decision.applied && decision.previous == s.p.Pointer(k)
            && (refusal == MissingActiveBaseline <==> s.p.Pointer(k).None?)
            && (refusal == MissingEvidence ==> !Present(s.evidence, k, v))
            && (refusal !in {MissingActiveBaseline, MissingEvidence} ==>
                  Wanting(after.evidence, k, v, s.p.Pointer(k), None, refusal))
  {
    hide Verifying, Chain, Wanting, Proves, Present, After;
    var previous := s.p.CurrentVersion(k);
    VerifyingIsChain(s, k, v, previous, false, None, gaps);
    var (checked, verdict) := Verifying(s, k, v, previous, false, None, gaps);
    if verdict == Denied(MissingEvidence) {
      MissingWasMissing(s, k, v, previous, false, None, gaps);
    }
    ChainExactlyWhenProven(checked.evidence, k, v, previous, None);
  }

  lemma {:induction false} MomentKeepsVersions(s: Scene, gaps: Gaps, n: nat, v: Version)
    requires n <= 8 && v in s.p.versions
    ensures v in Moment(s, gaps, n).p.versions && Moment(s, gaps, n).p.versions[v] == s.p.versions[v]
  {
    hide After;
    if n > 0 {
      MomentKeepsVersions(s, gaps, n - 1, v);
      ElsewhereStays(Moment(s, gaps, n - 1), v, gaps[n - 1]);
    }
  }

  lemma VerifyingKeepsVersions(s: Scene, k: Slot, v: Version, gaps: Gaps)
    requires v in s.p.versions
    ensures var t := Verifying(s, k, v, s.p.Pointer(k), false, None, gaps).0;
            v in t.p.versions && t.p.versions[v] == s.p.versions[v]
  {
    hide Moment, Judge;
    MomentKeepsVersions(s, gaps, 1, v);
    MomentKeepsVersions(s, gaps, 7, v);
  }

  lemma MissingBaselineIsDenied(s: Scene, k: Slot, v: Version, gaps: Gaps)
    ensures Verifying(s, k, v, None, false, None, gaps) == (s, Denied(MissingActiveBaseline))
  {
  }

  /** The named revision is not ahead of the effective one, which outlives a cleared pointer. */
  predicate NotAhead(s: Scene, k: Slot, given: Option<int>) {
    given.None? || given.value <= s.p.Effective(k)
  }

  /** The same pinning for a rollback, which reads no evidence: what it reports is what it replaced. */
  lemma AppliedRollbackIsCurrent(s: Scene, id: nat, k: Slot, v: Version, given: Option<int>, gap: seq<Write>)
    requires s.p.Wf() && NotAhead(s, k, given)
    requires Restoring(s, id, k, v, given, gap).2.Decision? && Restoring(s, id, k, v, given, gap).2.applied
    ensures var (at, after, decision) := Restoring(s, id, k, v, given, gap);
            && at.p.Pointer(k) == decision.previous == s.p.Pointer(k)
            && after.p.Pointer(k) == Some(v)
            && decision.resulting == after.p.Effective(k) == s.p.Effective(k) + 1
  {
    hide After;
    AfterIsLater(s, gap, k);
  }

  /** A staged version can be promoted over one version only: any two applied promotions of it, in any slots
      and however far apart, replaced the same version of the same slot. */
  lemma PromotionsOfOneVersionAgree(s: Scene, id: nat, k: Slot, v: Version, given: Option<int>, gaps: Gaps,
                                    between: seq<Write>, other: nat, l: Slot, again: Option<int>, more: Gaps)
    requires s.p.Wf() && WithinObserved(s, k, given)
    requires Promoting(s, id, k, v, given, gaps).2.Decision? && Promoting(s, id, k, v, given, gaps).2.applied
    requires var t := After(Promoting(s, id, k, v, given, gaps).1, between);
             && t.p.Wf() && WithinObserved(t, l, again)
             && Promoting(t, other, l, v, again, more).2.Decision? && Promoting(t, other, l, v, again, more).2.applied
    ensures var t := After(Promoting(s, id, k, v, given, gaps).1, between);
            k == l && Promoting(s, id, k, v, given, gaps).2.previous
                == Promoting(t, other, l, v, again, more).2.previous
  {
    hide Judge, After, Verifying, Chain, Grows;
    var (at, after, decision) := Promoting(s, id, k, v, given, gaps);
    var t := After(after, between);
    AppliedPromotionIsCurrent(s, id, k, v, given, gaps);
    AppliedPromotionIsCurrent(t, other, l, v, again, more);
    var (swap, last, verdict) := Promoting(t, other, l, v, again, more);
    AfterIsLater(after, between, l);
    var previous := t.p.CurrentVersion(l);
    VerifyingIsChain(t, l, v, previous, false, None, more);
    var checked := Verifying(t, l, v, previous, false, None, more).0;
    AfterIsLater(checked, more[7], l);
    GrowsFurther(at.evidence, t.evidence, checked.evidence);
    GrowsFurther(at.evidence, checked.evidence, swap.evidence);
    ChainPinsBaseline(at.evidence, swap.evidence, k, l, v, decision.previous, verdict.previous, None, None);
  }

  lemma GrowsFurther(e: Evidence, f: Evidence, g: Evidence)
    requires Grows(e, f) && Grows(f, g)
    ensures Grows(e, g)
  {
  }

  /** Installs another version of the slot, n times over. */
  function Overtake(k: Slot, w: Version, n: nat, row: VersionRow): seq<Write> {
    if n == 0 then [Call(Stage(k, w, Coordinator(0)), row)]
    else Overtake(k, w, n - 1, row) + [Call(Cas(k, w, None, Promote, Coordinator(0)), row)]
  }

  lemma StagesOther(s: Scene, k: Slot, w: Version, row: VersionRow)
    requires w !in s.p.versions
    ensures var t := After(s, [Call(Stage(k, w, Coordinator(0)), row)]);
            t.p == s.p.(versions := s.p.versions[w := k])
  {
    assert After(s, []) == s;
    assert [Call(Stage(k, w, Coordinator(0)), row)][..0] == [];
  }

  lemma AfterMore(s: Scene, writes: seq<Write>, w: Write)
    requires w.Call?
    ensures After(s, writes + [w]).p == Do(After(s, writes).p, w.op).0
  {
    assert (writes + [w])[..|writes|] == writes;
  }

  lemma InstallsOther(p: Pointers, k: Slot, w: Version)
    requires w in p.versions && p.versions[w] == k
    ensures var q := Do(p, Cas(k, w, None, Promote, Coordinator(0))).0;
            q.Pointer(k) == Some(w) && q.Effective(k) == p.Effective(k) + 1 && q.versions == p.versions
  {
  }

  lemma {:induction false} OvertakenScene(s: Scene, k: Slot, w: Version, n: nat, row: VersionRow)
    requires w !in s.p.versions
    ensures var t := After(s, Overtake(k, w, n, row));
            && t.p.Effective(k) == s.p.Effective(k) + n
            && (n > 0 ==> t.p.Pointer(k) == Some(w))
            && t.p.versions == s.p.versions[w := k]
    decreases n
  {
    hide After, Do, Written;
    if n == 0 {
      StagesOther(s, k, w, row);
    } else {
      OvertakenScene(s, k, w, n - 1, row);
      var before, write := Overtake(k, w, n - 1, row), Call(Cas(k, w, None, Promote, Coordinator(0)), row);
      AfterMore(s, before, write);
      InstallsOther(After(s, before).p, k, w);
    }
  }

  lemma {:induction false} QuietMoments(s: Scene, gaps: Gaps, n: nat)
    requires n <= 8 && forall i :: 0 <= i < n ==> gaps[i] == []
    ensures Moment(s, gaps, n) == s
  {
    if n > 0 {
      QuietMoments(s, gaps, n - 1);
    }
  }

  lemma QuietVerifying(s: Scene, k: Slot, v: Version, baseline: Option<Version>, gaps: Gaps)
    requires baseline.Some? && forall i :: 0 <= i < 7 ==> gaps[i] == []
    ensures Verifying(s, k, v, baseline, false, None, gaps).1 == Chain(s.evidence, k, v, baseline, None)
    ensures Chain(s.evidence, k, v, baseline, None).Verified? ==> Verifying(s, k, v, baseline, false, None, gaps).0 == s
  {
    hide Judge, Moment;
    QuietMoments(s, gaps, 1);
    QuietMoments(s, gaps, 2);
    QuietMoments(s, gaps, 3);
    QuietMoments(s, gaps, 4);
    QuietMoments(s, gaps, 5);
    QuietMoments(s, gaps, 6);
    QuietMoments(s, gaps, 7);
  }

  /** Whatever happens in these gaps, an applied promotion has evidence against what it replaces. */
  ghost predicate Sound(s: Scene, id: nat, k: Slot, v: Version, given: Option<int>, gaps: Gaps) {
    var (at, after, decision) := Promoting(s, id, k, v, given, gaps);
    decision.Decision? && decision.applied ==> Chain(at.evidence, k, v, at.p.Pointer(k), None).Verified?
  }

  /** A caller who names a revision ahead of the observed one can have stale evidence applied: others
      need only install another version that many times before the swap. */
  lemma AheadOfObservedIsUnsound(s: Scene, id: nat, k: Slot, v: Version, given: Option<int>) returns (gaps: Gaps)
    requires s.p.Wf() && v in s.p.versions && s.p.versions[v] == k
    requires s.p.Pointer(k).Some? && Chain(s.evidence, k, v, s.p.Pointer(k), None).Verified?
    requires !WithinObserved(s, k, given)
    ensures !Sound(s, id, k, v, given, gaps)
  {
    hide Judge, After, Verifying, Chain, Grows, Overtake;
    var w := Unused(s.p.versions.Keys);
    var n, blank := given.value - s.p.Effective(k), Metadata(None, 0);
    var row := VersionRow(0, blank, (0, blank));
    var overtaking := Overtake(k, w, n, row);
    gaps := seq(7, _ => []) + [overtaking];
    QuietVerifying(s, k, v, s.p.Pointer(k), gaps);
    OvertakenScene(s, k, w, n, row);
    AfterIsLater(s, overtaking, k);
    var at := After(s, overtaking);
    if Chain(at.evidence, k, v, Some(w), None).Verified? {
      ChainPinsBaseline(s.evidence, at.evidence, k, k, v, s.p.Pointer(k), Some(w), None, None);
    }
  }

  /** So the check is free of a time-of-check gap exactly when the named revision is absent or not ahead of
      the one observed. */
  lemma SoundExactlyWithinObserved(s: Scene, id: nat, k: Slot, v: Version, given: Option<int>)
    requires s.p.Wf() && v in s.p.versions && s.p.versions[v] == k
    requires s.p.Pointer(k).Some? && Chain(s.evidence, k, v, s.p.Pointer(k), None).Verified?
    ensures WithinObserved(s, k, given) <==> forall gaps: Gaps :: Sound(s, id, k, v, given, gaps)
  {
    hide Promoting, Chain;
    if WithinObserved(s, k, given) {
      forall gaps: Gaps
        ensures Sound(s, id, k, v, given, gaps)
      {
        var decision := Promoting(s, id, k, v, given, gaps).2;
        if decision.Decision? && decision.applied {
          AppliedPromotionIsCurrent(s, id, k, v, given, gaps);
        }
      }
    } else {
      var gaps := AheadOfObservedIsUnsound(s, id, k, v, given);
    }
  }

  /** Whatever happens in this gap, an applied rollback replaced what it reports. */
  ghost predicate Reported(s: Scene, id: nat, k: Slot, v: Version, given: Option<int>, gap: seq<Write>) {
    var (at, after, decision) := Restoring(s, id, k, v, given, gap);
    decision.Decision? && decision.applied ==> at.p.Pointer(k) == decision.previous
  }

  lemma ElsewhereStays(s: Scene, v: Version, writes: seq<Write>)
    requires v in s.p.versions
    ensures v in After(s, writes).p.versions && After(s, writes).p.versions[v] == s.p.versions[v]
  {
    if writes != [] {
      hide Pointers.Moved, Pointers.Repaired;
      ElsewhereStays(s, v, writes[..|writes| - 1]);
    }
  }

  /** A caller who names a revision ahead of the effective one can be told of a version that was not replaced. */
  lemma AheadMisreports(s: Scene, id: nat, k: Slot, v: Version, given: Option<int>) returns (gap: seq<Write>)
    requires s.p.Wf() && (v in s.p.versions ==> s.p.versions[v] == k) && !NotAhead(s, k, given)
    ensures !Reported(s, id, k, v, given, gap)
  {
    hide After, Overtake;
    var w := Unused(s.p.versions.Keys + {v});
    var n, blank := given.value - s.p.Effective(k), Metadata(None, 0);
    var row := VersionRow(0, blank, (0, blank));
    var staging := Call(Stage(k, v, Coordinator(0)), row);
    OvertakenScene(s, k, w, n, row);
    AfterMore(s, Overtake(k, w, n, row), staging);
    gap := Overtake(k, w, n, row) + [staging];
  }

  /** A rollback within the slot is applied exactly if the slot is at the expected revision when it is made, and
      reports what it saw. */
  lemma RollbackIsApplied(s: Scene, id: nat, k: Slot, v: Version, given: Option<int>, gap: seq<Write>)
    requires s.p.Wf() && v in s.p.versions && s.p.versions[v] == k
    ensures var (at, after, decision) := Restoring(s, id, k, v, given, gap);
            && decision.Decision? && decision.previous == s.p.Pointer(k)
            && decision.expected == (if given.Some? then given.value
                                     else if s.p.Pointer(k).Some? then s.p.Effective(k) else 0)
            && (decision.applied <==> at.p.Effective(k) == decision.expected)
            && decision.outcome == (if decision.applied then RolledBack else Conflict)
            && after.p.Pointer(k) == (if decision.applied then Some(v) else at.p.Pointer(k))
            && decision.resulting == after.p.Effective(k)
  {
    hide After;
    ElsewhereStays(s, v, gap);
  }

  /** So a rollback's report is true exactly when the named revision is absent or not ahead of the effective one, unless
      the version belongs to another slot and nothing is ever applied. */
  lemma ReportedExactlyWhenNotAhead(s: Scene, id: nat, k: Slot, v: Version, given: Option<int>)
    requires s.p.Wf()
    ensures (forall gap: seq<Write> :: Reported(s, id, k, v, given, gap))
       <==> NotAhead(s, k, given) || (v in s.p.versions && s.p.versions[v] != k)
  {
    hide Restoring, After;
    if NotAhead(s, k, given) || (v in s.p.versions && s.p.versions[v] != k) {
      forall gap: seq<Write>
        ensures Reported(s, id, k, v, given, gap)
      {
        var decision := Restoring(s, id, k, v, given, gap).2;
        if decision.Decision? && decision.applied {
          if NotAhead(s, k, given) {
            AppliedRollbackIsCurrent(s, id, k, v, given, gap);
          } else {
            ElsewhereStays(s, v, gap);
            OutOfScopeFails(s, id, k, v, given, gap);
          }
        }
      }
    } else {
      var gap := AheadMisreports(s, id, k, v, given);
    }
  }

  lemma OutOfScopeFails(s: Scene, id: nat, k: Slot, v: Version, given: Option<int>, gap: seq<Write>)
    requires v in After(s, gap).p.versions && After(s, gap).p.versions[v] != k
    ensures Restoring(s, id, k, v, given, gap).2 == UnknownVersion
  {
    hide After;
  }

  // ---------------------------------------------------------------- the code

  class PromotionCoordinator {
    const guidance: GuidanceStore
    const id: nat
    var staged: map<Version, VersionRow>
    var candidates: map<nat, CandidateRow>
    var evaluations: map<nat, EvaluationRow>
    var audits: map<nat, AuditRow>
    var manifests: map<nat, ManifestRow>
    var runs: map<nat, RunRow>

    ghost function State(): Scene
      reads this, guidance
    {
      Scene(Evidence(staged, candidates, evaluations, audits, manifests, runs), guidance.State())
    }

    constructor (guidance: GuidanceStore, id: nat, e: Evidence)
      ensures this.guidance == guidance && this.id == id && State() == Scene(e, guidance.State())
    {
      this.guidance, this.id := guidance, id;
      staged, candidates, evaluations, audits, manifests, runs :=
        e.staged, e.candidates, e.evaluations, e.audits, e.manifests, e.runs;
    }

    /** Other writers act. */
    method Elsewhere(writes: seq<Write>)
      modifies this, guidance
      ensures State() == After(old(State()), writes)
    {
      for i := 0 to |writes|
        invariant State() == After(old(State()), writes[..i])
      {
        assert writes[..i + 1][..i] == writes[..i];
        Write(writes[i]);
      }
      assert writes[..|writes|] == writes;
    }

    method Write(w: Write)
      modifies this, guidance
      ensures State().evidence == Written(old(State()).evidence, w)
      ensures State().p == if w.Call? then Do(old(guidance.State()), w.op).0 else old(guidance.State())
    {
      match w
      case Call(Stage(k, v, actor), row) =>
        guidance.AppendVersion(v, k, actor);
        if v !in staged {
          staged := staged[v := row];
        }
      case Call(Cas(k, v, expected, action, actor), _) =>
        var _ := guidance.CompareAndSwap(k, v, expected, action, actor);
      case Call(Clear(k, expected, actor), _) =>
        var _ := guidance.ClearSlot(k, expected, actor);
      case AppendCandidate(key, row) =>
        if key !in candidates {
          candidates := candidates[key := row];
        }
      case AppendEvaluation(key, row) =>
        if key !in evaluations {
          evaluations := evaluations[key := row];
        }
      case AppendAudit(key, row) =>
        if key !in audits {
          audits := audits[key := row];
        }
      case AppendManifest(key, row) =>
        if key !in manifests {
          manifests := manifests[key := row];
        }
      case AppendRun(key, row) =>
        if key !in runs {
          runs := runs[key := row];
        }
    }

    method VerifiedEvidenceChain(k: Slot, v: Version, baseline: Option<Version>, allowMissing: bool,
                                 wanted: Option<nat>, gaps: Gaps)
      returns (verdict: Verdict)
      modifies this, guidance
      ensures (State(), verdict) == Verifying(old(State()), k, v, baseline, allowMissing, wanted, gaps)
      ensures verdict.Verified? ==> Proves(State().evidence, k, v, baseline, wanted)
    {
      hide After, Judge, Proves;
      ghost var s := State();
      VerifiedIsProof(s, k, v, baseline, allowMissing, wanted, gaps);
      if baseline.None? && !allowMissing {
        return Denied(MissingActiveBaseline);
      }
      Elsewhere(gaps[0]);
      assert State() == Moment(s, gaps, 1);
      if v !in staged || staged[v].metadata.persistence.None? {
        return Denied(MissingEvidence);
      }
      var version := staged[v];
      var ids := version.metadata.persistence.value;
      Elsewhere(gaps[1]);
      assert State() == Moment(s, gaps, 2);
      var candidate := FindCandidate(candidates, ids.candidate, k);
      Elsewhere(gaps[2]);
      assert State() == Moment(s, gaps, 3);
      var evaluation := Find(evaluations, ids.evaluation);
      Elsewhere(gaps[3]);
      assert State() == Moment(s, gaps, 4);
      var audit := Find(audits, ids.audit);
      Elsewhere(gaps[4]);
      assert State() == Moment(s, gaps, 5);
      var manifest := Find(manifests, ids.manifest);
      Elsewhere(gaps[5]);
      assert State() == Moment(s, gaps, 6);
      var training := Find(manifests, ids.training);
      Elsewhere(gaps[6]);
      assert State() == Moment(s, gaps, 7);
      var run := Find(runs, ids.run);
      if candidate.None? || evaluation.None? || audit.None? || manifest.None? || training.None? || run.None? {
        return Denied(MissingEvidence);
      }
      verdict := Judge(Rows(version, candidate.value, evaluation.value, audit.value, manifest.value, training.value,
                            run.value), ids, k, v, baseline, wanted);
    }

    method Promote(k: Slot, v: Version, given: Option<int>, gaps: Gaps) returns (decision: Decision)
      modifies this, guidance
      ensures (State(), decision)
           == (Promoting(old(State()), id, k, v, given, gaps).1, Promoting(old(State()), id, k, v, given, gaps).2)
    {
      hide After, Verifying;
      var active := guidance.GetActive(k);
      var observed := if active.Some? then active.value.1 else 0;
      var expected := if given.Some? then given.value else observed;
      var previous := if active.Some? then Some(active.value.0) else None;
      var verdict := VerifiedEvidenceChain(k, v, previous, false, None, gaps);
      if verdict.Denied? {
        return Decision(false, previous, expected, observed, Because(verdict.refusal));
      }
      Elsewhere(gaps[7]);
      var result := guidance.CompareAndSwap(k, v, Some(expected), Action.Promote, Coordinator(id));
      decision := Settle(result, previous, expected, Promoted);
    }

    method RollBack(k: Slot, v: Version, given: Option<int>, gap: seq<Write>) returns (decision: Decision)
      modifies this, guidance
      ensures (State(), decision)
           == (Restoring(old(State()), id, k, v, given, gap).1, Restoring(old(State()), id, k, v, given, gap).2)
    {
      hide After;
      var active := guidance.GetActive(k);
      var observed := if active.Some? then active.value.1 else 0;
      var expected := if given.Some? then given.value else observed;
      var previous := if active.Some? then Some(active.value.0) else None;
      Elsewhere(gap);
      var result := guidance.RollBack(k, v, Some(expected), Coordinator(id));
      decision := Settle(result, previous, expected, RolledBack);
    }
  }
}
