/**
 What activation is about, apart from its order of effects: adapter answers,
 the outcome each combination of answers deserves, and what justifies it.

 Adapters are oracles.  A script, fixed for one locked run, holds an arbitrary
 answer for every adapter call a transaction can make.
 */
module Activation {
  import opened Wrappers
  import opened LifecycleRecords
  import opened LifecycleState
  import opened LifecycleProtocol

  const DISPATCHER_PROTOCOL := "dev-flow-dispatcher/1.0.0"

  datatype Envelope = Envelope(index: string, archive: string, manifest: string)

  datatype ActivationRequest = ActivationRequest(
    operation: Operation,
    transactionId: Id,
    version: string,
    releaseId: Id,
    releasePath: Path,
    envelope: Envelope)

  datatype Candidate = Candidate(
    version: string,
    releaseId: Id,
    releasePath: Path,
    receipt: string,
    envelope: Envelope,
    owned: seq<Path>)

  datatype StepEvidence = StepEvidence(
    exact: bool,
    observations: seq<Observation>,
    effects: seq<Effect>,
    retained: seq<Path>,
    recovery: seq<string>)
  {
    function AsEvidence(): Evidence {
      Evidence(observations, effects, [], retained, recovery)
    }
  }

  datatype AdapterFailure = AdapterFailure(
    observations: seq<Observation>,
    effects: seq<Effect>,
    retained: seq<Path>,
    recovery: seq<string>,
    uncertain: bool)

  datatype Attestation = Attestation(
    identityProven: bool,
    reusable: bool,
    version: Option<string>,
    envelope: Option<Envelope>,
    observations: seq<Observation>)

  datatype Classification = Classification(
    exactPredecessor: bool,
    observations: seq<Observation>,
    recovery: seq<string>)

  /** An adapter returns, raises an adapter failure, or raises anything else. */
  datatype Answer<T> = Returned(value: T) | Failed(failure: AdapterFailure) | Broke

  datatype Exception = FromAdapter(failure: AdapterFailure) | FromStore(error: Error)

  /** The program points at which a transaction asks for evidence. */
  datatype Site =
    | StagedHealth | ObservePrevious | ReadBackCandidate | ProofTarget | CleanupInactive
    | RestorePrevious | ProofPrevious | CleanupOwned
    | PreconditionProof | ChangedBytesProof | RepairReadBack | RepairProof
    | ResumeReadBack | ResumeProof | ResumeCleanup

  datatype Script = Script(
    step: (Id, Site) -> Answer<StepEvidence>,
    marketplace: Answer<StepEvidence>,
    plugin: Answer<StepEvidence>,
    build: Answer<Candidate>,
    attest: Answer<Attestation>,
    classify: Option<Answer<Classification>>)
  {
    /** Only marketplace and plugin provisioning report applied effects. */
    ghost predicate Tame() {
      && (forall id, site :: QuietStep(step(id, site)))
      && (build.Failed? ==> !AnyApplied(build.failure.effects))
      && (attest.Failed? ==> !AnyApplied(attest.failure.effects))
    }

    /** No answer carries more than its share, and a candidate names each of its paths once. */
    ghost predicate Light() {
      && (forall id, site :: SlimStep(step(id, site)))
      && SlimStep(marketplace) && SlimStep(plugin)
      && (match build
          case Returned(c) => NoDuplicates(c.owned) && |c.owned| <= SHARE
          case Failed(f) => SlimFailure(f)
          case Broke => true)
      && (match attest
          case Returned(a) => |a.observations| <= SHARE
          case Failed(f) => SlimFailure(f)
          case Broke => true)
      && (match classify
          case Some(Returned(c)) => |c.observations| <= SHARE && |c.recovery| <= SHARE
          case _ => true)
    }
  }

  predicate QuietStep(answer: Answer<StepEvidence>) {
    match answer
    case Returned(e) => !AnyApplied(e.effects)
    case Failed(f) => !AnyApplied(f.effects)
    case Broke => true
  }

  datatype LifecycleResult = LifecycleResult(
    transactionId: Id,
    outcome: Outcome,
    active: Snapshot,
    reused: bool)

  // Recovery guidance is prose; a keyword stands for each text.
  const UNKNOWN_STEP := [Observation("adapter-step", Unknown, None)]
  const LIFECYCLE_STEP := [Observation("lifecycle-step", Unknown, None)]
  const INSPECT := ["inspect"]
  const RERUN := ["rerun"]
  const STOP := ["stop"]

  /** `_safe_step`: every failure becomes inexact evidence. */
  function Safe(answer: Answer<StepEvidence>): StepEvidence {
    match answer
    case Returned(e) => e
    case Failed(f) =>
      StepEvidence(false, if f.observations == [] then UNKNOWN_STEP else f.observations, f.effects, f.retained,
        f.recovery)
    case Broke => StepEvidence(false, UNKNOWN_STEP, [], [], INSPECT)
  }

  /** `_as_failure`. */
  function AsFailure(exception: Exception): AdapterFailure {
    match exception
    case FromAdapter(f) => f
    case FromStore(_) => AdapterFailure(LIFECYCLE_STEP, [], [], RERUN, false)
  }

  function Inexact(e: StepEvidence, uncertain: bool): AdapterFailure {
    AdapterFailure(e.observations, [], e.retained, e.recovery, uncertain)
  }

  function NewOwned(existing: seq<Path>, paths: seq<Path>): seq<Path> {
    if paths == [] then []
    else (if paths[0] in existing then [] else [paths[0]]) + NewOwned(existing, paths[1..])
  }

  predicate ReportsApplied(kind: string, effects: seq<Effect>) {
    exists i :: 0 <= i < |effects| && effects[i].kind == kind && effects[i].applied
  }

  /** A public startup proof of `subject`, taken while the active authority was `at`. */
  datatype Proof = Proof(subject: Option<ActiveRecord>, at: Snapshot)

  /** What was known, and what the active authority was, when a terminal outcome became durable. */
  datatype Verdict = Verdict(
    journal: Journal,
    active: Snapshot,
    proofs: set<Proof>,
    readBacks: set<(Id, Path)>,
    restored: set<Id>)

  /**
   `Committed` needs the active record to be the target (or, for a reused
   repair, the unchanged previous record), an exact host read-back of that
   release and an exact public proof of that very record.  `RolledBack` needs
   the previous authority in place, an exact public proof of it, and an exact
   restoration if any effect was journaled as applied.
   */
  predicate Sound(v: Verdict) {
    match v.journal.outcome
    case None => false
    case Some(Partial) => true
    case Some(Committed) =>
      && v.active.record.Some?
      && (IsTargetRecord(v.active.record, v.journal)
          || (v.journal.operation == Repair && Matches(v.active, v.journal.expected)))
      && Proof(v.active.record, v.active) in v.proofs
      && (v.active.record.value.releaseId, v.active.record.value.releasePath) in v.readBacks
    case Some(RolledBack) =>
      && SameAuthority(v.active.record, v.journal.previous)
      && Proof(v.journal.previous, v.active) in v.proofs
      && (AnyApplied(v.journal.effects) ==> v.journal.id in v.restored)
  }

  predicate VerdictOk(d: Durable, verdicts: map<Id, Verdict>, id: Id) {
    id in d.journals && IsActivation(d.journals[id].operation) && d.journals[id].outcome.Some? ==>
      id in verdicts && verdicts[id].journal == d.journals[id] && Sound(verdicts[id])
  }

  ghost predicate Judged(d: Durable, verdicts: map<Id, Verdict>) {
    forall id :: VerdictOk(d, verdicts, id)
  }

  /** Verdicts speak of activation journals alone. */
  lemma JudgedIgnoresOthers(before: Durable, after: Durable, verdicts: map<Id, Verdict>, mine: set<Operation>)
    requires Judged(before, verdicts) && mine !! ACTIVATIONS
    requires Foreign(before, mine) == Foreign(after, mine)
    ensures Judged(after, verdicts)
  {
    forall id ensures VerdictOk(after, verdicts, id) {
      assert VerdictOk(before, verdicts, id);
      if id in after.journals && IsActivation(after.journals[id].operation) {
        assert id in Foreign(after, mine);
      }
    }
  }

  /** The in-memory journal after one successful append. */
  ghost predicate Succeeds(journal: Journal, next: Journal, phase: Phase, effects: seq<Effect>) {
    && SameIdentity(journal, next)
    && next.phase == phase
    && next.effects == journal.effects + effects
  }

  /** The same journal in the same phase, with no new applied effect. */
  ghost predicate Carries(journal: Journal, next: Journal) {
    && SameIdentity(journal, next)
    && next.phase == journal.phase
    && (AnyApplied(next.effects) <==> AnyApplied(journal.effects))
  }

  /** The journal in memory is the durable one, and is an open activation. */
  ghost predicate Held(d: Durable, journal: Journal) {
    Open(d, journal.id) && d.journals[journal.id] == journal && IsActivation(journal.operation)
  }

  /** These journals are still what they were, if they are closed, and of the same transaction in any case. */
  ghost predicate Sealed(d: Durable, sealed: map<Id, Journal>) {
    forall id :: id in sealed ==>
      && id in d.journals && SameIdentity(sealed[id], d.journals[id])
      && (sealed[id].outcome.Some? ==> d.journals[id] == sealed[id])
  }

  /** A closed journal is never written again. */
  lemma SealedStays(before: Durable, after: Durable, expected: Journal, journal: Journal, sealed: map<Id, Journal>)
    requires Sealed(before, sealed) && Keyed(before.journals) && Wrote(before, after, expected, journal)
    ensures Sealed(after, sealed)
  {
    assert expected.outcome.None?;
  }

  /** A write that leaves an activation open needs no verdict. */
  lemma AdvanceKeepsGood(
    before: Durable, after: Durable, expected: Journal, journal: Journal, verdicts: map<Id, Verdict>)
    requires Inv(before) && Judged(before, verdicts) && Wrote(before, after, expected, journal)
    requires IsActivation(journal.operation) && journal.phase != Terminal && ActivationPhase(journal.phase)
    ensures Inv(after) && Judged(after, verdicts)
    ensures Foreign(after, ACTIVATIONS) == Foreign(before, ACTIVATIONS)
  {
    OwnWriteKeepsForeign(before, after, journal, ACTIVATIONS);
    assert JournalOk(before, journal.id);
    WriteKeepsInv(before, after, expected, journal);
    forall id ensures VerdictOk(after, verdicts, id) {
      assert VerdictOk(before, verdicts, id);
    }
  }

  /** A terminal write brings its verdict with it. */
  lemma ConcludeKeepsGood(before: Durable, after: Durable, expected: Journal, done: Journal,
                          verdicts: map<Id, Verdict>, verdict: Verdict)
    requires Inv(before) && Judged(before, verdicts) && Wrote(before, after, expected, done)
    requires expected.outcome.None? && done.outcome.Some?
    requires IsActivation(done.operation) && verdict.journal == done && Sound(verdict)
    ensures Inv(after) && Judged(after, verdicts[done.id := verdict])
    ensures Foreign(after, ACTIVATIONS) == Foreign(before, ACTIVATIONS)
  {
    OwnWriteKeepsForeign(before, after, done, ACTIVATIONS);
    WriteKeepsInv(before, after, expected, done);
    var extended := verdicts[done.id := verdict];
    forall id ensures VerdictOk(after, extended, id) {
      assert VerdictOk(before, verdicts, id);
    }
  }

  /** The transaction has only been opened and described: nothing outside has changed. */
  ghost predicate Fresh(d: Durable, journal: Journal) {
    && Held(d, journal)
    && journal.phase == Created
    && !AnyApplied(journal.effects)
    && Untouched(d, journal)
  }

  /** Opening an activation keeps every account, and it starts fresh. */
  lemma CreateKeepsGood(
    before: Durable, after: Durable, journal: Journal, verdicts: map<Id, Verdict>, sealed: map<Id, Journal>)
    requires Inv(before) && Judged(before, verdicts) && Sealed(before, sealed)
    requires journal.id !in before.journals && WellFormed(journal)
    requires after == before.(journals := before.journals[journal.id := journal])
    requires IsActivation(journal.operation) && journal.target.Some? && journal.phase == Created && journal.effects == []
    requires journal.expected == Observe(before).Expectation() && journal.previous == before.active
    requires forall id :: Open(before, id) ==> WaitingReinstall(before.journals[id])
    ensures Inv(after) && Judged(after, verdicts) && Sealed(after, sealed) && Fresh(after, journal)
    ensures Foreign(after, ACTIVATIONS) == Foreign(before, ACTIVATIONS)
  {
    CreateKeepsInv(before, after, journal);
    OwnWriteKeepsForeign(before, after, journal, ACTIVATIONS);
    forall id ensures VerdictOk(after, verdicts, id) {
      assert VerdictOk(before, verdicts, id);
    }
  }

  /** The attempt failed with this in-memory journal; it may be compensated from here. */
  ghost predicate Compensable(d: Durable, journal0: Journal, journal: Journal, failure: AdapterFailure) {
    && SameIdentity(journal0, journal)
    && IsActivation(journal.operation)
    && ActivationPhase(journal.phase)
    && (journal.phase == Created ==>
          !AnyApplied(journal.effects) && !AnyApplied(failure.effects) && Untouched(d, journal))
    && (journal.phase != Created ==> LegalPhase(journal.phase, Restoring))
  }

  predicate ForRequest(journal: Journal, request: ActivationRequest) {
    && journal.id == request.transactionId
    && journal.operation == request.operation
    && journal.target.Some?
    && journal.target.value.releaseId == request.releaseId
    && journal.target.value.releasePath == request.releasePath
  }

  predicate AimsAt(journal: Journal, candidate: Candidate) {
    && journal.target.Some?
    && journal.target.value.releaseId == candidate.releaseId
    && journal.target.value.releasePath == candidate.releasePath
  }

  /** The record a commit selects. */
  function Selected(candidate: Candidate, previous: Snapshot, transactionId: Id): ActiveRecord {
    ActiveRecord(
      previous.generation + 1, candidate.releaseId, candidate.releasePath, candidate.receipt,
      DISPATCHER_PROTOCOL, transactionId)
  }

  /** `_validate_candidate`. */
  predicate CandidateMatches(request: ActivationRequest, candidate: Candidate) {
    && candidate.version == request.version
    && candidate.releaseId == request.releaseId
    && candidate.releasePath == request.releasePath
    && candidate.envelope == request.envelope
  }

  function Raised<T>(answer: Answer<T>): Exception
    requires !answer.Returned?
  {
    match answer
    case Failed(f) => FromAdapter(f)
    case Broke => FromStore(OSError)
  }

  lemma AppliedAppends(a: seq<Effect>, b: seq<Effect>)
    ensures AnyApplied(a + b) <==> AnyApplied(a) || AnyApplied(b)
  {
    if AnyApplied(a) {
      var i :| 0 <= i < |a| && a[i].applied;
      assert (a + b)[i].applied;
    }
    if AnyApplied(b) {
      var i :| 0 <= i < |b| && b[i].applied;
      assert (a + b)[|a| + i].applied;
    }
  }

  // ----- the outcome that the answers deserve, when no store call raises -----

  predicate ExactAt(script: Script, id: Id, site: Site) {
    Safe(script.step(id, site)).exact
  }

  /** After a host effect: both the restoration and the proof of the previous authority must be exact. */
  function RollbackOutcome(script: Script, id: Id): Outcome {
    if ExactAt(script, id, RestorePrevious) && ExactAt(script, id, ProofPrevious) then RolledBack else Partial
  }

  /** Before any host effect: a certain failure, an exact cleanup and an exact proof. */
  function FinishOutcome(script: Script, id: Id, uncertain: bool): Outcome {
    if !uncertain && ExactAt(script, id, CleanupOwned) && ExactAt(script, id, ProofPrevious) then RolledBack
    else Partial
  }

  function RecoveryOutcome(script: Script, active: Option<ActiveRecord>, journal: Journal): Outcome {
    if IsTargetRecord(active, journal) then
      if ExactAt(script, journal.id, ResumeReadBack) && ExactAt(script, journal.id, ResumeProof) then Committed
      else RollbackOutcome(script, journal.id)
    else if AnyApplied(journal.effects) then
      RollbackOutcome(script, journal.id)
    else if ExactAt(script, journal.id, ProofPrevious) then RolledBack
    else Partial
  }

  /** The first thing that goes wrong in an attempt, if any. */
  datatype Hurdle = NoHurdle | BeforeHost(uncertain: bool) | AfterHost

  function Uncertain<T>(answer: Answer<T>, ifReturned: bool): bool {
    match answer
    case Returned(_) => ifReturned
    case Failed(f) => f.uncertain
    case Broke => false
  }

  predicate Provisions(kind: string, answer: Answer<StepEvidence>) {
    answer.Returned? && answer.value.exact && ReportsApplied(kind, answer.value.effects)
  }

  predicate TouchesHost(answer: Answer<StepEvidence>) {
    match answer
    case Returned(e) => AnyApplied(e.effects)
    case Failed(f) => AnyApplied(f.effects)
    case Broke => false
  }

  function FirstHurdle(script: Script, request: ActivationRequest): Hurdle {
    var id := request.transactionId;
    if !script.build.Returned? then BeforeHost(Uncertain(script.build, false))
    else if !CandidateMatches(request, script.build.value) then BeforeHost(false)
    else if !ExactAt(script, id, StagedHealth) then BeforeHost(Uncertain(script.step(id, StagedHealth), false))
    else if !ExactAt(script, id, ObservePrevious) then BeforeHost(Uncertain(script.step(id, ObservePrevious), true))
    else HostHurdle(script, id)
  }

  /** The first thing that goes wrong once the candidate is staged. */
  function HostHurdle(script: Script, id: Id): Hurdle {
    if !Provisions("marketplace", script.marketplace) then
      if TouchesHost(script.marketplace) then AfterHost else BeforeHost(Uncertain(script.marketplace, true))
    else if
      && Provisions("plugin", script.plugin)
      && ExactAt(script, id, ReadBackCandidate)
      && ExactAt(script, id, ProofTarget)
    then NoHurdle
    else AfterHost
  }

  function HurdleOutcome(script: Script, id: Id, hurdle: Hurdle): Outcome {
    match hurdle
    case NoHurdle => Committed
    case BeforeHost(uncertain) => FinishOutcome(script, id, uncertain)
    case AfterHost => RollbackOutcome(script, id)
  }

  function AttemptOutcome(script: Script, request: ActivationRequest): Outcome {
    HurdleOutcome(script, request.transactionId, FirstHurdle(script, request))
  }

  /** The operation does not fit the presence of an active authority. */
  predicate Misfit(operation: Operation, present: bool) {
    !(operation in {Repair, Upgrade} <==> present)
  }

  /** How a repair is answered without a new candidate, if it is. */
  function RepairAnswer(script: Script, request: ActivationRequest): Option<Outcome> {
    var id := request.transactionId;
    match script.attest
    case Failed(_) => Some(Partial)
    case Broke => Some(Partial)
    case Returned(a) =>
      if !a.identityProven || a.envelope.None? then Some(Partial)
      else if a.version != Some(request.version) then Some(FinishOutcome(script, id, false))
      else if a.envelope != Some(request.envelope) then
        Some(if ExactAt(script, id, ChangedBytesProof) then RolledBack else Partial)
      else if a.reusable && ExactAt(script, id, RepairReadBack) && ExactAt(script, id, RepairProof) then
        Some(Committed)
      else None
  }

  predicate ExactPredecessor(script: Script) {
    match script.classify
    case Some(Returned(c)) => c.exactPredecessor
    case _ => false
  }

  /** The whole decision table of one run. */
  function RunOutcome(script: Script, request: ActivationRequest, present: bool): Outcome {
    if Misfit(request.operation, present) then
      if ExactAt(script, request.transactionId, PreconditionProof) then RolledBack else Partial
    else if request.operation == Repair && RepairAnswer(script, request).Some? then
      RepairAnswer(script, request).value
    else if request.operation == Migration && !ExactPredecessor(script) then
      Partial
    else
      AttemptOutcome(script, request)
  }

  /** The authority that a recovery ending so leaves in place. */
  predicate Leaves(active: Option<ActiveRecord>, journal: Journal, outcome: Outcome) {
    && (outcome == Committed ==> IsTargetRecord(active, journal))
    && (outcome == RolledBack ==> SameAuthority(active, journal.previous))
  }

  /** Whether an authority is in place after an open activation was recovered. */
  function PresentAfter(script: Script, active: Option<ActiveRecord>, journal: Journal): bool {
    RecoveryOutcome(script, active, journal) == Committed || journal.previous.Some?
  }

  /** What becomes of a run that finds an activation open. */
  function ResumedOutcome(
    script: Script, request: ActivationRequest, active: Option<ActiveRecord>, journal: Journal): Outcome
  {
    if RecoveryOutcome(script, active, journal) == Partial then Partial
    else RunOutcome(script, request, PresentAfter(script, active, journal))
  }

  /** The journal whose outcome such a run reports. */
  function ResumedId(script: Script, request: ActivationRequest, active: Option<ActiveRecord>, journal: Journal): Id {
    if RecoveryOutcome(script, active, journal) == Partial then journal.id else request.transactionId
  }

  /** One activation is open, and nothing else. */
  ghost predicate OnlyActivation(d: Durable, id: Id) {
    Open(d, id) && IsActivation(d.journals[id].operation) && forall k :: Open(d, k) ==> k == id
  }

  // ----- evidence that fits the caps -----

  /** What one answer may put into each list of a journal. */
  const SHARE: nat := 9

  /** The longest list of a journal. */
  function Load(j: Journal): nat {
    Max(Max(Max(|j.observations|, |j.effects|), |j.owned|), Max(|j.retained|, |j.recovery|))
  }

  /** The longest list of evidence. */
  function Weight(e: Evidence): nat {
    Max(Max(Max(|e.observations|, |e.effects|), |e.owned|), Max(|e.retained|, |e.recovery|))
  }

  lemma NothingIsWeightless()
    ensures Weight(NOTHING) == 0
  {
  }

  function FailureEvidence(f: AdapterFailure): Evidence {
    Evidence(if f.observations == [] then LIFECYCLE_STEP else f.observations, f.effects, [], f.retained, f.recovery)
  }

  predicate SlimStep(answer: Answer<StepEvidence>) {
    Weight(Safe(answer).AsEvidence()) <= SHARE
  }

  predicate SlimFailure(f: AdapterFailure) {
    Weight(FailureEvidence(f)) <= SHARE
  }

  lemma {:induction false} AppendUniqueIsNoLonger(existing: seq<Path>, additions: seq<Path>)
    ensures |AppendUnique(existing, additions)| <= |existing| + |additions|
    decreases |additions|
  {
    if additions != [] {
      AppendUniqueIsNoLonger(if additions[0] in existing then existing else existing + [additions[0]], additions[1..]);
    }
  }

  lemma AdvancedLoad(journal: Journal, phase: Phase, evidence: Evidence)
    ensures Load(Advanced(journal, phase, evidence)) <= Load(journal) + Weight(evidence)
  {
    AppendUniqueIsNoLonger(journal.retained, evidence.retained);
  }

  /** Evidence that fits makes a well-formed successor. */
  lemma AdvancedFits(journal: Journal, phase: Phase, evidence: Evidence)
    ensures
      WellFormed(journal) && journal.outcome.None? && phase != Terminal && LegalPhase(journal.phase, phase) &&
      Load(journal) + Weight(evidence) <= MAX_COLLECTION_ITEMS && NoDuplicates(journal.owned + evidence.owned) ==>
        WellFormed(Advanced(journal, phase, evidence)) && LegalWrite(journal, Advanced(journal, phase, evidence))
  {
    AppendUniqueIsNoLonger(journal.retained, evidence.retained);
    AppendUniqueIsAnAppendOnlyUnion(journal.retained, evidence.retained);
  }

  lemma FinishedFits(journal: Journal, outcome: Outcome, evidence: Evidence)
    requires WellFormed(journal) && journal.outcome.None? && evidence.owned == []
    requires Load(journal) + Weight(evidence) <= MAX_COLLECTION_ITEMS
    ensures
      var done := Advanced(journal, Terminal, evidence).(outcome := Some(outcome));
      WellFormed(done) && LegalWrite(journal, done)
  {
    AppendUniqueIsNoLonger(journal.retained, evidence.retained);
    AppendUniqueIsAnAppendOnlyUnion(journal.retained, evidence.retained);
    assert journal.owned + [] == journal.owned;
    assert Terminal in NextPhases(journal.phase);
  }

  lemma {:induction false} NewOwnedIsNew(existing: seq<Path>, paths: seq<Path>)
    requires NoDuplicates(paths)
    ensures |NewOwned(existing, paths)| <= |paths|
    ensures forall p :: p in NewOwned(existing, paths) ==> p in paths && p !in existing
    ensures NoDuplicates(NewOwned(existing, paths))
    decreases |paths|
  {
    if paths != [] {
      assert forall i :: 0 <= i < |paths[1..]| ==> paths[1..][i] == paths[i + 1];
      NewOwnedIsNew(existing, paths[1..]);
      var rest, all := NewOwned(existing, paths[1..]), NewOwned(existing, paths);
      if paths[0] !in existing {
        assert all == [paths[0]] + rest && paths[0] !in paths[1..];
        forall i, j | 0 <= i < j < |all| ensures all[i] != all[j] {
          assert all[j] == rest[j - 1] && rest[j - 1] in rest;
        }
      }
    }
  }

  lemma NewOwnedAddsNoDuplicate(existing: seq<Path>, paths: seq<Path>)
    requires NoDuplicates(existing) && NoDuplicates(paths)
    ensures NoDuplicates(existing + NewOwned(existing, paths)) && |NewOwned(existing, paths)| <= |paths|
  {
    NewOwnedIsNew(existing, paths);
    var added := NewOwned(existing, paths);
    var all := existing + added;
    forall i, j | 0 <= i < j < |all| ensures all[i] != all[j] {
      if i < |existing| <= j {
        assert all[j] == added[j - |existing|] && added[j - |existing|] in added;
        assert all[i] == existing[i] && existing[i] in existing;
      } else if |existing| <= i {
        assert all[i] == added[i - |existing|] && all[j] == added[j - |existing|];
      }
    }
  }

  /** No journal but this one was written, and none was opened. */
  ghost predicate WritesOnly(before: Durable, after: Durable, id: Id) {
    after.journals.Keys == before.journals.Keys && after.journals - {id} == before.journals - {id}
  }

  lemma WrittenIsHeld(before: Durable, after: Durable, expected: Journal, journal: Journal)
    requires Wrote(before, after, expected, journal) && IsActivation(journal.operation) && journal.phase != Terminal
    ensures Held(after, journal) && WritesOnly(before, after, expected.id)
    ensures after.active == before.active && Observe(after) == Observe(before)
  {
  }

  /** Once the only open activation is closed, nothing is open. */
  lemma NothingElseIsOpen(before: Durable, after: Durable, id: Id)
    requires WritesOnly(before, after, id) && OnlyActivation(before, id) && !Open(after, id)
    ensures forall k :: !Open(after, k)
    ensures |after.journals| == |before.journals|
  {
    forall k ensures !Open(after, k) {
      if k != id && k in after.journals {
        assert k in after.journals - {id} && (after.journals - {id})[k] == (before.journals - {id})[k];
        assert !Open(before, k);
      }
    }
    assert |after.journals| == |after.journals.Keys| && |before.journals| == |before.journals.Keys|;
  }

  // ----- the same, answer by answer -----

  predicate Exactly(script: Script, id: Id, site: Site) {
    script.step(id, site).Returned? && script.step(id, site).value.exact
  }

  predicate RestoresExactly(script: Script, id: Id) {
    Exactly(script, id, RestorePrevious) && Exactly(script, id, ProofPrevious)
  }

  predicate CleansExactly(script: Script, id: Id) {
    Exactly(script, id, CleanupOwned) && Exactly(script, id, ProofPrevious)
  }

  /** The release that was asked for was built, is healthy, and the previous host state was observed. */
  predicate Staged(script: Script, request: ActivationRequest) {
    && script.build.Returned?
    && script.build.value.version == request.version
    && script.build.value.releaseId == request.releaseId
    && script.build.value.releasePath == request.releasePath
    && script.build.value.envelope == request.envelope
    && Exactly(script, request.transactionId, StagedHealth)
    && Exactly(script, request.transactionId, ObservePrevious)
  }

  predicate HostGets(kind: string, answer: Answer<StepEvidence>) {
    && answer.Returned? && answer.value.exact
    && exists i :: 0 <= i < |answer.value.effects| && answer.value.effects[i].kind == kind
                   && answer.value.effects[i].applied
  }

  /** The answer reports, returned or raised, that something was applied. */
  predicate HostFeels(answer: Answer<StepEvidence>) {
    match answer
    case Returned(e) => exists i :: 0 <= i < |e.effects| && e.effects[i].applied
    case Failed(f) => exists i :: 0 <= i < |f.effects| && f.effects[i].applied
    case Broke => false
  }

  /** Every answer of the attempt is exact. */
  predicate Installs(script: Script, request: ActivationRequest) {
    && Staged(script, request)
    && HostGets("marketplace", script.marketplace) && HostGets("plugin", script.plugin)
    && Exactly(script, request.transactionId, ReadBackCandidate)
    && Exactly(script, request.transactionId, ProofTarget)
  }

  /** The attempt fails before anything was applied to the host. */
  predicate StopsBeforeHost(script: Script, request: ActivationRequest) {
    || !Staged(script, request)
    || (!HostGets("marketplace", script.marketplace) && !HostFeels(script.marketplace))
  }

  predicate LeavesDoubt<T>(answer: Answer<T>) {
    answer.Failed? && answer.failure.uncertain
  }

  /** The answer that stops the attempt before the host leaves no doubt about what happened. */
  predicate StopsCertainly(script: Script, request: ActivationRequest) {
    var staged, observed :=
      script.step(request.transactionId, StagedHealth), script.step(request.transactionId, ObservePrevious);
    if Staged(script, request) then !script.marketplace.Returned? && !LeavesDoubt(script.marketplace)
    else if !script.build.Returned? then !LeavesDoubt(script.build)
    else if
      || script.build.value.version != request.version || script.build.value.releaseId != request.releaseId
      || script.build.value.releasePath != request.releasePath || script.build.value.envelope != request.envelope
    then true
    else if !Exactly(script, request.transactionId, StagedHealth) then !LeavesDoubt(staged)
    else !observed.Returned? && !LeavesDoubt(observed)
  }

  lemma TheHostIsFelt(kind: string, answer: Answer<StepEvidence>)
    ensures HostGets(kind, answer) <==> Provisions(kind, answer)
    ensures HostFeels(answer) <==> TouchesHost(answer)
  {
  }

  /** What an attempt deserves: all exact, stopped before the host, or stopped after it. */
  lemma AttemptsDeserve(script: Script, request: ActivationRequest)
    ensures Installs(script, request) <==> AttemptOutcome(script, request) == Committed
    ensures StopsBeforeHost(script, request) <==> FirstHurdle(script, request).BeforeHost?
    ensures StopsBeforeHost(script, request) ==>
      AttemptOutcome(script, request) ==
      if StopsCertainly(script, request) && CleansExactly(script, request.transactionId) then RolledBack else Partial
    ensures !Installs(script, request) && !StopsBeforeHost(script, request) ==>
      AttemptOutcome(script, request) ==
      if RestoresExactly(script, request.transactionId) then RolledBack else Partial
  {
    TheHostIsFelt("marketplace", script.marketplace);
    TheHostIsFelt("plugin", script.plugin);
    hide HostGets, HostFeels, Provisions, TouchesHost;
  }

  /** Whether there may be an authority: a repair and an upgrade need one, an install and a migration must find none. */
  predicate FitsPresence(operation: Operation, present: bool) {
    if operation == Repair || operation == Upgrade then present else !present
  }

  /** The active release is attested as this very release. */
  predicate AttestedSame(script: Script, request: ActivationRequest) {
    && script.attest.Returned? && script.attest.value.identityProven
    && script.attest.value.version == Some(request.version)
    && script.attest.value.envelope == Some(request.envelope)
  }

  /** The active release is reused as it is. */
  predicate Reuses(script: Script, request: ActivationRequest) {
    && request.operation == Repair && AttestedSame(script, request) && script.attest.value.reusable
    && Exactly(script, request.transactionId, RepairReadBack) && Exactly(script, request.transactionId, RepairProof)
  }

  /** Nothing stands in the way of building and activating the requested release. */
  predicate Attempts(script: Script, request: ActivationRequest, present: bool) {
    && FitsPresence(request.operation, present)
    && (request.operation == Repair ==> AttestedSame(script, request) && !Reuses(script, request))
    && (request.operation == Migration ==>
          script.classify.Some? && script.classify.value.Returned? && script.classify.value.value.exactPredecessor)
  }

  /** The outcome of a run, row by row. */
  predicate Deserved(script: Script, request: ActivationRequest, present: bool, outcome: Outcome) {
    var id := request.transactionId;
    var attested := script.attest.Returned? && script.attest.value.identityProven && script.attest.value.envelope.Some?;
    // the operation does not fit
    && (!FitsPresence(request.operation, present) ==>
          outcome == if Exactly(script, id, PreconditionProof) then RolledBack else Partial)
    // an authority that cannot be attested, that is of another version, or that has other bytes
    && (present && request.operation == Repair && !attested ==> outcome == Partial)
    && (present && request.operation == Repair && attested && script.attest.value.version != Some(request.version) ==>
          outcome == if CleansExactly(script, id) then RolledBack else Partial)
    && (present && request.operation == Repair && attested && script.attest.value.version == Some(request.version)
        && script.attest.value.envelope != Some(request.envelope) ==>
          outcome == if Exactly(script, id, ChangedBytesProof) then RolledBack else Partial)
    // one that can be reused
    && (present && Reuses(script, request) ==> outcome == Committed)
    // an installation that is not exactly a predecessor
    && (!present && request.operation == Migration && !Attempts(script, request, present) ==> outcome == Partial)
    // an attempt: all answers exact, stopped before the host, stopped after it
    && (Attempts(script, request, present) && Installs(script, request) ==> outcome == Committed)
    && (Attempts(script, request, present) && StopsBeforeHost(script, request) ==>
          outcome == if StopsCertainly(script, request) && CleansExactly(script, id) then RolledBack else Partial)
    && (Attempts(script, request, present) && !Installs(script, request) && !StopsBeforeHost(script, request) ==>
          outcome == if RestoresExactly(script, id) then RolledBack else Partial)
  }

  lemma RunsDeserve(script: Script, request: ActivationRequest, present: bool)
    requires IsActivation(request.operation)
    ensures Deserved(script, request, present, RunOutcome(script, request, present))
    ensures RunOutcome(script, request, present) == Committed <==>
      (present && Reuses(script, request)) || (Attempts(script, request, present) && Installs(script, request))
  {
    AttemptsDeserve(script, request);
    hide AttemptOutcome, Installs, StopsBeforeHost, StopsCertainly;
  }

  /** A record that a run selects is the requested release. */
  lemma CommittedIsAsked(script: Script, request: ActivationRequest, present: bool, previous: Snapshot)
    requires IsActivation(request.operation) && RunOutcome(script, request, present) == Committed
    requires !Reuses(script, request)
    ensures script.build.Returned?
    ensures
      Selected(script.build.value, previous, request.transactionId) ==
      ActiveRecord(
        previous.generation + 1, request.releaseId, request.releasePath, script.build.value.receipt,
        DISPATCHER_PROTOCOL, request.transactionId)
  {
    RunsDeserve(script, request, present);
    hide RunOutcome, Deserved, Reuses, Attempts;
  }

  /** A run takes one of the short ways, which leave the authority alone. */
  predicate Short(script: Script, request: ActivationRequest, present: bool) {
    || Misfit(request.operation, present)
    || (request.operation == Repair && RepairAnswer(script, request).Some?)
    || (request.operation == Migration && !ExactPredecessor(script))
  }

  /** The branches of a run, answer by answer. */
  lemma WhatRunsTurnOn(script: Script, request: ActivationRequest, present: bool)
    requires IsActivation(request.operation)
    ensures Attempts(script, request, present) <==> !Short(script, request, present)
    ensures StopsBeforeHost(script, request) <==> FirstHurdle(script, request).BeforeHost?
    ensures RunOutcome(script, request, present) == Committed ==>
      (Reuses(script, request) <==> Short(script, request, present))
  {
    AttemptsDeserve(script, request);
    hide AttemptOutcome, FirstHurdle, StopsBeforeHost, Installs, StopsCertainly;
  }

  /** The authority of before, at whatever generation it was written back. */
  predicate BackTo(active: Option<ActiveRecord>, before: Option<ActiveRecord>) {
    match before
    case None => active.None?
    case Some(b) =>
      && active.Some? && active.value.releaseId == b.releaseId && active.value.releasePath == b.releasePath
      && active.value.receipt == b.receipt && active.value.protocol == b.protocol
      && active.value.transactionId == b.transactionId
  }

  lemma SameAuthorityIsBack(active: Option<ActiveRecord>, before: Option<ActiveRecord>)
    ensures SameAuthority(active, before) <==> BackTo(active, before)
  {
  }

  /** The active record is the very one this journal's transaction wrote for its target. */
  predicate Selects(active: Option<ActiveRecord>, journal: Journal) {
    && active.Some? && journal.target.Some? && active.value.transactionId == journal.id
    && active.value.releaseId == journal.target.value.releaseId
    && active.value.releasePath == journal.target.value.releasePath
  }

  /** The outcome of a recovery, row by row. */
  predicate RecoveryDeserved(script: Script, active: Option<ActiveRecord>, journal: Journal, outcome: Outcome) {
    var stands := Exactly(script, journal.id, ResumeReadBack) && Exactly(script, journal.id, ResumeProof);
    var applied := exists i :: 0 <= i < |journal.effects| && journal.effects[i].applied;
    // the target was selected: it stands if it is read back and proven, and is undone otherwise
    && (Selects(active, journal) && stands ==> outcome == Committed)
    && (Selects(active, journal) && !stands ==>
          outcome == if RestoresExactly(script, journal.id) then RolledBack else Partial)
    // it was not: the host is restored if it was touched, and the previous authority proven
    && (!Selects(active, journal) && applied ==>
          outcome == if RestoresExactly(script, journal.id) then RolledBack else Partial)
    && (!Selects(active, journal) && !applied ==>
          outcome == if Exactly(script, journal.id, ProofPrevious) then RolledBack else Partial)
  }

  lemma RecoveriesDeserve(script: Script, active: Option<ActiveRecord>, journal: Journal)
    ensures RecoveryDeserved(script, active, journal, RecoveryOutcome(script, active, journal))
  {
  }

  /** The journal is closed with the outcome that was returned, and nothing moved since. */
  ghost predicate Closed(d: Durable, id: Id, result: LifecycleResult) {
    && id in d.journals
    && d.journals[id].outcome == Some(result.outcome)
    && result.transactionId == id
    && result.active == Observe(d)
  }
}
