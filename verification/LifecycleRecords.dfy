/**
 The durable records of scripts/lifecycle_state.py and the laws they obey.

 Three kinds of file are durable: the active record, the generation watermark
 and one journal per transaction.  `Durable` is their joint content, which is
 what a crash leaves behind.
 */
module LifecycleRecords {
  import opened Wrappers
  import Files

  const MAX_JOURNALS: nat := 64
  const MAX_COLLECTION_ITEMS: nat := 128

  type Id = string
  type Path = string

  datatype ActiveRecord = ActiveRecord(
    generation: nat,
    releaseId: Id,
    releasePath: Path,
    receipt: string,
    protocol: string,
    transactionId: Id)

  /** SHA-256 of a canonical payload, taken to be injective. */
  datatype Digest<T> = Sha256(payload: T)

  /** One lock-protected observation, including the absence watermark. */
  datatype Snapshot = Snapshot(generation: nat, record: Option<ActiveRecord>) {
    predicate Present() {
      record.Some?
    }

    function RecordDigest(): Option<Digest<ActiveRecord>> {
      match record
      case None => None
      case Some(r) => Some(Sha256(r))
    }

    function Expectation(): ActiveExpectation {
      ActiveExpectation(generation, RecordDigest(), Present())
    }
  }

  datatype ActiveExpectation = ActiveExpectation(
    generation: nat,
    digest: Option<Digest<ActiveRecord>>,
    present: bool)

  predicate Matches(observed: Snapshot, expected: ActiveExpectation) {
    && observed.generation == expected.generation
    && observed.RecordDigest() == expected.digest
    && observed.Present() == expected.present
  }

  /** An expectation is met by the very observation it was captured from, and by no other. */
  lemma AnExpectationIsExact(observed: Snapshot, captured: Snapshot)
    ensures Matches(observed, captured.Expectation()) <==> observed == captured
  {
  }

  datatype TargetRelease = TargetRelease(releaseId: Id, releasePath: Path, artifact: string)

  datatype ObservationState =
    | Absent | Exact | Changed | Unknown | Concurrent | Linked | Reparse | Special | Unreadable

  datatype Observation = Observation(subject: string, state: ObservationState, digest: Option<string>)

  /** The digest of a journaled effect, taken to be injective: what it is the digest of. */
  datatype Fingerprint = OfTree(tree: Files.Tree) | OfFile(file: Files.Node)

  datatype Effect = Effect(
    kind: string,
    subject: string,
    before: Option<Fingerprint>,
    after: Option<Fingerprint>,
    applied: bool)

  predicate AnyApplied(effects: seq<Effect>) {
    exists i :: 0 <= i < |effects| && effects[i].applied
  }

  datatype Operation = Install | Repair | Upgrade | Migration | Recovery | Uninstall | Reinstall

  predicate IsActivation(operation: Operation) {
    operation in {Install, Repair, Upgrade, Migration}
  }

  datatype Phase =
    | Created
    | CandidateReady
    | ProvisionalActivation
    | HostReadBack
    | ActiveCommitted
    | PublicProof
    | Restoring
    | RemovingHostState
    | RemovingData
    | RemovingReleases
    | ActiveRemoved
    | RemovingDispatchers
    | RemovingLifecycle
    | Recovering
    | Terminal

  datatype Outcome = Committed | RolledBack | Partial

  /** The closed phase graph. */
  function NextPhases(phase: Phase): set<Phase> {
    match phase
    case Created => {CandidateReady, RemovingHostState, RemovingData, Recovering, Terminal}
    case CandidateReady => {ProvisionalActivation, Restoring, Recovering, Terminal}
    case ProvisionalActivation => {HostReadBack, Restoring, Recovering, Terminal}
    case HostReadBack => {ActiveCommitted, Restoring, Recovering, Terminal}
    case ActiveCommitted => {PublicProof, Restoring, Recovering, Terminal}
    case PublicProof => {Restoring, Recovering, Terminal}
    case Restoring => {Recovering, Terminal}
    case RemovingHostState => {RemovingReleases, Recovering, Terminal}
    case RemovingData => {Recovering, Terminal}
    case RemovingReleases => {ActiveRemoved, Recovering, Terminal}
    case ActiveRemoved => {RemovingDispatchers, Recovering, Terminal}
    case RemovingDispatchers => {RemovingLifecycle, Recovering, Terminal}
    case RemovingLifecycle => {Recovering, Terminal}
    case Recovering => {Restoring, Terminal}
    case Terminal => {}
  }

  predicate LegalPhase(before: Phase, after: Phase) {
    before != Terminal && (after == before || after in NextPhases(before))
  }

  /** How far a phase is along its own driver's course. */
  function PhaseOrder(phase: Phase): nat {
    match phase
    case Created => 0
    case CandidateReady => 1
    case ProvisionalActivation => 2
    case HostReadBack => 3
    case ActiveCommitted => 4
    case PublicProof => 5
    case Restoring => 6
    case RemovingHostState => 1
    case RemovingReleases => 2
    case ActiveRemoved => 3
    case RemovingDispatchers => 4
    case RemovingLifecycle => 5
    case RemovingData => 1
    case Recovering => 6
    case Terminal => 7
  }

  datatype Course = Anywhere | Activating | Uninstalling | Reinstalling

  /** Whose phase it is. */
  function CourseOf(phase: Phase): Course {
    match phase
    case Created => Anywhere
    case Restoring => Anywhere
    case Recovering => Anywhere
    case Terminal => Anywhere
    case RemovingData => Reinstalling
    case RemovingHostState => Uninstalling
    case RemovingReleases => Uninstalling
    case ActiveRemoved => Uninstalling
    case RemovingDispatchers => Uninstalling
    case RemovingLifecycle => Uninstalling
    case _ => Activating
  }

  /**
   The phase graph, said without listing it: an open journal may stay, end, or
   turn to recovery; an activation that has a candidate, and a recovery, may
   turn to restoration; otherwise only the next phase of its own course is open.
   */
  lemma StepsOfTheGraph(before: Phase, after: Phase)
    ensures
      LegalPhase(before, after) <==>
      && before != Terminal
      && (|| after == before
          || after == Terminal
          || (after == Recovering && before != Recovering)
          || (after == Restoring && (before == Recovering || CourseOf(before) == Activating))
          || (CourseOf(after) != Anywhere && PhaseOrder(after) == PhaseOrder(before) + 1
              && (before == Created || CourseOf(before) == CourseOf(after))))
  {
  }

  /** Phases only move forward; the one exception is going round between restoring and recovering. */
  predicate PhaseEvolves(before: Phase, after: Phase) {
    || PhaseOrder(before) < PhaseOrder(after)
    || before == after
    || (before in {Restoring, Recovering} && after in {Restoring, Recovering})
  }

  datatype Journal = Journal(
    id: Id,
    operation: Operation,
    expected: ActiveExpectation,
    target: Option<TargetRelease>,
    previous: Option<ActiveRecord>,
    observations: seq<Observation>,
    effects: seq<Effect>,
    owned: seq<Path>,
    phase: Phase,
    outcome: Option<Outcome>,
    retained: seq<Path>,
    recovery: seq<string>)

  predicate NoDuplicates<T(==)>(items: seq<T>) {
    forall i, j :: 0 <= i < j < |items| ==> items[i] != items[j]
  }

  /** The closed journal schema, apart from text and byte caps. */
  predicate WellFormed(journal: Journal) {
    && (journal.phase == Terminal <==> journal.outcome.Some?)
    && |journal.observations| <= MAX_COLLECTION_ITEMS
    && |journal.effects| <= MAX_COLLECTION_ITEMS
    && |journal.owned| <= MAX_COLLECTION_ITEMS
    && |journal.retained| <= MAX_COLLECTION_ITEMS
    && |journal.recovery| <= MAX_COLLECTION_ITEMS
    && NoDuplicates(journal.owned)
    && NoDuplicates(journal.retained)
  }

  predicate SameIdentity(old_: Journal, new_: Journal) {
    && old_.id == new_.id
    && old_.operation == new_.operation
    && old_.expected == new_.expected
    && old_.target == new_.target
    && old_.previous == new_.previous
  }

  predicate EvidenceExtends(old_: Journal, new_: Journal) {
    && old_.observations <= new_.observations
    && old_.effects <= new_.effects
    && old_.owned <= new_.owned
    && old_.retained <= new_.retained
    && old_.recovery <= new_.recovery
  }

  /** What one `write_transaction` accepts. */
  predicate LegalWrite(old_: Journal, new_: Journal) {
    && SameIdentity(old_, new_)
    && LegalPhase(old_.phase, new_.phase)
    && EvidenceExtends(old_, new_)
  }

  /** Append each path once, in order, behind the durable prefix. */
  function AppendUnique(existing: seq<Path>, additions: seq<Path>): seq<Path>
    decreases |additions|
  {
    if additions == [] then existing
    else if additions[0] in existing then AppendUnique(existing, additions[1..])
    else AppendUnique(existing + [additions[0]], additions[1..])
  }

  /** Appending keeps the durable prefix, adds no duplicate, loses nothing and invents nothing. */
  lemma {:induction false} AppendUniqueIsAnAppendOnlyUnion(existing: seq<Path>, additions: seq<Path>)
    ensures existing <= AppendUnique(existing, additions)
    ensures NoDuplicates(existing) ==> NoDuplicates(AppendUnique(existing, additions))
    ensures forall p :: p in AppendUnique(existing, additions) <==> p in existing || p in additions
    decreases |additions|
  {
    if additions != [] {
      assert additions == [additions[0]] + additions[1..];
      if additions[0] in existing {
        AppendUniqueIsAnAppendOnlyUnion(existing, additions[1..]);
      } else {
        AppendUniqueIsAnAppendOnlyUnion(existing + [additions[0]], additions[1..]);
      }
    }
  }

  /** Everything a crash leaves behind. */
  datatype Durable = Durable(
    watermark: nat,
    active: Option<ActiveRecord>,
    journals: map<Id, Journal>)

  const EMPTY := Durable(0, None, map[])

  function Max(a: nat, b: nat): nat {
    if a < b then b else a
  }

  function Observe(d: Durable): Snapshot {
    match d.active
    case None => Snapshot(d.watermark, None)
    case Some(r) => Snapshot(Max(d.watermark, r.generation), d.active)
  }

  /** The observed generation is the greater of the watermark and the record's own. */
  lemma ObservedGeneration(d: Durable)
    ensures Observe(d).record == d.active && Observe(d).generation >= d.watermark
    ensures d.active.Some? ==> Observe(d).generation >= d.active.value.generation
    ensures Observe(d).generation == d.watermark || Observe(d).generation == d.active.value.generation
  {
  }

  /** Orders durable states: the generation first, absence after presence. */
  function Rank(d: Durable): nat {
    2 * Observe(d).generation + if d.active.None? then 1 else 0
  }

  ghost predicate JournalEvolves(a: Durable, b: Durable, id: Id) {
    id in a.journals ==>
      && id in b.journals
      && SameIdentity(a.journals[id], b.journals[id])
      && EvidenceExtends(a.journals[id], b.journals[id])
      && PhaseEvolves(a.journals[id].phase, b.journals[id].phase)
      && (a.journals[id].phase == Terminal ==> b.journals[id] == a.journals[id])
  }

  /** What every durable write, and so every history, keeps. */
  ghost predicate Evolves(a: Durable, b: Durable) {
    && a.watermark <= b.watermark
    && Rank(a) <= Rank(b)
    && (Rank(a) == Rank(b) ==> Observe(a) == Observe(b))
    && forall id :: JournalEvolves(a, b, id)
  }

  lemma EvolvesIsReflexive(a: Durable)
    ensures Evolves(a, a)
  {
  }

  /** A legal journal write is a step forward. */
  lemma LegalWriteEvolves(d: Durable, expected: Journal, journal: Journal)
    requires expected.id in d.journals && d.journals[expected.id] == expected
    requires LegalWrite(expected, journal)
    ensures Evolves(d, d.(journals := d.journals[journal.id := journal]))
  {
  }

  lemma EvolvesIsTransitive(a: Durable, b: Durable, c: Durable)
    requires Evolves(a, b) && Evolves(b, c)
    ensures Evolves(a, c)
  {
    forall id ensures JournalEvolves(a, c, id) {
      assert JournalEvolves(a, b, id) && JournalEvolves(b, c, id);
    }
  }

  /** A sequence of durable states, each left behind by one durable write (or by none). */
  ghost predicate IsHistory(history: seq<Durable>) {
    forall i :: 0 < i < |history| ==> Evolves(history[i - 1], history[i])
  }

  lemma {:induction false} HistoryEvolves(history: seq<Durable>, i: nat, j: nat)
    requires IsHistory(history) && i <= j < |history|
    ensures Evolves(history[i], history[j])
    decreases j - i
  {
    if i == j {
      EvolvesIsReflexive(history[i]);
    } else {
      HistoryEvolves(history, i, j - 1);
      EvolvesIsTransitive(history[i], history[j - 1], history[j]);
    }
  }

  /**
   An expectation captured at one moment matches at a later one only if the
   observation was the same at every moment between: absence reopens nothing.
   */
  lemma NoAba(history: seq<Durable>, i: nat, k: nat, j: nat)
    requires IsHistory(history) && i <= k <= j < |history|
    requires Matches(Observe(history[j]), Observe(history[i]).Expectation())
    ensures Observe(history[k]) == Observe(history[i])
  {
    HistoryEvolves(history, i, k);
    HistoryEvolves(history, k, j);
  }

  /** The observed generation never falls, whatever the crashes. */
  lemma GenerationNeverFalls(history: seq<Durable>, i: nat, j: nat)
    requires IsHistory(history) && i <= j < |history|
    ensures Observe(history[i]).generation <= Observe(history[j]).generation
    ensures history[i].watermark <= history[j].watermark
  {
    HistoryEvolves(history, i, j);
  }

  /**
   Two versions of one journal in any history: identity is fixed, evidence only
   grows, phases only move forward, terminal is final.
   */
  lemma JournalHistory(history: seq<Durable>, i: nat, j: nat, id: Id)
    requires IsHistory(history) && i <= j < |history|
    requires id in history[i].journals
    ensures id in history[j].journals
    ensures
      var a, b := history[i].journals[id], history[j].journals[id];
      && a.id == b.id && a.operation == b.operation && a.expected == b.expected && a.target == b.target
      && a.previous == b.previous
      && a.observations <= b.observations && a.effects <= b.effects && a.owned <= b.owned
      && a.retained <= b.retained && a.recovery <= b.recovery
      && PhaseOrder(a.phase) <= PhaseOrder(b.phase)
      && (a.phase == Terminal ==> a == b)
  {
    HistoryEvolves(history, i, j);
    assert JournalEvolves(history[i], history[j], id);
  }
}
