/**
 The durable invariant that every lifecycle driver keeps at every write, and
 hence at every crash point: which journals may be open together, and how far
 the active record may have moved under each open journal.
 */
module LifecycleProtocol {
  import opened Wrappers
  import opened LifecycleRecords
  import opened LifecycleState

  predicate IsTargetRecord(active: Option<ActiveRecord>, journal: Journal) {
    && active.Some?
    && journal.target.Some?
    && active.value.transactionId == journal.id
    && active.value.releaseId == journal.target.value.releaseId
    && active.value.releasePath == journal.target.value.releasePath
  }

  predicate IsPreviousOrExpected(current: Snapshot, journal: Journal) {
    if Matches(current, journal.expected) then
      true
    else
      match journal.previous
      case None => !current.Present() && current.generation > journal.expected.generation
      case Some(previous) =>
        && current.record.Some?
        && current.generation > journal.expected.generation
        && current.record.value.transactionId == previous.transactionId
        && current.record.value.releaseId == previous.releaseId
        && current.record.value.releasePath == previous.releasePath
        && current.record.value.receipt == previous.receipt
        && current.record.value.protocol == previous.protocol
  }

  /** Equal up to the generation at which the authority was (re)written. */
  predicate SameAuthority(a: Option<ActiveRecord>, b: Option<ActiveRecord>) {
    match b
    case None => a.None?
    case Some(record) => a.Some? && a.value.(generation := record.generation) == record
  }

  /** No write of this transaction has reached the active record. */
  predicate Untouched(d: Durable, journal: Journal) {
    Matches(Observe(d), journal.expected)
  }

  /** The active record is the transaction's own target. */
  predicate Targeted(d: Durable, journal: Journal) {
    IsTargetRecord(d.active, journal) && Observe(d).generation > journal.expected.generation
  }

  /** The previous authority was written back, or removed again. */
  predicate Compensated(d: Durable, journal: Journal) {
    SameAuthority(d.active, journal.previous) && Observe(d).generation > journal.expected.generation
  }

  predicate ActivationStage(d: Durable, journal: Journal) {
    Untouched(d, journal) || Targeted(d, journal) || Compensated(d, journal)
  }

  /** How far an uninstall may have moved the active record, by phase. */
  predicate UninstallStage(d: Durable, journal: Journal) {
    if journal.phase in {Created, RemovingHostState, RemovingReleases} then
      Untouched(d, journal) || HalfRemoved(d, journal) || Removed(d, journal)
    else
      journal.phase in {ActiveRemoved, RemovingDispatchers, RemovingLifecycle} && Removed(d, journal)
  }

  /** The active record is gone, at exactly the generation this uninstall's own deletion produces. */
  predicate Removed(d: Durable, journal: Journal) {
    && d.active.None?
    && Observe(d).generation == journal.expected.generation + if journal.expected.present then 1 else 0
  }

  /** A deletion was interrupted between the watermark and the record. */
  predicate HalfRemoved(d: Durable, journal: Journal) {
    d.active.Some? && d.active == journal.previous && Observe(d).generation == journal.expected.generation + 1
  }

  predicate ReinstallStage(journal: Journal) {
    journal.phase in {Created, RemovingData}
  }

  predicate ActivationPhase(phase: Phase) {
    phase in {Created, CandidateReady, ProvisionalActivation, HostReadBack, ActiveCommitted, PublicProof,
              Restoring, Recovering}
  }

  predicate StageOk(d: Durable, journal: Journal) {
    if IsActivation(journal.operation) then
      ActivationPhase(journal.phase) && ActivationStage(d, journal)
    else if journal.operation == Uninstall then
      UninstallStage(d, journal)
    else
      journal.operation == Reinstall && ReinstallStage(journal)
  }

  /** What a journal's identity says, whatever its phase. */
  predicate IdentityOk(d: Durable, journal: Journal) {
    && journal.expected == Snapshot(journal.expected.generation, journal.previous).Expectation()
    && (journal.previous.Some? ==>
          journal.previous.value.transactionId in d.journals && journal.previous.value.transactionId != journal.id)
    && (IsActivation(journal.operation) ==> journal.target.Some?)
  }

  ghost predicate JournalOk(d: Durable, id: Id) {
    id in d.journals ==>
      && IdentityOk(d, d.journals[id])
      && (d.journals[id].outcome.None? ==> StageOk(d, d.journals[id]))
  }

  /** An activation that a reinstall launched while its own journal waits. */
  predicate Nested(reinstall: Journal, activation: Journal) {
    WaitingReinstall(reinstall) && IsActivation(activation.operation)
  }

  ghost predicate Compatible(d: Durable, a: Id, b: Id) {
    Open(d, a) && Open(d, b) && a != b ==>
      Nested(d.journals[a], d.journals[b]) || Nested(d.journals[b], d.journals[a])
  }

  ghost predicate Inv(d: Durable) {
    && Keyed(d.journals)
    && (d.active.Some? ==> d.active.value.transactionId in d.journals)
    && (forall id :: JournalOk(d, id))
    && (forall a, b :: Compatible(d, a, b))
  }

  lemma EmptyInv()
    ensures Inv(EMPTY)
  {
  }

  /**
   The open journals are one of: none, one activation, one uninstall, one
   reinstall, or one reinstall that is removing data plus one activation.
   */
  lemma PendingShapes(d: Durable, pending: seq<Journal>)
    requires Inv(d) && Enumerates(pending, d)
    ensures |pending| <= 2
    ensures |pending| == 1 ==> IsActivation(pending[0].operation) || pending[0].operation in {Uninstall, Reinstall}
    ensures |pending| == 2 ==> Nested(pending[0], pending[1]) || Nested(pending[1], pending[0])
  {
    if |pending| >= 1 {
      assert JournalOk(d, pending[0].id);
    }
    if |pending| >= 2 {
      assert Compatible(d, pending[0].id, pending[1].id);
    }
    if |pending| >= 3 {
      assert Compatible(d, pending[0].id, pending[2].id);
      assert Compatible(d, pending[1].id, pending[2].id);
    }
  }

  /**
   Recovery never meets an authority it cannot name: under an open activation
   the active record is exactly one of the target and the previous authority.
   */
  lemma RecoveryIsComplete(d: Durable, id: Id)
    requires Inv(d) && Open(d, id) && IsActivation(d.journals[id].operation)
    ensures IsTargetRecord(d.active, d.journals[id]) <==> !IsPreviousOrExpected(Observe(d), d.journals[id])
    ensures IsTargetRecord(d.active, d.journals[id]) <==> Targeted(d, d.journals[id])
    ensures ActivationPhase(d.journals[id].phase)
    ensures !IsTargetRecord(d.active, d.journals[id]) ==> SameAuthority(d.active, d.journals[id].previous)
  {
    assert JournalOk(d, id);
  }

  /** A driver's own open activation is accompanied by nothing but a waiting reinstall. */
  lemma OnlyAReinstallWaits(d: Durable, id: Id, other: Id)
    requires Inv(d) && Open(d, id) && IsActivation(d.journals[id].operation)
    requires Open(d, other) && other != id
    ensures Nested(d.journals[other], d.journals[id])
  {
    assert Compatible(d, id, other);
  }

  /** Rewriting one open journal keeps the invariant when its own stage and company stay right. */
  lemma WriteKeepsInv(before: Durable, after: Durable, expected: Journal, journal: Journal)
    requires Inv(before) && Wrote(before, after, expected, journal)
    requires expected.outcome.None?
    requires journal.outcome.None? ==> StageOk(before, journal)
    requires journal.outcome.None? && journal.operation == Reinstall ==>
      journal.phase == RemovingData || journal.phase == expected.phase
    ensures Inv(after)
  {
    forall id ensures JournalOk(after, id) {
      assert JournalOk(before, id);
      assert JournalOk(before, expected.id);
      if id in after.journals {
        assert IdentityOk(before, after.journals[id]);
        assert StageOk(after, after.journals[id]) == StageOk(before, after.journals[id]);
      }
    }
    forall a, b ensures Compatible(after, a, b) {
      assert Compatible(before, a, b);
    }
  }

  /** Opening a journal at the present observation keeps the invariant when its company is right. */
  lemma CreateKeepsInv(before: Durable, after: Durable, journal: Journal)
    requires Inv(before)
    requires journal.id !in before.journals && WellFormed(journal)
    requires after == before.(journals := before.journals[journal.id := journal])
    requires journal.phase == Created
    requires journal.expected == Observe(before).Expectation() && journal.previous == before.active
    requires IsActivation(journal.operation) || journal.operation in {Uninstall, Reinstall}
    requires IsActivation(journal.operation) ==> journal.target.Some?
    requires forall id :: Open(before, id) ==> Nested(before.journals[id], journal)
    ensures Inv(after)
  {
    forall id ensures JournalOk(after, id) {
      assert JournalOk(before, id);
    }
    forall a, b ensures Compatible(after, a, b) {
      assert Compatible(before, a, b);
      assert Open(after, a) && a != journal.id ==> Open(before, a);
      assert Open(after, b) && b != journal.id ==> Open(before, b);
    }
  }

  /** Moving the active record within one open activation keeps the invariant. */
  lemma ActiveKeepsInv(before: Durable, after: Durable, id: Id)
    requires Inv(before) && Open(before, id) && IsActivation(before.journals[id].operation)
    requires after.journals == before.journals
    requires after.active.Some? ==> after.active.value.transactionId in after.journals
    requires ActivationStage(after, before.journals[id])
    ensures Inv(after)
  {
    forall k ensures JournalOk(after, k) {
      assert JournalOk(before, k);
      if Open(before, k) && k != id {
        OnlyAReinstallWaits(before, id, k);
      }
    }
    forall a, b ensures Compatible(after, a, b) {
      assert Compatible(before, a, b);
    }
  }

  /** An open uninstall is the only open journal. */
  lemma AnUninstallIsAlone(d: Durable, id: Id, other: Id)
    requires Inv(d) && Open(d, id) && d.journals[id].operation == Uninstall
    requires Open(d, other)
    ensures other == id
  {
    assert Compatible(d, id, other);
  }

  /** Removing the active record within the one open uninstall keeps the invariant. */
  lemma RemovalKeepsInv(before: Durable, after: Durable, id: Id)
    requires Inv(before) && Open(before, id) && before.journals[id].operation == Uninstall
    requires after.journals == before.journals
    requires after.active.Some? ==> after.active == before.active
    requires UninstallStage(after, before.journals[id])
    ensures Inv(after)
  {
    forall k ensures JournalOk(after, k) {
      assert JournalOk(before, k);
      if Open(before, k) {
        AnUninstallIsAlone(before, id, k);
      }
    }
    forall a, b ensures Compatible(after, a, b) {
      assert Compatible(before, a, b);
    }
  }

  const ACTIVATIONS := {Install, Repair, Upgrade, Migration}

  /** The journals of every driver but the one that owns `mine`. */
  function Foreign(d: Durable, mine: set<Operation>): map<Id, Journal> {
    map id | id in d.journals && d.journals[id].operation !in mine :: d.journals[id]
  }

  /** Writing one's own journal leaves every other driver's journals alone. */
  lemma OwnWriteKeepsForeign(before: Durable, after: Durable, journal: Journal, mine: set<Operation>)
    requires journal.operation in mine
    requires journal.id in before.journals ==> before.journals[journal.id].operation in mine
    requires after.journals == before.journals[journal.id := journal]
    ensures Foreign(after, mine) == Foreign(before, mine)
  {
  }

  /** A reinstall that waits for the activation it launched. */
  predicate WaitingReinstall(journal: Journal) {
    journal.operation == Reinstall && journal.phase == RemovingData
  }
}
