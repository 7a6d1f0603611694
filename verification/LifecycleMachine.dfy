/**
 The activation machine of scripts/lifecycle_machine.py: it orders adapter
 effects, commits, rolls back and recovers, over the durable store.

 Each method promises three things: the durable invariant on every return (and
 so at every crash point), a sound verdict for every terminal outcome it
 writes, and, when no store call raises, the outcome its answers deserve.
 */
module LifecycleMachine {
  import opened Wrappers
  import opened LifecycleRecords
  import opened LifecycleState
  import opened LifecycleProtocol
  import opened Activation

  class LifecycleMachine {
    const state: LifecycleState
    var script: Script
    ghost var proofs: set<Proof>
    ghost var readBacks: set<(Id, Path)>
    ghost var restored: set<Id>
    ghost var verdicts: map<Id, Verdict>
    /** The journals of the other drivers, which no activation may touch. */
    ghost var foreign: map<Id, Journal>
    /** Journals as this process saw them, opened or closed. */
    ghost var sealed: map<Id, Journal>

    ghost predicate Good()
      reads this, state
    {
      && state.Valid()
      && Inv(state.State())
      && Judged(state.State(), verdicts)
      && script.Tame()
      && !state.illegalPhase
      && Foreign(state.State(), ACTIVATIONS) == foreign
      && Sealed(state.State(), sealed)
    }

    /** Nothing fails from here on, and the journal has room for `n` more answers. */
    ghost predicate Smooth(journal: Journal, n: nat)
      reads this, state
    {
      && state.Calm() && !state.stumbled && script.Light()
      && Held(state.State(), journal) && Load(journal) + n * SHARE <= MAX_COLLECTION_ITEMS
    }

    constructor (state: LifecycleState, script: Script)
      requires state.Valid() && state.State() == EMPTY && !state.illegalPhase && script.Tame()
      ensures this.state == state && Good()
    {
      this.state, this.script := state, script;
      proofs, readBacks, restored, verdicts, foreign, sealed := {}, {}, {}, map[], map[], map[];
      new;
      EmptyInv();
    }

    /** A new process: new oracles, nothing known.  Other drivers may have written their own journals meanwhile. */
    method Restart(script: Script)
      requires state.Valid() && Inv(state.State()) && Judged(state.State(), verdicts)
      requires script.Tame() && !state.illegalPhase
      modifies this
      ensures Good() && verdicts == old(verdicts)
      ensures this.script == script && foreign == Foreign(state.State(), ACTIVATIONS)
    {
      this.script := script;
      proofs, readBacks, restored, sealed := {}, {}, {}, map[];
      foreign := Foreign(state.State(), ACTIVATIONS);
    }

    // ----- adapter calls -----

    method Ask(id: Id, site: Site) returns (answer: Answer<StepEvidence>)
      requires Good()
      ensures answer == script.step(id, site) && QuietStep(answer)
    {
      answer := script.step(id, site);
    }

    method AskSafely(id: Id, site: Site) returns (e: StepEvidence)
      requires Good()
      ensures e == Safe(script.step(id, site)) && !AnyApplied(e.effects)
    {
      e := Safe(script.step(id, site));
    }

    /** Public CLI/MCP startup proof of one authority. */
    method AskProof(id: Id, site: Site, subject: Option<ActiveRecord>) returns (answer: Answer<StepEvidence>)
      requires Good()
      modifies this`proofs
      ensures Good() && answer == script.step(id, site) && QuietStep(answer)
      ensures proofs == old(proofs) + if Safe(answer).exact then {Proof(subject, Observe(state.State()))} else {}
    {
      answer := script.step(id, site);
      if Safe(answer).exact {
        proofs := proofs + {Proof(subject, Observe(state.State()))};
      }
    }

    method AskReadBack(id: Id, site: Site, releaseId: Id, releasePath: Path) returns (answer: Answer<StepEvidence>)
      requires Good()
      modifies this`readBacks
      ensures Good() && answer == script.step(id, site) && QuietStep(answer)
      ensures readBacks == old(readBacks) + if Safe(answer).exact then {(releaseId, releasePath)} else {}
    {
      answer := script.step(id, site);
      if Safe(answer).exact {
        readBacks := readBacks + {(releaseId, releasePath)};
      }
    }

    method AskRestore(journal: Journal) returns (e: StepEvidence)
      requires Good()
      modifies this`restored
      ensures Good() && e == Safe(script.step(journal.id, RestorePrevious)) && !AnyApplied(e.effects)
      ensures restored == old(restored) + if e.exact then {journal.id} else {}
    {
      e := Safe(script.step(journal.id, RestorePrevious));
      if e.exact {
        restored := restored + {journal.id};
      }
    }

    // ----- journal writes -----

    /** A non-terminal journal write. */
    method Advance(journal: Journal, phase: Phase, evidence: Evidence) returns (r: Result<Journal, Error>)
      requires Good()
      requires IsActivation(journal.operation) && LegalPhase(journal.phase, phase) && ActivationPhase(phase)
      modifies state
      ensures Good()
      ensures state.active == old(state.active) && Observe(state.State()) == Observe(old(state.State()))
      ensures r.Success? ==> Succeeds(journal, r.value, phase, evidence.effects) && Held(state.State(), r.value)
      ensures state.stumbled <==> old(state.stumbled) || r.Failure?
      ensures old(state.Calm()) ==> state.Calm()
      ensures WritesOnly(old(state.State()), state.State(), journal.id)
      ensures r.Success? ==> Load(r.value) <= Load(journal) + Weight(evidence)
      ensures
        old(state.Calm()) && Held(old(state.State()), journal) &&
        (evidence.owned == [] || NoDuplicates(journal.owned + evidence.owned)) &&
        Load(journal) + Weight(evidence) <= MAX_COLLECTION_ITEMS ==>
          r.Success?
    {
      hide Inv, Judged, Sealed, Load, Weight, NoDuplicates, Wrote, Replaces, NextPhases, state.Calm;
      ghost var before := state.State();
      var next := Advanced(journal, phase, evidence);
      if Held(before, journal) {
        HeldFits(journal, phase, evidence);
      }
      AdvancedLoad(journal, phase, evidence);
      r := state.AdvanceTransaction(journal, phase, evidence);
      if state.State() != before {
        AdvanceKeepsGood(before, state.State(), journal, next, verdicts);
        SealedStays(before, state.State(), journal, next, sealed);
      }
      if Wrote(before, state.State(), journal, next) {
        WrittenIsHeld(before, state.State(), journal, next);
      }
    }

    lemma HeldFits(journal: Journal, phase: Phase, evidence: Evidence)
      requires Good() && Held(state.State(), journal) && phase != Terminal && LegalPhase(journal.phase, phase)
      ensures
        (evidence.owned == [] || NoDuplicates(journal.owned + evidence.owned)) &&
        Load(journal) + Weight(evidence) <= MAX_COLLECTION_ITEMS ==>
          Replaces(state.State(), journal, Advanced(journal, phase, evidence))
    {
      hide Inv, Judged, NextPhases;
      AdvancedFits(journal, phase, evidence);
      assert journal.owned + [] == journal.owned;
    }

    method AppendEvidence(journal: Journal, e: StepEvidence) returns (r: Result<Journal, Error>)
      requires Good()
      requires IsActivation(journal.operation) && ActivationPhase(journal.phase)
      modifies state
      ensures Good()
      ensures state.active == old(state.active) && Observe(state.State()) == Observe(old(state.State()))
      ensures r.Success? ==> Succeeds(journal, r.value, journal.phase, e.effects) && Held(state.State(), r.value)
      ensures state.stumbled <==> old(state.stumbled) || r.Failure?
      ensures old(state.Calm()) ==> state.Calm()
      ensures WritesOnly(old(state.State()), state.State(), journal.id)
      ensures r.Success? ==> Load(r.value) <= Load(journal) + Weight(e.AsEvidence())
      ensures
        old(state.Calm()) && Held(old(state.State()), journal) &&
        Load(journal) + Weight(e.AsEvidence()) <= MAX_COLLECTION_ITEMS ==>
          r.Success?
    {
      r := Advance(journal, journal.phase, e.AsEvidence());
    }

    method AppendFailure(journal: Journal, failure: AdapterFailure) returns (r: Result<Journal, Error>)
      requires Good()
      requires IsActivation(journal.operation) && ActivationPhase(journal.phase)
      modifies state
      ensures Good()
      ensures state.active == old(state.active) && Observe(state.State()) == Observe(old(state.State()))
      ensures r.Success? ==> Succeeds(journal, r.value, journal.phase, failure.effects) && Held(state.State(), r.value)
      ensures state.stumbled <==> old(state.stumbled) || r.Failure?
      ensures old(state.Calm()) ==> state.Calm()
      ensures WritesOnly(old(state.State()), state.State(), journal.id)
      ensures r.Success? ==> Load(r.value) <= Load(journal) + Weight(FailureEvidence(failure))
      ensures
        old(state.Calm()) && Held(old(state.State()), journal) &&
        Load(journal) + Weight(FailureEvidence(failure)) <= MAX_COLLECTION_ITEMS ==>
          r.Success?
    {
      r := Advance(journal, journal.phase, FailureEvidence(failure));
    }

    // ----- an adapter call and the journal write of its evidence -----

    /** Public proof of one authority, journaled. */
    method Prove(journal: Journal, site: Site, subject: Option<ActiveRecord>) returns (r: Result<(Journal, bool), Error>)
      requires Good() && Held(state.State(), journal) && ActivationPhase(journal.phase)
      modifies state, this`proofs
      ensures Good()
      ensures state.active == old(state.active) && Observe(state.State()) == Observe(old(state.State()))
      ensures old(proofs) <= proofs
      ensures r.Success? ==> Held(state.State(), r.value.0) && Carries(journal, r.value.0)
      ensures r.Success? ==> r.value.1 == ExactAt(script, journal.id, site)
      ensures r.Success? && r.value.1 ==> Proof(subject, Observe(state.State())) in proofs
      ensures state.stumbled <==> old(state.stumbled) || r.Failure?
      ensures old(state.Calm()) ==> state.Calm()
      ensures WritesOnly(old(state.State()), state.State(), journal.id)
      ensures old(Smooth(journal, 1)) ==> r.Success? && Load(r.value.0) <= Load(journal) + SHARE
    {
      hide Good;
      var answer := AskProof(journal.id, site, subject);
      var proof := Safe(answer);
      AppliedAppends(journal.effects, proof.effects);
      var next :- AppendEvidence(journal, proof);
      return Success((next, proof.exact));
    }

    /** Any other quiet step, journaled. */
    method Tidy(journal: Journal, site: Site) returns (r: Result<(Journal, bool), Error>)
      requires Good() && Held(state.State(), journal) && ActivationPhase(journal.phase)
      modifies state
      ensures Good()
      ensures state.active == old(state.active) && Observe(state.State()) == Observe(old(state.State()))
      ensures r.Success? ==> Held(state.State(), r.value.0) && Carries(journal, r.value.0)
      ensures r.Success? ==> r.value.1 == ExactAt(script, journal.id, site)
      ensures state.stumbled <==> old(state.stumbled) || r.Failure?
      ensures old(state.Calm()) ==> state.Calm()
      ensures WritesOnly(old(state.State()), state.State(), journal.id)
      ensures old(Smooth(journal, 1)) ==> r.Success? && Load(r.value.0) <= Load(journal) + SHARE
    {
      hide Good;
      var e := AskSafely(journal.id, site);
      AppliedAppends(journal.effects, e.effects);
      var next :- AppendEvidence(journal, e);
      return Success((next, e.exact));
    }

    /** Restoration of the previous host state, journaled. */
    method Restore(journal: Journal) returns (r: Result<(Journal, bool), Error>)
      requires Good() && Held(state.State(), journal) && ActivationPhase(journal.phase)
      modifies state, this`restored
      ensures Good()
      ensures state.active == old(state.active) && Observe(state.State()) == Observe(old(state.State()))
      ensures r.Success? ==> Held(state.State(), r.value.0) && Carries(journal, r.value.0)
      ensures r.Success? ==> r.value.1 == ExactAt(script, journal.id, RestorePrevious)
      ensures r.Success? && r.value.1 ==> journal.id in restored
      ensures state.stumbled <==> old(state.stumbled) || r.Failure?
      ensures old(state.Calm()) ==> state.Calm()
      ensures WritesOnly(old(state.State()), state.State(), journal.id)
      ensures old(Smooth(journal, 1)) ==> r.Success? && Load(r.value.0) <= Load(journal) + SHARE
    {
      hide Good;
      var e := AskRestore(journal);
      AppliedAppends(journal.effects, e.effects);
      var next :- AppendEvidence(journal, e);
      return Success((next, e.exact));
    }

    /** The terminal write.  Its outcome must be justified by what is known at that moment. */
    method Conclude(journal: Journal, outcome: Outcome, observations: seq<Observation>, recovery: seq<string>)
      returns (r: Result<Journal, Error>)
      requires Good()
      requires IsActivation(journal.operation) && ActivationPhase(journal.phase)
      requires Held(state.State(), journal) ==>
        Sound(Verdict(journal.(outcome := Some(outcome)), Observe(state.State()), proofs, readBacks, restored))
      modifies state, this`verdicts
      ensures Good()
      ensures state.active == old(state.active) && Observe(state.State()) == Observe(old(state.State()))
      ensures r.Success? ==> journal.id in state.journals && state.journals[journal.id].outcome == Some(outcome)
      ensures state.stumbled <==> old(state.stumbled) || r.Failure?
      ensures old(state.Calm()) ==> state.Calm()
      ensures WritesOnly(old(state.State()), state.State(), journal.id)
      ensures old(Smooth(journal, 1)) && |observations| <= SHARE && |recovery| <= SHARE ==> r.Success?
    {
      hide Inv, Judged, Sealed, NextPhases, Replaces, Load, Weight, state.Calm, WellFormed;
      ghost var before := state.State();
      var evidence := Evidence(observations, [], [], [], recovery);
      ghost var done := Advanced(journal, Terminal, evidence).(outcome := Some(outcome));
      if Smooth(journal, 1) && |observations| <= SHARE && |recovery| <= SHARE {
        FinishIsSlim(observations, recovery);
        HeldFinishes(journal, outcome, evidence);
      }
      r := state.FinishTransaction(journal, outcome, evidence);
      if state.State() != before {
        assert done.effects == journal.effects;
        FinishedIsOpen(before, journal, done);
        ghost var verdict := Verdict(done, Observe(before), proofs, readBacks, restored);
        ConcludeKeepsGood(before, state.State(), journal, done, verdicts, verdict);
        SealedStays(before, state.State(), journal, done, sealed);
        verdicts := verdicts[journal.id := verdict];
      }
    }

    lemma FinishIsSlim(observations: seq<Observation>, recovery: seq<string>)
      ensures Weight(Evidence(observations, [], [], [], recovery)) == Max(|observations|, |recovery|)
    {
    }

    lemma FinishedIsOpen(before: Durable, journal: Journal, done: Journal)
      requires Replaces(before, journal, done) && journal.phase != Terminal && Keyed(before.journals)
      ensures journal.outcome.None? && Held(before, journal) == IsActivation(journal.operation)
    {
    }

    lemma HeldFinishes(journal: Journal, outcome: Outcome, evidence: Evidence)
      requires Good() && Smooth(journal, 1) && evidence.owned == [] && Weight(evidence) <= SHARE
      ensures Replaces(
        state.State(), journal, Advanced(journal, Terminal, evidence).(outcome := Some(outcome)))
    {
      hide Inv, Judged;
      FinishedFits(journal, outcome, evidence);
    }

    /** Observe the active authority. */
    method Look() returns (r: Result<Snapshot, Error>)
      requires Good()
      modifies state
      ensures Good() && state.State() == old(state.State())
      ensures r.Success? ==> r.value == Observe(state.State())
      ensures state.stumbled <==> old(state.stumbled) || r.Failure?
      ensures old(state.Calm()) ==> state.Calm()
      ensures old(state.Calm()) ==> r.Success?
    {
      r := state.ReadActive();
    }

    /** The terminal write, and the authority it leaves. */
    method Settle(journal: Journal, outcome: Outcome, observations: seq<Observation>, recovery: seq<string>)
      returns (r: Result<LifecycleResult, Error>)
      requires Good()
      requires IsActivation(journal.operation) && ActivationPhase(journal.phase)
      requires Held(state.State(), journal) ==>
        Sound(Verdict(journal.(outcome := Some(outcome)), Observe(state.State()), proofs, readBacks, restored))
      modifies state, this`verdicts
      ensures old(state.stumbled) ==> state.stumbled
      ensures Good()
      ensures r.Success? ==> Closed(state.State(), journal.id, r.value) && r.value.outcome == outcome
      ensures !state.stumbled ==> r.Success?
      ensures old(state.Calm()) ==> state.Calm()
      ensures WritesOnly(old(state.State()), state.State(), journal.id)
      ensures old(Smooth(journal, 1)) && |observations| <= SHARE && |recovery| <= SHARE ==> !state.stumbled
      ensures state.active == old(state.active)
    {
      hide Good, Sound;
      var _ :- Conclude(journal, outcome, observations, recovery);
      var active :- Look();
      return Success(LifecycleResult(journal.id, outcome, active, false));
    }

    /** Rolled back if that is justified, else partial. */
    method SettleRollback(journal: Journal, exact: bool) returns (r: Result<LifecycleResult, Error>)
      requires Good()
      requires IsActivation(journal.operation) && ActivationPhase(journal.phase)
      requires exact ==>
        && SameAuthority(state.active, journal.previous)
        && Proof(journal.previous, Observe(state.State())) in proofs
        && (AnyApplied(journal.effects) ==> journal.id in restored)
      modifies state, this`verdicts
      ensures old(state.stumbled) ==> state.stumbled
      ensures Good()
      ensures r.Success? ==> Closed(state.State(), journal.id, r.value)
      ensures !state.stumbled ==> r.Success? && r.value.outcome == if exact then RolledBack else Partial
      ensures old(state.Calm()) ==> state.Calm()
      ensures WritesOnly(old(state.State()), state.State(), journal.id)
      ensures old(Smooth(journal, 1)) ==> !state.stumbled
      ensures state.active == old(state.active)
      ensures r.Success? ==> r.value.outcome == if exact then RolledBack else Partial
    {
      hide Good;
      r := Settle(journal, if exact then RolledBack else Partial, [], []);
    }

    method FinishPartial(journal: Journal) returns (r: Result<LifecycleResult, Error>)
      requires Good()
      requires IsActivation(journal.operation) && ActivationPhase(journal.phase)
      modifies state, this`verdicts
      ensures old(state.stumbled) ==> state.stumbled
      ensures Good()
      ensures r.Success? ==> Closed(state.State(), journal.id, r.value)
      ensures r.Success? ==> r.value.outcome == Partial
      ensures !state.stumbled ==> r.Success?
      ensures old(state.Calm()) ==> state.Calm()
      ensures WritesOnly(old(state.State()), state.State(), journal.id)
      ensures old(Smooth(journal, 1)) ==> !state.stumbled
      ensures state.active == old(state.active)
    {
      hide Good;
      r := Settle(journal, Partial, [Observation("recovery", Unknown, None)], STOP);
    }

    // ----- compensation -----

    /** Under an open activation the active record is its target or its previous authority. */
    lemma Named(journal: Journal)
      requires Good() && Held(state.State(), journal)
      ensures ActivationPhase(journal.phase)
      ensures !IsTargetRecord(state.active, journal) ==> SameAuthority(state.active, journal.previous)
      ensures IsTargetRecord(state.active, journal) || IsPreviousOrExpected(Observe(state.State()), journal)
    {
      RecoveryIsComplete(state.State(), journal.id);
    }

    /** An untouched authority is the previous one, not the target. */
    lemma Unaimed(journal: Journal)
      requires Good() && Held(state.State(), journal) && Untouched(state.State(), journal)
      ensures !IsTargetRecord(state.active, journal) && state.active == journal.previous
    {
      RecoveryIsComplete(state.State(), journal.id);
      assert JournalOk(state.State(), journal.id);
    }

    lemma QuietScript()
      requires Good()
      ensures script.attest.Failed? ==> !AnyApplied(script.attest.failure.effects)
      ensures script.build.Failed? ==> !AnyApplied(script.build.failure.effects)
    {
    }

    method FinishWithoutHostEffect(journal0: Journal, failure: AdapterFailure, partial: bool)
      returns (r: Result<LifecycleResult, Error>)
      requires Good() && Held(state.State(), journal0)
      requires !IsTargetRecord(state.active, journal0) && !AnyApplied(journal0.effects)
      modifies state, this`proofs, this`verdicts
      ensures old(state.stumbled) ==> state.stumbled
      ensures Good()
      ensures r.Success? ==> Closed(state.State(), journal0.id, r.value)
      ensures !state.stumbled ==>
        r.Success? && r.value.outcome == FinishOutcome(script, journal0.id, partial || failure.uncertain)
      ensures old(state.Calm()) ==> state.Calm()
      ensures WritesOnly(old(state.State()), state.State(), journal0.id)
      ensures old(Smooth(journal0, 3)) ==> !state.stumbled
      ensures state.active == old(state.active)
      ensures r.Success? ==> Leaves(state.active, journal0, r.value.outcome) && r.value.outcome != Committed
    {
      hide Good, Inv, state.Calm, Script.Light, Load, Weight;
      Named(journal0);
      var cleanup :- Tidy(journal0, CleanupOwned);
      var proof :- Prove(cleanup.0, ProofPrevious, journal0.previous);
      r := SettleRollback(proof.0, !partial && !failure.uncertain && cleanup.1 && proof.1);
    }

    method RollbackBeforeActive(journal0: Journal) returns (r: Result<LifecycleResult, Error>)
      requires Good() && Held(state.State(), journal0)
      requires !IsTargetRecord(state.active, journal0) && LegalPhase(journal0.phase, Restoring)
      modifies state, this`proofs, this`restored, this`verdicts
      ensures old(state.stumbled) ==> state.stumbled
      ensures Good()
      ensures r.Success? ==> Closed(state.State(), journal0.id, r.value)
      ensures !state.stumbled ==> r.Success? && r.value.outcome == RollbackOutcome(script, journal0.id)
      ensures old(state.Calm()) ==> state.Calm()
      ensures WritesOnly(old(state.State()), state.State(), journal0.id)
      ensures old(Smooth(journal0, 4)) ==> !state.stumbled
      ensures state.active == old(state.active)
      ensures r.Success? ==> Leaves(state.active, journal0, r.value.outcome) && r.value.outcome != Committed
    {
      hide Good, Inv, NextPhases, IsPreviousOrExpected, state.Calm, Script.Light, Load, Weight;
      NothingIsWeightless();
      Named(journal0);
      var journal :- Advance(journal0, Restoring, NOTHING);
      r := ProveRestored(journal);
    }

    /** The host first, then the proof of the authority that never changed. */
    method ProveRestored(journal0: Journal) returns (r: Result<LifecycleResult, Error>)
      requires Good() && Held(state.State(), journal0) && ActivationPhase(journal0.phase)
      requires SameAuthority(state.active, journal0.previous)
      modifies state, this`proofs, this`restored, this`verdicts
      ensures old(state.stumbled) ==> state.stumbled
      ensures Good()
      ensures r.Success? ==> Closed(state.State(), journal0.id, r.value)
      ensures !state.stumbled ==> r.Success? && r.value.outcome == RollbackOutcome(script, journal0.id)
      ensures old(state.Calm()) ==> state.Calm()
      ensures WritesOnly(old(state.State()), state.State(), journal0.id)
      ensures old(Smooth(journal0, 4)) ==> !state.stumbled
      ensures state.active == old(state.active)
      ensures r.Success? ==> r.value.outcome != Committed
    {
      hide Good, Inv, state.Calm, Script.Light, Load, Weight, IsTargetRecord;
      var restoration :- Restore(journal0);
      var proof :- Prove(restoration.0, ProofPrevious, journal0.previous);
      var cleanup :- Tidy(proof.0, CleanupOwned);
      r := SettleRollback(cleanup.0, restoration.1 && proof.1);
    }

    /** The compensating compare-and-swap: back to the previous identity, or to absence. */
    method Compensate(journal: Journal, current: Snapshot) returns (r: Result<Snapshot, Error>)
      requires Good() && Held(state.State(), journal)
      requires IsTargetRecord(state.active, journal) && current == Observe(state.State())
      modifies state
      ensures Good()
      ensures Held(state.State(), journal)
      ensures r.Success? ==> SameAuthority(state.active, journal.previous) && r.value == Observe(state.State())
      ensures state.stumbled <==> old(state.stumbled) || r.Failure?
      ensures old(state.Calm()) ==> state.Calm()
      ensures WritesOnly(old(state.State()), state.State(), journal.id)
      ensures old(state.Calm()) ==> r.Success?
    {
      ghost var before := state.State();
      RecoveryIsComplete(before, journal.id);
      assert JournalOk(before, journal.id);
      if journal.previous.None? {
        r := state.CompareAndDeleteActive(current.Expectation());
      } else {
        r := state.RestoreActive(current.Expectation(), journal.previous.value);
      }
      ActiveKeepsInv(before, state.State(), journal.id);
      forall id ensures VerdictOk(state.State(), verdicts, id) {
        assert VerdictOk(before, verdicts, id);
      }
    }

    method RollbackAfterActive(journal0: Journal) returns (r: Result<LifecycleResult, Error>)
      requires Good() && Held(state.State(), journal0)
      requires IsTargetRecord(state.active, journal0) && LegalPhase(journal0.phase, Restoring)
      modifies state, this`proofs, this`restored, this`verdicts
      ensures old(state.stumbled) ==> state.stumbled
      ensures Good()
      ensures r.Success? ==> Closed(state.State(), journal0.id, r.value)
      ensures r.Success? ==> Leaves(state.active, journal0, r.value.outcome)
      ensures !state.stumbled ==> r.Success? && r.value.outcome == RollbackOutcome(script, journal0.id)
      ensures old(state.Calm()) ==> state.Calm()
      ensures WritesOnly(old(state.State()), state.State(), journal0.id)
      ensures old(Smooth(journal0, 4)) ==> !state.stumbled
      ensures r.Success? ==> r.value.outcome != Committed
    {
      hide Good, Inv, state.Calm, Script.Light, Load, Weight;
      NothingIsWeightless();
      var journal := journal0;
      journal :- Advance(journal, Restoring, NOTHING);
      var current :- Look();
      if !IsTargetRecord(current.record, journal) {
        // "active authority changed before compensating CAS"
        assert false;
      }
      var compensated := Compensate(journal, current);
      if compensated.Success? {
        r := ProveCompensated(journal, compensated.value);
      } else if IsLifecycleStateError(compensated.error) {
        r := FinishPartial(journal);
      } else {
        r := Failure(compensated.error);
      }
    }

    /** The second half of `_rollback_after_active`, once the previous authority is back. */
    method ProveCompensated(journal0: Journal, back: Snapshot) returns (r: Result<LifecycleResult, Error>)
      requires Good() && Held(state.State(), journal0)
      requires back == Observe(state.State())
      requires SameAuthority(state.active, journal0.previous) && ActivationPhase(journal0.phase)
      modifies state, this`proofs, this`restored, this`verdicts
      ensures old(state.stumbled) ==> state.stumbled
      ensures Good()
      ensures r.Success? ==> Closed(state.State(), journal0.id, r.value)
      ensures r.Success? ==> Leaves(state.active, journal0, r.value.outcome)
      ensures !state.stumbled ==> r.Success? && r.value.outcome == RollbackOutcome(script, journal0.id)
      ensures old(state.Calm()) ==> state.Calm()
      ensures WritesOnly(old(state.State()), state.State(), journal0.id)
      ensures old(Smooth(journal0, 4)) ==> !state.stumbled
      ensures state.active == old(state.active)
      ensures r.Success? ==> r.value.outcome != Committed
    {
      hide Good, Inv, state.Calm, Script.Light, Load, Weight;
      var restoration :- Restore(journal0);
      if !restoration.1 {
        r := FinishPartial(restoration.0);
        return;
      }
      var proof :- Prove(restoration.0, ProofPrevious, journal0.previous);
      if !proof.1 {
        r := FinishPartial(proof.0);
        return;
      }
      var cleanup :- Tidy(proof.0, CleanupOwned);
      var _ :- Conclude(cleanup.0, RolledBack, [], []);
      return Success(LifecycleResult(journal0.id, RolledBack, back, false));
    }

    // ----- recovery -----

    /** Resume an interrupted activation: prove and commit its target, or prove the previous authority. */
    method RecoverOne(pending: Journal) returns (r: Result<LifecycleResult, Error>)
      requires Good() && Held(state.State(), pending)
      modifies state, this`proofs, this`readBacks, this`restored, this`verdicts
      ensures old(state.stumbled) ==> state.stumbled
      ensures Good()
      ensures r.Success? ==> Closed(state.State(), pending.id, r.value)
      ensures r.Success? ==> Leaves(state.active, pending, r.value.outcome)
      ensures !state.stumbled ==> r.Success? && r.value.outcome == RecoveryOutcome(script, old(state.active), pending)
      ensures old(state.Calm()) ==> state.Calm()
      ensures WritesOnly(old(state.State()), state.State(), pending.id)
      ensures old(Smooth(pending, 7)) ==> !state.stumbled
      ensures r.Success? && r.value.outcome == Committed ==> state.active == old(state.active)
      ensures !IsTargetRecord(old(state.active), pending) ==> state.active == old(state.active)
      ensures Recovered(pending, r)
    {
      hide Good, Inv, state.Calm, RecoveryDeserved, RecoveryOutcome, BackTo, SameAuthority, Load;
      RecoveriesDeserve(script, state.active, pending);
      r := ResumeOne(pending);
      SameAuthorityIsBack(state.active, pending.previous);
    }

    method ResumeOne(pending: Journal) returns (r: Result<LifecycleResult, Error>)
      requires Good() && Held(state.State(), pending)
      modifies state, this`proofs, this`readBacks, this`restored, this`verdicts
      ensures old(state.stumbled) ==> state.stumbled
      ensures Good()
      ensures r.Success? ==> Closed(state.State(), pending.id, r.value)
      ensures r.Success? ==> Leaves(state.active, pending, r.value.outcome)
      ensures !state.stumbled ==> r.Success? && r.value.outcome == RecoveryOutcome(script, old(state.active), pending)
      ensures old(state.Calm()) ==> state.Calm()
      ensures WritesOnly(old(state.State()), state.State(), pending.id)
      ensures old(Smooth(pending, 7)) ==> !state.stumbled
      ensures r.Success? && r.value.outcome == Committed ==> state.active == old(state.active)
      ensures !IsTargetRecord(old(state.active), pending) ==> state.active == old(state.active)
    {
      hide Good, Inv, state.Calm;
      Named(pending);
      var resumed := Evidence([Observation("transaction-recovery", Exact, None)], [], [], [], []);
      var journal :- Advance(pending, Recovering, resumed);
      assert journal.effects == pending.effects;
      var current :- Look();
      Named(journal);
      if IsTargetRecord(current.record, journal) {
        r := RecoverTarget(journal, current);
      } else if IsPreviousOrExpected(current, journal) {
        r := RecoverPrevious(journal, current);
      } else {
        // "active authority matches neither the interrupted target nor its immediate previous authority"
        assert false;
      }
    }

    method RecoverTarget(journal0: Journal, current: Snapshot) returns (r: Result<LifecycleResult, Error>)
      requires Good() && Held(state.State(), journal0) && journal0.phase == Recovering
      requires current == Observe(state.State()) && IsTargetRecord(current.record, journal0)
      modifies state, this`proofs, this`readBacks, this`restored, this`verdicts
      ensures old(state.stumbled) ==> state.stumbled
      ensures Good()
      ensures r.Success? ==> Closed(state.State(), journal0.id, r.value)
      ensures r.Success? ==> Leaves(state.active, journal0, r.value.outcome)
      ensures !state.stumbled ==> r.Success? && r.value.outcome == RecoveryOutcome(script, old(state.active), journal0)
      ensures old(state.Calm()) ==> state.Calm()
      ensures WritesOnly(old(state.State()), state.State(), journal0.id)
      ensures old(Smooth(journal0, 6)) ==> !state.stumbled
      ensures r.Success? && r.value.outcome == Committed ==> state.active == old(state.active)
    {
      hide Good, Inv, state.Calm, Load, Weight, RollbackOutcome, IsPreviousOrExpected, Script.Light;
      var confirmed :- ConfirmTarget(journal0, current);
      if confirmed.1 {
        r := CommitRecovered(confirmed.0, current);
        return;
      }
      r := RollbackAfterActive(confirmed.0);
    }

    /** Is the interrupted target what the host runs, and does it prove itself? */
    method ConfirmTarget(journal0: Journal, current: Snapshot) returns (r: Result<(Journal, bool), Error>)
      requires Good() && Held(state.State(), journal0) && journal0.phase == Recovering
      requires current == Observe(state.State()) && IsTargetRecord(current.record, journal0)
      modifies state, this`proofs, this`readBacks
      ensures Good()
      ensures state.active == old(state.active) && Observe(state.State()) == Observe(old(state.State()))
      ensures state.stumbled <==> old(state.stumbled) || r.Failure?
      ensures r.Success? ==>
        && Held(state.State(), r.value.0) && SameIdentity(journal0, r.value.0) && r.value.0.phase == Recovering
        && r.value.1 == (ExactAt(script, journal0.id, ResumeReadBack) && ExactAt(script, journal0.id, ResumeProof))
      ensures r.Success? && r.value.1 ==>
        Proof(current.record, current) in proofs
        && (current.record.value.releaseId, current.record.value.releasePath) in readBacks
      ensures old(state.Calm()) ==> state.Calm()
      ensures WritesOnly(old(state.State()), state.State(), journal0.id)
      ensures old(Smooth(journal0, 2)) ==> r.Success? && Load(r.value.0) <= Load(journal0) + 2 * SHARE
    {
      hide Good, Inv, state.Calm, Load, Weight;
      var answer := AskReadBack(journal0.id, ResumeReadBack, current.record.value.releaseId,
        current.record.value.releasePath);
      var readBack := Safe(answer);
      var journal :- AppendEvidence(journal0, readBack);
      var proof :- Prove(journal, ResumeProof, current.record);
      return Success((proof.0, readBack.exact && proof.1));
    }

    /** The interrupted target is read back and proven: clean up and commit it. */
    method CommitRecovered(journal0: Journal, current: Snapshot) returns (r: Result<LifecycleResult, Error>)
      requires Good() && Held(state.State(), journal0) && ActivationPhase(journal0.phase)
      requires current == Observe(state.State()) && IsTargetRecord(current.record, journal0)
      requires Proof(current.record, current) in proofs
      requires (current.record.value.releaseId, current.record.value.releasePath) in readBacks
      modifies state, this`verdicts
      ensures Good()
      ensures r.Success? ==> Closed(state.State(), journal0.id, r.value) && r.value.outcome == Committed
      ensures r.Success? ==> Leaves(state.active, journal0, Committed)
      ensures state.stumbled <==> old(state.stumbled) || r.Failure?
      ensures old(state.Calm()) ==> state.Calm()
      ensures WritesOnly(old(state.State()), state.State(), journal0.id)
      ensures old(Smooth(journal0, 2)) ==> r.Success?
      ensures state.active == old(state.active)
    {
      hide Good, Inv, state.Calm, Script.Light, Load, Weight;
      var cleanup :- Tidy(journal0, ResumeCleanup);
      var _ :- Conclude(cleanup.0, Committed, [], []);
      return Success(LifecycleResult(journal0.id, Committed, current, false));
    }

    method RecoverPrevious(journal0: Journal, current: Snapshot) returns (r: Result<LifecycleResult, Error>)
      requires Good() && Held(state.State(), journal0) && journal0.phase == Recovering
      requires current == Observe(state.State()) && !IsTargetRecord(current.record, journal0)
      modifies state, this`proofs, this`restored, this`verdicts
      ensures old(state.stumbled) ==> state.stumbled
      ensures Good()
      ensures r.Success? ==> Closed(state.State(), journal0.id, r.value)
      ensures r.Success? ==> Leaves(state.active, journal0, r.value.outcome)
      ensures !state.stumbled ==> r.Success? && r.value.outcome == RecoveryOutcome(script, old(state.active), journal0)
      ensures old(state.Calm()) ==> state.Calm()
      ensures WritesOnly(old(state.State()), state.State(), journal0.id)
      ensures old(Smooth(journal0, 4)) ==> !state.stumbled
      ensures state.active == old(state.active)
    {
      hide Good, Inv, NextPhases, IsPreviousOrExpected, state.Calm, Script.Light, Load, Weight;
      var journal := journal0;
      Named(journal);
      if AnyApplied(journal.effects) {
        var restoration :- Restore(journal);
        journal := restoration.0;
        if !restoration.1 {
          r := FinishPartial(journal);
          return;
        }
      }
      r := ProvePrevious(journal, current);
    }

    /** Whatever had to be restored is: prove the previous authority and close. */
    method ProvePrevious(journal0: Journal, current: Snapshot) returns (r: Result<LifecycleResult, Error>)
      requires Good() && Held(state.State(), journal0) && ActivationPhase(journal0.phase)
      requires current == Observe(state.State()) && SameAuthority(state.active, journal0.previous)
      requires AnyApplied(journal0.effects) ==> journal0.id in restored
      modifies state, this`proofs, this`verdicts
      ensures old(state.stumbled) ==> state.stumbled
      ensures Good()
      ensures r.Success? ==> Closed(state.State(), journal0.id, r.value)
      ensures r.Success? ==> Leaves(state.active, journal0, r.value.outcome)
      ensures !state.stumbled ==>
        r.Success? && r.value.outcome == if ExactAt(script, journal0.id, ProofPrevious) then RolledBack else Partial
      ensures old(state.Calm()) ==> state.Calm()
      ensures WritesOnly(old(state.State()), state.State(), journal0.id)
      ensures old(Smooth(journal0, 3)) ==> !state.stumbled
      ensures state.active == old(state.active)
    {
      hide Good, Inv, state.Calm, Script.Light, Load, Weight, IsTargetRecord;
      var proof :- Prove(journal0, ProofPrevious, journal0.previous);
      if !proof.1 {
        r := FinishPartial(proof.0);
        return;
      }
      var cleanup :- Tidy(proof.0, CleanupOwned);
      var _ :- Conclude(cleanup.0, RolledBack, [], []);
      return Success(LifecycleResult(journal0.id, RolledBack, current, false));
    }

    // ----- decisions before any effect -----

    /** The operation must fit the presence of an active authority. */
    method Precondition(journal0: Journal, request: ActivationRequest, previous: Snapshot)
      returns (r: Result<Option<LifecycleResult>, Error>)
      requires Good() && Fresh(state.State(), journal0) && ForRequest(journal0, request)
      requires previous == Observe(state.State())
      modifies state, this`proofs, this`verdicts
      ensures old(state.stumbled) ==> state.stumbled
      ensures Good()
      ensures r.Success? && r.value.None? ==>
        && state.State() == old(state.State())
        && (previous.Present() <==> request.operation in {Repair, Upgrade})
      ensures r.Success? && r.value.Some? ==> Closed(state.State(), journal0.id, r.value.value)
      ensures !state.stumbled ==> r.Success? && (r.value.Some? <==> Misfit(request.operation, previous.Present()))
      ensures !state.stumbled && r.value.Some? ==>
        r.value.value.outcome == if ExactAt(script, journal0.id, PreconditionProof) then RolledBack else Partial
      ensures old(state.Calm()) ==> state.Calm()
      ensures old(Smooth(journal0, 3)) ==> !state.stumbled
      ensures state.active == old(state.active)
    {
      hide Good, Inv, state.Calm, Script.Light, Load, NextPhases;
      var invalid :=
        || (request.operation == Install && previous.Present())
        || (request.operation in {Repair, Upgrade} && !previous.Present())
        || (request.operation == Migration && previous.Present());
      if !invalid {
        return Success(None);
      }
      var refused :- RefuseMisfit(journal0, previous);
      return Success(Some(refused));
    }

    method RefuseMisfit(journal0: Journal, previous: Snapshot) returns (r: Result<LifecycleResult, Error>)
      requires Good() && Fresh(state.State(), journal0) && previous == Observe(state.State())
      modifies state, this`proofs, this`verdicts
      ensures old(state.stumbled) ==> state.stumbled
      ensures Good()
      ensures r.Success? ==> Closed(state.State(), journal0.id, r.value)
      ensures !state.stumbled ==>
        r.Success? && r.value.outcome == if ExactAt(script, journal0.id, PreconditionProof) then RolledBack else Partial
      ensures old(state.Calm()) ==> state.Calm()
      ensures old(Smooth(journal0, 3)) ==> !state.stumbled
      ensures state.active == old(state.active)
    {
      hide Good, Inv, state.Calm, NextPhases;
      Named(journal0);
      var changed := Evidence([Observation("active-authority", Changed, None)], [], [], [], []);
      var journal :- Advance(journal0, journal0.phase, changed);
      Unaimed(journal);
      var proof :- Prove(journal, PreconditionProof, previous.record);
      var outcome := if proof.1 then RolledBack else Partial;
      var _ :- Conclude(proof.0, outcome, [], []);
      return Success(LifecycleResult(journal0.id, outcome, previous, false));
    }

    /** Reuse, refuse or rebuild the active release. */
    method RepairDecision(journal0: Journal, request: ActivationRequest, previous: Snapshot)
      returns (r: Result<Option<LifecycleResult>, Error>)
      requires Good() && Fresh(state.State(), journal0) && ForRequest(journal0, request)
      requires request.operation == Repair && previous == Observe(state.State()) && previous.Present()
      modifies state, this`proofs, this`readBacks, this`verdicts
      ensures old(state.stumbled) ==> state.stumbled
      ensures Good()
      ensures r.Success? && r.value.None? ==>
        && Observe(state.State()) == previous
        && journal0.id in state.journals
        && Fresh(state.State(), state.journals[journal0.id])
        && ForRequest(state.journals[journal0.id], request)
      ensures r.Success? && r.value.Some? ==> Closed(state.State(), journal0.id, r.value.value)
      ensures !state.stumbled ==> r.Success? && (r.value.Some? <==> RepairAnswer(script, request).Some?)
      ensures !state.stumbled && r.value.Some? ==> Some(r.value.value.outcome) == RepairAnswer(script, request)
      ensures old(state.Calm()) ==> state.Calm()
      ensures old(Smooth(journal0, 5)) ==> !state.stumbled
      ensures old(Smooth(journal0, 5)) && r.Success? && r.value.None? ==>
        Load(state.journals[journal0.id]) <= Load(journal0) + 3 * SHARE
      ensures state.active == old(state.active)
    {
      hide Good, Inv;
      Named(journal0);
      if !script.attest.Returned? {
        QuietScript();
        r := RefuseRepair(journal0, AsFailure(Raised(script.attest)), true);
        return;
      }
      var attestation := script.attest.value;
      var journal :- Advance(journal0, journal0.phase, Evidence(attestation.observations, [], [], [], []));
      if !attestation.identityProven || attestation.envelope.None? {
        var failure := AdapterFailure([Observation("active-receipt", Unknown, None)], [], [], RERUN, true);
        r := RefuseRepair(journal, failure, true);
        return;
      }
      if attestation.version == Some(request.version) && attestation.envelope != Some(request.envelope) {
        r := RefuseChangedBytes(journal, previous);
        return;
      }
      if attestation.version != Some(request.version) {
        var failure := AdapterFailure([Observation("active-version", Changed, None)], [], [], [], false);
        r := RefuseRepair(journal, failure, false);
        return;
      }
      if !attestation.reusable {
        return Success(None);
      }
      r := Reuse(journal, previous);
    }

    method RefuseRepair(journal0: Journal, failure: AdapterFailure, partial: bool)
      returns (r: Result<Option<LifecycleResult>, Error>)
      requires Good() && Fresh(state.State(), journal0) && !AnyApplied(failure.effects)
      modifies state, this`proofs, this`verdicts
      ensures old(state.stumbled) ==> state.stumbled
      ensures Good()
      ensures r.Success? ==> r.value.Some? && Closed(state.State(), journal0.id, r.value.value)
      ensures !state.stumbled ==>
        r.Success? && r.value.value.outcome == FinishOutcome(script, journal0.id, partial || failure.uncertain)
      ensures old(state.Calm()) ==> state.Calm()
      ensures old(Smooth(journal0, 4)) && SlimFailure(failure) ==> !state.stumbled
      ensures state.active == old(state.active)
    {
      hide Good, Inv, state.Calm;
      Named(journal0);
      AppliedAppends(journal0.effects, failure.effects);
      var journal :- AppendFailure(journal0, failure);
      Unaimed(journal);
      var result :- FinishWithoutHostEffect(journal, failure, partial);
      return Success(Some(result));
    }

    method RefuseChangedBytes(journal0: Journal, previous: Snapshot) returns (r: Result<Option<LifecycleResult>, Error>)
      requires Good() && Fresh(state.State(), journal0) && previous == Observe(state.State())
      modifies state, this`proofs, this`verdicts
      ensures old(state.stumbled) ==> state.stumbled
      ensures Good()
      ensures r.Success? ==> r.value.Some? && Closed(state.State(), journal0.id, r.value.value)
      ensures !state.stumbled ==> r.Success?
      ensures !state.stumbled ==>
        r.value.value.outcome == if ExactAt(script, journal0.id, ChangedBytesProof) then RolledBack else Partial
      ensures old(state.Calm()) ==> state.Calm()
      ensures old(Smooth(journal0, 2)) ==> !state.stumbled
      ensures state.active == old(state.active)
    {
      hide Good, Inv, state.Calm;
      Unaimed(journal0);
      Named(journal0);
      var answer := AskProof(journal0.id, ChangedBytesProof, previous.record);
      var proof := Safe(answer);
      AppliedAppends(journal0.effects, proof.effects);
      var journal :- AppendEvidence(journal0, proof);
      var outcome := if proof.exact then RolledBack else Partial;
      var _ :- Conclude(journal, outcome, [], ["envelope"]);
      return Success(Some(LifecycleResult(journal.id, outcome, previous, false)));
    }

    method Reuse(journal0: Journal, previous: Snapshot) returns (r: Result<Option<LifecycleResult>, Error>)
      requires Good() && Fresh(state.State(), journal0) && journal0.operation == Repair
      requires previous == Observe(state.State()) && previous.Present()
      modifies state, this`proofs, this`readBacks, this`verdicts
      ensures old(state.stumbled) ==> state.stumbled
      ensures Good()
      ensures r.Success? && r.value.None? ==>
        && Observe(state.State()) == previous
        && journal0.id in state.journals
        && Fresh(state.State(), state.journals[journal0.id])
        && SameIdentity(journal0, state.journals[journal0.id])
      ensures r.Success? && r.value.Some? ==> Closed(state.State(), journal0.id, r.value.value)
      ensures !state.stumbled ==> r.Success?
      ensures !state.stumbled ==>
        (r.value.Some? <==> ExactAt(script, journal0.id, RepairReadBack) && ExactAt(script, journal0.id, RepairProof))
      ensures r.Success? && r.value.Some? ==> r.value.value.outcome == Committed
      ensures old(state.Calm()) ==> state.Calm()
      ensures old(Smooth(journal0, 3)) ==> !state.stumbled
      ensures old(Smooth(journal0, 3)) && r.Success? && r.value.None? ==>
        Load(state.journals[journal0.id]) <= Load(journal0) + 2 * SHARE
      ensures state.active == old(state.active)
    {
      hide Good, Inv, state.Calm;
      Named(journal0);
      var answer := AskReadBack(journal0.id, RepairReadBack, previous.record.value.releaseId,
        previous.record.value.releasePath);
      var readBack := Safe(answer);
      AppliedAppends(journal0.effects, readBack.effects);
      var journal :- AppendEvidence(journal0, readBack);
      answer := AskProof(journal.id, RepairProof, previous.record);
      var proof := Safe(answer);
      AppliedAppends(journal.effects, proof.effects);
      journal :- AppendEvidence(journal, proof);
      if readBack.exact && proof.exact {
        var _ :- Conclude(journal, Committed, [], []);
        return Success(Some(LifecycleResult(journal.id, Committed, previous, true)));
      }
      return Success(None);
    }

    method ClassifyMigration(journal0: Journal, request: ActivationRequest, previous: Snapshot)
      returns (r: Result<Option<LifecycleResult>, Error>)
      requires Good() && Fresh(state.State(), journal0) && ForRequest(journal0, request)
      requires previous == Observe(state.State())
      modifies state, this`verdicts
      ensures old(state.stumbled) ==> state.stumbled
      ensures Good()
      ensures r.Success? && r.value.None? ==>
        && Observe(state.State()) == previous
        && journal0.id in state.journals
        && Fresh(state.State(), state.journals[journal0.id])
        && ForRequest(state.journals[journal0.id], request)
      ensures r.Success? && r.value.Some? ==> Closed(state.State(), journal0.id, r.value.value)
      ensures !state.stumbled ==> r.Success? && (r.value.Some? <==> !ExactPredecessor(script))
      ensures r.Success? && r.value.Some? ==> r.value.value.outcome == Partial
      ensures old(state.Calm()) ==> state.Calm()
      ensures old(Smooth(journal0, 2)) ==> !state.stumbled
      ensures old(Smooth(journal0, 2)) && r.Success? && r.value.None? ==>
        Load(state.journals[journal0.id]) <= Load(journal0) + 1 * SHARE
      ensures state.active == old(state.active)
    {
      hide Good, Inv, state.Calm, Load;
      Named(journal0);
      var unknown := [Observation("legacy-installation", Unknown, None)];
      var classification :=
        match script.classify
        case None => Classification(false, unknown, ["migrate"])
        case Some(Returned(c)) => c
        case Some(_) =>
          Classification(false, unknown, ["inspect"]);
      var evidence := Evidence(classification.observations, [], [], [], classification.recovery);
      var journal :- Advance(journal0, journal0.phase, evidence);
      if classification.exactPredecessor {
        return Success(None);
      }
      var _ :- Conclude(journal, Partial, [], []);
      return Success(Some(LifecycleResult(journal.id, Partial, previous, false)));
    }

    // ----- one activation attempt: the body of the try block -----

    /** Build, check and observe: everything before the first host effect. */
    method Stage(journal0: Journal, request: ActivationRequest)
      returns (r: Result<Candidate, Exception>, journal: Journal)
      requires Good() && Fresh(state.State(), journal0) && ForRequest(journal0, request)
      modifies state
      ensures old(state.stumbled) ==> state.stumbled
      ensures Good() && state.active == old(state.active) && Observe(state.State()) == Observe(old(state.State()))
      ensures r.Failure? ==> Compensable(state.State(), journal0, journal, AsFailure(r.error))
      ensures r.Success? ==>
        && Held(state.State(), journal)
        && SameIdentity(journal0, journal)
        && journal.phase == CandidateReady
        && CandidateMatches(request, r.value)
      ensures r.Failure? ==> !AnyApplied(journal.effects) && !AnyApplied(AsFailure(r.error).effects)
      ensures r.Success? ==> !AnyApplied(journal.effects) && script.build == Returned(r.value)
      ensures r.Success? ==> ExactAt(script, journal0.id, StagedHealth) && ExactAt(script, journal0.id, ObservePrevious)
      ensures !state.stumbled && r.Failure? ==> FirstHurdle(script, request) == BeforeHost(AsFailure(r.error).uncertain)
      ensures old(state.Calm()) ==> state.Calm()
      ensures old(Smooth(journal0, 2)) ==>
        && !state.stumbled && Held(state.State(), journal) && Load(journal) <= Load(journal0) + 2 * SHARE
        && (r.Failure? ==> SlimFailure(AsFailure(r.error)))
    {
      hide Good, Inv;
      journal := journal0;
      Named(journal);
      if !script.build.Returned? {
        QuietScript();
        return Failure(Raised(script.build)), journal;
      }
      var candidate := script.build.value;
      if !CandidateMatches(request, candidate) {
        var mismatch := AdapterFailure([Observation("candidate-identity", Changed, None)], [], [], [], false);
        return Failure(FromAdapter(mismatch)), journal;
      }
      var answer := Ask(journal.id, StagedHealth);
      if !answer.Returned? {
        return Failure(Raised(answer)), journal;
      }
      var staged := answer.value;
      if !staged.exact {
        return Failure(FromAdapter(Inexact(staged, false))), journal;
      }
      var ready := MarkReady(journal, candidate, staged);
      if ready.Failure? {
        return Failure(FromStore(ready.error)), journal;
      }
      journal := ready.value;
      var confirmed;
      confirmed, journal := ConfirmPrevious(journal);
      if confirmed.Failure? {
        return Failure(confirmed.error), journal;
      }
      return Success(candidate), journal;
    }

    /** Journal the staged candidate and the paths it owns. */
    method MarkReady(journal: Journal, candidate: Candidate, staged: StepEvidence) returns (r: Result<Journal, Error>)
      requires Good() && Held(state.State(), journal) && journal.phase == Created && !AnyApplied(journal.effects)
      modifies state
      ensures Good() && state.active == old(state.active) && Observe(state.State()) == Observe(old(state.State()))
      ensures r.Success? ==>
        && Held(state.State(), r.value) && SameIdentity(journal, r.value)
        && r.value.phase == CandidateReady && !AnyApplied(r.value.effects)
      ensures state.stumbled <==> old(state.stumbled) || r.Failure?
      ensures old(state.Calm()) ==> state.Calm()
      ensures
        old(Smooth(journal, 1)) && Weight(staged.AsEvidence()) <= SHARE &&
        NoDuplicates(candidate.owned) && |candidate.owned| <= SHARE ==>
          r.Success? && Load(r.value) <= Load(journal) + SHARE
    {
      OwnedOnce(journal, candidate.owned);
      hide Good, Inv, NoDuplicates;
      var owned := NewOwned(journal.owned, candidate.owned);
      AppliedAppends(journal.effects, []);
      r := Advance(
        journal, CandidateReady, Evidence(staged.observations, [], owned, staged.retained, staged.recovery));
    }

    lemma OwnedOnce(journal: Journal, paths: seq<Path>)
      requires Good() && Held(state.State(), journal)
      ensures NoDuplicates(paths) ==>
        NoDuplicates(journal.owned + NewOwned(journal.owned, paths)) && |NewOwned(journal.owned, paths)| <= |paths|
    {
      if NoDuplicates(paths) {
        NewOwnedAddsNoDuplicate(journal.owned, paths);
      }
    }

    /** The previous host state must be observable before it is touched. */
    method ConfirmPrevious(journal0: Journal) returns (r: Result<(), Exception>, journal: Journal)
      requires Good() && Held(state.State(), journal0) && Untouched(state.State(), journal0)
      requires journal0.phase == CandidateReady && !AnyApplied(journal0.effects)
      modifies state
      ensures Good() && state.active == old(state.active) && Observe(state.State()) == Observe(old(state.State()))
      ensures old(state.stumbled) ==> state.stumbled
      ensures r.Failure? ==> Compensable(state.State(), journal0, journal, AsFailure(r.error))
      ensures r.Failure? ==> !AnyApplied(AsFailure(r.error).effects)
      ensures SameIdentity(journal0, journal) && !AnyApplied(journal.effects) && journal.phase == CandidateReady
      ensures r.Success? ==> Held(state.State(), journal) && ExactAt(script, journal0.id, ObservePrevious)
      ensures !state.stumbled && r.Failure? ==>
        && !ExactAt(script, journal0.id, ObservePrevious)
        && AsFailure(r.error).uncertain == Uncertain(script.step(journal0.id, ObservePrevious), true)
      ensures old(state.Calm()) ==> state.Calm()
      ensures old(Smooth(journal0, 1)) ==>
        && !state.stumbled && Held(state.State(), journal) && Load(journal) <= Load(journal0) + SHARE
        && (r.Failure? ==> SlimFailure(AsFailure(r.error)))
    {
      hide Good, Inv;
      journal := journal0;
      var answer := Ask(journal.id, ObservePrevious);
      if !answer.Returned? {
        return Failure(Raised(answer)), journal;
      }
      var observed := answer.value;
      if !observed.exact {
        return Failure(FromAdapter(Inexact(observed, true))), journal;
      }
      AppliedAppends(journal.effects, []);
      var noted := Advance(
        journal, CandidateReady, Evidence(observed.observations, [], [], observed.retained, observed.recovery));
      if noted.Failure? {
        return Failure(FromStore(noted.error)), journal;
      }
      return Success(()), noted.value;
    }

    /** One of the two provisioning steps, journaled even when it is not exact. */
    method ProvisionStep(journal0: Journal, kind: string, answer: Answer<StepEvidence>, started0: bool, first: bool)
      returns (r: Result<(), Exception>, journal: Journal, started: bool)
      requires Good() && Held(state.State(), journal0)
      requires journal0.phase in {CandidateReady, ProvisionalActivation}
      modifies state
      ensures old(state.stumbled) ==> state.stumbled
      ensures Good() && state.active == old(state.active) && Observe(state.State()) == Observe(old(state.State()))
      ensures r.Failure? ==> journal.phase != Created
      ensures r.Failure? ==> Compensable(state.State(), journal0, journal, AsFailure(r.error))
      ensures r.Success? ==>
        Held(state.State(), journal) && SameIdentity(journal0, journal) && journal.phase == ProvisionalActivation
      ensures r.Success? ==> started && Provisions(kind, answer)
      ensures !state.stumbled && r.Failure? ==> !Provisions(kind, answer)
      ensures !state.stumbled && r.Failure? ==>
        (started || AnyApplied(journal.effects) || AnyApplied(AsFailure(r.error).effects)
         <==> started0 || AnyApplied(journal0.effects) || TouchesHost(answer))
      ensures !state.stumbled && r.Failure? && !TouchesHost(answer) ==>
        AsFailure(r.error).uncertain == Uncertain(answer, true)
      ensures old(state.Calm()) ==> state.Calm()
      ensures old(Smooth(journal0, 1)) && SlimStep(answer) ==>
        && !state.stumbled && Held(state.State(), journal) && Load(journal) <= Load(journal0) + 1 * SHARE
        && (r.Failure? ==> SlimFailure(AsFailure(r.error)))
    {
      hide Good, Inv;
      journal, started := journal0, started0;
      if !answer.Returned? {
        r := Failure(Raised(answer));
        return;
      }
      var e := answer.value;
      if !ReportsApplied(kind, e.effects) {
        r := Failure(FromAdapter(AdapterFailure(e.observations, e.effects, e.retained, e.recovery, true)));
        return;
      }
      started := started || e.effects != [];
      var recorded := Advance(journal, ProvisionalActivation, e.AsEvidence());
      if recorded.Failure? {
        r := Failure(FromStore(recorded.error));
        return;
      }
      journal := recorded.value;
      if !e.exact {
        r := Failure(FromAdapter(Inexact(e, if first then e.effects == [] else !started)));
        return;
      }
      r := Success(());
    }

    /** Marketplace, plugin, host read-back. */
    method Provision(journal0: Journal, candidate: Candidate)
      returns (r: Result<(), Exception>, journal: Journal, started: bool)
      requires Good() && Held(state.State(), journal0) && journal0.phase == CandidateReady && !AnyApplied(journal0.effects)
      modifies state, this`readBacks
      ensures old(state.stumbled) ==> state.stumbled
      ensures Good() && state.active == old(state.active) && Observe(state.State()) == Observe(old(state.State()))
      ensures r.Failure? ==> journal.phase != Created
      ensures r.Failure? ==> Compensable(state.State(), journal0, journal, AsFailure(r.error))
      ensures r.Success? ==>
        && Held(state.State(), journal)
        && SameIdentity(journal0, journal)
        && journal.phase == HostReadBack
        && (candidate.releaseId, candidate.releasePath) in readBacks
      ensures r.Success? ==>
        started && Provisions("marketplace", script.marketplace) && Provisions("plugin", script.plugin)
      ensures r.Success? ==> ExactAt(script, journal0.id, ReadBackCandidate)
      ensures !state.stumbled && r.Failure? ==>
        !(Provisions("marketplace", script.marketplace)
          && Provisions("plugin", script.plugin)
          && ExactAt(script, journal0.id, ReadBackCandidate))
      ensures !state.stumbled && r.Failure? ==>
        (started || AnyApplied(journal.effects) || AnyApplied(AsFailure(r.error).effects)
         <==> Provisions("marketplace", script.marketplace) || TouchesHost(script.marketplace))
      ensures !state.stumbled && r.Failure? && !TouchesHost(script.marketplace) ==>
        AsFailure(r.error).uncertain == Uncertain(script.marketplace, true)
      ensures old(state.Calm()) ==> state.Calm()
      ensures old(Smooth(journal0, 3)) ==>
        && !state.stumbled && Held(state.State(), journal) && Load(journal) <= Load(journal0) + 3 * SHARE
        && (r.Failure? ==> SlimFailure(AsFailure(r.error)))
    {
      hide Good, Inv;
      r, journal, started := ProvisionStep(journal0, "marketplace", script.marketplace, false, true);
      if r.Failure? {
        return;
      }
      r, journal, started := ProvisionStep(journal, "plugin", script.plugin, started, false);
      if r.Failure? {
        return;
      }
      r, journal := ReadBackHost(journal, candidate);
    }

    /** What the host now runs must be the candidate. */
    method ReadBackHost(journal0: Journal, candidate: Candidate) returns (r: Result<(), Exception>, journal: Journal)
      requires Good() && Held(state.State(), journal0) && journal0.phase == ProvisionalActivation
      modifies state, this`readBacks
      ensures old(state.stumbled) ==> state.stumbled
      ensures Good() && state.active == old(state.active) && Observe(state.State()) == Observe(old(state.State()))
      ensures r.Failure? ==> Compensable(state.State(), journal0, journal, AsFailure(r.error)) && journal.phase != Created
      ensures r.Success? ==>
        && Held(state.State(), journal)
        && SameIdentity(journal0, journal)
        && journal.phase == HostReadBack
        && (candidate.releaseId, candidate.releasePath) in readBacks
      ensures r.Success? ==> ExactAt(script, journal0.id, ReadBackCandidate)
      ensures !state.stumbled && r.Failure? ==> !ExactAt(script, journal0.id, ReadBackCandidate)
      ensures old(state.Calm()) ==> state.Calm()
      ensures old(Smooth(journal0, 1)) ==>
        && !state.stumbled && Held(state.State(), journal) && Load(journal) <= Load(journal0) + SHARE
        && (r.Failure? ==> SlimFailure(AsFailure(r.error)))
    {
      hide Good, Inv;
      journal := journal0;
      var answer := AskReadBack(journal.id, ReadBackCandidate, candidate.releaseId, candidate.releasePath);
      if !answer.Returned? {
        r := Failure(Raised(answer));
        return;
      }
      var readBack := answer.value;
      if !readBack.exact {
        r := Failure(FromAdapter(Inexact(readBack, false)));
        return;
      }
      var noted := Advance(
        journal, HostReadBack, Evidence(readBack.observations, [], [], readBack.retained, readBack.recovery));
      if noted.Failure? {
        r := Failure(FromStore(noted.error));
        return;
      }
      journal := noted.value;
      r := Success(());
    }

    /** The compare-and-swap that selects the candidate. */
    method Activate(journal: Journal, candidate: Candidate, previous: Snapshot) returns (r: Result<Snapshot, Error>)
      requires Good() && Held(state.State(), journal) && Untouched(state.State(), journal)
      requires previous == Observe(state.State())
      requires AimsAt(journal, candidate)
      modifies state
      ensures Good() && Held(state.State(), journal)
      ensures r.Success? ==> r.value == Observe(state.State()) && IsTargetRecord(state.active, journal)
      ensures state.stumbled <==> old(state.stumbled) || r.Failure?
      ensures r.Success? ==> state.active == Some(Selected(candidate, previous, journal.id))
      ensures old(state.Calm()) ==> state.Calm()
      ensures old(state.Calm()) ==> r.Success?
    {
      ghost var before := state.State();
      assert JournalOk(before, journal.id);
      r := state.CompareAndSetActive(
        previous.Expectation(), candidate.releaseId, candidate.releasePath, candidate.receipt,
        DISPATCHER_PROTOCOL, journal.id);
      ActiveKeepsInv(before, state.State(), journal.id);
      forall id ensures VerdictOk(state.State(), verdicts, id) {
        assert VerdictOk(before, verdicts, id);
      }
    }

    /** Select the candidate, prove it publicly, commit. */
    method Commit(journal0: Journal, candidate: Candidate, previous: Snapshot)
      returns (r: Result<LifecycleResult, Exception>, journal: Journal, committed: bool)
      requires Good() && Held(state.State(), journal0) && Untouched(state.State(), journal0)
      requires journal0.phase == HostReadBack && previous == Observe(state.State())
      requires AimsAt(journal0, candidate)
      requires (candidate.releaseId, candidate.releasePath) in readBacks
      modifies state, this`proofs, this`verdicts
      ensures old(state.stumbled) ==> state.stumbled
      ensures Good()
      ensures r.Failure? ==> Compensable(state.State(), journal0, journal, AsFailure(r.error))
      ensures r.Failure? ==> journal.phase != Created
      ensures r.Failure? && committed ==> IsTargetRecord(state.active, journal)
      ensures r.Success? ==> Closed(state.State(), journal0.id, r.value) && r.value.outcome == Committed
      ensures r.Success? ==> state.active == Some(Selected(candidate, previous, journal0.id))
      ensures !state.stumbled ==> (r.Success? <==> ExactAt(script, journal0.id, ProofTarget)) && committed
      ensures old(state.Calm()) ==> state.Calm()
      ensures old(Smooth(journal0, 3)) ==>
        && !state.stumbled
        && (r.Failure? ==>
              && Held(state.State(), journal) && Load(journal) <= Load(journal0)
              && SlimFailure(AsFailure(r.error)))
    {
      hide Good, Inv;
      journal, committed := journal0, false;
      var commit := Activate(journal, candidate, previous);
      if commit.Failure? {
        r := Failure(FromStore(commit.error));
        return;
      }
      var selected := commit.value;
      committed := true;
      var step := Advance(journal, ActiveCommitted, NOTHING);
      if step.Failure? {
        r := Failure(FromStore(step.error));
        return;
      }
      journal := step.value;
      r, journal := ProveTarget(journal, selected);
    }

    /** Public proof of the selected record. */
    method ProveTarget(journal0: Journal, selected: Snapshot)
      returns (r: Result<LifecycleResult, Exception>, journal: Journal)
      requires Good() && Held(state.State(), journal0) && journal0.phase == ActiveCommitted
      requires selected == Observe(state.State()) && IsTargetRecord(selected.record, journal0)
      requires (selected.record.value.releaseId, selected.record.value.releasePath) in readBacks
      modifies state, this`proofs, this`verdicts
      ensures old(state.stumbled) ==> state.stumbled
      ensures Good() && state.active == old(state.active)
      ensures r.Failure? ==> Compensable(state.State(), journal0, journal, AsFailure(r.error)) && journal.phase != Created
      ensures r.Success? ==> Closed(state.State(), journal0.id, r.value) && r.value.outcome == Committed
      ensures !state.stumbled ==> (r.Success? <==> ExactAt(script, journal0.id, ProofTarget))
      ensures old(state.Calm()) ==> state.Calm()
      ensures old(Smooth(journal0, 3)) ==>
        && !state.stumbled
        && (r.Failure? ==>
              && Held(state.State(), journal) && Load(journal) <= Load(journal0)
              && SlimFailure(AsFailure(r.error)))
    {
      hide Good, Inv;
      journal := journal0;
      var answer := AskProof(journal.id, ProofTarget, selected.record);
      if !answer.Returned? {
        r := Failure(Raised(answer));
        return;
      }
      var proof := answer.value;
      if !proof.exact {
        r := Failure(FromAdapter(Inexact(proof, false)));
        return;
      }
      r, journal := Seal(journal, proof, selected);
    }

    /** The proof is exact: journal it, clean up, commit. */
    method Seal(journal0: Journal, proof: StepEvidence, selected: Snapshot)
      returns (r: Result<LifecycleResult, Exception>, journal: Journal)
      requires Good() && Held(state.State(), journal0) && journal0.phase == ActiveCommitted
      requires selected == Observe(state.State()) && IsTargetRecord(selected.record, journal0)
      requires Proof(selected.record, selected) in proofs
      requires (selected.record.value.releaseId, selected.record.value.releasePath) in readBacks
      modifies state, this`verdicts
      ensures Good() && state.active == old(state.active) && Observe(state.State()) == selected
      ensures r.Failure? ==> Compensable(state.State(), journal0, journal, AsFailure(r.error))
      ensures r.Failure? ==> journal.phase != Created
      ensures r.Success? ==> Closed(state.State(), journal0.id, r.value) && r.value.outcome == Committed
      ensures state.stumbled <==> old(state.stumbled) || r.Failure?
      ensures old(state.Calm()) ==> state.Calm()
      ensures old(Smooth(journal0, 3)) && Weight(proof.AsEvidence()) <= SHARE ==> r.Success?
    {
      hide Good, state.Calm;
      journal := journal0;
      var step := Advance(journal, PublicProof, Evidence(proof.observations, [], [], proof.retained, proof.recovery));
      if step.Failure? {
        r := Failure(FromStore(step.error));
        return;
      }
      journal := step.value;
      var cleanup := Tidy(journal, CleanupInactive);
      if cleanup.Failure? {
        r := Failure(FromStore(cleanup.error));
        return;
      }
      journal := cleanup.value.0;
      var done := Conclude(journal, Committed, [], []);
      if done.Failure? {
        r := Failure(FromStore(done.error));
        return;
      }
      r := Success(LifecycleResult(journal.id, Committed, selected, false));
    }

    /** The exception handler: journal the failure, then compensate what may have happened. */
    method Handle(journal0: Journal, failure: AdapterFailure, committed: bool, started: bool)
      returns (r: Result<LifecycleResult, Error>)
      requires Good() && Compensable(state.State(), journal0, journal0, failure)
      requires committed ==> IsTargetRecord(state.active, journal0)
      requires started ==> journal0.phase != Created
      requires committed || started || Untouched(state.State(), journal0)
      modifies state, this`proofs, this`readBacks, this`restored, this`verdicts
      ensures old(state.stumbled) ==> state.stumbled
      ensures Good()
      ensures r.Success? ==> Closed(state.State(), journal0.id, r.value)
      ensures !state.stumbled ==> r.Success?
      ensures !state.stumbled ==>
        r.value.outcome ==
        if committed || started || AnyApplied(journal0.effects) || AnyApplied(failure.effects) then
          RollbackOutcome(script, journal0.id)
        else
          FinishOutcome(script, journal0.id, failure.uncertain)
      ensures old(state.Calm()) ==> state.Calm()
      ensures old(Smooth(journal0, 5)) && SlimFailure(failure) ==> !state.stumbled
      ensures r.Success? ==> Leaves(state.active, journal0, r.value.outcome) && r.value.outcome != Committed
      ensures !state.stumbled && !committed && Untouched(old(state.State()), journal0) ==> state.active == old(state.active)
    {
      hide Good, Inv, state.Calm, Script.Light, Load, Weight;
      AppliedAppends(journal0.effects, failure.effects);
      var journal :- AppendFailure(journal0, failure);
      if Untouched(state.State(), journal) {
        Unaimed(journal);
      }
      var current := Look();
      if current.Failure? {
        if IsLifecycleStateError(current.error) {
          r := FinishPartial(journal);
          return;
        }
        return Failure(current.error);
      }
      if committed || IsTargetRecord(current.value.record, journal) {
        r := RollbackAfterActive(journal);
      } else if started || AnyApplied(journal.effects) {
        r := RollbackBeforeActive(journal);
      } else {
        r := FinishWithoutHostEffect(journal, failure, false);
      }
    }

    method Attempt(journal0: Journal, request: ActivationRequest, previous: Snapshot)
      returns (r: Result<LifecycleResult, Error>)
      requires Good() && Fresh(state.State(), journal0) && ForRequest(journal0, request)
      requires previous == Observe(state.State())
      modifies state, this`proofs, this`readBacks, this`restored, this`verdicts
      ensures old(state.stumbled) ==> state.stumbled
      ensures Good()
      ensures r.Success? ==> Closed(state.State(), journal0.id, r.value)
      ensures !state.stumbled ==> r.Success? && r.value.outcome == AttemptOutcome(script, request)
      ensures old(state.Calm()) ==> state.Calm()
      ensures old(Smooth(journal0, 10)) ==> !state.stumbled
      ensures r.Success? && r.value.outcome == RolledBack ==> SameAuthority(state.active, journal0.previous)
      ensures r.Success? && r.value.outcome == Committed ==>
        script.build.Returned? && state.active == Some(Selected(script.build.value, previous, journal0.id))
      ensures !state.stumbled && FirstHurdle(script, request).BeforeHost? ==> state.active == old(state.active)
    {
      hide Good, Inv, HostHurdle, RollbackOutcome, FinishOutcome, state.Calm, Script.Light, Load, Weight;
      var staged, journal := Stage(journal0, request);
      if staged.Failure? {
        r := Handle(journal, AsFailure(staged.error), false, false);
        return;
      }
      r := AttemptHost(journal, staged.value, previous);
    }

    /** From a staged candidate on: provision the host, select, prove, commit, or compensate. */
    method AttemptHost(journal0: Journal, candidate: Candidate, previous: Snapshot)
      returns (r: Result<LifecycleResult, Error>)
      requires Good() && Held(state.State(), journal0) && Untouched(state.State(), journal0)
      requires journal0.phase == CandidateReady && !AnyApplied(journal0.effects) && AimsAt(journal0, candidate)
      requires previous == Observe(state.State())
      modifies state, this`proofs, this`readBacks, this`restored, this`verdicts
      ensures old(state.stumbled) ==> state.stumbled
      ensures Good()
      ensures r.Success? ==> Closed(state.State(), journal0.id, r.value)
      ensures !state.stumbled ==>
        r.Success? && r.value.outcome == HurdleOutcome(script, journal0.id, HostHurdle(script, journal0.id))
      ensures old(state.Calm()) ==> state.Calm()
      ensures old(Smooth(journal0, 8)) ==> !state.stumbled
      ensures r.Success? && r.value.outcome == RolledBack ==> SameAuthority(state.active, journal0.previous)
      ensures r.Success? && r.value.outcome == Committed ==>
        state.active == Some(Selected(candidate, previous, journal0.id))
      ensures !state.stumbled && HostHurdle(script, journal0.id).BeforeHost? ==> state.active == old(state.active)
    {
      hide Good, Inv, Provisions, TouchesHost, ExactAt;
      hide RollbackOutcome, FinishOutcome, state.Calm, Script.Light, Load, Weight;
      var provisioned, journal, started := Provision(journal0, candidate);
      if provisioned.Failure? {
        r := Handle(journal, AsFailure(provisioned.error), false, started);
        return;
      }
      var result, journal', committed := Commit(journal, candidate, previous);
      if result.Failure? {
        r := Handle(journal', AsFailure(result.error), committed, started);
        return;
      }
      return Success(result.value);
    }

    // ----- one locked run -----

    method Pending() returns (r: Result<seq<Journal>, Error>)
      requires Good()
      modifies state
      ensures Good() && state.State() == old(state.State())
      ensures state.stumbled <==> old(state.stumbled) || r.Failure?
      ensures r.Success? ==> Enumerates(r.value, state.State())
      ensures old(state.Calm()) ==> state.Calm()
      ensures old(state.Calm()) && |state.journals| <= MAX_JOURNALS ==> r.Success?
    {
      r := state.NonTerminalTransactions();
    }

    method RequireNoNonTerminal(except: Option<Id>) returns (r: Result<(), Error>)
      requires Good()
      modifies state
      ensures Good() && state.State() == old(state.State())
      ensures state.stumbled <==> old(state.stumbled) || r.Failure?
      ensures r.Success? ==> forall id :: Open(state.State(), id) ==> Some(id) == except
      ensures old(state.Calm()) ==> state.Calm()
      ensures
        old(state.Calm()) && |state.journals| <= MAX_JOURNALS &&
        (forall id :: Open(state.State(), id) ==> Some(id) == except) ==>
          r.Success?
    {
      r := state.RequireNoNonTerminal(except);
    }

    lemma ForeignStays()
      requires Good()
      ensures Foreign(state.State(), ACTIVATIONS) == foreign
    {
    }

    lemma Shapes(pending: seq<Journal>)
      requires Good() && Enumerates(pending, state.State())
      ensures Keyed(state.journals) && |pending| <= 2
      ensures |pending| == 2 ==> Nested(pending[0], pending[1]) || Nested(pending[1], pending[0])
    {
      PendingShapes(state.State(), pending);
    }

    method Begin(journal: Journal) returns (r: Result<Journal, Error>)
      requires Good()
      requires IsActivation(journal.operation) && journal.target.Some? && journal.phase == Created
      requires journal.effects == []
      requires journal.expected == Observe(state.State()).Expectation() && journal.previous == state.active
      requires forall id :: Open(state.State(), id) ==> WaitingReinstall(state.journals[id])
      modifies state
      ensures Good() && Observe(state.State()) == Observe(old(state.State()))
      ensures r.Success? ==> r.value == journal && Fresh(state.State(), journal)
      ensures state.stumbled <==> old(state.stumbled) || r.Failure?
      ensures old(state.Calm()) ==> state.Calm()
      ensures
        old(state.Calm()) && |old(state.journals)| < MAX_JOURNALS && journal.id !in old(state.journals) &&
        WellFormed(journal) ==>
          r.Success?
      ensures r.Success? ==> journal.id !in old(state.journals)
    {
      hide Inv, Judged, Sealed, Fresh, WellFormed;
      ghost var before := state.State();
      r := state.CreateTransaction(journal);
      if state.State() != before {
        CreateKeepsGood(before, state.State(), journal, verdicts, sealed);
      }
    }

    /** What an undisturbed run of the request does, answer by answer: its outcome, and the authority it leaves. */
    twostate predicate Settled(new request: ActivationRequest, new r: Result<LifecycleResult, Error>)
      reads this, state
    {
      var was := old(state.active);
      !state.stumbled ==>
        && r.Success? && Deserved(script, request, was.Some?, r.value.outcome)
        && (r.value.outcome == RolledBack ==> BackTo(state.active, was))
        && (r.value.outcome == Committed && Reuses(script, request) ==> state.active == was)
        && (r.value.outcome == Committed && !Reuses(script, request) ==>
              && script.build.Returned?
              && state.active == Some(ActiveRecord(
                   old(Observe(state.State())).generation + 1, request.releaseId, request.releasePath,
                   script.build.value.receipt, DISPATCHER_PROTOCOL, request.transactionId)))
        && (!Attempts(script, request, was.Some?) || StopsBeforeHost(script, request) ==> state.active == was)
    }

    /** What an undisturbed recovery does, answer by answer. */
    twostate predicate Recovered(new journal: Journal, new r: Result<LifecycleResult, Error>)
      reads this, state
    {
      !state.stumbled ==>
        && r.Success? && RecoveryDeserved(script, old(state.active), journal, r.value.outcome)
        && (r.value.outcome == Committed ==> state.active == old(state.active))
        && (r.value.outcome == RolledBack ==> BackTo(state.active, journal.previous))
        && (!Selects(old(state.active), journal) ==> state.active == old(state.active))
    }

    /** What an undisturbed run does that finds this activation open, answer by answer. */
    twostate predicate Continued(
      new pending: Journal, new request: ActivationRequest, new r: Result<LifecycleResult, Error>)
      reads this, state
    {
      var stands := Selects(old(state.active), pending)
        && Exactly(script, pending.id, ResumeReadBack) && Exactly(script, pending.id, ResumeProof);
      !state.stumbled ==>
        && r.Success? && pending.id in state.journals && state.journals[pending.id].outcome.Some?
        && var outcome := state.journals[pending.id].outcome.value;
        && RecoveryDeserved(script, old(state.active), pending, outcome)
        && (outcome == Partial ==> r.value.outcome == Partial)
        && (outcome != Partial ==>
              Deserved(script, request, outcome == Committed || pending.previous.Some?, r.value.outcome))
        // a proven target stays in place, and the run starts from it
        && (stands ==> outcome == Committed && (r.value.outcome == RolledBack ==> BackTo(state.active, old(state.active))))
    }

    /** Open a transaction at the present observation, then decide, attempt, commit or compensate. */
    method RunLocked(request: ActivationRequest) returns (r: Result<LifecycleResult, Error>)
      requires Good() && IsActivation(request.operation)
      requires forall id :: Open(state.State(), id) ==> WaitingReinstall(state.journals[id])
      modifies state, this`proofs, this`readBacks, this`restored, this`verdicts, this`sealed
      ensures old(state.stumbled) ==> state.stumbled
      ensures Good()
      ensures r.Success? ==> Closed(state.State(), request.transactionId, r.value)
      ensures !state.stumbled ==> r.Success? && r.value.outcome == RunOutcome(script, request, old(state.active).Some?)
      ensures old(state.Calm()) ==> state.Calm()
      // Where no fault strikes and no answer exceeds its share, no store call raises.
      ensures
        old(state.Calm()) && !old(state.stumbled) && script.Light() &&
        |old(state.journals)| < MAX_JOURNALS && request.transactionId !in old(state.journals) ==>
          !state.stumbled
      ensures Settled(request, r)
      ensures r.Success? ==>
        var journal := state.journals[request.transactionId];
        && journal.operation == request.operation && journal.previous == old(state.active)
        && journal.target == Some(TargetRelease(request.releaseId, request.releasePath, request.envelope.archive))
      ensures r.Success? ==> request.transactionId !in old(state.journals)
      ensures forall id :: id in old(sealed) && id != request.transactionId ==> id in sealed && sealed[id] == old(sealed)[id]
    {
      hide Inv, Good, state.Calm, Script.Light, Load, RunOutcome, Deserved, Reuses, Attempts, StopsBeforeHost, BackTo;
      hide SameAuthority, Selected, Short, FirstHurdle;
      var started :- Start(request);
      var previous, journal := started.0, started.1;
      ghost var present := previous.Present();
      RunsDeserve(script, request, present);
      WhatRunsTurnOn(script, request, present);
      if RunOutcome(script, request, present) == Committed && !Reuses(script, request) {
        CommittedIsAsked(script, request, present, previous);
      }
      r := Decide(journal, request, previous);
      SameAuthorityIsBack(state.active, previous.record);
      StaysTheSame(request.transactionId);
    }

    /** The authority as it is, and a journal opened over it. */
    method Start(request: ActivationRequest) returns (r: Result<(Snapshot, Journal), Error>)
      requires Good() && IsActivation(request.operation)
      requires forall id :: Open(state.State(), id) ==> WaitingReinstall(state.journals[id])
      modifies state, this`sealed
      ensures Good() && state.active == old(state.active) && Observe(state.State()) == Observe(old(state.State()))
      ensures state.stumbled <==> old(state.stumbled) || r.Failure?
      ensures r.Success? ==>
        && r.value.0 == Observe(state.State()) && Fresh(state.State(), r.value.1) && ForRequest(r.value.1, request)
        && request.transactionId !in old(state.journals)
        && sealed == old(sealed)[request.transactionId := r.value.1]
        && r.value.1.previous == old(state.active)
        && r.value.1.target ==
           Some(TargetRelease(request.releaseId, request.releasePath, request.envelope.archive))
      ensures r.Failure? ==> sealed == old(sealed)
      ensures old(state.Calm()) ==> state.Calm()
      ensures
        old(state.Calm()) && !old(state.stumbled) && script.Light() &&
        |old(state.journals)| < MAX_JOURNALS && request.transactionId !in old(state.journals) ==>
          r.Success? && Smooth(r.value.1, 13)
    {
      hide Inv, Good, state.Calm, Script.Light;
      var previous :- Look();
      var journal :- Begin(Journal(
        request.transactionId, request.operation, previous.Expectation(),
        Some(TargetRelease(request.releaseId, request.releasePath, request.envelope.archive)),
        previous.record, [], [], [request.releasePath], Created, None, [], []));
      Note(request.transactionId);
      return Success((previous, journal));
    }

    /** Refuse, reuse, classify, or attempt. */
    method Decide(journal0: Journal, request: ActivationRequest, previous: Snapshot)
      returns (r: Result<LifecycleResult, Error>)
      requires Good() && Fresh(state.State(), journal0) && ForRequest(journal0, request)
      requires IsActivation(request.operation) && previous == Observe(state.State())
      modifies state, this`proofs, this`readBacks, this`restored, this`verdicts
      ensures old(state.stumbled) ==> state.stumbled
      ensures Good()
      ensures r.Success? ==> Closed(state.State(), request.transactionId, r.value)
      ensures !state.stumbled ==>
        r.Success? && r.value.outcome == RunOutcome(script, request, previous.Present())
      ensures old(state.Calm()) ==> state.Calm()
      ensures old(Smooth(journal0, 13)) ==> !state.stumbled
      ensures r.Success? && r.value.outcome == RolledBack ==> SameAuthority(state.active, previous.record)
      ensures !state.stumbled && r.value.outcome == Committed && !Short(script, request, previous.Present()) ==>
        script.build.Returned? && state.active == Some(Selected(script.build.value, previous, request.transactionId))
      ensures
        !state.stumbled && (Short(script, request, previous.Present()) || FirstHurdle(script, request).BeforeHost?) ==>
          state.active == previous.record
    {
      hide Good, Inv, state.Calm, Script.Light, Load, Weight, AttemptOutcome, RepairAnswer, ExactPredecessor, FirstHurdle;
      Unaimed(journal0);
      var journal := journal0;
      var refused :- Precondition(journal, request, previous);
      if refused.Some? {
        return Success(refused.value);
      }
      if request.operation == Repair {
        var repaired :- RepairDecision(journal, request, previous);
        if repaired.Some? {
          return Success(repaired.value);
        }
        journal :- Reread(request.transactionId);
      }
      if request.operation == Migration {
        var classified :- ClassifyMigration(journal, request, previous);
        if classified.Some? {
          return Success(classified.value);
        }
        journal :- Reread(request.transactionId);
      }
      Unaimed(journal);
      r := Attempt(journal, request, previous);
    }

    method Reread(id: Id) returns (r: Result<Journal, Error>)
      requires Good()
      modifies state
      ensures Good() && state.State() == old(state.State())
      ensures r.Success? ==> id in state.journals && r.value == state.journals[id]
      ensures state.stumbled <==> old(state.stumbled) || r.Failure?
      ensures old(state.Calm()) ==> state.Calm()
      ensures old(state.Calm()) && id in state.journals ==> r.Success?
    {
      r := state.ReadTransaction(id);
    }

    /**
     `LifecycleMachine.run` under the lock: recover what an earlier run left
     open, then run the request.  Another driver's journal stops it.
     */
    method Run(request: ActivationRequest) returns (r: Result<LifecycleResult, Error>)
      requires Good() && IsActivation(request.operation)
      modifies state, this`proofs, this`readBacks, this`restored, this`verdicts, this`sealed
      ensures old(state.stumbled) ==> state.stumbled
      ensures Good()
      // Another driver's open journal is preserved and stops the run.
      ensures (exists id :: Open(old(state.State()), id) && !IsActivation(old(state.journals)[id].operation)) ==>
        r.Failure? && state.State() == old(state.State())
      // Nothing is open: the request runs.
      ensures !state.stumbled && (forall id :: !Open(old(state.State()), id)) ==>
        && r.Success?
        && Closed(state.State(), request.transactionId, r.value)
        && r.value.outcome == RunOutcome(script, request, old(state.active).Some?)
      // An activation is open: it is recovered, and unless that ends partial the request runs over what it leaves.
      ensures
        forall id ::
          !state.stumbled && OnlyActivation(old(state.State()), id) ==>
            var journal := old(state.journals)[id];
            && r.Success?
            && r.value.outcome == ResumedOutcome(script, request, old(state.active), journal)
            && Closed(state.State(), ResumedId(script, request, old(state.active), journal), r.value)
      // Where no fault strikes, no answer exceeds its share and the open journal has room, no store call raises.
      ensures
        && old(state.Calm()) && !old(state.stumbled) && script.Light()
        && |old(state.journals)| < MAX_JOURNALS && request.transactionId !in old(state.journals)
        && (forall id :: Open(old(state.State()), id) ==>
              IsActivation(old(state.journals)[id].operation)
              && Load(old(state.journals)[id]) + 7 * SHARE <= MAX_COLLECTION_ITEMS) ==>
          !state.stumbled
      // The same, answer by answer.
      ensures (forall id :: !Open(old(state.State()), id)) ==> Settled(request, r)
      ensures forall id :: OnlyActivation(old(state.State()), id) ==> Continued(old(state.journals)[id], request, r)
    {
      hide Good, Inv, RunOutcome, ResumedOutcome, ResumedId, Closed;
      var pending :- Sole();
      if pending.Some? {
        r := RecoverThenRun(pending.value, request);
        return;
      }
      var _ :- RequireNoNonTerminal(None);
      r := RunLocked(request);
    }

    /** Note a journal as it is now. */
    ghost method Note(id: Id)
      requires Good() && id in state.journals
      modifies this`sealed
      ensures Good() && sealed == old(sealed)[id := state.journals[id]]
    {
      hide Inv, Judged;
      sealed := sealed[id := state.journals[id]];
    }

    lemma StaysTheSame(id: Id)
      requires Good() && id in sealed
      ensures
        && id in state.journals && state.journals[id].operation == sealed[id].operation
        && state.journals[id].target == sealed[id].target && state.journals[id].previous == sealed[id].previous
      ensures sealed[id].outcome.Some? ==> state.journals[id] == sealed[id]
    {
    }

    /** The one activation that may be open; another driver's open journal is an error. */
    method Sole() returns (r: Result<Option<Journal>, Error>)
      requires Good()
      modifies state
      ensures Good() && state.State() == old(state.State())
      ensures old(state.stumbled) ==> state.stumbled
      ensures (exists id :: Open(state.State(), id) && !IsActivation(state.journals[id].operation)) ==> r.Failure?
      ensures r.Success? && r.value.None? ==> forall id :: !Open(state.State(), id)
      ensures r.Success? && r.value.Some? ==>
        Held(state.State(), r.value.value) && OnlyActivation(state.State(), r.value.value.id)
      ensures r.Failure? ==>
        state.stumbled || exists id :: Open(state.State(), id) && !IsActivation(state.journals[id].operation)
      ensures old(state.Calm()) ==> state.Calm()
      ensures
        old(state.Calm()) && |state.journals| <= MAX_JOURNALS &&
        (forall id :: Open(state.State(), id) ==> IsActivation(state.journals[id].operation)) ==>
          r.Success? && (state.stumbled <==> old(state.stumbled))
    {
      hide Inv, state.Calm;
      var pending :- Pending();
      hide Good;
      Shapes(pending);
      if exists i :: 0 <= i < |pending| && !IsActivation(pending[i].operation) {
        var refused := RequireNoNonTerminal(None);
        return Failure(refused.error);
      }
      if |pending| > 1 {
        // "multiple non-terminal journals are ambiguous"
        assert false;
      }
      return Success(if |pending| == 1 then Some(pending[0]) else None);
    }

    method RecoverThenRun(pending: Journal, request: ActivationRequest) returns (r: Result<LifecycleResult, Error>)
      requires Good() && Held(state.State(), pending) && IsActivation(request.operation)
      modifies state, this`proofs, this`readBacks, this`restored, this`verdicts, this`sealed
      ensures old(state.stumbled) ==> state.stumbled
      ensures Good()
      ensures !state.stumbled ==>
        && r.Success?
        && r.value.outcome == ResumedOutcome(script, request, old(state.active), pending)
        && Closed(state.State(), ResumedId(script, request, old(state.active), pending), r.value)
      ensures
        old(Smooth(pending, 7)) && OnlyActivation(old(state.State()), pending.id) &&
        |old(state.journals)| < MAX_JOURNALS && request.transactionId !in old(state.journals) ==>
          !state.stumbled
      ensures Continued(pending, request, r)
    {
      hide Good, Inv, RunOutcome, RecoveryOutcome, Deserved, BackTo, Load, Script.Light, state.Calm;
      ghost var before := state.State();
      var recovered :- RecoverOne(pending);
      Note(pending.id);
      if recovered.outcome == Partial {
        return Success(recovered);
      }
      if OnlyActivation(before, pending.id) {
        NothingElseIsOpen(before, state.State(), pending.id);
      }
      var _ :- RequireNoNonTerminal(None);
      r := RunLocked(request);
      if r.Success? {
        StaysTheSame(pending.id);
      }
    }
  }
}
