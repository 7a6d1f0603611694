/**
 `run_locked_auto` of scripts/release_lifecycle.py: the bootstrap's own choice
 of operation, which may run beside the one reinstall journal that launched it.
 */
module ReleaseLifecycle {
  import opened Wrappers
  import opened LifecycleRecords
  import opened LifecycleState
  import opened LifecycleProtocol
  import opened Activation
  import opened LifecycleMachine

  /** What the installed product looks like from outside the lifecycle records. */
  datatype Surroundings = Surroundings(
    activeVersion: Option<string>,
    productPresent: Answer<bool>)

  datatype Index = Index(version: string, envelope: Envelope)

  /** `_operation`. */
  function ChooseOperation(active: bool, around: Surroundings, index: Index): Operation {
    if active then
      if around.activeVersion.None? || around.activeVersion.value == index.version then Repair else Upgrade
    else
      match around.productPresent
      case Returned(present) => if present then Migration else Install
      case _ => Migration
  }

  /** The chosen operation always fits the presence of an active authority. */
  lemma ChosenOperationFits(active: bool, around: Surroundings, index: Index)
    ensures IsActivation(ChooseOperation(active, around, index))
    ensures !Misfit(ChooseOperation(active, around, index), active)
  {
  }

  /** The operation that each observation calls for. */
  predicate CalledFor(active: bool, around: Surroundings, index: Index, operation: Operation) {
    && (active && (around.activeVersion == None || around.activeVersion == Some(index.version)) ==> operation == Repair)
    && (active && around.activeVersion.Some? && around.activeVersion.value != index.version ==> operation == Upgrade)
    && (!active && around.productPresent == Returned(false) ==> operation == Install)
    && (!active && around.productPresent != Returned(false) ==> operation == Migration)
  }

  lemma ChosenIsCalledFor(active: bool, around: Surroundings, index: Index)
    ensures CalledFor(active, around, index, ChooseOperation(active, around, index))
  {
  }

  /** The journal that the run opened is of the operation called for. */
  predicate Opened(d: Durable, transactionId: Id, active: bool, around: Surroundings, index: Index) {
    transactionId in d.journals && CalledFor(active, around, index, d.journals[transactionId].operation)
  }

  /** `_request`. */
  function RequestFor(operation: Operation, transactionId: Id, index: Index): ActivationRequest {
    var releaseId := "v" + index.version + "-" + index.envelope.manifest + "-" + transactionId;
    ActivationRequest(operation, transactionId, index.version, releaseId, "releases/" + releaseId, index.envelope)
  }

  /** Every transaction's release has a place of its own, and is what the index describes. */
  lemma ReleasesAreNamedApart(operation: Operation, transactionId: Id, other: Id, index: Index)
    ensures
      var request := RequestFor(operation, transactionId, index);
      && request.version == index.version && request.envelope == index.envelope
      && request.operation == operation && request.transactionId == transactionId
      && (transactionId != other ==>
            && request.releaseId != RequestFor(operation, other, index).releaseId
            && request.releasePath != RequestFor(operation, other, index).releasePath)
  {
    var prefix := "v" + index.version + "-" + index.envelope.manifest + "-";
    assert (prefix + transactionId)[|prefix|..] == transactionId && (prefix + other)[|prefix|..] == other;
    var path := "releases/";
    assert forall id: Id :: (path + (prefix + id))[|path|..] == prefix + id;
  }

  /** A journal that another driver must resume. */
  ghost predicate Blocks(d: Durable, id: Id, authorized: Option<Id>) {
    Open(d, id) && Some(id) != authorized && !IsActivation(d.journals[id].operation)
  }

  ghost predicate Authorizes(d: Durable, id: Id) {
    Open(d, id) && WaitingReinstall(d.journals[id])
  }

  /** Nothing of another driver's is open, except the waiting reinstall that authorized the run. */
  ghost predicate MayRun(d: Durable, authorized: Option<Id>) {
    && (authorized.Some? ==> Authorizes(d, authorized.value))
    && forall id :: !Blocks(d, id, authorized)
  }

  function Reinstalls(pending: seq<Journal>): seq<Journal> {
    if pending == [] then []
    else (if pending[0].operation == Reinstall then [pending[0]] else []) + Reinstalls(pending[1..])
  }

  function Except(pending: seq<Journal>, id: Option<Id>): seq<Journal> {
    if pending == [] then []
    else (if Some(pending[0].id) != id then [pending[0]] else []) + Except(pending[1..], id)
  }

  /** Which of the open journals this run must recover, or why it must not run. */
  function Gate(pending: seq<Journal>, authorized: Option<Id>): Result<seq<Journal>, Error> {
    var reinstalls := Reinstalls(pending);
    if authorized.None? && reinstalls != [] then
      Failure(UnresolvedTransactionError)
    else if
      && authorized.Some?
      && (|reinstalls| != 1 || reinstalls[0].id != authorized.value || reinstalls[0].phase != RemovingData)
    then
      Failure(ReleaseLifecycleError)
    else
      var mine := Except(pending, authorized);
      if forall i :: 0 <= i < |mine| ==> IsActivation(mine[i].operation) then Success(mine)
      else Failure(UnresolvedTransactionError)
  }

  /** The filters over at most two journals, written out. */
  lemma FiltersOfPair(p: Journal, q: Journal, id: Option<Id>)
    ensures Reinstalls([p]) == if p.operation == Reinstall then [p] else []
    ensures Except([p], id) == if Some(p.id) != id then [p] else []
    ensures Reinstalls([p, q]) == Reinstalls([p]) + Reinstalls([q])
    ensures Except([p, q], id) == Except([p], id) + Except([q], id)
  {
    assert [p][1..] == [] && [q][1..] == [] && [p, q][1..] == [q];
  }

  /** The gate opens exactly when the run is allowed, and then at most one activation is left to recover. */
  lemma GateIsExact(d: Durable, pending: seq<Journal>, authorized: Option<Id>)
    requires Keyed(d.journals) && Enumerates(pending, d) && |pending| <= 2
    requires |pending| == 2 ==> Nested(pending[0], pending[1]) || Nested(pending[1], pending[0])
    ensures Gate(pending, authorized).Success? <==> MayRun(d, authorized)
    ensures Gate(pending, authorized).Success? ==>
      && |Gate(pending, authorized).value| <= 1
      && (forall j :: j in Gate(pending, authorized).value ==> Held(d, j) && Some(j.id) != authorized)
      && (forall id :: Open(d, id) && Some(id) != authorized ==> d.journals[id] in Gate(pending, authorized).value)
      && ((forall id :: Open(d, id) ==> Some(id) == authorized) ==> Gate(pending, authorized).value == [])
  {
    hide Gate, MayRun, Nested;
    forall id | Open(d, id) ensures exists i :: 0 <= i < |pending| && pending[i].id == id {
      assert d.journals[id] in pending;
    }
    if |pending| == 0 {
      GateOfNone(d, authorized);
    } else if |pending| == 1 {
      GateOfOne(d, pending[0], authorized);
      assert pending == [pending[0]];
    } else {
      GateOfTwo(d, pending[0], pending[1], authorized);
      assert pending == [pending[0], pending[1]];
    }
  }

  lemma GateOfNone(d: Durable, authorized: Option<Id>)
    requires forall id :: !Open(d, id)
    ensures Gate([], authorized).Success? <==> MayRun(d, authorized)
    ensures Gate([], authorized).Success? ==> Gate([], authorized).value == []
  {
  }

  lemma GateOfOne(d: Durable, p: Journal, authorized: Option<Id>)
    requires Open(d, p.id) && d.journals[p.id] == p && forall id :: Open(d, id) ==> id == p.id
    ensures Gate([p], authorized).Success? <==> MayRun(d, authorized)
    ensures Gate([p], authorized).Success? ==>
      && |Gate([p], authorized).value| <= 1
      && (forall j :: j in Gate([p], authorized).value ==> Held(d, j) && Some(j.id) != authorized)
      && (authorized == Some(p.id) ==> Gate([p], authorized).value == [])
      && (authorized != Some(p.id) ==> p in Gate([p], authorized).value)
  {
    FiltersOfPair(p, p, authorized);
    assert Blocks(d, p.id, authorized) <==> Some(p.id) != authorized && !IsActivation(p.operation);
    assert Except([p], authorized) != [] ==> Except([p], authorized)[0] == p;
    if MayRun(d, authorized) {
      assert !Blocks(d, p.id, authorized);
    }
  }

  lemma GateOfTwo(d: Durable, p: Journal, q: Journal, authorized: Option<Id>)
    requires Open(d, p.id) && d.journals[p.id] == p && Open(d, q.id) && d.journals[q.id] == q && p.id != q.id
    requires forall id :: Open(d, id) ==> id == p.id || id == q.id
    requires Nested(p, q) || Nested(q, p)
    ensures Gate([p, q], authorized).Success? <==> MayRun(d, authorized)
    ensures Gate([p, q], authorized).Success? ==>
      && |Gate([p, q], authorized).value| == 1
      && Held(d, Gate([p, q], authorized).value[0]) && Some(Gate([p, q], authorized).value[0].id) != authorized
      && (authorized != Some(p.id) ==> p in Gate([p, q], authorized).value)
      && (authorized != Some(q.id) ==> q in Gate([p, q], authorized).value)
  {
    FiltersOfPair(p, q, authorized);
    FiltersOfPair(q, p, authorized);
    assert Blocks(d, p.id, authorized) <==> Some(p.id) != authorized && !IsActivation(p.operation);
    assert Blocks(d, q.id, authorized) <==> Some(q.id) != authorized && !IsActivation(q.operation);
    if MayRun(d, authorized) {
      assert !Blocks(d, p.id, authorized) && !Blocks(d, q.id, authorized);
    }
  }

  /** The activation to recover first, if any; a failure unless this run is allowed. */
  method Admit(machine: LifecycleMachine, authorized: Option<Id>) returns (r: Result<seq<Journal>, Error>)
    requires machine.Good()
    modifies machine.state
    ensures machine.Good() && machine.state.State() == old(machine.state.State())
    ensures old(machine.state.stumbled) ==> machine.state.stumbled
    ensures r.Success? ==> MayRun(machine.state.State(), authorized) && |r.value| <= 1
    ensures r.Success? ==> forall j :: j in r.value ==> Held(machine.state.State(), j) && Some(j.id) != authorized
    ensures r.Success? ==> forall id :: Open(machine.state.State(), id) && Some(id) != authorized ==>
      machine.state.journals[id] in r.value
    ensures !machine.state.stumbled ==> (r.Success? <==> MayRun(machine.state.State(), authorized))
  {
    hide Inv, Gate;
    var pending :- machine.Pending();
    hide machine.Good;
    machine.Shapes(pending);
    GateIsExact(machine.state.State(), pending, authorized);
    r := Gate(pending, authorized);
  }

  /** The bootstrap under the installation lock. */
  method RunLockedAuto(
    machine: LifecycleMachine,
    authorized: Option<Id>,
    around: Surroundings,
    index: Index,
    transactionId: Id)
    returns (r: Result<LifecycleResult, Error>)
    requires machine.Good()
    modifies machine.state, machine`proofs, machine`readBacks, machine`restored, machine`verdicts, machine`sealed
    ensures machine.Good()
    ensures old(machine.state.stumbled) ==> machine.state.stumbled
    // Another driver's open journal is preserved and stops the run, unless it authorized it.
    ensures !MayRun(old(machine.state.State()), authorized) ==>
      r.Failure? && machine.state.State() == old(machine.state.State())
    ensures
      !machine.state.stumbled && MayRun(old(machine.state.State()), authorized) &&
      (forall id :: Open(old(machine.state.State()), id) ==> Some(id) == authorized) ==>
        && r.Success?
        && Closed(machine.state.State(), transactionId, r.value)
        && r.value.outcome == AutoOutcome(machine.script, old(machine.state.active).Some?, around, index, transactionId)
        && Opened(machine.state.State(), transactionId, old(machine.state.active).Some?, around, index)
    // An activation is open: it is recovered, and unless that ends partial the chosen operation runs over what it leaves.
    ensures
      forall id ::
        !machine.state.stumbled && MayRun(old(machine.state.State()), authorized) &&
        Open(old(machine.state.State()), id) && Some(id) != authorized ==>
          var journal := old(machine.state.journals)[id];
          && r.Success?
          && r.value.outcome ==
             ResumedAuto(machine.script, old(machine.state.active), journal, around, index, transactionId)
          && Closed(
               machine.state.State(),
               ResumedAutoId(machine.script, old(machine.state.active), journal, transactionId), r.value)
          && (RecoveryOutcome(machine.script, old(machine.state.active), journal) != Partial ==>
                Opened(
                  machine.state.State(), transactionId,
                  PresentAfter(machine.script, old(machine.state.active), journal), around, index))
    ensures
      forall id ::
        MayRun(old(machine.state.State()), authorized) &&
        Open(old(machine.state.State()), id) && Some(id) != authorized ==>
          RecoversFirst(machine, old(machine.state.journals)[id], transactionId, r)
  {
    hide machine.Good, Inv, AutoOutcome, ResumedAuto, ResumedAutoId, Closed, Opened, RecoveryOutcome, PresentAfter;
    var mine :- Admit(machine, authorized);
    r := RecoverThenRun(machine, mine, authorized, around, index, transactionId);
  }

  function AutoOutcome(
    script: Script, active: bool, around: Surroundings, index: Index, transactionId: Id): Outcome
  {
    RunOutcome(script, RequestFor(ChooseOperation(active, around, index), transactionId, index), active)
  }

  /** What becomes of a bootstrap that finds this activation open. */
  function ResumedAuto(
    script: Script, active: Option<ActiveRecord>, journal: Journal, around: Surroundings, index: Index,
    transactionId: Id): Outcome
  {
    if RecoveryOutcome(script, active, journal) == Partial then Partial
    else AutoOutcome(script, PresentAfter(script, active, journal), around, index, transactionId)
  }

  function ResumedAutoId(script: Script, active: Option<ActiveRecord>, journal: Journal, transactionId: Id): Id {
    if RecoveryOutcome(script, active, journal) == Partial then journal.id else transactionId
  }

  /** An undisturbed recovery ends as its answers deserve; a partial one ends the bootstrap, and opens no journal. */
  twostate predicate RecoversFirst(
    machine: LifecycleMachine, new pending: Journal, new transactionId: Id, new r: Result<LifecycleResult, Error>)
    reads machine, machine.state
  {
    !machine.state.stumbled ==>
      && r.Success? && pending.id in machine.state.journals && machine.state.journals[pending.id].outcome.Some?
      && var outcome := machine.state.journals[pending.id].outcome.value;
      && RecoveryDeserved(machine.script, old(machine.state.active), pending, outcome)
      && (outcome == Partial ==>
            && r.value.outcome == Partial && r.value.transactionId == pending.id
            && machine.state.journals.Keys == old(machine.state.journals).Keys)
  }

  /** Recover one interrupted activation, and note its closed journal. */
  method Recover(machine: LifecycleMachine, pending: Journal) returns (r: Result<LifecycleResult, Error>)
    requires machine.Good() && Held(machine.state.State(), pending)
    modifies machine.state, machine`proofs, machine`readBacks, machine`restored, machine`verdicts, machine`sealed
    ensures machine.Good()
    ensures old(machine.state.stumbled) ==> machine.state.stumbled
    ensures r.Success? ==>
      && Closed(machine.state.State(), pending.id, r.value)
      && Leaves(machine.state.active, pending, r.value.outcome)
      && pending.id in machine.sealed && machine.sealed[pending.id] == machine.state.journals[pending.id]
    ensures !machine.state.stumbled ==>
      r.Success? && r.value.outcome == RecoveryOutcome(machine.script, old(machine.state.active), pending)
      && RecoveryDeserved(machine.script, old(machine.state.active), pending, r.value.outcome)
    ensures WritesOnly(old(machine.state.State()), machine.state.State(), pending.id)
    ensures r.Success? && r.value.outcome == Committed ==> machine.state.active == old(machine.state.active)
    ensures machine.state.journals.Keys == old(machine.state.journals).Keys
  {
    hide machine.Good, Inv, RecoveryOutcome, RecoveryDeserved, BackTo, Leaves;
    var recovered :- machine.RecoverOne(pending);
    machine.Note(pending.id);
    return Success(recovered);
  }

  method RecoverThenRun(
    machine: LifecycleMachine,
    mine: seq<Journal>,
    authorized: Option<Id>,
    around: Surroundings,
    index: Index,
    transactionId: Id)
    returns (r: Result<LifecycleResult, Error>)
    requires machine.Good() && |mine| <= 1
    requires |mine| == 1 ==> Held(machine.state.State(), mine[0])
    requires authorized.Some? ==> Authorizes(machine.state.State(), authorized.value)
    modifies machine.state, machine`proofs, machine`readBacks, machine`restored, machine`verdicts, machine`sealed
    ensures machine.Good()
    ensures old(machine.state.stumbled) ==> machine.state.stumbled
    ensures
      !machine.state.stumbled && mine == [] ==>
        && r.Success?
        && Closed(machine.state.State(), transactionId, r.value)
        && r.value.outcome == AutoOutcome(machine.script, old(machine.state.active).Some?, around, index, transactionId)
        && Opened(machine.state.State(), transactionId, old(machine.state.active).Some?, around, index)
    ensures
      !machine.state.stumbled && |mine| == 1 ==>
        && r.Success?
        && r.value.outcome ==
           ResumedAuto(machine.script, old(machine.state.active), mine[0], around, index, transactionId)
        && Closed(
             machine.state.State(),
             ResumedAutoId(machine.script, old(machine.state.active), mine[0], transactionId), r.value)
        && (RecoveryOutcome(machine.script, old(machine.state.active), mine[0]) != Partial ==>
              Opened(
                machine.state.State(), transactionId,
                PresentAfter(machine.script, old(machine.state.active), mine[0]), around, index))
    // The same, answer by answer: what recovery deserves, and nothing more if that is partial.
    ensures |mine| == 1 ==> RecoversFirst(machine, mine[0], transactionId, r)
  {
    hide machine.Good, Inv, AutoOutcome, Opened, RecoveryOutcome, RecoveryDeserved, BackTo;
    ghost var before := machine.state.State();
    machine.ForeignStays();
    if |mine| == 1 {
      var recovered :- Recover(machine, mine[0]);
      if recovered.outcome == Partial {
        return Success(recovered);
      }
    }
    var stop := machine.RequireNoNonTerminal(authorized);
    if stop.Failure? {
      return Failure(stop.error);
    }
    machine.ForeignStays();
    if authorized.Some? {
      assert authorized.value in Foreign(before, ACTIVATIONS);
    }
    r := RunChosen(machine, around, index, transactionId);
    if |mine| == 1 && r.Success? {
      machine.StaysTheSame(mine[0].id);
    }
  }

  /** Choose the operation that the present authority calls for, and run it. */
  method RunChosen(
    machine: LifecycleMachine, around: Surroundings, index: Index, transactionId: Id)
    returns (r: Result<LifecycleResult, Error>)
    requires machine.Good()
    requires forall id :: Open(machine.state.State(), id) ==> WaitingReinstall(machine.state.journals[id])
    modifies machine.state, machine`proofs, machine`readBacks, machine`restored, machine`verdicts, machine`sealed
    ensures machine.Good()
    ensures old(machine.state.stumbled) ==> machine.state.stumbled
    ensures
      !machine.state.stumbled ==>
        && r.Success?
        && Closed(machine.state.State(), transactionId, r.value)
        && r.value.outcome == AutoOutcome(machine.script, old(machine.state.active).Some?, around, index, transactionId)
        && Opened(machine.state.State(), transactionId, old(machine.state.active).Some?, around, index)
    ensures r.Success? ==> transactionId !in old(machine.state.journals)
    ensures
      forall id :: id in old(machine.sealed) && id != transactionId ==>
        id in machine.sealed && machine.sealed[id] == old(machine.sealed)[id]
  {
    hide machine.Good, machine.Settled, Inv, ChooseOperation, RunOutcome, CalledFor;
    var active :- machine.Look();
    var operation := ChooseOperation(active.record.Some?, around, index);
    ChosenOperationFits(active.record.Some?, around, index);
    ChosenIsCalledFor(active.record.Some?, around, index);
    r := machine.RunLocked(RequestFor(operation, transactionId, index));
  }
}
