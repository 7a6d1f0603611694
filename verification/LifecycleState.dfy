/**
 The locked authority of scripts/lifecycle_state.py: compare-and-swap on the
 active record, the generation watermark, and append-only journals.

 Each durable write is one step.  A fault script decides for every access
 whether it works, raises (before or after taking effect) or crashes the
 process (before or after taking effect).  After a crash the store is down and
 nothing more becomes durable, so a contract that holds on every return holds
 at every crash point.
 */
module LifecycleState {
  import opened Wrappers
  import opened LifecycleRecords

  datatype Error =
    | SchemaError
    | ResourceLimitError
    | CasMismatchError
    | TransitionError
    | UnresolvedTransactionError
    | ReleaseLifecycleError
    | ReleaseCommandError
    | TypeError
    | OSError
    | Crashed

  predicate IsLifecycleStateError(error: Error) {
    error in {SchemaError, ResourceLimitError, CasMismatchError, TransitionError, UnresolvedTransactionError}
  }

  datatype Fault =
    | Fine
    | Raise(applied: bool, error: Error)
    | Crash(applied: bool)

  ghost predicate Keyed(journals: map<Id, Journal>) {
    forall id :: id in journals ==> journals[id].id == id && WellFormed(journals[id])
  }

  class LifecycleState {
    var watermark: nat
    var active: Option<ActiveRecord>
    var journals: map<Id, Journal>
    var down: bool
    var clock: nat
    var faults: nat -> Fault
    /** Set when a driver ever asks for a transition outside the phase graph. */
    ghost var illegalPhase: bool
    /** Set when any call on the store raises. */
    ghost var stumbled: bool
    /** Every durable state so far: a crash leaves behind one of these, the last. */
    ghost var history: seq<Durable>

    ghost function State(): Durable
      reads this
    {
      Durable(watermark, active, journals)
    }

    ghost predicate Valid()
      reads this
    {
      && Keyed(journals)
      && history != []
      && history[0] == EMPTY
      && history[|history| - 1] == State()
      && IsHistory(history)
    }

    /** The process lives and every further access will work. */
    ghost predicate Calm()
      reads this
    {
      !down && forall n :: n >= clock ==> faults(n).Fine?
    }

    constructor ()
      ensures Valid() && State() == EMPTY && !illegalPhase
    {
      history := [EMPTY];
      watermark, active, journals := 0, None, map[];
      down, clock, faults := false, 0, n => Fine;
      illegalPhase, stumbled := false, false;
    }

    /** Taking the installation lock in a live process, under an arbitrary fault script. */
    method Acquire(faults: nat -> Fault)
      modifies this
      ensures State() == old(State()) && illegalPhase == old(illegalPhase) && history == old(history)
      ensures !down && !stumbled
    {
      this.faults, down, clock, stumbled := faults, false, 0, false;
    }

    /** Draws the fate of one access. */
    method Access() returns (applied: bool, failure: Option<Error>)
      modifies this
      ensures State() == old(State()) && illegalPhase == old(illegalPhase) && history == old(history)
      ensures old(down) ==> !applied && failure.Some?
      ensures failure.None? ==> applied
      ensures old(Calm()) ==> Calm() && failure.None?
      ensures stumbled <==> old(stumbled) || failure.Some?
    {
      if down {
        stumbled := true;
        return false, Some(Crashed);
      }
      var fate := faults(clock);
      clock := clock + 1;
      match fate {
        case Fine => return true, None;
        case Raise(a, e) =>
          stumbled := true;
          return a, Some(e);
        case Crash(a) =>
          down, stumbled := true, true;
          return a, Some(Crashed);
      }
    }

    method ReadActive() returns (r: Result<Snapshot, Error>)
      modifies this
      ensures State() == old(State()) && illegalPhase == old(illegalPhase) && history == old(history)
      ensures r.Success? ==> r.value == Observe(State())
      ensures old(Calm()) ==> Calm() && r.Success?
      ensures stumbled <==> old(stumbled) || r.Failure?
    {
      var _, failure := Access();
      if failure.Some? {
        return Failure(failure.value);
      }
      return Success(
        match active
        case None => Snapshot(watermark, None)
        case Some(record) => Snapshot(Max(watermark, record.generation), active));
    }

    /** Remember what the write just made durable. */
    ghost method Remember()
      requires history != [] && history[0] == EMPTY && IsHistory(history)
      requires Evolves(history[|history| - 1], State()) && Keyed(journals)
      modifies this`history
      ensures Valid() && history == old(history) + [State()]
    {
      history := history + [State()];
    }

    method WriteActive(record: Option<ActiveRecord>) returns (r: Result<(), Error>)
      requires Valid() && Evolves(State(), State().(active := record))
      modifies this
      ensures Valid() && old(history) <= history
      ensures State() == old(State()) || State() == old(State()).(active := record)
      ensures r.Success? ==> State() == old(State()).(active := record)
      ensures illegalPhase == old(illegalPhase)
      ensures old(Calm()) ==> Calm() && r.Success?
      ensures stumbled <==> old(stumbled) || r.Failure?
    {
      var applied, failure := Access();
      if applied {
        active := record;
        Remember();
      }
      return if failure.None? then Success(()) else Failure(failure.value);
    }

    method WriteWatermark(generation: nat) returns (r: Result<(), Error>)
      requires Valid() && (watermark <= generation ==> Evolves(State(), State().(watermark := generation)))
      modifies this
      ensures Valid() && old(history) <= history
      ensures State() == old(State()) || (State() == old(State()).(watermark := generation) && old(watermark) <= generation)
      ensures r.Success? ==> State() == old(State()).(watermark := generation)
      ensures illegalPhase == old(illegalPhase)
      ensures old(Calm()) ==> Calm() && (r.Success? <==> old(watermark) <= generation)
      ensures stumbled <==> old(stumbled) || r.Failure?
    {
      if generation < watermark {
        stumbled := true;
        return Failure(CasMismatchError);
      }
      var applied, failure := Access();
      if applied {
        watermark := generation;
        Remember();
      }
      return if failure.None? then Success(()) else Failure(failure.value);
    }

    /** The record first, the watermark second. */
    method CompareAndSetActive(
      expected: ActiveExpectation,
      releaseId: Id,
      releasePath: Path,
      receipt: string,
      protocol: string,
      transactionId: Id)
      returns (r: Result<Snapshot, Error>)
      requires Valid()
      modifies this
      ensures Valid() && illegalPhase == old(illegalPhase) && old(history) <= history
      ensures journals == old(journals)
      ensures
        var g := Observe(old(State())).generation + 1;
        var record := ActiveRecord(g, releaseId, releasePath, receipt, protocol, transactionId);
        && (State() == old(State())
            || (Matches(Observe(old(State())), expected)
                && (State() == old(State()).(active := Some(record))
                    || State() == old(State()).(active := Some(record), watermark := g))))
        && (r.Success? ==> State() == old(State()).(active := Some(record), watermark := g) && r.value == Observe(State()))
      ensures r.Success? ==> Observe(old(State())).generation < Observe(State()).generation
      ensures old(Calm()) ==> Calm() && (r.Success? <==> Matches(Observe(old(State())), expected))
      ensures stumbled <==> old(stumbled) || r.Failure?
    {
      var observed :- ReadActive();
      if !Matches(observed, expected) {
        stumbled := true;
        return Failure(CasMismatchError);
      }
      var generation := observed.generation + 1;
      var record := ActiveRecord(generation, releaseId, releasePath, receipt, protocol, transactionId);
      var _ :- WriteActive(Some(record));
      var _ :- WriteWatermark(generation);
      return Success(Snapshot(generation, Some(record)));
    }

    /** The previous identity at a new generation. */
    method RestoreActive(expected: ActiveExpectation, previous: ActiveRecord)
      returns (r: Result<Snapshot, Error>)
      requires Valid()
      modifies this
      ensures Valid() && illegalPhase == old(illegalPhase) && old(history) <= history
      ensures journals == old(journals)
      ensures
        var g := Observe(old(State())).generation + 1;
        var record := previous.(generation := g);
        && (State() == old(State())
            || State() == old(State()).(active := Some(record))
            || State() == old(State()).(active := Some(record), watermark := g))
        && (r.Success? ==> State() == old(State()).(active := Some(record), watermark := g) && r.value == Observe(State()))
      ensures old(Calm()) ==> Calm() && (r.Success? <==> Matches(Observe(old(State())), expected))
      ensures stumbled <==> old(stumbled) || r.Failure?
    {
      r := CompareAndSetActive(
        expected, previous.releaseId, previous.releasePath, previous.receipt, previous.protocol,
        previous.transactionId);
    }

    /** The watermark first, so that deletion cannot reopen an old expected absence. */
    method CompareAndDeleteActive(expected: ActiveExpectation) returns (r: Result<Snapshot, Error>)
      requires Valid()
      modifies this
      ensures Valid() && illegalPhase == old(illegalPhase) && old(history) <= history
      ensures journals == old(journals)
      ensures
        var g := Observe(old(State())).generation + 1;
        && (State() == old(State())
            || (old(active).Some?
                && Matches(Observe(old(State())), expected)
                && (State() == old(State()).(watermark := g)
                    || State() == old(State()).(watermark := g, active := None))))
        && (r.Success? ==> State() == old(State()).(watermark := g, active := None) && r.value == Observe(State()))
      ensures r.Success? ==> Observe(old(State())).generation < Observe(State()).generation
      ensures old(Calm()) ==> Calm() && (r.Success? <==> Matches(Observe(old(State())), expected) && old(active).Some?)
      ensures stumbled <==> old(stumbled) || r.Failure?
    {
      var observed :- ReadActive();
      if !Matches(observed, expected) || !observed.Present() {
        stumbled := true;
        return Failure(CasMismatchError);
      }
      var generation := observed.generation + 1;
      var _ :- WriteWatermark(generation);
      var _ :- WriteActive(None);
      return Success(Snapshot(generation, None));
    }

    method WriteJournal(journal: Journal) returns (r: Result<(), Error>)
      requires Valid() && WellFormed(journal)
      requires Evolves(State(), State().(journals := journals[journal.id := journal]))
      modifies this
      ensures Valid() && old(history) <= history
      ensures State() == old(State()) || State() == old(State()).(journals := old(journals)[journal.id := journal])
      ensures r.Success? ==> State() == old(State()).(journals := old(journals)[journal.id := journal])
      ensures illegalPhase == old(illegalPhase)
      ensures old(Calm()) ==> Calm() && r.Success?
      ensures stumbled <==> old(stumbled) || r.Failure?
    {
      var applied, failure := Access();
      if applied {
        journals := journals[journal.id := journal];
        Remember();
      }
      return if failure.None? then Success(()) else Failure(failure.value);
    }

    method CreateTransaction(journal: Journal) returns (r: Result<Journal, Error>)
      requires Valid()
      modifies this
      ensures Valid() && illegalPhase == old(illegalPhase) && old(history) <= history
      ensures
        && (State() == old(State())
            || (journal.id !in old(journals)
                && WellFormed(journal)
                && State() == old(State()).(journals := old(journals)[journal.id := journal])))
        && (r.Success? ==>
              r.value == journal
              && journal.id !in old(journals)
              && WellFormed(journal)
              && State() == old(State()).(journals := old(journals)[journal.id := journal]))
      ensures old(Calm()) ==> Calm()
      ensures old(Calm()) ==>
        (r.Success? <==> WellFormed(journal) && |old(journals)| < MAX_JOURNALS && journal.id !in old(journals))
      ensures stumbled <==> old(stumbled) || r.Failure?
    {
      if !WellFormed(journal) {
        stumbled := true;
        return Failure(SchemaError);
      }
      if |journals| >= MAX_JOURNALS {
        stumbled := true;
        return Failure(ResourceLimitError);
      }
      if journal.id in journals {
        stumbled := true;
        return Failure(CasMismatchError);
      }
      var _ :- WriteJournal(journal);
      return Success(journal);
    }

    method ReadTransaction(id: Id) returns (r: Result<Journal, Error>)
      requires Valid()
      modifies this
      ensures State() == old(State()) && illegalPhase == old(illegalPhase) && history == old(history)
      ensures r.Success? ==> id in journals && r.value == journals[id]
      ensures old(Calm()) ==> Calm() && (r.Success? <==> id in journals)
      ensures stumbled <==> old(stumbled) || r.Failure?
    {
      var _, failure := Access();
      if failure.Some? {
        return Failure(failure.value);
      }
      if id !in journals {
        stumbled := true;
        return Failure(OSError);
      }
      return Success(journals[id]);
    }

    /**
     Replace a journal only if it still is the one observed, and only by a
     well-formed successor that the phase graph and the append-only rules allow.
     */
    method WriteTransaction(expected: Journal, journal: Journal) returns (r: Result<Journal, Error>)
      requires Valid()
      modifies this
      ensures Valid() && old(history) <= history
      ensures
        && (State() == old(State())
            || (expected.id in old(journals)
                && old(journals)[expected.id] == expected
                && WellFormed(journal)
                && LegalWrite(expected, journal)
                && State() == old(State()).(journals := old(journals)[journal.id := journal])))
        && (r.Success? ==>
              r.value == journal
              && WellFormed(journal)
              && LegalWrite(expected, journal)
              && State() == old(State()).(journals := old(journals)[journal.id := journal]))
      ensures LegalPhase(expected.phase, journal.phase) ==> illegalPhase == old(illegalPhase)
      ensures r.Success? ==> expected.id in old(journals) && old(journals)[expected.id] == expected
      ensures old(Calm()) ==> Calm()
      ensures old(Calm()) ==> (r.Success? <==> Replaces(old(State()), expected, journal))
      ensures stumbled <==> old(stumbled) || r.Failure?
    {
      hide Evolves, IsHistory, EvidenceExtends;
      var current :- ReadTransaction(expected.id);
      if current != expected {
        stumbled := true;
        return Failure(CasMismatchError);
      }
      if !WellFormed(journal) {
        stumbled := true;
        return Failure(SchemaError);
      }
      if !LegalPhase(current.phase, journal.phase) {
        illegalPhase := true;
        stumbled := true;
        return Failure(TransitionError);
      }
      if !LegalWrite(current, journal) {
        stumbled := true;
        return Failure(TransitionError);
      }
      LegalWriteEvolves(State(), expected, journal);
      var _ :- WriteJournal(journal);
      return Success(journal);
    }

    /** Append evidence and, when `phase` is given, move to it. */
    method AdvanceTransaction(expected: Journal, phase: Phase, evidence: Evidence)
      returns (r: Result<Journal, Error>)
      requires Valid()
      modifies this
      ensures Valid() && old(history) <= history
      ensures
        var journal := Advanced(expected, phase, evidence);
        && Writes(old(State()), State(), expected, journal)
        && (r.Success? ==> r.value == journal && Wrote(old(State()), State(), expected, journal))
      ensures LegalPhase(expected.phase, phase) ==> illegalPhase == old(illegalPhase)
      ensures old(Calm()) ==> Calm()
      ensures old(Calm()) ==> (r.Success? <==> Replaces(old(State()), expected, Advanced(expected, phase, evidence)))
      ensures stumbled <==> old(stumbled) || r.Failure?
    {
      AppendUniqueIsAnAppendOnlyUnion(expected.retained, evidence.retained);
      r := WriteTransaction(expected, Advanced(expected, phase, evidence));
    }

    method FinishTransaction(expected: Journal, outcome: Outcome, evidence: Evidence)
      returns (r: Result<Journal, Error>)
      requires Valid()
      modifies this
      ensures Valid() && old(history) <= history
      ensures
        var journal := Advanced(expected, Terminal, evidence).(outcome := Some(outcome));
        && Writes(old(State()), State(), expected, journal)
        && (r.Success? ==> r.value == journal && Wrote(old(State()), State(), expected, journal))
      ensures expected.phase != Terminal ==> illegalPhase == old(illegalPhase)
      ensures old(Calm()) ==> Calm()
      ensures old(Calm()) ==>
        (r.Success? <==> Replaces(old(State()), expected, Advanced(expected, Terminal, evidence).(outcome := Some(outcome))))
      ensures stumbled <==> old(stumbled) || r.Failure?
    {
      AppendUniqueIsAnAppendOnlyUnion(expected.retained, evidence.retained);
      r := WriteTransaction(expected, Advanced(expected, Terminal, evidence).(outcome := Some(outcome)));
    }

    /** Every journal whose outcome is still open, each once. */
    method NonTerminalTransactions() returns (r: Result<seq<Journal>, Error>)
      requires Valid()
      modifies this
      ensures State() == old(State()) && illegalPhase == old(illegalPhase) && history == old(history)
      ensures r.Success? ==> Enumerates(r.value, State())
      ensures old(Calm()) ==> Calm() && (r.Success? <==> |journals| <= MAX_JOURNALS)
      ensures stumbled <==> old(stumbled) || r.Failure?
    {
      var _, failure := Access();
      if failure.Some? {
        return Failure(failure.value);
      }
      if |journals| > MAX_JOURNALS {
        stumbled := true;
        return Failure(ResourceLimitError);
      }
      var pending: seq<Journal> := [];
      var rest := journals.Keys;
      while rest != {}
        invariant rest <= journals.Keys
        invariant forall id :: id in journals && id !in rest && Open(State(), id) ==> journals[id] in pending
        invariant forall i :: 0 <= i < |pending| ==>
          pending[i].id !in rest && Open(State(), pending[i].id) && journals[pending[i].id] == pending[i]
        invariant forall i, j :: 0 <= i < j < |pending| ==> pending[i].id != pending[j].id
        decreases rest
      {
        var id :| id in rest;
        rest := rest - {id};
        if journals[id].outcome.None? {
          pending := pending + [journals[id]];
        }
      }
      return Success(pending);
    }

    method RequireNoNonTerminal(except: Option<Id>) returns (r: Result<(), Error>)
      requires Valid()
      modifies this
      ensures State() == old(State()) && illegalPhase == old(illegalPhase) && history == old(history)
      ensures old(Calm()) && |journals| <= MAX_JOURNALS ==>
        (r.Success? <==> forall id :: Open(State(), id) ==> Some(id) == except)
      ensures r.Success? ==> forall id :: Open(State(), id) ==> Some(id) == except
      ensures old(Calm()) ==> Calm()
      ensures stumbled <==> old(stumbled) || r.Failure?
    {
      var pending :- NonTerminalTransactions();
      var i := 0;
      while i < |pending|
        invariant 0 <= i <= |pending|
        invariant forall k :: 0 <= k < i ==> Some(pending[k].id) == except
        invariant old(Calm()) ==> Calm()
        invariant State() == old(State()) && illegalPhase == old(illegalPhase)
      {
        if Some(pending[i].id) != except {
          stumbled := true;
          return Failure(UnresolvedTransactionError);
        }
        i := i + 1;
      }
      return Success(());
    }
  }

  /** Evidence appended by one journal write. */
  datatype Evidence = Evidence(
    observations: seq<Observation>,
    effects: seq<Effect>,
    owned: seq<Path>,
    retained: seq<Path>,
    recovery: seq<string>)

  const NOTHING := Evidence([], [], [], [], [])

  function Advanced(journal: Journal, phase: Phase, evidence: Evidence): Journal {
    journal.(
      phase := phase,
      observations := journal.observations + evidence.observations,
      effects := journal.effects + evidence.effects,
      owned := journal.owned + evidence.owned,
      retained := AppendUnique(journal.retained, evidence.retained),
      recovery := journal.recovery + evidence.recovery)
  }

  /** `journal` may replace `expected`, which is the durable version. */
  ghost predicate Replaces(d: Durable, expected: Journal, journal: Journal) {
    && expected.id in d.journals
    && d.journals[expected.id] == expected
    && WellFormed(journal)
    && LegalWrite(expected, journal)
  }

  /** The write of `journal` over `expected` happened. */
  ghost predicate Wrote(before: Durable, after: Durable, expected: Journal, journal: Journal) {
    && Replaces(before, expected, journal)
    && after == before.(journals := before.journals[journal.id := journal])
  }

  /** The write happened or left no trace. */
  ghost predicate Writes(before: Durable, after: Durable, expected: Journal, journal: Journal) {
    after == before || Wrote(before, after, expected, journal)
  }

  ghost predicate Open(d: Durable, id: Id) {
    id in d.journals && d.journals[id].outcome.None?
  }

  ghost predicate Enumerates(pending: seq<Journal>, d: Durable) {
    && (forall id :: Open(d, id) ==> d.journals[id] in pending)
    && (forall i :: 0 <= i < |pending| ==> Open(d, pending[i].id) && d.journals[pending[i].id] == pending[i])
    && (forall i, j :: 0 <= i < j < |pending| ==> pending[i].id != pending[j].id)
  }
}
