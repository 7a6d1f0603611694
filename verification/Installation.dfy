/**
 Every lifecycle driver over one durable directory, in any order, any number of
 times, each under its own fault script: commands may fail or crash at any
 durable step, and later ones find whatever was left behind.
 */
module Installation {
  import opened Wrappers
  import opened LifecycleRecords
  import opened LifecycleState
  import opened LifecycleProtocol
  import opened Activation
  import Files
  import LM = LifecycleMachine
  import RL = ReleaseLifecycle
  import UD = UninstallDriver
  import RD = ReinstallDriver

  type Faults = nat -> Fault

  /** One bootstrap child: its oracles and its fate. */
  datatype Child = Child(
    script: Script,
    around: RL.Surroundings,
    index: RL.Index,
    transactionId: Id,
    faults: Faults)

  /** One process of the activation machine or of the uninstaller. */
  datatype Process =
    | Activate(script: Script, request: ActivationRequest, faults: Faults)
    | Bootstrap(child: Child, authorized: Option<Id>)
    | Uninstall(tools: UD.Tools, present: set<Path>, faults: Faults)
  {
    /** Adapters apply effects only where the machine expects them, and requests name an activation. */
    ghost predicate Tame() {
      match this
      case Activate(script, request, _) => script.Tame() && IsActivation(request.operation)
      case Bootstrap(child, _) => child.script.Tame()
      case Uninstall(_, _, _) => true
    }
  }

  /** A reinstall lets go of the installation lock around its bootstraps, so other processes may run meanwhile. */
  datatype Command =
    | Plain(process: Process)
    | Reinstall(
        id: Id, data: Option<Files.Tree>, first: Child, meanwhile: seq<Process>, report: RD.Report,
        leftover: Option<Files.Tree>, survey: Faults, prepare: Faults, conclude: Faults)
  {
    ghost predicate Tame() {
      match this
      case Plain(process) => process.Tame()
      case Reinstall(_, _, first, meanwhile, _, _, _, _, _) =>
        first.script.Tame() && forall i :: 0 <= i < |meanwhile| ==> meanwhile[i].Tame()
    }
  }

  /** The reinstall journals, which only the reinstall driver may write. */
  function Reinstalls(d: Durable): map<Id, Journal> {
    map id | id in d.journals && d.journals[id].operation == LifecycleRecords.Reinstall :: d.journals[id]
  }

  lemma OthersKeepReinstalls(before: Durable, after: Durable, mine: set<Operation>)
    requires LifecycleRecords.Reinstall !in mine && Foreign(before, mine) == Foreign(after, mine)
    ensures Reinstalls(before) == Reinstalls(after)
  {
    forall id ensures id in Reinstalls(before) <==> id in Reinstalls(after) {
      assert id in Reinstalls(before) <==>
             id in Foreign(before, mine) && Foreign(before, mine)[id].operation == LifecycleRecords.Reinstall;
      assert id in Reinstalls(after) <==>
             id in Foreign(after, mine) && Foreign(after, mine)[id].operation == LifecycleRecords.Reinstall;
    }
    forall id | id in Reinstalls(before) ensures Reinstalls(before)[id] == Reinstalls(after)[id] {
      assert Reinstalls(before)[id] == Foreign(before, mine)[id];
      assert Reinstalls(after)[id] == Foreign(after, mine)[id];
    }
  }

  class Installation {
    const state: LifecycleState
    const machine: LM.LifecycleMachine
    const uninstaller: UD.DurableUninstaller
    const reinstaller: RD.ReinstallDriver

    /** What every moment between two commands, and so every crash, leaves true. */
    ghost predicate Sound()
      reads this, state, machine, uninstaller, reinstaller
    {
      && machine.state == state && uninstaller.state == state && reinstaller.state == state
      && state.Valid() && Inv(state.State()) && !state.illegalPhase
      && Judged(state.State(), machine.verdicts)
      && UD.AllAccounted(
           state.State(), uninstaller.layout, uninstaller.present, uninstaller.removals, uninstaller.endings)
      && reinstaller.layout.Valid()
      && reinstaller.warrants.Keys + reinstaller.backups.Keys <= RD.Reinstalls(state.State())
      && RD.Accounts(
           state.State(), reinstaller.layout, reinstaller.data, reinstaller.backups, reinstaller.origins,
           reinstaller.warrants, reinstaller.closings)
    }

    /**
     What `Sound` means for a reader of the durable directory: which journals
     are open together, what every closed one certifies, and where the user's
     data is while a reinstall is open.
     */
    lemma WhatSoundMeans(pending: seq<Journal>, id: Id)
      requires Sound() && Enumerates(pending, state.State()) && id in state.journals
      ensures |pending| <= 2
      ensures |pending| == 2 ==>
        exists i :: 0 <= i < 2
          && pending[i].operation == LifecycleRecords.Reinstall && pending[i].phase == RemovingData
          && pending[1 - i].operation in {Install, Repair, Upgrade, Migration}
      ensures
        var journal := state.journals[id];
        && (IsActivation(journal.operation) && journal.outcome.Some? ==>
              id in machine.verdicts && machine.verdicts[id].journal == journal && Activation.Sound(machine.verdicts[id]))
        && (journal.operation == LifecycleRecords.Uninstall && journal.outcome.Some? ==>
              id in uninstaller.endings && uninstaller.endings[id].journal == journal
              && UD.Truthful(uninstaller.layout, uninstaller.endings[id]))
        && (journal.operation == LifecycleRecords.Reinstall && journal.outcome.Some? ==>
              id in reinstaller.closings && reinstaller.closings[id].journal == journal
              && RD.Kept(reinstaller.layout, reinstaller.closings[id]))
        && (journal.operation == LifecycleRecords.Reinstall && journal.outcome.None? ==>
              if id in reinstaller.warrants then RD.Warranted(reinstaller.warrants[id])
              else
                RD.Conserved(
                  reinstaller.layout, reinstaller.Origin(id), reinstaller.data, RD.At(reinstaller.backups, id)))
    {
      hide Inv;
      PendingShapes(state.State(), pending);
      assert VerdictOk(state.State(), machine.verdicts, id);
      assert UD.Accounted(
        state.State(), uninstaller.layout, uninstaller.present, uninstaller.removals, uninstaller.endings, id);
      assert RD.Account(
        state.State(), reinstaller.layout, reinstaller.data, reinstaller.backups, reinstaller.origins,
        reinstaller.warrants, reinstaller.closings, id);
    }

    /** Every journal, open or closed: closed exactly if it has an outcome, within the caps, no path listed twice. */
    lemma EveryJournal(id: Id)
      requires Sound() && id in state.journals
      ensures
        var journal := state.journals[id];
        && journal.id == id
        && (journal.phase == Terminal <==> journal.outcome.Some?)
        && |journal.observations| <= 128 && |journal.effects| <= 128 && |journal.owned| <= 128
        && |journal.retained| <= 128 && |journal.recovery| <= 128
        && (forall i, j :: 0 <= i < j < |journal.owned| ==> journal.owned[i] != journal.owned[j])
        && (forall i, j :: 0 <= i < j < |journal.retained| ==> journal.retained[i] != journal.retained[j])
        && journal.expected == Snapshot(journal.expected.generation, journal.previous).Expectation()
        && (journal.operation in {Install, Repair, Upgrade, Migration} ==> journal.target.Some?)
    {
      assert JournalOk(state.State(), id);
    }

    /**
     A closed activation.  `Committed`: the record then active was selected by
     this very journal, or is the one it had found and repaired; the host ran
     it, and it proved itself.  `RolledBack`: the authority of before was in
     place and proved itself, after the host was restored if it was touched.
     */
    lemma AClosedActivation(id: Id)
      requires Sound() && id in state.journals
      requires IsActivation(state.journals[id].operation) && state.journals[id].outcome.Some?
      ensures id in machine.verdicts && machine.verdicts[id].journal == state.journals[id]
      ensures
        var journal, v := state.journals[id], machine.verdicts[id];
        && (journal.outcome == Some(Committed) ==>
              && v.active.record.Some?
              && (Selects(v.active.record, journal)
                  || (journal.operation == Repair && journal.expected == v.active.Expectation()))
              && Proof(v.active.record, v.active) in v.proofs
              && (v.active.record.value.releaseId, v.active.record.value.releasePath) in v.readBacks)
        && (journal.outcome == Some(RolledBack) ==>
              && BackTo(v.active.record, journal.previous) && Proof(journal.previous, v.active) in v.proofs
              && ((exists i :: 0 <= i < |journal.effects| && journal.effects[i].applied) ==> id in v.restored))
    {
      hide Inv;
      assert VerdictOk(state.State(), machine.verdicts, id);
      SameAuthorityIsBack(machine.verdicts[id].active.record, state.journals[id].previous);
    }

    /**
     A committed uninstall: both host removals were answered exactly, and the
     journal holds the answers; no release, no dispatcher and no lifecycle
     directory was left, and the record was gone at exactly the next generation.
     */
    lemma ACommittedUninstall(id: Id)
      requires Sound() && id in state.journals && state.journals[id].operation == LifecycleRecords.Uninstall
      requires state.journals[id].outcome == Some(Committed)
      ensures id in uninstaller.endings && uninstaller.endings[id].journal == state.journals[id]
      ensures
        var journal, ending, layout := state.journals[id], uninstaller.endings[id], uninstaller.layout;
        && ending.removal.Some? && ending.removal.value.plugin.exact && ending.removal.value.marketplace.exact
        && (var h := ending.removal.value;
            h.before + h.plugin.observations + h.marketplace.observations <= journal.observations)
        && (forall p :: p in ending.present ==> !layout.isRelease(p))
        && layout.cli !in ending.present && layout.mcp !in ending.present && layout.lifecycle !in ending.present
        && ending.active.record.None?
        && ending.active.generation == journal.expected.generation + (if journal.expected.present then 1 else 0)
    {
      hide Inv;
      assert UD.Accounted(
        state.State(), uninstaller.layout, uninstaller.present, uninstaller.removals, uninstaller.endings, id);
    }

    /**
     A reinstall, open or closed.  `Committed`: a bootstrap reported a commit and
     named the record that was durable.  `RolledBack`: the payload was gone and
     the tree of before back, if there was one.  Until such a report the tree
     of before is complete, in the data root or beside a root the driver made.
     */
    lemma AReinstall(id: Id)
      requires Sound() && id in state.journals && state.journals[id].operation == LifecycleRecords.Reinstall
      ensures
        var journal, layout := state.journals[id], reinstaller.layout;
        if journal.outcome.None? then
          var origin, data, files := reinstaller.Origin(id), reinstaller.data, reinstaller.Files(id);
          && (id in reinstaller.warrants ==>
                var w := reinstaller.warrants[id];
                w.report.committed && w.report.active.Some? && w.report.active == w.durable.record)
          && (id !in reinstaller.warrants && origin.Some? ==>
                || (files.payload.None? && data == origin)
                || (files.payload == origin && data in {None, Some(map[]), Some(layout.FreshRoot())}))
        else
          && id in reinstaller.closings && reinstaller.closings[id].journal == journal
          && var c := reinstaller.closings[id];
          && (journal.outcome == Some(Committed) ==>
                && c.warrant.Some? && c.warrant.value.report.committed && c.warrant.value.report.active.Some?
                && c.warrant.value.report.active == c.warrant.value.durable.record)
          && (journal.outcome == Some(RolledBack) ==>
                c.backup.payload.None? && (c.origin.Some? ==> c.data == c.origin))
          && (journal.outcome == Some(Partial) && c.warrant.None? && c.origin.Some? ==>
                || (c.backup.payload.None? && c.data == c.origin)
                || (c.backup.payload == c.origin && c.data in {None, Some(map[]), Some(layout.FreshRoot())}))
    {
      hide Inv;
      assert RD.Account(
        state.State(), reinstaller.layout, reinstaller.data, reinstaller.backups, reinstaller.origins,
        reinstaller.warrants, reinstaller.closings, id);
    }

    constructor (script: Script, tools: UD.Tools, uninstalls: UD.Layout, reinstalls: RD.Layout)
      requires script.Tame() && reinstalls.Valid()
      ensures Sound() && state.State() == EMPTY
      ensures fresh(state) && fresh(machine) && fresh(uninstaller) && fresh(reinstaller)
    {
      var store := new LifecycleState();
      state := store;
      machine := new LM.LifecycleMachine(store, script);
      uninstaller := new UD.DurableUninstaller(store, uninstalls, tools);
      reinstaller := new RD.ReinstallDriver(store, reinstalls);
    }

    /** The activation machine ran: nothing of the other drivers' was touched. */
    lemma AfterActivation(before: Durable, foreign: map<Id, Journal>)
      requires machine.state == state && uninstaller.state == state && reinstaller.state == state
      requires machine.Good() && machine.foreign == foreign && Foreign(before, ACTIVATIONS) == foreign
      requires UD.AllAccounted(
        before, uninstaller.layout, uninstaller.present, uninstaller.removals, uninstaller.endings)
      requires RD.Accounts(
        before, reinstaller.layout, reinstaller.data, reinstaller.backups, reinstaller.origins, reinstaller.warrants,
        reinstaller.closings)
      requires reinstaller.layout.Valid()
      requires reinstaller.warrants.Keys + reinstaller.backups.Keys <= RD.Reinstalls(before)
      ensures Sound()
    {
      hide Inv;
      UD.AccountIgnoresOthers(
        before, state.State(), uninstaller.layout, uninstaller.present, uninstaller.present, uninstaller.removals,
        uninstaller.endings, ACTIVATIONS);
      RD.AccountsIgnoreOthers(
        before, state.State(), reinstaller.layout, reinstaller.data, reinstaller.data, reinstaller.backups,
        reinstaller.origins, reinstaller.warrants, reinstaller.closings, ACTIVATIONS);
    }

    method Activate(script: Script, request: ActivationRequest, faults: Faults)
      requires Sound() && script.Tame() && IsActivation(request.operation)
      modifies state, machine
      ensures Sound() && Reinstalls(state.State()) == old(Reinstalls(state.State()))
    {
      ghost var before := state.State();
      state.Acquire(faults);
      machine.Restart(script);
      RunMachine(request);
      AfterActivation(before, machine.foreign);
      OthersKeepReinstalls(before, state.State(), ACTIVATIONS);
    }

    method RunMachine(request: ActivationRequest)
      requires machine.Good() && IsActivation(request.operation)
      modifies machine.state, machine`proofs, machine`readBacks, machine`restored, machine`verdicts, machine`sealed
      ensures machine.Good()
    {
      hide machine.Good, machine.Settled, machine.Continued, RunOutcome, ResumedOutcome, Closed;
      var _ := machine.Run(request);
    }

    /** One bootstrap process; a reinstall may have authorized it. */
    method Bootstrap(child: Child, authorized: Option<Id>)
      requires Sound() && child.script.Tame()
      modifies state, machine
      ensures Sound() && Reinstalls(state.State()) == old(Reinstalls(state.State()))
    {
      ghost var before := state.State();
      state.Acquire(child.faults);
      machine.Restart(child.script);
      RunAuto(child, authorized);
      AfterActivation(before, machine.foreign);
      OthersKeepReinstalls(before, state.State(), ACTIVATIONS);
    }

    method RunAuto(child: Child, authorized: Option<Id>)
      requires machine.Good()
      modifies machine.state, machine`proofs, machine`readBacks, machine`restored, machine`verdicts, machine`sealed
      ensures machine.Good()
    {
      hide machine.Good, RL.MayRun, RL.ResumedAuto, RL.ResumedAutoId, RL.AutoOutcome, Closed;
      var _ := RL.RunLockedAuto(machine, authorized, child.around, child.index, child.transactionId);
    }

    /** Managed files may have come and gone since the last uninstall command, unless one is still open. */
    method Uninstall(tools: UD.Tools, present: set<Path>, faults: Faults)
      requires Sound()
      modifies state, uninstaller
      ensures Sound() && Reinstalls(state.State()) == old(Reinstalls(state.State()))
    {
      ghost var before := state.State();
      var seen := uninstaller.present;
      var idle := NoneOpen(LifecycleRecords.Uninstall);
      if idle {
        seen := present;
        UD.AccountIgnoresOthers(
          before, before, uninstaller.layout, uninstaller.present, seen, uninstaller.removals, uninstaller.endings, {});
      }
      state.Acquire(faults);
      uninstaller.Restart(tools, seen);
      var _ := uninstaller.Run();
      AfterUninstall(before);
      OthersKeepReinstalls(before, state.State(), {LifecycleRecords.Uninstall});
    }

    method NoneOpen(operation: Operation) returns (idle: bool)
      ensures idle <==> forall id :: Open(state.State(), id) ==> state.journals[id].operation != operation
    {
      idle := true;
      var rest := state.journals.Keys;
      while rest != {}
        invariant rest <= state.journals.Keys
        invariant idle <==> forall id :: Open(state.State(), id) && id !in rest ==>
          state.journals[id].operation != operation
        decreases rest
      {
        var id :| id in rest;
        rest := rest - {id};
        if state.journals[id].outcome.None? && state.journals[id].operation == operation {
          assert Open(state.State(), id);
          idle := false;
        }
      }
    }

    lemma AfterUninstall(before: Durable)
      requires machine.state == state && uninstaller.state == state && reinstaller.state == state
      requires uninstaller.Good() && uninstaller.foreign == Foreign(before, {LifecycleRecords.Uninstall})
      requires Judged(before, machine.verdicts)
      requires RD.Accounts(
        before, reinstaller.layout, reinstaller.data, reinstaller.backups, reinstaller.origins, reinstaller.warrants,
        reinstaller.closings)
      requires reinstaller.layout.Valid()
      requires reinstaller.warrants.Keys + reinstaller.backups.Keys <= RD.Reinstalls(before)
      ensures Sound()
    {
      hide Inv;
      JudgedIgnoresOthers(before, state.State(), machine.verdicts, {LifecycleRecords.Uninstall});
      RD.AccountsIgnoreOthers(
        before, state.State(), reinstaller.layout, reinstaller.data, reinstaller.data, reinstaller.backups,
        reinstaller.origins, reinstaller.warrants, reinstaller.closings, {LifecycleRecords.Uninstall});
    }

    lemma AfterReinstall(before: Durable)
      requires machine.state == state && uninstaller.state == state && reinstaller.state == state
      requires reinstaller.Good() && reinstaller.foreign == Foreign(before, {LifecycleRecords.Reinstall})
      requires Judged(before, machine.verdicts)
      requires UD.AllAccounted(
        before, uninstaller.layout, uninstaller.present, uninstaller.removals, uninstaller.endings)
      ensures Sound()
    {
      hide Inv;
      JudgedIgnoresOthers(before, state.State(), machine.verdicts, {LifecycleRecords.Reinstall});
      UD.AccountIgnoresOthers(
        before, state.State(), uninstaller.layout, uninstaller.present, uninstaller.present, uninstaller.removals,
        uninstaller.endings, {LifecycleRecords.Reinstall});
    }

    /** The user's data may have changed since the last reinstall command, unless one is still open. */
    method BeginReinstall(data: Option<Files.Tree>, faults: Faults)
      requires Sound()
      modifies state, reinstaller
      ensures Sound() && reinstaller.Good() && state.State() == old(state.State())
      ensures reinstaller.foreign == Foreign(state.State(), {LifecycleRecords.Reinstall})
    {
      ghost var before := state.State();
      var seen := reinstaller.data;
      var idle := NoneOpen(LifecycleRecords.Reinstall);
      if idle {
        seen := data;
        RD.AccountsIgnoreOthers(
          before, before, reinstaller.layout, reinstaller.data, seen, reinstaller.backups, reinstaller.origins,
          reinstaller.warrants, reinstaller.closings, {});
      }
      state.Acquire(faults);
      reinstaller.Restart(seen);
      AfterReinstall(before);
    }

    method Run(process: Process)
      requires Sound() && process.Tame()
      modifies state, machine, uninstaller
      ensures Sound() && Reinstalls(state.State()) == old(Reinstalls(state.State()))
    {
      match process {
        case Activate(script, request, faults) => Activate(script, request, faults);
        case Bootstrap(child, authorized) => Bootstrap(child, authorized);
        case Uninstall(tools, present, faults) => Uninstall(tools, present, faults);
      }
    }

    method RunAll(processes: seq<Process>)
      requires Sound() && forall i :: 0 <= i < |processes| ==> processes[i].Tame()
      modifies state, machine, uninstaller
      ensures Sound() && Reinstalls(state.State()) == old(Reinstalls(state.State()))
    {
      for i := 0 to |processes|
        invariant Sound() && Reinstalls(state.State()) == old(Reinstalls(state.State()))
      {
        Run(processes[i]);
      }
    }

    /** Nobody else's process disturbs a reinstall that waits for its bootstrap. */
    twostate lemma StillReady(id: Id)
      requires old(Sound()) && Sound() && old(reinstaller.Ready(id))
      requires Reinstalls(state.State()) == old(Reinstalls(state.State()))
      requires unchanged(reinstaller)
      ensures reinstaller.Ready(id)
    {
      assert id in old(Reinstalls(state.State()));
      assert Reinstalls(state.State())[id] == state.journals[id];
    }

    /** One reinstall command: survey, recover, remove, wait for the bootstrap, then delete or restore. */
    method Reinstall(command: Command)
      requires Sound() && command.Reinstall? && command.Tame()
      modifies state, machine, uninstaller, reinstaller
      ensures Sound()
    {
      BeginReinstall(command.data, command.survey);
      var survey := Survey();
      if survey.Failure? {
        return;
      }
      if survey.value.Some? {
        Bootstrap(command.first, survey.value.value);
      }
      BeginReinstall(command.data, command.prepare);
      var prepared := Prepare(command.id);
      if prepared.Failure? || !prepared.value.Cleared? {
        return;
      }
      label Waiting:
      RunAll(command.meanwhile);
      StillReady@Waiting(prepared.value.id);
      Conclude(prepared.value.id, command.report, command.leftover, command.conclude);
    }

    method Survey() returns (r: Result<Option<Option<Id>>, Error>)
      requires Sound() && reinstaller.Good()
      modifies state
      ensures Sound()
    {
      r := reinstaller.Survey();
    }

    method Prepare(id: Id) returns (r: Result<RD.Prepared, Error>)
      requires Sound() && reinstaller.Good()
      requires reinstaller.foreign == Foreign(state.State(), {LifecycleRecords.Reinstall})
      modifies state, reinstaller
      ensures Sound()
      ensures r.Success? && r.value.Cleared? ==> reinstaller.Ready(r.value.id)
    {
      ghost var before := state.State();
      r := reinstaller.Prepare(id);
      AfterReinstall(before);
    }

    method Conclude(id: Id, report: RD.Report, leftover: Option<Files.Tree>, faults: Faults)
      requires Sound() && reinstaller.Ready(id)
      modifies state, reinstaller
      ensures Sound()
    {
      ghost var before := state.State();
      state.Acquire(faults);
      reinstaller.Restart(reinstaller.data);
      var _ := reinstaller.Conclude(id, report, leftover);
      AfterReinstall(before);
    }

    /**
     Any commands, in any order, under any faults and crashes, from an empty
     directory: every driver's account stays true, no driver ever asks for an
     illegal phase, and no two drivers' journals meet except in the one shape
     that is meant.
     */
    method Play(commands: seq<Command>)
      requires Sound() && forall i :: 0 <= i < |commands| ==> commands[i].Tame()
      modifies state, machine, uninstaller, reinstaller
      ensures Sound()
    {
      for i := 0 to |commands|
        invariant Sound()
      {
        match commands[i] {
          case Plain(process) => Run(process);
          case Reinstall(_, _, _, _, _, _, _, _, _) => Reinstall(commands[i]);
        }
      }
    }
  }
}
