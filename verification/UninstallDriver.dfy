/**
 The durable uninstaller of scripts/uninstall_driver.py: one journal carried
 phase by phase through host removal, owned releases, the active record, the
 dispatchers and the lifecycle directory, across any number of crashes.

 Removal of one tree or one file is an oracle here; OwnedRemoval models it.
 */
module UninstallDriver {
  import opened Wrappers
  import opened LifecycleRecords
  import opened LifecycleState
  import opened LifecycleProtocol
  import opened Activation

  /** Where the uninstaller looks. */
  datatype Layout = Layout(
    isRelease: Path -> bool,
    releasesRoot: Path,
    activePath: Path,
    cli: Path,
    mcp: Path,
    lifecycle: Path,
    support: seq<Path>)

  /** Neither a dispatcher nor the lifecycle directory is itself a release. */
  predicate Separate(layout: Layout) {
    !layout.isRelease(layout.cli) && !layout.isRelease(layout.mcp) && !layout.isRelease(layout.lifecycle)
  }

  datatype Claim = Claim(path: Path, provable: bool)

  /** What removing one tree reports, and whether it is gone. */
  datatype Sweep = Sweep(evidence: StepEvidence, gone: bool)

  /** What removing one exact file does. */
  datatype Erasure = Unlinked | Kept | Altered

  /** The answers of one locked run; `None` is a raised exception. */
  datatype Tools = Tools(
    transactionId: Id,
    fromRecovery: bool,
    inventory: Option<seq<Claim>>,
    preflight: Option<StepEvidence>,
    support: StepEvidence,
    plugin: Option<StepEvidence>,
    marketplace: Option<StepEvidence>,
    listing: bool,
    release: Path -> Sweep,
    file: Path -> Erasure,
    residue: seq<Path>)

  const EXACTLY := StepEvidence(true, [], [], [], [])

  function Inexactly(retained: seq<Path>): StepEvidence {
    StepEvidence(false, UNKNOWN_STEP, [], retained, INSPECT)
  }

  /** `_safe_host`. */
  function SafeHost(answer: Option<StepEvidence>): StepEvidence {
    match answer
    case Some(e) => e
    case None => Inexactly([])
  }

  function Claimed(owned: seq<Path>, isRelease: Path -> bool): seq<Path> {
    if owned == [] then []
    else (if isRelease(owned[0]) then [owned[0]] else []) + Claimed(owned[1..], isRelease)
  }

  function Paths(claims: seq<Claim>): seq<Path> {
    seq(|claims|, i requires 0 <= i < |claims| => claims[i].path)
  }

  function Unproven(claims: seq<Claim>): seq<Path> {
    if claims == [] then []
    else (if claims[0].provable then [] else [claims[0].path]) + Unproven(claims[1..])
  }

  /** What the preflight of a new uninstall retains; anything retained stops it. */
  function Unprovable(tools: Tools, layout: Layout): seq<Path> {
    match tools.inventory
    case None => [layout.releasesRoot]
    case Some(claims) =>
      if Unproven(claims) != [] then Unproven(claims)
      else if SafeHost(tools.preflight).exact then []
      else AppendUnique([], SafeHost(tools.preflight).retained)
  }

  function OwnedPaths(tools: Tools, layout: Layout): seq<Path> {
    var claims := match tools.inventory case None => [] case Some(c) => Paths(c);
    AppendUnique([], claims + [layout.cli, layout.mcp] + layout.support)
  }

  lemma {:induction false} UnprovenIsExact(claims: seq<Claim>)
    ensures Unproven(claims) == [] <==> forall i :: 0 <= i < |claims| ==> claims[i].provable
  {
    if claims != [] {
      UnprovenIsExact(claims[1..]);
      if forall i :: 0 <= i < |claims| ==> claims[i].provable {
        assert forall i :: 0 <= i < |claims[1..]| ==> claims[1..][i] == claims[i + 1];
      } else {
        var i :| 0 <= i < |claims| && !claims[i].provable;
        assert i > 0 ==> !claims[1..][i - 1].provable;
      }
    }
  }

  /**
   A new uninstall stops before its first effect exactly when a release cannot
   be inventoried or proven, or an inexact host preflight names a path to
   retain.  A preflight that raises names none, so it does not stop the run.
   */
  lemma PreflightStopsExactly(tools: Tools, layout: Layout)
    ensures Unprovable(tools, layout) != [] <==>
            || tools.inventory.None?
            || (exists i :: 0 <= i < |tools.inventory.value| && !tools.inventory.value[i].provable)
            || (!SafeHost(tools.preflight).exact && SafeHost(tools.preflight).retained != [])
    ensures tools.preflight.None? && tools.inventory == Some([]) ==> Unprovable(tools, layout) == []
  {
    if tools.inventory.Some? {
      UnprovenIsExact(tools.inventory.value);
    }
    var retained := SafeHost(tools.preflight).retained;
    AppendUniqueIsAnAppendOnlyUnion([], retained);
    if retained != [] {
      assert retained[0] in AppendUnique([], retained);
    }
  }

  /** Every inventoried release, both dispatchers and the support files are owned, and nothing else. */
  lemma OwnedPathsAreNamed(tools: Tools, layout: Layout, p: Path)
    ensures p in OwnedPaths(tools, layout) <==> Named(tools, layout, p)
  {
    var claims := match tools.inventory case None => [] case Some(c) => Paths(c);
    var all := claims + [layout.cli, layout.mcp] + layout.support;
    AppendUniqueIsAnAppendOnlyUnion([], all);
    if tools.inventory.Some? {
      assert p in claims <==> exists i :: 0 <= i < |tools.inventory.value| && tools.inventory.value[i].path == p by {
        if i :| 0 <= i < |tools.inventory.value| && tools.inventory.value[i].path == p {
          assert claims[i] == p;
        }
      }
    }
  }

  /** The inventory names this path, or it is one of the product's own files. */
  predicate Named(tools: Tools, layout: Layout, p: Path) {
    || (tools.inventory.Some? && exists i :: 0 <= i < |tools.inventory.value| && tools.inventory.value[i].path == p)
    || p == layout.cli || p == layout.mcp || p in layout.support
  }

  /** What a new uninstall retains before its first effect, path by path. */
  lemma RetainedBeforeTheFirstEffect(tools: Tools, layout: Layout, p: Path)
    ensures
      p in Unprovable(tools, layout) <==>
      match tools.inventory
      case None => p == layout.releasesRoot
      case Some(claims) =>
        if exists i :: 0 <= i < |claims| && !claims[i].provable then
          exists i :: 0 <= i < |claims| && !claims[i].provable && claims[i].path == p
        else
          tools.preflight.Some? && !tools.preflight.value.exact && p in tools.preflight.value.retained
  {
    if tools.inventory.Some? {
      UnprovenIsExact(tools.inventory.value);
      UnprovenPaths(tools.inventory.value, p);
    }
    AppendUniqueIsAnAppendOnlyUnion([], SafeHost(tools.preflight).retained);
  }

  lemma {:induction false} UnprovenPaths(claims: seq<Claim>, p: Path)
    ensures p in Unproven(claims) <==> exists i :: 0 <= i < |claims| && !claims[i].provable && claims[i].path == p
  {
    if claims != [] {
      UnprovenPaths(claims[1..], p);
      if i :| 0 <= i < |claims| && !claims[i].provable && claims[i].path == p {
        assert i > 0 ==> claims[1..][i - 1] == claims[i];
      }
      if i :| 0 <= i < |claims[1..]| && !claims[1..][i].provable && claims[1..][i].path == p {
        assert claims[i + 1] == claims[1..][i];
      }
    }
  }

  // ----- what the phases of an uninstall certify -----

  predicate NoRelease(layout: Layout, present: set<Path>) {
    forall p :: p in present ==> !layout.isRelease(p)
  }

  /** The exact answers to both host removals, behind what the journal held before them. */
  datatype HostRemoval = HostRemoval(before: seq<Observation>, plugin: StepEvidence, marketplace: StepEvidence)

  /** Plugin and marketplace removal were both answered exactly, and the journal carries both answers. */
  predicate HostIsGone(journal: Journal, h: HostRemoval) {
    && h.plugin.exact && h.marketplace.exact
    && h.before + h.plugin.observations + h.marketplace.observations <= journal.observations
  }

  function Removal(removals: map<Id, HostRemoval>, id: Id): Option<HostRemoval> {
    if id in removals then Some(removals[id]) else None
  }

  predicate Certified(layout: Layout, journal: Journal, present: set<Path>, removals: map<Id, HostRemoval>) {
    && (PhaseOrder(journal.phase) >= 2 ==> journal.id in removals && HostIsGone(journal, removals[journal.id]))
    && (PhaseOrder(journal.phase) >= 3 ==> NoRelease(layout, present))
    && (PhaseOrder(journal.phase) >= 5 ==> layout.cli !in present && layout.mcp !in present)
  }

  /** The world at the moment a terminal uninstall journal became durable. */
  datatype Ending = Ending(journal: Journal, active: Snapshot, present: set<Path>, removal: Option<HostRemoval>)

  /**
   `Committed` certifies exact plugin and marketplace removal, no release left
   (so none of the claimed ones), the active record gone at exactly the next
   generation, and no CLI or MCP dispatcher and no lifecycle directory left.
   */
  predicate Truthful(layout: Layout, e: Ending) {
    e.journal.outcome == Some(Committed) ==>
      && e.removal.Some? && HostIsGone(e.journal, e.removal.value)
      && NoRelease(layout, e.present)
      && layout.cli !in e.present && layout.mcp !in e.present && layout.lifecycle !in e.present
      && e.active == Snapshot(e.journal.expected.generation + (if e.journal.expected.present then 1 else 0), None)
  }

  predicate Accounted(
    d: Durable, layout: Layout, present: set<Path>, removals: map<Id, HostRemoval>, endings: map<Id, Ending>, id: Id)
  {
    id in d.journals && d.journals[id].operation == Uninstall ==>
      if d.journals[id].outcome.None? then
        Certified(layout, d.journals[id], present, removals)
      else
        id in endings && endings[id].journal == d.journals[id] && Truthful(layout, endings[id])
  }

  ghost predicate AllAccounted(
    d: Durable, layout: Layout, present: set<Path>, removals: map<Id, HostRemoval>, endings: map<Id, Ending>)
  {
    forall id :: Accounted(d, layout, present, removals, endings, id)
  }

  /** Other drivers' writes keep the account, and their files matter only while no uninstall is open. */
  lemma AccountIgnoresOthers(
    before: Durable, after: Durable, layout: Layout, present: set<Path>, present': set<Path>,
    removals: map<Id, HostRemoval>, endings: map<Id, Ending>, mine: set<Operation>)
    requires AllAccounted(before, layout, present, removals, endings) && Uninstall !in mine
    requires Foreign(before, mine) == Foreign(after, mine)
    requires present' == present || forall id :: Open(before, id) ==> before.journals[id].operation != Uninstall
    ensures AllAccounted(after, layout, present', removals, endings)
  {
    forall id ensures Accounted(after, layout, present', removals, endings, id) {
      assert Accounted(before, layout, present, removals, endings, id);
      if id in after.journals && after.journals[id].operation == Uninstall {
        assert id in Foreign(after, mine);
        assert Open(before, id) <==> Open(after, id);
      }
    }
  }

  /** The journal in memory is the durable one, and is the open uninstall. */
  ghost predicate Mine(d: Durable, journal: Journal) {
    Open(d, journal.id) && d.journals[journal.id] == journal && journal.operation == Uninstall
  }

  predicate UninstallPhase(phase: Phase) {
    phase in {Created, RemovingHostState, RemovingReleases, ActiveRemoved, RemovingDispatchers, RemovingLifecycle}
  }

  lemma WriteKeepsAccount(
    before: Durable, after: Durable, expected: Journal, journal: Journal, layout: Layout,
    present: set<Path>, removals: map<Id, HostRemoval>, endings: map<Id, Ending>, endings': map<Id, Ending>)
    requires Inv(before) && AllAccounted(before, layout, present, removals, endings)
    requires Wrote(before, after, expected, journal) && journal.operation == Uninstall && expected.outcome.None?
    requires journal.outcome.None? ==>
      UninstallStage(before, journal) && Certified(layout, journal, present, removals) && endings' == endings
    requires journal.outcome.Some? ==>
      endings' == endings[journal.id := Ending(journal, Observe(before), present, Removal(removals, journal.id))]
      && Truthful(layout, endings'[journal.id])
    ensures Inv(after) && AllAccounted(after, layout, present, removals, endings')
    ensures Foreign(after, {Uninstall}) == Foreign(before, {Uninstall})
  {
    OwnWriteKeepsForeign(before, after, journal, {Uninstall});
    WriteKeepsInv(before, after, expected, journal);
    forall id ensures Accounted(after, layout, present, removals, endings', id) {
      assert Accounted(before, layout, present, removals, endings, id);
    }
  }

  // ----- the outcome the answers deserve, when no store call raises -----

  predicate Sweepable(tools: Tools, present: set<Path>, path: Path) {
    path in present ==> tools.release(path).evidence.exact && tools.release(path).gone
  }

  predicate Erasable(tools: Tools, present: set<Path>, path: Path) {
    path in present ==> tools.file(path) == Unlinked
  }

  predicate ReleasesGo(tools: Tools, layout: Layout, present: set<Path>, claims: seq<Path>) {
    && tools.listing
    && (forall p :: p in present && layout.isRelease(p) ==> p in claims)
    && (forall p :: p in claims ==> Sweepable(tools, present, p))
  }

  predicate ActiveGoes(d: Durable, journal: Journal) {
    Untouched(d, journal) || Removed(d, journal)
  }

  /** Everything that is still to do from this phase on can be done exactly. */
  predicate Completes(tools: Tools, layout: Layout, present: set<Path>, phase: Phase, claims: seq<Path>, active: bool) {
    && tools.support.exact
    && (PhaseOrder(phase) <= 1 ==> SafeHost(tools.plugin).exact && SafeHost(tools.marketplace).exact)
    && (PhaseOrder(phase) <= 2 ==> ReleasesGo(tools, layout, present, claims) && active)
    && (PhaseOrder(phase) <= 4 ==> Erasable(tools, present, layout.cli) && Erasable(tools, present, layout.mcp))
    && Erasable(tools, present, layout.lifecycle)
  }

  predicate Answered(answer: Option<StepEvidence>) {
    answer.Some? && answer.value.exact
  }

  /** The three files that must go can all be unlinked. */
  predicate FilesUnlink(tools: Tools, layout: Layout, present: set<Path>) {
    && (layout.cli in present ==> tools.file(layout.cli) == Unlinked)
    && (layout.mcp in present ==> tools.file(layout.mcp) == Unlinked)
    && (layout.lifecycle in present ==> tools.file(layout.lifecycle) == Unlinked)
  }

  /**
   What a new uninstall needs of its answers: every present release is named
   and provable and is removed exactly, no preflight objection, exact host
   removal, and files that can be unlinked.
   */
  predicate Achievable(tools: Tools, layout: Layout, present: set<Path>) {
    && tools.inventory.Some?
    && (forall i :: 0 <= i < |tools.inventory.value| ==> tools.inventory.value[i].provable)
    && (tools.preflight.Some? && !tools.preflight.value.exact ==> tools.preflight.value.retained == [])
    && tools.support.exact && Answered(tools.plugin) && Answered(tools.marketplace) && tools.listing
    && (forall p :: p in present && layout.isRelease(p) ==>
          Named(tools, layout, p) && tools.release(p).evidence.exact && tools.release(p).gone)
    && FilesUnlink(tools, layout, present)
  }

  lemma AchievableIsExact(tools: Tools, layout: Layout, present: set<Path>)
    ensures
      Achievable(tools, layout, present) <==>
      && Unprovable(tools, layout) == []
      && Completes(tools, layout, present, Created, Claimed(OwnedPaths(tools, layout), layout.isRelease), true)
  {
    var claims := Claimed(OwnedPaths(tools, layout), layout.isRelease);
    ClaimedAreReleases(OwnedPaths(tools, layout), layout.isRelease);
    PreflightStopsExactly(tools, layout);
    forall p ensures p in claims <==> Named(tools, layout, p) && layout.isRelease(p) {
      OwnedPathsAreNamed(tools, layout, p);
    }
    hide OwnedPaths, Unprovable, Claimed, Named;
  }

  /** What an interrupted uninstall still needs, phase by phase: no more than what is left to do. */
  lemma WhatIsLeft(tools: Tools, layout: Layout, present: set<Path>, phase: Phase, claims: seq<Path>, active: bool)
    requires forall p :: p in claims ==> layout.isRelease(p)
    requires UninstallPhase(phase)
    ensures
      var releases := tools.listing && active && forall p :: p in present && layout.isRelease(p) ==>
        p in claims && tools.release(p).evidence.exact && tools.release(p).gone;
      Completes(tools, layout, present, phase, claims, active) <==>
      && tools.support.exact
      && (phase in {Created, RemovingHostState} ==> Answered(tools.plugin) && Answered(tools.marketplace))
      && (phase in {Created, RemovingHostState, RemovingReleases} ==> releases)
      && (if phase == RemovingLifecycle then layout.lifecycle in present ==> tools.file(layout.lifecycle) == Unlinked
          else FilesUnlink(tools, layout, present))
  {
  }

  datatype UninstallResult = UninstallResult(transactionId: Id, outcome: Outcome, recovered: bool)

  ghost predicate Ended(d: Durable, r: UninstallResult) {
    r.transactionId in d.journals && d.journals[r.transactionId].outcome == Some(r.outcome)
  }

  /** A driver step either continues with a journal or has ended the run. */
  datatype Step = Continues(journal: Journal) | Stopped(result: UninstallResult)

  /** What a step from `journal` leads to. */
  ghost predicate Leads(d: Durable, journal: Journal, step: Step, phase: Phase) {
    match step
    case Continues(next) =>
      Mine(d, next) && SameIdentity(journal, next) && next.phase == phase && next.owned == journal.owned
    case Stopped(result) =>
      Ended(d, result) && result.transactionId == journal.id && result.outcome == Partial
  }

  lemma SmallerWorldKeepsAccount(
    d: Durable, layout: Layout, present: set<Path>, present': set<Path>, removals: map<Id, HostRemoval>,
    endings: map<Id, Ending>)
    requires AllAccounted(d, layout, present, removals, endings) && present' <= present
    ensures AllAccounted(d, layout, present', removals, endings)
  {
    forall id ensures Accounted(d, layout, present', removals, endings, id) {
      assert Accounted(d, layout, present, removals, endings, id);
    }
  }

  /** An uninstall that is still at the host may note its host removal. */
  lemma RemovalKeepsAccount(
    d: Durable, layout: Layout, present: set<Path>, removals: map<Id, HostRemoval>, endings: map<Id, Ending>,
    id: Id, removal: HostRemoval)
    requires AllAccounted(d, layout, present, removals, endings)
    requires Open(d, id) && Keyed(d.journals) && PhaseOrder(d.journals[id].phase) < 2
    ensures AllAccounted(d, layout, present, removals[id := removal], endings)
  {
    var removals' := removals[id := removal];
    forall k ensures Accounted(d, layout, present, removals', endings, k) {
      assert Accounted(d, layout, present, removals, endings, k);
    }
  }

  lemma ClaimedAreReleases(owned: seq<Path>, isRelease: Path -> bool)
    ensures forall p :: p in Claimed(owned, isRelease) <==> p in owned && isRelease(p)
  {
  }

  class DurableUninstaller {
    const state: LifecycleState
    const layout: Layout
    var tools: Tools
    /** The managed releases, dispatchers and directories that exist. */
    var present: set<Path>
    /** What was answered when plugin and marketplace were removed, by transaction. */
    ghost var removals: map<Id, HostRemoval>
    ghost var endings: map<Id, Ending>
    ghost var foreign: map<Id, Journal>

    ghost predicate Good()
      reads this, state
    {
      && state.Valid()
      && Inv(state.State())
      && AllAccounted(state.State(), layout, present, removals, endings)
      && !state.illegalPhase
      && Foreign(state.State(), {Uninstall}) == foreign
    }

    constructor (state: LifecycleState, layout: Layout, tools: Tools)
      requires state.Valid() && state.State() == EMPTY && !state.illegalPhase
      ensures this.state == state && this.layout == layout && Good()
    {
      this.state, this.layout, this.tools := state, layout, tools;
      present, removals, endings, foreign := {}, map[], map[], map[];
      new;
      EmptyInv();
    }

    /** A new process, with new answers, in a world other drivers may have changed while no uninstall was open. */
    method Restart(tools: Tools, present: set<Path>)
      requires state.Valid() && Inv(state.State()) && !state.illegalPhase
      requires AllAccounted(state.State(), layout, present, removals, endings)
      modifies this
      ensures Good() && this.tools == tools && this.present == present
      ensures removals == old(removals) && endings == old(endings)
      ensures foreign == Foreign(state.State(), {Uninstall})
    {
      this.tools, this.present := tools, present;
      foreign := Foreign(state.State(), {Uninstall});
    }

    // ----- journal writes -----

    method Advance(journal: Journal, phase: Phase, evidence: Evidence) returns (r: Result<Journal, Error>)
      requires Good()
      requires journal.operation == Uninstall && UninstallPhase(phase) && LegalPhase(journal.phase, phase)
      requires Mine(state.State(), journal)
      requires UninstallStage(state.State(), journal.(phase := phase))
      requires Certified(layout, journal.(phase := phase), present, removals)
      modifies state
      ensures Good() && state.active == old(state.active) && Observe(state.State()) == Observe(old(state.State()))
      ensures r.Success? ==> Mine(state.State(), r.value) && SameIdentity(journal, r.value) && r.value.phase == phase
      ensures r.Success? ==> r.value.observations == journal.observations + evidence.observations
      ensures r.Success? && evidence.owned == [] ==> r.value.owned == journal.owned
      ensures r.Success? ==> journal.retained <= r.value.retained
      ensures r.Success? && evidence.retained == [] ==> r.value.retained == journal.retained
      ensures state.stumbled <==> old(state.stumbled) || r.Failure?
    {
      hide Inv, AllAccounted, NextPhases;
      ghost var before := state.State();
      var next := Advanced(journal, phase, evidence);
      r := state.AdvanceTransaction(journal, phase, evidence);
      AppendUniqueIsAnAppendOnlyUnion(journal.retained, evidence.retained);
      if state.State() != before {
        assert UninstallStage(before, next) && Certified(layout, next, present, removals);
        WriteKeepsAccount(before, state.State(), journal, next, layout, present, removals, endings, endings);
      }
    }

    lemma Stands(journal: Journal)
      requires Good() && Mine(state.State(), journal)
      ensures UninstallPhase(journal.phase)
      ensures UninstallStage(state.State(), journal)
      ensures Certified(layout, journal, present, removals)
      ensures journal.expected == Snapshot(journal.expected.generation, journal.previous).Expectation()
      ensures forall id :: Open(state.State(), id) ==> id == journal.id
    {
      assert JournalOk(state.State(), journal.id);
      assert Accounted(state.State(), layout, present, removals, endings, journal.id);
      forall id | Open(state.State(), id) ensures id == journal.id {
        AnUninstallIsAlone(state.State(), journal.id, id);
      }
    }

    /** `_record`. */
    method Record(journal: Journal, e: StepEvidence) returns (r: Result<Journal, Error>)
      requires Good() && Mine(state.State(), journal)
      modifies state
      ensures Good() && state.active == old(state.active) && Observe(state.State()) == Observe(old(state.State()))
      ensures r.Success? ==>
        Mine(state.State(), r.value) && SameIdentity(journal, r.value) && r.value.phase == journal.phase
      ensures r.Success? ==> r.value.observations == journal.observations + e.observations
      ensures r.Success? ==> r.value.owned == journal.owned
      ensures state.stumbled <==> old(state.stumbled) || r.Failure?
    {
      hide Good;
      Stands(journal);
      r := Advance(journal, journal.phase, e.AsEvidence());
    }

    /** The terminal write. */
    method Finish(journal: Journal, outcome: Outcome, evidence: Evidence, recovered: bool)
      returns (r: Result<UninstallResult, Error>)
      requires Good() && Mine(state.State(), journal)
      requires Truthful(
        layout,
        Ending(journal.(outcome := Some(outcome)), Observe(state.State()), present, Removal(removals, journal.id)))
      modifies state, this`endings
      ensures Good() && Observe(state.State()) == Observe(old(state.State()))
      ensures r.Success? ==> r.value == UninstallResult(journal.id, outcome, recovered) && Ended(state.State(), r.value)
      ensures state.stumbled <==> old(state.stumbled) || r.Failure?
    {
      hide Inv, AllAccounted, NextPhases, NoRelease;
      Stands(journal);
      ghost var before := state.State();
      ghost var done := Advanced(journal, Terminal, evidence).(outcome := Some(outcome));
      var finished := state.FinishTransaction(journal, outcome, evidence);
      if state.State() != before {
        ghost var endings' := endings[journal.id := Ending(done, Observe(before), present, Removal(removals, journal.id))];
        WriteKeepsAccount(before, state.State(), journal, done, layout, present, removals, endings, endings');
        endings := endings';
      }
      if finished.Failure? {
        return Failure(finished.error);
      }
      return Success(UninstallResult(journal.id, outcome, recovered));
    }

    /** `_partial`. */
    method Stop(journal: Journal, recovered: bool) returns (r: Result<UninstallResult, Error>)
      requires Good() && Mine(state.State(), journal)
      modifies state, this`endings
      ensures Good() && Observe(state.State()) == Observe(old(state.State()))
      ensures r.Success? ==> r.value == UninstallResult(journal.id, Partial, recovered) && Ended(state.State(), r.value)
      ensures state.stumbled <==> old(state.stumbled) || r.Failure?
    {
      hide Good;
      r := Finish(journal, Partial, Evidence(UNKNOWN_STEP, [], [], [], STOP), recovered);
    }

    /** Journal what a removal reported; an inexact one ends the run. */
    method RecordOrStop(journal: Journal, e: StepEvidence, recovered: bool) returns (r: Result<Step, Error>)
      requires Good() && Mine(state.State(), journal)
      modifies state, this`endings
      ensures Good() && state.active == old(state.active) && Observe(state.State()) == Observe(old(state.State()))
      ensures r.Success? ==> Leads(state.State(), journal, r.value, journal.phase) && (r.value.Continues? <==> e.exact)
      ensures r.Success? && r.value.Continues? ==>
        r.value.journal.observations == journal.observations + e.observations
      ensures state.stumbled <==> old(state.stumbled) || r.Failure?
    {
      hide Good;
      var recorded :- Record(journal, e);
      if e.exact {
        return Success(Continues(recorded));
      }
      var stopped :- Stop(recorded, recovered);
      return Success(Stopped(stopped));
    }

    /** Move an open uninstall to the next phase, once that phase is earned. */
    method Proceed(journal: Journal, phase: Phase) returns (r: Result<Journal, Error>)
      requires Good() && Mine(state.State(), journal)
      requires phase in NextPhases(journal.phase) && UninstallPhase(phase)
      requires UninstallStage(state.State(), journal.(phase := phase))
      requires Certified(layout, journal.(phase := phase), present, removals)
      modifies state
      ensures Good() && state.active == old(state.active) && Observe(state.State()) == Observe(old(state.State()))
      ensures r.Success? ==> Leads(state.State(), journal, Continues(r.value), phase)
      ensures state.stumbled <==> old(state.stumbled) || r.Failure?
    {
      hide Good;
      Stands(journal);
      r := Advance(journal, phase, NOTHING);
    }

    // ----- host -----

    /** The world may only shrink while an uninstall is open. */
    ghost method Shrunk(before: set<Path>)
      requires state.Valid() && Inv(state.State()) && !state.illegalPhase
      requires Foreign(state.State(), {Uninstall}) == foreign
      requires AllAccounted(state.State(), layout, before, removals, endings) && present <= before
      ensures Good()
    {
      SmallerWorldKeepsAccount(state.State(), layout, before, present, removals, endings);
    }

    /** This process was answered exactly on both removals, and has journaled both answers. */
    ghost predicate Answered(journal: Journal, removal: HostRemoval)
      reads this
    {
      && removal.plugin == SafeHost(tools.plugin) && removal.marketplace == SafeHost(tools.marketplace)
      && HostIsGone(journal, removal)
    }

    ghost method Attest(journal: Journal, removal: HostRemoval)
      requires Good() && Mine(state.State(), journal) && journal.phase == RemovingHostState
      requires Answered(journal, removal)
      modifies this`removals
      ensures Good() && removals == old(removals)[journal.id := removal]
    {
      hide Inv, Accounted;
      RemovalKeepsAccount(state.State(), layout, present, removals, endings, journal.id, removal);
      removals := removals[journal.id := removal];
    }

    /** Both host removals were exact: the releases come next. */
    method HostRemoved(journal: Journal, ghost removal: HostRemoval) returns (r: Result<Journal, Error>)
      requires Good() && Mine(state.State(), journal) && journal.phase == RemovingHostState
      requires Answered(journal, removal)
      modifies state, this`removals
      ensures Good() && Observe(state.State()) == Observe(old(state.State()))
      ensures r.Success? ==> Leads(state.State(), journal, Continues(r.value), RemovingReleases)
      ensures removals == old(removals)[journal.id := removal]
      ensures state.stumbled <==> old(state.stumbled) || r.Failure?
    {
      hide Good;
      Attest(journal, removal);
      Stands(journal);
      r := Proceed(journal, RemovingReleases);
    }

    method BeginHost(journal: Journal) returns (r: Result<Journal, Error>)
      requires Good() && Mine(state.State(), journal) && PhaseOrder(journal.phase) <= 1
      modifies state
      ensures Good() && Observe(state.State()) == Observe(old(state.State()))
      ensures r.Success? ==> Leads(state.State(), journal, Continues(r.value), RemovingHostState)
      ensures state.stumbled <==> old(state.stumbled) || r.Failure?
    {
      hide Good;
      Stands(journal);
      if journal.phase != Created {
        return Success(journal);
      }
      r := Proceed(journal, RemovingHostState);
    }

    method RemoveHost(journal0: Journal, recovered: bool) returns (r: Result<Step, Error>)
      requires Good() && Mine(state.State(), journal0) && PhaseOrder(journal0.phase) <= 1
      modifies state, this`endings, this`removals
      ensures Good() && Observe(state.State()) == Observe(old(state.State()))
      ensures r.Success? ==> Leads(state.State(), journal0, r.value, RemovingReleases)
      ensures state.stumbled <==> old(state.stumbled) || r.Failure?
      ensures r.Success? ==>
        (r.value.Continues? <==> SafeHost(tools.plugin).exact && SafeHost(tools.marketplace).exact)
    {
      hide Good, UninstallStage, Certified, NextPhases;
      var journal :- BeginHost(journal0);
      var plugin :- RecordOrStop(journal, SafeHost(tools.plugin), recovered);
      if plugin.Stopped? {
        return Success(plugin);
      }
      ghost var before := journal.observations;
      var marketplace :- RecordOrStop(plugin.journal, SafeHost(tools.marketplace), recovered);
      if marketplace.Stopped? {
        return Success(marketplace);
      }
      ghost var removal := HostRemoval(before, SafeHost(tools.plugin), SafeHost(tools.marketplace));
      journal :- HostRemoved(marketplace.journal, removal);
      return Success(Continues(journal));
    }

    // ----- releases -----

    /** `remove_release`, and the fresh look at the path that its evidence must survive. */
    method SweepRelease(path: Path) returns (e: StepEvidence)
      requires Good()
      modifies this`present
      ensures Good() && present <= old(present) && old(present) - {path} <= present
      ensures e.exact <==> Sweepable(tools, old(present), path)
      ensures e.exact ==> path !in present
    {
      hide Inv, Accounted;
      ghost var before := present;
      if path !in present {
        e := EXACTLY;
      } else {
        var swept := tools.release(path);
        if swept.gone {
          present := present - {path};
        }
        e := swept.evidence.(exact := swept.evidence.exact && path !in present);
      }
      Shrunk(before);
    }

    method SweepAll(journal0: Journal, claims: seq<Path>, recovered: bool) returns (r: Result<Step, Error>)
      requires Good() && Mine(state.State(), journal0) && journal0.phase == RemovingReleases
      modifies state, this`endings, this`present
      ensures Good() && Observe(state.State()) == Observe(old(state.State()))
      ensures present <= old(present)
      ensures r.Success? ==> Leads(state.State(), journal0, r.value, RemovingReleases)
      ensures r.Success? && r.value.Continues? ==> forall p :: p in claims ==> p !in present
      ensures r.Success? ==> (r.value.Continues? <==> forall p :: p in claims ==> Sweepable(tools, old(present), p))
      ensures forall p :: p in old(present) && p !in claims ==> p in present
      ensures state.stumbled <==> old(state.stumbled) || r.Failure?
    {
      hide Good;
      var journal := journal0;
      var i := 0;
      while i < |claims|
        invariant 0 <= i <= |claims|
        invariant Good() && Observe(state.State()) == Observe(old(state.State()))
        invariant Leads(state.State(), journal0, Continues(journal), RemovingReleases)
        invariant present <= old(present)
        invariant forall k :: 0 <= k < i ==> claims[k] !in present && Sweepable(tools, old(present), claims[k])
        invariant forall p :: p in old(present) && p !in claims[..i] ==> p in present
        invariant state.stumbled <==> old(state.stumbled)
      {
        var e := SweepRelease(claims[i]);
        assert e.exact <==> Sweepable(tools, old(present), claims[i]) by {
          assert claims[i] in old(present) && claims[i] !in present ==> claims[i] in claims[..i + 1];
        }
        var step :- RecordOrStop(journal, e, recovered);
        if step.Stopped? {
          assert claims[i] in claims;
          return Success(step);
        }
        journal := step.journal;
        i := i + 1;
      }
      return Success(Continues(journal));
    }

    /** `_current_release_paths` minus the claims, as a list. */
    method Undeclared(claims: seq<Path>) returns (unknown: seq<Path>)
      ensures forall p :: p in unknown <==> p in present && layout.isRelease(p) && p !in claims
    {
      unknown := [];
      var rest := present;
      while rest != {}
        invariant rest <= present
        invariant forall p :: p in unknown <==> p in present - rest && layout.isRelease(p) && p !in claims
        decreases rest
      {
        var p :| p in rest;
        rest := rest - {p};
        if layout.isRelease(p) && p !in claims {
          unknown := unknown + [p];
        }
      }
    }

    /** Delete the active record exactly once, or recognise that this transaction already did. */
    method RemoveActive(journal: Journal) returns (e: StepEvidence)
      requires Good() && Mine(state.State(), journal) && PhaseOrder(journal.phase) <= 2
      modifies state
      ensures Good() && Mine(state.State(), journal)
      ensures e.exact ==> Removed(state.State(), journal)
      ensures e.exact ==> ActiveGoes(old(state.State()), journal)
      ensures old(state.stumbled) ==> state.stumbled
      ensures !state.stumbled ==> (e.exact <==> ActiveGoes(old(state.State()), journal))
      ensures
        var seen := old(Observe(state.State()));
        // the record is as the journal expects it, or gone at the one generation its deletion leads to
        var goes :=
          || journal.expected == seen.Expectation()
          || (seen.record.None?
              && seen.generation == journal.expected.generation + (if journal.expected.present then 1 else 0));
        (e.exact ==> goes) && (!state.stumbled && goes ==> e.exact)
        && (e.exact ==>
              && state.active.None?
              && Observe(state.State()).generation ==
                 journal.expected.generation + (if journal.expected.present then 1 else 0))
      ensures e.exact ==> state.stumbled == old(state.stumbled)
      // Still present at the next generation: an interrupted deletion is never completed.
      ensures HalfRemoved(old(state.State()), journal) ==> !e.exact && state.State() == old(state.State())
    {
      hide Inv, AllAccounted, UninstallStage;
      Stands(journal);
      ghost var before := state.State();
      var retained := Inexactly([layout.activePath]);
      var current := state.ReadActive();
      if current.Failure? {
        return retained;
      }
      var applied := false;
      if journal.expected.present {
        if current.value.Present() && Matches(current.value, journal.expected) {
          var deleted := state.CompareAndDeleteActive(journal.expected);
          Deleted(before, journal);
          if deleted.Failure? {
            return retained;
          }
          applied := true;
        } else if !current.value.Present() && current.value.generation == journal.expected.generation + 1 {
          applied := true;
        } else {
          return retained;
        }
      } else if current.value.Present() || current.value.generation != journal.expected.generation {
        return retained;
      }
      return StepEvidence(
        true,
        [Observation("active", Absent, None)],
        [Effect("active", layout.activePath, None, None, applied)],
        [],
        []);
    }

    /** Whatever part of the deletion became durable, the driver's facts still hold. */
    lemma Deleted(before: Durable, journal: Journal)
      requires Inv(before) && Mine(before, journal) && PhaseOrder(journal.phase) <= 2
      requires UninstallPhase(journal.phase) && Untouched(before, journal) && journal.expected.present
      requires state.Valid() && !state.illegalPhase && state.journals == before.journals
      requires AllAccounted(before, layout, present, removals, endings)
      requires Foreign(before, {Uninstall}) == foreign
      requires
        var g := Observe(before).generation + 1;
        || state.State() == before
        || state.State() == before.(watermark := g)
        || state.State() == before.(watermark := g, active := None)
      ensures Good()
    {
      assert JournalOk(before, journal.id);
      RemovalKeepsInv(before, state.State(), journal.id);
      forall id ensures Accounted(state.State(), layout, present, removals, endings, id) {
        assert Accounted(before, layout, present, removals, endings, id);
      }
    }

    /** The active record goes last of all that a phase of releases removes. */
    method DropActive(journal0: Journal, recovered: bool) returns (r: Result<Step, Error>)
      requires Good() && Mine(state.State(), journal0) && journal0.phase == RemovingReleases
      requires NoRelease(layout, present)
      modifies state, this`endings
      ensures Good()
      ensures r.Success? ==> Leads(state.State(), journal0, r.value, ActiveRemoved)
      ensures old(state.stumbled) ==> state.stumbled
      ensures !state.stumbled ==> r.Success? && (r.value.Continues? <==> ActiveGoes(old(state.State()), journal0))
    {
      hide Good, UninstallStage, Certified, NoRelease, ActiveGoes;
      var e := RemoveActive(journal0);
      var step :- RecordOrStop(journal0, e, recovered);
      if step.Stopped? {
        return Success(step);
      }
      Beyond(step.journal);
      var journal :- Proceed(step.journal, ActiveRemoved);
      return Success(Continues(journal));
    }

    method RemoveReleases(journal0: Journal, recovered: bool) returns (r: Result<Step, Error>)
      requires Good() && Mine(state.State(), journal0) && journal0.phase == RemovingReleases
      modifies state, this`endings, this`present
      ensures Good() && present <= old(present)
      ensures r.Success? ==> Leads(state.State(), journal0, r.value, ActiveRemoved)
      ensures old(state.stumbled) ==> state.stumbled
      ensures !state.stumbled ==> r.Success?
      ensures !state.stumbled ==>
        (r.value.Continues? <==>
          ReleasesGo(tools, layout, old(present), Claimed(journal0.owned, layout.isRelease))
          && ActiveGoes(old(state.State()), journal0))
      ensures forall p :: p in old(present) && !layout.isRelease(p) ==> p in present
    {
      hide Good, UninstallStage, ActiveGoes;
      var journal := journal0;
      var claims := Claimed(journal.owned, layout.isRelease);
      ClaimedAreReleases(journal.owned, layout.isRelease);
      if !tools.listing {
        r := RecordOrStop(journal, Inexactly([layout.releasesRoot]), recovered);
        return;
      }
      var unknown := Undeclared(claims);
      if unknown != [] {
        assert unknown[0] in unknown;
        r := RecordOrStop(journal, Inexactly(unknown), recovered);
        return;
      }
      var swept :- SweepAll(journal, claims, recovered);
      if swept.Stopped? {
        return Success(swept);
      }
      SameActive(old(state.State()), journal, swept.journal);
      r := DropActive(swept.journal, recovered);
    }

    /** With the releases and the active record gone, the next phase is earned. */
    lemma Beyond(journal: Journal)
      requires Good() && Mine(state.State(), journal) && journal.phase == RemovingReleases
      requires NoRelease(layout, present) && Removed(state.State(), journal)
      ensures UninstallStage(state.State(), journal.(phase := ActiveRemoved))
      ensures Certified(layout, journal.(phase := ActiveRemoved), present, removals)
    {
      Stands(journal);
    }

    // ----- dispatchers and lifecycle support -----

    /** `_remove_named_dispatchers`: nothing is erased while any of them is altered. */
    method RemoveNamed(names: seq<Path>) returns (e: StepEvidence)
      requires Good()
      modifies this`present
      ensures Good() && present <= old(present)
      ensures e.exact <==> forall p :: p in names ==> Erasable(tools, old(present), p)
      ensures e.exact ==> forall p :: p in names ==> p !in present
      ensures (exists p :: p in names && p in old(present) && tools.file(p) == Altered) ==> present == old(present)
      ensures forall p :: p in old(present) && p !in names ==> p in present
    {
      hide Good;
      var candidates: seq<Path> := [];
      var retained: seq<Path> := [];
      for i := 0 to |names|
        invariant forall p :: p in candidates <==> p in names[..i] && p in present && tools.file(p) != Altered
        invariant forall p :: p in retained <==> p in names[..i] && p in present && tools.file(p) == Altered
      {
        assert names[..i + 1] == names[..i] + [names[i]];
        if names[i] in present {
          if tools.file(names[i]) == Altered {
            retained := retained + [names[i]];
          } else {
            candidates := candidates + [names[i]];
          }
        }
      }
      assert names[..|names|] == names;
      if retained != [] {
        assert retained[0] in retained;
        return Inexactly(retained);
      }
      e := EraseAll(candidates);
    }

    method Unlink(path: Path)
      requires Good()
      modifies this`present
      ensures Good() && present == old(present) - {path}
    {
      hide Inv, Accounted;
      ghost var before := present;
      present := present - {path};
      Shrunk(before);
    }

    method EraseAll(candidates: seq<Path>) returns (e: StepEvidence)
      requires Good() && forall p :: p in candidates ==> tools.file(p) != Altered
      modifies this`present
      ensures Good() && present <= old(present)
      ensures e.exact <==> forall p :: p in candidates ==> Erasable(tools, old(present), p)
      ensures e.exact ==> forall p :: p in candidates ==> p !in present
      ensures forall p :: p in old(present) && p !in candidates ==> p in present
    {
      hide Good;
      var effects: seq<Effect> := [];
      for i := 0 to |candidates|
        invariant Good() && present <= old(present)
        invariant forall k :: 0 <= k < i ==> candidates[k] !in present && Erasable(tools, old(present), candidates[k])
        invariant forall p :: p in old(present) && p !in candidates[..i] ==> p in present
      {
        var path := candidates[i];
        assert candidates[..i + 1] == candidates[..i] + [path];
        if path in present {
          if tools.file(path) != Unlinked {
            assert path in candidates;
            return StepEvidence(false, [], effects, [path], INSPECT);
          }
          Unlink(path);
          effects := effects + [Effect("dispatcher", path, None, None, true)];
        } else {
          effects := effects + [Effect("dispatcher", path, None, None, false)];
        }
      }
      return StepEvidence(true, [], effects, [], []);
    }

    method RemoveDispatchers(journal0: Journal, recovered: bool) returns (r: Result<Step, Error>)
      requires Good() && Mine(state.State(), journal0) && journal0.phase in {ActiveRemoved, RemovingDispatchers}
      modifies state, this`endings, this`present
      ensures Good() && present <= old(present)
      ensures r.Success? ==> Leads(state.State(), journal0, r.value, RemovingLifecycle)
      ensures state.stumbled <==> old(state.stumbled) || r.Failure?
      ensures r.Success? ==>
        (r.value.Continues? <==> Erasable(tools, old(present), layout.cli) && Erasable(tools, old(present), layout.mcp))
      ensures forall p :: p in old(present) && p != layout.cli && p != layout.mcp ==> p in present
    {
      hide Good;
      Stands(journal0);
      var journal := journal0;
      if journal.phase == ActiveRemoved {
        journal :- Proceed(journal, RemovingDispatchers);
      }
      var e := RemoveNamed([layout.cli, layout.mcp]);
      var step :- RecordOrStop(journal, e, recovered);
      if step.Stopped? {
        return Success(step);
      }
      journal := step.journal;
      Stands(journal);
      journal :- Proceed(journal, RemovingLifecycle);
      return Success(Continues(journal));
    }

    /** The lifecycle directory, the residue, and the terminal write. */
    method Complete(journal0: Journal, recovered: bool) returns (r: Result<UninstallResult, Error>)
      requires Good() && Mine(state.State(), journal0) && journal0.phase == RemovingLifecycle
      modifies state, this`endings, this`present
      ensures Good()
      ensures r.Success? ==> Ended(state.State(), r.value) && r.value.transactionId == journal0.id
      ensures state.stumbled <==> old(state.stumbled) || r.Failure?
      ensures r.Success? ==>
        r.value.outcome == if Erasable(tools, old(present), layout.lifecycle) then Committed else Partial
    {
      hide Good;
      var journal := journal0;
      var e := RemoveNamed([layout.lifecycle]);
      journal :- Record(journal, e);
      if !e.exact {
        r := Stop(journal, recovered);
        return;
      }
      Stands(journal);
      r := Finish(journal, Committed, Evidence([], [], [], tools.residue, STOP), recovered);
    }

    /** The phases after the active record is gone. */
    method ResumeTail(journal0: Journal, recovered: bool) returns (r: Result<UninstallResult, Error>)
      requires Good() && Mine(state.State(), journal0) && PhaseOrder(journal0.phase) >= 3
      modifies state, this`endings, this`present
      ensures Good()
      ensures r.Success? ==> Ended(state.State(), r.value) && r.value.transactionId == journal0.id
      ensures state.stumbled <==> old(state.stumbled) || r.Failure?
      ensures r.Success? && Separate(layout) ==>
        r.value.outcome ==
        if && (PhaseOrder(journal0.phase) <= 4 ==>
                 Erasable(tools, old(present), layout.cli) && Erasable(tools, old(present), layout.mcp))
           && Erasable(tools, old(present), layout.lifecycle)
        then Committed else Partial
    {
      hide Good;
      Stands(journal0);
      var journal := journal0;
      if journal.phase != RemovingLifecycle {
        var step :- RemoveDispatchers(journal, recovered);
        if step.Stopped? {
          return Success(step.result);
        }
        journal := step.journal;
      }
      r := Complete(journal, recovered);
    }

    method Resume(journal0: Journal, recovered: bool) returns (r: Result<UninstallResult, Error>)
      requires Good() && Mine(state.State(), journal0) && tools.support.exact
      modifies state, this`endings, this`present, this`removals
      ensures Good()
      ensures old(state.stumbled) ==> state.stumbled
      ensures r.Success? ==> Ended(state.State(), r.value) && r.value.transactionId == journal0.id
      ensures !state.stumbled ==> r.Success?
      ensures !state.stumbled && Separate(layout) ==>
        r.value.outcome ==
        if Completes(tools, layout, old(present), journal0.phase, Claimed(journal0.owned, layout.isRelease),
                     ActiveGoes(old(state.State()), journal0))
        then Committed else Partial
    {
      hide Good, UninstallStage, Certified, NextPhases, Erasable, ReleasesGo, ActiveGoes;
      Stands(journal0);
      var journal := journal0;
      if PhaseOrder(journal.phase) <= 1 {
        var step :- RemoveHost(journal, recovered);
        if step.Stopped? {
          return Success(step.result);
        }
        journal := step.journal;
        SameActive(old(state.State()), journal0, journal);
      }
      r := ResumeReleases(journal, recovered);
    }

    method ResumeReleases(journal0: Journal, recovered: bool) returns (r: Result<UninstallResult, Error>)
      requires Good() && Mine(state.State(), journal0) && PhaseOrder(journal0.phase) >= 2
      modifies state, this`endings, this`present
      ensures Good()
      ensures old(state.stumbled) ==> state.stumbled
      ensures r.Success? ==> Ended(state.State(), r.value) && r.value.transactionId == journal0.id
      ensures !state.stumbled ==> r.Success?
      ensures !state.stumbled && Separate(layout) ==>
        r.value.outcome ==
        if && (PhaseOrder(journal0.phase) <= 2 ==>
                 && ReleasesGo(tools, layout, old(present), Claimed(journal0.owned, layout.isRelease))
                 && ActiveGoes(old(state.State()), journal0))
           && (PhaseOrder(journal0.phase) <= 4 ==>
                 Erasable(tools, old(present), layout.cli) && Erasable(tools, old(present), layout.mcp))
           && Erasable(tools, old(present), layout.lifecycle)
        then Committed else Partial
    {
      hide Good, UninstallStage, Certified, NextPhases, Erasable, ReleasesGo, ActiveGoes;
      Stands(journal0);
      var journal := journal0;
      if journal.phase == RemovingReleases {
        var step :- RemoveReleases(journal, recovered);
        if step.Stopped? {
          return Success(step.result);
        }
        journal := step.journal;
        OutsideReleases(old(present));
      }
      r := ResumeTail(journal, recovered);
    }

    /** Removing releases does not change what becomes of the dispatchers and the lifecycle directory. */
    lemma OutsideReleases(before: set<Path>)
      requires present <= before && forall p :: p in before && !layout.isRelease(p) ==> p in present
      ensures Separate(layout) ==>
        && (Erasable(tools, present, layout.cli) <==> Erasable(tools, before, layout.cli))
        && (Erasable(tools, present, layout.mcp) <==> Erasable(tools, before, layout.mcp))
        && (Erasable(tools, present, layout.lifecycle) <==> Erasable(tools, before, layout.lifecycle))
    {
    }

    // ----- one locked run -----

    method CreateTransaction() returns (r: Result<Journal, Error>)
      requires Good() && forall id :: !Open(state.State(), id)
      modifies state
      ensures Good() && Observe(state.State()) == Observe(old(state.State()))
      ensures r.Success? ==>
        Mine(state.State(), r.value) && r.value.id == tools.transactionId && r.value.phase == Created
      ensures r.Success? ==> r.value.owned == OwnedPaths(tools, layout) && r.value.retained == Unprovable(tools, layout)
      ensures r.Success? ==> forall p :: p in r.value.owned <==> Named(tools, layout, p)
      ensures r.Success? ==> ActiveGoes(state.State(), r.value)
      ensures state.stumbled <==> old(state.stumbled) || r.Failure?
    {
      forall p ensures p in OwnedPaths(tools, layout) <==> Named(tools, layout, p) {
        OwnedPathsAreNamed(tools, layout, p);
      }
      ghost var before := state.State();
      var active :- state.ReadActive();
      var journal := Journal(
        tools.transactionId, Uninstall, active.Expectation(), None, active.record, [], [],
        OwnedPaths(tools, layout), Created, None, Unprovable(tools, layout), []);
      r := state.CreateTransaction(journal);
      if state.State() != before {
        Opened(before, journal);
      }
    }

    lemma Opened(before: Durable, journal: Journal)
      requires Inv(before) && AllAccounted(before, layout, present, removals, endings)
      requires Foreign(before, {Uninstall}) == foreign && state.Valid() && !state.illegalPhase
      requires journal.id !in before.journals && WellFormed(journal)
      requires state.State() == before.(journals := before.journals[journal.id := journal])
      requires journal.operation == Uninstall && journal.phase == Created
      requires journal.expected == Observe(before).Expectation() && journal.previous == before.active
      requires forall id :: !Open(before, id)
      ensures Good() && Mine(state.State(), journal) && Untouched(state.State(), journal)
    {
      CreateKeepsInv(before, state.State(), journal);
      OwnWriteKeepsForeign(before, state.State(), journal, {Uninstall});
      forall id ensures Accounted(state.State(), layout, present, removals, endings, id) {
        assert Accounted(before, layout, present, removals, endings, id);
      }
    }

    method Pending() returns (r: Result<seq<Journal>, Error>)
      requires Good()
      modifies state
      ensures Good() && state.State() == old(state.State())
      ensures state.stumbled <==> old(state.stumbled) || r.Failure?
      ensures r.Success? ==> Enumerates(r.value, state.State())
      ensures r.Success? ==> |r.value| <= 2
      ensures r.Success? && |r.value| == 2 ==> Nested(r.value[0], r.value[1]) || Nested(r.value[1], r.value[0])
    {
      r := state.NonTerminalTransactions();
      if r.Success? {
        PendingShapes(state.State(), r.value);
      }
    }

    /** Carry an open uninstall on: stop if its evidence was unprovable, else resume it. */
    method Carry(journal0: Journal, recovered: bool) returns (r: Result<UninstallResult, Error>)
      requires Good() && Mine(state.State(), journal0)
      modifies state, this`endings, this`present, this`removals
      ensures Good()
      ensures old(state.stumbled) ==> state.stumbled
      ensures r.Success? ==> Ended(state.State(), r.value) && r.value.transactionId == journal0.id
      ensures !state.stumbled ==> r.Success?
      ensures !state.stumbled && Separate(layout) ==>
        r.value.outcome ==
        if journal0.retained == [] &&
           Completes(tools, layout, old(present), journal0.phase, Claimed(journal0.owned, layout.isRelease),
                     ActiveGoes(old(state.State()), journal0))
        then Committed else Partial
      // Retained evidence stops the run before its first effect.
      ensures journal0.retained != [] ==>
        present == old(present) && Observe(state.State()) == Observe(old(state.State()))
    {
      hide Good, UninstallStage, Removed;
      var journal := journal0;
      if journal.retained != [] {
        r := Finish(journal, Partial, Evidence(UNKNOWN_STEP, [], [], [], INSPECT), recovered);
        return;
      }
      journal :- Record(journal, tools.support);
      if !tools.support.exact {
        r := Stop(journal, recovered);
        return;
      }
      SameActive(old(state.State()), journal0, journal);
      r := Resume(journal, recovered);
    }

    /** Journal that an interrupted uninstall is being resumed, and carry it on. */
    method CarryOn(journal: Journal) returns (r: Result<UninstallResult, Error>)
      requires Good() && Mine(state.State(), journal)
      modifies state, this`endings, this`present, this`removals
      ensures Good()
      ensures old(state.stumbled) ==> state.stumbled
      ensures r.Success? ==> Ended(state.State(), r.value) && r.value.transactionId == journal.id
      ensures !state.stumbled ==> r.Success?
      ensures !state.stumbled && Separate(layout) ==>
        r.value.outcome ==
        if journal.retained == [] &&
           Completes(tools, layout, old(present), journal.phase, Claimed(journal.owned, layout.isRelease),
                     ActiveGoes(old(state.State()), journal))
        then Committed else Partial
    {
      hide Good, Inv, UninstallStage, Certified, ActiveGoes, Completes, NextPhases, Claimed;
      var evidence := Evidence([Observation("uninstall-recovery", Exact, None)], [], [], [], []);
      Stands(journal);
      var resumed :- Advance(journal, journal.phase, evidence);
      SameActive(old(state.State()), journal, resumed);
      r := Carry(resumed, true);
    }

    lemma SameActive(before: Durable, journal0: Journal, journal: Journal)
      requires SameIdentity(journal0, journal)
      requires Observe(state.State()) == Observe(before) && state.active == before.active
      ensures ActiveGoes(state.State(), journal) == ActiveGoes(before, journal0)
    {
    }

    /** The open uninstall, or another driver's open journal. */
    method First() returns (r: Result<Option<Journal>, Error>)
      requires Good()
      modifies state
      ensures Good() && state.State() == old(state.State())
      ensures state.stumbled <==> old(state.stumbled) || r.Failure?
      ensures r.Success? && r.value.None? ==> forall id :: !Open(state.State(), id)
      ensures r.Success? && r.value.Some? ==>
        && Open(state.State(), r.value.value.id) && state.journals[r.value.value.id] == r.value.value
        && (r.value.value.operation == Uninstall ==> forall id :: Open(state.State(), id) ==> id == r.value.value.id)
        && (r.value.value.operation != Uninstall ==>
              forall id :: Open(state.State(), id) ==> state.journals[id].operation != Uninstall)
    {
      hide Inv, UninstallStage, Certified;
      var pending :- Pending();
      if pending == [] {
        return Success(None);
      }
      assert pending[0] in pending;
      if |pending| == 1 && pending[0].operation == Uninstall {
        Stands(pending[0]);
      }
      return Success(Some(pending[0]));
    }

    /** `DurableUninstaller.run` under the lock. */
    method Run() returns (r: Result<UninstallResult, Error>)
      requires Good()
      modifies state, this`endings, this`present, this`removals
      ensures Good()
      ensures old(state.stumbled) ==> state.stumbled
      ensures !state.stumbled ==> r.Success?
      // Another driver's open journal is preserved: nothing is written and nothing removed.
      ensures (exists id :: Open(old(state.State()), id) && old(state.journals)[id].operation != Uninstall) ==>
        && state.State() == old(state.State()) && present == old(present)
        && (r.Success? ==> r.value.outcome == Partial && r.value.recovered)
      // A new uninstall, when no earlier one is resumed or already finished.
      ensures
        !state.stumbled && Separate(layout) && !tools.fromRecovery && (forall id :: !Open(old(state.State()), id)) ==>
          r.value.transactionId == tools.transactionId
          && Ended(state.State(), r.value)
          && r.value.outcome ==
             if Unprovable(tools, layout) == []
                && Completes(tools, layout, old(present), Created, Claimed(OwnedPaths(tools, layout), layout.isRelease), true)
             then Committed else Partial
      // Answer by answer: it commits exactly where they allow.
      ensures
        !state.stumbled && Separate(layout) && !tools.fromRecovery && (forall id :: !Open(old(state.State()), id)) ==>
          (r.value.outcome == Committed <==> Achievable(tools, layout, old(present)))
      // An interrupted uninstall is carried to its end.
      ensures
        forall id ::
          !state.stumbled && Separate(layout) && Open(old(state.State()),
            id) && old(state.journals)[id].operation == Uninstall ==>
            var journal := old(state.journals)[id];
            r.value.transactionId == id
            && Ended(state.State(), r.value)
            && r.value.outcome ==
               if journal.retained == []
                  && Completes(tools, layout, old(present), journal.phase, Claimed(journal.owned, layout.isRelease),
                               ActiveGoes(old(state.State()), journal))
               then Committed else Partial
    {
      AchievableIsExact(tools, layout, present);
      hide Good, Inv, UninstallStage, Certified, ActiveGoes, Completes, NextPhases, Unprovable, OwnedPaths, Claimed;
      hide Achievable;
      var pending :- First();
      if pending.Some? {
        if pending.value.operation != Uninstall {
          return Success(UninstallResult(pending.value.id, Partial, true));
        }
        r := CarryOn(pending.value);
        return;
      }
      if tools.fromRecovery && layout.lifecycle !in present {
        var ended := Finished();
        if ended.Some? {
          return Success(ended.value);
        }
      }
      var journal :- CreateTransaction();
      r := Carry(journal, false);
    }

    /** Some uninstall that already ended: it stays authoritative. */
    method Finished() returns (ended: Option<UninstallResult>)
      requires forall id :: !Open(state.State(), id)
      ensures ended.Some? ==> Ended(state.State(), ended.value)
      ensures ended.None? <==> forall id :: id in state.journals ==> state.journals[id].operation != Uninstall
    {
      if id :| id in state.journals && state.journals[id].operation == Uninstall {
        assert !Open(state.State(), id);
        return Some(UninstallResult(id, state.journals[id].outcome.value, true));
      }
      return None;
    }
  }
}
