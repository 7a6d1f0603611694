/**
 The reinstall driver of scripts/release_commands.py: it moves the owned data
 tree into a transaction backup, lets a bootstrap install the latest release,
 and then either deletes the backup or restores the tree exactly.

 Every rename, write, unlink, mkdir and rmdir is one step of the same fault
 script as the journal writes, so the contracts hold at every crash point.
 */
module ReinstallDriver {
  import opened Wrappers
  import opened Files
  import opened LifecycleRecords
  import opened LifecycleState
  import opened LifecycleProtocol
  import Activation

  const DATA := "data"

  datatype Layout = Layout(
    dataPath: Path,
    markerPath: Path,
    backupPath: Path,
    payloadPath: Path,
    markerName: string,
    marker: Node,
    isMarker: Node -> bool,
    acceptable: Tree -> bool)
  {
    /** A data root that holds the ownership marker and nothing else. */
    function FreshRoot(): (t: Tree)
      ensures t.Keys == {[markerName]} && t[[markerName]] == marker
    {
      assert Parent([markerName]) == [];
      map[[markerName] := marker]
    }

    /** The data root as the driver itself creates it, at any stage of that. */
    predicate Fresh(data: Option<Tree>) {
      data in {None, Some(map[]), Some(FreshRoot())}
    }

    predicate Valid() {
      marker.File? && isMarker(marker)
    }

    predicate MarkerExact(data: Option<Tree>) {
      data.Some? && [markerName] in data.value && isMarker(data.value[[markerName]])
    }

    predicate Canonical(node: Node) {
      node.File? && marker.File? && node.bytes == marker.bytes
    }

    /** A data root that removal may start from: no drifted marker, nothing unowned, linked or unbounded. */
    predicate Movable(t: Tree) {
      ([markerName] in t ==> isMarker(t[[markerName]])) && acceptable(t)
    }
  }

  /** The transaction's backup directory, and the marker quarantine beside the data root. */
  datatype Backup = Backup(
    made: bool,
    inventory: Option<Tree>,
    deleting: Option<Tree>,
    payload: Option<Tree>,
    marker: Option<Node>,
    beside: Option<Node>)
  {
    predicate Contained() {
      !made ==> inventory.None? && deleting.None? && payload.None? && marker.None?
    }

    /** The one inventory authority, if there is exactly one. */
    function Manifest(): Option<Tree> {
      if inventory.Some? && deleting.Some? then None
      else if inventory.Some? then inventory
      else deleting
    }

    /** Nothing in the directory but one inventory. */
    predicate Shell() {
      made && payload.None? && marker.None? && Manifest().Some?
    }
  }

  /** No marker quarantine was created. */
  predicate QuarantinesStay(before: Backup, after: Backup) {
    after.marker in {None, before.marker} && after.beside == before.beside
  }

  /** After a completed removal: what was moved, if anything was, is now or still in the payload. */
  predicate Took(data: Option<Tree>, before: Backup, after: Backup) {
    && (after.made <==> data.Some? || before.made)
    && (before.payload.Some? ==> after == before)
    && (before.payload.None? && data.Some? ==> after.payload == data)
    && QuarantinesStay(before, after)
  }

  const NO_BACKUP := Backup(false, None, None, None, None, None)

  function At(backups: map<Id, Backup>, id: Id): Backup {
    if id in backups then backups[id] else NO_BACKUP
  }

  /** The data inventories that a journal binds. */
  function Bound(effects: seq<Effect>, dataPath: Path): set<Tree> {
    if effects == [] then {}
    else
      var e := effects[|effects| - 1];
      Bound(effects[..|effects| - 1], dataPath) +
      if e.kind == DATA && e.subject == dataPath && e.applied && e.before.Some? && e.before.value.OfTree?
      then {e.before.value.tree}
      else {}
  }

  lemma BoundGrows(effects: seq<Effect>, e: Effect, dataPath: Path)
    ensures Bound(effects + [], dataPath) == Bound(effects, dataPath)
    ensures Bound(effects + [e], dataPath) ==
            Bound(effects, dataPath) +
            if e.kind == DATA && e.subject == dataPath && e.applied && e.before.Some? && e.before.value.OfTree?
            then {e.before.value.tree}
            else {}
  {
    assert effects + [] == effects;
    assert (effects + [e])[..|effects|] == effects;
  }

  /**
   The owned tree is complete in exactly one place: in the data root while no
   payload exists, and otherwise in the payload.
   */
  predicate Conserved(layout: Layout, origin: Option<Tree>, data: Option<Tree>, b: Backup) {
    match origin
    case Some(t) =>
      if b.payload.None? then data == Some(t) else b.payload == Some(t) && layout.Fresh(data)
    case None =>
      layout.Fresh(data) && (b.payload.Some? ==> layout.Fresh(b.payload))
  }

  /** What an open reinstall journal certifies about the files. */
  predicate Guarded(
    layout: Layout, bound: set<Tree>, origin: Option<Tree>, released: bool, data: Option<Tree>, b: Backup)
  {
    && b.Contained()
    && (!released ==>
          Conserved(layout, origin, data, b) && forall t :: t in bound ==> Moved(data, b) == Some(t))
    && (!released ==> b.marker in {None, Some(layout.marker)} && b.beside in {None, Some(layout.marker)})
    && (origin.Some? ==> data.Some? || b.payload.Some?)
    && (data.None? && b.payload.None? ==> bound == {})
    && (origin.Some? && released ==> origin.value in bound)
  }

  /** The tree that was moved, or that a move would take. */
  function Moved(data: Option<Tree>, b: Backup): Option<Tree> {
    if b.payload.Some? then b.payload else data
  }

  /** What the bootstrap child printed: whether it committed, and which record it says is active. */
  datatype Report = Report(committed: bool, active: Option<ActiveRecord>)

  /** A bootstrap's report, and the authority that was durable when it was read. */
  datatype Warrant = Warrant(report: Report, durable: Snapshot)

  /** The bootstrap committed, and the record it named is the durable one: `_bootstrap_active_matches`. */
  predicate Warranted(w: Warrant) {
    w.report.committed && w.report.active.Some? && w.report.active == w.durable.record
  }

  function WarrantOf(warrants: map<Id, Warrant>, id: Id): Option<Warrant> {
    if id in warrants then Some(warrants[id]) else None
  }

  /** The files at the moment a terminal reinstall journal became durable. */
  datatype Closing = Closing(
    journal: Journal, origin: Option<Tree>, data: Option<Tree>, backup: Backup,
    warrant: Option<Warrant>)

  /**
   `Committed` only after a bootstrap committed and its active record matched.
   `RolledBack` only with the original tree back in place; if a payload was
   ever moved, the data root is the tree the journal binds.  `Partial` with the
   original tree still complete.
   */
  predicate Kept(layout: Layout, c: Closing) {
    var bound := Bound(c.journal.effects, layout.dataPath);
    match c.journal.outcome
    case None => false
    case Some(Committed) => c.warrant.Some? && Warranted(c.warrant.value)
    case Some(RolledBack) =>
      && c.backup.payload.None?
      && (c.origin.Some? ==> c.data == c.origin)
      && (if bound == {} then c.data.None? else c.data.Some? && bound == {c.data.value})
    case Some(Partial) => c.warrant.None? ==> Conserved(layout, c.origin, c.data, c.backup)
  }

  /** Rolling back is exact except when a data root that was absent had been created, and bound, by this very driver. */
  lemma RolledBackIsExact(layout: Layout, c: Closing)
    requires Kept(layout, c) && c.journal.outcome == Some(RolledBack)
    ensures c.data == c.origin <==> c.origin.Some? || Bound(c.journal.effects, layout.dataPath) == {}
  {
  }

  /** What is known of the reinstall journals and the files they speak of. */
  ghost predicate Account(
    d: Durable, layout: Layout, data: Option<Tree>, backups: map<Id, Backup>, origins: map<Id, Option<Tree>>,
    warrants: map<Id, Warrant>, closings: map<Id, Closing>, id: Id)
  {
    id in d.journals && d.journals[id].operation == Reinstall ==>
      && (id in warrants ==> Warranted(warrants[id]))
      && if d.journals[id].outcome.None? then
           id in origins
           && Guarded(
                layout, Bound(d.journals[id].effects, layout.dataPath), origins[id], id in warrants, data, At(backups, id))
         else
           id in closings && closings[id].journal == d.journals[id]
           && closings[id].backup == At(backups, id)
           && Kept(layout, closings[id])
  }

  ghost predicate Accounts(
    d: Durable, layout: Layout, data: Option<Tree>, backups: map<Id, Backup>, origins: map<Id, Option<Tree>>,
    warrants: map<Id, Warrant>, closings: map<Id, Closing>)
  {
    forall id :: Account(d, layout, data, backups, origins, warrants, closings, id)
  }

  function Reinstalls(d: Durable): set<Id> {
    set id | id in d.journals && d.journals[id].operation == Reinstall
  }

  /** Other drivers' writes keep the account, and the data root matters only while a reinstall is open. */
  lemma AccountsIgnoreOthers(
    before: Durable, after: Durable, layout: Layout, data: Option<Tree>, data': Option<Tree>,
    backups: map<Id, Backup>, origins: map<Id, Option<Tree>>, warrants: map<Id, Warrant>, closings: map<Id, Closing>,
    mine: set<Operation>)
    requires Accounts(before, layout, data, backups, origins, warrants, closings) && Reinstall !in mine
    requires Foreign(before, mine) == Foreign(after, mine)
    requires data' == data || forall id :: Open(before, id) ==> before.journals[id].operation != Reinstall
    ensures Accounts(after, layout, data', backups, origins, warrants, closings)
    ensures Reinstalls(after) == Reinstalls(before)
  {
    forall id ensures Account(after, layout, data', backups, origins, warrants, closings, id) {
      assert Account(before, layout, data, backups, origins, warrants, closings, id);
      if id in after.journals && after.journals[id].operation == Reinstall {
        assert id in Foreign(after, mine);
        assert Open(before, id) <==> Open(after, id);
      }
    }
    assert forall id ::
      id in Reinstalls(after) <==> id in Foreign(after, mine) && Foreign(after, mine)[id].operation == Reinstall;
  }

  /** Two open reinstalls never stand side by side. */
  lemma OneReinstall(d: Durable, a: Id, b: Id)
    requires Inv(d) && Open(d, a) && Open(d, b)
    requires d.journals[a].operation == Reinstall && d.journals[b].operation == Reinstall
    ensures a == b
  {
    assert Compatible(d, a, b);
  }

  /** The journal in memory is the durable one, and is the open reinstall. */
  ghost predicate Mine(d: Durable, journal: Journal) {
    Open(d, journal.id) && d.journals[journal.id] == journal && journal.operation == Reinstall
  }

  /** One step on the files of the open reinstall. */
  lemma StepKeepsAccounts(
    d: Durable, layout: Layout, data: Option<Tree>, data': Option<Tree>, backups: map<Id, Backup>, id: Id, b': Backup,
    origins: map<Id, Option<Tree>>, warrants: map<Id, Warrant>, closings: map<Id, Closing>)
    requires Inv(d) && Accounts(d, layout, data, backups, origins, warrants, closings)
    requires Open(d, id) && d.journals[id].operation == Reinstall
    requires id in origins
    requires Guarded(layout, Bound(d.journals[id].effects, layout.dataPath), origins[id], id in warrants, data', b')
    ensures Accounts(d, layout, data', backups[id := b'], origins, warrants, closings)
  {
    var backups' := backups[id := b'];
    forall k ensures Account(d, layout, data', backups', origins, warrants, closings, k) {
      assert Account(d, layout, data, backups, origins, warrants, closings, k);
      if k != id && Open(d, k) && d.journals[k].operation == Reinstall {
        OneReinstall(d, k, id);
      }
    }
  }

  /** The open reinstall is released. */
  lemma ReleaseKeepsAccounts(
    d: Durable, layout: Layout, data: Option<Tree>, backups: map<Id, Backup>, id: Id,
    origins: map<Id, Option<Tree>>, warrants: map<Id, Warrant>, closings: map<Id, Closing>, warrant: Warrant)
    requires Inv(d) && Accounts(d, layout, data, backups, origins, warrants, closings)
    requires Open(d, id) && d.journals[id].operation == Reinstall && id in origins
    requires Guarded(layout, Bound(d.journals[id].effects, layout.dataPath), origins[id], true, data, At(backups, id))
    requires Warranted(warrant)
    ensures Accounts(d, layout, data, backups, origins, warrants[id := warrant], closings)
  {
    var warrants' := warrants[id := warrant];
    forall k ensures Account(d, layout, data, backups, origins, warrants', closings, k) {
      assert Account(d, layout, data, backups, origins, warrants, closings, k);
    }
  }

  lemma OwnWriteKeepsReinstalls(before: Durable, after: Durable, expected: Journal, journal: Journal)
    requires Wrote(before, after, expected, journal)
    ensures Reinstalls(after) == Reinstalls(before)
  {
  }

  /** One write of the open reinstall journal. */
  lemma WriteKeepsAccounts(
    before: Durable, after: Durable, expected: Journal, journal: Journal, layout: Layout,
    data: Option<Tree>, backups: map<Id, Backup>, origins: map<Id, Option<Tree>>, warrants: map<Id, Warrant>,
    closings: map<Id, Closing>, closings': map<Id, Closing>)
    requires Inv(before) && Accounts(before, layout, data, backups, origins, warrants, closings)
    requires Wrote(before, after, expected, journal) && journal.operation == Reinstall && expected.outcome.None?
    requires expected.id in origins
    requires journal.outcome.None? ==>
      && closings' == closings && journal.phase in {Created, RemovingData}
      && (journal.phase == RemovingData || journal.phase == expected.phase)
      && Guarded(
           layout, Bound(journal.effects, layout.dataPath), origins[journal.id], journal.id in warrants, data,
           At(backups, journal.id))
    requires journal.outcome.Some? ==>
      var closing := Closing(journal, origins[journal.id], data, At(backups, journal.id), WarrantOf(warrants, journal.id));
      closings' == closings[journal.id := closing] && Kept(layout, closing)
    ensures Inv(after) && Accounts(after, layout, data, backups, origins, warrants, closings')
    ensures Foreign(after, {Reinstall}) == Foreign(before, {Reinstall}) && Reinstalls(after) == Reinstalls(before)
  {
    hide Reinstalls, Accounts, Account, Guarded, Kept;
    OwnWriteKeepsForeign(before, after, journal, {Reinstall});
    OwnWriteKeepsReinstalls(before, after, expected, journal);
    WriteKeepsInv(before, after, expected, journal);
    AccountsAfterWrite(before, after, journal, layout, data, backups, origins, warrants, closings, closings');
  }

  lemma AccountsAfterOpening(
    before: Durable, after: Durable, journal: Journal, layout: Layout, data: Option<Tree>, backups: map<Id, Backup>,
    origins: map<Id, Option<Tree>>, warrants: map<Id, Warrant>, closings: map<Id, Closing>)
    requires Accounts(before, layout, data, backups, origins, warrants, closings) && layout.Valid()
    requires after == before.(journals := before.journals[journal.id := journal])
    requires journal.outcome.None? && journal.effects == []
    requires journal.id !in warrants && journal.id !in backups
    ensures Accounts(after, layout, data, backups, origins[journal.id := data], warrants, closings)
  {
    hide Kept;
    var origins' := origins[journal.id := data];
    forall id ensures Account(after, layout, data, backups, origins', warrants, closings, id) {
      assert Account(before, layout, data, backups, origins, warrants, closings, id);
    }
  }

  lemma AccountsAfterWrite(
    before: Durable, after: Durable, journal: Journal, layout: Layout, data: Option<Tree>, backups: map<Id, Backup>,
    origins: map<Id, Option<Tree>>, warrants: map<Id, Warrant>, closings: map<Id, Closing>, closings': map<Id, Closing>)
    requires Accounts(before, layout, data, backups, origins, warrants, closings)
    requires journal.id in before.journals && after == before.(journals := before.journals[journal.id := journal])
    requires before.journals[journal.id].operation == journal.operation == Reinstall
    requires journal.id in origins
    requires journal.outcome.None? ==>
      && closings' == closings
      && Guarded(
           layout, Bound(journal.effects, layout.dataPath), origins[journal.id], journal.id in warrants, data,
           At(backups, journal.id))
    requires journal.outcome.Some? ==>
      var closing := Closing(journal, origins[journal.id], data, At(backups, journal.id), WarrantOf(warrants, journal.id));
      closings' == closings[journal.id := closing] && Kept(layout, closing)
    ensures Accounts(after, layout, data, backups, origins, warrants, closings')
  {
    hide Guarded, Kept;
    forall id ensures Account(after, layout, data, backups, origins, warrants, closings', id) {
      assert Account(before, layout, data, backups, origins, warrants, closings, id);
    }
  }

  /** The marker, wherever it is, can be isolated, verified and unlinked. */
  predicate MarkerGoes(layout: Layout, data: Option<Tree>, quarantined: Option<Node>) {
    if data.Some? && [layout.markerName] in data.value then
      quarantined.None? && layout.Canonical(data.value[[layout.markerName]])
    else
      quarantined.Some? ==> layout.Canonical(quarantined.value)
  }

  predicate Confirmable(b: Backup, bound: set<Tree>) {
    b.Manifest().Some? && b.payload == b.Manifest() && bound <= {b.Manifest().value}
  }

  /** Removal can be completed, exactly, from these files. */
  predicate Removable(layout: Layout, data: Option<Tree>, b: Backup, bound: set<Tree>) {
    if b.payload.Some? then
      Confirmable(b, bound) && (data.None? || layout.MarkerExact(data) || data == Some(map[]))
    else if b.made then
      b.Shell() && data == b.Manifest() && layout.Movable(data.value)
    else
      data.None? || layout.Movable(data.value)
  }

  /** How many restarts of the removal lie ahead. */
  function Remaining(layout: Layout, data: Option<Tree>, b: Backup): nat {
    if b.payload.Some? then (if layout.MarkerExact(data) then 0 else 1)
    else if b.made then 1
    else 0
  }

  /** A fresh data root that holds nothing but its marker, wherever a crash left that. */
  predicate Clearable(layout: Layout, t: Tree, quarantined: Option<Node>) {
    t.Keys == {[layout.markerName]} || (t == map[] && quarantined.Some?)
  }

  /** The payload is proven and the fresh data root can be cleared away. */
  predicate PutsBack(layout: Layout, data: Option<Tree>, b: Backup, bound: set<Tree>) {
    && b.Manifest().Some? && bound == {b.Manifest().value} && b.payload == b.Manifest()
    && (data.Some? ==> Clearable(layout, data.value, b.marker))
    && MarkerGoes(layout, data, b.marker)
  }

  predicate FreshGoes(layout: Layout, data: Option<Tree>, quarantined: Option<Node>) {
    data.Some? ==> Clearable(layout, data.value, quarantined) && MarkerGoes(layout, data, quarantined)
  }

  /** Restoration can be completed, exactly, from these files. */
  predicate Restorable(layout: Layout, data: Option<Tree>, b: Backup, bound: set<Tree>) {
    if b.payload.Some? then PutsBack(layout, data, b, bound)
    else if b.made then b.Shell() && bound == {b.Manifest().value} && data == b.Manifest()
    else FreshGoes(layout, data, b.beside)
  }

  /** The backup of a committed reinstall can be deleted without residue. */
  predicate CleansUp(b: Backup, bound: set<Tree>, leftover: Option<Tree>) {
    b.made ==>
      && b.payload.Some? && b.Manifest().Some? && bound == {b.Manifest().value}
      && leftover.None? && b.marker.None?
  }

  /** What an exact restoration leaves in the data root. */
  function Back(data: Option<Tree>, b: Backup): Option<Tree> {
    if b.payload.Some? then b.payload else if b.made then data else None
  }

  // ----- states that retries do not leave -----

  /**
   There was no data root; the driver made one and died before its bootstrap
   reported.  The retry takes that root for the user's, and rolling back
   brings it back.
   */
  lemma ARebuiltRootOutlivesItsRollback(layout: Layout)
    requires layout.Valid() && layout.acceptable(layout.FreshRoot())
    ensures
      var root := Some(layout.FreshRoot());
      var moved := Backup(true, root, None, root, None, None);
      && Guarded(layout, {}, None, false, root, NO_BACKUP)
      && Removable(layout, root, NO_BACKUP, {})
      && Guarded(layout, {layout.FreshRoot()}, None, false, root, moved)
      && Restorable(layout, root, moved, {layout.FreshRoot()})
      && Back(root, moved) == root
  {
  }

  /** A backup directory that neither proves a move nor can be taken down: removal leaves it as it is. */
  predicate Barred(data: Option<Tree>, b: Backup) {
    b.made && b.payload.None? && !(b.Shell() && data == b.Manifest())
  }

  /** A data root with content that is not the product's, or with a marker that is not its own. */
  predicate Unowned(layout: Layout, t: Tree) {
    !layout.acceptable(t) || ([layout.markerName] in t && !layout.isMarker(t[[layout.markerName]]))
  }

  /** A root that may not be taken, and nothing begun: removal leaves it as it is. */
  predicate Untakable(layout: Layout, data: Option<Tree>, b: Backup) {
    !b.made && data.Some? && Unowned(layout, data.value)
  }

  /** A payload is the one there was, or the owned data root, whole. */
  predicate MayHold(layout: Layout, data: Option<Tree>, before: Backup, after: Backup) {
    && (before.payload.Some? ==> after.payload == before.payload)
    && (before.payload.None? && after.payload.Some? ==>
          after.payload == data && !Unowned(layout, after.payload.value))
  }

  /** What a retry makes of every state in which a move of `t` may have been cut off. */
  lemma EveryPrefixOfAMove(layout: Layout, t: Tree, bound: set<Tree>)
    requires layout.Valid() && bound <= {t}
    ensures
      var inventoried := NO_BACKUP.(made := true, inventory := Some(t));
      var isolated := NO_BACKUP.(made := true, deleting := Some(t));
      var moved := inventoried.(payload := Some(t));
      // nothing begun; directory only; inventory durable
      && (Removable(layout, Some(t), NO_BACKUP, bound) <==> !Unowned(layout, t))
      && !Removable(layout, Some(t), NO_BACKUP.(made := true), bound)
      && (Removable(layout, Some(t), inventoried, bound) <==> !Unowned(layout, t))
      && (Removable(layout, Some(t), isolated, bound) <==> !Unowned(layout, t))
      // renamed; fresh directory; fresh marker
      && Removable(layout, None, moved, bound)
      && Removable(layout, Some(map[]), moved, bound)
      && Removable(layout, Some(layout.FreshRoot()), moved, bound)
  {
  }

  /** Nothing that was altered meanwhile is taken for what was moved. */
  lemma AlteredMovesAreRefused(layout: Layout, data: Option<Tree>, t: Tree, other: Tree, bound: set<Tree>)
    requires t != other
    ensures
      var inventoried := NO_BACKUP.(made := true, inventory := Some(t));
      && !Removable(layout, Some(other), inventoried, bound) && !Removable(layout, None, inventoried, bound)
      && !Removable(layout, data, inventoried.(payload := Some(other)), bound)
      && !Removable(layout, data, inventoried.(payload := Some(other), deleting := Some(other)), bound)
      && (other in bound ==> !Removable(layout, data, inventoried.(payload := Some(t)), bound))
      // nor is a fresh root whose marker is not the product's
      && (data.Some? && [layout.markerName] in data.value && !layout.isMarker(data.value[[layout.markerName]]) ==>
            !Removable(layout, data, inventoried.(payload := Some(t)), bound))
  {
  }

  /** What a retry makes of every state in which a restoration of `t` may have been cut off. */
  lemma EveryPrefixOfARestoration(layout: Layout, t: Tree)
    requires layout.Valid()
    ensures
      var moved := NO_BACKUP.(made := true, inventory := Some(t), payload := Some(t));
      var quarantined := moved.(marker := Some(layout.marker));
      // marked; marker isolated; marker gone, which the retry's removal first writes again; root gone
      && Restorable(layout, Some(layout.FreshRoot()), moved, {t})
      && Restorable(layout, Some(map[]), quarantined, {t})
      && !Restorable(layout, Some(map[]), moved, {t})
      && Restorable(layout, None, moved, {t})
      // tree back; inventory isolated; inventory gone
      && Restorable(layout, Some(t), moved.(payload := None), {t})
      && Restorable(layout, Some(t), NO_BACKUP.(made := true, deleting := Some(t)), {t})
      && !Restorable(layout, Some(t), NO_BACKUP.(made := true), {t})
  {
  }

  /** An altered payload, one that was never bound, or foreign content in the fresh root: nothing is put back. */
  lemma AlteredPayloadsStay(layout: Layout, data: Option<Tree>, t: Tree, other: Tree, bound: set<Tree>)
    requires t != other
    ensures
      var moved := NO_BACKUP.(made := true, inventory := Some(t), payload := Some(t));
      && !Restorable(layout, data, moved.(payload := Some(other)), bound)
      && !Restorable(layout, data, moved, {}) && !Restorable(layout, data, moved, {other})
      && !Restorable(layout, Some(other), moved.(payload := None), bound)
      && (data.Some? && (exists p :: p in data.value && p != [layout.markerName]) ==>
            !Restorable(layout, data, moved, bound))
  {
    if data.Some? && exists p :: p in data.value && p != [layout.markerName] {
      var p :| p in data.value && p != [layout.markerName];
      assert data.value != map[] && data.value.Keys != {[layout.markerName]};
    }
  }

  /** Nor is anything put back over a marker of other bytes, in its place or set aside. */
  lemma ForeignMarkersStay(layout: Layout, data: Option<Tree>, t: Tree, node: Node, bound: set<Tree>)
    requires !(node.File? && layout.marker.File? && node.bytes == layout.marker.bytes)
    ensures
      var moved := NO_BACKUP.(made := true, inventory := Some(t), payload := Some(t));
      && (data.Some? && [layout.markerName] in data.value && data.value[[layout.markerName]] == node ==>
            !Restorable(layout, data, moved, bound))
      && !Restorable(layout, Some(map[]), moved.(marker := Some(node)), bound)
  {
    assert !layout.Canonical(node);
  }

  /** A marker both in the data root and in the backup's quarantine: restoration leaves them as they are. */
  predicate TwoMarkers(layout: Layout, data: Option<Tree>, b: Backup) {
    b.made && b.payload.Some? && b.marker.Some? && data.Some? && [layout.markerName] in data.value
  }

  /**
   A restoration died with the marker in quarantine; the retry wrote a new
   marker.  Removal then counts as complete and restoration never succeeds.
   */
  lemma AMarkerInTwoPlaces(layout: Layout, t: Tree)
    requires layout.Valid()
    ensures
      var root := Some(layout.FreshRoot());
      var b := Backup(true, Some(t), None, Some(t), Some(layout.marker), None);
      && Guarded(layout, {t}, Some(t), false, Some(map[]), b)
      && Removable(layout, Some(map[]), b, {t})
      && Guarded(layout, {t}, Some(t), false, root, b)
      && Removable(layout, root, b, {t}) && !Restorable(layout, root, b, {t})
      && TwoMarkers(layout, root, b)
  {
  }

  /**
   A crash before the inventory was written, or after a restoration had
   unlinked it, left an empty backup directory beside the complete data root.
   */
  lemma AnEmptyBackup(layout: Layout, t: Tree, bound: set<Tree>)
    requires layout.Valid() && bound <= {t}
    ensures
      var b := NO_BACKUP.(made := true);
      && Guarded(layout, bound, Some(t), false, Some(t), b)
      && Barred(Some(t), b) && !Removable(layout, Some(t), b, bound)
  {
  }

  datatype ReinstallResult = ReinstallResult(transactionId: Option<Id>, outcome: Outcome)

  ghost predicate Closed(d: Durable, id: Id, outcome: Outcome) {
    id in d.journals && d.journals[id].outcome == Some(outcome)
  }

  /** The same journals are open. */
  ghost predicate SameOpen(before: Durable, after: Durable) {
    forall id :: && (Open(after, id) <==> Open(before, id))
                 && (Open(before, id) ==> after.journals[id].operation == before.journals[id].operation)
  }

  lemma SameOpenIsReflexive(d: Durable)
    ensures SameOpen(d, d)
  {
  }

  lemma OpenStaysOpen(before: Durable, after: Durable, expected: Journal, journal: Journal)
    requires Wrote(before, after, expected, journal) && expected.outcome.None? && journal.outcome.None?
    ensures SameOpen(before, after)
  {
  }

  /** One reinstall journal is open, and no other. */
  ghost predicate OnlyReinstall(d: Durable, id: Id) {
    && Open(d, id) && d.journals[id].operation == Reinstall
    && forall k :: Open(d, k) ==> k == id
  }

  datatype Prepared = Refused | Preserved(id: Id) | Cleared(id: Id)

  /** A caught exception: the driver classifies file errors and its own, and nothing else. */
  predicate Caught(error: Error) {
    error in {OSError, ReleaseCommandError}
  }

  class ReinstallDriver {
    const state: LifecycleState
    const layout: Layout
    var data: Option<Tree>
    var backups: map<Id, Backup>
    /** The owned data tree when the transaction was opened. */
    ghost var origins: map<Id, Option<Tree>>
    /** What warranted giving up the old tree, by transaction. */
    ghost var warrants: map<Id, Warrant>
    ghost var closings: map<Id, Closing>
    ghost var foreign: map<Id, Journal>

    /** The facts that hold between this driver's runs too. */
    ghost predicate Good()
      reads this, state
    {
      && state.Valid()
      && Inv(state.State())
      && layout.Valid()
      && Accounts(state.State(), layout, data, backups, origins, warrants, closings)
      && !state.illegalPhase
      && warrants.Keys + backups.Keys <= Reinstalls(state.State())
      && Foreign(state.State(), {Reinstall}) == foreign
    }

    function Files(id: Id): Backup
      reads this
    {
      At(backups, id)
    }

    ghost function Origin(id: Id): Option<Tree>
      reads this
    {
      if id in origins then origins[id] else None
    }

    constructor (state: LifecycleState, layout: Layout)
      requires state.Valid() && state.State() == EMPTY && !state.illegalPhase && layout.Valid()
      ensures this.state == state && this.layout == layout && Good()
    {
      this.state, this.layout := state, layout;
      data, backups := None, map[];
      origins, warrants, closings, foreign := map[], map[], map[], map[];
      new;
      EmptyInv();
    }

    /** A new process; the data root may have changed while no reinstall was open. */
    method Restart(data: Option<Tree>)
      requires state.Valid() && Inv(state.State()) && layout.Valid() && !state.illegalPhase
      requires warrants.Keys + backups.Keys <= Reinstalls(state.State())
      requires Accounts(state.State(), layout, data, backups, origins, warrants, closings)
      modifies this
      ensures Good() && this.data == data && backups == old(backups) && origins == old(origins)
      ensures warrants == old(warrants) && closings == old(closings)
      ensures foreign == Foreign(state.State(), {Reinstall})
    {
      this.data := data;
      foreign := Foreign(state.State(), {Reinstall});
    }

    /** What the open journal certifies right now. */
    lemma Stands(journal: Journal)
      requires Good() && Mine(state.State(), journal)
      ensures journal.phase in {Created, RemovingData} && layout.Valid()
      ensures journal.id in origins
      ensures journal.id in warrants ==> Warranted(warrants[journal.id])
      ensures Guarded(
        layout, Bound(journal.effects, layout.dataPath), Origin(journal.id), journal.id in warrants, data,
          Files(journal.id))
      ensures forall id :: Open(state.State(), id) && state.journals[id].operation == Reinstall ==> id == journal.id
    {
      assert JournalOk(state.State(), journal.id);
      assert Account(state.State(), layout, data, backups, origins, warrants, closings, journal.id);
      forall id | Open(state.State(), id) && state.journals[id].operation == Reinstall ensures id == journal.id {
        OneReinstall(state.State(), id, journal.id);
      }
    }

    /**
     Conservation: until a bootstrap has committed with a matching active
     record, the data tree that was there when the transaction was opened is
     complete in the data root or in the payload, and in only one of them
     unless it was indistinguishable from a fresh data root to begin with.
     */
    lemma NoDataIsLost(id: Id)
      requires Good() && Open(state.State(), id) && state.journals[id].operation == Reinstall
      ensures id in warrants ==> Warranted(warrants[id])
      ensures id !in warrants && Origin(id).Some? ==>
        && (data == Origin(id) || Files(id).payload == Origin(id))
        && (!layout.Fresh(Origin(id)) ==> (data == Origin(id) <==> Files(id).payload.None?))
        && forall t :: t in Bound(state.journals[id].effects, layout.dataPath) ==> Origin(id) == Some(t)
    {
      Stands(state.journals[id]);
    }

    // ----- one durable step on the files -----

    /** The files of the open reinstall change to what the guard allows, or stay. */
    method Touch(journal: Journal, data': Option<Tree>, b': Backup) returns (r: Result<(), Error>)
      requires Good() && Mine(state.State(), journal)
      requires Guarded(
        layout, Bound(journal.effects, layout.dataPath), Origin(journal.id), journal.id in warrants, data', b')
      modifies state, this`data, this`backups
      ensures Good() && state.State() == old(state.State())
      ensures r.Success? ==> data == data' && Files(journal.id) == b'
      ensures (data == old(data) && Files(journal.id) == old(Files(journal.id))) || (data == data' && Files(journal.id) == b')
      ensures forall id :: id != journal.id ==> Files(id) == old(Files(id))
      ensures state.stumbled <==> old(state.stumbled) || r.Failure?
    {
      hide Inv, Guarded;
      Stands(journal);
      var applied, failure := state.Access();
      if applied {
        StepKeepsAccounts(
          state.State(), layout, data, data', backups, journal.id, b', origins, warrants, closings);
        data, backups := data', backups[journal.id := b'];
      }
      return if failure.None? then Success(()) else Failure(failure.value);
    }

    // ----- journal writes -----

    method Advance(journal: Journal, phase: Phase, evidence: Evidence) returns (r: Result<Journal, Error>)
      requires Good() && Mine(state.State(), journal)
      requires phase == RemovingData
      requires Guarded(
        layout, Bound(journal.effects + evidence.effects, layout.dataPath), Origin(journal.id), journal.id in warrants,
        data, Files(journal.id))
      modifies state
      ensures SameOpen(old(state.State()), state.State())
      ensures Good() && state.active == old(state.active) && Observe(state.State()) == Observe(old(state.State()))
      ensures r.Success? ==> Mine(state.State(), r.value) && r.value.id == journal.id && r.value.phase == phase
      ensures r.Success? ==> r.value.effects == journal.effects + evidence.effects
      ensures state.stumbled <==> old(state.stumbled) || r.Failure?
    {
      hide Inv, Guarded, Kept, Reinstalls, Accounts, Bound, SameOpen;
      Stands(journal);
      ghost var before := state.State();
      var next := Advanced(journal, phase, evidence);
      r := state.AdvanceTransaction(journal, phase, evidence);
      SameOpenIsReflexive(before);
      if state.State() != before {
        OpenStaysOpen(before, state.State(), journal, next);
        WriteKeepsAccounts(
          before, state.State(), journal, next, layout, data, backups, origins, warrants, closings, closings);
      }
    }

    /** A journal write that binds nothing. */
    method Record(journal: Journal, observations: seq<Observation>, retained: seq<Path>, recovery: seq<string>)
      returns (r: Result<Journal, Error>)
      requires Good() && Mine(state.State(), journal)
      modifies state
      ensures SameOpen(old(state.State()), state.State())
      ensures Good() && state.active == old(state.active) && Observe(state.State()) == Observe(old(state.State()))
      ensures r.Success? ==> Mine(state.State(), r.value) && r.value.id == journal.id && r.value.phase == RemovingData
      ensures r.Success? ==> r.value.effects == journal.effects
      ensures state.stumbled <==> old(state.stumbled) || r.Failure?
    {
      hide Good, Guarded;
      Stands(journal);
      assert journal.effects + [] == journal.effects;
      r := Advance(journal, RemovingData, Evidence(observations, [], [], retained, recovery));
    }

    method Finish(journal: Journal, outcome: Outcome, observations: seq<Observation>) returns (r: Result<(), Error>)
      requires Good() && Mine(state.State(), journal)
      requires Kept(
        layout,
        Closing(journal.(outcome := Some(outcome)), Origin(journal.id), data, Files(journal.id),
          WarrantOf(warrants, journal.id)))
      modifies state, this`closings
      ensures Good() && Observe(state.State()) == Observe(old(state.State()))
      ensures r.Success? ==> journal.id in state.journals && state.journals[journal.id].outcome == Some(outcome)
      ensures state.stumbled <==> old(state.stumbled) || r.Failure?
    {
      hide Inv, Guarded, Accounts, Reinstalls;
      Stands(journal);
      ghost var before := state.State();
      var evidence := Evidence(observations, [], [], [], []);
      ghost var done := Advanced(journal, Terminal, evidence).(outcome := Some(outcome));
      assert done.effects == journal.effects;
      var finished := state.FinishTransaction(journal, outcome, evidence);
      if state.State() != before {
        ghost var closing := Closing(done, Origin(journal.id), data, Files(journal.id), WarrantOf(warrants, journal.id));
        ghost var closings' := closings[journal.id := closing];
        WriteKeepsAccounts(
          before, state.State(), journal, done, layout, data, backups, origins, warrants, closings, closings');
        closings := closings';
      }
      if finished.Failure? {
        return Failure(finished.error);
      }
      return Success(());
    }

    // ----- exact removal of single files -----

    /** Remove the one inventory authority through its quarantine, then the emptied backup directory. */
    method RemoveBackup(journal: Journal) returns (r: Result<(), Error>)
      requires Good() && Mine(state.State(), journal)
      requires Files(journal.id).payload.None? && data.Some? && Files(journal.id).Manifest().Some?
      modifies state, this`data, this`backups
      ensures Good() && state.State() == old(state.State()) && data == old(data)
      ensures QuarantinesStay(old(Files(journal.id)), Files(journal.id))
      ensures r.Success? ==> Files(journal.id) == NO_BACKUP.(beside := old(Files(journal.id)).beside)
      ensures r.Failure? ==> Files(journal.id).payload.None?
      ensures old(state.stumbled) ==> state.stumbled
      ensures !state.stumbled ==> (r.Success? <==> old(Files(journal.id)).marker.None?)
      ensures !state.stumbled && r.Failure? ==> Caught(r.error)
    {
      hide Good;
      Stands(journal);
      if Files(journal.id).inventory.Some? {
        var b := Files(journal.id);
        var isolated := Touch(journal, data, b.(inventory := None, deleting := b.inventory));
        if isolated.Failure? {
          return Failure(if Caught(isolated.error) then ReleaseCommandError else isolated.error);
        }
      }
      var unlinked := Touch(journal, data, Files(journal.id).(deleting := None));
      if unlinked.Failure? {
        return Failure(if Caught(unlinked.error) then ReleaseCommandError else unlinked.error);
      }
      if Files(journal.id).marker.Some? {
        // `rmdir` of a directory that is not empty.
        return Failure(OSError);
      }
      r := Touch(journal, data, NO_BACKUP.(beside := Files(journal.id).beside));
    }

    /** The quarantine of the fresh marker: in the backup, or beside the data root. */
    function Quarantined(id: Id, beside: bool): Option<Node>
      reads this
    {
      if beside then Files(id).beside else Files(id).marker
    }

    function WithMarker(b: Backup, beside: bool, marker: Option<Node>): Backup {
      if beside then b.(beside := marker) else b.(marker := marker)
    }

    function JustMarker(node: Node): (t: Tree)
      ensures t.Keys == {[layout.markerName]} && t[[layout.markerName]] == node
    {
      assert Parent([layout.markerName]) == [];
      map[[layout.markerName] := node]
    }

    /** There was no data root, and nothing was ever moved. */
    ghost predicate Untaken(journal: Journal)
      reads this
    {
      Origin(journal.id).None? && Bound(journal.effects, layout.dataPath) == {}
    }

    /** A marker, fresh or as found, moves between the data root and its quarantine. */
    lemma MarkerMay(journal: Journal, data': Option<Tree>, beside: bool, marker: Option<Node>)
      requires Good() && Mine(state.State(), journal)
      requires Files(journal.id).payload.Some? || Untaken(journal)
      requires beside || Files(journal.id).made
      requires data'.Some? == data.Some?
      requires journal.id in warrants || (layout.Fresh(data') && marker in {None, Some(layout.marker)})
      ensures Guarded(
        layout, Bound(journal.effects, layout.dataPath), Origin(journal.id), journal.id in warrants, data',
        WithMarker(Files(journal.id), beside, marker))
    {
      Stands(journal);
    }

    lemma MarkerIsFresh(journal: Journal, beside: bool)
      requires Good() && Mine(state.State(), journal)
      requires Files(journal.id).payload.Some? || Untaken(journal)
      ensures layout.Valid()
      ensures journal.id in warrants || (layout.Fresh(data) && Quarantined(journal.id, beside) in {None, Some(layout.marker)})
      ensures JustMarker(layout.marker) == layout.FreshRoot()
    {
      Stands(journal);
    }

    /** Verify the quarantined marker, and unlink it or put it back. */
    method Unmark(journal: Journal, beside: bool) returns (r: Result<bool, Error>)
      requires Good() && Mine(state.State(), journal)
      requires Files(journal.id).payload.Some? || Untaken(journal)
      requires Quarantined(journal.id, beside).Some? && data in {None, Some(map[])}
      requires beside || Files(journal.id).made
      modifies state, this`data, this`backups
      ensures Good() && state.State() == old(state.State())
      ensures data.Some? == old(data).Some? && SameButMarker(old(Files(journal.id)), Files(journal.id), beside)
      ensures r.Success? && r.value ==> data == old(data) && Quarantined(journal.id, beside).None?
      ensures old(state.stumbled) ==> state.stumbled
      ensures !state.stumbled ==> r.Success? && r.value == layout.Canonical(old(Quarantined(journal.id, beside)).value)
      ensures !state.stumbled && r.Failure? ==> Caught(r.error)
    {
      hide Good, Guarded;
      MarkerIsFresh(journal, beside);
      var candidate := Quarantined(journal.id, beside).value;
      if !layout.Canonical(candidate) {
        if data.Some? {
          MarkerMay(journal, Some(JustMarker(candidate)), beside, None);
          var back := Touch(journal, Some(JustMarker(candidate)), WithMarker(Files(journal.id), beside, None));
          if back.Failure? && back.error != OSError {
            return Failure(back.error);
          }
        }
        return Success(false);
      }
      MarkerMay(journal, data, beside, None);
      var unlinked := Touch(journal, data, WithMarker(Files(journal.id), beside, None));
      if unlinked.Failure? {
        if Caught(unlinked.error) {
          return Success(false);
        }
        return Failure(unlinked.error);
      }
      return Success(true);
    }

    predicate SameButMarker(a: Backup, b: Backup, beside: bool) {
      WithMarker(a, beside, None) == WithMarker(b, beside, None)
    }

    /** `_quarantine_remove_file` on the marker of a data root that holds nothing else. */
    method RemoveMarker(journal: Journal, beside: bool) returns (r: Result<bool, Error>)
      requires Good() && Mine(state.State(), journal)
      requires Files(journal.id).payload.Some? || Untaken(journal)
      requires data.Some? ==> data.value == map[] || data.value.Keys == {[layout.markerName]}
      requires beside || Files(journal.id).made
      modifies state, this`data, this`backups
      ensures old(data).Some? && [layout.markerName] in old(data).value && old(Quarantined(journal.id, beside)).Some? ==>
        data == old(data) && Files(journal.id) == old(Files(journal.id)) && !(r.Success? && r.value)
      ensures Good() && state.State() == old(state.State())
      ensures data.Some? == old(data).Some? && SameButMarker(old(Files(journal.id)), Files(journal.id), beside)
      ensures r.Success? && r.value ==> data == (if old(data).Some? then Some(map[]) else None)
      ensures r.Success? && r.value ==> Quarantined(journal.id, beside).None?
      ensures old(state.stumbled) ==> state.stumbled
      ensures !state.stumbled ==>
        (r.Success? && r.value <==> MarkerGoes(layout, old(data), old(Quarantined(journal.id, beside))))
      ensures !state.stumbled && r.Failure? ==> Caught(r.error)
    {
      hide Good, Guarded;
      MarkerIsFresh(journal, beside);
      var name := [layout.markerName];
      var here := data.Some? && name in data.value;
      if here && Quarantined(journal.id, beside).Some? {
        return Success(false);
      }
      if here {
        var node := data.value[name];
        if !node.File? {
          return Failure(ReleaseCommandError);
        }
        assert data.value == layout.FreshRoot() ==> node == layout.marker;
        MarkerMay(journal, Some(map[]), beside, Some(node));
        var isolated := Touch(journal, Some(map[]), WithMarker(Files(journal.id), beside, Some(node)));
        if isolated.Failure? {
          return Failure(if Caught(isolated.error) then ReleaseCommandError else isolated.error);
        }
      } else if Quarantined(journal.id, beside).None? {
        return Success(true);
      }
      r := Unmark(journal, beside);
    }

    // ----- removal -----

    /** The data root is fresh, and what was there before is in the backup and bound by the journal. */
    ghost predicate Removed(journal: Journal)
      reads this
    {
      && journal.phase == RemovingData
      && data.Some?
      && (journal.id !in warrants ==> data == Some(layout.FreshRoot()))
      && if Files(journal.id).made then
           && Files(journal.id).payload.Some?
           && Files(journal.id).Manifest() == Files(journal.id).payload
           && Files(journal.id).payload.value in Bound(journal.effects, layout.dataPath)
         else
           Untaken(journal)
    }

    method Retain(journal: Journal) returns (r: Result<(Journal, bool), Error>)
      requires Good() && Mine(state.State(), journal)
      modifies state
      ensures SameOpen(old(state.State()), state.State())
      ensures Good()
      ensures r.Success? ==> !r.value.1 && Mine(state.State(), r.value.0) && r.value.0.id == journal.id
      ensures state.stumbled <==> old(state.stumbled) || r.Failure?
    {
      hide Good;
      var recorded :- Record(
        journal, [Observation("data-removal", Unknown, None)], [layout.backupPath, layout.dataPath], ["inspect"]);
      return Success((recorded, false));
    }

    /** Journal the moved tree as an applied effect. */
    method Bind(journal: Journal, tree: Tree) returns (r: Result<Journal, Error>)
      requires Good() && Mine(state.State(), journal)
      requires Files(journal.id).payload == Some(tree)
      modifies state
      ensures SameOpen(old(state.State()), state.State())
      ensures Good()
      ensures r.Success? ==> Mine(state.State(), r.value) && r.value.id == journal.id && r.value.phase == RemovingData
      ensures r.Success? ==>
        Bound(r.value.effects, layout.dataPath) == Bound(journal.effects, layout.dataPath) + {tree}
      ensures state.stumbled <==> old(state.stumbled) || r.Failure?
    {
      hide Good;
      Stands(journal);
      var effect := Effect(DATA, layout.dataPath, Some(OfTree(tree)), Some(OfFile(layout.marker)), true);
      BoundGrows(journal.effects, effect, layout.dataPath);
      var paths := [layout.backupPath, layout.payloadPath, layout.dataPath, layout.markerPath];
      r := Advance(
        journal, RemovingData,
        Evidence(
          [Observation("data-removal", Exact, None)], [effect], Activation.NewOwned(journal.owned, paths), [],
          ["required"]));
    }

    /** The payload and a marked data root are there: nothing to do but to prove it. */
    method Confirm(journal: Journal) returns (r: Result<(Journal, bool), Error>)
      requires Good() && Mine(state.State(), journal)
      requires Files(journal.id).payload.Some? && layout.MarkerExact(data)
      modifies state
      ensures SameOpen(old(state.State()), state.State())
      ensures Good()
      ensures r.Success? ==> Mine(state.State(), r.value.0) && r.value.0.id == journal.id
      ensures r.Success? && r.value.1 ==> Removed(r.value.0)
      ensures state.stumbled <==> old(state.stumbled) || r.Failure?
      ensures r.Success? ==>
        (r.value.1 <==> Confirmable(Files(journal.id), Bound(journal.effects, layout.dataPath)))
    {
      hide Good;
      Stands(journal);
      var b := Files(journal.id);
      var bound := Bound(journal.effects, layout.dataPath);
      var manifest := b.Manifest();
      if manifest.None? {
        r := Retain(journal);
        return;
      }
      var exact := VerifyPayload(b.payload.value, manifest.value);
      if !exact || !(bound <= {manifest.value}) {
        r := Retain(journal);
        return;
      }
      if bound == {} {
        var next :- Bind(journal, manifest.value);
        return Success((next, true));
      } else {
        assert manifest.value in bound;
        var next :- Record(journal, [Observation("data-removal", Exact, None)], [], ["required"]);
        return Success((next, true));
      }
    }

    /** Create the fresh data root: directory first, marker second. */
    method CreateFreshRoot(journal: Journal) returns (r: Result<(), Error>)
      requires Good() && Mine(state.State(), journal)
      requires data.None?
      modifies state, this`data, this`backups
      ensures Good() && state.State() == old(state.State()) && Files(journal.id) == old(Files(journal.id))
      ensures r.Success? ==> data == Some(layout.FreshRoot())
      ensures state.stumbled <==> old(state.stumbled) || r.Failure?
    {
      hide Good;
      Stands(journal);
      var _ :- Touch(journal, Some(map[]), Files(journal.id));
      Stands(journal);
      var _ :- Touch(journal, Some(layout.FreshRoot()), Files(journal.id));
      return Success(());
    }

    /** Directory, inventory, rename: an interrupted prefix of these is what `Dismantle` recognises. */
    method Relocate(journal: Journal) returns (r: Result<bool, Error>)
      requires Good() && Mine(state.State(), journal)
      requires data.Some? && !Files(journal.id).made
      modifies state, this`data, this`backups
      ensures Good() && state.State() == old(state.State())
      ensures QuarantinesStay(old(Files(journal.id)), Files(journal.id))
      ensures Files(journal.id).payload.Some? ==> Files(journal.id).payload == old(data)
      ensures r.Success? && r.value ==>
        && data.None? && Files(journal.id).made
        && Files(journal.id).payload == old(data) && Files(journal.id).Manifest() == old(data)
      ensures old(state.stumbled) ==> state.stumbled
      ensures !state.stumbled ==> r.Success? && r.value
    {
      hide Good;
      Stands(journal);
      var tree := data.value;
      var b := Files(journal.id).(made := true);
      var _ :- Touch(journal, data, b);
      Stands(journal);
      var _ :- Touch(journal, data, b.(inventory := Some(tree)));
      Stands(journal);
      var renamed := Touch(journal, None, b.(inventory := Some(tree), payload := Some(tree)));
      if renamed.Failure? {
        if renamed.error != OSError {
          return Failure(renamed.error);
        }
        return Success(false);
      }
      return Success(true);
    }

    /** Inventory the data root, make the inventory durable, and only then rename the tree into the backup. */
    method Move(journal: Journal) returns (r: Result<(Journal, bool), Error>)
      requires Good() && Mine(state.State(), journal)
      requires data.Some? && !Files(journal.id).made
      modifies state, this`data, this`backups
      ensures SameOpen(old(state.State()), state.State())
      ensures Good()
      ensures QuarantinesStay(old(Files(journal.id)), Files(journal.id))
      ensures MayHold(layout, old(data), old(Files(journal.id)), Files(journal.id))
      ensures Unowned(layout, old(data).value) ==> data == old(data) && Files(journal.id) == old(Files(journal.id))
      ensures r.Success? && r.value.1 ==> Files(journal.id).made && Files(journal.id).payload == old(data)
      ensures r.Success? ==> Mine(state.State(), r.value.0) && r.value.0.id == journal.id
      ensures r.Success? && r.value.1 ==> Removed(r.value.0)
      ensures old(state.stumbled) ==> state.stumbled
      ensures !state.stumbled ==> r.Success? && (r.value.1 <==> layout.Movable(old(data).value))
    {
      hide Good;
      Stands(journal);
      var tree := data.value;
      if !layout.Movable(tree) {
        r := Retain(journal);
        return;
      }
      var moved :- Relocate(journal);
      if !moved {
        r := Retain(journal);
        return;
      }
      var _ :- CreateFreshRoot(journal);
      var next :- Bind(journal, tree);
      return Success((next, true));
    }

    /** A crash fell between the inventory and the rename: prove that nothing moved and take the shell down. */
    method Dismantle(journal: Journal) returns (r: Result<bool, Error>)
      requires Good() && Mine(state.State(), journal)
      requires Files(journal.id).made && Files(journal.id).payload.None?
      modifies state, this`data, this`backups
      ensures Barred(old(data), old(Files(journal.id))) && r.Success? ==> !r.value
      ensures Barred(old(data), old(Files(journal.id))) ==> Files(journal.id) == old(Files(journal.id))
      ensures Good() && state.State() == old(state.State()) && data == old(data)
      ensures QuarantinesStay(old(Files(journal.id)), Files(journal.id))
      ensures Files(journal.id).payload.None?
      ensures r.Success? && r.value ==>
        data.Some? && Files(journal.id) == NO_BACKUP.(beside := old(Files(journal.id)).beside)
      ensures old(state.stumbled) ==> state.stumbled
      ensures !state.stumbled ==>
        r.Success? && (r.value <==> old(Files(journal.id)).Shell() && old(data) == old(Files(journal.id)).Manifest())
    {
      hide Good;
      var b := Files(journal.id);
      if !b.Shell() || data.None? {
        return Success(false);
      }
      var exact := VerifyPayload(data.value, b.Manifest().value);
      if !exact {
        return Success(false);
      }
      var gone := RemoveBackup(journal);
      if gone.Failure? && !Caught(gone.error) {
        return Failure(gone.error);
      }
      return Success(gone.Success?);
    }

    lemma Absent(journal: Journal)
      requires Good() && Mine(state.State(), journal)
      ensures data.None? && Files(journal.id).payload.None? ==> Untaken(journal)
      ensures layout.MarkerExact(Some(layout.FreshRoot()))
      ensures Files(journal.id).Contained()
    {
      Stands(journal);
    }

    /** What `_ensure_data_removed` makes of the files it meets. */
    twostate predicate Emptied(new journal: Journal, new r: Result<(Journal, bool), Error>)
      reads this, state
    {
      && SameOpen(old(state.State()), state.State())
      && QuarantinesStay(old(Files(journal.id)), Files(journal.id))
      && (r.Success? ==> Mine(state.State(), r.value.0) && r.value.0.id == journal.id)
      && (r.Success? && r.value.1 ==> Removed(r.value.0))
      && (r.Success? && r.value.1 ==> Took(old(data), old(Files(journal.id)), Files(journal.id)))
      // What nothing can be done about stays as it is.
      && (Barred(old(data), old(Files(journal.id))) || TwoMarkers(layout, old(data), old(Files(journal.id)))
          || Untakable(layout, old(data), old(Files(journal.id))) ==>
            data == old(data) && Files(journal.id) == old(Files(journal.id)))
      && MayHold(layout, old(data), old(Files(journal.id)), Files(journal.id))
      && (Barred(old(data), old(Files(journal.id))) && r.Success? ==> !r.value.1)
      && (old(state.stumbled) ==> state.stumbled)
      // Removal is complete exactly if it could be.
      && (!state.stumbled ==>
            r.Success? &&
            (r.value.1 <==>
              Removable(layout, old(data), old(Files(journal.id)), Bound(journal.effects, layout.dataPath))))
    }

    /** `_ensure_data_removed`: idempotent, from whatever an interrupted run left behind. */
    method EnsureDataRemoved(journal0: Journal) returns (r: Result<(Journal, bool), Error>)
      requires Good() && Mine(state.State(), journal0)
      modifies state, this`data, this`backups
      ensures Good() && Emptied(journal0, r)
      decreases Remaining(layout, data, Files(journal0.id)), 2
    {
      hide Good, Removed, Guarded, Removable, Remaining;
      var journal := journal0;
      if journal.phase == Created {
        journal :- Record(journal, [], [], []);
      }
      Stands(journal);
      r := RemoveData(journal);
    }

    method RemoveData(journal: Journal) returns (r: Result<(Journal, bool), Error>)
      requires Good() && Mine(state.State(), journal) && journal.phase == RemovingData
      modifies state, this`data, this`backups
      ensures Good() && Emptied(journal, r)
      decreases Remaining(layout, data, Files(journal.id)), 1
    {
      hide Good, Removed, Guarded, SameOpen;
      Stands(journal);
      Absent(journal);
      var b := Files(journal.id);
      if b.payload.Some? && layout.MarkerExact(data) {
        r := Confirm(journal);
      } else if b.made && b.payload.None? {
        r := RemoveShelled(journal);
      } else if b.payload.Some? && data.Some? {
        r := RemoveUnmarked(journal);
      } else if data.None? {
        r := RemoveAbsent(journal);
      } else {
        r := Move(journal);
      }
    }

    /** A backup directory without a payload: take the shell down and start again. */
    method RemoveShelled(journal: Journal) returns (r: Result<(Journal, bool), Error>)
      requires Good() && Mine(state.State(), journal)
      requires Files(journal.id).made && Files(journal.id).payload.None?
      modifies state, this`data, this`backups
      ensures Good() && Emptied(journal, r)
      decreases Remaining(layout, data, Files(journal.id)), 0
    {
      hide Good, Removed, Guarded, SameOpen;
      SameOpenIsReflexive(state.State());
      var down :- Dismantle(journal);
      if !down {
        r := Retain(journal);
        return;
      }
      r := EnsureDataRemoved(journal);
    }

    /** A payload beside a data root without its marker: mark it and start again. */
    method RemoveUnmarked(journal: Journal) returns (r: Result<(Journal, bool), Error>)
      requires Good() && Mine(state.State(), journal)
      requires Files(journal.id).payload.Some? && data.Some? && !layout.MarkerExact(data)
      modifies state, this`data, this`backups
      ensures Good() && Emptied(journal, r)
      decreases Remaining(layout, data, Files(journal.id)), 0
    {
      hide Good, Removed, Guarded, SameOpen;
      SameOpenIsReflexive(state.State());
      Absent(journal);
      var clean :- Remark(journal);
      if !clean {
        r := Retain(journal);
        return;
      }
      r := EnsureDataRemoved(journal);
    }

    /** No data root: make a fresh one. */
    method RemoveAbsent(journal: Journal) returns (r: Result<(Journal, bool), Error>)
      requires Good() && Mine(state.State(), journal) && data.None?
      requires Files(journal.id).made ==> Files(journal.id).payload.Some?
      modifies state, this`data, this`backups
      ensures Good() && Emptied(journal, r)
      decreases Remaining(layout, data, Files(journal.id)), 0
    {
      hide Good, Removed, Guarded, SameOpen;
      SameOpenIsReflexive(state.State());
      Absent(journal);
      var _ :- CreateFreshRoot(journal);
      if Files(journal.id).payload.Some? {
        r := EnsureDataRemoved(journal);
        return;
      }
      r := ReportAbsent(journal);
    }

    /** The fresh data root lost its marker to a crash: write it again. */
    method Remark(journal: Journal) returns (r: Result<bool, Error>)
      requires Good() && Mine(state.State(), journal)
      requires Files(journal.id).payload.Some? && data.Some?
      modifies state, this`data, this`backups
      ensures TwoMarkers(layout, old(data), old(Files(journal.id))) ==> data == old(data)
      ensures Good() && state.State() == old(state.State()) && Files(journal.id) == old(Files(journal.id))
      ensures r.Success? && r.value ==> data == Some(layout.FreshRoot())
      ensures old(state.stumbled) ==> state.stumbled
      ensures !state.stumbled ==>
        r.Success? &&
        (r.value <==> old(data) == Some(map[]) && Files(journal.id).Manifest().Some?
                      && Files(journal.id).payload == Files(journal.id).Manifest())
    {
      hide Good;
      Stands(journal);
      var b := Files(journal.id);
      if data.value != map[] || b.Manifest().None? {
        return Success(false);
      }
      var exact := VerifyPayload(b.payload.value, b.Manifest().value);
      if !exact {
        return Success(false);
      }
      var written := Touch(journal, Some(layout.FreshRoot()), b);
      if written.Failure? && !Caught(written.error) {
        return Failure(written.error);
      }
      return Success(written.Success?);
    }

    /** There was nothing to remove. */
    method ReportAbsent(journal: Journal) returns (r: Result<(Journal, bool), Error>)
      requires Good() && Mine(state.State(), journal)
      requires data == Some(layout.FreshRoot()) && Files(journal.id).payload.None? && !Files(journal.id).made
      requires Untaken(journal)
      modifies state
      ensures SameOpen(old(state.State()), state.State())
      ensures Good()
      ensures r.Success? ==>
        r.value.1 && Mine(state.State(), r.value.0) && r.value.0.id == journal.id && Removed(r.value.0)
      ensures state.stumbled <==> old(state.stumbled) || r.Failure?
    {
      hide Good;
      Stands(journal);
      var effect := Effect(DATA, layout.markerPath, None, Some(OfFile(layout.marker)), true);
      BoundGrows(journal.effects, effect, layout.dataPath);
      var paths := Activation.NewOwned(journal.owned, [layout.dataPath, layout.markerPath]);
      var next :- Advance(
        journal, RemovingData, Evidence([Observation("data-removal", Exact, None)], [effect], paths, [], []));
      return Success((next, true));
    }

    // ----- restoration -----

    /** Remove the fresh data root and put the verified payload back. */
    method PutBack(journal: Journal) returns (r: Result<(), Error>)
      requires Good() && Mine(state.State(), journal)
      requires Files(journal.id).payload.Some?
      modifies state, this`data, this`backups
      ensures TwoMarkers(layout, old(data), old(Files(journal.id))) ==>
        r.Failure? && data == old(data) && Files(journal.id) == old(Files(journal.id))
      ensures Good() && state.State() == old(state.State())
      ensures r.Success? ==> data == old(Files(journal.id)).payload && Files(journal.id).payload.None?
      ensures r.Success? ==> Bound(journal.effects, layout.dataPath) == {data.value}
      ensures old(state.stumbled) ==> state.stumbled
      ensures !state.stumbled ==>
        (r.Success? <==>
          PutsBack(layout, old(data), old(Files(journal.id)), Bound(journal.effects, layout.dataPath)))
      ensures !state.stumbled && r.Failure? ==> Caught(r.error)
    {
      hide Good, Guarded;
      var b := Files(journal.id);
      Absent(journal);
      var manifest := b.Manifest();
      if manifest.None? || Bound(journal.effects, layout.dataPath) != {manifest.value} {
        return Failure(ReleaseCommandError);
      }
      var exact := VerifyPayload(b.payload.value, manifest.value);
      if !exact {
        return Failure(ReleaseCommandError);
      }
      if data.Some? && !Clearable(layout, data.value, b.marker) {
        return Failure(ReleaseCommandError);
      }
      var clean :- RemoveMarker(journal, false);
      if !clean {
        return Failure(ReleaseCommandError);
      }
      if data.Some? {
        RootMayGo(journal);
        var _ :- Touch(journal, None, Files(journal.id));
      }
      PayloadMayReturn(journal);
      var _ :- Touch(journal, Files(journal.id).payload, Files(journal.id).(payload := None));
      r := RemoveBackup(journal);
    }

    lemma RootMayGo(journal: Journal)
      requires Good() && Mine(state.State(), journal) && Files(journal.id).payload.Some?
      ensures Guarded(
        layout, Bound(journal.effects, layout.dataPath), Origin(journal.id), journal.id in warrants, None,
          Files(journal.id))
    {
      Stands(journal);
    }

    lemma PayloadMayReturn(journal: Journal)
      requires Good() && Mine(state.State(), journal) && Files(journal.id).payload.Some?
      ensures
        var b := Files(journal.id);
        Guarded(
          layout, Bound(journal.effects, layout.dataPath), Origin(journal.id), journal.id in warrants, b.payload,
          b.(payload := None))
    {
      Stands(journal);
    }

    /** What `_restore_data` may start from. */
    ghost predicate Secured(journal: Journal)
      reads this
    {
      Files(journal.id).made || Untaken(journal)
    }

    /** The facts that a rolled-back outcome must carry. */
    ghost predicate Restored(journal: Journal)
      reads this
    {
      && Files(journal.id).payload.None?
      && (Origin(journal.id).Some? ==> data == Origin(journal.id))
      && (var bound := Bound(journal.effects, layout.dataPath);
          if bound == {} then data.None? else data.Some? && bound == {data.value})
    }

    /** The bound tree in the data root is the original one. */
    lemma BoundIsOriginal(journal: Journal)
      requires Good() && Mine(state.State(), journal)
      requires Files(journal.id).payload.None? && data.Some?
      requires Bound(journal.effects, layout.dataPath) == {data.value}
      ensures Restored(journal)
    {
      Stands(journal);
    }

    method Settle(journal: Journal, exact: bool) returns (r: Result<(Journal, bool), Error>)
      requires Good() && Mine(state.State(), journal)
      requires exact ==> Restored(journal)
      modifies state
      ensures SameOpen(old(state.State()), state.State())
      ensures Good()
      ensures r.Success? ==> r.value.1 == exact && Mine(state.State(), r.value.0) && r.value.0.id == journal.id
      ensures r.Success? && exact ==> Restored(r.value.0)
      ensures state.stumbled <==> old(state.stumbled) || r.Failure?
    {
      hide Good;
      var next :- Record(
        journal, [Observation("data-restoration", if exact then Exact else Unknown, None)],
        if exact then [] else [layout.backupPath, layout.dataPath], if exact then [] else ["inspect"]);
      return Success((next, exact));
    }

    /** `_restore_data`: exact restoration, or the moved tree stays where it is. */
    method RestoreData(journal: Journal) returns (r: Result<(Journal, bool), Error>)
      requires Good() && Mine(state.State(), journal) && Secured(journal)
      modifies state, this`data, this`backups
      ensures TwoMarkers(layout, old(data), old(Files(journal.id))) ==>
        r.Failure? && data == old(data) && Files(journal.id) == old(Files(journal.id))
      ensures SameOpen(old(state.State()), state.State())
      ensures Good()
      ensures r.Success? ==> Mine(state.State(), r.value.0) && r.value.0.id == journal.id
      ensures r.Success? && r.value.1 ==> Restored(r.value.0)
      ensures r.Success? && r.value.1 ==> data == Back(old(data), old(Files(journal.id)))
      ensures old(state.stumbled) ==> state.stumbled
      ensures !state.stumbled ==>
        (r.Success? && r.value.1 <==>
          Restorable(layout, old(data), old(Files(journal.id)), Bound(journal.effects, layout.dataPath)))
      // A payload that cannot be restored raises: the journal stays open.
      ensures !state.stumbled && old(Files(journal.id)).payload.Some? && (r.Success? ==> !r.value.1) ==>
        r.Failure? && r.error == TypeError
      ensures !state.stumbled && old(Files(journal.id)).payload.None? ==> r.Success?
    {
      hide Good, Guarded, PutsBack;
      Absent(journal);
      var b := Files(journal.id);
      if !b.made {
        r := RestoreAbsence(journal);
        return;
      }
      if b.payload.None? {
        if !b.Shell() || data.None? || Bound(journal.effects, layout.dataPath) != {b.Manifest().value} {
          r := Settle(journal, false);
          return;
        }
        var exact := VerifyPayload(data.value, b.Manifest().value);
        if !exact {
          r := Settle(journal, false);
          return;
        }
        var gone := RemoveBackup(journal);
        if gone.Failure? && !Caught(gone.error) {
          return Failure(gone.error);
        }
        BoundIsOriginal(journal);
        r := Settle(journal, gone.Success?);
        return;
      }
      var back := PutBack(journal);
      if back.Failure? {
        // The handler passes one observation where a tuple is meant, so it raises itself.
        return Failure(if Caught(back.error) then TypeError else back.error);
      }
      BoundIsOriginal(journal);
      r := Settle(journal, true);
    }

    /** There is no backup: only a fresh data root may be there, and it goes. */
    method RestoreAbsence(journal: Journal) returns (r: Result<(Journal, bool), Error>)
      requires Good() && Mine(state.State(), journal) && !Files(journal.id).made && Untaken(journal)
      requires Files(journal.id).payload.None?
      modifies state, this`data, this`backups
      ensures SameOpen(old(state.State()), state.State())
      ensures Good()
      ensures r.Success? ==> Mine(state.State(), r.value.0) && r.value.0.id == journal.id
      ensures r.Success? && r.value.1 ==> Restored(r.value.0) && data.None?
      ensures old(state.stumbled) ==> state.stumbled
      ensures !state.stumbled ==>
        r.Success? && (r.value.1 <==> FreshGoes(layout, old(data), old(Files(journal.id)).beside))
    {
      hide Good, Guarded;
      if data.None? {
        r := Settle(journal, true);
        return;
      }
      if !Clearable(layout, data.value, Files(journal.id).beside) {
        r := Settle(journal, false);
        return;
      }
      var clean := RemoveMarker(journal, true);
      if clean.Failure? {
        if Caught(clean.error) {
          r := Settle(journal, false);
          return;
        }
        return Failure(clean.error);
      }
      if !clean.value {
        r := Settle(journal, false);
        return;
      }
      AbsenceMayReturn(journal);
      var gone := Touch(journal, None, Files(journal.id));
      if gone.Failure? && !Caught(gone.error) {
        return Failure(gone.error);
      }
      r := Settle(journal, gone.Success?);
    }

    lemma AbsenceMayReturn(journal: Journal)
      requires Good() && Mine(state.State(), journal) && Untaken(journal)
      ensures Guarded(
        layout, Bound(journal.effects, layout.dataPath), Origin(journal.id), journal.id in warrants, None,
          Files(journal.id))
    {
      Stands(journal);
    }

    // ----- after a committed bootstrap -----

    /** The bootstrap committed and its active record is the durable one: the old tree may go. */
    ghost method Release(journal: Journal, report: Report)
      requires Good() && Mine(state.State(), journal) && Removed(journal)
      requires Warranted(Warrant(report, Observe(state.State())))
      modifies this`warrants
      ensures Good() && data.Some?
      ensures warrants == old(warrants)[journal.id := Warrant(report, Observe(state.State()))]
    {
      hide Inv;
      Stands(journal);
      warrants := warrants[journal.id := Warrant(report, Observe(state.State()))];
      ReleaseKeepsAccounts(
        state.State(), layout, data, backups, journal.id, origins, old(warrants), closings, warrants[journal.id]);
    }

    /** `_remove_backup_after_commit`; `leftover` is what exact removal of the payload could not take. */
    method RemoveBackupAfterCommit(journal: Journal, leftover: Option<Tree>) returns (r: Result<(Journal, bool), Error>)
      requires Good() && Mine(state.State(), journal) && journal.id in warrants && data.Some?
      modifies state, this`data, this`backups
      ensures Good() && Observe(state.State()) == Observe(old(state.State()))
      ensures data == old(data)
      // Only a payload whose inventory is the one the journal binds is ever touched.
      ensures Files(journal.id).payload != old(Files(journal.id)).payload ==>
        var before := old(Files(journal.id));
        exists t :: Bound(journal.effects, layout.dataPath) == {t} && before.payload.Some?
                    && ((before.inventory == Some(t) && before.deleting.None?)
                        || (before.inventory.None? && before.deleting == Some(t)))
      ensures r.Success? ==> Mine(state.State(), r.value.0) && r.value.0.id == journal.id
      ensures r.Success? && r.value.1 ==> !Files(journal.id).made
      ensures old(state.stumbled) ==> state.stumbled
      ensures !state.stumbled ==>
        r.Success? &&
        (r.value.1 <==> CleansUp(old(Files(journal.id)), Bound(journal.effects, layout.dataPath), leftover))
    {
      hide Good;
      Stands(journal);
      var b := Files(journal.id);
      if !b.made {
        return Success((journal, true));
      }
      var manifest := b.Manifest();
      var clean := false;
      if b.payload.Some? && manifest.Some? && Bound(journal.effects, layout.dataPath) == {manifest.value} {
        var erased := Touch(journal, data, b.(payload := leftover));
        if erased.Failure? && !Caught(erased.error) {
          return Failure(erased.error);
        }
        if erased.Success? && leftover.None? {
          var gone := RemoveBackup(journal);
          if gone.Failure? && !Caught(gone.error) {
            return Failure(gone.error);
          }
          clean := gone.Success?;
        }
      }
      var next :- Record(
        journal, [Observation("backup-cleanup", if clean then Exact else Unknown, None)],
        if clean then [] else [layout.backupPath], if clean then [] else ["retained"]);
      return Success((next, clean));
    }

    /** A bootstrap that committed and whose record is the durable one: the old tree is given up. */
    method CloseCommitted(journal: Journal, report: Report, leftover: Option<Tree>)
      returns (r: Result<ReinstallResult, Error>)
      requires Good() && Mine(state.State(), journal) && Removed(journal)
      requires Warranted(Warrant(report, Observe(state.State())))
      modifies state, this`data, this`backups, this`closings, this`warrants
      ensures Good() && data == old(data)
      ensures warrants == old(warrants)[journal.id := Warrant(report, old(Observe(state.State())))]
      ensures r.Success? ==> r.value == ReinstallResult(Some(journal.id), Committed)
      ensures r.Success? ==> Closed(state.State(), journal.id, Committed)
      ensures old(state.stumbled) ==> state.stumbled
      ensures !state.stumbled ==> r.Success?
    {
      hide Good, Removed;
      Release(journal, report);
      var cleaned :- RemoveBackupAfterCommit(journal, leftover);
      Stands(cleaned.0);
      var _ :- Finish(cleaned.0, Committed, [Observation("reinstall-install", Exact, None)]);
      return Success(ReinstallResult(Some(journal.id), Committed));
    }

    lemma StillConserved(journal: Journal, outcome: Outcome)
      requires Good() && Mine(state.State(), journal)
      requires outcome == Partial || (outcome == RolledBack && Restored(journal))
      ensures Kept(
        layout,
        Closing(journal.(outcome := Some(outcome)), Origin(journal.id), data, Files(journal.id),
          WarrantOf(warrants, journal.id)))
    {
      Stands(journal);
    }

    /** The last locked section: what the bootstrap reported decides between deletion and restoration. */
    method Conclude(id: Id, report: Report, leftover: Option<Tree>) returns (r: Result<ReinstallResult, Error>)
      requires Good() && Ready(id)
      modifies state, this`data, this`backups, this`closings, this`warrants
      ensures TwoMarkers(layout, old(data), old(Files(id))) && !report.committed ==>
        && r.Failure? && data == old(data) && Files(id) == old(Files(id))
        && SameOpen(old(state.State()), state.State())
      ensures Good()
      ensures old(state.stumbled) ==> state.stumbled
      ensures r.Success? ==> Closed(state.State(), id, r.value.outcome) && r.value.transactionId == Some(id)
      // The old tree is given up only for a committed bootstrap whose record is the durable one.
      ensures warrants == old(warrants) || (
          var warrant := Warrant(report, old(Observe(state.State())));
          warrants == old(warrants)[id := warrant]
          && report.committed && report.active.Some? && report.active == old(state.active))
      ensures r.Success? && r.value.outcome == Committed ==>
        report.committed && report.active.Some? && report.active == old(state.active)
      // Rolled back: what was moved is in the data root again.
      ensures r.Success? && r.value.outcome == RolledBack ==> data == Back(old(data), old(Files(id)))
      ensures !state.stumbled && report.committed ==>
        r.Success? &&
        r.value.outcome == if report.active.Some? && report.active == old(state.active) then Committed else Partial
      ensures !state.stumbled && !report.committed ==>
        if Restorable(layout, old(data), old(Files(id)), Bound(old(state.journals)[id].effects, layout.dataPath)) then
          r.Success? && r.value.outcome == RolledBack
        else if old(Files(id)).payload.Some? then
          r.Failure? && r.error == TypeError
        else
          r.Success? && r.value.outcome == Partial
    {
      hide Good, Removed;
      var journal :- Reread(id);
      if report.committed {
        var current :- Look();
        if report.active.Some? && current.record == report.active {
          r := CloseCommitted(journal, report, leftover);
          return;
        }
        journal :- Record(
          journal, [Observation("reinstall-install", Concurrent, None)], [layout.backupPath, layout.dataPath],
            ["inspect"]);
        StillConserved(journal, Partial);
        var _ :- Finish(journal, Partial, []);
        return Success(ReinstallResult(Some(id), Partial));
      }
      RemovedIsSecured(journal);
      var restored :- RestoreData(journal);
      var outcome := if restored.1 then RolledBack else Partial;
      StillConserved(restored.0, outcome);
      var _ :- Finish(restored.0, outcome, [Observation("reinstall-install", Changed, None)]);
      return Success(ReinstallResult(Some(id), outcome));
    }

    lemma RemovedIsSecured(journal: Journal)
      requires Removed(journal)
      ensures Secured(journal)
    {
    }

    method Look() returns (r: Result<Snapshot, Error>)
      requires Good()
      modifies state
      ensures Good() && state.State() == old(state.State())
      ensures r.Success? ==> r.value == Observe(state.State())
      ensures state.stumbled <==> old(state.stumbled) || r.Failure?
    {
      r := state.ReadActive();
    }

    method Reread(id: Id) returns (r: Result<Journal, Error>)
      requires Good() && Ready(id)
      modifies state
      ensures Good() && state.State() == old(state.State())
      ensures r.Success? ==> id in state.journals && r.value == state.journals[id] && r.value.id == id
      ensures r.Success? ==> Mine(state.State(), r.value) && Removed(r.value)
      ensures state.stumbled <==> old(state.stumbled) || r.Failure?
    {
      r := state.ReadTransaction(id);
    }

    /** Removal is complete for this transaction, which still waits for its bootstrap. */
    ghost predicate Ready(id: Id)
      reads this, state
    {
      && id in state.journals && state.journals[id].id == id
      && Mine(state.State(), state.journals[id])
      && WaitingReinstall(state.journals[id])
      && Removed(state.journals[id])
    }

    /**
     After a completed removal a failing bootstrap is always rolled back, with
     one exception: a marker that an interrupted restoration left in quarantine
     beside a rewritten one.  Then restoration raises, now and on every retry.
     */
    lemma RemovedRestores(journal: Journal)
      requires Good() && Mine(state.State(), journal) && Removed(journal) && journal.id !in warrants
      ensures Restorable(layout, data, Files(journal.id), Bound(journal.effects, layout.dataPath)) <==>
              Quarantined(journal.id, !Files(journal.id).made).None?
    {
      Stands(journal);
      var bound := Bound(journal.effects, layout.dataPath);
      if Files(journal.id).made {
        assert bound == {Files(journal.id).payload.value};
      }
    }

    // ----- the locked sections before it -----

    method Pending() returns (r: Result<seq<Journal>, Error>)
      requires Good()
      modifies state
      ensures Good() && state.State() == old(state.State())
      ensures state.stumbled <==> old(state.stumbled) || r.Failure?
      ensures r.Success? ==> Enumerates(r.value, state.State()) && |r.value| <= 2
      ensures r.Success? && |r.value| == 1 ==> forall k :: Open(state.State(), k) ==> k == r.value[0].id
      ensures r.Success? && |r.value| == 2 ==> Nested(r.value[0], r.value[1]) || Nested(r.value[1], r.value[0])
    {
      r := state.NonTerminalTransactions();
      if r.Success? {
        forall k | |r.value| == 1 && Open(state.State(), k) ensures k == r.value[0].id {
          assert state.journals[k] in r.value;
        }
        PendingShapes(state.State(), r.value);
      }
    }

    /** First section: must a bootstrap recover somebody else's journal first, and under which reinstall? */
    method Survey() returns (r: Result<Option<Option<Id>>, Error>)
      requires Good()
      modifies state
      ensures Good() && state.State() == old(state.State())
      ensures state.stumbled <==> old(state.stumbled) || r.Failure?
      ensures r.Success? ==>
        (r.value.Some? <==> exists id :: Open(state.State(), id) && state.journals[id].operation != Reinstall)
      ensures r.Success? && r.value.Some? && r.value.value.Some? ==>
        Open(state.State(), r.value.value.value) && WaitingReinstall(state.journals[r.value.value.value])
    {
      hide Good;
      var pending :- Pending();
      var others, mine := Split(pending);
      if others == [] {
        return Success(None);
      }
      assert others[0] in others;
      if |mine| == 1 && mine[0].phase == RemovingData {
        return Success(Some(Some(mine[0].id)));
      }
      return Success(Some(None));
    }

    /** The open journals, other drivers' first. */
    method Split(pending: seq<Journal>) returns (others: seq<Journal>, mine: seq<Journal>)
      requires Enumerates(pending, state.State())
      ensures forall j :: j in others <==> j in pending && j.operation != Reinstall
      ensures forall j :: j in mine <==> j in pending && j.operation == Reinstall
      ensures |others| + |mine| == |pending|
      ensures (exists id :: Open(state.State(), id) && state.journals[id].operation != Reinstall) <==> others != []
    {
      others, mine := [], [];
      for i := 0 to |pending|
        invariant forall j :: j in others <==> j in pending[..i] && j.operation != Reinstall
        invariant forall j :: j in mine <==> j in pending[..i] && j.operation == Reinstall
        invariant |others| + |mine| == i
      {
        if pending[i].operation == Reinstall {
          mine := mine + [pending[i]];
        } else {
          others := others + [pending[i]];
        }
      }
      if others != [] {
        assert others[0] in others;
        assert Open(state.State(), others[0].id);
      }
    }

    lemma Unused(id: Id)
      requires Good()
      ensures id !in state.journals ==> id !in warrants && id !in backups
    {
    }

    method Create(id: Id) returns (r: Result<Journal, Error>)
      requires Good() && forall k :: !Open(state.State(), k)
      modifies state, this`origins
      ensures Good() && data == old(data)
      ensures r.Success? ==> Mine(state.State(), r.value) && r.value.id == id && r.value.effects == []
      ensures r.Success? ==> Files(id) == NO_BACKUP && Origin(id) == data
      ensures r.Success? ==> id !in warrants
      ensures backups == old(backups)
      ensures r.Success? ==> OnlyReinstall(state.State(), id)
      ensures state.stumbled <==> old(state.stumbled) || r.Failure?
    {
      hide Inv, Reinstalls, Guarded, OnlyReinstall, Accounts;
      Unused(id);
      ghost var before := state.State();
      var active :- state.ReadActive();
      var journal := Journal(
        id, Reinstall, active.Expectation(), None, active.record, [], [],
        [layout.dataPath, layout.backupPath, layout.payloadPath], Created, None, [], []);
      r := state.CreateTransaction(journal);
      if state.State() != before {
        Opened(before, journal);
        origins := origins[id := data];
      }
    }

    /** A new journal speaks of the data root as it is now, and of no backup. */
    lemma Opened(before: Durable, journal: Journal)
      requires Inv(before) && Accounts(before, layout, data, backups, origins, warrants, closings)
      requires journal.id !in before.journals && WellFormed(journal)
      requires state.State() == before.(journals := before.journals[journal.id := journal])
      requires journal.operation == Reinstall && journal.phase == Created && journal.effects == []
      requires journal.expected == Observe(before).Expectation() && journal.previous == before.active
      requires forall id :: !Open(before, id)
      requires journal.id !in warrants && journal.id !in backups && layout.Valid()
      ensures Inv(state.State()) && Foreign(state.State(), {Reinstall}) == Foreign(before, {Reinstall})
      ensures OnlyReinstall(state.State(), journal.id)
      ensures Reinstalls(before) <= Reinstalls(state.State())
      ensures Accounts(
        state.State(), layout, data, backups, origins[journal.id := data], warrants, closings)
    {
      CreateKeepsInv(before, state.State(), journal);
      OwnWriteKeepsForeign(before, state.State(), journal, {Reinstall});
      hide Inv, Accounts, Account, Guarded, Kept;
      AccountsAfterOpening(before, state.State(), journal, layout, data, backups, origins, warrants, closings);
    }

    /** What a reinstall does that finds its own interrupted journal open, and nothing else. */
    twostate predicate Resumed(new k: Id, new r: Result<Prepared, Error>)
      reads this, state
    {
      OnlyReinstall(old(state.State()), k) ==>
        && OnlyReinstall(state.State(), k)
        && (r.Success? && r.value.Cleared? ==> r.value == Cleared(k) && Took(old(data), old(Files(k)), Files(k)))
        // What nothing can be done about stays as it is.
        && (Barred(old(data), old(Files(k))) || TwoMarkers(layout, old(data), old(Files(k)))
            || Untakable(layout, old(data), old(Files(k))) ==>
              data == old(data) && Files(k) == old(Files(k)))
        && (Barred(old(data), old(Files(k))) ==> !(r.Success? && r.value.Cleared?))
        && MayHold(layout, old(data), old(Files(k)), Files(k))
        // Undisturbed, it goes on exactly where its files allow it.
        && (!state.stumbled ==>
              r.Success? &&
              (r.value == Cleared(k) <==>
                Removable(layout, old(data), old(Files(k)), Bound(old(state.journals)[k].effects, layout.dataPath))))
    }

    /** What a reinstall does that finds nothing open. */
    twostate predicate Begun(new id: Id, new r: Result<Prepared, Error>)
      reads this, state
    {
      (forall k :: !Open(old(state.State()), k)) ==>
        // Only an owned data root ever becomes the payload.
        && MayHold(layout, old(data), old(Files(id)), Files(id))
        && (r.Success? && r.value.Cleared? ==>
              r.value == Cleared(id) && OnlyReinstall(state.State(), id) && Took(old(data), NO_BACKUP, Files(id)))
        // Undisturbed, a root with unowned content, or a marker not the product's, stays; any other is moved, whole.
        && (!state.stumbled ==>
              if old(data).Some? && Unowned(layout, old(data).value) then
                r == Success(Preserved(id)) && data == old(data) && Files(id) == NO_BACKUP
              else
                r == Success(Cleared(id)) && data == Some(layout.FreshRoot()) && Files(id).payload == old(data))
    }

    /** Second section: open or resume the one reinstall journal and remove the data root. */
    method Prepare(id: Id) returns (r: Result<Prepared, Error>)
      requires Good()
      modifies state, this`data, this`backups, this`origins
      ensures Good()
      ensures old(state.stumbled) ==> state.stumbled
      ensures r.Success? && r.value.Cleared? ==> Ready(r.value.id)
      // Another driver's open journal is preserved, and so are the files.
      ensures (exists k :: Open(old(state.State()), k) && old(state.journals)[k].operation != Reinstall) ==>
        && state.State() == old(state.State()) && data == old(data) && backups == old(backups)
        && (r.Success? ==> r.value == Refused)
      ensures Begun(id, r) && forall k :: Resumed(k, r)
    {
      hide Good, Guarded, Removable, Barred, TwoMarkers, MayHold, SameOpen, Took, Ready, Unowned, Bound;
      hide Layout.Movable, Layout.FreshRoot, Layout.Valid;
      FreshRemoval(data);
      forall b: Backup ensures MayHold(layout, data, b, b) {
        Unmoved(b);
      }
      var journal :- ResumeOrCreate(id);
      if journal.None? {
        return Success(Refused);
      }
      ghost var before := state.State();
      r := Clear(journal.value);
      StillOnly(before, state.State(), journal.value.id);
    }

    lemma Unmoved(b: Backup)
      ensures MayHold(layout, data, b, b)
    {
    }

    lemma FreshRemoval(root: Option<Tree>)
      ensures forall bound: set<Tree> ::
        Removable(layout, root, NO_BACKUP, bound) <==> root.None? || layout.Movable(root.value)
      ensures root.Some? ==> (layout.Movable(root.value) <==> !Unowned(layout, root.value))
    {
    }

    /** The one reinstall journal, resumed or opened; none while another driver's is open. */
    method ResumeOrCreate(id: Id) returns (r: Result<Option<Journal>, Error>)
      requires Good()
      modifies state, this`origins
      ensures Good()
      ensures old(state.stumbled) ==> state.stumbled
      ensures r.Failure? ==> state.stumbled
      ensures (exists k :: Open(old(state.State()), k) && old(state.journals)[k].operation != Reinstall) ==>
        state.State() == old(state.State()) && (r.Success? ==> r.value.None?)
      ensures r.Success? && r.value.None? ==>
        exists k :: Open(old(state.State()), k) && old(state.journals)[k].operation != Reinstall
      ensures r.Success? && r.value.Some? ==>
        Mine(state.State(), r.value.value) && OnlyReinstall(state.State(), r.value.value.id)
      ensures
        forall k ::
          OnlyReinstall(old(state.State()), k) ==>
            state.State() == old(state.State()) && (r.Success? ==> r.value == Some(old(state.journals)[k]))
      ensures r.Success? && r.value.Some? && (forall k :: !Open(old(state.State()), k)) ==>
        r.value.value.id == id && r.value.value.effects == [] && Files(id) == NO_BACKUP && id !in warrants
    {
      hide Good, Guarded;
      var pending :- Pending();
      var others, mine := Split(pending);
      if others != [] {
        return Success(None);
      }
      if |mine| > 1 {
        // "multiple reinstall journals are ambiguous"
        assert false;
      }
      if |mine| == 1 {
        assert mine[0] in mine && pending == [mine[0]];
        return Success(Some(mine[0]));
      }
      var journal :- Create(id);
      return Success(Some(journal));
    }

    /** Remove the data root under this journal, which then waits for its bootstrap. */
    method Clear(journal: Journal) returns (r: Result<Prepared, Error>)
      requires Good() && Mine(state.State(), journal)
      modifies state, this`data, this`backups
      ensures Good() && SameOpen(old(state.State()), state.State())
      ensures old(state.stumbled) ==> state.stumbled
      ensures Barred(old(data), old(Files(journal.id))) || TwoMarkers(layout, old(data), old(Files(journal.id)))
              || Untakable(layout, old(data), old(Files(journal.id))) ==>
        data == old(data) && Files(journal.id) == old(Files(journal.id))
      ensures MayHold(layout, old(data), old(Files(journal.id)), Files(journal.id))
      ensures r.Success? ==> r.value in {Preserved(journal.id), Cleared(journal.id)}
      ensures r.Success? && r.value.Cleared? ==>
        Ready(journal.id) && Took(old(data), old(Files(journal.id)), Files(journal.id))
        && (journal.id !in warrants ==> data == Some(layout.FreshRoot()))
        && (old(Files(journal.id)) == NO_BACKUP ==> Files(journal.id).payload == old(data))
      ensures Barred(old(data), old(Files(journal.id))) ==> !(r.Success? && r.value.Cleared?)
      ensures !state.stumbled ==>
        r.Success? &&
        (r.value == Cleared(journal.id) <==>
          Removable(layout, old(data), old(Files(journal.id)), Bound(journal.effects, layout.dataPath)))
    {
      hide Good, Guarded, Removable, Barred, TwoMarkers, Untakable, MayHold, SameOpen;
      var removed :- EnsureDataRemoved(journal);
      if !removed.1 {
        return Success(Preserved(journal.id));
      }
      Absent(removed.0);
      Waits(removed.0);
      return Success(Cleared(journal.id));
    }


    lemma Waits(journal: Journal)
      requires Good() && Mine(state.State(), journal) && Removed(journal)
      ensures Ready(journal.id)
    {
    }

    /**
     Any number of retries of one reinstall, each under its own faults and with
     its own bootstrap.  From an empty backup directory none gets anywhere;
     from a marker in two places none but a committed bootstrap does.
     */
    method Retry(id: Id, retries: seq<Attempted>)
      requires Good() && OnlyReinstall(state.State(), id)
      requires
        || Barred(data, Files(id))
        || (TwoMarkers(layout, data, Files(id)) && forall i :: 0 <= i < |retries| ==> !retries[i].report.committed)
      modifies state, this`data, this`backups, this`origins, this`closings, this`warrants
      ensures Good() && OnlyReinstall(state.State(), id)
      ensures data == old(data) && Files(id) == old(Files(id))
    {
      hide Good;
      for i := 0 to |retries|
        invariant Good() && OnlyReinstall(state.State(), id)
        invariant data == old(data) && Files(id) == old(Files(id))
      {
        NewProcess(retries[i].prepare);
        label Before:
        var prepared := Prepare(id);
        assert Resumed@Before(id, prepared);
        if prepared.Success? && prepared.value.Cleared? {
          NewProcess(retries[i].conclude);
          var _ := Conclude(id, retries[i].report, retries[i].leftover);
        }
      }
    }

    // ----- runs that reach them -----

    /** A new reinstall dies after making its backup directory: the first steps of `Prepare`, cut off. */
    method DieAfterMkdir(id: Id) returns (r: Result<(), Error>)
      requires Good() && (forall k :: !Open(state.State(), k)) && data.Some?
      modifies state, this`data, this`backups, this`origins
      ensures Good() && (!state.stumbled ==> r.Success?)
      ensures r.Success? ==> OnlyReinstall(state.State(), id) && data == old(data)
      ensures r.Success? ==> Files(id) == NO_BACKUP.(made := true) && Barred(data, Files(id))
    {
      hide Good, OnlyReinstall, SameOpen;
      var created :- Create(id);
      ghost var before := state.State();
      var journal :- Record(created, [], [], []);
      StillOnly(before, state.State(), id);
      Stands(journal);
      r := Touch(journal, data, NO_BACKUP.(made := true));
    }

    lemma StillOnly(before: Durable, after: Durable, id: Id)
      requires OnlyReinstall(before, id) && SameOpen(before, after)
      ensures OnlyReinstall(after, id)
    {
    }

    /**
     A reinstall whose bootstrap failed dies in its restoration, after the
     marker went to quarantine; the retry writes the marker again.
     */
    method LeaveTwoMarkers(id: Id) returns (r: Result<Prepared, Error>)
      requires Good() && (forall k :: !Open(state.State(), k)) && id !in state.journals
      requires data.Some? && layout.Movable(data.value)
      modifies state, this`data, this`backups, this`origins
      ensures Good() && (!state.stumbled ==> r == Success(Cleared(id)))
      ensures r == Success(Cleared(id)) ==> OnlyReinstall(state.State(), id) && TwoMarkers(layout, data, Files(id))
    {
      hide Good, Guarded, Removable, OnlyReinstall;
      Unused(id);
      var prepared :- Prepare(id);
      if prepared != Cleared(id) {
        return Success(prepared);
      }
      var journal := state.journals[id];
      MarkerIsFresh(journal, false);
      MarkerMay(journal, Some(map[]), false, Some(layout.marker));
      var _ :- Touch(journal, Some(map[]), Files(id).(marker := Some(layout.marker)));
      MayMarkAgain(journal);
      label Marking:
      r := Prepare(id);
      assert Resumed@Marking(id, r);
    }

    /** A proven payload beside an emptied data root: removal can be completed. */
    lemma MayMarkAgain(journal: Journal)
      requires Good() && Mine(state.State(), journal) && journal.id !in warrants
      requires data == Some(map[]) && Files(journal.id).made && Files(journal.id).payload.Some?
      requires Files(journal.id).Manifest() == Files(journal.id).payload
      requires Files(journal.id).payload.value in Bound(journal.effects, layout.dataPath)
      ensures Removable(layout, data, Files(journal.id), Bound(journal.effects, layout.dataPath))
    {
      Stands(journal);
    }

    /**
     There was no data root.  A reinstall makes one and dies, its retry moves
     it into the backup, the bootstrap fails, and rolling back puts it there.
     */
    method RebuildAndRollBack(id: Id) returns (r: Result<ReinstallResult, Error>)
      requires Good() && (forall k :: !Open(state.State(), k)) && id !in state.journals
      requires data.None? && layout.acceptable(layout.FreshRoot())
      modifies state, this`data, this`backups, this`origins, this`closings, this`warrants
      ensures Good() && (!state.stumbled ==> r == Success(ReinstallResult(Some(id), RolledBack)))
      ensures r == Success(ReinstallResult(Some(id), RolledBack)) ==> data == Some(layout.FreshRoot())
    {
      hide Good, Guarded, OnlyReinstall;
      Unused(id);
      var first :- Prepare(id);
      if first != Cleared(id) {
        return Failure(ReleaseCommandError);
      }
      MayMoveFresh(state.journals[id]);
      label Again:
      var retried := Prepare(id);
      assert Resumed@Again(id, retried);
      var second :- retried;
      if second != Cleared(id) {
        return Failure(ReleaseCommandError);
      }
      RemovedRestores(state.journals[id]);
      r := Conclude(id, Report(false, None), None);
    }

    lemma MayMoveFresh(journal: Journal)
      requires Good() && Mine(state.State(), journal) && data == Some(layout.FreshRoot())
      requires !Files(journal.id).made && layout.acceptable(layout.FreshRoot())
      ensures Files(journal.id).payload.None?
      ensures Removable(layout, data, Files(journal.id), Bound(journal.effects, layout.dataPath))
    {
      Stands(journal);
    }

    method NewProcess(faults: nat -> Fault)
      requires Good()
      modifies state
      ensures Good() && state.State() == old(state.State())
    {
      state.Acquire(faults);
    }
  }

  /** One more run of an interrupted reinstall: its faults, and how its bootstrap ended. */
  datatype Attempted = Attempted(
    prepare: nat -> Fault, report: Report, conclude: nat -> Fault, leftover: Option<Tree>)
}
