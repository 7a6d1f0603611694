/**
 Exact removal of one owned release, `remove_release` of
 scripts/uninstall_driver.py: entry by entry through a quarantine name, then
 the two control files, then the root, restartable after a crash anywhere but
 one.

 A `File` node stands for a regular file or for a link with its target.
 */
module OwnedRemoval {
  import opened Wrappers
  import opened Faults
  import opened Files

  /** What the receipt and the ownership manifest bind, digests being injective. */
  datatype Claim = Claim(
    entries: Tree,
    files: seq<RelPath>,
    directories: seq<RelPath>,
    receiptName: string,
    receipt: string,
    manifestName: string,
    manifest: string,
    mark: string -> string)
  {
    function ReceiptPath(): RelPath {
      [receiptName]
    }

    function ManifestPath(): RelPath {
      [manifestName]
    }

    /** `.name.uninstall-transaction`, beside the path itself. */
    function Quarantine(p: RelPath): (q: RelPath)
      requires p != []
      ensures q != [] && |q| == |p| && Parent(q) == Parent(p)
    {
      Parent(p) + [mark(p[|p| - 1])]
    }

    /** Paths that are removed through a quarantine. */
    predicate Quarantinable(p: RelPath) {
      p in files || p == ReceiptPath() || p == ManifestPath()
    }

    /** The node is what the claim says belongs at this path. */
    predicate Agrees(p: RelPath, node: Node) {
      if p == ReceiptPath() then node.File? && node.bytes == receipt
      else if p == ManifestPath() then node.File? && node.bytes == manifest
      else p in entries && node == entries[p]
    }

    /** A name that removal keeps for itself. */
    ghost predicate IsQuarantine(q: RelPath) {
      exists p :: p != [] && (p in entries || Quarantinable(p)) && Quarantine(p) == q
    }

    /** Canonical order and unambiguous names. */
    ghost predicate Valid() {
      && (forall p :: p in files ==> p in entries && entries[p].File?)
      && (forall p :: p in directories ==> p in entries && entries[p].Directory?)
      && (forall p :: p in entries ==> p in files || p in directories)
      && (forall i, j :: 0 <= i < j < |directories| ==> |directories[j]| <= |directories[i]|)
      && receiptName != manifestName && ReceiptPath() !in entries && ManifestPath() !in entries
      && (forall m, n :: mark(m) == mark(n) ==> m == n)
      && (forall p :: p in entries || p == ReceiptPath() || p == ManifestPath() ==> !IsQuarantine(p))
    }

    /** What removal may take away: content that agrees, at its path or at its quarantine. */
    ghost predicate Removable(p: RelPath, node: Node) {
      || Agrees(p, node)
      || exists f :: f != [] && Quarantinable(f) && Quarantine(f) == p && Agrees(f, node)
    }
  }

  /** Whatever happened, only removable content went, and nothing foreign came. */
  ghost predicate Framed(claim: Claim, a: Option<Tree>, b: Option<Tree>) {
    && (a.None? ==> b.None?)
    && (a.Some? ==> forall p :: p in a.value && !claim.Removable(p, a.value[p]) ==>
          b.Some? && p in b.value && b.value[p] == a.value[p])
    && (b.Some? ==> forall p :: p in b.value ==>
          (a.Some? && p in a.value && b.value[p] == a.value[p]) || claim.Removable(p, b.value[p]))
  }

  lemma FramedIsTransitive(claim: Claim, a: Option<Tree>, b: Option<Tree>, c: Option<Tree>)
    requires Framed(claim, a, b) && Framed(claim, b, c)
    ensures Framed(claim, a, c)
  {
  }

  // ----- the frame in terms of what is on the disk -----

  predicate IsFileOf(node: Node, bytes: string) {
    node.File? && node.bytes == bytes
  }

  /** What the claim declares for this place, and nothing else. */
  predicate Belongs(claim: Claim, p: RelPath, node: Node) {
    || (p in claim.entries && node == claim.entries[p])
    || (p == [claim.receiptName] && IsFileOf(node, claim.receipt))
    || (p == [claim.manifestName] && IsFileOf(node, claim.manifest))
  }

  /** A quarantine name, beside the file that it stands for and with exactly that file's content. */
  ghost predicate SetAside(claim: Claim, q: RelPath, node: Node) {
    exists f {:trigger Belongs(claim, f, node)} ::
      && f != [] && (f in claim.files || f == [claim.receiptName] || f == [claim.manifestName])
      && q == f[..|f| - 1] + [claim.mark(f[|f| - 1])]
      && Belongs(claim, f, node)
  }

  /** The entries, the receipt and the ownership manifest, exactly as declared, and nothing besides. */
  predicate HoldsExactly(claim: Claim, t: Tree) {
    && t.Keys == claim.entries.Keys + {[claim.receiptName], [claim.manifestName]}
    && (forall p :: p in claim.entries ==> p in t && t[p] == claim.entries[p])
    && [claim.receiptName] in t && IsFileOf(t[[claim.receiptName]], claim.receipt)
    && [claim.manifestName] in t && IsFileOf(t[[claim.manifestName]], claim.manifest)
  }

  lemma AgreeingBelongs(claim: Claim, p: RelPath, node: Node)
    requires claim.Valid()
    ensures claim.Agrees(p, node) <==> Belongs(claim, p, node)
  {
    hide Claim.IsQuarantine, Claim.Quarantine;
  }

  lemma RemovableIsOwned(claim: Claim, p: RelPath, node: Node)
    requires claim.Valid() && claim.Removable(p, node)
    ensures Belongs(claim, p, node) || SetAside(claim, p, node)
  {
    AgreeingBelongs(claim, p, node);
    if !claim.Agrees(p, node) {
      var f :| f != [] && claim.Quarantinable(f) && claim.Quarantine(f) == p && claim.Agrees(f, node);
      AgreeingBelongs(claim, f, node);
      hide Claim.Valid, Claim.Agrees, Belongs;
      assert Belongs(claim, f, node);
    }
  }

  /** In a declared place nothing is set aside. */
  lemma DeclaredPlacesAreTheirOwn(claim: Claim, p: RelPath, node: Node)
    requires claim.Valid() && IsDeclared(claim, p)
    ensures !SetAside(claim, p, node)
  {
    hide Belongs, Claim.Valid;
    if SetAside(claim, p, node) {
      var f {:trigger Belongs(claim, f, node)} :|
        && f != [] && (f in claim.files || f == [claim.receiptName] || f == [claim.manifestName])
        && p == f[..|f| - 1] + [claim.mark(f[|f| - 1])]
        && Belongs(claim, f, node);
      NotAQuarantine(claim, p, f);
    }
  }

  /** The places that the claim speaks of. */
  predicate IsDeclared(claim: Claim, p: RelPath) {
    p in claim.entries || p == [claim.receiptName] || p == [claim.manifestName]
  }

  /** Some declared place holds something else. */
  ghost predicate HoldsAltered(claim: Claim, a: Option<Tree>) {
    a.Some? && exists p :: p in a.value && IsDeclared(claim, p) && !Belongs(claim, p, a.value[p])
  }

  /** What is in a declared place and does not belong there stays. */
  ghost predicate KeptAltered(claim: Claim, a: Option<Tree>, b: Option<Tree>) {
    a.Some? ==> forall p :: p in a.value && IsDeclared(claim, p) && !Belongs(claim, p, a.value[p]) ==>
      b.Some? && p in b.value && b.value[p] == a.value[p]
  }

  /** What differs from the one tree to the other is declared content, in its place or set aside. */
  ghost predicate TookOnlyDeclared(claim: Claim, a: Option<Tree>, b: Option<Tree>) {
    a.Some? ==> forall p :: p in a.value && !(b.Some? && p in b.value && b.value[p] == a.value[p]) ==>
      Belongs(claim, p, a.value[p]) || SetAside(claim, p, a.value[p])
  }

  lemma FramedMeans(claim: Claim, a: Option<Tree>, b: Option<Tree>)
    requires claim.Valid() && Framed(claim, a, b)
    ensures TookOnlyDeclared(claim, a, b) && TookOnlyDeclared(claim, b, a) && KeptAltered(claim, a, b)
  {
    hide Claim.Valid, Claim.Removable, Claim.Quarantine, SetAside, Belongs, IsDeclared;
    forall p, node | claim.Removable(p, node) ensures Belongs(claim, p, node) || SetAside(claim, p, node) {
      RemovableIsOwned(claim, p, node);
    }
    forall p, node | IsDeclared(claim, p) && !Belongs(claim, p, node) ensures !claim.Removable(p, node) {
      DeclaredPlacesAreTheirOwn(claim, p, node);
      if claim.Removable(p, node) {
        RemovableIsOwned(claim, p, node);
      }
    }
  }

  /** In the place of an entry only that entry belongs. */
  lemma AlteredEntries(claim: Claim, p: RelPath, node: Node)
    requires claim.Valid() && p in claim.entries && node != claim.entries[p]
    ensures IsDeclared(claim, p) && !Belongs(claim, p, node)
  {
    hide Claim.IsQuarantine, Claim.Quarantine;
  }

  lemma ExactlyIsUntouched(claim: Claim, t: Tree)
    requires claim.Valid() && HoldsExactly(claim, t)
    ensures Untouched(claim, Some(t))
  {
    hide Claim.Valid, Claim.Agrees;
    forall p | p in t ensures claim.Agrees(p, t[p]) {
      AgreeingBelongs(claim, p, t[p]);
    }
  }

  // ----- what an interrupted removal of an untouched release leaves -----

  predicate Gone(claim: Claim, t: Tree, p: RelPath)
    requires p != []
  {
    p !in t && (claim.Quarantinable(p) ==> claim.Quarantine(p) !in t)
  }

  /** Part of the release is left, every piece of it provable. */
  ghost predicate Residue(claim: Claim, release: Option<Tree>) {
    release.Some? ==>
      var t := release.value;
      && (forall p :: p in t ==> claim.Removable(p, t[p]))
      && (forall p :: p in t && p != [] && claim.Quarantinable(p) ==> claim.Quarantine(p) !in t)
      && (claim.ReceiptPath() !in t ==> forall p :: p in claim.entries && p != [] ==> Gone(claim, t, p))
      && (claim.ManifestPath() !in t ==>
            (forall p :: p in claim.entries && p != [] ==> Gone(claim, t, p)) && Gone(claim, t, claim.ReceiptPath()))
  }

  /** The one place a restart cannot leave: the manifest is quarantined, so nothing says what is owned. */
  predicate Stuck(claim: Claim, release: Option<Tree>) {
    release.Some? && claim.ManifestPath() !in release.value && release.value != map[]
  }

  /** A release as installed: its entries and its two control files. */
  ghost predicate Untouched(claim: Claim, release: Option<Tree>) {
    && release.Some?
    && release.value.Keys == claim.entries.Keys + {claim.ReceiptPath(), claim.ManifestPath()}
    && forall p :: p in release.value ==> claim.Agrees(p, release.value[p])
  }

  lemma UntouchedIsResidue(claim: Claim, release: Option<Tree>)
    requires claim.Valid() && Untouched(claim, release)
    ensures Residue(claim, release) && !Stuck(claim, release)
  {
    hide Claim.Quarantine;
    var t := release.value;
    forall p | p in t && p != [] && claim.Quarantinable(p) ensures claim.Quarantine(p) !in t {
      assert claim.IsQuarantine(claim.Quarantine(p));
    }
  }

  // ----- tree edits that keep every entry in a directory -----

  function Drop(t: Tree, p: RelPath): (r: Tree)
    requires p != [] && Children(t, p) == {}
    ensures forall x :: x in r <==> x in t && x != p
    ensures forall x :: x in r ==> r[x] == t[x]
  {
    var r := map x | x in t && x != p :: t[x];
    assert Rooted(r) by {
      forall x | x != [] && x in r ensures IsDirectory(r, Parent(x)) {
        assert IsDirectory(t, Parent(x));
        assert Parent(x) == p ==> x in Children(t, p);
      }
    }
    r
  }

  lemma FilesAreChildless(t: Tree, p: RelPath)
    requires p in t && t[p].File?
    ensures Children(t, p) == {}
  {
    forall x | x in t && x != [] ensures Parent(x) != p {
      assert IsDirectory(t, Parent(x));
    }
  }

  function Rename(t: Tree, p: RelPath, q: RelPath): (r: Tree)
    requires p in t && t[p].File? && q != [] && q !in t && Parent(q) == Parent(p)
    ensures forall x :: x in r <==> (x in t && x != p) || x == q
    ensures forall x :: x in r ==> r[x] == if x == q then t[p] else t[x]
  {
    FilesAreChildless(t, p);
    var dropped := Drop(t, p);
    var r := map x | x in dropped.Keys + {q} :: if x == q then t[p] else dropped[x];
    assert Rooted(r) by {
      assert IsDirectory(t, Parent(p));
      forall x | x != [] && x in r ensures IsDirectory(r, Parent(x)) {
        if x != q {
          assert IsDirectory(dropped, Parent(x));
        }
      }
    }
    r
  }

  // ----- pure steps of the argument -----

  lemma AgreeingMayGo(claim: Claim, p: RelPath, node: Node)
    requires claim.Agrees(p, node)
    ensures claim.Removable(p, node)
  {
  }

  lemma DroppingFrames(claim: Claim, t: Tree, p: RelPath)
    requires p in t && p != [] && Children(t, p) == {} && claim.Removable(p, t[p])
    ensures Framed(claim, Some(t), Some(Drop(t, p)))
  {
    hide Claim.Removable, Rooted, Drop;
  }

  lemma RenamingFrames(claim: Claim, t: Tree, p: RelPath, q: RelPath)
    requires p in t && t[p].File? && q != [] && q !in t && Parent(q) == Parent(p)
    requires claim.Removable(p, t[p]) && claim.Removable(q, t[p])
    ensures Framed(claim, Some(t), Some(Rename(t, p, q)))
  {
    hide Claim.Removable, Rooted, Rename;
  }

  lemma Reflexive(claim: Claim, a: Option<Tree>)
    ensures Framed(claim, a, a)
  {
  }

  lemma NonEmpty(t: Tree, p: RelPath)
    requires p in t
    ensures p != []
  {
  }

  lemma QuarantineMarksTheName(claim: Claim, p: RelPath)
    requires p != []
    ensures claim.Quarantine(p)[|p| - 1] == claim.mark(p[|p| - 1])
  {
  }

  lemma MarksDiffer(claim: Claim, m: string, n: string)
    requires claim.Valid() && claim.mark(m) == claim.mark(n)
    ensures m == n
  {
    hide Claim.IsQuarantine, Claim.Quarantine;
  }

  lemma SameParentAndName(p: RelPath, f: RelPath)
    requires p != [] && f != [] && Parent(p) == Parent(f) && p[|p| - 1] == f[|f| - 1]
    ensures p == f
  {
    assert p == Parent(p) + [p[|p| - 1]] && f == Parent(f) + [f[|f| - 1]];
  }

  lemma QuarantineIsInjective(claim: Claim, p: RelPath, f: RelPath)
    requires claim.Valid() && p != [] && f != [] && claim.Quarantine(p) == claim.Quarantine(f)
    ensures p == f
  {
    hide Claim.Valid, Claim.Quarantine, Claim.IsQuarantine;
    QuarantineMarksTheName(claim, p);
    QuarantineMarksTheName(claim, f);
    MarksDiffer(claim, p[|p| - 1], f[|f| - 1]);
    SameParentAndName(p, f);
  }

  /** An owned file's two names are none of the control files' names. */
  lemma Distinctness(claim: Claim, p: RelPath)
    requires claim.Valid() && p != [] && p in claim.files
    ensures p != claim.ReceiptPath() && p != claim.ManifestPath()
    ensures claim.Quarantine(p) != claim.ReceiptPath() && claim.Quarantine(p) != claim.ManifestPath()
    ensures p != claim.Quarantine(claim.ReceiptPath()) && p != claim.Quarantine(claim.ManifestPath())
    ensures claim.Quarantine(p) != claim.Quarantine(claim.ReceiptPath())
    ensures claim.Quarantine(p) != claim.Quarantine(claim.ManifestPath())
  {
    hide Claim.Quarantine;
    assert claim.IsQuarantine(claim.Quarantine(p));
    assert claim.IsQuarantine(claim.Quarantine(claim.ReceiptPath()));
    assert claim.IsQuarantine(claim.Quarantine(claim.ManifestPath()));
    if claim.Quarantine(p) == claim.Quarantine(claim.ReceiptPath()) {
      QuarantineIsInjective(claim, p, claim.ReceiptPath());
    }
    if claim.Quarantine(p) == claim.Quarantine(claim.ManifestPath()) {
      QuarantineIsInjective(claim, p, claim.ManifestPath());
    }
  }

  /** Among provable residue, an owned path holds what the claim says. */
  lemma ResidueAgrees(claim: Claim, t: Tree, p: RelPath)
    requires claim.Valid() && Residue(claim, Some(t)) && p in t
    requires p in claim.entries || p == claim.ReceiptPath() || p == claim.ManifestPath()
    ensures claim.Agrees(p, t[p])
  {
    hide Claim.Quarantine;
    assert !claim.IsQuarantine(p);
  }

  lemma ResidueErasable(claim: Claim, t: Tree, p: RelPath)
    requires claim.Valid() && Residue(claim, Some(t)) && p != [] && claim.Quarantinable(p)
    ensures Erasable(claim, t, p)
  {
    hide Claim.Quarantine;
    var q := claim.Quarantine(p);
    if p in t {
      ResidueAgrees(claim, t, p);
    } else if q in t {
      assert claim.IsQuarantine(q);
      assert claim.Removable(q, t[q]) && !claim.Agrees(q, t[q]);
      var f :| f != [] && claim.Quarantinable(f) && claim.Quarantine(f) == q && claim.Agrees(f, t[q]);
      QuarantineIsInjective(claim, p, f);
    }
  }

  /** Removing one owned file while both control files are in place. */
  lemma EntryKeepsResidue(claim: Claim, before: Tree, after: Tree, p: RelPath)
    requires claim.Valid() && Residue(claim, Some(before)) && p != [] && p in claim.files
    requires claim.ManifestPath() in before
    requires Framed(claim, Some(before), Some(after))
    requires forall x :: x != p && x != claim.Quarantine(p) ==> (x in after <==> x in before)
    requires p in after && claim.Quarantine(p) in after ==> p in before && claim.Quarantine(p) in before
    requires p in after || claim.Quarantine(p) in after ==> p in before || claim.Quarantine(p) in before
    ensures Residue(claim, Some(after))
  {
    hide Claim.Quarantine;
    Distinctness(claim, p);
    forall x | x in after && x != [] && claim.Quarantinable(x) ensures claim.Quarantine(x) !in after {
      if x != p {
        assert x == claim.Quarantine(p) ==> claim.IsQuarantine(x);
        if claim.Quarantine(x) == claim.Quarantine(p) {
          QuarantineIsInjective(claim, x, p);
        }
        assert claim.IsQuarantine(claim.Quarantine(x));
      }
    }
  }

  lemma LessKeepsResidue(claim: Claim, before: Tree, after: Tree)
    requires Residue(claim, Some(before))
    requires claim.ManifestPath() in after && (claim.ReceiptPath() in before ==> claim.ReceiptPath() in after)
    requires forall x :: x in after ==> x in before && after[x] == before[x]
    ensures Residue(claim, Some(after))
  {
  }

  /** Deepest first: when its turn comes, an owned directory is empty. */
  lemma EmptyByNow(claim: Claim, t: Tree, i: nat)
    requires claim.Valid() && Residue(claim, Some(t)) && i < |claim.directories|
    requires forall p :: p in claim.files ==> p != [] && Gone(claim, t, p)
    requires forall k :: 0 <= k < i ==> claim.directories[k] !in t
    requires claim.directories[i] != []
    ensures Emptied(claim, t, claim.directories[i])
  {
    hide Claim.Quarantine;
    var d := claim.directories[i];
    assert d in claim.directories;
    if d in t {
      ResidueAgrees(claim, t, d);
      forall c | c in t && c != [] ensures Parent(c) != d {
        if |c| > 1 {
          Shallow(claim, t, i, c);
        }
      }
    } else {
      NoDirectoryQuarantine(claim, t, d);
    }
  }

  /** What is left once all owned files are gone: owned directories, and things directly in the root. */
  lemma Outlives(claim: Claim, t: Tree, c: RelPath)
    requires claim.Valid() && Residue(claim, Some(t)) && c in t && |c| > 1
    requires forall p :: p in claim.files ==> p != [] && Gone(claim, t, p)
    ensures c in claim.directories
  {
    hide Claim.Quarantine;
    forall f | f != [] && claim.Quarantinable(f) ensures claim.Quarantine(f) != c {
      assert f in claim.files ==> Gone(claim, t, f);
    }
    assert claim.Removable(c, t[c]);
    forall f | f in claim.files ensures f != c {
      assert Gone(claim, t, f);
    }
  }

  lemma Shallow(claim: Claim, t: Tree, i: nat, c: RelPath)
    requires claim.Valid() && Residue(claim, Some(t)) && c in t && |c| > 1 && i < |claim.directories|
    requires forall p :: p in claim.files ==> p != [] && Gone(claim, t, p)
    requires forall k :: 0 <= k < i ==> claim.directories[k] !in t
    ensures |c| <= |claim.directories[i]|
  {
    hide Claim.Quarantine, Claim.IsQuarantine, Residue;
    Outlives(claim, t, c);
    var k :| 0 <= k < |claim.directories| && claim.directories[k] == c;
    assert k >= i;
  }

  /** No owned or control path is a quarantine name. */
  lemma NotAQuarantine(claim: Claim, p: RelPath, f: RelPath)
    requires claim.Valid() && f != [] && claim.Quarantinable(f)
    requires p in claim.entries || p == claim.ReceiptPath() || p == claim.ManifestPath()
    ensures p != claim.Quarantine(f)
  {
    hide Claim.Quarantine;
    assert claim.IsQuarantine(claim.Quarantine(f));
  }

  lemma DirectoryIsOwned(claim: Claim, d: RelPath)
    requires claim.Valid() && d in claim.directories
    ensures d in claim.entries && d != claim.ReceiptPath() && d != claim.ManifestPath()
  {
    hide Claim.Quarantine;
  }

  lemma DirectoryIsNoControl(claim: Claim, d: RelPath)
    requires claim.Valid() && d in claim.directories
    ensures d in claim.entries && d != claim.ReceiptPath() && d != claim.ManifestPath()
    ensures d != claim.Quarantine(claim.ReceiptPath()) && d != claim.Quarantine(claim.ManifestPath())
  {
    hide Claim.Valid, Claim.Quarantine;
    DirectoryIsOwned(claim, d);
    NotAQuarantine(claim, d, claim.ReceiptPath());
    NotAQuarantine(claim, d, claim.ManifestPath());
  }

  lemma NoDirectoryQuarantine(claim: Claim, t: Tree, d: RelPath)
    requires claim.Valid() && Residue(claim, Some(t)) && d != [] && d in claim.directories
    ensures claim.Quarantine(d) !in t
  {
    hide Claim.Quarantine;
    var q := claim.Quarantine(d);
    assert claim.IsQuarantine(q);
    forall f | f != [] && claim.Quarantinable(f) ensures claim.Quarantine(f) != q {
      if claim.Quarantine(f) == q {
        QuarantineIsInjective(claim, d, f);
      }
    }
    assert forall node :: !claim.Removable(q, node);
  }

  class OwnedRelease {
    const claim: Claim
    var release: Option<Tree>
    var down: bool
    var clock: nat
    var fates: nat -> Fate

    ghost predicate Calm()
      reads this
    {
      !down && forall n :: n >= clock ==> fates(n) == Works
    }

    /** All steps work up to the unlink of the quarantined manifest, and the process dies before that takes effect. */
    ghost predicate DiesAtTheManifest()
      reads this
    {
      var n := 2 * |claim.files| + |claim.directories| + 3;
      && AllIn(claim.files, claim.entries) && AllIn(claim.directories, claim.entries)
      && Lives(n) && fates(clock + n) == Dies(false)
    }

    /** The next `n` steps work. */
    ghost predicate Lives(n: nat)
      reads this
    {
      !down && forall k :: clock <= k < clock + n ==> fates(k) == Works
    }

    /** Of the next two steps the first works, and the process dies before the second takes effect. */
    ghost predicate DiesAtTheSecond()
      reads this
    {
      Lives(1) && fates(clock + 1) == Dies(false)
    }

    constructor (claim: Claim, release: Option<Tree>, fates: nat -> Fate)
      ensures this.claim == claim && this.release == release && this.fates == fates && !down && clock == 0
    {
      this.claim, this.release, this.fates := claim, release, fates;
      down, clock := false, 0;
    }

    /** One durable step. */
    method Change(next: Option<Tree>) returns (step: Step)
      modifies this
      ensures release == old(release) || release == next
      ensures step == Done ==> release == next
      ensures old(Calm()) ==> Calm() && step == Done
      ensures fates == old(fates)
      ensures old(Lives(1)) ==> step == Done && !down && clock == old(clock) + 1
      ensures !old(down) && old(fates(clock)) == Dies(false) ==> down && step == Died && release == old(release)
      ensures old(down) ==> down && release == old(release) && step == Died
      ensures step == Died ==> down
    {
      if down {
        return Died;
      }
      var fate := fates(clock);
      clock := clock + 1;
      match fate {
        case Works =>
          release := next;
          return Done;
        case Fails(applied) =>
          release := if applied then next else release;
          return Failed;
        case Dies(applied) =>
          release := if applied then next else release;
          down := true;
          return Died;
      }
    }

    // ----- one file -----

    /** `_remove_exact_file` and the non-directory half of `_remove_exact_entry`: isolate, verify, unlink. */
    method RemoveFile(p: RelPath) returns (ok: bool)
      requires claim.Valid() && p != [] && claim.Quarantinable(p) && release.Some?
      modifies this
      ensures release.Some? && Framed(claim, old(release), release)
      ensures ok ==> Gone(claim, release.value, p)
      ensures forall x :: x != p && x != claim.Quarantine(p) ==>
        (x in release.value <==> x in old(release).value) &&
        (x in release.value ==> release.value[x] == old(release).value[x])
      ensures p in release.value && claim.Quarantine(p) in release.value ==>
        p in old(release).value && claim.Quarantine(p) in old(release).value
      ensures p in release.value || claim.Quarantine(p) in release.value ==>
        p in old(release).value || claim.Quarantine(p) in old(release).value
      ensures old(Calm()) ==> Calm() && (ok <==> Erasable(claim, old(release).value, p))
      // Content that is not the declared one, at the path or left in its quarantine, stays.
      ensures p in claim.entries && p in old(release).value && old(release).value[p] != claim.entries[p] ==>
        !ok && release == old(release)
      ensures
        p in claim.entries && p !in old(release).value && claim.Quarantine(p) in old(release).value &&
        old(release).value[claim.Quarantine(p)] != claim.entries[p] ==>
          !ok && release == old(release)
      ensures fates == old(fates)
      ensures old(Lives(2)) && p in old(release).value && Erasable(claim, old(release).value, p) ==>
        ok && !down && clock == old(clock) + 2
      ensures old(DiesAtTheSecond()) && p in old(release).value && Erasable(claim, old(release).value, p) ==>
        && down && !ok && p !in release.value && claim.Quarantine(p) in release.value
        && release.value[claim.Quarantine(p)] == old(release).value[p]
      ensures old(down) ==> down && release == old(release)
    {
      hide Claim.Valid, Claim.Quarantine, Claim.Quarantinable, Claim.Agrees, Claim.Removable, Framed, Rooted, Drop, Rename;
      var q := claim.Quarantine(p);
      OnlyTheDeclaredAgrees(p);
      Reflexive(claim, release);
      if p !in release.value {
        if q !in release.value {
          return true;
        }
        if !claim.Agrees(p, release.value[q]) {
          return false;
        }
        AgreeingIsFile(p, release.value[q]);
        FilesAreChildless(release.value, q);
        DroppingFrames(claim, release.value, q);
        var step := Change(Some(Drop(release.value, q)));
        return step == Done;
      }
      if !claim.Agrees(p, release.value[p]) || q in release.value {
        return false;
      }
      ok := IsolateAndUnlink(p);
    }

    /** The file goes to its quarantine and is unlinked there; after a failure it is put back. */
    method IsolateAndUnlink(p: RelPath) returns (ok: bool)
      requires claim.Valid() && p != [] && claim.Quarantinable(p) && release.Some?
      requires p in release.value && claim.Agrees(p, release.value[p]) && claim.Quarantine(p) !in release.value
      modifies this
      ensures release.Some? && Framed(claim, old(release), release)
      ensures Moving(old(release).value, release.value, p)
      ensures ok ==> p !in release.value && claim.Quarantine(p) !in release.value
      ensures old(Calm()) ==> Calm() && ok
      ensures fates == old(fates)
      ensures old(Lives(2)) ==> ok && !down && clock == old(clock) + 2
      ensures old(DiesAtTheSecond()) ==>
        && down && !ok && p !in release.value && claim.Quarantine(p) in release.value
        && release.value[claim.Quarantine(p)] == old(release).value[p]
      ensures old(down) ==> down && release == old(release)
    {
      hide Claim.Valid, Claim.Quarantine, Claim.Quarantinable, Claim.Agrees, Claim.Removable, Framed, Rooted, Drop, Rename;
      var q := claim.Quarantine(p);
      AgreeingIsFile(p, release.value[p]);
      ghost var before := release;
      Reflexive(claim, release);
      RenamingFrames(claim, release.value, p, q);
      var isolated := Change(Some(Rename(release.value, p, q)));
      if isolated != Done {
        PutBack(p, before);
        return false;
      }
      FilesAreChildless(release.value, q);
      DroppingFrames(claim, release.value, q);
      FramedIsTransitive(claim, before, release, Some(Drop(release.value, q)));
      var unlinked := Change(Some(Drop(release.value, q)));
      if unlinked != Done {
        PutBack(p, before);
        return false;
      }
      return true;
    }

    lemma OnlyTheDeclaredAgrees(p: RelPath)
      requires claim.Valid()
      ensures p in claim.entries ==> forall node :: claim.Agrees(p, node) ==> node == claim.entries[p]
    {
      hide Claim.Quarantine, Claim.IsQuarantine;
    }

    lemma AgreeingIsFile(p: RelPath, node: Node)
      requires claim.Valid() && p != [] && claim.Quarantinable(p) && claim.Agrees(p, node)
      ensures node.File?
      ensures claim.Removable(p, node) && claim.Removable(claim.Quarantine(p), node)
    {
      hide Claim.Quarantine;
    }

    /** After a failed step: the quarantined entry goes back to its path. */
    method PutBack(p: RelPath, ghost before: Option<Tree>)
      requires claim.Valid() && p != [] && claim.Quarantinable(p) && release.Some? && before.Some?
      requires p in before.value && claim.Quarantine(p) !in before.value && claim.Agrees(p, before.value[p])
      requires Framed(claim, before, release) && Moving(before.value, release.value, p)
      modifies this
      ensures release.Some? && Framed(claim, before, release) && Moving(before.value, release.value, p)
      ensures fates == old(fates)
      ensures old(down) ==> down && release == old(release)
    {
      hide Claim.Valid, Claim.Quarantine, Claim.Quarantinable, Claim.Agrees, Claim.Removable, Framed, Rooted, Rename;
      var q := claim.Quarantine(p);
      if q in release.value && p !in release.value {
        AgreeingIsFile(p, before.value[p]);
        RenamingFrames(claim, release.value, q, p);
        FramedIsTransitive(claim, before, release, Some(Rename(release.value, q, p)));
        var _ := Change(Some(Rename(release.value, q, p)));
      }
    }

    /** One agreeing file is at its path, at its quarantine, or gone; everything else is as it was. */
    ghost predicate Moving(before: Tree, after: Tree, p: RelPath)
      requires p != []
      reads this
    {
      var q := claim.Quarantine(p);
      && (forall x :: x != p && x != q ==>
            (x in after <==> x in before) && (x in after ==> after[x] == before[x]))
      && !(p in after && q in after)
      && (p in after && p in before ==> after[p] == before[p])
      && (q in after && p in before ==> after[q] == before[p])
    }

    // ----- one directory -----

    method RemoveDirectory(d: RelPath) returns (ok: bool)
      requires claim.Valid() && d != [] && d in claim.directories && release.Some?
      modifies this
      ensures release.Some? && Framed(claim, old(release), release)
      ensures ok ==> d !in release.value
      ensures forall x :: x in release.value ==> x in old(release).value && release.value[x] == old(release).value[x]
      ensures forall x :: x in old(release).value && x != d ==> x in release.value
      ensures old(Calm()) ==> Calm() && (ok <==> Emptied(claim, old(release).value, d))
      ensures fates == old(fates)
      ensures old(Lives(1)) && d in old(release).value && Emptied(claim, old(release).value, d) ==>
        ok && !down && clock == old(clock) + 1
      ensures old(down) ==> down && release == old(release)
    {
      hide Claim.Valid, Claim.Quarantine, Claim.Quarantinable, Claim.Removable, Framed, Rooted, Drop;
      Reflexive(claim, release);
      if d !in release.value {
        return claim.Quarantine(d) !in release.value;
      }
      if !claim.Agrees(d, release.value[d]) || Children(release.value, d) != {} {
        return false;
      }
      AgreeingMayGo(claim, d, release.value[d]);
      DroppingFrames(claim, release.value, d);
      var step := Change(Some(Drop(release.value, d)));
      return step == Done;
    }

    // ----- the whole release -----

    /** These paths, all different, are in the tree. */
    predicate AllIn(paths: seq<RelPath>, t: Tree) {
      && (forall i :: 0 <= i < |paths| ==> paths[i] in t)
      && forall i, j :: 0 <= i < j < |paths| ==> paths[i] != paths[j]
    }

    /** The state while entries are being removed: framed, and provable if it was before. */
    ghost predicate Ahead(start: Option<Tree>)
      reads this
    {
      && start.Some? && release.Some?
      && Framed(claim, start, release)
      && (Residue(claim, start) ==> Residue(claim, release))
      && SameAt(start.value, release.value, claim.ReceiptPath())
      && SameAt(start.value, release.value, claim.Quarantine(claim.ReceiptPath()))
      && SameAt(start.value, release.value, claim.ManifestPath())
      && SameAt(start.value, release.value, claim.Quarantine(claim.ManifestPath()))
    }

    predicate SameAt(a: Tree, b: Tree, p: RelPath) {
      (p in a <==> p in b) && (p in a ==> a[p] == b[p])
    }

    method EraseEntry(p: RelPath, ghost start: Option<Tree>) returns (ok: bool)
      requires claim.Valid() && p != [] && p in claim.files && Ahead(start)
      requires claim.ManifestPath() in release.value
      modifies this
      ensures Ahead(start)
      ensures ok ==> Gone(claim, release.value, p)
      ensures forall x :: x != [] && x in claim.entries && Gone(claim, old(release).value, x) ==>
        Gone(claim, release.value, x)
      ensures old(Calm()) ==> Calm()
      ensures old(Calm()) && Residue(claim, start) ==> ok
      ensures fates == old(fates)
      ensures old(Lives(2)) && Residue(claim, start) && p in old(release).value ==> ok && !down && clock == old(clock) + 2
      ensures forall x :: x in claim.entries && x != p && x in old(release).value ==> x in release.value
      ensures old(down) ==> down
    {
      hide Framed, Residue, Claim.Quarantine;
      ghost var before := release;
      Distinctness(claim, p);
      if Residue(claim, start) {
        ResidueErasable(claim, release.value, p);
      }
      ok := RemoveFile(p);
      FramedIsTransitive(claim, start, before, release);
      if Residue(claim, start) {
        EntryKeepsResidue(claim, before.value, release.value, p);
      }
      OthersStayGone(before.value, release.value, p);
    }

    lemma OthersStayGone(before: Tree, after: Tree, p: RelPath)
      requires claim.Valid() && p != [] && p in claim.files
      requires forall x :: x != p && x != claim.Quarantine(p) ==> (x in after <==> x in before)
      requires p in after || claim.Quarantine(p) in after ==> p in before || claim.Quarantine(p) in before
      ensures forall x :: x != [] && x in claim.entries && Gone(claim, before, x) ==> Gone(claim, after, x)
    {
      hide Claim.Quarantine;
      forall x | x != [] && x in claim.entries && Gone(claim, before, x) ensures Gone(claim, after, x) {
        assert claim.IsQuarantine(claim.Quarantine(p)) && claim.IsQuarantine(claim.Quarantine(x));
        if claim.Quarantine(x) == claim.Quarantine(p) {
          QuarantineIsInjective(claim, x, p);
        }
      }
    }

    method EraseDirectory(d: RelPath, i: nat, retained: bool, ghost start: Option<Tree>) returns (ok: bool)
      requires claim.Valid() && i < |claim.directories| && d == claim.directories[i] && d != [] && Ahead(start)
      requires claim.ManifestPath() in release.value
      requires !retained ==> forall p :: p in claim.files ==> p != [] && Gone(claim, release.value, p)
      requires !retained ==> forall k :: 0 <= k < i ==> claim.directories[k] !in release.value
      modifies this
      ensures Ahead(start)
      ensures ok ==> d !in release.value
      ensures forall x :: x in release.value ==> x in old(release).value
      ensures old(Calm()) && Residue(claim, start) && !retained ==> Calm() && ok
      ensures old(Calm()) ==> Calm()
      ensures fates == old(fates)
      ensures old(Lives(1)) && Residue(claim, start) && !retained && d in old(release).value ==>
        ok && !down && clock == old(clock) + 1
      ensures forall x :: x != d && x in old(release).value ==> x in release.value
      ensures old(down) ==> down
    {
      hide Framed, Residue, Emptied, Claim.Quarantine;
      ghost var before := release;
      if Residue(claim, start) && !retained {
        EmptyByNow(claim, release.value, i);
      }
      DirectoryIsNoControl(claim, d);
      ok := RemoveDirectory(d);
      hide Claim.Valid;
      FramedIsTransitive(claim, start, before, release);
      if Residue(claim, start) {
        LessKeepsResidue(claim, before.value, release.value);
      }
    }

    lemma AllGone(start: Option<Tree>)
      requires claim.Valid() && release.Some?
      requires forall p :: p in claim.files ==> p != [] && Gone(claim, release.value, p)
      requires forall k :: 0 <= k < |claim.directories| ==>
        claim.directories[k] != [] && claim.directories[k] !in release.value
      ensures forall p :: p in claim.entries ==> p != [] && Gone(claim, release.value, p)
    {
      hide Claim.Quarantine;
      forall p | p in claim.entries ensures p != [] && Gone(claim, release.value, p) {
        if p in claim.directories {
          assert !claim.Quarantinable(p);
        }
      }
    }

    ghost predicate FilesGone()
      reads this
      requires release.Some?
    {
      forall p :: p in claim.files ==> p != [] && Gone(claim, release.value, p)
    }

    method EraseFiles(ghost start: Option<Tree>) returns (retained: bool)
      requires claim.Valid() && Ahead(start) && claim.ManifestPath() in release.value
      modifies this
      ensures Ahead(start) && claim.ManifestPath() in release.value
      ensures !retained ==> FilesGone()
      ensures old(Calm()) ==> Calm()
      ensures old(Calm()) && Residue(claim, start) ==> !retained
      ensures fates == old(fates)
      ensures old(Lives(2 * |claim.files|)) && Residue(claim, start) && AllIn(claim.files, old(release).value) ==>
        !retained && !down && clock == old(clock) + 2 * |claim.files|
      ensures AllIn(claim.directories, old(release).value) ==> AllIn(claim.directories, release.value)
      ensures old(down) ==> down
    {
      hide Framed, Residue, Claim.Valid, Claim.Quarantine;
      retained := false;
      for i := 0 to |claim.files|
        invariant Ahead(start) && claim.ManifestPath() in release.value
        invariant !retained ==> forall k :: 0 <= k < i ==>
          claim.files[k] != [] && Gone(claim, release.value, claim.files[k])
        invariant old(Calm()) ==> Calm()
        invariant old(Calm()) && Residue(claim, start) ==> !retained
        invariant old(down) ==> down
        invariant fates == old(fates)
        invariant AllIn(claim.directories, old(release).value) ==> AllIn(claim.directories, release.value)
        invariant AllIn(claim.files, old(release).value) ==> AllIn(claim.files[i..], release.value)
        invariant
          old(Lives(2 * |claim.files|)) && Residue(claim, start) && AllIn(claim.files, old(release).value) ==>
            !retained && !down && clock == old(clock) + 2 * i
      {
        var p := claim.files[i];
        Declared(p);
        assert claim.files[i..][0] == p;
        ghost var before := release.value;
        var ok := EraseEntry(p, start);
        retained := retained || !ok;
        OthersStayIn(i, before, release.value);
        forall k | 0 <= k < i ensures claim.files[k] != [] && claim.files[k] in claim.entries {
          Declared(claim.files[k]);
        }
      }
    }

    lemma Declared(p: RelPath)
      requires claim.Valid() && (p in claim.files || p in claim.directories)
      ensures p in claim.entries && p != []
    {
      hide Claim.Quarantine;
      NonEmpty(claim.entries, p);
    }

    /** A file is no directory of the claim. */
    lemma Apart(i: nat)
      requires claim.Valid() && i < |claim.files|
      ensures claim.files[i] !in claim.directories
    {
      hide Claim.Quarantine, Claim.IsQuarantine;
      assert claim.files[i] in claim.files;
    }

    lemma OthersStayIn(i: nat, before: Tree, after: Tree)
      requires claim.Valid() && i < |claim.files|
      requires forall x :: x in claim.entries && x != claim.files[i] && x in before ==> x in after
      ensures AllIn(claim.directories, before) ==> AllIn(claim.directories, after)
      ensures AllIn(claim.files[i..], before) ==>
        claim.files[i] in before && AllIn(claim.files[i + 1..], after)
    {
      Apart(i);
      forall p | p in claim.files || p in claim.directories ensures p in claim.entries {
        Declared(p);
      }
      hide Claim.Valid;
      if AllIn(claim.files[i..], before) {
        var here, rest := claim.files[i..], claim.files[i + 1..];
        assert here[0] == claim.files[i] && here[1..] == rest;
        forall k | 0 <= k < |rest| ensures rest[k] in after {
          assert here[k + 1] == rest[k] && rest[k] in claim.files;
        }
        forall k, l | 0 <= k < l < |rest| ensures rest[k] != rest[l] {
          assert here[k + 1] != here[l + 1];
        }
      }
    }

    method EraseDirectories(before: bool, ghost start: Option<Tree>) returns (retained: bool)
      requires claim.Valid() && Ahead(start) && claim.ManifestPath() in release.value
      requires !before ==> FilesGone()
      modifies this
      ensures Ahead(start) && claim.ManifestPath() in release.value
      ensures before ==> retained
      ensures !retained ==> forall p :: p in claim.entries ==> p != [] && Gone(claim, release.value, p)
      ensures old(Calm()) && Residue(claim, start) && !before ==> Calm() && !retained
      ensures old(Calm()) ==> Calm()
      ensures fates == old(fates)
      ensures
        old(Lives(|claim.directories|)) && Residue(claim, start) && !before &&
        AllIn(claim.directories, old(release).value) ==>
          !retained && !down && clock == old(clock) + |claim.directories|
      ensures old(down) ==> down
    {
      hide Framed, Residue, Claim.Valid, Claim.Quarantine;
      retained := before;
      for i := 0 to |claim.directories|
        invariant Ahead(start) && claim.ManifestPath() in release.value
        invariant before ==> retained
        invariant !retained ==> FilesGone()
        invariant !retained ==> forall k :: 0 <= k < i ==>
          claim.directories[k] != [] && claim.directories[k] !in release.value
        invariant old(Calm()) ==> Calm()
        invariant old(Calm()) && Residue(claim, start) && !before ==> !retained
        invariant old(down) ==> down
        invariant fates == old(fates)
        invariant AllIn(claim.directories, old(release).value) ==> AllIn(claim.directories[i..], release.value)
        invariant
          old(Lives(|claim.directories|)) && Residue(claim, start) && !before &&
          AllIn(claim.directories, old(release).value) ==>
            !retained && !down && clock == old(clock) + i
      {
        assert claim.directories[i..][0] == claim.directories[i];
        assert claim.directories[i..][1..] == claim.directories[i + 1..];
        var d := claim.directories[i];
        Declared(d);
        var ok := EraseDirectory(d, i, retained, start);
        retained := retained || !ok;
      }
      if !retained {
        AllGone(start);
      }
    }

    // ----- the control files, the root, and the whole -----

    /** A control file goes only when what it vouches for is gone. */
    method EraseControl(p: RelPath) returns (ok: bool)
      requires claim.Valid() && p in [claim.ReceiptPath(), claim.ManifestPath()] && release.Some?
      requires forall x :: x in claim.entries ==> x != [] && Gone(claim, release.value, x)
      requires p == claim.ManifestPath() ==> Gone(claim, release.value, claim.ReceiptPath())
      requires p == claim.ReceiptPath() ==> claim.ManifestPath() in release.value
      modifies this
      ensures release.Some? && Framed(claim, old(release), release)
      ensures Residue(claim, old(release)) ==> Residue(claim, release)
      ensures ok ==> Gone(claim, release.value, p)
      ensures forall x :: x in claim.entries ==> x != [] && Gone(claim, release.value, x)
      ensures p == claim.ReceiptPath() ==> claim.ManifestPath() in release.value
      ensures p == claim.ManifestPath() ==> Gone(claim, release.value, claim.ReceiptPath())
      ensures forall x :: x != p && x != claim.Quarantine(p) && x in release.value ==>
        x in old(release).value && release.value[x] == old(release).value[x]
      ensures old(Calm()) ==> Calm()
      ensures old(Calm()) && Residue(claim, old(release)) ==> ok
      ensures fates == old(fates)
      ensures old(Lives(2)) && Residue(claim, old(release)) && p in old(release).value ==>
        ok && !down && clock == old(clock) + 2
      ensures old(DiesAtTheSecond()) && Residue(claim, old(release)) && p in old(release).value ==>
        && down && !ok && p !in release.value && claim.Quarantine(p) in release.value
        && release.value[claim.Quarantine(p)] == old(release).value[p]
      ensures old(down) ==> down
    {
      hide Framed, Residue, Claim.Valid, Claim.IsQuarantine, Claim.Agrees, Claim.Quarantine, Claim.Removable;
      ghost var before := release.value;
      if Residue(claim, release) {
        ResidueErasable(claim, release.value, p);
      }
      ok := RemoveFile(p);
      ControlNames();
      EntriesStayGone(before, release.value, p);
      if Residue(claim, Some(before)) {
        ControlKeepsResidue(claim, before, release.value, p);
      }
    }

    lemma ControlNames()
      requires claim.Valid()
      ensures claim.ReceiptPath() != claim.ManifestPath()
      ensures claim.Quarantine(claim.ReceiptPath()) != claim.ManifestPath()
      ensures claim.Quarantine(claim.ManifestPath()) != claim.ReceiptPath()
      ensures claim.Quarantine(claim.ManifestPath()) != claim.Quarantine(claim.ReceiptPath())
    {
      hide Claim.Quarantine;
      assert claim.IsQuarantine(claim.Quarantine(claim.ReceiptPath()));
      assert claim.IsQuarantine(claim.Quarantine(claim.ManifestPath()));
      if claim.Quarantine(claim.ManifestPath()) == claim.Quarantine(claim.ReceiptPath()) {
        QuarantineIsInjective(claim, claim.ManifestPath(), claim.ReceiptPath());
      }
    }

    lemma EntriesStayGone(before: Tree, after: Tree, p: RelPath)
      requires claim.Valid() && p in [claim.ReceiptPath(), claim.ManifestPath()]
      requires forall x :: x != p && x != claim.Quarantine(p) ==> (x in after <==> x in before)
      requires forall x :: x in claim.entries ==> x != [] && Gone(claim, before, x)
      ensures forall x :: x in claim.entries ==> x != [] && Gone(claim, after, x)
    {
      hide Claim.Quarantine;
      forall x | x in claim.entries ensures Gone(claim, after, x) {
        assert Gone(claim, before, x);
        assert claim.IsQuarantine(claim.Quarantine(p)) && claim.IsQuarantine(claim.Quarantine(x));
        if claim.Quarantine(x) == claim.Quarantine(p) {
          QuarantineIsInjective(claim, x, p);
        }
      }
    }

    /** `rmdir` of the release root. */
    method RemoveRoot() returns (exact: bool)
      requires release.Some?
      modifies this
      ensures Framed(claim, old(release), release)
      ensures exact ==> release.None?
      ensures release == old(release) || release.None?
      ensures old(Calm()) ==> Calm() && (exact <==> old(release) == Some(map[]))
    {
      if release.value != map[] {
        return false;
      }
      var step := Change(None);
      return step == Done;
    }

    /** `remove_release`. */
    method Remove() returns (exact: bool)
      requires claim.Valid()
      modifies this
      // Every crash point: nothing but removable content went, and what is left is as provable as before.
      ensures Framed(claim, old(release), release)
      ensures Residue(claim, old(release)) ==> Residue(claim, release)
      ensures exact ==> release.None?
      // Undisturbed: a provable residue is removed completely, unless it is the one stuck state.
      ensures old(Calm()) ==> Calm()
      ensures old(Calm()) && Residue(claim, old(release)) ==> (exact <==> !Stuck(claim, old(release)))
      ensures Stuck(claim, old(release)) ==> !exact && release == old(release)
      // Cut off between the manifest's quarantine and its unlink, it ends in that state.
      ensures Untouched(claim, old(release)) && old(DiesAtTheManifest()) ==>
        && Stuck(claim, release)
        && claim.Quarantine(claim.ManifestPath()) in release.value
        && release.value[claim.Quarantine(claim.ManifestPath())] == old(release).value[claim.ManifestPath()]
      // Whatever is not what the claim declares for its place stays as it is, and removal is not exact.
      ensures
        forall p | old(release).Some? && p in old(release).value && p in claim.entries
                   && old(release).value[p] != claim.entries[p] ::
          !exact && release.Some? && p in release.value && release.value[p] == old(release).value[p]
      ensures KeptAltered(claim, old(release), release) && (HoldsAltered(claim, old(release)) ==> !exact)
      // Every path that is gone held what belongs there, or set such content aside; and every new one does.
      ensures TookOnlyDeclared(claim, old(release), release) && TookOnlyDeclared(claim, release, old(release))
      // Undisturbed, a release that holds exactly what the claim declares goes.
      ensures old(Calm()) && old(release).Some? && HoldsExactly(claim, old(release).value) ==> exact && release.None?
    {
      hide Framed, Residue, Stuck, Untouched, Claim.Valid, Claim.Quarantine, Claim.Agrees, Claim.Removable;
      hide HoldsExactly, Belongs, SetAside, AllIn, IsDeclared, TookOnlyDeclared;
      ghost var before := release;
      if release.Some? && HoldsExactly(claim, release.value) {
        ExactlyIsUntouched(claim, release.value);
        UntouchedIsResidue(claim, release);
      }
      exact := RemoveProven();
      FramedMeans(claim, before, release);
      forall p | before.Some? && p in before.value && p in claim.entries && before.value[p] != claim.entries[p]
        ensures release.Some? && p in release.value && release.value[p] == before.value[p]
      {
        AlteredEntries(claim, p, before.value[p]);
      }
    }

    method RemoveProven() returns (exact: bool)
      requires claim.Valid()
      modifies this
      // Every crash point: nothing but removable content went, and what is left is as provable as before.
      ensures Framed(claim, old(release), release)
      ensures Residue(claim, old(release)) ==> Residue(claim, release)
      ensures exact ==> release.None?
      // Undisturbed: a provable residue is removed completely, unless it is the one stuck state.
      ensures old(Calm()) ==> Calm()
      ensures old(Calm()) && Residue(claim, old(release)) ==> (exact <==> !Stuck(claim, old(release)))
      ensures Stuck(claim, old(release)) ==> !exact && release == old(release)
      // Cut off between the manifest's quarantine and its unlink, it ends in that state.
      ensures Untouched(claim, old(release)) && old(DiesAtTheManifest()) ==>
        && Stuck(claim, release)
        && claim.Quarantine(claim.ManifestPath()) in release.value
        && release.value[claim.Quarantine(claim.ManifestPath())] == old(release).value[claim.ManifestPath()]
    {
      hide Framed, Residue, Claim.Valid, Claim.Quarantine;
      Reflexive(claim, release);
      if release.None? {
        return true;
      }
      if Residue(claim, release) {
        ControlsAgree();
      }
      var receipt, manifest := claim.ReceiptPath(), claim.ManifestPath();
      if receipt in release.value && !claim.Agrees(receipt, release.value[receipt]) {
        return false;
      }
      if manifest !in release.value {
        if release.value == map[] {
          exact := RemoveRoot();
          GoneIsResidue(claim);
          return;
        }
        return false;
      }
      if !claim.Agrees(manifest, release.value[manifest]) {
        return false;
      }
      exact := RemoveContent();
    }

    lemma ControlsAgree()
      requires claim.Valid() && release.Some? && Residue(claim, release)
      ensures forall p :: p in [claim.ReceiptPath(), claim.ManifestPath()] && p in release.value ==>
        claim.Agrees(p, release.value[p])
    {
      hide Claim.Quarantine;
      forall p | p in [claim.ReceiptPath(), claim.ManifestPath()] && p in release.value
        ensures claim.Agrees(p, release.value[p])
      {
        ResidueAgrees(claim, release.value, p);
      }
    }

    method RemoveContent() returns (exact: bool)
      requires claim.Valid() && release.Some? && claim.ManifestPath() in release.value
      modifies this
      ensures Framed(claim, old(release), release)
      ensures Residue(claim, old(release)) ==> Residue(claim, release)
      ensures exact ==> release.None?
      ensures old(Calm()) ==> Calm()
      ensures old(Calm()) && Residue(claim, old(release)) ==> exact
      ensures Untouched(claim, old(release)) && old(DiesAtTheManifest()) ==>
        && Stuck(claim, release)
        && claim.Quarantine(claim.ManifestPath()) in release.value
        && release.value[claim.Quarantine(claim.ManifestPath())] == old(release).value[claim.ManifestPath()]
    {
      hide Framed, Residue, Claim.Valid, Claim.Quarantine, Untouched, AllIn;
      ghost var start := release;
      if Untouched(claim, release) {
        UntouchedIsResidue(claim, release);
      }
      var retained := RemoveEntries();
      if retained {
        return false;
      }
      ghost var afterEntries := release;
      exact := RemoveControls();
      FramedIsTransitive(claim, start, afterEntries, release);
    }

    /** The owned files, then the owned directories. */
    method RemoveEntries() returns (retained: bool)
      requires claim.Valid() && release.Some? && claim.ManifestPath() in release.value
      modifies this
      ensures Ahead(old(release)) && claim.ManifestPath() in release.value
      ensures !retained ==> forall p :: p in claim.entries ==> p != [] && Gone(claim, release.value, p)
      ensures old(Calm()) ==> Calm()
      ensures old(Calm()) && Residue(claim, old(release)) ==> !retained
      ensures fates == old(fates)
      ensures
        Untouched(claim, old(release)) && AllIn(claim.files, claim.entries) &&
        AllIn(claim.directories, claim.entries) && old(Lives(2 * |claim.files| + |claim.directories|)) ==>
          && !retained && !down && clock == old(clock) + 2 * |claim.files| + |claim.directories|
          && claim.ReceiptPath() in release.value
    {
      hide Framed, Residue, Claim.Valid, Claim.Quarantine, Untouched, AllIn;
      ghost var start := release;
      Reflexive(claim, release);
      if Untouched(claim, release) {
        UntouchedIsResidue(claim, release);
        AsInstalled(claim, release);
      }
      var filesRetained := EraseFiles(start);
      retained := EraseDirectories(filesRetained, start);
    }

    /** The receipt, the ownership manifest, the root. */
    method RemoveControls() returns (exact: bool)
      requires claim.Valid() && release.Some? && claim.ManifestPath() in release.value
      requires forall p :: p in claim.entries ==> p != [] && Gone(claim, release.value, p)
      modifies this
      ensures Framed(claim, old(release), release)
      ensures Residue(claim, old(release)) ==> Residue(claim, release)
      ensures exact ==> release.None?
      ensures old(Calm()) ==> Calm()
      ensures old(Calm()) && Residue(claim, old(release)) ==> exact
      ensures
        Residue(claim, old(release)) && claim.ReceiptPath() in old(release).value &&
        old(Lives(3)) && old(fates(clock + 3)) == Dies(false) ==>
          && Stuck(claim, release)
          && claim.Quarantine(claim.ManifestPath()) in release.value
          && release.value[claim.Quarantine(claim.ManifestPath())] == old(release).value[claim.ManifestPath()]
    {
      hide Framed, Residue, Claim.Valid, Claim.Quarantine;
      ghost var start := release;
      ControlNames();
      var receiptGone := EraseControl(claim.ReceiptPath());
      if !receiptGone {
        return false;
      }
      ghost var afterReceipt := release;
      var manifestGone := EraseControl(claim.ManifestPath());
      FramedIsTransitive(claim, start, afterReceipt, release);
      if !manifestGone {
        return false;
      }
      ghost var afterManifest := release;
      if Residue(claim, release) {
        NothingLeft(claim, release.value);
      }
      exact := RemoveRoot();
      FramedIsTransitive(claim, start, afterManifest, release);
      GoneIsResidue(claim);
    }

    lemma AsInstalled(claim: Claim, release: Option<Tree>)
      requires claim.Valid() && Untouched(claim, release)
      ensures release.Some? && claim.ReceiptPath() in release.value && claim.ManifestPath() in release.value
      ensures AllIn(claim.files, claim.entries) ==> AllIn(claim.files, release.value)
      ensures AllIn(claim.directories, claim.entries) ==> AllIn(claim.directories, release.value)
    {
      hide Claim.Quarantine, Claim.IsQuarantine;
    }

    /** Any number of crashed runs, then an undisturbed one: the release is gone, or stuck at the manifest. */
    method Restart(scripts: seq<nat -> Fate>) returns (exact: bool)
      requires claim.Valid() && Untouched(claim, release)
      modifies this
      ensures Framed(claim, old(release), release) && Residue(claim, release)
      ensures exact <==> release.None?
      ensures !exact ==> Stuck(claim, release)
    {
      hide Framed, Residue, Claim.Valid, Claim.Quarantine;
      UntouchedIsResidue(claim, release);
      Reflexive(claim, release);
      ghost var start := release;
      for i := 0 to |scripts|
        invariant Framed(claim, start, release) && Residue(claim, release)
      {
        ghost var before := release;
        down, clock, fates := false, 0, scripts[i];
        var _ := Remove();
        FramedIsTransitive(claim, start, before, release);
      }
      ghost var before := release;
      down, clock, fates := false, 0, n => Works;
      exact := Remove();
      FramedIsTransitive(claim, start, before, release);
    }

    /**
     Any installed release, removed by a process that dies between quarantining
     the ownership manifest and unlinking it.
     */
    method DieAtTheManifest()
      requires claim.Valid() && Untouched(claim, release)
      requires AllIn(claim.files, claim.entries) && AllIn(claim.directories, claim.entries)
      modifies this
      ensures Residue(claim, release) && Stuck(claim, release)
      ensures release.value.Keys == {claim.Quarantine(claim.ManifestPath())}
      ensures release.value[claim.Quarantine(claim.ManifestPath())] == old(release).value[claim.ManifestPath()]
    {
      hide Framed, Residue, Claim.Valid, Untouched, Claim.Quarantine;
      UntouchedIsResidue(claim, release);
      var last := 2 * |claim.files| + |claim.directories| + 3;
      down, clock, fates := false, 0, n => if n == last then Dies(false) else Works;
      var _ := Remove();
      StuckIsTheQuarantinedManifest(claim, release.value);
    }
  }

  // ----- one release that is stuck -----

  const APP := File(493, "program")
  const CLAIM := Claim(
    map[["app"] := APP], [["app"]], [], "receipt", "received", "manifest", "owned", name => "." + name)
  const INSTALLED: Tree := map[["app"] := APP, ["receipt"] := File(384, "received"), ["manifest"] := File(384, "owned")]

  const LEFT: Tree := map[[".manifest"] := File(384, "owned")]

  lemma MarksAreTold(m: string)
    ensures CLAIM.mark(m) != "" && CLAIM.mark(m)[0] == '.' && CLAIM.mark(m)[1..] == m
  {
  }

  lemma NoPathIsAQuarantine(p: RelPath)
    requires CLAIM.IsQuarantine(p)
    ensures p != [] && p[|p| - 1] != "" && p[|p| - 1][0] == '.'
  {
    hide Claim.Quarantine, Claim.Quarantinable;
    var f :| f != [] && (f in CLAIM.entries || CLAIM.Quarantinable(f)) && CLAIM.Quarantine(f) == p;
    QuarantineMarksTheName(CLAIM, f);
    MarksAreTold(f[|f| - 1]);
  }

  lemma TheClaimIsValid()
    ensures CLAIM.Valid()
  {
    hide Claim.IsQuarantine;
    assert CLAIM.files[0] == ["app"];
    forall m, n | CLAIM.mark(m) == CLAIM.mark(n) ensures m == n {
      MarksAreTold(m);
      MarksAreTold(n);
    }
    forall p | CLAIM.IsQuarantine(p) ensures p != ["app"] && p != ["receipt"] && p != ["manifest"] {
      NoPathIsAQuarantine(p);
    }
  }

  lemma ItIsInstalled()
    ensures Untouched(CLAIM, Some(INSTALLED))
  {
  }

  lemma ItsQuarantine()
    ensures CLAIM.Quarantine(CLAIM.ManifestPath()) == [".manifest"]
    ensures INSTALLED[CLAIM.ManifestPath()] == File(384, "owned")
  {
    assert CLAIM.mark("manifest") == ".manifest" && CLAIM.ManifestPath() == ["manifest"];
    assert Parent(["manifest"]) == [];
  }

  /** Removal of this release dies at its manifest, and an undisturbed retry leaves it there. */
  method AStuckRelease() returns (exact: bool, left: Option<Tree>)
    ensures !exact && left == Some(LEFT)
  {
    hide Residue, Claim.Valid, Untouched, Framed, Claim.IsQuarantine, Claim.Agrees, Claim.Quarantine;
    TheClaimIsValid();
    ItIsInstalled();
    ItsQuarantine();
    var release := new OwnedRelease(CLAIM, Some(INSTALLED), n => Works);
    release.DieAtTheManifest();
    exact := release.Remove();
    left := release.release;
    assert left.value == LEFT;
  }

  lemma GoneIsResidue(claim: Claim)
    ensures Residue(claim, None)
  {
  }

  /** With entries and control files gone, a provable residue is an empty directory. */
  lemma NothingLeft(claim: Claim, t: Tree)
    requires claim.Valid() && Residue(claim, Some(t))
    requires forall x :: x in claim.entries ==> x != [] && Gone(claim, t, x)
    requires Gone(claim, t, claim.ReceiptPath()) && Gone(claim, t, claim.ManifestPath())
    ensures t == map[]
  {
    hide Claim.Quarantine;
    forall p ensures p !in t {
      forall f | f != [] && claim.Quarantinable(f) && f in claim.entries ensures Gone(claim, t, f) {
      }
      forall f | f != [] && claim.Quarantinable(f) ensures claim.Quarantine(f) !in t {
        assert f in claim.files ==> f in claim.entries;
      }
      assert p in claim.entries ==> Gone(claim, t, p);
    }
  }

  /** The stuck state is exactly one file: the quarantined manifest. */
  lemma StuckIsTheQuarantinedManifest(claim: Claim, t: Tree)
    requires claim.Valid() && Residue(claim, Some(t))
    ensures Stuck(claim, Some(t)) <==> t.Keys == {claim.Quarantine(claim.ManifestPath())}
  {
    hide Claim.Quarantine;
    var quarantined := claim.Quarantine(claim.ManifestPath());
    assert claim.IsQuarantine(quarantined);
    if Stuck(claim, Some(t)) {
      EntriesWentFirst(claim, t);
      hide Residue, Claim.Valid;
      if quarantined !in t {
        NothingLeft(claim, t);
      }
      forall p | p in t ensures p == quarantined {
        OnlyQuarantined(claim, t, p);
      }
    }
  }

  lemma EntriesWentFirst(claim: Claim, t: Tree)
    requires claim.Valid() && Residue(claim, Some(t)) && claim.ManifestPath() !in t
    ensures forall x :: x in claim.entries ==> x != [] && Gone(claim, t, x)
    ensures Gone(claim, t, claim.ReceiptPath())
    ensures claim.Quarantine(claim.ManifestPath()) !in t ==> Gone(claim, t, claim.ManifestPath())
  {
    hide Claim.Quarantine;
  }

  lemma OnlyQuarantined(claim: Claim, t: Tree, p: RelPath)
    requires claim.Valid() && Residue(claim, Some(t)) && p in t && claim.ManifestPath() !in t
    requires forall x :: x in claim.entries ==> x != [] && Gone(claim, t, x)
    requires Gone(claim, t, claim.ReceiptPath())
    ensures p == claim.Quarantine(claim.ManifestPath())
  {
    hide Claim.Quarantine;
    forall f | f != [] && claim.Quarantinable(f) && f != claim.ManifestPath() ensures claim.Quarantine(f) != p {
      assert f in claim.files ==> f in claim.entries;
      assert Gone(claim, t, f);
    }
    forall x | x in claim.entries ensures x != p {
      assert Gone(claim, t, x);
    }
    assert claim.Removable(p, t[p]);
  }

  lemma ControlKeepsResidue(claim: Claim, before: Tree, after: Tree, p: RelPath)
    requires claim.Valid() && Residue(claim, Some(before)) && p in [claim.ReceiptPath(), claim.ManifestPath()]
    requires Framed(claim, Some(before), Some(after))
    requires forall x :: x != p && x != claim.Quarantine(p) ==> (x in after <==> x in before)
    requires p in after && claim.Quarantine(p) in after ==> p in before && claim.Quarantine(p) in before
    requires forall x :: x in claim.entries ==> x != [] && Gone(claim, after, x)
    requires p == claim.ManifestPath() ==> Gone(claim, after, claim.ReceiptPath())
    requires p == claim.ReceiptPath() ==> claim.ManifestPath() in after
    ensures Residue(claim, Some(after))
  {
    hide Claim.Valid, Claim.IsQuarantine, Claim.Removable, Claim.Agrees, Claim.Quarantine;
    forall x | x in after && x != [] && claim.Quarantinable(x) ensures claim.Quarantine(x) !in after {
      QuarantinableIsOwned(claim, x);
      QuarantinableIsOwned(claim, p);
      NotAQuarantine(claim, p, x);
      NotAQuarantine(claim, x, p);
      if claim.Quarantine(x) == claim.Quarantine(p) {
        QuarantineIsInjective(claim, x, p);
      }
    }
  }

  lemma QuarantinableIsOwned(claim: Claim, p: RelPath)
    requires claim.Valid() && p != [] && claim.Quarantinable(p)
    ensures p in claim.entries || p == claim.ReceiptPath() || p == claim.ManifestPath()
  {
    hide Claim.Quarantine;
  }

  predicate Emptied(claim: Claim, t: Tree, d: RelPath)
    requires d != []
  {
    if d in t then claim.Agrees(d, t[d]) && Children(t, d) == {} else claim.Quarantine(d) !in t
  }

  /** Nothing in the way of removing this file, now or after an interruption. */
  predicate Erasable(claim: Claim, t: Tree, p: RelPath)
    requires p != []
  {
    var q := claim.Quarantine(p);
    if p in t then claim.Agrees(p, t[p]) && q !in t
    else q in t ==> claim.Agrees(p, t[q])
  }
}
