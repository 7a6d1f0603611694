/**
 The release manifest of scripts/release_artifact.py and the worklist that
 compares an extracted tree with it: an accepted manifest denotes a tree, and
 only that tree passes.
 */
module ArtifactVerifier {
  import opened Wrappers
  import opened Files

  datatype Limits = Limits(entryCount: nat, fileBytes: nat, totalBytes: nat, pathLength: nat, nestingDepth: nat)

  datatype Entry = Entry(path: RelPath, node: Node)

  /** The path as text. */
  function Join(p: RelPath): string {
    if p == [] then ""
    else if |p| == 1 then p[0]
    else Join(p[..|p| - 1]) + "/" + p[|p| - 1]
  }

  /** `portable_path_parts`, apart from the component grammar: bounded, and of non-empty components. */
  predicate Portable(p: RelPath, limits: Limits) {
    && p != [] && |p| <= limits.nestingDepth && |Join(p)| <= limits.pathLength
    && forall i :: 0 <= i < |p| ==> p[i] != ""
  }

  function LowerChar(c: char): char {
    if 'A' <= c <= 'Z' then c - 'A' + 'a' else c
  }

  /** `portable_path_key`. */
  function Key(p: RelPath): string {
    var text := Join(p);
    seq(|text|, i requires 0 <= i < |text| => LowerChar(text[i]))
  }

  /** Byte order of texts. */
  predicate Less(a: string, b: string) {
    if b == "" then false
    else if a == "" then true
    else a[0] < b[0] || (a[0] == b[0] && Less(a[1..], b[1..]))
  }

  predicate ModeOk(node: Node) {
    if node.Directory? then node.mode == 0x1ED else node.mode == 0x1A4 || node.mode == 0x1ED
  }

  function Size(node: Node): nat {
    if node.Directory? then 0 else |node.bytes|
  }

  function Total(entries: seq<Entry>): nat {
    if entries == [] then 0 else Total(entries[..|entries| - 1]) + Size(entries[|entries| - 1].node)
  }

  predicate EntryOk(e: Entry, manifestName: string, limits: Limits) {
    && Portable(e.path, limits) && e.path != [manifestName] && ModeOk(e.node)
    && (e.node.File? ==> |e.node.bytes| <= limits.fileBytes)
  }

  predicate NoCollision(entries: seq<Entry>) {
    forall i, j :: 0 <= i < j < |entries| ==> Key(entries[i].path) != Key(entries[j].path)
  }

  predicate Canonical(entries: seq<Entry>) {
    forall i, j :: 0 <= i < j < |entries| ==> Less(Join(entries[i].path), Join(entries[j].path))
  }

  function Directories(entries: seq<Entry>): set<RelPath> {
    set e | e in entries && e.node.Directory? :: e.path
  }

  predicate AncestorsDeclared(entries: seq<Entry>) {
    forall e :: e in entries ==> forall k :: 0 < k < |e.path| ==> e.path[..k] in Directories(entries)
  }

  /** What `validate_release_manifest` accepts. */
  predicate Accepted(entries: seq<Entry>, manifestName: string, limits: Limits) {
    && 0 < |entries| <= limits.entryCount
    && (forall i :: 0 <= i < |entries| ==> EntryOk(entries[i], manifestName, limits))
    && NoCollision(entries)
    && Total(entries) <= limits.totalBytes
    && Canonical(entries)
    && AncestorsDeclared(entries)
  }

  // ----- acceptance, letter by letter -----

  /** An ASCII capital and its small letter. */
  predicate Capital(x: char, y: char) {
    'A' <= x <= 'Z' && y as int == x as int + 32
  }

  /** Two texts that differ in case alone, if at all. */
  predicate SameButCase(a: string, b: string) {
    |a| == |b| && forall i :: 0 <= i < |a| ==> a[i] == b[i] || Capital(a[i], b[i]) || Capital(b[i], a[i])
  }

  /** One text is a proper prefix of the other, or is less in the first place where they differ. */
  ghost predicate Before(a: string, b: string) {
    exists n: nat :: PartAt(a, b, n)
  }

  predicate PartAt(a: string, b: string, n: nat) {
    n <= |a| && n < |b| && a[..n] == b[..n] && (n == |a| || a[n] < b[n])
  }

  lemma KeysFoldCase(p: RelPath, q: RelPath)
    ensures Key(p) == Key(q) <==> SameButCase(Join(p), Join(q))
  {
    var a, b := Join(p), Join(q);
    if Key(p) == Key(q) {
      forall i | 0 <= i < |a| ensures a[i] == b[i] || Capital(a[i], b[i]) || Capital(b[i], a[i]) {
        assert Key(p)[i] == Key(q)[i];
      }
    }
  }

  lemma {:induction false} LessIsBefore(a: string, b: string)
    ensures Less(a, b) <==> Before(a, b)
    decreases |a|
  {
    if a == "" {
      assert b != "" ==> PartAt(a, b, 0);
    } else if b != "" {
      LessIsBefore(a[1..], b[1..]);
      if Less(a, b) {
        if a[0] < b[0] {
          assert PartAt(a, b, 0);
        } else {
          var n: nat :| PartAt(a[1..], b[1..], n);
          assert a[..n + 1] == [a[0]] + a[1..][..n] && b[..n + 1] == [b[0]] + b[1..][..n];
          assert PartAt(a, b, n + 1);
        }
      }
      if n: nat :| PartAt(a, b, n) {
        if n > 0 {
          assert a[..n][0] == a[0] && b[..n][0] == b[0];
          assert a[1..][..n - 1] == a[..n][1..] && b[1..][..n - 1] == b[..n][1..];
          assert PartAt(a[1..], b[1..], n - 1);
        }
      }
    }
  }

  /** Components are joined by single slashes. */
  lemma JoinedBySlashes(p: RelPath, c: string)
    ensures Join([c]) == c
    ensures p != [] ==> Join(p + [c]) == Join(p) + "/" + c
  {
    assert (p + [c])[..|p|] == p;
  }

  lemma {:induction false} TotalAdds(entries: seq<Entry>, e: Entry)
    ensures Total(entries + [e]) == Total(entries) + if e.node.File? then |e.node.bytes| else 0
    ensures Total([]) == 0
  {
    assert (entries + [e])[..|entries|] == entries;
  }

  predicate Admitted(e: Entry, manifestName: string, limits: Limits) {
    && 0 < |e.path| <= limits.nestingDepth && |Join(e.path)| <= limits.pathLength
    && (forall i :: 0 <= i < |e.path| ==> |e.path[i]| > 0)
    && e.path != [manifestName]
    && match e.node
       case Directory(mode) => mode == 493
       case File(mode, bytes) => (mode == 420 || mode == 493) && |bytes| <= limits.fileBytes
  }

  /** What a manifest must be, entry by entry. */
  ghost predicate Acceptable(entries: seq<Entry>, manifestName: string, limits: Limits) {
    && 0 < |entries| <= limits.entryCount && Total(entries) <= limits.totalBytes
    && (forall i :: 0 <= i < |entries| ==> Admitted(entries[i], manifestName, limits))
    && (forall i, j :: 0 <= i < j < |entries| ==>
          && !SameButCase(Join(entries[i].path), Join(entries[j].path))
          && Before(Join(entries[i].path), Join(entries[j].path)))
    && (forall i, k :: 0 <= i < |entries| && 0 < k < |entries[i].path| ==>
          Entry(entries[i].path[..k], Directory(493)) in entries)
  }

  lemma AcceptedIsAcceptable(entries: seq<Entry>, manifestName: string, limits: Limits)
    ensures Accepted(entries, manifestName, limits) <==> Acceptable(entries, manifestName, limits)
  {
    forall i, j | 0 <= i < j < |entries|
      ensures Key(entries[i].path) == Key(entries[j].path) <==>
              SameButCase(Join(entries[i].path), Join(entries[j].path))
      ensures Less(Join(entries[i].path), Join(entries[j].path)) <==>
              Before(Join(entries[i].path), Join(entries[j].path))
    {
      KeysFoldCase(entries[i].path, entries[j].path);
      LessIsBefore(Join(entries[i].path), Join(entries[j].path));
    }
    hide Key, Less, Before, SameButCase, Join, Total;
    forall i | 0 <= i < |entries|
      ensures EntryOk(entries[i], manifestName, limits) <==> Admitted(entries[i], manifestName, limits)
    {
    }
    if forall i :: 0 <= i < |entries| ==> EntryOk(entries[i], manifestName, limits) {
      DirectoriesByEntry(entries, manifestName, limits);
    }
  }

  lemma DirectoriesByEntry(entries: seq<Entry>, manifestName: string, limits: Limits)
    requires forall i :: 0 <= i < |entries| ==> EntryOk(entries[i], manifestName, limits)
    ensures forall p :: p in Directories(entries) <==> Entry(p, Directory(493)) in entries
  {
    forall p | p in Directories(entries) ensures Entry(p, Directory(493)) in entries {
      var e :| e in entries && e.node.Directory? && e.path == p;
      assert e == Entry(p, Directory(493));
    }
  }

  // ----- the order -----

  lemma {:induction false} PrefixIsLess(a: string, b: string)
    requires b != ""
    ensures Less(a, a + b)
    decreases |a|
  {
    if a != "" {
      assert (a + b)[1..] == a[1..] + b;
      PrefixIsLess(a[1..], b);
    }
  }

  lemma {:induction false} LessIsAsymmetric(a: string, b: string)
    requires Less(a, b)
    ensures !Less(b, a)
    decreases |a|
  {
    if a != "" && b != "" && a[0] == b[0] {
      LessIsAsymmetric(a[1..], b[1..]);
    }
  }

  lemma {:induction false} LessIsTransitive(a: string, b: string, c: string)
    requires Less(a, b) && Less(b, c)
    ensures Less(a, c)
    decreases |a|
  {
    if a != "" && a[0] == b[0] && b[0] == c[0] {
      LessIsTransitive(a[1..], b[1..], c[1..]);
    }
  }

  /** An ancestor's text is a proper prefix, so it sorts first. */
  lemma {:induction false} AncestorIsLess(p: RelPath, k: nat)
    requires 0 < k < |p|
    ensures Less(Join(p[..k]), Join(p))
    decreases |p| - k
  {
    if k == |p| - 1 {
      PrefixIsLess(Join(p[..k]), "/" + p[k]);
      assert Join(p) == Join(p[..k]) + ("/" + p[k]);
    } else {
      AncestorIsLess(p, k + 1);
      var q := p[..k + 1];
      assert q[..k] == p[..k];
      PrefixIsLess(Join(q[..k]), "/" + q[k]);
      assert Join(q) == Join(q[..k]) + ("/" + q[k]);
      LessIsTransitive(Join(p[..k]), Join(q), Join(p));
    }
  }

  // ----- an accepted manifest denotes a tree -----

  function Denotation(entries: seq<Entry>): map<RelPath, Node> {
    if entries == [] then map[]
    else
      var last := entries[|entries| - 1];
      Denotation(entries[..|entries| - 1])[last.path := last.node]
  }

  lemma {:induction false} DenotationIsTheEntries(entries: seq<Entry>)
    requires forall i, j :: 0 <= i < j < |entries| ==> entries[i].path != entries[j].path
    ensures forall p :: p in Denotation(entries) <==> exists i :: 0 <= i < |entries| && entries[i].path == p
    ensures forall i :: 0 <= i < |entries| ==>
      entries[i].path in Denotation(entries) && Denotation(entries)[entries[i].path] == entries[i].node
    decreases |entries|
  {
    if entries != [] {
      DenotationIsTheEntries(entries[..|entries| - 1]);
    }
  }

  lemma PathsAreDistinct(entries: seq<Entry>)
    requires NoCollision(entries)
    ensures forall i, j :: 0 <= i < j < |entries| ==> entries[i].path != entries[j].path
  {
    forall i, j | 0 <= i < j < |entries| ensures entries[i].path != entries[j].path {
      assert Key(entries[i].path) != Key(entries[j].path);
    }
  }

  /**
   The accepted entries are a tree: every ancestor is a declared directory, so
   no file has descendants; no two paths fold to the same text; and in the
   canonical order every directory comes before what it contains.
   */
  lemma AcceptedDenotesATree(entries: seq<Entry>, manifestName: string, limits: Limits)
    requires Accepted(entries, manifestName, limits)
    ensures Rooted(Denotation(entries))
    ensures forall p, q :: p in Denotation(entries) && q in Denotation(entries) && Key(p) == Key(q) ==> p == q
    ensures forall i, j :: 0 <= i < |entries| && 0 <= j < |entries| && entries[i].path < entries[j].path ==>
      entries[i].node.Directory? && i < j
    ensures forall i :: 0 <= i < |entries| ==>
      entries[i].path in Denotation(entries) && Denotation(entries)[entries[i].path] == entries[i].node
  {
    PathsAreDistinct(entries);
    DenotationIsTheEntries(entries);
    var d := Denotation(entries);
    forall p | p in d && p != [] ensures IsDirectory(d, Parent(p)) {
      var i :| 0 <= i < |entries| && entries[i].path == p;
      if |p| > 1 {
        assert entries[i] in entries && entries[i].path[..|p| - 1] in Directories(entries);
      }
    }
    forall i, j | 0 <= i < |entries| && 0 <= j < |entries| && entries[i].path < entries[j].path
      ensures entries[i].node.Directory? && i < j
    {
      AncestorComesFirst(entries, i, j, manifestName, limits);
    }
  }

  lemma AncestorComesFirst(entries: seq<Entry>, i: nat, j: nat, manifestName: string, limits: Limits)
    requires Accepted(entries, manifestName, limits)
    requires i < |entries| && j < |entries| && entries[i].path < entries[j].path
    ensures entries[i].node.Directory? && i < j
  {
    PathsAreDistinct(entries);
    var p, k := entries[j].path, |entries[i].path|;
    assert EntryOk(entries[i], manifestName, limits);
    assert p[..k] == entries[i].path;
    assert entries[j] in entries && p[..k] in Directories(entries);
    var e :| e in entries && e.node.Directory? && e.path == p[..k];
    var m :| 0 <= m < |entries| && entries[m] == e;
    assert m == i;
    AncestorIsLess(p, k);
    if j < i {
      LessIsAsymmetric(Join(entries[j].path), Join(entries[i].path));
    }
  }

  // ----- the validator -----

  method Validate(entries: seq<Entry>, manifestName: string, limits: Limits) returns (ok: bool)
    ensures ok <==> Accepted(entries, manifestName, limits)
    ensures ok <==> Acceptable(entries, manifestName, limits)
  {
    AcceptedIsAcceptable(entries, manifestName, limits);
    hide Acceptable, EntryOk, NoCollision, Canonical, AncestorsDeclared, Total, Read, Accepted, Key, Size;
    Bounds(entries, manifestName, limits);
    NothingRead(manifestName, limits);
    if entries == [] || |entries| > limits.entryCount {
      return false;
    }
    var paths: set<RelPath> := {};
    var keys: set<string> := {};
    var total: nat := 0;
    assert entries[..0] == [];
    for i := 0 to |entries|
      invariant Read(entries[..i], paths, keys, total, manifestName, limits)
    {
      var e := entries[i];
      assert entries[..i + 1] == entries[..i] + [e];
      OneMoreRead(entries[..i], e, paths, keys, total, manifestName, limits);
      Rejected(entries, i, manifestName, limits);
      if !EntryOk(e, manifestName, limits) {
        return false;
      }
      if e.path in paths || Key(e.path) in keys {
        return false;
      }
      paths, keys := paths + {e.path}, keys + {Key(e.path)};
      total := total + Size(e.node);
      if total > limits.totalBytes {
        return false;
      }
    }
    assert entries[..|entries|] == entries;
    AllRead(entries, paths, keys, total, manifestName, limits);
    var ordered := InOrder(entries);
    if !ordered {
      return false;
    }
    ok := HasAncestors(entries);
  }

  /** Everything read so far is acceptable, and remembered. */
  ghost predicate Read(
    entries: seq<Entry>, paths: set<RelPath>, keys: set<string>, total: nat, manifestName: string, limits: Limits)
  {
    && (forall e :: e in entries ==> EntryOk(e, manifestName, limits))
    && NoCollision(entries)
    && keys == (set e | e in entries :: Key(e.path)) && paths == (set e | e in entries :: e.path)
    && total == Total(entries) <= limits.totalBytes
  }

  lemma Bounds(entries: seq<Entry>, manifestName: string, limits: Limits)
    ensures entries == [] || |entries| > limits.entryCount ==> !Accepted(entries, manifestName, limits)
  {
  }

  lemma NothingRead(manifestName: string, limits: Limits)
    ensures Read([], {}, {}, 0, manifestName, limits)
  {
  }

  lemma AllRead(
    entries: seq<Entry>, paths: set<RelPath>, keys: set<string>, total: nat, manifestName: string, limits: Limits)
    requires Read(entries, paths, keys, total, manifestName, limits)
    requires 0 < |entries| <= limits.entryCount
    ensures Accepted(entries, manifestName, limits) <==> Canonical(entries) && AncestorsDeclared(entries)
  {
  }

  lemma OneMoreRead(
    entries: seq<Entry>, e: Entry, paths: set<RelPath>, keys: set<string>, total: nat, manifestName: string,
    limits: Limits)
    requires Read(entries, paths, keys, total, manifestName, limits)
    ensures Total(entries + [e]) == total + Size(e.node)
    ensures e.path in paths ==> Key(e.path) in keys
    ensures Key(e.path) in keys <==> !NoCollision(entries + [e])
    ensures EntryOk(e, manifestName, limits) && Key(e.path) !in keys && total + Size(e.node) <= limits.totalBytes ==>
      Read(entries + [e], paths + {e.path}, keys + {Key(e.path)}, total + Size(e.node), manifestName, limits)
  {
    var more := entries + [e];
    assert more[..|entries|] == entries;
    if Key(e.path) in keys {
      var x :| x in entries && Key(x.path) == Key(e.path);
      var k :| 0 <= k < |entries| && entries[k] == x;
      assert Key(more[k].path) == Key(more[|entries|].path);
    } else {
      forall i, j | 0 <= i < j < |more| ensures Key(more[i].path) != Key(more[j].path) {
        assert more[i] in entries && (j < |entries| ==> more[j] in entries);
      }
    }
  }

  /** A prefix that is not acceptable condemns the whole. */
  lemma Rejected(entries: seq<Entry>, i: nat, manifestName: string, limits: Limits)
    requires i < |entries|
    ensures !EntryOk(entries[i], manifestName, limits) ==> !Accepted(entries, manifestName, limits)
    ensures !NoCollision(entries[..i + 1]) ==> !Accepted(entries, manifestName, limits)
    ensures Total(entries[..i + 1]) > limits.totalBytes ==> !Accepted(entries, manifestName, limits)
  {
    TotalGrows(entries, i + 1);
  }

  lemma {:induction false} TotalGrows(entries: seq<Entry>, k: nat)
    requires k <= |entries|
    ensures Total(entries[..k]) <= Total(entries)
    decreases |entries| - k
  {
    if k < |entries| {
      assert entries[..k + 1][..k] == entries[..k];
      TotalGrows(entries, k + 1);
    } else {
      assert entries[..k] == entries;
    }
  }

  /** Equality with the sorted list of distinct paths. */
  method InOrder(entries: seq<Entry>) returns (ok: bool)
    ensures ok <==> Canonical(entries)
  {
    for i := 1 to |entries| + 1
      invariant forall k, m :: 0 <= k < m < i && m < |entries| ==> Less(Join(entries[k].path), Join(entries[m].path))
    {
      if i < |entries| {
        if !Less(Join(entries[i - 1].path), Join(entries[i].path)) {
          return false;
        }
        forall k | 0 <= k < i ensures Less(Join(entries[k].path), Join(entries[i].path)) {
          if k < i - 1 {
            LessIsTransitive(Join(entries[k].path), Join(entries[i - 1].path), Join(entries[i].path));
          }
        }
      }
    }
    return true;
  }

  method HasAncestors(entries: seq<Entry>) returns (ok: bool)
    ensures ok <==> AncestorsDeclared(entries)
  {
    var directories := Directories(entries);
    for i := 0 to |entries|
      invariant forall k :: 0 <= k < i ==> forall d :: 0 < d < |entries[k].path| ==> entries[k].path[..d] in directories
    {
      var depth := 1;
      while depth < |entries[i].path|
        invariant forall d :: 0 < d < depth && d < |entries[i].path| ==> entries[i].path[..d] in directories
      {
        if entries[i].path[..depth] !in directories {
          assert entries[i] in entries;
          return false;
        }
        depth := depth + 1;
      }
    }
    return true;
  }

  // ----- the extracted tree -----

  /** The bytes of the entries whose paths have been seen. */
  function SeenBytes(entries: seq<Entry>, seen: set<RelPath>): nat {
    if entries == [] then 0
    else
      var last := entries[|entries| - 1];
      SeenBytes(entries[..|entries| - 1], seen) + if last.path in seen then Size(last.node) else 0
  }

  lemma {:induction false} SeenIsPartOfTotal(entries: seq<Entry>, seen: set<RelPath>)
    ensures SeenBytes(entries, seen) <= Total(entries)
    ensures seen == {} ==> SeenBytes(entries, seen) == 0
    decreases |entries|
  {
    if entries != [] {
      SeenIsPartOfTotal(entries[..|entries| - 1], seen);
    }
  }

  lemma {:induction false} SeeingOneMore(entries: seq<Entry>, seen: set<RelPath>, p: RelPath)
    requires p !in seen && forall i, j :: 0 <= i < j < |entries| ==> entries[i].path != entries[j].path
    ensures SeenBytes(entries, seen + {p}) ==
            SeenBytes(entries, seen) + if p in Denotation(entries) then Size(Denotation(entries)[p]) else 0
    decreases |entries|
  {
    if entries != [] {
      var last := |entries| - 1;
      SeeingOneMore(entries[..last], seen, p);
      DenotationIsTheEntries(entries[..last]);
    }
  }

  /** Where the pass stands, and that a tree equal to the manifest has given it no reason to stop. */
  ghost predicate Pass(
    t: Tree, entries: seq<Entry>, observed: set<RelPath>, keys: set<string>, total: nat, limits: Limits)
  {
    && observed <= t.Keys
    && keys == (set p | p in observed :: Key(p))
    && (t == Denotation(entries) ==> total == SeenBytes(entries, observed))
  }

  /** What the pass demands of the next child. */
  predicate Admissible(
    child: RelPath, node: Node, count: nat, keys: set<string>, total: nat, limits: Limits)
  {
    && Portable(child, limits) && Key(child) !in keys && Size(node) <= limits.fileBytes
    && total + Size(node) <= limits.totalBytes && count < limits.entryCount
  }

  lemma PassGrows(
    t: Tree, entries: seq<Entry>, observed: set<RelPath>, keys: set<string>, total: nat, child: RelPath,
    manifestName: string, limits: Limits)
    requires Accepted(entries, manifestName, limits) && Pass(t, entries, observed, keys, total, limits)
    requires child in t && child !in observed
    ensures Pass(t, entries, observed + {child}, keys + {Key(child)}, total + Size(t[child]), limits)
  {
    hide Key, Size, Denotation;
    PathsAreDistinct(entries);
    if t == Denotation(entries) {
      SeeingOneMore(entries, observed, child);
    }
  }

  lemma KnownFits(entries: seq<Entry>, p: RelPath, manifestName: string, limits: Limits)
    requires Accepted(entries, manifestName, limits) && p in Denotation(entries)
    ensures Portable(p, limits) && Size(Denotation(entries)[p]) <= limits.fileBytes
  {
    PathsAreDistinct(entries);
    DenotationIsTheEntries(entries);
    var i :| 0 <= i < |entries| && entries[i].path == p;
    assert EntryOk(entries[i], manifestName, limits);
  }

  /** A child the manifest knows is portable, collides with nothing, and fits every limit. */
  lemma KnownChild(
    t: Tree, entries: seq<Entry>, observed: set<RelPath>, keys: set<string>, total: nat, child: RelPath,
    manifestName: string, limits: Limits)
    requires Accepted(entries, manifestName, limits) && Pass(t, entries, observed, keys, total, limits)
    requires child in t && child !in observed && t == Denotation(entries)
    ensures Admissible(child, t[child], |observed|, keys, total, limits)
  {
    KnownIsAlone(entries, observed, child, manifestName, limits);
    KnownFits(entries, child, manifestName, limits);
    KnownLeavesRoom(entries, observed, child, manifestName, limits);
    hide Portable, Key, Size, Denotation, EntryOk, NoCollision, Canonical, AncestorsDeclared;
  }

  lemma KnownIsAlone(
    entries: seq<Entry>, observed: set<RelPath>, child: RelPath, manifestName: string, limits: Limits)
    requires Accepted(entries, manifestName, limits) && observed + {child} <= Denotation(entries).Keys
    requires child !in observed
    ensures Key(child) !in (set p | p in observed :: Key(p))
  {
    AcceptedDenotesATree(entries, manifestName, limits);
    hide Key, Denotation, Accepted;
  }

  lemma KnownLeavesRoom(
    entries: seq<Entry>, observed: set<RelPath>, child: RelPath, manifestName: string, limits: Limits)
    requires Accepted(entries, manifestName, limits) && observed + {child} <= Denotation(entries).Keys
    requires child !in observed
    ensures SeenBytes(entries, observed) + Size(Denotation(entries)[child]) <= limits.totalBytes
    ensures |observed| < limits.entryCount
  {
    hide Key, Size, Denotation, EntryOk, Canonical, AncestorsDeclared;
    PathsAreDistinct(entries);
    SeeingOneMore(entries, observed, child);
    SeenIsPartOfTotal(entries, observed + {child});
    FewObserved(entries, observed, child);
  }

  lemma FewObserved(entries: seq<Entry>, observed: set<RelPath>, child: RelPath)
    requires observed + {child} <= Denotation(entries).Keys && child !in observed
    ensures |observed| < |entries|
  {
    FewPaths(entries);
    SubsetIsSmaller(observed + {child}, Denotation(entries).Keys);
  }

  lemma {:induction false} FewPaths(entries: seq<Entry>)
    ensures |Denotation(entries).Keys| <= |entries|
    decreases |entries|
  {
    if entries != [] {
      var last := |entries| - 1;
      FewPaths(entries[..last]);
      assert Denotation(entries).Keys == Denotation(entries[..last]).Keys + {entries[last].path};
    }
  }

  lemma NothingSeen(t: Tree, entries: seq<Entry>, limits: Limits)
    ensures Walk(t, t, {}, {[]}, {}) && Pass(t, entries, {}, {}, 0, limits)
  {
    SeenIsPartOfTotal(entries, {});
    hide Denotation, SeenBytes;
  }

  /** What the pass has collected, and the directories it has still to open. */
  datatype Scan = Scan(observed: set<RelPath>, keys: set<string>, total: nat, pending: set<RelPath>)

  ghost predicate Scanned(t: Tree, entries: seq<Entry>, scan: Scan, rest: set<RelPath>, limits: Limits) {
    Walk(t, t, scan.observed, scan.pending, rest) && Pass(t, entries, scan.observed, scan.keys, scan.total, limits)
  }

  /** One child: refuse it, or add it to what was seen. */
  method VisitChild(
    t: Tree, entries: seq<Entry>, scan: Scan, ghost rest: set<RelPath>, child: RelPath, manifestName: string,
    limits: Limits)
    returns (next: Option<Scan>)
    requires Accepted(entries, manifestName, limits) && Scanned(t, entries, scan, rest, limits) && child in rest
    requires child in t && child !in scan.observed
    ensures next.None? ==> t != Denotation(entries)
    ensures next.Some? ==> Scanned(t, entries, next.value, rest - {child}, limits)
    ensures next.Some? ==> next.value.observed == scan.observed + {child}
  {
    hide Walk, Rooted, Pass, Accepted, Key, Portable, Size, Admissible, Denotation, SeenBytes;
    if t == Denotation(entries) {
      KnownChild(t, entries, scan.observed, scan.keys, scan.total, child, manifestName, limits);
    }
    if child in scan.observed || !Admissible(child, t[child], |scan.observed|, scan.keys, scan.total, limits) {
      return None;
    }
    PassGrows(t, entries, scan.observed, scan.keys, scan.total, child, manifestName, limits);
    See(t, t, scan.observed, scan.pending, rest, child);
    return Some(Scan(
      scan.observed + {child}, scan.keys + {Key(child)}, scan.total + Size(t[child]),
      if t[child].Directory? then scan.pending + {child} else scan.pending));
  }

  lemma NotYetSeen(t: Tree, entries: seq<Entry>, scan: Scan, rest: set<RelPath>, limits: Limits)
    requires Scanned(t, entries, scan, rest, limits)
    ensures forall p :: p in rest ==> p in t && p !in scan.observed
    ensures scan.observed <= t.Keys
  {
    Ahead(t, t, scan.observed, scan.pending, rest);
  }

  method ReadDirectory(
    t: Tree, entries: seq<Entry>, scan0: Scan, parent: RelPath, manifestName: string, limits: Limits)
    returns (next: Option<Scan>)
    requires Accepted(entries, manifestName, limits) && Scanned(t, entries, scan0, {}, limits) && parent in scan0.pending
    ensures next.None? ==> t != Denotation(entries)
    ensures next.Some? ==> Scanned(t, entries, next.value, {}, limits) && scan0.observed <= next.value.observed
    ensures next.Some? && next.value.observed == scan0.observed ==> next.value.pending == scan0.pending - {parent}
  {
    hide Accepted, Denotation;
    Enter(t, t, scan0.observed, scan0.pending, parent);
    var rest := Children(t, parent);
    var scan := scan0.(pending := scan0.pending - {parent});
    hide Scanned;
    while rest != {}
      invariant Scanned(t, entries, scan, rest, limits)
      invariant scan0.observed <= scan.observed
      invariant scan.observed == scan0.observed ==> scan.pending == scan0.pending - {parent}
      decreases rest
    {
      NotYetSeen(t, entries, scan, rest, limits);
      var child :| child in rest;
      var visited := VisitChild(t, entries, scan, rest, child, manifestName, limits);
      if visited.None? {
        return None;
      }
      scan, rest := visited.value, rest - {child};
    }
    return Some(scan);
  }

  /** The tree holds every entry, and nothing else. */
  predicate HoldsExactly(t: Tree, entries: seq<Entry>) {
    && (forall i :: 0 <= i < |entries| ==> entries[i].path in t && t[entries[i].path] == entries[i].node)
    && (forall p :: p in t ==> Entry(p, t[p]) in entries)
  }

  lemma HeldExactly(t: Tree, d: map<RelPath, Node>, entries: seq<Entry>)
    requires forall i :: 0 <= i < |entries| ==> entries[i].path in d && d[entries[i].path] == entries[i].node
    requires t == d && forall p :: p in d ==> exists i :: 0 <= i < |entries| && entries[i].path == p
    ensures HoldsExactly(t, entries)
  {
    forall p | p in t ensures Entry(p, t[p]) in entries {
      var i :| 0 <= i < |entries| && entries[i].path == p;
      assert entries[i] == Entry(p, t[p]);
    }
  }

  lemma HoldingExactlyEquals(t: Tree, d: map<RelPath, Node>, entries: seq<Entry>)
    requires forall i :: 0 <= i < |entries| ==> entries[i].path in d && d[entries[i].path] == entries[i].node
    requires HoldsExactly(t, entries) && forall p :: p in d ==> exists i :: 0 <= i < |entries| && entries[i].path == p
    ensures t == d
  {
    forall p | p in t ensures p in d && d[p] == t[p] {
      var i :| 0 <= i < |entries| && entries[i] == Entry(p, t[p]);
    }
  }

  lemma EqualEntryByEntry(t: Tree, entries: seq<Entry>, manifestName: string, limits: Limits)
    requires Accepted(entries, manifestName, limits)
    ensures t == Denotation(entries) <==> HoldsExactly(t, entries)
  {
    PathsAreDistinct(entries);
    DenotationIsTheEntries(entries);
    hide Accepted, Denotation, HoldsExactly;
    if t == Denotation(entries) {
      HeldExactly(t, Denotation(entries), entries);
    }
    if HoldsExactly(t, entries) {
      HoldingExactlyEquals(t, Denotation(entries), entries);
    }
  }

  /**
   The worklist of `verify_extracted_artifact`, over the tree without the
   embedded manifest: it accepts exactly the tree the manifest denotes.
   */
  method VerifyExtracted(t: Tree, entries: seq<Entry>, manifestName: string, limits: Limits) returns (ok: bool)
    requires Accepted(entries, manifestName, limits)
    ensures ok <==> t == Denotation(entries)
    ensures ok <==> HoldsExactly(t, entries)
  {
    EqualEntryByEntry(t, entries, manifestName, limits);
    hide Accepted, Denotation, Walk, Pass, HoldsExactly;
    NothingSeen(t, entries, limits);
    var scan := Scan({}, {}, 0, {[]});
    while scan.pending != {}
      invariant Scanned(t, entries, scan, {}, limits)
      decreases t.Keys - scan.observed, scan.pending
    {
      var parent :| parent in scan.pending;
      var read := ReadDirectory(t, entries, scan, parent, manifestName, limits);
      if read.None? {
        return false;
      }
      NotYetSeen(t, entries, read.value, {}, limits);
      scan := read.value;
    }
    NotYetSeen(t, entries, scan, {}, limits);
    forall p | p in t ensures p in scan.observed {
      WalkIsComplete(t, t, scan.observed, p);
    }
    ok := (map p | p in scan.observed :: t[p]) == Denotation(entries);
    assert (map p | p in scan.observed :: t[p]) == t;
  }
}
