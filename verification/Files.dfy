/** Directory trees below one root, and the worklist walk that compares one with its recorded inventory. */
module Files {

  /** Path components below the root; the root itself is `[]`. */
  type RelPath = seq<string>

  datatype Node = Directory(mode: nat) | File(mode: nat, bytes: string)

  function Parent(p: RelPath): RelPath
    requires p != []
  {
    p[..|p| - 1]
  }

  predicate IsDirectory(t: map<RelPath, Node>, p: RelPath) {
    p == [] || (p in t && t[p].Directory?)
  }

  /** What a real directory looks like: every entry sits in a directory. */
  predicate Rooted(t: map<RelPath, Node>) {
    [] !in t && forall p {:trigger Parent(p)} :: p != [] && p in t ==> IsDirectory(t, Parent(p))
  }

  type Tree = t: map<RelPath, Node> | Rooted(t) witness map[]

  function Children(t: Tree, d: RelPath): set<RelPath> {
    set p | p in t && p != [] && Parent(p) == d
  }

  /** Where the walk stands: what it saw agrees, and what it did not see is still ahead. */
  predicate Walk(t: Tree, entries: Tree, observed: set<RelPath>, pending: set<RelPath>, rest: set<RelPath>) {
    && (forall p :: p in observed ==> p in t && p in entries && t[p] == entries[p])
    && (forall p {:trigger Parent(p)} :: p != [] && p in observed ==> Reached(Parent(p), observed) && Parent(p) !in pending)
    && (forall p :: p in rest ==> p in t && p !in observed)
    && (forall p {:trigger Parent(p)} :: p != [] && p in rest ==> Reached(Parent(p), observed) && Parent(p) !in pending)
    && (forall d :: d in pending ==> IsDirectory(t, d) && Reached(d, observed))
    && (forall p {:trigger Parent(p)} :: p != [] && p in t && p !in observed && p !in rest ==>
          Parent(p) in pending || !Reached(Parent(p), observed))
  }

  predicate Reached(d: RelPath, observed: set<RelPath>) {
    d == [] || d in observed
  }

  /** Opening a pending directory puts its children ahead. */
  lemma Enter(t: Tree, entries: Tree, observed: set<RelPath>, pending: set<RelPath>, d: RelPath)
    requires Walk(t, entries, observed, pending, {}) && d in pending
    ensures Walk(t, entries, observed, pending - {d}, Children(t, d))
  {
  }

  /** Seeing one agreeing child. */
  lemma See(t: Tree, entries: Tree, observed: set<RelPath>, pending: set<RelPath>, rest: set<RelPath>, child: RelPath)
    requires Walk(t, entries, observed, pending, rest) && child in rest
    requires child in entries && t[child] == entries[child]
    ensures Walk(
      t, entries, observed + {child}, if t[child].Directory? then pending + {child} else pending, rest - {child})
  {
    assert child != [];
    assert Reached(Parent(child), observed);
  }

  lemma Ahead(t: Tree, entries: Tree, observed: set<RelPath>, pending: set<RelPath>, rest: set<RelPath>)
    requires Walk(t, entries, observed, pending, rest)
    ensures forall p :: p in rest ==> p in t && p !in observed
    ensures observed <= t.Keys && observed <= entries.Keys
    ensures forall p :: p in observed ==> t[p] == entries[p]
  {
  }

  /** A walk that has nothing left to visit has seen everything. */
  lemma {:induction false} WalkIsComplete(t: Tree, entries: Tree, observed: set<RelPath>, p: RelPath)
    requires Walk(t, entries, observed, {}, {}) && p in t
    ensures p in observed
    decreases |p|
  {
    if p !in observed {
      assert IsDirectory(t, Parent(p));
      WalkIsComplete(t, entries, observed, Parent(p));
    }
  }

  /** `_verify_backup_payload`: accepts a tree exactly when it equals the recorded inventory. */
  method VerifyPayload(payload: Tree, entries: Tree) returns (ok: bool)
    ensures ok <==> payload == entries
  {
    var observed: set<RelPath> := {};
    var pending: set<RelPath> := {[]};
    assert Walk(payload, entries, observed, pending, {});
    hide Walk, Rooted;
    while pending != {}
      invariant Walk(payload, entries, observed, pending, {})
      decreases payload.Keys - observed, pending
    {
      var directory :| directory in pending;
      Enter(payload, entries, observed, pending, directory);
      pending := pending - {directory};
      var rest := Children(payload, directory);
      ghost var before, popped := observed, pending;
      while rest != {}
        invariant before <= observed
        invariant Walk(payload, entries, observed, pending, rest)
        invariant observed == before ==> pending == popped
        decreases rest
      {
        Ahead(payload, entries, observed, pending, rest);
        var child :| child in rest;
        if child !in entries || child in observed {
          return false;
        }
        if payload[child] != entries[child] {
          return false;
        }
        See(payload, entries, observed, pending, rest, child);
        rest := rest - {child};
        observed := observed + {child};
        if payload[child].Directory? {
          pending := pending + {child};
        }
      }
      Ahead(payload, entries, observed, pending, {});
    }
    Ahead(payload, entries, observed, {}, {});
    forall p | p in payload ensures p in observed {
      WalkIsComplete(payload, entries, observed, p);
    }
    ok := observed == entries.Keys;
  }
}
