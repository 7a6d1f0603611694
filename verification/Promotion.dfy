/**
 `promote_release` of scripts/promote_release.py: a draft-first promotion under
 a journal that is rewritten after each step, against an arbitrary remote, over
 any number of interrupted and resumed runs.
 */
module Promotion {
  import opened Wrappers
  import opened Faults

  datatype Phase = LocalValidated | RemoteIdentityVerified | DraftCreated | AssetsUploaded | RemoteVerified | Published

  function Rank(phase: Phase): nat {
    match phase
    case LocalValidated => 0
    case RemoteIdentityVerified => 1
    case DraftCreated => 2
    case AssetsUploaded => 3
    case RemoteVerified => 4
    case Published => 5
  }

  /** What validation of an asset directory finds beside the assets' digests. */
  datatype Source = Source(commit: string, tree: string, releaseId: string, components: map<string, string>)

  /** A validated asset set: its source and the digest of each asset. */
  datatype AssetSet = AssetSet(source: Source, assets: map<string, string>)

  /** The remote's id of each asset. */
  type AssetIds = map<string, nat>

  datatype Journal = Journal(
    local: AssetSet,
    phase: Phase,
    draft: Option<nat>,
    uploaded: AssetIds,
    finalAssets: Option<map<string, string>>,
    finalComponents: Option<map<string, string>>,
    redownloaded: bool,
    published: bool,
    diagnostic: bool)

  /** A release as the remote shows it; `provable` that its identity fields are as they must be. */
  datatype Release = Release(id: nat, draft: bool, assets: AssetIds, provable: bool)

  /**
   One run's answers: the outer `None` is a raised error, the inner one a
   missing release.  `served` is the digest of what the download of an asset id
   returns, `certified` what validation of the downloaded directory finds.
   */
  datatype Remote = Remote(
    tag: Option<(string, string)>,
    first: Option<Option<Release>>,
    creates: bool,
    created: Option<Option<Release>>,
    uploads: bool,
    refilled: Option<Option<Release>>,
    served: nat -> Option<string>,
    certified: Option<Source>,
    publishes: bool,
    readBack: Option<Option<Release>>)

  /** What a run asked of the remote. */
  datatype Call = CreateDraft | Upload(names: set<string>) | Download(assets: AssetIds) | Publish(assets: AssetIds)

  function Initial(local: AssetSet): Journal {
    Journal(local, LocalValidated, None, map[], None, None, false, false, false)
  }

  predicate FinalIsLocal(j: Journal) {
    j.finalAssets == Some(j.local.assets) && j.finalComponents == Some(j.local.source.components)
  }

  /** What every version of the journal says truthfully. */
  predicate Truthful(j: Journal) {
    && (Rank(j.phase) >= 4 || j.published || j.redownloaded ==> FinalIsLocal(j))
    && (j.phase == Published ==> j.published)
    && (j.draft.None? <==> Rank(j.phase) <= 1)
    && (Rank(j.phase) >= 3 ==> j.uploaded.Keys == j.local.assets.Keys)
  }

  /** The remote took a published release back to a draft. */
  predicate Unpublished(j: Journal, remote: Remote) {
    j.phase == Published && remote.first.Some? && remote.first.value.Some? && remote.first.value.value.draft
  }

  predicate Forward(before: Journal, after: Journal, remote: Remote) {
    && after.local == before.local
    && (Rank(before.phase) <= Rank(after.phase) || (Unpublished(before, remote) && after.phase == RemoteVerified))
    && (before.draft.Some? ==> after.draft == before.draft)
    && (before.published ==> after.published)
  }

  /** Every one of these assets serves the local bytes, and what was downloaded is certified as of the same source. */
  predicate Redownloaded(remote: Remote, local: AssetSet, assets: AssetIds) {
    && assets.Keys == local.assets.Keys
    && (forall name :: name in assets ==> remote.served(assets[name]) == Some(local.assets[name]))
    && remote.certified == Some(local.source)
  }

  /** `_release_identity` on an answer that must be there. */
  function Identity(answer: Option<Option<Release>>): Option<Release> {
    match answer
    case Some(Some(release)) => if release.provable then Some(release) else None
    case _ => None
  }

  // ----- one run that no journal write disturbs -----

  predicate TagFits(start: Journal, remote: Remote) {
    remote.tag == Some((start.local.source.commit, start.local.source.tree))
  }

  /** The one release this journal may promote: its own draft, or one that it creates because there is none. */
  function Found(start: Journal, remote: Remote): Option<Release> {
    if !TagFits(start, remote) || remote.first.None? then None
    else if remote.first.value.Some? then
      var release := Identity(remote.first);
      if release.Some? && start.draft == Some(release.value.id) then release else None
    else if start.draft.Some? || !remote.creates then None
    else
      var release := Identity(remote.created);
      if release.Some? && release.value.draft then release else None
  }

  function Filled(start: Journal, release: Release, remote: Remote): Option<AssetIds> {
    var names := start.local.assets.Keys;
    if !(release.assets.Keys <= names) then None
    else if release.assets.Keys == names then Some(release.assets)
    else
      var again := Identity(remote.refilled);
      if remote.uploads && again.Some? && again.value.id == release.id && again.value.draft && again.value.assets.Keys == names
      then Some(again.value.assets) else None
  }

  /** The draft's complete assets, if this run gets that far. */
  function Drafted(start: Journal, remote: Remote): Option<AssetIds> {
    var release := Found(start, remote);
    if release.Some? && release.value.draft then Filled(start, release.value, remote) else None
  }

  /** The answers carry this run to a published release. */
  predicate Completes(start: Journal, remote: Remote) {
    var release := Found(start, remote);
    && release.Some?
    && if !release.value.draft then
         Rank(start.phase) >= 4 && release.value.assets == start.uploaded
       else
         var assets := Filled(start, release.value, remote);
         && assets.Some? && Redownloaded(remote, start.local, assets.value) && remote.publishes
         && Identity(remote.readBack) == Some(Release(release.value.id, false, assets.value, true))
  }

  function Creating(start: Journal, remote: Remote): seq<Call> {
    if TagFits(start, remote) && remote.first == Some(None) && start.draft.None? then [CreateDraft] else []
  }

  function Sending(start: Journal, release: Release): seq<Call> {
    if release.assets.Keys < start.local.assets.Keys then [Upload(start.local.assets.Keys - release.assets.Keys)] else []
  }

  function Publishing(start: Journal, assets: AssetIds, remote: Remote): seq<Call> {
    [Download(assets)] + if Redownloaded(remote, start.local, assets) then [Publish(assets)] else []
  }

  /** Everything a run asks of the remote, in order; an interrupted run asks a prefix of it. */
  function Calls(start: Journal, remote: Remote): seq<Call> {
    var release := Found(start, remote);
    Creating(start, remote) +
    if release.None? || !release.value.draft then []
    else
      var assets := Filled(start, release.value, remote);
      Sending(start, release.value) + if assets.None? then [] else Publishing(start, assets.value, remote)
  }

  function Uploaded(journal: Journal, assets: AssetIds): Journal {
    journal.(
      uploaded := assets,
      phase := if Rank(journal.phase) >= 3 then journal.phase else AssetsUploaded,
      diagnostic := false)
  }

  function Verified(journal: Journal): Journal {
    journal.(
      finalAssets := Some(journal.local.assets), finalComponents := Some(journal.local.source.components),
      redownloaded := true, phase := RemoteVerified, diagnostic := false)
  }

  /** The journal once the release is found. */
  function Located(start: Journal, remote: Remote): Journal {
    if !TagFits(start, remote) then start
    else
      var release := Found(start, remote);
      if release.Some? && start.draft.None? then
        start.(draft := Some(release.value.id), phase := DraftCreated, diagnostic := false)
      else if Rank(start.phase) < 1 then start.(phase := RemoteIdentityVerified, diagnostic := false)
      else start
  }

  /** How far the journal gets, before the diagnostic of a failed run. */
  function Reached(start: Journal, remote: Remote): Journal {
    var located := Located(start, remote);
    var assets := Drafted(start, remote);
    if Completes(start, remote) && assets.None? then
      located.(phase := Published, published := true, diagnostic := false)
    else if assets.None? then located
    else
      var filled := Uploaded(located, assets.value);
      if !Redownloaded(remote, start.local, assets.value) then filled
      else if !Completes(start, remote) then Verified(filled)
      else Verified(filled).(phase := Published, published := true)
  }

  /** The durable journal after an undisturbed run. */
  function After(start: Journal, remote: Remote): Journal {
    if Completes(start, remote) then Reached(start, remote) else Reached(start, remote).(diagnostic := true)
  }

  // ----- what a run asks of the remote -----

  /**
   What a run needs, answer by answer, to end with this release published under
   these ids: our own tag; a release of proven identity, the recorded draft or
   one created because there was none; and then either the publication that was
   verified earlier, or a complete draft that serves the local bytes, is
   published, and reads back the same.
   */
  predicate Earned(start: Journal, remote: Remote, release: Release, assets: AssetIds) {
    && remote.tag == Some((start.local.source.commit, start.local.source.tree))
    && release.provable
    && ((remote.first == Some(Some(release)) && start.draft == Some(release.id))
        || (remote.first == Some(None) && start.draft.None? && remote.creates
            && remote.created == Some(Some(release)) && release.draft))
    && if !release.draft then
         start.phase in {RemoteVerified, Published} && release.assets == start.uploaded && assets == start.uploaded
       else
         && assets.Keys == start.local.assets.Keys
         && (if release.assets.Keys == start.local.assets.Keys then assets == release.assets
             else release.assets.Keys <= start.local.assets.Keys && remote.uploads
                  && remote.refilled == Some(Some(Release(release.id, true, assets, true))))
         && (forall name :: name in assets ==> remote.served(assets[name]) == Some(start.local.assets[name]))
         && remote.certified == Some(start.local.source)
         && remote.publishes && remote.readBack == Some(Some(Release(release.id, false, assets, true)))
  }

  lemma FoundMeans(start: Journal, remote: Remote, release: Release)
    ensures
      Found(start, remote) == Some(release) <==>
      && remote.tag == Some((start.local.source.commit, start.local.source.tree))
      && release.provable
      && ((remote.first == Some(Some(release)) && start.draft == Some(release.id))
          || (remote.first == Some(None) && start.draft.None? && remote.creates
              && remote.created == Some(Some(release)) && release.draft))
  {
  }

  lemma FilledMeans(start: Journal, remote: Remote, release: Release, assets: AssetIds)
    ensures
      Filled(start, release, remote) == Some(assets) <==>
      && assets.Keys == start.local.assets.Keys
      && if release.assets.Keys == start.local.assets.Keys then assets == release.assets
         else release.assets.Keys <= start.local.assets.Keys && remote.uploads
              && remote.refilled == Some(Some(Release(release.id, true, assets, true)))
  {
  }

  /** What a completing run records. */
  lemma RecordedIds(start: Journal, remote: Remote)
    requires Truthful(start) && Completes(start, remote)
    ensures
      var release := Found(start, remote).value;
      After(start, remote).uploaded ==
      if release.draft then Filled(start, release, remote).value else start.uploaded
  {
    hide Found, Filled, Redownloaded, Identity;
    LocatedIsTruthful(start, remote);
  }

  lemma EarnedMeansCompletes(start: Journal, remote: Remote, release: Release, assets: AssetIds)
    requires Truthful(start)
    ensures
      Earned(start, remote, release, assets) <==>
      && Completes(start, remote) && Found(start, remote) == Some(release)
      && assets == After(start, remote).uploaded
  {
    FoundMeans(start, remote, release);
    FilledMeans(start, remote, release, assets);
    if Completes(start, remote) {
      RecordedIds(start, remote);
    }
    hide Found, Filled, After, Truthful, TagFits;
  }

  /** A foreign tag stops the run before it asks for anything or changes anything. */
  lemma AForeignTagStops(start: Journal, remote: Remote)
    ensures Calls(start, remote) != [] ==> remote.tag == Some((start.local.source.commit, start.local.source.tree))
    ensures remote.tag != Some((start.local.source.commit, start.local.source.tree)) ==>
      After(start, remote) == start.(diagnostic := true)
  {
  }

  /** The assets of the remote draft after these calls, if an upload gives every asset it sends a new id. */
  function Landed(assets: AssetIds, calls: seq<Call>, ids: string -> nat): AssetIds {
    if calls == [] then assets
    else
      var before := Landed(assets, calls[..|calls| - 1], ids);
      match calls[|calls| - 1]
      case Upload(names) => before + map name | name in names :: ids(name)
      case _ => before
  }

  /** No upload among these calls sends one of these assets. */
  predicate Spares(calls: seq<Call>, names: set<string>) {
    forall i :: 0 <= i < |calls| && calls[i].Upload? ==> calls[i].names !! names
  }

  lemma {:induction false} SparedAssetsKeepTheirIds(assets: AssetIds, calls: seq<Call>, ids: string -> nat)
    requires Spares(calls, assets.Keys)
    ensures assets.Keys <= Landed(assets, calls, ids).Keys
    ensures forall name :: name in assets ==> Landed(assets, calls, ids)[name] == assets[name]
    decreases |calls|
  {
    if calls != [] {
      SparedAssetsKeepTheirIds(assets, calls[..|calls| - 1], ids);
    }
  }

  /**
   However far a run gets, it sends exactly the assets that the draft lacks, if
   any, and every asset the remote showed in the draft keeps its id.
   */
  lemma NothingIsSentAgain(start: Journal, remote: Remote, calls: seq<Call>, ids: string -> nat)
    requires calls <= Calls(start, remote) && Found(start, remote).Some?
    ensures
      var missing := start.local.assets.Keys - Found(start, remote).value.assets.Keys;
      forall i :: 0 <= i < |calls| && calls[i].Upload? ==> calls[i].names == missing && missing != {}
    ensures
      var shown := Found(start, remote).value.assets;
      forall name :: name in shown ==> name in Landed(shown, calls, ids) && Landed(shown, calls, ids)[name] == shown[name]
  {
    var shown := Found(start, remote).value.assets;
    var missing := start.local.assets.Keys - shown.Keys;
    forall i | 0 <= i < |calls| && calls[i].Upload?
      ensures calls[i].names !! shown.Keys && calls[i].names == missing && missing != {}
    {
      assert forall name :: name in start.local.assets.Keys ==> name in missing || name in shown.Keys;
      assert calls[i] == Calls(start, remote)[i];
    }
    SparedAssetsKeepTheirIds(shown, calls, ids);
  }

  /** A draft is created only where there is no release; a publication follows the matching download of the same ids. */
  lemma PublishesOnlyWhatItChecked(start: Journal, remote: Remote, calls: seq<Call>, i: nat)
    requires calls <= Calls(start, remote) && i < |calls|
    ensures calls[i] == CreateDraft ==> remote.first == Some(None) && start.draft.None? && i == 0
    ensures calls[i].Publish? ==>
      && 0 < i && calls[i - 1] == Download(calls[i].assets)
      && Redownloaded(remote, start.local, calls[i].assets)
  {
    assert calls[i] == Calls(start, remote)[i];
    if i > 0 {
      assert calls[i - 1] == Calls(start, remote)[i - 1];
    }
  }

  // ----- are the accepted assets the downloaded ones? -----

  /** One run: where it started, what it was answered, and how far it asked. */
  datatype Visit = Visit(start: Journal, remote: Remote, calls: seq<Call>)

  /** In some run exactly these assets were downloaded in full and matched the local ones. */
  ghost predicate Checked(visits: seq<Visit>, assets: AssetIds) {
    exists i :: 0 <= i < |visits|
      && Download(assets) in visits[i].calls && Redownloaded(visits[i].remote, visits[i].start.local, assets)
  }

  /** A journal that says remotely verified names assets that were. */
  ghost predicate Backed(j: Journal, visits: seq<Visit>) {
    Rank(j.phase) >= 4 ==> Checked(visits, j.uploaded)
  }

  /** A verified journal meets a draft whose ids were never checked; recording them forgets the checked ones. */
  ghost predicate MeetsStrangers(start: Journal, remote: Remote, visits: seq<Visit>) {
    Rank(start.phase) >= 4 && Drafted(start, remote).Some? && !Checked(visits, Drafted(start, remote).value)
  }

  /** Why a version of the journal may say remotely verified. */
  predicate Justified(start: Journal, j: Journal, remote: Remote, calls: seq<Call>) {
    Rank(j.phase) >= 4 ==>
      || (Download(j.uploaded) in calls && Redownloaded(remote, start.local, j.uploaded))
      || (Rank(start.phase) >= 4 && (j.uploaded == start.uploaded || Drafted(start, remote) == Some(j.uploaded)))
  }

  lemma AskingMoreJustifiesNoLess(start: Journal, j: Journal, remote: Remote, calls: seq<Call>, more: seq<Call>)
    requires Justified(start, j, remote, calls)
    ensures Justified(start, j, remote, calls + more)
  {
  }

  lemma CheckedStays(visits: seq<Visit>, visit: Visit, assets: AssetIds)
    ensures Checked(visits + [visit], assets) <==>
            || Checked(visits, assets)
            || (Download(assets) in visit.calls && Redownloaded(visit.remote, visit.start.local, assets))
  {
    var all := visits + [visit];
    assert all[|visits|] == visit;
    if Checked(visits, assets) {
      var i :| 0 <= i < |visits|
        && Download(assets) in visits[i].calls && Redownloaded(visits[i].remote, visits[i].start.local, assets);
      assert all[i] == visits[i];
    }
  }

  /** Wherever a run is cut off, the journal stays backed unless it met strangers. */
  lemma BackingSurvives(start: Journal, j: Journal, remote: Remote, calls: seq<Call>, visits: seq<Visit>)
    requires Backed(start, visits) && Justified(start, j, remote, calls) && !MeetsStrangers(start, remote, visits)
    ensures Backed(j, visits + [Visit(start, remote, calls)])
  {
    CheckedStays(visits, Visit(start, remote, calls), j.uploaded);
  }

  /**
   What an undisturbed run leaves, from any journal.  Without a complete draft
   nothing changes; with one, the journal is backed afterwards exactly unless
   the run met strangers that do not match either.
   */
  lemma BackedExactly(start: Journal, remote: Remote, visits: seq<Visit>)
    requires Truthful(start)
    ensures
      Backed(After(start, remote), visits + [Visit(start, remote, Calls(start, remote))]) <==>
      match Drafted(start, remote)
      case None => Backed(start, visits)
      case Some(assets) => !MeetsStrangers(start, remote, visits) || Redownloaded(remote, start.local, assets)
  {
    var visit := Visit(start, remote, Calls(start, remote));
    var after := After(start, remote);
    CheckedStays(visits, visit, after.uploaded);
    DownloadsInCalls(start, remote, after.uploaded);
  }

  /** What undisturbed runs one after the other leave, and their visits. */
  function AfterAll(start: Journal, remotes: seq<Remote>): (r: (Journal, seq<Visit>))
    ensures |r.1| == |remotes|
  {
    if remotes == [] then (start, [])
    else
      var last := |remotes| - 1;
      var before := AfterAll(start, remotes[..last]);
      (After(before.0, remotes[last]),
        before.1 + [Visit(before.0, remotes[last], Calls(before.0, remotes[last]))])
  }

  lemma LocatedIsTruthful(start: Journal, remote: Remote)
    requires Truthful(start)
    ensures Truthful(Located(start, remote)) && Located(start, remote).local == start.local
    ensures Found(start, remote).Some? ==> Rank(Located(start, remote).phase) >= 2
    ensures Rank(start.phase) >= 4 ==> Located(start, remote) == start
  {
    hide Identity;
  }

  lemma DraftedIsComplete(start: Journal, remote: Remote)
    ensures Drafted(start, remote).Some? ==>
      Found(start, remote).Some? && Drafted(start, remote).value.Keys == start.local.assets.Keys
    ensures Completes(start, remote) && Drafted(start, remote).None? ==> Rank(start.phase) >= 4
  {
    hide Identity, Found, Redownloaded;
  }

  lemma UploadedIsTruthful(j: Journal, assets: AssetIds)
    requires Truthful(j) && Rank(j.phase) >= 2 && assets.Keys == j.local.assets.Keys
    ensures Truthful(Uploaded(j, assets)) && Rank(Uploaded(j, assets).phase) >= 3
  {
  }

  lemma VerifiedIsTruthful(j: Journal)
    requires Truthful(j) && Rank(j.phase) >= 3
    ensures Truthful(Verified(j)) && Truthful(Verified(j).(phase := Published, published := true))
  {
  }

  lemma PublishedIsTruthful(j: Journal)
    requires Truthful(j) && Rank(j.phase) >= 4
    ensures Truthful(j.(phase := Published, published := true, diagnostic := false))
  {
  }

  lemma ReachedIsTruthful(start: Journal, remote: Remote)
    requires Truthful(start)
    ensures Truthful(Reached(start, remote))
  {
    LocatedIsTruthful(start, remote);
    DraftedIsComplete(start, remote);
    hide Located, Found, Drafted, Completes, Redownloaded, Truthful, Uploaded, Verified;
    var assets := Drafted(start, remote);
    if assets.Some? {
      UploadedIsTruthful(Located(start, remote), assets.value);
      VerifiedIsTruthful(Uploaded(Located(start, remote), assets.value));
    } else if Completes(start, remote) {
      PublishedIsTruthful(start);
    }
  }

  lemma AfterKeepsTruth(start: Journal, remote: Remote)
    requires Truthful(start)
    ensures Truthful(After(start, remote))
  {
    hide Reached, Completes;
    ReachedIsTruthful(start, remote);
  }

  lemma {:induction false} VisitsInOrder(start: Journal, remotes: seq<Remote>, k: nat)
    requires k <= |remotes| && Truthful(start)
    ensures Truthful(AfterAll(start, remotes).0)
    ensures AfterAll(start, remotes).1[..k] == AfterAll(start, remotes[..k]).1
    ensures k < |remotes| ==>
      AfterAll(start, remotes).1[k].start == AfterAll(start, remotes[..k]).0
      && AfterAll(start, remotes).1[k].remote == remotes[k]
    decreases |remotes|
  {
    hide After, Calls, Truthful;
    if remotes != [] {
      var last := |remotes| - 1;
      VisitsInOrder(start, remotes[..last], if k < last then k else last);
      AfterKeepsTruth(AfterAll(start, remotes[..last]).0, remotes[last]);
      if k < last {
        assert remotes[..last][..k] == remotes[..k];
      } else if k == |remotes| {
        assert remotes[..k] == remotes;
      }
    }
  }

  /**
   Over any sequence of undisturbed runs, the last one that saw a complete
   draft decides whether the recorded ids were ever checked.
   */
  lemma {:induction false} TheLastDraftDecides(start: Journal, remotes: seq<Remote>, k: nat)
    requires Truthful(start) && k < |remotes|
    requires Drafted(AfterAll(start, remotes).1[k].start, remotes[k]).Some?
    requires forall i :: k < i < |remotes| ==> Drafted(AfterAll(start, remotes).1[i].start, remotes[i]).None?
    ensures
      var visits := AfterAll(start, remotes).1;
      Backed(AfterAll(start, remotes).0, visits) <==>
      !MeetsStrangers(visits[k].start, remotes[k], visits[..k])
      || Redownloaded(remotes[k], visits[k].start.local, Drafted(visits[k].start, remotes[k]).value)
    decreases |remotes|
  {
    hide After, Calls, Truthful, Backed, MeetsStrangers, Drafted, Redownloaded;
    var last := |remotes| - 1;
    var before := AfterAll(start, remotes[..last]);
    VisitsInOrder(start, remotes[..last], last);
    VisitsInOrder(start, remotes, last);
    BackedExactly(before.0, remotes[last], before.1);
    if k < last {
      forall i | 0 <= i < last ensures AfterAll(start, remotes).1[i] == before.1[i] {
      }
      TheLastDraftDecides(start, remotes[..last], k);
      assert before.1[..k] == AfterAll(start, remotes).1[..k];
    } else {
      assert AfterAll(start, remotes).1[..k] == before.1;
    }
  }

  lemma DownloadsInCalls(start: Journal, remote: Remote, assets: AssetIds)
    ensures Download(assets) in Calls(start, remote) <==> Drafted(start, remote) == Some(assets)
  {
    var release := Found(start, remote);
    if release.Some? && release.value.draft && Filled(start, release.value, remote).Some? {
      var filled := Filled(start, release.value, remote).value;
      assert Publishing(start, filled, remote)[0] == Download(filled);
    }
  }

  /**
   What a completing run accepts was checked, in it or before it, exactly if the
   release was still a draft or the journal was backed.
   */
  lemma AcceptedAssetsWereChecked(start: Journal, remote: Remote, visits: seq<Visit>)
    requires Truthful(start) && Completes(start, remote)
    ensures
      Checked(visits + [Visit(start, remote, Calls(start, remote))], After(start, remote).uploaded) <==>
      Found(start, remote).value.draft || Backed(start, visits)
  {
    var visit := Visit(start, remote, Calls(start, remote));
    CheckedStays(visits, visit, After(start, remote).uploaded);
    DownloadsInCalls(start, remote, After(start, remote).uploaded);
  }

  // ----- a run that accepts assets nobody checked -----

  const SOURCE := Source("commit", "tree", "release", map[])
  const LOCAL := AssetSet(SOURCE, map["asset" := "bytes"])

  function Shows(id: nat, draft: bool, asset: nat, bytes: string): Remote {
    var shown := Some(Some(Release(id, draft, map["asset" := asset], true)));
    Remote(Some(("commit", "tree")), shown, false, None, false, None, i => Some(bytes), Some(SOURCE), false, None)
  }

  /** The first run, which creates the draft, fills and verifies it, and fails to publish. */
  const CREATES := Shows(1, true, 7, "bytes").(
    first := Some(None), creates := true, created := Some(Some(Release(1, true, map["asset" := 7], true))))

  /** The second, which finds other bytes in the draft. */
  const REPLACED := Shows(1, true, 8, "other")

  /** The third, which finds those published. */
  const PUBLISHED := Shows(1, false, 8, "other")

  const CHECKED: AssetIds := map["asset" := 7]
  const STRANGE: AssetIds := map["asset" := 8]

  const FIRST := Initial(LOCAL)
  const SECOND := Verified(Uploaded(FIRST.(draft := Some(1), phase := DraftCreated), CHECKED)).(diagnostic := true)
  const THIRD := SECOND.(uploaded := STRANGE)

  lemma TheFirstRunVerifies()
    ensures After(FIRST, CREATES) == SECOND && Drafted(FIRST, CREATES) == Some(CHECKED)
  {
    assert CHECKED["asset"] == 7;
    assert Found(FIRST, CREATES) == Some(Release(1, true, CHECKED, true));
    assert Redownloaded(CREATES, LOCAL, CHECKED);
  }

  lemma TheSecondRunForgets()
    ensures After(SECOND, REPLACED) == THIRD && !Redownloaded(REPLACED, LOCAL, STRANGE)
  {
    assert STRANGE["asset"] == 8 && REPLACED.served(8) == Some("other");
    assert Found(SECOND, REPLACED) == Some(Release(1, true, STRANGE, true));
    assert Drafted(SECOND, REPLACED) == Some(STRANGE);
  }

  /**
   Assets are verified; then others stand in the draft, do not match, and are
   recorded all the same; and once these are published, the third run accepts
   them, though no run ever saw them match.
   */
  lemma ReplacedAssetsAreAccepted()
    ensures After(FIRST, CREATES) == SECOND && After(SECOND, REPLACED) == THIRD
    ensures Completes(THIRD, PUBLISHED) && After(THIRD, PUBLISHED).published
    ensures After(THIRD, PUBLISHED).uploaded == STRANGE
    ensures !Checked(
              [Visit(FIRST, CREATES, Calls(FIRST, CREATES)), Visit(SECOND, REPLACED, Calls(SECOND, REPLACED)),
               Visit(THIRD, PUBLISHED, Calls(THIRD, PUBLISHED))],
              STRANGE)
  {
    TheFirstRunVerifies();
    TheSecondRunForgets();
    TheThirdRunAccepts();
    DownloadsInCalls(FIRST, CREATES, STRANGE);
    assert CHECKED["asset"] == 7 && STRANGE["asset"] == 8;
    hide Calls, Redownloaded, After, Completes;
  }

  lemma TheThirdRunAccepts()
    ensures Completes(THIRD, PUBLISHED) && !Redownloaded(PUBLISHED, LOCAL, STRANGE)
    ensures After(THIRD, PUBLISHED).published && After(THIRD, PUBLISHED).uploaded == STRANGE
  {
    assert STRANGE["asset"] == 8 && PUBLISHED.served(8) == Some("other");
    assert Found(THIRD, PUBLISHED) == Some(Release(1, false, STRANGE, true));
  }

  // ----- the promoter -----

  class Promoter {
    var record: Option<Journal>
    var down: bool
    var clock: nat
    var fates: nat -> Fate
    /** What the present run has asked of the remote. */
    ghost var calls: seq<Call>
    ghost var visits: seq<Visit>

    ghost predicate Good()
      reads this
    {
      && (record.Some? ==> Truthful(record.value))
      && forall i :: 0 <= i < |visits| ==> visits[i].calls <= Calls(visits[i].start, visits[i].remote)
    }

    ghost predicate Calm()
      reads this
    {
      !down && forall n :: n >= clock ==> fates(n) == Works
    }

    constructor ()
      ensures Good() && record.None? && visits == []
    {
      record, calls, visits := None, [], [];
      down, clock, fates := false, 0, n => Works;
    }

    method Write(journal: Journal) returns (step: Step)
      requires Good() && Truthful(journal)
      modifies this`record, this`down, this`clock
      ensures Good() && (record == old(record) || record == Some(journal))
      ensures step == Done ==> record == Some(journal)
      ensures old(down) ==> down && record == old(record)
      ensures old(Calm()) ==> Calm() && step == Done
    {
      if down {
        return Died;
      }
      var fate := fates(clock);
      clock := clock + 1;
      down := fate.Dies?;
      if fate == Works || fate.applied {
        record := Some(journal);
      }
      return if fate == Works then Done else if fate.Dies? then Died else Failed;
    }

    /** Both the journal in memory and the durable one are justified steps forward from the run's start. */
    ghost predicate Ahead(start: Journal, journal: Journal, remote: Remote)
      reads this
    {
      && Good() && Truthful(journal) && Forward(start, journal, remote) && Justified(start, journal, remote, calls)
      && record.Some? && Forward(start, record.value, remote) && Justified(start, record.value, remote, calls)
    }

    /** Write the journal and go on, or stop with it in memory. */
    method Save(start: Journal, journal: Journal, remote: Remote) returns (ok: bool)
      requires Ahead(start, journal, remote)
      modifies this`record, this`down, this`clock
      ensures Ahead(start, journal, remote)
      ensures ok ==> record == Some(journal)
      ensures old(Calm()) ==> Calm() && ok
    {
      var step := Write(journal);
      ok := step == Done;
    }

    /** The tag, and the release that this journal may promote. */
    method FindDraft(start: Journal, remote: Remote) returns (ok: bool, journal: Journal, release: Option<Release>)
      requires Ahead(start, start, remote) && calls == []
      modifies this`record, this`down, this`clock, this`calls
      ensures Ahead(start, journal, remote)
      ensures calls <= Creating(start, remote) && (ok ==> calls == Creating(start, remote))
      ensures ok ==> release.Some? && release == Found(start, remote) && journal == Located(start, remote)
      ensures ok ==> journal.draft == Some(release.value.id)
      ensures ok && !release.value.draft ==> start.draft.Some?
      ensures old(Calm()) ==>
        && Calm() && (ok <==> Found(start, remote).Some?)
        && journal == Located(start, remote) && calls == Creating(start, remote)
    {
      hide Redownloaded, Drafted, Calls;
      journal, release, ok := start, None, false;
      if remote.tag != Some((start.local.source.commit, start.local.source.tree)) {
        return;
      }
      if Rank(journal.phase) < 1 {
        journal := journal.(phase := RemoteIdentityVerified, diagnostic := false);
        var saved := Save(start, journal, remote);
        if !saved {
          return;
        }
      }
      if remote.first.None? {
        return;
      }
      var recorded := journal.draft;
      var found := remote.first;
      var createdHere := false;
      if found.value.None? {
        if recorded.Some? {
          return;
        }
        calls := calls + [CreateDraft];
        if !remote.creates {
          return;
        }
        createdHere, found := true, remote.created;
      }
      release := Identity(found);
      if release.None? {
        return;
      }
      if recorded.None? {
        // An unrecorded release is somebody else's, or one whose recording a crash cut off.
        if !createdHere || !release.value.draft {
          return;
        }
        journal := journal.(draft := Some(release.value.id), phase := DraftCreated, diagnostic := false);
        ok := Save(start, journal, remote);
        return;
      }
      ok := release.value.id == recorded.value;
    }

    /** Send what is missing, and see the draft again. */
    method Refill(start: Journal, release: Release, remote: Remote) returns (assets: Option<AssetIds>)
      requires release.assets.Keys <= start.local.assets.Keys
      modifies this`calls
      ensures calls == old(calls) + Sending(start, release)
      ensures assets == Filled(start, release, remote)
    {
      var missing := start.local.assets.Keys - release.assets.Keys;
      assert start.local.assets.Keys == missing + release.assets.Keys;
      if missing == {} {
        return Some(release.assets);
      }
      assert missing <= start.local.assets.Keys && missing !! release.assets.Keys;
      calls := calls + [Upload(missing)];
      if !remote.uploads {
        return None;
      }
      var again := Identity(remote.refilled);
      if again.None? || again.value.id != release.id || !again.value.draft {
        return None;
      }
      if again.value.assets.Keys != start.local.assets.Keys {
        return None;
      }
      return Some(again.value.assets);
    }

    lemma Asking(start: Journal, journal: Journal, remote: Remote, more: seq<Call>)
      requires Ahead(start, journal, remote)
      ensures Justified(start, journal, remote, calls + more) && Justified(start, record.value, remote, calls + more)
    {
      AskingMoreJustifiesNoLess(start, journal, remote, calls, more);
      AskingMoreJustifiesNoLess(start, record.value, remote, calls, more);
    }

    lemma FilledIsComplete(start: Journal, release: Release, remote: Remote)
      ensures Filled(start, release, remote).Some? ==>
        release.assets.Keys <= start.local.assets.Keys
        && Filled(start, release, remote).value.Keys == start.local.assets.Keys
      ensures !(release.assets.Keys <= start.local.assets.Keys) ==> Sending(start, release) == []
    {
    }

    /** Fill in what is missing; what is there is never sent again. */
    method FillDraft(start: Journal, journal0: Journal, release: Release, remote: Remote)
      returns (ok: bool, journal: Journal, assets: AssetIds)
      requires Ahead(start, journal0, remote) && Rank(journal0.phase) >= 2 && journal0.draft.Some?
      requires journal0 == Located(start, remote) && Found(start, remote) == Some(release) && release.draft
      modifies this`record, this`down, this`clock, this`calls
      ensures Ahead(start, journal, remote)
      ensures old(calls) <= calls && calls[|old(calls)|..] <= Sending(start, release)
      ensures ok ==> calls == old(calls) + Sending(start, release)
      ensures ok ==> Filled(start, release, remote) == Some(assets) && record == Some(journal)
      ensures ok ==> journal == Uploaded(journal0, assets)
      ensures old(Calm()) ==>
        && Calm() && (ok <==> Filled(start, release, remote).Some?)
        && calls == old(calls) + Sending(start, release)
        && (!ok ==> journal == journal0)
    {
      hide Filled, Found, Calls, Located, Sending, Truthful, Justified;
      FilledIsComplete(start, release, remote);
      journal, assets, ok := journal0, release.assets, false;
      if !(assets.Keys <= journal.local.assets.Keys) {
        return;
      }
      Asking(start, journal, remote, Sending(start, release));
      var filled := Refill(start, release, remote);
      if filled.None? {
        return;
      }
      assets := filled.value;
      journal := journal.(
        uploaded := assets,
        phase := if Rank(journal.phase) >= 3 then journal.phase else AssetsUploaded,
        diagnostic := false);
      FilledIsAhead(start, journal0, release, assets, remote);
      ok := Save(start, journal, remote);
    }

    lemma FilledIsAhead(start: Journal, journal: Journal, release: Release, assets: AssetIds, remote: Remote)
      requires Ahead(start, journal, remote) && Rank(journal.phase) >= 2 && journal == Located(start, remote)
      requires Found(start, remote) == Some(release) && release.draft && Filled(start, release, remote) == Some(assets)
      ensures Ahead(start, Uploaded(journal, assets), remote)
    {
      hide Filled, Found, Calls;
      FilledIsComplete(start, release, remote);
    }

    lemma VerifiedIsAhead(start: Journal, journal: Journal, remote: Remote)
      requires Ahead(start, journal, remote) && Rank(journal.phase) >= 3
      requires Download(journal.uploaded) in calls && Redownloaded(remote, start.local, journal.uploaded)
      requires Rank(start.phase) == 5 ==> Unpublished(start, remote)
      ensures Ahead(start, Verified(journal), remote)
      ensures Ahead(start, Verified(journal).(phase := Published, published := true), remote)
    {
      hide Drafted, Calls, Redownloaded;
    }

    /** Download each asset by its id; `None` when a download raises. */
    method Fetch(assets: AssetIds, remote: Remote) returns (digests: Option<map<string, string>>)
      modifies this`calls
      ensures calls == old(calls) + [Download(assets)]
      ensures digests.None? <==> exists name :: name in assets && remote.served(assets[name]).None?
      ensures digests.Some? ==>
        digests.value.Keys == assets.Keys
        && forall name :: name in assets ==> remote.served(assets[name]) == Some(digests.value[name])
    {
      calls := calls + [Download(assets)];
      var names := assets.Keys;
      var got: map<string, string> := map[];
      while names != {}
        invariant names <= assets.Keys && got.Keys == assets.Keys - names
        invariant forall name :: name in got ==> remote.served(assets[name]) == Some(got[name])
        decreases names
      {
        var name :| name in names;
        var answer := remote.served(assets[name]);
        if answer.None? {
          return None;
        }
        got := got[name := answer.value];
        names := names - {name};
      }
      return Some(got);
    }

    /** Download everything again and compare. */
    method Verify(local: AssetSet, assets: AssetIds, remote: Remote) returns (final: Option<AssetSet>)
      requires assets.Keys == local.assets.Keys
      modifies this`calls
      ensures calls == old(calls) + [Download(assets)]
      ensures final == if Redownloaded(remote, local, assets) then Some(local) else None
    {
      var digests := Fetch(assets, remote);
      if digests.None? || remote.certified.None? {
        return None;
      }
      if digests.value != local.assets {
        assert exists name :: name in assets && digests.value[name] != local.assets[name];
        return None;
      }
      if remote.certified.value != local.source {
        return None;
      }
      return Some(AssetSet(remote.certified.value, digests.value));
    }

    /** Download everything again, compare, record, publish, read back. */
    method VerifyAndPublish(start: Journal, journal0: Journal, release: Release, assets: AssetIds, remote: Remote)
      returns (ok: bool, journal: Journal)
      requires Ahead(start, journal0, remote) && Rank(journal0.phase) >= 3 && journal0.draft.Some?
      requires assets.Keys == start.local.assets.Keys && journal0.uploaded == assets
      requires Rank(start.phase) == 5 ==> Unpublished(start, remote)
      modifies this`record, this`down, this`clock, this`calls
      ensures Ahead(start, journal, remote)
      ensures old(calls) <= calls && calls[|old(calls)|..] <= Publishing(start, assets, remote)
      ensures ok ==> record == Some(journal) && calls == old(calls) + Publishing(start, assets, remote)
      ensures ok ==>
        && Redownloaded(remote, start.local, assets) && remote.publishes
        && Identity(remote.readBack) == Some(Release(release.id, false, assets, true))
        && journal == Verified(journal0).(phase := Published, published := true)
      ensures old(Calm()) ==>
        && Calm()
        && (ok <==> Redownloaded(remote, start.local, assets) && remote.publishes
                    && Identity(remote.readBack) == Some(Release(release.id, false, assets, true)))
        && (!ok ==> journal == if Redownloaded(remote, start.local, assets) then Verified(journal0) else journal0)
        && calls == old(calls) + Publishing(start, assets, remote)
    {
      hide Redownloaded, Calls, Identity, Truthful, Justified;
      journal, ok := journal0, false;
      Asking(start, journal, remote, [Download(assets)]);
      var final := Verify(journal.local, assets, remote);
      if final.None? {
        return;
      }
      journal := journal.(
        finalAssets := Some(final.value.assets), finalComponents := Some(final.value.source.components),
        redownloaded := true, phase := RemoteVerified, diagnostic := false);
      assert Download(assets) in calls;
      VerifiedIsAhead(start, journal0, remote);
      var saved := Save(start, journal, remote);
      if !saved {
        return;
      }
      Asking(start, journal.(phase := Published, published := true), remote, [Publish(assets)]);
      calls := calls + [Publish(assets)];
      var proven := PublishNow(release, assets, remote);
      if !proven {
        return;
      }
      journal := journal.(phase := Published, published := true, diagnostic := false);
      ok := Save(start, journal, remote);
    }

    /** Publish, read back, compare. */
    method PublishNow(release: Release, assets: AssetIds, remote: Remote) returns (proven: bool)
      ensures proven <==>
              remote.publishes && Identity(remote.readBack) == Some(Release(release.id, false, assets, true))
    {
      if !remote.publishes {
        return false;
      }
      var published := Identity(remote.readBack);
      if published.None? {
        return false;
      }
      return published.value.id == release.id && !published.value.draft && published.value.assets == assets;
    }

    /** From the draft that was found to its publication. */
    method CompleteDraft(start: Journal, journal0: Journal, release: Release, remote: Remote)
      returns (ok: bool, journal: Journal)
      requires Ahead(start, journal0, remote) && Rank(journal0.phase) >= 2 && journal0.draft.Some?
      requires journal0 == Located(start, remote) && Found(start, remote) == Some(release) && release.draft
      requires calls == Creating(start, remote) && Truthful(start)
      modifies this`record, this`down, this`clock, this`calls
      ensures Ahead(start, journal, remote)
      ensures calls <= Calls(start, remote)
      ensures ok ==> Completes(start, remote) && journal == Reached(start, remote) && record == Some(journal)
      ensures ok ==> calls == Calls(start, remote) && journal.phase == Published && journal.published
      ensures old(Calm()) ==>
        && Calm() && (ok <==> Completes(start, remote))
        && journal == Reached(start, remote) && calls == Calls(start, remote)
    {
      hide Redownloaded, Located, Found, Justified, Truthful, FinalIsLocal, Good, Identity, Creating, Sending, Publishing;
      TakenUp(start, remote);
      ghost var created := calls;
      var filled, journal2, assets := FillDraft(start, journal0, release, remote);
      if !filled {
        return false, journal2;
      }
      ok, journal := VerifyAndPublish(start, journal2, release, assets, remote);
    }

    /** A draft found under a published journal was taken back. */
    lemma TakenUp(start: Journal, remote: Remote)
      requires Truthful(start) && Found(start, remote).Some? && Found(start, remote).value.draft
      ensures Rank(start.phase) == 5 ==> Unpublished(start, remote)
    {
    }

    /** The body of the `try`. */
    method Attempt(start: Journal, remote: Remote) returns (ok: bool, journal: Journal)
      requires Ahead(start, start, remote) && calls == []
      modifies this`record, this`down, this`clock, this`calls
      ensures Ahead(start, journal, remote)
      ensures calls <= Calls(start, remote)
      ensures ok ==> Completes(start, remote) && journal == Reached(start, remote) && record == Some(journal)
      ensures ok ==> calls == Calls(start, remote) && journal.phase == Published && journal.published
      ensures old(Calm()) ==>
        && Calm() && (ok <==> Completes(start, remote))
        && journal == Reached(start, remote) && calls == Calls(start, remote)
    {
      hide Redownloaded, Found, Filled, Identity;
      var found, journal1, release := FindDraft(start, remote);
      if !found {
        return false, journal1;
      }
      if release.value.draft {
        ok, journal := CompleteDraft(start, journal1, release.value, remote);
        return;
      }
      if Rank(journal1.phase) >= 4 && release.value.assets == journal1.uploaded && FinalIsLocal(journal1) {
        journal := journal1.(phase := Published, published := true, diagnostic := false);
        ok := Save(start, journal, remote);
        return;
      }
      return false, journal1;
    }

    /** `_resume_journal`: the journal of these very assets, begun if there is none. */
    method Resume(local: AssetSet) returns (start: Option<Journal>)
      requires Good()
      modifies this`record, this`down, this`clock
      ensures Good()
      ensures start.Some? ==> record == start && start.value == if old(record).Some? then old(record).value else Initial(local)
      ensures start.Some? ==> start.value.local == local
      ensures start.None? ==> record == old(record) || (old(record).None? && record == Some(Initial(local)))
      ensures old(Calm()) ==> Calm() && (start.None? <==> old(record).Some? && old(record).value.local != local)
    {
      if record.Some? {
        return if record.value.local == local then record else None;
      }
      var begun := Write(Initial(local));
      return if begun == Done then record else None;
    }

    /** Attempt, and record a diagnostic on failure. */
    method Carry(start: Journal, remote: Remote) returns (ok: bool)
      requires Good() && record == Some(start) && calls == []
      modifies this`record, this`down, this`clock, this`calls, this`visits
      ensures Good() && visits == old(visits) + [Visit(start, remote, calls)]
      ensures calls <= Calls(start, remote)
      ensures record.Some? && Forward(start, record.value, remote) && Justified(start, record.value, remote, calls)
      ensures ok ==>
        && Completes(start, remote) && record == Some(After(start, remote)) && calls == Calls(start, remote)
        && record.value.phase == Published && record.value.published && FinalIsLocal(record.value)
      ensures ok ==>
        record.value.finalAssets == Some(start.local.assets)
        && record.value.finalComponents == Some(start.local.source.components)
      ensures old(Calm()) ==>
        && (ok <==> Completes(start, remote))
        && record == Some(After(start, remote)) && calls == Calls(start, remote)
    {
      hide Calls, Completes, Reached, Forward, Justified, Drafted;
      AtTheStart(start, remote);
      var journal;
      ok, journal := Attempt(start, remote);
      if !ok {
        DiagnosticsAreHarmless(start, journal, remote);
        var _ := Save(start, journal.(diagnostic := true), remote);
      }
      SameAssets(start, record.value, remote);
      visits := visits + [Visit(start, remote, calls)];
    }

    /** `promote_release`. */
    method Promote(local: AssetSet, remote: Remote, fates: nat -> Fate) returns (r: Result<Journal, ()>)
      requires Good()
      modifies this
      ensures Good()
      // A journal of other assets is refused untouched.
      ensures old(record).Some? && old(record).value.local != local ==>
        r.Failure? && record == old(record) && visits == old(visits)
      ensures visits == old(visits) ==>
        r.Failure? && (record == old(record) || (old(record).None? && record == Some(Initial(local))))
      // Wherever it is cut off, the run asked a prefix of what it may ask, and the journal is a justified step forward.
      ensures visits != old(visits) ==>
        var start := if old(record).Some? then old(record).value else Initial(local);
        && start.local == local
        && visits == old(visits) + [Visit(start, remote, calls)]
        && record.Some? && Forward(start, record.value, remote)
        && Justified(start, record.value, remote, calls)
      // Success needs all the answers, and is durable.
      ensures r.Success? ==>
        var start := if old(record).Some? then old(record).value else Initial(local);
        && visits == old(visits) + [Visit(start, remote, Calls(start, remote))]
        && Completes(start, remote) && r.value == After(start, remote)
        && record == Some(r.value) && r.value.phase == Published && r.value.published && FinalIsLocal(r.value)
      ensures r.Success? ==>
        r.value.finalAssets == Some(local.assets) && r.value.finalComponents == Some(local.source.components)
      ensures r.Success? ==>
        var start := if old(record).Some? then old(record).value else Initial(local);
        exists release :: Earned(start, remote, release, r.value.uploaded) && r.value.draft == Some(release.id)
      // Nothing is asked for, let alone published, under another tag.
      ensures r.Success? ==> remote.tag == Some((local.source.commit, local.source.tree))
      ensures visits != old(visits) && calls != [] ==> remote.tag == Some((local.source.commit, local.source.tree))
      // Undisturbed, the answers alone decide the outcome, the journal and the calls.
      ensures
        var start := if old(record).Some? then old(record).value else Initial(local);
        (forall n: nat :: fates(n) == Works) && start.local == local ==>
          && (r.Success? <==> Completes(start, remote))
          && record == Some(After(start, remote))
          && visits == old(visits) + [Visit(start, remote, Calls(start, remote))]
    {
      hide Calls, Completes, After, Forward, Justified, FinalIsLocal, Truthful;
      down, clock, this.fates := false, 0, fates;
      calls := [];
      var start := Resume(local);
      if start.None? {
        return Failure(());
      }
      var ok := Carry(start.value, remote);
      AForeignTagStops(start.value, remote);
      if ok {
        Earns(start.value, remote);
      }
      return if ok then Success(record.value) else Failure(());
    }

    lemma Earns(start: Journal, remote: Remote)
      requires Truthful(start) && Completes(start, remote)
      ensures
        var release := Found(start, remote).value;
        Earned(start, remote, release, After(start, remote).uploaded) && After(start, remote).draft == Some(release.id)
    {
      EarnedMeansCompletes(start, remote, Found(start, remote).value, After(start, remote).uploaded);
    }

    lemma SameAssets(start: Journal, j: Journal, remote: Remote)
      requires Forward(start, j, remote)
      ensures j.local == start.local
    {
    }

    lemma AtTheStart(start: Journal, remote: Remote)
      requires Good() && record == Some(start)
      ensures Ahead(start, start, remote)
    {
    }

    lemma DiagnosticsAreHarmless(start: Journal, journal: Journal, remote: Remote)
      requires Ahead(start, journal, remote)
      ensures Ahead(start, journal.(diagnostic := true), remote)
    {
    }

    /** No remote of these runs took the published release back. */
    ghost predicate NeverTakenBack(from: nat)
      reads this
    {
      forall i :: from <= i < |visits| ==> !Unpublished(visits[i].start, visits[i].remote)
    }

    /** No run from here on met, after a verification, a draft with ids that were never checked. */
    ghost predicate NoStrangers(from: nat)
      reads this
    {
      forall i :: from <= i < |visits| ==> !MeetsStrangers(visits[i].start, visits[i].remote, visits[..i])
    }

    /**
     Any number of runs for the same assets, each answered and interrupted
     anyhow: the journal keeps its identity, its draft and its publication,
     phases never fall unless the remote takes a publication back, and what is
     accepted in the end was downloaded and matched in one of the runs, unless
     a run met strangers.
     */
    method PromoteAll(local: AssetSet, runs: seq<(Remote, nat -> Fate)>) returns (r: Option<Journal>)
      requires Good()
      modifies this
      ensures Good() && |old(visits)| <= |visits| && visits[..|old(visits)|] == old(visits)
      ensures old(record).Some? ==>
        && record.Some? && record.value.local == old(record).value.local
        && (old(record).value.draft.Some? ==> record.value.draft == old(record).value.draft)
        && (old(record).value.published ==> record.value.published)
      ensures old(record).Some? && NeverTakenBack(|old(visits)|) ==>
        Rank(old(record).value.phase) <= Rank(record.value.phase)
      ensures (old(record).Some? ==> Backed(old(record).value, old(visits))) && NoStrangers(|old(visits)|) ==>
        && (record.Some? ==> Backed(record.value, visits))
        && (r.Some? ==> Checked(visits, r.value.uploaded))
      ensures r.Some? ==> r == record && r.value.phase == Published && FinalIsLocal(r.value)
    {
      hide Calls, Completes, After, Justified, Checked, MeetsStrangers, FinalIsLocal, Truthful, Unpublished, Drafted;
      r := None;
      ghost var first := |visits|;
      ghost var backed := record.Some? ==> Backed(record.value, visits);
      for i := 0 to |runs|
        invariant Good() && first <= |visits| && visits[..first] == old(visits)
        invariant old(record).Some? ==>
          && record.Some? && record.value.local == old(record).value.local
          && (old(record).value.draft.Some? ==> record.value.draft == old(record).value.draft)
          && (old(record).value.published ==> record.value.published)
          && (NeverTakenBack(first) ==> Rank(old(record).value.phase) <= Rank(record.value.phase))
        invariant backed && NoStrangers(first) && record.Some? ==> Backed(record.value, visits)
        invariant r.Some? ==> r == record && r.value.phase == Published && FinalIsLocal(r.value)
      {
        ghost var before, known := visits, record;
        var result := Promote(local, runs[i].0, runs[i].1);
        r := if result.Success? then Some(result.value) else None;
        if visits != before {
          StepAlong(first, before, record.value);
        }
      }
    }

    /** What one more run adds to what is known of those before it. */
    lemma StepAlong(first: nat, before: seq<Visit>, after: Journal)
      requires |visits| == |before| + 1 && visits[..|before|] == before && first <= |before|
      requires Justified(visits[|before|].start, after, visits[|before|].remote, visits[|before|].calls)
      ensures NoStrangers(first) && Backed(visits[|before|].start, before) ==> Backed(after, visits)
      ensures NoStrangers(first) ==> forall k :: first <= k < |before| ==>
        !MeetsStrangers(before[k].start, before[k].remote, before[..k])
      ensures NeverTakenBack(first) ==>
        && !Unpublished(visits[|before|].start, visits[|before|].remote)
        && forall k :: first <= k < |before| ==> !Unpublished(before[k].start, before[k].remote)
    {
      var visit := visits[|before|];
      assert visits == before + [visit];
      assert forall k :: first <= k < |before| ==> visits[k] == before[k] && visits[..k] == before[..k];
      if NoStrangers(first) && Backed(visit.start, before) {
        assert !MeetsStrangers(visit.start, visit.remote, visits[..|before|]);
        BackingSurvives(visit.start, after, visit.remote, visit.calls, before);
      }
    }
  }
}
