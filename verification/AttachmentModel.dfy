/** Pending attachments as a state machine: per-session lists, uploads and thumbnails that
    finish late, and the object URLs made along the way
    (apps/mirri-web/src/composables/useAttachmentUpload.ts). */
module AttachmentModel {
  import opened Wrappers

  datatype Kind = ImageKind | VideoKind | FileKind

  /** An object URL made here, known by its place in the order of creation, or any other. */
  datatype Url = Made(id: nat) | Foreign(url: string)

  datatype Attachment = Attachment(
    localId: nat, name: string, kind: Kind, previewUrl: Option<Url>, mediaType: Option<string>,
    size: Option<int>, uploading: bool, fileId: Option<string>, error: Option<bool>)

  datatype File = File(name: string, mime: string, size: int)

  datatype UploadResult = UploadResult(fileId: string, mediaType: Option<string>)

  /** An already sent file put back into the composer. `isLocal` says that its URL is a data
      or blob URL. */
  datatype Item = Item(fileId: Option<string>, kind: Kind, url: string, isLocal: bool, name: Option<string>)

  /** Work under way for an entry; the session is the one captured when it started. */
  datatype Job = UploadJob(sid: string) | ThumbnailJob(sid: string) | ReuploadJob(sid: string)

  /** The composable's state, then which object URLs were made and revoked. */
  datatype State = State(
    sessions: map<string, seq<Attachment>>, counter: nat, jobs: map<nat, Job>,
    made: nat, revoked: seq<nat>)

  datatype Event =
    | AddFiles(sid: string, files: seq<File>, canUpload: bool)
    | Remove(sid: string, id: nat)
    | Clear(sid: string)
    | Load(sid: string, items: seq<Item>, canUpload: bool)
    | Uploaded(id: nat, result: Option<UploadResult>)
    | UploadThrew(id: nat)
    | ThumbnailReady(id: nat)
    | ThumbnailFailed(id: nat)
    | Reuploaded(id: nat, result: Option<UploadResult>)
    | ReuploadThrew(id: nat)

  const INIT := State(map[], 0, map[], 0, [])

  // ---------------------------------------------------------------- lists

  function ListOf(s: State, sid: string): seq<Attachment> {
    if sid in s.sessions then s.sessions[sid] else []
  }

  function SetFor(s: State, sid: string, list: seq<Attachment>): State {
    s.(sessions := s.sessions[sid := list])
  }

  /** `current.filter(a => a.localId !== id)`. */
  function Without(list: seq<Attachment>, id: nat): seq<Attachment> {
    if list == [] then []
    else if list[0].localId == id then Without(list[1..], id)
    else [list[0]] + Without(list[1..], id)
  }

  datatype Patch =
    | UploadDone(result: Option<UploadResult>)
    | UploadError
    | Thumbnail(url: nat)
    | Resent(fileId: string)

  function Apply(a: Attachment, p: Patch): (r: Attachment)
    ensures r.localId == a.localId && (!p.Thumbnail? ==> r.previewUrl == a.previewUrl)
  {
    match p
    case UploadDone(Some(r)) =>
      a.(uploading := false, fileId := Some(r.fileId),
         mediaType := if r.mediaType.Some? then r.mediaType else a.mediaType, error := Some(false))
    case UploadDone(None) => a.(uploading := false, fileId := None, error := Some(true))
    case UploadError => a.(uploading := false, error := Some(true))
    case Thumbnail(u) => a.(previewUrl := Some(Made(u)))
    case Resent(f) => a.(uploading := false, fileId := Some(f))
  }

  /** `current.map(a => a.localId === id ? {...a, ...patch} : a)`. */
  function Patched(list: seq<Attachment>, id: nat, p: Patch): (r: seq<Attachment>)
    ensures |r| == |list|
    ensures forall i :: 0 <= i < |list| ==> r[i] == if list[i].localId == id then Apply(list[i], p) else list[i]
  {
    if list == [] then []
    else [if list[0].localId == id then Apply(list[0], p) else list[0]] + Patched(list[1..], id, p)
  }

  predicate HasId(list: seq<Attachment>, id: nat) {
    exists i :: 0 <= i < |list| && list[i].localId == id
  }

  // ---------------------------------------------------------------- revoking

  /** `revokeAttachment`: only URLs made here are on our books. */
  function RevokeOne(s: State, a: Attachment): State {
    match a.previewUrl
    case Some(Made(u)) => s.(revoked := s.revoked + [u])
    case _ => s
  }

  function RevokeAll(s: State, list: seq<Attachment>): State {
    if list == [] then s else RevokeOne(RevokeAll(s, list[..|list| - 1]), list[|list| - 1])
  }

  // ---------------------------------------------------------------- handlers

  function KindOf(mime: string): Kind {
    if "image/" <= mime then ImageKind else if "video/" <= mime then VideoKind else FileKind
  }

  function Append(s: State, sid: string, a: Attachment): State {
    SetFor(s, sid, ListOf(s, sid) + [a])
  }

  function AddOne(s: State, sid: string, f: File): State {
    var id := s.counter + 1;
    var kind := KindOf(f.mime);
    var url := if kind == FileKind then None else Some(Made(s.made));
    var s1 := s.(counter := id, made := if kind == FileKind then s.made else s.made + 1,
                 jobs := s.jobs[id := UploadJob(sid)]);
    Append(s1, sid, Attachment(id, f.name, kind, url,
      Some(if f.mime == "" then "application/octet-stream" else f.mime), Some(f.size), true, None, None))
  }

  function AddAll(s: State, sid: string, files: seq<File>): State {
    if files == [] then s else AddOne(AddAll(s, sid, files[..|files| - 1]), sid, files[|files| - 1])
  }

  function KindName(k: Kind): string {
    match k case ImageKind => "image" case VideoKind => "video" case FileKind => "file"
  }

  /** One loaded item; a number is used up even when the item is skipped. */
  function LoadOne(s: State, sid: string, item: Item, canUpload: bool): State {
    var id := s.counter + 1;
    var s1 := s.(counter := id);
    var name := if item.name.Some? then item.name.value else KindName(item.kind);
    if item.fileId.Some? && item.fileId.value != "" then
      var url := if item.kind == FileKind then None else Some(Foreign(item.url));
      var s2 := Append(s1, sid, Attachment(id, name, item.kind, url, None, None, false, item.fileId, None));
      if item.kind != FileKind && !item.isLocal then s2.(jobs := s2.jobs[id := ThumbnailJob(sid)]) else s2
    else if item.url == "" || !canUpload then s1
    else
      Append(s1.(jobs := s1.jobs[id := ReuploadJob(sid)]), sid,
             Attachment(id, name, item.kind, Some(Foreign(item.url)), None, None, true, None, None))
  }

  function LoadAll(s: State, sid: string, items: seq<Item>, canUpload: bool): State {
    if items == [] then s
    else LoadOne(LoadAll(s, sid, items[..|items| - 1], canUpload), sid, items[|items| - 1], canUpload)
  }

  /** Revoke the session's URLs and drop its list. */
  function DoClear(s: State, sid: string): State {
    SetFor(RevokeAll(s, ListOf(s, sid)), sid, [])
  }

  function FindId(list: seq<Attachment>, id: nat): (i: nat)
    ensures i <= |list|
    ensures i < |list| ==> list[i].localId == id
    ensures forall j :: 0 <= j < i ==> list[j].localId != id
  {
    if list == [] then 0 else if list[0].localId == id then 0 else 1 + FindId(list[1..], id)
  }

  function DoRemove(s: State, sid: string, id: nat): State {
    var list := ListOf(s, sid);
    var i := FindId(list, id);
    var s1 := if i < |list| then RevokeOne(s, list[i]) else s;
    SetFor(s1, sid, Without(list, id))
  }

  /** `patchAttachment`. */
  function DoPatch(s: State, sid: string, id: nat, p: Patch): State {
    if HasId(ListOf(s, sid), id) then SetFor(s, sid, Patched(ListOf(s, sid), id, p)) else s
  }

  function Finish(s: State, id: nat): State {
    s.(jobs := s.jobs - {id})
  }

  /** A thumbnail's blob URL: handed to its entry, or revoked when the entry is gone. */
  function DoThumbnail(s: State, sid: string, id: nat): State {
    var s1 := s.(made := s.made + 1);
    if HasId(ListOf(s, sid), id) then DoPatch(s1, sid, id, Thumbnail(s.made))
    else s1.(revoked := s1.revoked + [s.made])
  }

  function DropEntry(s: State, sid: string, id: nat): State {
    SetFor(s, sid, Without(ListOf(s, sid), id))
  }

  function Step(s: State, e: Event): State {
    match e
    case AddFiles(sid, files, canUpload) => if canUpload then AddAll(s, sid, files) else s
    case Remove(sid, id) => DoRemove(s, sid, id)
    case Clear(sid) => DoClear(s, sid)
    case Load(sid, items, canUpload) => LoadAll(DoClear(s, sid), sid, items, canUpload)
    case Uploaded(id, result) =>
      if id in s.jobs && s.jobs[id].UploadJob? then
        SetFor(Finish(s, id), s.jobs[id].sid, Patched(ListOf(s, s.jobs[id].sid), id, UploadDone(result)))
      else s
    case UploadThrew(id) =>
      if id in s.jobs && s.jobs[id].UploadJob? then
        SetFor(Finish(s, id), s.jobs[id].sid, Patched(ListOf(s, s.jobs[id].sid), id, UploadError))
      else s
    case ThumbnailReady(id) =>
      if id in s.jobs && s.jobs[id].ThumbnailJob? then DoThumbnail(Finish(s, id), s.jobs[id].sid, id) else s
    case ThumbnailFailed(id) => if id in s.jobs && s.jobs[id].ThumbnailJob? then Finish(s, id) else s
    case Reuploaded(id, result) =>
      if id in s.jobs && s.jobs[id].ReuploadJob? then
        if result.Some? then DoPatch(Finish(s, id), s.jobs[id].sid, id, Resent(result.value.fileId))
        else DropEntry(Finish(s, id), s.jobs[id].sid, id)
      else s
    case ReuploadThrew(id) =>
      if id in s.jobs && s.jobs[id].ReuploadJob? then DropEntry(Finish(s, id), s.jobs[id].sid, id) else s
  }

  /** Any run from `s`. */
  function RunFrom(s: State, events: seq<Event>): State {
    if events == [] then s else Step(RunFrom(s, events[..|events| - 1]), events[|events| - 1])
  }

  function Run(events: seq<Event>): State {
    RunFrom(INIT, events)
  }

  // ---------------------------------------------------------------- the invariant

  ghost predicate Has(s: State, sid: string, a: Attachment) {
    a in ListOf(s, sid)
  }

  /** Local ids are in use once: within a list, across lists, and never beyond the counter. */
  ghost predicate IdsUnique(s: State) {
    && (forall sid, a :: Has(s, sid, a) ==> a.localId <= s.counter)
    && (forall sid, a, sid', a' :: Has(s, sid, a) && Has(s, sid', a') && a.localId == a'.localId ==>
          sid == sid' && a == a')
    && (forall sid :: DistinctList(ListOf(s, sid)))
  }

  ghost predicate DistinctList(list: seq<Attachment>) {
    forall i, j :: 0 <= i < j < |list| ==> list[i].localId != list[j].localId
  }

  ghost predicate Holds(s: State, u: nat) {
    exists sid, a :: Has(s, sid, a) && a.previewUrl == Some(Made(u))
  }

  predicate SharesMade(a: Attachment, b: Attachment) {
    a.previewUrl.Some? && a.previewUrl.value.Made? && a.previewUrl == b.previewUrl
  }

  ghost predicate AllDifferent(s: seq<nat>) {
    forall i, j :: 0 <= i < j < |s| ==> s[i] != s[j]
  }

  /** Every URL made is the preview of one held attachment or has been revoked, not both,
      and revoked once. */
  ghost predicate UrlsAccounted(s: State) {
    && (forall sid, a :: Has(s, sid, a) && a.previewUrl.Some? && a.previewUrl.value.Made? ==>
          a.previewUrl.value.id < s.made)
    && (forall sid, a, sid', a' ::
          Has(s, sid, a) && Has(s, sid', a') && SharesMade(a, a') ==> a == a')
    && (forall u: nat :: u < s.made ==> (Holds(s, u) <==> u !in s.revoked))
    && AllDifferent(s.revoked)
    && (forall u <- s.revoked :: u < s.made)
  }

  /** Jobs belong to ids handed out; an entry with work under way is in the session that
      work captured, and one that awaits its thumbnail shows no URL made here. */
  ghost predicate JobsMatch(s: State) {
    && (forall id <- s.jobs :: id <= s.counter)
    && (forall sid, a :: Has(s, sid, a) && a.localId in s.jobs ==>
          && s.jobs[a.localId].sid == sid
          && (s.jobs[a.localId].ThumbnailJob? ==> a.previewUrl.Some? && a.previewUrl.value.Foreign?)
          && (s.jobs[a.localId].ReuploadJob? ==> a.previewUrl.Some? && a.previewUrl.value.Foreign?))
  }

  ghost predicate Inv(s: State) {
    IdsUnique(s) && UrlsAccounted(s) && JobsMatch(s)
  }

  // ---------------------------------------------------------------- list lemmas

  lemma {:induction false} WithoutMembers(list: seq<Attachment>, id: nat)
    ensures forall a :: a in Without(list, id) <==> a in list && a.localId != id
    ensures DistinctList(list) ==> DistinctList(Without(list, id))
  {
    if list != [] {
      WithoutMembers(list[1..], id);
      assert list == [list[0]] + list[1..];
      if DistinctList(list) {
        assert DistinctList(list[1..]);
        forall a | a in list[1..] ensures a.localId != list[0].localId {
          var i :| 0 <= i < |list[1..]| && list[1..][i] == a;
          assert list[i + 1] == a;
        }
      }
    }
  }

  lemma PatchedMembers(list: seq<Attachment>, id: nat, p: Patch)
    ensures forall a :: a in Patched(list, id, p) ==>
              exists b :: b in list && a == if b.localId == id then Apply(b, p) else b
    ensures forall b :: b in list ==> (if b.localId == id then Apply(b, p) else b) in Patched(list, id, p)
    ensures DistinctList(list) ==> DistinctList(Patched(list, id, p))
  {
    var r := Patched(list, id, p);
    forall a | a in r ensures exists b :: b in list && a == if b.localId == id then Apply(b, p) else b {
      var i :| 0 <= i < |r| && r[i] == a;
      assert list[i] in list;
    }
    forall b | b in list ensures (if b.localId == id then Apply(b, p) else b) in r {
      var i :| 0 <= i < |list| && list[i] == b;
      assert r[i] in r;
    }
  }

  // ---------------------------------------------------------------- what each change keeps

  /** A new entry under the next number. A URL it brings is the next one made. */
  lemma AppendKeeps(s: State, sid: string, a: Attachment, d: State)
    requires Inv(s) && a.localId == s.counter + 1
    requires d == Append(s.(counter := s.counter + 1, made := d.made, jobs := d.jobs), sid, a)
    requires a.previewUrl.Some? && a.previewUrl.value.Made? ==> a.previewUrl.value.id == s.made && d.made == s.made + 1
    requires !(a.previewUrl.Some? && a.previewUrl.value.Made?) ==> d.made == s.made
    requires forall id <- d.jobs :: (id in s.jobs && d.jobs[id] == s.jobs[id]) || id == a.localId
    requires a.localId in d.jobs ==>
               d.jobs[a.localId].sid == sid &&
               (d.jobs[a.localId].UploadJob? || (a.previewUrl.Some? && a.previewUrl.value.Foreign?))
    ensures Inv(d)
  {
    assert forall sid', b :: Has(d, sid', b) <==> Has(s, sid', b) || (sid' == sid && b == a);
    assert s.counter + 1 !in s.jobs;
    AppendIds(s, sid, a, d);
    AppendUrls(s, sid, a, d);
  }

  lemma AppendIds(s: State, sid: string, a: Attachment, d: State)
    requires IdsUnique(s) && a.localId == s.counter + 1
    requires d.counter == s.counter + 1 && d.sessions == s.sessions[sid := ListOf(s, sid) + [a]]
    requires forall sid', b :: Has(d, sid', b) <==> Has(s, sid', b) || (sid' == sid && b == a)
    ensures IdsUnique(d)
  {
    forall sid' ensures DistinctList(ListOf(d, sid')) {
      var list := ListOf(s, sid');
      assert DistinctList(list);
      forall i | 0 <= i < |list| ensures list[i].localId <= s.counter { assert Has(s, sid', list[i]); }
    }
  }

  lemma AppendUrls(s: State, sid: string, a: Attachment, d: State)
    requires UrlsAccounted(s) && d.revoked == s.revoked
    requires a.previewUrl.Some? && a.previewUrl.value.Made? ==> a.previewUrl.value.id == s.made && d.made == s.made + 1
    requires !(a.previewUrl.Some? && a.previewUrl.value.Made?) ==> d.made == s.made
    requires forall sid', b :: Has(d, sid', b) <==> Has(s, sid', b) || (sid' == sid && b == a)
    ensures UrlsAccounted(d)
  {
    assert Has(d, sid, a);
    forall u: nat | u < s.made ensures Holds(d, u) <==> Holds(s, u) {
      if Holds(s, u) {
        var sid', b :| Has(s, sid', b) && b.previewUrl == Some(Made(u));
        assert Has(d, sid', b);
      }
    }
  }

  function MadeUrls(list: seq<Attachment>): seq<nat> {
    if list == [] then []
    else
      var init, a := MadeUrls(list[..|list| - 1]), list[|list| - 1];
      if a.previewUrl.Some? && a.previewUrl.value.Made? then init + [a.previewUrl.value.id] else init
  }

  lemma {:induction false} RevokeAllUrls(s: State, list: seq<Attachment>)
    ensures RevokeAll(s, list) == s.(revoked := s.revoked + MadeUrls(list))
  {
    if list == [] {
      assert s.revoked + [] == s.revoked;
    } else {
      RevokeAllUrls(s, list[..|list| - 1]);
    }
  }

  lemma {:induction false} MadeUrlsMembers(list: seq<Attachment>)
    ensures forall u :: u in MadeUrls(list) <==> exists a :: a in list && a.previewUrl == Some(Made(u))
  {
    if list != [] {
      var init, last := list[..|list| - 1], list[|list| - 1];
      MadeUrlsMembers(init);
      assert forall a :: a in list <==> a in init || a == last;
    }
  }

  /** No two entries share a URL made here. */
  ghost predicate UrlsDistinct(list: seq<Attachment>) {
    forall i, j :: 0 <= i < j < |list| && list[i].previewUrl.Some? && list[i].previewUrl.value.Made? ==>
      list[i].previewUrl != list[j].previewUrl
  }

  lemma DifferentConcat(a: seq<nat>, b: seq<nat>)
    requires AllDifferent(a) && AllDifferent(b) && forall u :: u in b ==> u !in a
    ensures AllDifferent(a + b)
  {
    forall i, j | 0 <= i < j < |a + b| ensures (a + b)[i] != (a + b)[j] {
      if i < |a| <= j { assert b[j - |a|] in b && a[i] in a; }
    }
  }

  lemma {:induction false} MadeUrlsDistinct(list: seq<Attachment>)
    requires UrlsDistinct(list)
    ensures AllDifferent(MadeUrls(list))
  {
    if list != [] {
      var n := |list| - 1;
      MadeUrlsDistinct(list[..n]);
      MadeUrlsMembers(list[..n]);
      var a := list[n];
      if a.previewUrl.Some? && a.previewUrl.value.Made? {
        forall b | b in list[..n] ensures b.previewUrl != a.previewUrl {
          var i :| 0 <= i < n && list[..n][i] == b;
          assert list[i] == b;
        }
      }
    }
  }

  /** Entries leave one session; exactly the URLs that left with them were revoked. */
  lemma ShrinkKeeps(s: State, d: State, sid: string, list: seq<Attachment>, more: seq<nat>)
    requires Inv(s) && d == s.(sessions := s.sessions[sid := list], jobs := d.jobs, revoked := s.revoked + more)
    requires forall id <- d.jobs :: id in s.jobs && d.jobs[id] == s.jobs[id]
    requires DistinctList(list) && forall a :: a in list ==> a in ListOf(s, sid)
    requires AllDifferent(more)
    requires forall u :: u in more <==> exists a :: a in ListOf(s, sid) && a !in list && a.previewUrl == Some(Made(u))
    ensures Inv(d)
  {
    forall sid', a | Has(d, sid', a) ensures Has(s, sid', a) {}
    forall sid' ensures DistinctList(ListOf(d, sid')) { assert DistinctList(ListOf(s, sid')); }
    ShrinkUrls(s, d, sid, list, more);
  }

  lemma ShrinkUrls(s: State, d: State, sid: string, list: seq<Attachment>, more: seq<nat>)
    requires IdsUnique(s) && UrlsAccounted(s)
    requires d == s.(sessions := s.sessions[sid := list], jobs := d.jobs, revoked := s.revoked + more)
    requires forall a :: a in list ==> a in ListOf(s, sid)
    requires AllDifferent(more)
    requires forall u :: u in more <==> exists a :: a in ListOf(s, sid) && a !in list && a.previewUrl == Some(Made(u))
    ensures UrlsAccounted(d)
  {
    forall sid', a | Has(d, sid', a) ensures Has(s, sid', a) {}
    forall u | u in more ensures u < s.made && u !in s.revoked && !Holds(d, u) {
      var a :| a in ListOf(s, sid) && a !in list && a.previewUrl == Some(Made(u));
      assert Has(s, sid, a) && Holds(s, u);
      forall sid', b | Has(d, sid', b) ensures b.previewUrl != Some(Made(u)) {
        assert Has(s, sid', b);
        assert b != a;
      }
    }
    DifferentConcat(s.revoked, more);
    forall u: nat | u < d.made ensures Holds(d, u) <==> u !in d.revoked {
      if Holds(s, u) && u !in more {
        var sid', a :| Has(s, sid', a) && a.previewUrl == Some(Made(u));
        assert Has(d, sid', a);
      }
      if Holds(d, u) {
        var sid', a :| Has(d, sid', a) && a.previewUrl == Some(Made(u));
        assert Has(s, sid', a);
      }
    }
  }

  lemma ListUrlsDistinct(s: State, sid: string)
    requires IdsUnique(s) && UrlsAccounted(s)
    ensures UrlsDistinct(ListOf(s, sid))
  {
    var list := ListOf(s, sid);
    assert DistinctList(list);
    forall i, j | 0 <= i < j < |list| && list[i].previewUrl.Some? && list[i].previewUrl.value.Made?
      ensures list[i].previewUrl != list[j].previewUrl
    {
      assert Has(s, sid, list[i]) && Has(s, sid, list[j]) && list[i].localId != list[j].localId;
    }
  }

  lemma ClearKeeps(s: State, sid: string)
    requires Inv(s)
    ensures Inv(DoClear(s, sid))
  {
    var list := ListOf(s, sid);
    RevokeAllUrls(s, list);
    ListUrlsDistinct(s, sid);
    MadeUrlsDistinct(list);
    MadeUrlsMembers(list);
    ShrinkKeeps(s, DoClear(s, sid), sid, [], MadeUrls(list));
  }

  lemma RemoveKeeps(s: State, sid: string, id: nat)
    requires Inv(s)
    ensures Inv(DoRemove(s, sid, id))
  {
    var list := ListOf(s, sid);
    var i := FindId(list, id);
    WithoutMembers(list, id);
    assert DistinctList(list);
    if i < |list| {
      var a := list[i];
      assert Has(s, sid, a);
      forall b | b in list && b.localId == id ensures b == a { assert Has(s, sid, b); }
      var more := if a.previewUrl.Some? && a.previewUrl.value.Made? then [a.previewUrl.value.id] else [];
      assert s.revoked + [] == s.revoked;
      forall u ensures u in more <==> exists b :: b in list && b !in Without(list, id) && b.previewUrl == Some(Made(u)) {
        if u in more { assert a in list && a !in Without(list, id); }
      }
      ShrinkKeeps(s, DoRemove(s, sid, id), sid, Without(list, id), more);
    } else {
      assert s.revoked + [] == s.revoked;
      ShrinkKeeps(s, DoRemove(s, sid, id), sid, Without(list, id), []);
    }
  }

  lemma FinishKeeps(s: State, id: nat)
    requires Inv(s)
    ensures Inv(Finish(s, id))
  {
    var d := Finish(s, id);
    assert forall sid, a :: Has(d, sid, a) <==> Has(s, sid, a);
    SameUrls(s, d);
    forall sid ensures DistinctList(ListOf(d, sid)) { assert DistinctList(ListOf(s, sid)); }
  }

  lemma SameUrls(s: State, d: State)
    requires UrlsAccounted(s) && d.made == s.made && d.revoked == s.revoked
    requires forall sid, a :: Has(d, sid, a) <==> Has(s, sid, a)
    ensures UrlsAccounted(d)
  {
    forall u: nat ensures Holds(d, u) == Holds(s, u) {}
  }

  /** Dropping an entry whose work failed: it showed no URL made here. */
  lemma DropKeeps(s: State, sid: string, id: nat)
    requires Inv(s)
    requires forall a :: Has(s, sid, a) && a.localId == id ==> a.previewUrl.Some? && a.previewUrl.value.Foreign?
    ensures Inv(DropEntry(s, sid, id))
  {
    var list := ListOf(s, sid);
    WithoutMembers(list, id);
    assert DistinctList(list) && s.revoked + [] == s.revoked;
    forall a | a in list && a !in Without(list, id) ensures a.previewUrl.Some? && a.previewUrl.value.Foreign? {
      assert Has(s, sid, a);
    }
    ShrinkKeeps(s, DropEntry(s, sid, id), sid, Without(list, id), []);
  }

  /** A patch that leaves the preview alone. */
  lemma PatchKeeps(s: State, sid: string, id: nat, p: Patch)
    requires Inv(s) && !p.Thumbnail?
    ensures Inv(SetFor(s, sid, Patched(ListOf(s, sid), id, p)))
  {
    var list := ListOf(s, sid);
    var d := SetFor(s, sid, Patched(list, id, p));
    PatchedMembers(list, id, p);
    assert DistinctList(list);
    forall sid' ensures DistinctList(ListOf(d, sid')) { assert DistinctList(ListOf(s, sid')); }
    forall sid', a | Has(d, sid', a)
      ensures exists b :: Has(s, sid', b) && b.localId == a.localId && b.previewUrl == a.previewUrl
                       && a == if sid' == sid && b.localId == id then Apply(b, p) else b
    {
      if sid' == sid {
        var b :| b in list && a == if b.localId == id then Apply(b, p) else b;
        assert Has(s, sid', b);
      } else {
        assert Has(s, sid', a);
      }
    }
    forall sid', b | Has(s, sid', b)
      ensures Has(d, sid', if sid' == sid && b.localId == id then Apply(b, p) else b)
    {}
    SameUnderneath(s, d, sid, id, p);
  }

  lemma SameUnderneath(s: State, d: State, sid: string, id: nat, p: Patch)
    requires Inv(s) && !p.Thumbnail?
    requires d == s.(sessions := d.sessions)
    requires forall sid' :: DistinctList(ListOf(d, sid'))
    requires forall sid', a :: Has(d, sid', a) ==>
               exists b :: Has(s, sid', b) && b.localId == a.localId && b.previewUrl == a.previewUrl
                        && a == if sid' == sid && b.localId == id then Apply(b, p) else b
    requires forall sid', b :: Has(s, sid', b) ==> Has(d, sid', if sid' == sid && b.localId == id then Apply(b, p) else b)
    ensures Inv(d)
  {
    forall u: nat ensures Holds(d, u) == Holds(s, u) {
      if Holds(s, u) {
        var sid', b :| Has(s, sid', b) && b.previewUrl == Some(Made(u));
        assert Has(d, sid', if sid' == sid && b.localId == id then Apply(b, p) else b);
      }
    }
  }

  /** A thumbnail arrives: the newest URL goes to the one waiting entry, or is revoked. */
  lemma ThumbnailKeeps(s: State, sid: string, id: nat)
    requires Inv(s) && id !in s.jobs
    requires forall a :: Has(s, sid, a) && a.localId == id ==> a.previewUrl.Some? && a.previewUrl.value.Foreign?
    ensures Inv(DoThumbnail(s, sid, id))
  {
    var d := DoThumbnail(s, sid, id);
    if HasId(ListOf(s, sid), id) {
      ThumbnailShown(s, sid, id);
    } else {
      ThumbnailGone(s, d);
    }
  }

  /** A URL made and revoked at once. */
  lemma ThumbnailGone(s: State, d: State)
    requires Inv(s) && d == s.(made := s.made + 1, revoked := s.revoked + [s.made])
    ensures Inv(d)
  {
    hide IdsUnique, JobsMatch, UrlsAccounted;
    SameLists(s, d);
    GoneUrls(s, d);
  }

  lemma GoneUrls(s: State, d: State)
    requires UrlsAccounted(s) && d == s.(made := s.made + 1, revoked := s.revoked + [s.made])
    ensures UrlsAccounted(d)
  {
    hide Holds, AllDifferent;
    forall sid, a ensures Has(d, sid, a) <==> Has(s, sid, a) {}
    forall u: nat ensures Holds(d, u) == Holds(s, u) { SameHolds(s, d, u); }
    assert !Holds(s, s.made) by { NotYetHeld(s, s.made); }
    assert AllDifferent([s.made]) by { OneIsDifferent(s.made); }
    DifferentConcat(s.revoked, [s.made]);
  }

  lemma NotYetHeld(s: State, u: nat)
    requires UrlsAccounted(s) && u >= s.made
    ensures !Holds(s, u)
  {}

  lemma OneIsDifferent(u: nat)
    ensures AllDifferent([u])
  {}

  lemma SameLists(s: State, d: State)
    requires IdsUnique(s) && JobsMatch(s)
    requires d.sessions == s.sessions && d.counter == s.counter && d.jobs == s.jobs
    ensures IdsUnique(d) && JobsMatch(d)
  {
    forall sid, a ensures Has(d, sid, a) <==> Has(s, sid, a) {}
    forall sid ensures DistinctList(ListOf(d, sid)) { assert DistinctList(ListOf(s, sid)); }
  }

  lemma SameHolds(s: State, d: State, u: nat)
    requires d.sessions == s.sessions
    ensures Holds(d, u) == Holds(s, u)
  {
    forall sid, a ensures Has(d, sid, a) <==> Has(s, sid, a) {}
  }

  lemma ThumbnailMembers(s: State, sid: string, id: nat, a0: Attachment, d: State)
    requires IdsUnique(s) && Has(s, sid, a0) && a0.localId == id
    requires d == SetFor(s, sid, Patched(ListOf(s, sid), id, Thumbnail(s.made))).(made := s.made + 1)
    ensures forall sid', a :: Has(d, sid', a) <==>
              (Has(s, sid', a) && a.localId != id) || (sid' == sid && a == Apply(a0, Thumbnail(s.made)))
  {
    var list, p := ListOf(s, sid), Thumbnail(s.made);
    PatchedMembers(list, id, p);
    forall sid', a ensures Has(d, sid', a) <==> (Has(s, sid', a) && a.localId != id) || (sid' == sid && a == Apply(a0, p)) {
      if sid' == sid && Has(d, sid', a) {
        var b :| b in list && a == if b.localId == id then Apply(b, p) else b;
        assert Has(s, sid, b);
      }
      if Has(s, sid', a) && a.localId == id { assert sid' == sid && a == a0; }
    }
  }

  lemma ThumbnailShown(s: State, sid: string, id: nat)
    requires Inv(s) && id !in s.jobs && HasId(ListOf(s, sid), id)
    requires forall a :: Has(s, sid, a) && a.localId == id ==> a.previewUrl.Some? && a.previewUrl.value.Foreign?
    ensures Inv(DoThumbnail(s, sid, id))
  {
    hide UrlsAccounted, JobsMatch;
    var list := ListOf(s, sid);
    var d := SetFor(s, sid, Patched(list, id, Thumbnail(s.made))).(made := s.made + 1);
    assert d == DoThumbnail(s, sid, id);
    var i :| 0 <= i < |list| && list[i].localId == id;
    assert Has(s, sid, list[i]);
    ThumbnailMembers(s, sid, id, list[i], d);
    forall sid' ensures DistinctList(ListOf(d, sid')) { PatchedDistinct(s, sid, id, Thumbnail(s.made), d, sid'); }
    ThumbnailUrls(s, d, sid, id, list[i]);
  }

  lemma PatchedDistinct(s: State, sid: string, id: nat, p: Patch, d: State, sid': string)
    requires IdsUnique(s) && d.sessions == s.sessions[sid := Patched(ListOf(s, sid), id, p)]
    ensures DistinctList(ListOf(d, sid'))
  {
    assert DistinctList(ListOf(s, sid'));
  }

  lemma ThumbnailUrls(s: State, d: State, sid: string, id: nat, a0: Attachment)
    requires Inv(s) && Has(s, sid, a0) && a0.localId == id && id !in s.jobs
    requires a0.previewUrl.Some? && a0.previewUrl.value.Foreign?
    requires d == s.(sessions := d.sessions, made := s.made + 1)
    requires forall sid' :: DistinctList(ListOf(d, sid'))
    requires forall sid', a :: Has(d, sid', a) <==>
               (Has(s, sid', a) && a.localId != id) || (sid' == sid && a == Apply(a0, Thumbnail(s.made)))
    ensures Inv(d)
  {
    assert Has(d, sid, Apply(a0, Thumbnail(s.made)));
    forall u: nat | u < s.made ensures Holds(d, u) <==> Holds(s, u) {
      if Holds(s, u) {
        var sid', b :| Has(s, sid', b) && b.previewUrl == Some(Made(u));
        assert b.localId != id;
        assert Has(d, sid', b);
      }
    }
  }

  // ---------------------------------------------------------------- every step keeps it

  lemma AddOneKeeps(s: State, sid: string, f: File)
    requires Inv(s)
    ensures Inv(AddOne(s, sid, f))
  {
    var d := AddOne(s, sid, f);
    AppendKeeps(s, sid, ListOf(d, sid)[|ListOf(s, sid)|], d);
  }

  lemma {:induction false} AddAllKeeps(s: State, sid: string, files: seq<File>)
    requires Inv(s)
    ensures Inv(AddAll(s, sid, files))
  {
    if files != [] {
      AddAllKeeps(s, sid, files[..|files| - 1]);
      AddOneKeeps(AddAll(s, sid, files[..|files| - 1]), sid, files[|files| - 1]);
    }
  }

  lemma LoadOneKeeps(s: State, sid: string, item: Item, canUpload: bool)
    requires Inv(s)
    ensures Inv(LoadOne(s, sid, item, canUpload))
  {
    var d := LoadOne(s, sid, item, canUpload);
    if d == s.(counter := s.counter + 1) {
      assert forall sid', a :: Has(d, sid', a) <==> Has(s, sid', a);
      SameUrls(s, d);
      forall sid' ensures DistinctList(ListOf(d, sid')) { assert DistinctList(ListOf(s, sid')); }
    } else {
      AppendKeeps(s, sid, ListOf(d, sid)[|ListOf(s, sid)|], d);
    }
  }

  lemma {:induction false} LoadAllKeeps(s: State, sid: string, items: seq<Item>, canUpload: bool)
    requires Inv(s)
    ensures Inv(LoadAll(s, sid, items, canUpload))
  {
    if items != [] {
      LoadAllKeeps(s, sid, items[..|items| - 1], canUpload);
      LoadOneKeeps(LoadAll(s, sid, items[..|items| - 1], canUpload), sid, items[|items| - 1], canUpload);
    }
  }

  lemma StepKeeps(s: State, e: Event)
    requires Inv(s)
    ensures Inv(Step(s, e))
  {
    match e
    case AddFiles(sid, files, _) => AddAllKeeps(s, sid, files);
    case Remove(sid, id) => RemoveKeeps(s, sid, id);
    case Clear(sid) => ClearKeeps(s, sid);
    case Load(sid, items, canUpload) =>
      ClearKeeps(s, sid);
      LoadAllKeeps(DoClear(s, sid), sid, items, canUpload);
    case _ => CompletionKeeps(s, e);
  }

  predicate IsCompletion(e: Event) {
    e.Uploaded? || e.UploadThrew? || e.ThumbnailReady? || e.ThumbnailFailed? || e.Reuploaded? || e.ReuploadThrew?
  }

  lemma CompletionKeeps(s: State, e: Event)
    requires Inv(s) && IsCompletion(e)
    ensures Inv(Step(s, e))
  {
    hide IdsUnique, UrlsAccounted, Patched, Without, HasId;
    if e.id in s.jobs {
      var sid := s.jobs[e.id].sid;
      var f := Finish(s, e.id);
      FinishKeeps(s, e.id);
      assert forall a :: Has(f, sid, a) <==> Has(s, sid, a);
      match e
      case Uploaded(id, result) => PatchKeeps(f, sid, id, UploadDone(result));
      case UploadThrew(id) => PatchKeeps(f, sid, id, UploadError);
      case ThumbnailReady(id) => if s.jobs[id].ThumbnailJob? { ThumbnailKeeps(f, sid, id); }
      case ThumbnailFailed(id) =>
      case Reuploaded(id, result) =>
        if result.Some? {
          PatchKeeps(f, sid, id, Resent(result.value.fileId));
        } else if s.jobs[id].ReuploadJob? {
          DropKeeps(f, sid, id);
        }
      case ReuploadThrew(id) => if s.jobs[id].ReuploadJob? { DropKeeps(f, sid, id); }
    }
  }

  lemma {:induction false} RunsKeep(events: seq<Event>)
    ensures Inv(Run(events))
  {
    if events != [] {
      RunsKeep(events[..|events| - 1]);
      StepKeeps(Run(events[..|events| - 1]), events[|events| - 1]);
    }
  }

  // ---------------------------------------------------------------- the theorems

  /** Over any run: a local id belongs to one entry of one session. */
  lemma LocalIdsAreUnique(events: seq<Event>, sid: string, i: nat, sid': string, j: nat)
    requires i < |ListOf(Run(events), sid)| && j < |ListOf(Run(events), sid')|
    requires ListOf(Run(events), sid)[i].localId == ListOf(Run(events), sid')[j].localId
    ensures sid == sid' && i == j
  {
    RunsKeep(events);
    var s := Run(events);
    assert Has(s, sid, ListOf(s, sid)[i]) && Has(s, sid', ListOf(s, sid')[j]);
    assert DistinctList(ListOf(s, sid));
  }

  /** Over any run: each object URL made so far is the preview of exactly one held
      attachment, or was revoked exactly once, and never both. */
  lemma EachUrlIsHeldOrRevokedOnce(events: seq<Event>, u: nat)
    ensures var s := Run(events);
            u < s.made ==> if Holds(s, u) then u !in s.revoked else multiset(s.revoked)[u] == 1
    ensures var s := Run(events);
            forall sid, a, sid', a' ::
              Has(s, sid, a) && Has(s, sid', a') && a.previewUrl == Some(Made(u)) && a'.previewUrl == Some(Made(u)) ==>
                sid == sid' && a == a'
  {
    RunsKeep(events);
    DifferentOnce(Run(events).revoked, u);
  }

  lemma {:induction false} DifferentOnce(s: seq<nat>, u: nat)
    requires AllDifferent(s)
    ensures multiset(s)[u] == if u in s then 1 else 0
  {
    if s != [] {
      var init := s[..|s| - 1];
      assert s == init + [s[|s| - 1]];
      DifferentOnce(init, u);
      assert s[|s| - 1] !in init;
    }
  }

  /** Only a late completion of a job touches a list here; it touches the list of the
      session captured when the job began, and of that list only the job's own entry,
      which it changes in place or takes out. */
  lemma LateCompletionIsLocal(s: State, e: Event)
    requires Inv(s) && IsCompletion(e)
    ensures var d := Step(s, e);
            && (e.id !in s.jobs ==> d == s)
            && (forall sid :: e.id !in s.jobs || sid != s.jobs[e.id].sid ==> ListOf(d, sid) == ListOf(s, sid))
            && (e.id in s.jobs ==>
                  var sid := s.jobs[e.id].sid;
                  Without(ListOf(d, sid), e.id) == Without(ListOf(s, sid), e.id))
  {
    if e.id in s.jobs {
      var list := ListOf(s, s.jobs[e.id].sid);
      WithoutTwice(list, e.id);
      forall p: Patch ensures Without(Patched(list, e.id, p), e.id) == Without(list, e.id) {
        WithoutPatched(list, e.id, p);
      }
    }
  }

  lemma {:induction false} WithoutTwice(list: seq<Attachment>, id: nat)
    ensures Without(Without(list, id), id) == Without(list, id)
  {
    if list != [] {
      WithoutTwice(list[1..], id);
      if list[0].localId != id {
        assert Without(list, id)[1..] == Without(list[1..], id);
      }
    }
  }

  lemma {:induction false} WithoutPatched(list: seq<Attachment>, id: nat, p: Patch)
    ensures Without(Patched(list, id, p), id) == Without(list, id)
  {
    if list != [] {
      WithoutPatched(list[1..], id, p);
      assert Patched(list, id, p)[1..] == Patched(list[1..], id, p);
    }
  }

  // ---------------------------------------------------------------- after unmounting

  /** Everything made so far has been revoked exactly once, whatever the lists still hold. */
  ghost predicate AllRevoked(s: State) {
    forall u: nat :: u < s.made ==> multiset(s.revoked)[u] == 1
  }

  ghost predicate OnlyMade(s: State) {
    forall u <- s.revoked :: u < s.made
  }

  /** What unmounting makes of a state: every URL that was still held is revoked as well.
      The lists stay as they are. */
  ghost predicate IsUnmounted(s: State, u: State) {
    u == s.(revoked := u.revoked) && s.revoked <= u.revoked && AllRevoked(u) && OnlyMade(u)
  }

  /** A thumbnail arrives for an entry that is still listed. */
  ghost predicate LeaksAt(s: State, e: Event) {
    e.ThumbnailReady? && e.id in s.jobs && s.jobs[e.id].ThumbnailJob? && HasId(ListOf(s, s.jobs[e.id].sid), e.id)
  }

  /** One completion after unmounting: a thumbnail is revoked if and only if its entry was
      gone already. An entry that is still listed takes the new URL, and nobody is left to
      revoke it. */
  lemma ThumbnailAfterUnmount(s: State, e: Event)
    requires OnlyMade(s) && IsCompletion(e)
    ensures var d := Step(s, e);
            OnlyMade(d) && (AllRevoked(d) <==> AllRevoked(s) && !LeaksAt(s, e))
  {
    hide Patched, Without, HasId, Apply;
    var d := Step(s, e);
    if e.ThumbnailReady? && e.id in s.jobs && s.jobs[e.id].ThumbnailJob? {
      assert s.made !in s.revoked;
      if LeaksAt(s, e) {
        assert d.revoked == s.revoked && d.made == s.made + 1;
        assert multiset(d.revoked)[s.made] == 0;
      } else {
        assert d.revoked == s.revoked + [s.made] && d.made == s.made + 1;
        forall u: nat | u < s.made ensures multiset(d.revoked)[u] == multiset(s.revoked)[u] {}
      }
    } else {
      assert d.revoked == s.revoked && d.made == s.made;
    }
  }

  /** Whatever completes after unmounting, in whatever order: all URLs are revoked if and
      only if no thumbnail arrived for an entry that was still listed. */
  lemma {:induction false} RevokedAfterUnmountIff(s: State, u: State, events: seq<Event>)
    requires IsUnmounted(s, u)
    requires forall i :: 0 <= i < |events| ==> IsCompletion(events[i])
    ensures OnlyMade(RunFrom(u, events))
    ensures AllRevoked(RunFrom(u, events))
            <==> forall i :: 0 <= i < |events| ==> !LeaksAt(RunFrom(u, events[..i]), events[i])
  {
    if events != [] {
      hide Step, IsCompletion, LeaksAt, AllRevoked, OnlyMade;
      var n := |events| - 1;
      var init := events[..n];
      forall i | 0 <= i < n ensures IsCompletion(init[i]) { assert init[i] == events[i]; }
      RevokedAfterUnmountIff(s, u, init);
      ThumbnailAfterUnmount(RunFrom(u, init), events[n]);
      forall i | 0 <= i <= n ensures init[..i] == events[..i] {}
      forall i | 0 <= i < n ensures init[i] == events[i] {}
    }
  }

  function OneImage(): seq<Event> {
    [Load("", [Item(Some("f"), ImageKind, "/files/f", false, None)], true)]
  }

  /** And one does leak: an image is loaded, the composable is unmounted, the thumbnail
      arrives. */
  lemma LeakAfterUnmount(u: State)
    requires IsUnmounted(Run(OneImage()), u)
    ensures !AllRevoked(RunFrom(u, [ThumbnailReady(1)]))
    ensures IsUnmounted(Run(OneImage()), Run(OneImage()))
  {
    var item := Item(Some("f"), ImageKind, "/files/f", false, None);
    var entry := Attachment(1, "image", ImageKind, Some(Foreign("/files/f")), None, None, false, Some("f"), None);
    var s := Run(OneImage());
    assert s == State(map["" := [entry]], 1, map[1 := ThumbnailJob("")], 0, []) by { OneImageLoaded(item, entry); }
    assert u.sessions[""][0] == entry;
    assert LeaksAt(u, ThumbnailReady(1));
    ThumbnailAfterUnmount(u, ThumbnailReady(1));
    assert [ThumbnailReady(1)][..0] == [];
    assert RunFrom(u, [ThumbnailReady(1)]) == Step(u, ThumbnailReady(1));
  }

  lemma OneImageLoaded(item: Item, entry: Attachment)
    requires item == Item(Some("f"), ImageKind, "/files/f", false, None)
    requires entry == Attachment(1, "image", ImageKind, Some(Foreign("/files/f")), None, None, false, Some("f"), None)
    ensures Run(OneImage()) == State(map["" := [entry]], 1, map[1 := ThumbnailJob("")], 0, [])
  {
    assert OneImage()[..0] == [] && [item][..0] == [];
    assert Run(OneImage()) == Step(INIT, Load("", [item], true));
    var cleared := State(map["" := []], 0, map[], 0, []);
    assert DoClear(INIT, "") == cleared;
    assert LoadAll(cleared, "", [item], true) == LoadOne(cleared, "", item, true);
    assert [] + [entry] == [entry];
  }
}
