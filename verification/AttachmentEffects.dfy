/** What each event does to the entries of a session, field by field. */
module AttachmentEffects {
  import opened Wrappers
  import opened AttachmentModel

  // ---------------------------------------------------------------- picked files

  predicate StartsWith(s: string, prefix: string) {
    |prefix| <= |s| && forall i :: 0 <= i < |prefix| ==> s[i] == prefix[i]
  }

  predicate IsMedia(f: File) {
    StartsWith(f.mime, "image/") || StartsWith(f.mime, "video/")
  }

  function MediaCount(files: seq<File>): nat {
    if files == [] then 0
    else MediaCount(files[..|files| - 1]) + (if IsMedia(files[|files| - 1]) then 1 else 0)
  }

  /** The entry of a picked file: under way, with an object URL of its own if it is an image
      or a video, and with a default type if it has none. */
  ghost predicate IsEntryOfFile(a: Attachment, f: File, id: nat, url: nat) {
    && a.localId == id && a.name == f.name && a.size == Some(f.size)
    && a.uploading && a.fileId == None && a.error == None
    && a.kind == (if StartsWith(f.mime, "image/") then ImageKind
                  else if StartsWith(f.mime, "video/") then VideoKind else FileKind)
    && a.previewUrl == (if IsMedia(f) then Some(Made(url)) else None)
    && a.mediaType == Some(if f.mime == "" then "application/octet-stream" else f.mime)
  }

  /** Only session `sid` has another list. */
  ghost predicate OnlySession(s: State, d: State, sid: string) {
    forall other :: other != sid ==> ListOf(d, other) == ListOf(s, other)
  }

  lemma KindIs(mime: string)
    ensures "image/" <= mime <==> StartsWith(mime, "image/")
    ensures "video/" <= mime <==> StartsWith(mime, "video/")
    ensures StartsWith(mime, "image/") ==> !StartsWith(mime, "video/")
  {
    if "image/" <= mime { assert mime[..6] == "image/"; }
    if "video/" <= mime { assert mime[..6] == "video/"; }
    if StartsWith(mime, "image/") { assert mime[..6] == "image/" && mime[0] == 'i'; }
    if StartsWith(mime, "video/") { assert mime[..6] == "video/" && mime[0] == 'v'; }
  }

  lemma AddOneIs(s: State, sid: string, f: File)
    ensures var d, list := AddOne(s, sid, f), ListOf(s, sid);
            && |ListOf(d, sid)| == |list| + 1 && ListOf(d, sid)[..|list|] == list
            && IsEntryOfFile(ListOf(d, sid)[|list|], f, s.counter + 1, s.made)
            && OnlySession(s, d, sid) && d.revoked == s.revoked
            && d.counter == s.counter + 1 && d.made == s.made + (if IsMedia(f) then 1 else 0)
            && d.jobs == s.jobs[s.counter + 1 := UploadJob(sid)]
  {
    hide StartsWith;
    KindIs(f.mime);
  }

  /** Adding files appends to the list of the session; those of other sessions stay, and
      nothing is revoked. */
  lemma {:induction false} ListGrows(s: State, sid: string, files: seq<File>)
    ensures var d, list := AddAll(s, sid, files), ListOf(s, sid);
            && |ListOf(d, sid)| == |list| + |files| && ListOf(d, sid)[..|list|] == list
            && OnlySession(s, d, sid) && d.revoked == s.revoked
            && d.counter == s.counter + |files| && d.made == s.made + MediaCount(files)
  {
    hide IsEntryOfFile, IsMedia, AddOne, OnlySession, ListOf;
    if files == [] {
      NothingChanges(s, sid);
    } else {
      var n := |files| - 1;
      ListGrows(s, sid, files[..n]);
      var c := AddAll(s, sid, files[..n]);
      AddOneIs(c, sid, files[n]);
      var d := AddAll(s, sid, files);
      SessionsStay(s, c, d, sid);
      assert ListOf(d, sid)[..|ListOf(s, sid)|] == ListOf(c, sid)[..|ListOf(s, sid)|];
    }
  }

  /** File `i` gets the entry at its place, with the next id and, if it is media, the next
      object URL. */
  lemma {:induction false} FilesAreAdded(s: State, sid: string, files: seq<File>, i: nat)
    requires i < |files|
    ensures var d, list := AddAll(s, sid, files), ListOf(s, sid);
            && |ListOf(d, sid)| == |list| + |files| && ListOf(d, sid)[..|list|] == list
            && IsEntryOfFile(ListOf(d, sid)[|list| + i], files[i], s.counter + 1 + i, s.made + MediaCount(files[..i]))
            && OnlySession(s, d, sid) && d.revoked == s.revoked
            && d.counter == s.counter + |files| && d.made == s.made + MediaCount(files)
    decreases |files|
  {
    hide IsEntryOfFile, IsMedia, AddOne, OnlySession, ListOf, MediaCount;
    var n := |files| - 1;
    var init := files[..n];
    ListGrows(s, sid, files);
    ListGrows(s, sid, init);
    var c, d := AddAll(s, sid, init), AddAll(s, sid, files);
    AddOneIs(c, sid, files[n]);
    if i < n {
      FilesAreAdded(s, sid, init, i);
      assert init[..i] == files[..i] && init[i] == files[i];
      var at, before := |ListOf(s, sid)| + i, ListOf(c, sid);
      assert ListOf(d, sid)[..|before|][at] == before[at];
    }
  }

  lemma NothingChanges(s: State, sid: string)
    ensures OnlySession(s, s, sid) && ListOf(s, sid)[..|ListOf(s, sid)|] == ListOf(s, sid)
  {}

  lemma SessionsStay(s: State, c: State, d: State, sid: string)
    requires OnlySession(s, c, sid) && OnlySession(c, d, sid)
    ensures OnlySession(s, d, sid)
  {}

  /** ... and starts an upload for each, bound to the session. */
  lemma {:induction false} FilesAreUploaded(s: State, sid: string, files: seq<File>)
    ensures var d := AddAll(s, sid, files);
            && d.counter == s.counter + |files|
            && (forall id :: id in d.jobs <==> id in s.jobs || s.counter < id <= s.counter + |files|)
            && (forall id <- d.jobs :: d.jobs[id] == if s.counter < id <= s.counter + |files| then UploadJob(sid) else s.jobs[id])
  {
    hide AddOne;
    if files != [] {
      FilesAreUploaded(s, sid, files[..|files| - 1]);
      AddOneIs(AddAll(s, sid, files[..|files| - 1]), sid, files[|files| - 1]);
    }
  }

  /** All this only if there is a way to upload. */
  lemma AddingNeedsUpload(s: State, sid: string, files: seq<File>)
    ensures Step(s, AddFiles(sid, files, true)) == AddAll(s, sid, files)
    ensures Step(s, AddFiles(sid, files, false)) == s
  {}

  // ---------------------------------------------------------------- loaded entries

  predicate HasFile(item: Item) {
    item.fileId.Some? && item.fileId.value != ""
  }

  /** The item gets an entry: it has a file, or a URL that can be uploaded again. */
  predicate IsLoaded(item: Item, canUpload: bool) {
    HasFile(item) || (item.url != "" && canUpload)
  }

  ghost predicate IsEntryOfItem(a: Attachment, item: Item, id: nat) {
    && a.localId == id && a.kind == item.kind && a.mediaType == None && a.size == None && a.error == None
    && a.name == (match item.name
                  case Some(name) => name
                  case None => match item.kind
                               case ImageKind => "image"
                               case VideoKind => "video"
                               case FileKind => "file")
    && a.uploading == !HasFile(item)
    && a.fileId == (if HasFile(item) then item.fileId else None)
    && a.previewUrl == (if HasFile(item) && item.kind == FileKind then None else Some(Foreign(item.url)))
  }

  /** What is started for a loaded item: a thumbnail for stored media with a remote URL, an
      upload for an item without a file. */
  function JobOf(sid: string, item: Item): Option<Job> {
    if !HasFile(item) then Some(ReuploadJob(sid))
    else if item.kind != FileKind && !item.isLocal then Some(ThumbnailJob(sid))
    else None
  }

  /** How many of the first items get an entry. */
  function LoadedCount(items: seq<Item>, canUpload: bool): nat {
    if items == [] then 0
    else LoadedCount(items[..|items| - 1], canUpload) + (if IsLoaded(items[|items| - 1], canUpload) then 1 else 0)
  }

  lemma LoadOneIs(s: State, sid: string, item: Item, canUpload: bool)
    ensures var d, list := LoadOne(s, sid, item, canUpload), ListOf(s, sid);
            && d.counter == s.counter + 1 && d.made == s.made && d.revoked == s.revoked && OnlySession(s, d, sid)
            && (if IsLoaded(item, canUpload) then
                  && |ListOf(d, sid)| == |list| + 1 && ListOf(d, sid)[..|list|] == list
                  && IsEntryOfItem(ListOf(d, sid)[|list|], item, s.counter + 1)
                  && d.jobs == (if JobOf(sid, item).Some? then s.jobs[s.counter + 1 := JobOf(sid, item).value] else s.jobs)
                else ListOf(d, sid) == list && d.jobs == s.jobs)
  {}

  /** Loading appends one entry for each item that has a file or a URL to upload, in order.
      Every item uses up an id, also one that is skipped. */
  lemma {:induction false} ItemsAreLoaded(s: State, sid: string, items: seq<Item>, canUpload: bool)
    ensures var d, list := LoadAll(s, sid, items, canUpload), ListOf(s, sid);
            && |ListOf(d, sid)| == |list| + LoadedCount(items, canUpload) && ListOf(d, sid)[..|list|] == list
            && (forall i :: 0 <= i < |items| && IsLoaded(items[i], canUpload) ==>
                  && LoadedCount(items[..i], canUpload) < LoadedCount(items, canUpload)
                  && IsEntryOfItem(ListOf(d, sid)[|list| + LoadedCount(items[..i], canUpload)], items[i], s.counter + 1 + i))
            && OnlySession(s, d, sid) && d.revoked == s.revoked && d.made == s.made
            && d.counter == s.counter + |items|
  {
    hide IsEntryOfItem, IsLoaded, JobOf, LoadOne, OnlySession, ListOf;
    if items == [] {
      NothingChanges(s, sid);
    } else {
      var n := |items| - 1;
      var init := items[..n];
      ItemsAreLoaded(s, sid, init, canUpload);
      var c := LoadAll(s, sid, init, canUpload);
      LoadOneIs(c, sid, items[n], canUpload);
      var d := LoadAll(s, sid, items, canUpload);
      SessionsStay(s, c, d, sid);
      var list, before, after := ListOf(s, sid), ListOf(c, sid), ListOf(d, sid);
      assert after[..|before|] == before;
      assert after[..|list|] == before[..|list|];
      forall i | 0 <= i < |items| && IsLoaded(items[i], canUpload)
        ensures LoadedCount(items[..i], canUpload) < LoadedCount(items, canUpload)
        ensures IsEntryOfItem(after[|list| + LoadedCount(items[..i], canUpload)], items[i], s.counter + 1 + i)
      {
        if i < n {
          assert init[..i] == items[..i] && init[i] == items[i];
          var at := |list| + LoadedCount(items[..i], canUpload);
          assert after[at] == after[..|before|][at] == before[at];
        }
      }
    }
  }

  /** ... and starts for each what is still to be fetched or sent. */
  lemma {:induction false} ItemsAreFetched(s: State, sid: string, items: seq<Item>, canUpload: bool, id: nat)
    ensures var d, i := LoadAll(s, sid, items, canUpload), id - s.counter - 1;
            && d.counter == s.counter + |items|
            && (if 0 <= i < |items| && IsLoaded(items[i], canUpload) && JobOf(sid, items[i]).Some?
                then id in d.jobs && d.jobs[id] == JobOf(sid, items[i]).value
                else (id in d.jobs <==> id in s.jobs) && (id in s.jobs ==> d.jobs[id] == s.jobs[id]))
  {
    hide IsLoaded, JobOf, LoadOne;
    if items != [] {
      var n := |items| - 1;
      ItemsAreFetched(s, sid, items[..n], canUpload, id);
      LoadOneIs(LoadAll(s, sid, items[..n], canUpload), sid, items[n], canUpload);
    }
  }

  // ---------------------------------------------------------------- removing, clearing, loading

  /** The object URLs of a list, in order. */
  function UrlsOf(list: seq<Attachment>): seq<nat> {
    if list == [] then []
    else (match list[0].previewUrl case Some(Made(u)) => [u] case _ => []) + UrlsOf(list[1..])
  }

  lemma {:induction false} UrlsSnoc(list: seq<Attachment>, a: Attachment)
    ensures UrlsOf(list + [a]) == UrlsOf(list) + (match a.previewUrl case Some(Made(u)) => [u] case _ => [])
  {
    if list == [] {
      assert list + [a] == [a];
    } else {
      assert (list + [a])[1..] == list[1..] + [a];
      UrlsSnoc(list[1..], a);
    }
  }

  lemma {:induction false} AllAreRevoked(s: State, list: seq<Attachment>)
    ensures RevokeAll(s, list) == s.(revoked := s.revoked + UrlsOf(list))
  {
    if list == [] {
      assert s.revoked + [] == s.revoked;
    } else {
      var n := |list| - 1;
      AllAreRevoked(s, list[..n]);
      UrlsSnoc(list[..n], list[n]);
      assert list[..n] + [list[n]] == list;
    }
  }

  /** Clearing revokes the session's URLs and empties its list; loading does so first. */
  lemma ClearingRevokes(s: State, sid: string)
    ensures var d := Step(s, Clear(sid));
            && ListOf(d, sid) == [] && OnlySession(s, d, sid)
            && d.revoked == s.revoked + UrlsOf(ListOf(s, sid))
            && d.counter == s.counter && d.made == s.made && d.jobs == s.jobs
    ensures forall items, canUpload ::
              Step(s, Load(sid, items, canUpload)) == LoadAll(Step(s, Clear(sid)), sid, items, canUpload)
  {
    AllAreRevoked(s, ListOf(s, sid));
  }

  lemma {:induction false} WithoutOnly(list: seq<Attachment>, i: nat)
    requires DistinctList(list) && i < |list|
    ensures AttachmentModel.Without(list, list[i].localId) == list[..i] + list[i + 1..]
  {
    if i == 0 {
      WithoutNone(list[1..], list[0].localId);
      assert list[..0] + list[1..] == list[1..];
    } else {
      assert list[0].localId != list[i].localId;
      WithoutOnly(list[1..], i - 1);
      assert list[..i] + list[i + 1..] == [list[0]] + (list[1..][..i - 1] + list[1..][i..]);
    }
  }

  lemma {:induction false} WithoutNone(list: seq<Attachment>, id: nat)
    requires forall i :: 0 <= i < |list| ==> list[i].localId != id
    ensures AttachmentModel.Without(list, id) == list
  {
    if list != [] {
      WithoutNone(list[1..], id);
      assert list == [list[0]] + list[1..];
    }
  }

  /** The entry with the id, if listed. */
  ghost predicate IsAt(list: seq<Attachment>, id: nat, i: nat) {
    i < |list| && list[i].localId == id
  }

  ghost predicate IsNowhere(list: seq<Attachment>, id: nat) {
    forall i :: 0 <= i < |list| ==> list[i].localId != id
  }

  /** Removing an entry takes it out of its list and revokes its own object URL. */
  lemma RemovingDrops(s: State, sid: string, id: nat, i: nat)
    requires Inv(s)
    ensures var d, list := Step(s, Remove(sid, id)), ListOf(s, sid);
            && OnlySession(s, d, sid) && d.counter == s.counter && d.made == s.made && d.jobs == s.jobs
            && (IsAt(list, id, i) ==>
                  ListOf(d, sid) == list[..i] + list[i + 1..] && d.revoked == s.revoked + UrlsOf([list[i]]))
            && (IsNowhere(list, id) ==> ListOf(d, sid) == list && d.revoked == s.revoked)
  {
    hide UrlsAccounted, JobsMatch, AttachmentModel.Without;
    var list := ListOf(s, sid);
    assert DistinctList(list) by { ListsAreDistinct(s, sid); }
    assert s.revoked + [] == s.revoked;
    if IsAt(list, id, i) {
      WithoutOnly(list, i);
      assert FindId(list, id) == i;
      assert UrlsOf([list[i]]) == (match list[i].previewUrl case Some(Made(u)) => [u] case _ => []) by {
        assert [list[i]][1..] == [];
        assert UrlsOf([]) == [];
      }
    }
    if IsNowhere(list, id) { WithoutNone(list, id); }
  }

  lemma ListsAreDistinct(s: State, sid: string)
    requires Inv(s)
    ensures DistinctList(ListOf(s, sid))
  {}

  // ---------------------------------------------------------------- completions

  /** The same but for the list of `sid` and the work `id`, which is over. */
  ghost predicate WorkDone(s: State, d: State, sid: string, id: nat) {
    && OnlySession(s, d, sid) && d.counter == s.counter
    && (forall j :: j in d.jobs <==> j in s.jobs && j != id)
    && (forall j <- d.jobs :: d.jobs[j] == s.jobs[j])
  }

  /** The list with entry `i` replaced. */
  ghost predicate OnlyEntry(list: seq<Attachment>, after: seq<Attachment>, i: nat) {
    |after| == |list| && i < |list| && forall j :: 0 <= j < |list| && j != i ==> after[j] == list[j]
  }

  /** An upload that came back: the entry is no longer under way, has the file's id and, if
      given, its type; refused or failed, it is marked. An entry that is gone stays gone. */
  lemma UploadedEffect(s: State, id: nat, result: Option<UploadResult>, i: nat)
    requires Inv(s) && id in s.jobs && s.jobs[id].UploadJob?
    ensures var sid := s.jobs[id].sid;
            var d, list := Step(s, Uploaded(id, result)), ListOf(s, sid);
            && WorkDone(s, d, sid, id) && d.made == s.made && d.revoked == s.revoked
            && (IsAt(list, id, i) ==>
                  && OnlyEntry(list, ListOf(d, sid), i)
                  && ListOf(d, sid)[i] ==
                     (match result
                      case None => list[i].(uploading := false, fileId := None, error := Some(true))
                      case Some(r) =>
                        list[i].(uploading := false, fileId := Some(r.fileId), error := Some(false),
                                 mediaType := match r.mediaType case Some(t) => Some(t) case None => list[i].mediaType)))
            && (IsNowhere(list, id) ==> ListOf(d, sid) == list)
  {
    hide UrlsAccounted, JobsMatch;
    assert DistinctList(ListOf(s, s.jobs[id].sid)) by { ListsAreDistinct(s, s.jobs[id].sid); }
  }

  lemma UploadThrewEffect(s: State, id: nat, i: nat)
    requires Inv(s) && id in s.jobs && s.jobs[id].UploadJob?
    ensures var sid := s.jobs[id].sid;
            var d, list := Step(s, UploadThrew(id)), ListOf(s, sid);
            && WorkDone(s, d, sid, id) && d.made == s.made && d.revoked == s.revoked
            && (IsAt(list, id, i) ==>
                  && OnlyEntry(list, ListOf(d, sid), i)
                  && ListOf(d, sid)[i] == list[i].(uploading := false, error := Some(true)))
            && (IsNowhere(list, id) ==> ListOf(d, sid) == list)
  {
    hide UrlsAccounted, JobsMatch;
    assert DistinctList(ListOf(s, s.jobs[id].sid)) by { ListsAreDistinct(s, s.jobs[id].sid); }
  }

  /** A thumbnail that came back gets an object URL: the entry's preview if it is listed, and
      revoked at once if not. One that failed changes nothing. */
  lemma ThumbnailEffect(s: State, id: nat, i: nat)
    requires Inv(s) && id in s.jobs && s.jobs[id].ThumbnailJob?
    ensures var sid := s.jobs[id].sid;
            var d, list := Step(s, ThumbnailReady(id)), ListOf(s, sid);
            && WorkDone(s, d, sid, id) && d.made == s.made + 1
            && (IsAt(list, id, i) ==>
                  && OnlyEntry(list, ListOf(d, sid), i) && d.revoked == s.revoked
                  && ListOf(d, sid)[i] == list[i].(previewUrl := Some(Made(s.made))))
            && (IsNowhere(list, id) ==> ListOf(d, sid) == list && d.revoked == s.revoked + [s.made])
    ensures var d := Step(s, ThumbnailFailed(id));
            && WorkDone(s, d, s.jobs[id].sid, id) && d.made == s.made && d.revoked == s.revoked
            && d.sessions == s.sessions
  {
    hide UrlsAccounted, JobsMatch;
    var list := ListOf(s, s.jobs[id].sid);
    assert DistinctList(list) by { ListsAreDistinct(s, s.jobs[id].sid); }
    assert IsAt(list, id, i) ==> HasId(list, id);
  }

  /** An upload of a loaded URL: the entry gets the file's id; refused or, below, failed, the
      entry goes, since it could not be sent. */
  lemma ReuploadEffect(s: State, id: nat, result: Option<UploadResult>, i: nat)
    requires Inv(s) && id in s.jobs && s.jobs[id].ReuploadJob?
    ensures var sid := s.jobs[id].sid;
            var d, list := Step(s, Reuploaded(id, result)), ListOf(s, sid);
            && WorkDone(s, d, sid, id) && d.made == s.made && d.revoked == s.revoked
            && (IsAt(list, id, i) && result.Some? ==>
                  && OnlyEntry(list, ListOf(d, sid), i)
                  && ListOf(d, sid)[i] == list[i].(uploading := false, fileId := Some(result.value.fileId)))
            && (IsAt(list, id, i) && result.None? ==> ListOf(d, sid) == list[..i] + list[i + 1..])
            && (IsNowhere(list, id) ==> ListOf(d, sid) == list)
  {
    hide UrlsAccounted, JobsMatch, AttachmentModel.Without;
    var list := ListOf(s, s.jobs[id].sid);
    assert DistinctList(list) by { ListsAreDistinct(s, s.jobs[id].sid); }
    if IsAt(list, id, i) {
      WithoutOnly(list, i);
      assert HasId(list, id);
    }
    if IsNowhere(list, id) { WithoutNone(list, id); }
  }

  lemma ReuploadThrewEffect(s: State, id: nat, i: nat)
    requires Inv(s) && id in s.jobs && s.jobs[id].ReuploadJob?
    ensures var sid := s.jobs[id].sid;
            var d, list := Step(s, ReuploadThrew(id)), ListOf(s, sid);
            && WorkDone(s, d, sid, id) && d.made == s.made && d.revoked == s.revoked
            && (IsAt(list, id, i) ==> ListOf(d, sid) == list[..i] + list[i + 1..])
            && (IsNowhere(list, id) ==> ListOf(d, sid) == list)
  {
    hide UrlsAccounted, JobsMatch, AttachmentModel.Without;
    var list := ListOf(s, s.jobs[id].sid);
    assert DistinctList(list) by { ListsAreDistinct(s, s.jobs[id].sid); }
    if IsAt(list, id, i) { WithoutOnly(list, i); }
    if IsNowhere(list, id) { WithoutNone(list, id); }
  }

  /** A completion for work that is not under way, or of another sort, does nothing. */
  lemma StrayCompletionsDoNothing(s: State, id: nat, result: Option<UploadResult>)
    ensures id !in s.jobs || !s.jobs[id].UploadJob? ==> Step(s, Uploaded(id, result)) == s == Step(s, UploadThrew(id))
    ensures id !in s.jobs || !s.jobs[id].ThumbnailJob? ==> Step(s, ThumbnailReady(id)) == s == Step(s, ThumbnailFailed(id))
    ensures id !in s.jobs || !s.jobs[id].ReuploadJob? ==> Step(s, Reuploaded(id, result)) == s == Step(s, ReuploadThrew(id))
  {}
}
