/** `useAttachmentUpload` in its own form: the per-session lists are reassigned by handlers
    and by late completions. Every handler is proved to take the step of `AttachmentModel`. */
module AttachmentUpload {
  import opened Wrappers
  import opened AttachmentModel

  class Attachments {
    var attachmentsBySession: map<string, seq<Attachment>>
    var localIdCounter: nat
    // Stands for the browser's own supply of object URLs.
    var createdUrls: nat
    ghost var jobs: map<nat, Job>
    ghost var revoked: seq<nat>
    ghost var base: State
    ghost var history: seq<Event>

    ghost function View(): State
      reads this
    {
      State(attachmentsBySession, localIdCounter, jobs, createdUrls, revoked)
    }

    /** The fields are what `history` has made of `base`, the fresh state or, once it was
        unmounted, the state unmounting left. */
    ghost predicate Valid()
      reads this
    {
      View() == RunFrom(base, history)
    }

    ghost predicate Mounted()
      reads this
    {
      base == INIT
    }

    /** So everything proved of runs holds of every composable that is mounted. */
    lemma ValidIsInv()
      requires Valid() && Mounted()
      ensures Inv(View())
    {
      RunsKeep(history);
    }

    ghost method Record(e: Event)
      requires View() == Step(RunFrom(base, history), e)
      modifies this`history
      ensures Valid() && View() == old(View()) && base == old(base)
    {
      assert (history + [e])[..|history|] == history;
      history := history + [e];
    }

    constructor ()
      ensures Valid() && Mounted() && View() == INIT
    {
      attachmentsBySession, localIdCounter, createdUrls := map[], 0, 0;
      jobs, revoked, base, history := map[], [], INIT, [];
    }

    function Current(sid: string): seq<Attachment>
      reads this
    {
      if sid in attachmentsBySession then attachmentsBySession[sid] else []
    }

    /** `setForSession`. */
    method SetForSession(sid: string, next: seq<Attachment>)
      modifies this`attachmentsBySession
      ensures View() == SetFor(old(View()), sid, next)
    {
      attachmentsBySession := attachmentsBySession[sid := next];
    }

    /** `revokeAttachment`. */
    method RevokeAttachment(a: Attachment)
      modifies this`revoked
      ensures View() == RevokeOne(old(View()), a)
    {
      if a.previewUrl.Some? && a.previewUrl.value.Made? { revoked := revoked + [a.previewUrl.value.id]; }
    }

    /** The revoking loop of `clearAfterSubmit`, `loadAttachments` and unmounting. */
    method RevokeList(list: seq<Attachment>)
      modifies this`revoked
      ensures View() == RevokeAll(old(View()), list)
    {
      for i := 0 to |list|
        invariant View() == RevokeAll(old(View()), list[..i])
      {
        assert list[..i + 1][..i] == list[..i];
        RevokeAttachment(list[i]);
      }
      assert list[..|list|] == list;
    }

    /** One file of `addFiles`. */
    method AddFile(sid: string, f: File)
      modifies this
      ensures View() == AddOne(old(View()), sid, f) && history == old(history) && base == old(base)
    {
      var kind := KindOf(f.mime);
      localIdCounter := localIdCounter + 1;
      var localId := localIdCounter;
      var previewUrl := None;
      if kind != FileKind {
        previewUrl := Some(Made(createdUrls));
        createdUrls := createdUrls + 1;
      }
      var mime := if f.mime == "" then "application/octet-stream" else f.mime;
      var att := Attachment(localId, f.name, kind, previewUrl, Some(mime), Some(f.size), true, None, None);
      SetForSession(sid, Current(sid) + [att]);
      jobs := jobs[localId := UploadJob(sid)];
    }

    /** `addFiles`. */
    method AddFilesTo(sid: string, files: seq<File>, canUpload: bool)
      requires Valid()
      modifies this
      ensures Valid() && View() == Step(old(View()), AddFiles(sid, files, canUpload)) && base == old(base)
    {
      if canUpload {
        for i := 0 to |files|
          invariant View() == AddAll(old(View()), sid, files[..i]) && history == old(history) && base == old(base)
        {
          assert files[..i + 1][..i] == files[..i];
          AddFile(sid, files[i]);
        }
        assert files[..|files|] == files;
      }
      Record(AddFiles(sid, files, canUpload));
    }

    /** `removeAttachment`. */
    method RemoveAttachment(sid: string, localId: nat)
      requires Valid()
      modifies this
      ensures Valid() && View() == Step(old(View()), Remove(sid, localId)) && base == old(base)
    {
      var current := Current(sid);
      var i := FindId(current, localId);
      if i < |current| { RevokeAttachment(current[i]); }
      SetForSession(sid, AttachmentModel.Without(current, localId));
      Record(Remove(sid, localId));
    }

    method RevokeAndEmpty(sid: string)
      modifies this`attachmentsBySession, this`revoked
      ensures View() == DoClear(old(View()), sid)
    {
      ghost var s := View();
      RevokeList(Current(sid));
      SetForSession(sid, []);
    }

    /** `clearAfterSubmit`. */
    method ClearAfterSubmit(sid: string)
      requires Valid()
      modifies this
      ensures Valid() && View() == Step(old(View()), Clear(sid)) && base == old(base)
    {
      RevokeAndEmpty(sid);
      Record(Clear(sid));
    }

    /** One item of `loadAttachments`. */
    method LoadItem(sid: string, item: Item, canUpload: bool)
      modifies this
      ensures View() == LoadOne(old(View()), sid, item, canUpload) && history == old(history) && base == old(base)
    {
      localIdCounter := localIdCounter + 1;
      var localId := localIdCounter;
      var name := if item.name.Some? then item.name.value else KindName(item.kind);
      if item.fileId.Some? && item.fileId.value != "" {
        var previewUrl := if item.kind == FileKind then None else Some(Foreign(item.url));
        var entry := Attachment(localId, name, item.kind, previewUrl, None, None, false, item.fileId, None);
        SetForSession(sid, Current(sid) + [entry]);
        if item.kind != FileKind && !item.isLocal { jobs := jobs[localId := ThumbnailJob(sid)]; }
      } else {
        if item.url == "" || !canUpload { return; }
        var entry := Attachment(localId, name, item.kind, Some(Foreign(item.url)), None, None, true, None, None);
        SetForSession(sid, Current(sid) + [entry]);
        jobs := jobs[localId := ReuploadJob(sid)];
      }
    }

    /** `loadAttachments`. */
    method LoadAttachments(sid: string, items: seq<Item>, canUpload: bool)
      requires Valid()
      modifies this
      ensures Valid() && View() == Step(old(View()), Load(sid, items, canUpload)) && base == old(base)
    {
      RevokeAndEmpty(sid);
      ghost var s := View();
      for i := 0 to |items|
        invariant View() == LoadAll(s, sid, items[..i], canUpload) && history == old(history) && base == old(base)
      {
        assert items[..i + 1][..i] == items[..i];
        LoadItem(sid, items[i], canUpload);
      }
      assert items[..|items|] == items;
      Record(Load(sid, items, canUpload));
    }

    /** `patchAttachment`. */
    method PatchAttachment(sid: string, localId: nat, p: Patch)
      modifies this`attachmentsBySession
      ensures View() == DoPatch(old(View()), sid, localId, p)
    {
      var current := Current(sid);
      if FindId(current, localId) == |current| { return; }
      assert current[FindId(current, localId)].localId == localId;
      SetForSession(sid, Patched(current, localId, p));
    }

    /** The continuation of an upload; `result` is `None` when it was refused. */
    method UploadSettled(sid: string, localId: nat, result: Option<UploadResult>)
      requires Valid() && localId in jobs && jobs[localId] == UploadJob(sid)
      modifies this
      ensures Valid() && View() == Step(old(View()), Uploaded(localId, result)) && base == old(base)
    {
      jobs := jobs - {localId};
      SetForSession(sid, Patched(Current(sid), localId, UploadDone(result)));
      Record(Uploaded(localId, result));
    }

    /** The continuation of an upload that threw. */
    method UploadFailed(sid: string, localId: nat)
      requires Valid() && localId in jobs && jobs[localId] == UploadJob(sid)
      modifies this
      ensures Valid() && View() == Step(old(View()), UploadThrew(localId)) && base == old(base)
    {
      jobs := jobs - {localId};
      SetForSession(sid, Patched(Current(sid), localId, UploadError));
      Record(UploadThrew(localId));
    }

    /** The continuation of a thumbnail fetch. */
    method ThumbnailSettled(sid: string, localId: nat)
      requires Valid() && localId in jobs && jobs[localId] == ThumbnailJob(sid)
      modifies this
      ensures Valid() && View() == Step(old(View()), ThumbnailReady(localId)) && base == old(base)
    {
      jobs := jobs - {localId};
      var blobUrl := createdUrls;
      createdUrls := createdUrls + 1;
      var i := FindId(Current(sid), localId);
      if i == |Current(sid)| {
        revoked := revoked + [blobUrl];
      } else {
        assert HasId(Current(sid), localId);
        PatchAttachment(sid, localId, Thumbnail(blobUrl));
      }
      Record(ThumbnailReady(localId));
    }

    /** The continuation of a re-upload; refused or thrown, the entry goes. */
    method ReuploadSettled(sid: string, localId: nat, result: Option<UploadResult>)
      requires Valid() && localId in jobs && jobs[localId] == ReuploadJob(sid)
      modifies this
      ensures Valid() && View() == Step(old(View()), Reuploaded(localId, result)) && base == old(base)
    {
      jobs := jobs - {localId};
      if result.None? {
        SetForSession(sid, AttachmentModel.Without(Current(sid), localId));
      } else {
        PatchAttachment(sid, localId, Resent(result.value.fileId));
      }
      Record(Reuploaded(localId, result));
    }

    /** What unmounting has revoked after the sessions `done`. */
    ghost predicate RevokedUpTo(s: State, done: set<string>)
      reads this
    {
      && AllDifferent(revoked)
      && forall u :: u in revoked <==>
           u in s.revoked || exists sid, a :: sid in done && Has(s, sid, a) && a.previewUrl == Some(Made(u))
    }

    /** Unmounting: the URLs of every session are revoked, so none made so far is left. */
    method Unmount()
      requires Valid() && Mounted()
      modifies this
      ensures Valid() && base == View() && history == []
      ensures IsUnmounted(old(View()), View())
    {
      ghost var s := View();
      ValidIsInv();
      var rest := attachmentsBySession.Keys;
      while rest != {}
        invariant rest <= attachmentsBySession.Keys && View() == s.(revoked := revoked)
        invariant s.revoked <= revoked && RevokedUpTo(s, attachmentsBySession.Keys - rest)
        decreases rest
      {
        var sid :| sid in rest;
        SessionRevoked(s, attachmentsBySession.Keys - rest, sid, revoked);
        RevokeAllUrls(View(), attachmentsBySession[sid]);
        RevokeList(attachmentsBySession[sid]);
        assert attachmentsBySession.Keys - (rest - {sid}) == attachmentsBySession.Keys - rest + {sid};
        rest := rest - {sid};
      }
      EverythingRevoked(s, revoked);
      base, history := View(), [];
    }

    static lemma EverythingRevoked(s: State, after: seq<nat>)
      requires Inv(s) && AllDifferent(after)
      requires forall u :: u in after <==>
                 u in s.revoked || exists sid, a :: sid in s.sessions.Keys && Has(s, sid, a) && a.previewUrl == Some(Made(u))
      ensures AllRevoked(s.(revoked := after)) && OnlyMade(s.(revoked := after))
    {
      forall u: nat | u < s.made ensures multiset(after)[u] == 1 {
        if Holds(s, u) {
          var sid, a :| Has(s, sid, a) && a.previewUrl == Some(Made(u));
          assert sid in s.sessions.Keys;
        }
        DifferentOnce(after, u);
      }
      forall u | u in after ensures u < s.made {
        if u !in s.revoked {
          var sid, a :| sid in s.sessions.Keys && Has(s, sid, a) && a.previewUrl == Some(Made(u));
        }
      }
    }

    /** One more session: its URLs were not revoked yet, and are all different. */
    static lemma SessionRevoked(s: State, done: set<string>, sid: string, before: seq<nat>)
      requires Inv(s) && sid !in done && AllDifferent(before)
      requires forall u :: u in before <==>
                 u in s.revoked || exists sid', a :: sid' in done && Has(s, sid', a) && a.previewUrl == Some(Made(u))
      ensures var after := before + MadeUrls(ListOf(s, sid));
              && AllDifferent(after)
              && forall u :: u in after <==>
                   u in s.revoked || exists sid', a :: sid' in done + {sid} && Has(s, sid', a) && a.previewUrl == Some(Made(u))
    {
      var list := ListOf(s, sid);
      MadeUrlsMembers(list);
      ListUrlsDistinct(s, sid);
      MadeUrlsDistinct(list);
      forall u | u in MadeUrls(list) ensures u !in before {
        var a :| a in list && a.previewUrl == Some(Made(u));
        assert Has(s, sid, a) && Holds(s, u);
        forall sid', b | sid' in done && Has(s, sid', b) ensures b.previewUrl != Some(Made(u)) {
          assert sid' != sid;
          assert a.localId != b.localId;
        }
      }
      DifferentConcat(before, MadeUrls(list));
      var after := before + MadeUrls(list);
      forall u
        ensures u in after <==>
                  u in s.revoked || exists sid', a :: sid' in done + {sid} && Has(s, sid', a) && a.previewUrl == Some(Made(u))
      {
        if u in MadeUrls(list) {
          var a :| a in list && a.previewUrl == Some(Made(u));
          assert Has(s, sid, a) && sid in done + {sid};
        } else if u in before && u !in s.revoked {
          var sid', a :| sid' in done && Has(s, sid', a) && a.previewUrl == Some(Made(u));
          assert sid' in done + {sid};
        }
      }
    }
  }
}
