/** `useFilePreview` in its own form: refs and variables changed by handlers and by late
    completions. Every handler is proved to take the step of `FilePreviewModel`. */
module FilePreview {
  import opened Wrappers
  import opened FilePreviewModel

  class FilePreviewPanel {
    var detailTarget: Option<Panel>
    var previewTarget: Option<Target>
    var previewFile: Option<FileData>
    var previewLoading: bool
    var previewError: Option<string>
    var previewNormalizedPath: Option<string>
    var previewRequestSeq: nat
    var mediaObjectUrl: Option<nat>
    // Stands for the browser's own supply of object URLs.
    var createdUrls: nat
    ghost var asks: seq<Ask>
    ghost var answers: map<nat, Answer>
    ghost var revoked: seq<nat>
    ghost var history: seq<Event>

    ghost function State(): Preview
      reads this
    {
      Preview(detailTarget,
              View(previewTarget, previewFile, previewLoading, previewError, previewNormalizedPath),
              previewRequestSeq, mediaObjectUrl, asks, answers, createdUrls, revoked)
    }

    ghost predicate Valid()
      reads this
    {
      State() == Run(history)
    }

    /** So everything proved of runs holds of every panel. */
    lemma ValidIsInv()
      requires Valid()
      ensures Inv(State())
    {
      RunsKeep(history);
    }

    ghost method Record(e: Event)
      requires State() == Step(Run(history), e)
      modifies this`history
      ensures Valid() && State() == old(State())
    {
      assert (history + [e])[..|history|] == history;
      history := history + [e];
    }

    constructor ()
      ensures Valid() && State() == INIT
    {
      detailTarget, previewTarget, previewFile, previewError := None, None, None, None;
      previewLoading, previewNormalizedPath, previewRequestSeq := false, None, 0;
      mediaObjectUrl, createdUrls := None, 0;
      asks, answers, revoked, history := [AskNothing], map[], [], [];
    }

    /** `revokeMediaObjectUrl`. */
    method RevokeMediaObjectUrl()
      modifies this`mediaObjectUrl, this`revoked
      ensures State() == Revoke(old(State()))
    {
      if mediaObjectUrl.Some? {
        revoked := revoked + [mediaObjectUrl.value];
        mediaObjectUrl := None;
      }
    }

    /** A new request number; the previous object URL goes, the detail layer is claimed. */
    method Claim(ghost ask: Ask)
      modifies this`previewRequestSeq, this`asks, this`mediaObjectUrl, this`revoked, this`detailTarget
      ensures State() == Begin(old(State()), ask, old(State()).view).(detail := Some(FilePanel))
    {
      previewRequestSeq := previewRequestSeq + 1;
      asks := asks + [ask];
      RevokeMediaObjectUrl();
      detailTarget := Some(FilePanel);
    }

    /** `resetFilePreview`. */
    method ResetFilePreview()
      modifies this
      ensures State() == Reset(old(State())) && history == old(history)
    {
      previewRequestSeq := previewRequestSeq + 1;
      asks := asks + [AskNothing];
      previewTarget, previewNormalizedPath, previewFile, previewError := None, None, None, None;
      previewLoading := false;
      RevokeMediaObjectUrl();
    }

    /** The body of `closeFilePreview`, without the watcher. */
    method ResetAndLeave()
      modifies this
      ensures State() == FilePreviewModel.Close(old(State())) && history == old(history)
    {
      ResetFilePreview();
      if detailTarget == Some(FilePanel) { detailTarget := None; }
    }

    /** The watcher on `detailTarget`, given what it was before the handler. */
    method Watch(before: Option<Panel>)
      modifies this
      ensures State() == (if before == Some(FilePanel) && old(detailTarget) != Some(FilePanel)
                          then Reset(old(State())) else old(State()))
      ensures history == old(history)
    {
      if before == Some(FilePanel) && detailTarget != Some(FilePanel) { ResetFilePreview(); }
    }

    /** `closeFilePreview`. */
    method CloseFilePreview()
      requires Valid()
      modifies this
      ensures Valid() && State() == Step(old(State()), CloseFile)
    {
      var before := detailTarget;
      ResetAndLeave();
      Watch(before);
      Record(CloseFile);
    }

    /** Another panel takes the detail layer, or the file panel is selected again. */
    method SelectPanel(panel: Option<Panel>)
      requires Valid()
      modifies this
      ensures Valid() && State() == Step(old(State()), SwitchPanel(panel))
    {
      var before := detailTarget;
      detailTarget := panel;
      Watch(before);
      Record(SwitchPanel(panel));
    }

    /** `openFilePreview` after the toggle check, up to its `await`. */
    method StartRead(target: Target, normalized: Normalized)
      modifies this
      ensures State() == Begin(old(State()), AskRead(target, normalized), Started(AskRead(target, normalized)))
                           .(detail := Some(FilePanel))
      ensures history == old(history)
    {
      Claim(AskRead(target, normalized));
      previewFile, previewError, previewLoading := None, None, true;
      previewTarget, previewNormalizedPath := Some(target), None;
      if normalized.PathError? {
        previewLoading := false;
        previewError := Some(normalized.message);
      } else {
        previewNormalizedPath := Some(normalized.path);
      }
    }

    /** `openFilePreview` up to its `await`; `normalized` is what the path comes to. The
        request number returned guards the completion. */
    method OpenFilePreview(target: Target, normalized: Normalized) returns (requestSeq: Option<nat>)
      requires Valid()
      modifies this
      ensures Valid() && State() == Step(old(State()), Open(target, normalized))
      ensures requestSeq == if old(IsOpen(State(), target)) || normalized.PathError? then None
                            else Some(previewRequestSeq)
    {
      var before := detailTarget;
      if detailTarget == Some(FilePanel) && previewTarget == Some(target) {
        ResetAndLeave();
        Watch(before);
        requestSeq := None;
      } else {
        StartRead(target, normalized);
        requestSeq := if normalized.Path? then Some(previewRequestSeq) else None;
      }
      Record(Open(target, normalized));
    }

    /** The rest of `openFilePreview`, when the read settles. */
    method ReadSettled(requestSeq: nat, path: string, answer: Answer)
      requires Valid() && CanComplete(State(), requestSeq, answer)
      requires asks[requestSeq].AskRead? && asks[requestSeq].normalized == Path(path)
      modifies this
      ensures Valid() && State() == Step(old(State()), Completed(requestSeq, answer))
    {
      answers := answers[requestSeq := answer];
      if requestSeq == previewRequestSeq {
        match answer {
          case FileRead(Some(f)) => previewFile := Some(f.(path := if f.path != "" then f.path else path));
          case FileRead(None) => previewError := Some(LOAD_FAILED);
          case ReadThrew(message) => previewError := Some(message);
        }
        previewLoading := false;
      }
      Record(Completed(requestSeq, answer));
    }

    method StartData(target: Target, data: FileData, normalized: Normalized)
      modifies this
      ensures State() == Begin(old(State()), AskData(target, data, normalized),
                               Started(AskData(target, data, normalized))).(detail := Some(FilePanel))
      ensures history == old(history)
    {
      Claim(AskData(target, data, normalized));
      previewFile, previewError, previewLoading := Some(data), None, false;
      previewTarget := Some(target);
      previewNormalizedPath := PathOf(normalized);
    }

    /** `openFilePreviewWithData`. */
    method OpenFilePreviewWithData(target: Target, data: FileData, normalized: Normalized)
      requires Valid()
      modifies this
      ensures Valid() && State() == Step(old(State()), OpenWithData(target, data, normalized))
    {
      var before := detailTarget;
      if detailTarget == Some(FilePanel) && previewTarget == Some(target) {
        ResetAndLeave();
        Watch(before);
      } else {
        StartData(target, data, normalized);
      }
      Record(OpenWithData(target, data, normalized));
    }

    method StartMedia(media: Media)
      modifies this
      ensures State() == Begin(old(State()), AskMedia(media), Started(AskMedia(media))).(detail := Some(FilePanel))
      ensures history == old(history)
    {
      Claim(AskMedia(media));
      previewTarget, previewNormalizedPath, previewError := None, None, None;
      if IsStored(media) {
        previewLoading := true;
        previewFile := Some(media.base);
      } else {
        previewLoading := false;
        previewFile := Some(media.base.(source := Some(RawUrl(media.url))));
      }
    }

    /** `openMediaPreview` up to the fetch. */
    method OpenMediaPreview(media: Media)
      requires Valid()
      modifies this
      ensures Valid() && State() == Step(old(State()), OpenMedia(media))
    {
      if media.isImage { StartMedia(media); }
      Record(OpenMedia(media));
    }

    /** The rest of `openMediaPreview`, when the fetch settles. */
    method BlobSettled(requestSeq: nat, media: Media, answer: Answer)
      requires Valid() && CanComplete(State(), requestSeq, answer) && asks[requestSeq] == AskMedia(media)
      modifies this
      ensures Valid() && State() == Step(old(State()), Completed(requestSeq, answer))
    {
      hide Run;
      answers := answers[requestSeq := answer];
      if requestSeq == previewRequestSeq {
        if answer.BlobReady? {
          if detailTarget == Some(FilePanel) && previewFile.Some? {
            mediaObjectUrl := Some(createdUrls);
            createdUrls := createdUrls + 1;
            previewFile := Some(previewFile.value.(source := Some(ObjectUrl(mediaObjectUrl.value))));
          }
        } else if previewFile.Some? {
          previewFile := Some(previewFile.value.(source := Some(RawUrl(media.url))));
        }
        previewLoading := false;
      }
      Record(Completed(requestSeq, answer));
    }
  }
}
