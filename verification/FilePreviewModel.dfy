/** The file preview panel as a state machine over user actions, panel switches and late
    completions (apps/mirri-web/src/composables/useFilePreview.ts). */
module FilePreviewModel {
  import opened Wrappers

  /** Which occupant owns the shared detail layer; the file preview is one of several. */
  datatype Panel = FilePanel | OtherPanel(name: string)

  datatype Target = Target(path: string, line: Option<int>)

  /** An object URL is known by its place in the order of creation. */
  datatype Source = RawUrl(url: string) | ObjectUrl(id: nat)

  datatype FileData = FileData(path: string, content: string, source: Option<Source>)

  /** The result of `normalizePreviewPath`. */
  datatype Normalized = Path(path: string) | PathError(message: string)

  /** `fileId` is `None` when it is missing or empty. */
  datatype Media = Media(isImage: bool, url: string, base: FileData, fileId: Option<string>)

  /** What a request number stands for; `AskNothing` after a reset. */
  datatype Ask =
    | AskNothing
    | AskRead(target: Target, normalized: Normalized)
    | AskData(target: Target, data: FileData, normalized: Normalized)
    | AskMedia(media: Media)

  /** How the promise of a request settled. */
  datatype Answer = FileRead(file: Option<FileData>) | ReadThrew(message: string) | BlobReady | BlobFailed

  /** What the panel shows. */
  datatype View = View(
    target: Option<Target>, file: Option<FileData>, loading: bool,
    error: Option<string>, normalizedPath: Option<string>)

  /** The composable's refs and variables, then the history: what each request number
      asked for, the answers that came, and which object URLs were revoked. */
  datatype Preview = Preview(
    detail: Option<Panel>, view: View, seqNo: nat, mediaUrl: Option<nat>,
    asks: seq<Ask>, answers: map<nat, Answer>, created: nat, revoked: seq<nat>)

  datatype Event =
    | Open(target: Target, normalized: Normalized)
    | OpenWithData(target: Target, data: FileData, normalized: Normalized)
    | OpenMedia(media: Media)
    | CloseFile
    | SwitchPanel(panel: Option<Panel>)
    | Completed(request: nat, answer: Answer)

  const EMPTY := View(None, None, false, None, None)
  const LOAD_FAILED := "loadFailed"
  const INIT := Preview(None, EMPTY, 0, None, [AskNothing], map[], 0, [])

  // ---------------------------------------------------------------- steps

  function Revoke(s: Preview): Preview {
    match s.mediaUrl
    case Some(u) => s.(mediaUrl := None, revoked := s.revoked + [u])
    case None => s
  }

  /** A new request number, with the view it starts with. */
  function Begin(s: Preview, ask: Ask, view: View): Preview {
    Revoke(s).(seqNo := s.seqNo + 1, asks := s.asks + [ask], view := view)
  }

  /** `resetFilePreview`. */
  function Reset(s: Preview): Preview {
    Begin(s, AskNothing, EMPTY)
  }

  /** `closeFilePreview`. */
  function Close(s: Preview): Preview {
    var r := Reset(s);
    if r.detail == Some(FilePanel) then r.(detail := None) else r
  }

  function PathOf(n: Normalized): Option<string> {
    if n.Path? then Some(n.path) else None
  }

  /** The media is in the file store: its bytes are fetched. An empty id counts as none. */
  predicate IsStored(m: Media) {
    m.fileId.Some? && m.fileId.value != ""
  }

  /** The view right after a request was made. */
  function Started(ask: Ask): View {
    match ask
    case AskNothing => EMPTY
    case AskRead(target, Path(p)) => View(Some(target), None, true, None, Some(p))
    case AskRead(target, PathError(e)) => View(Some(target), None, false, Some(e), None)
    case AskData(target, data, n) => View(Some(target), Some(data), false, None, PathOf(n))
    case AskMedia(m) =>
      if IsStored(m) then View(None, Some(m.base), true, None, None)
      else View(None, Some(m.base.(source := Some(RawUrl(m.url)))), false, None, None)
  }

  predicate IsOpen(s: Preview, target: Target) {
    s.detail == Some(FilePanel) && s.view.target == Some(target)
  }

  /** A request for an answer that is still out. */
  predicate Awaits(ask: Ask, answer: Answer) {
    match ask
    case AskRead(_, Path(_)) => answer.FileRead? || answer.ReadThrew?
    case AskMedia(m) => IsStored(m) && (answer.BlobReady? || answer.BlobFailed?)
    case _ => false
  }

  /** The read's continuation, once the request guard has let it through. */
  function ReadDone(v: View, path: string, answer: Answer): View
    requires answer.FileRead? || answer.ReadThrew?
  {
    match answer
    case FileRead(Some(f)) => v.(file := Some(f.(path := if f.path != "" then f.path else path)), loading := false)
    case FileRead(None) => v.(error := Some(LOAD_FAILED), loading := false)
    case ReadThrew(message) => v.(error := Some(message), loading := false)
  }

  /** The media fetch's continuation, once the request guard has let it through. */
  function BlobDone(s: Preview, m: Media, answer: Answer): Preview
    requires answer.BlobReady? || answer.BlobFailed?
  {
    if answer.BlobReady? then
      if s.detail != Some(FilePanel) || s.view.file.None? then s.(view := s.view.(loading := false))
      else s.(mediaUrl := Some(s.created), created := s.created + 1,
              view := s.view.(file := Some(s.view.file.value.(source := Some(ObjectUrl(s.created)))), loading := false))
    else if s.view.file.Some? then
      s.(view := s.view.(file := Some(s.view.file.value.(source := Some(RawUrl(m.url)))), loading := false))
    else s.(view := s.view.(loading := false))
  }

  /** A promise settles once, and only a request that was made can be answered. */
  predicate CanComplete(s: Preview, request: nat, answer: Answer) {
    request < |s.asks| && request !in s.answers && Awaits(s.asks[request], answer)
  }

  function Complete(s: Preview, request: nat, answer: Answer): Preview
    requires CanComplete(s, request, answer)
  {
    var s1 := s.(answers := s.answers[request := answer]);
    if request != s.seqNo then s1
    else if s.asks[request].AskRead? then
      s1.(view := ReadDone(s.view, s.asks[request].normalized.path, answer))
    else BlobDone(s1, s.asks[request].media, answer)
  }

  /** The handlers. */
  function Handle(s: Preview, e: Event): Preview {
    match e
    case Open(target, n) =>
      if IsOpen(s, target) then Close(s)
      else Begin(s, AskRead(target, n), Started(AskRead(target, n))).(detail := Some(FilePanel))
    case OpenWithData(target, data, n) =>
      if IsOpen(s, target) then Close(s)
      else Begin(s, AskData(target, data, n), Started(AskData(target, data, n))).(detail := Some(FilePanel))
    case OpenMedia(m) =>
      if !m.isImage then s
      else Begin(s, AskMedia(m), Started(AskMedia(m))).(detail := Some(FilePanel))
    case CloseFile => Close(s)
    case SwitchPanel(p) => s.(detail := p)
    case Completed(request, answer) => if CanComplete(s, request, answer) then Complete(s, request, answer) else s
  }

  /** A handler, then the watcher: leaving the file panel resets the preview. */
  function Step(s: Preview, e: Event): Preview {
    var r := Handle(s, e);
    if s.detail == Some(FilePanel) && r.detail != Some(FilePanel) then Reset(r) else r
  }

  function Run(events: seq<Event>): Preview {
    if events == [] then INIT else Step(Run(events[..|events| - 1]), events[|events| - 1])
  }

  // ---------------------------------------------------------------- what the panel ought to show

  function AnswerTo(s: Preview, request: nat): Option<Answer> {
    if request in s.answers then Some(s.answers[request]) else None
  }

  /** The view that a request and its own answer determine, field by field. `url` is the
      object URL made for a media answer. */
  function Rendered(ask: Ask, answer: Option<Answer>, url: Option<nat>): View {
    match (ask, answer)
    case (AskNothing, _) => View(None, None, false, None, None)
    case (AskRead(target, PathError(e)), _) => View(Some(target), None, false, Some(e), None)
    case (AskRead(target, Path(p)), Some(FileRead(Some(f)))) =>
      View(Some(target), Some(f.(path := if f.path != "" then f.path else p)), false, None, Some(p))
    case (AskRead(target, Path(p)), Some(FileRead(None))) =>
      View(Some(target), None, false, Some(LOAD_FAILED), Some(p))
    case (AskRead(target, Path(p)), Some(ReadThrew(m))) => View(Some(target), None, false, Some(m), Some(p))
    case (AskRead(target, Path(p)), _) => View(Some(target), None, true, None, Some(p))
    case (AskData(target, data, Path(p)), _) => View(Some(target), Some(data), false, None, Some(p))
    case (AskData(target, data, PathError(_)), _) => View(Some(target), Some(data), false, None, None)
    case (AskMedia(m), Some(BlobReady)) =>
      View(None, Some(m.base.(source := if url.Some? then Some(ObjectUrl(url.value)) else None)), false, None, None)
    case (AskMedia(m), Some(BlobFailed)) =>
      View(None, Some(m.base.(source := Some(RawUrl(m.url)))), false, None, None)
    case (AskMedia(m), _) =>
      if m.fileId.None? || m.fileId == Some("")
      then View(None, Some(m.base.(source := Some(RawUrl(m.url)))), false, None, None)
      else View(None, Some(m.base), true, None, None)
  }

  /** The latest request. */
  function Latest(s: Preview): Ask
    requires s.asks != []
  {
    s.asks[|s.asks| - 1]
  }

  predicate HasBlob(s: Preview)
    requires s.asks != []
  {
    Latest(s).AskMedia? && AnswerTo(s, |s.asks| - 1) == Some(BlobReady)
  }

  ghost predicate ShowsLatest(s: Preview) {
    && |s.asks| == s.seqNo + 1
    && s.view == Rendered(Latest(s), AnswerTo(s, s.seqNo), s.mediaUrl)
    && (!Latest(s).AskNothing? ==> s.detail == Some(FilePanel))
    && (forall n <- s.answers :: n < |s.asks| && Awaits(s.asks[n], s.answers[n]))
  }

  /** Object URLs: one live at most, the one shown, and all others revoked, each once. */
  ghost predicate UrlsAccounted(s: Preview) {
    && (forall i, j :: 0 <= i < j < |s.revoked| ==> s.revoked[i] != s.revoked[j])
    && (forall u :: u in s.revoked <==> 0 <= u < s.created && s.mediaUrl != Some(u))
    && (s.mediaUrl.Some? ==> s.mediaUrl.value < s.created)
  }

  ghost predicate Inv(s: Preview) {
    ShowsLatest(s) && UrlsAccounted(s) && (s.mediaUrl.Some? <==> HasBlob(s))
  }

  lemma RevokeAccounts(s: Preview)
    requires UrlsAccounted(s)
    ensures UrlsAccounted(Revoke(s)) && Revoke(s).mediaUrl.None?
  {
    if s.mediaUrl.Some? {
      var r := Revoke(s);
      assert forall u :: u in r.revoked <==> u in s.revoked || u == s.mediaUrl.value;
    }
  }

  lemma BeginKeeps(s: Preview, ask: Ask, detail: Option<Panel>)
    requires Inv(s) && (!ask.AskNothing? ==> detail == Some(FilePanel))
    ensures Inv(Begin(s, ask, Started(ask)).(detail := detail))
  {
    RevokeAccounts(s);
    var r := Begin(s, ask, Started(ask)).(detail := detail);
    assert |s.asks| !in s.answers;
    assert Latest(r) == ask && AnswerTo(r, r.seqNo) == None;
    forall n | n in r.answers ensures n < |r.asks| && Awaits(r.asks[n], r.answers[n]) {
      assert r.asks[n] == s.asks[n];
    }
  }

  lemma CompleteKeeps(s: Preview, request: nat, answer: Answer)
    requires Inv(s) && CanComplete(s, request, answer)
    ensures Inv(Complete(s, request, answer))
  {
    var r := Complete(s, request, answer);
    assert r.asks == s.asks && Latest(r) == Latest(s);
    assert AnswerTo(r, s.seqNo) == if request == s.seqNo then Some(answer) else AnswerTo(s, s.seqNo);
    if request == s.seqNo && answer.BlobReady? {
      assert r.mediaUrl == Some(s.created);
    }
  }

  lemma HandleKeeps(s: Preview, e: Event)
    requires Inv(s) && !e.SwitchPanel?
    ensures Inv(Handle(s, e))
  {
    BeginKeeps(s, AskNothing, s.detail);
    BeginKeeps(s, AskNothing, None);
    match e
    case Open(target, n) => BeginKeeps(s, AskRead(target, n), Some(FilePanel));
    case OpenWithData(target, data, n) => BeginKeeps(s, AskData(target, data, n), Some(FilePanel));
    case OpenMedia(m) => BeginKeeps(s, AskMedia(m), Some(FilePanel));
    case CloseFile =>
    case SwitchPanel(_) =>
    case Completed(request, answer) =>
      if CanComplete(s, request, answer) { CompleteKeeps(s, request, answer); }
  }

  lemma StepKeeps(s: Preview, e: Event)
    requires Inv(s)
    ensures Inv(Step(s, e))
  {
    if e.SwitchPanel? {
      BeginKeeps(s, AskNothing, e.panel);
    } else {
      HandleKeeps(s, e);
      BeginKeeps(Handle(s, e), AskNothing, Handle(s, e).detail);
    }
  }

  lemma {:induction false} RunsKeep(events: seq<Event>)
    ensures Inv(Run(events))
  {
    if events != [] {
      RunsKeep(events[..|events| - 1]);
      StepKeeps(Run(events[..|events| - 1]), events[|events| - 1]);
    }
  }

  // ---------------------------------------------------------------- the theorems

  /** Over any interleaving, what the panel shows is determined by the latest request and
      the answer to that very request. */
  lemma PanelShowsLatestRequest(events: seq<Event>)
    ensures var s := Run(events);
            && |s.asks| == s.seqNo + 1
            && s.view == Rendered(Latest(s), AnswerTo(s, s.seqNo), s.mediaUrl)
  {
    RunsKeep(events);
  }

  /** The spinner turns exactly while the latest request is out and unanswered. */
  lemma LoadingMeansInFlight(events: seq<Event>)
    ensures var s := Run(events);
            s.asks != [] &&
            (s.view.loading <==> s.seqNo !in s.answers && exists answer :: Awaits(Latest(s), answer))
  {
    hide Run, UrlsAccounted, HasBlob;
    RunsKeep(events);
    var s := Run(events);
    if s.view.loading {
      if Latest(s).AskRead? {
        assert Awaits(Latest(s), FileRead(None));
      } else {
        assert Awaits(Latest(s), BlobReady);
      }
    }
  }

  /** At most one object URL is live, it is the one on screen, and every other one ever
      created has been revoked exactly once. */
  lemma ObjectUrlsAreReleased(events: seq<Event>, u: nat)
    ensures var s := Run(events);
            && s.asks != [] && (s.mediaUrl.Some? <==> HasBlob(s))
            && (u < s.created ==> multiset(s.revoked)[u] == if s.mediaUrl == Some(u) then 0 else 1)
            && (u >= s.created ==> u !in s.revoked && s.mediaUrl != Some(u))
  {
    RunsKeep(events);
    DistinctOnce(Run(events).revoked, u);
  }

  lemma {:induction false} DistinctOnce(s: seq<nat>, u: nat)
    requires forall i, j :: 0 <= i < j < |s| ==> s[i] != s[j]
    ensures multiset(s)[u] == if u in s then 1 else 0
  {
    if s != [] {
      var init := s[..|s| - 1];
      assert s == init + [s[|s| - 1]];
      DistinctOnce(init, u);
      assert s[|s| - 1] !in init;
    }
  }

  /** A late answer to an earlier request changes nothing on screen and no object URL. */
  lemma LateAnswersAreIgnored(s: Preview, request: nat, answer: Answer)
    requires Inv(s) && request != s.seqNo
    ensures var r := Step(s, Completed(request, answer));
            r == s.(answers := r.answers)
  {}

  // ---------------------------------------------------------------- what each event asks for

  /** The file panel shows this very target. */
  ghost predicate ShowsTarget(s: Preview, target: Target) {
    s.detail == Some(FilePanel) && s.view.target == Some(target)
  }

  ghost predicate Asks(s: Preview, d: Preview, asks: seq<Ask>) {
    d.asks == s.asks + asks && d.answers == s.answers
  }

  /** Opening what is open closes the panel, which resets it twice, once for the handler and
      once for the watcher. Anything else that is opened claims the panel and becomes the
      latest request; media that is no image is ignored. Leaving the panel resets it. */
  lemma EventsAsk(s: Preview, e: Event)
    ensures var d, wasFile := Step(s, e), s.detail == Some(FilePanel);
            match e
            case Open(target, n) =>
              if ShowsTarget(s, target) then d.detail == None && Asks(s, d, [AskNothing, AskNothing])
              else d.detail == Some(FilePanel) && Asks(s, d, [AskRead(target, n)])
            case OpenWithData(target, data, n) =>
              if ShowsTarget(s, target) then d.detail == None && Asks(s, d, [AskNothing, AskNothing])
              else d.detail == Some(FilePanel) && Asks(s, d, [AskData(target, data, n)])
            case OpenMedia(m) =>
              if !m.isImage then d == s else d.detail == Some(FilePanel) && Asks(s, d, [AskMedia(m)])
            case CloseFile =>
              && d.detail == (if wasFile then None else s.detail)
              && Asks(s, d, if wasFile then [AskNothing, AskNothing] else [AskNothing])
            case SwitchPanel(p) =>
              && d.detail == p
              && Asks(s, d, if wasFile && p != Some(FilePanel) then [AskNothing] else [])
            case Completed(_, _) => true
  {
    assert s.asks + [AskNothing] + [AskNothing] == s.asks + [AskNothing, AskNothing];
    assert s.asks + [] == s.asks;
  }

  /** A request can be answered: a read with a good path by the file, no file or an error; the
      fetch of stored media by its bytes or a failure. */
  ghost predicate CanAnswer(ask: Ask, answer: Answer) {
    match answer
    case FileRead(_) | ReadThrew(_) => ask.AskRead? && ask.normalized.Path?
    case BlobReady | BlobFailed => ask.AskMedia? && ask.media.fileId.Some? && ask.media.fileId.value != ""
  }

  /** An answer is recorded once, for a request that can have it, and asks for nothing. Only
      the bytes of the latest request make an object URL. */
  lemma AnswersAreRecordedOnce(s: Preview, request: nat, answer: Answer)
    requires Inv(s)
    ensures var d := Step(s, Completed(request, answer));
            var fits := request < |s.asks| && request !in s.answers && CanAnswer(s.asks[request], answer);
            && d.asks == s.asks && d.detail == s.detail && d.seqNo == s.seqNo && d.revoked == s.revoked
            && d.answers == (if fits then s.answers[request := answer] else s.answers)
            && d.created == s.created + (if fits && answer == BlobReady && request == |s.asks| - 1 then 1 else 0)
  {}
}
