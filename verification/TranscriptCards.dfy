/** What each tool card of a turn shows, and where the rest of an assistant turn comes from:
    told from the parts of the rows folded into the turn, in input order. */
module TranscriptCards {
  import opened Wrappers
  import opened TranscriptTypes
  import opened TranscriptFold
  import opened TranscriptViews
  import opened TranscriptDecomposition
  import opened TranscriptDuplicates
  import opened TranscriptPrompts
  import opened TranscriptContent

  // ---------------------------------------------------------------- the parts told to a turn

  /** A part of a row that landed in the turn, or of one that was dropped there as a copy. */
  datatype Told = Told(part: Part, copied: bool)

  function TellAll(content: seq<Part>, copied: bool): (r: seq<Told>)
    ensures |r| == |content| && forall i :: 0 <= i < |content| ==> r[i] == Told(content[i], copied)
  {
    seq(|content|, i requires 0 <= i < |content| => Told(content[i], copied))
  }

  predicate IsCall(t: Told) {
    t.part.ToolUsePart? && !t.copied
  }

  /** The positions of the calls, in order. */
  function CallsAt(trail: seq<Told>): (r: seq<nat>)
    ensures forall i :: 0 <= i < |r| ==> r[i] < |trail| && IsCall(trail[r[i]])
    ensures forall i, j :: 0 <= i < j < |r| ==> r[i] < r[j]
    ensures forall c :: 0 <= c < |trail| && IsCall(trail[c]) ==> c in r
  {
    if trail == [] then []
    else
      var n := |trail| - 1;
      CallsAt(trail[..n]) + (if IsCall(trail[n]) then [n] else [])
  }

  /** The call at `c` is the first with its id. */
  predicate IsFirstCall(trail: seq<Told>, c: nat)
    requires c < |trail|
  {
    IsCall(trail[c]) &&
    forall d :: 0 <= d < c && IsCall(trail[d]) ==> trail[d].part.callId != trail[c].part.callId
  }

  /** At `j` comes a result for the call at `c`. */
  predicate HearsAt(trail: seq<Told>, c: nat, j: nat)
    requires c < |trail| && j < |trail|
  {
    && c < j && IsFirstCall(trail, c)
    && !trail[j].copied && trail[j].part.ToolResultPart? && trail[j].part.callId == trail[c].part.callId
  }

  /** At `j` a copy tells the call at `c` again. */
  predicate FillsAt(trail: seq<Told>, c: nat, j: nat)
    requires c < |trail| && j < |trail|
  {
    && c < j && IsFirstCall(trail, c)
    && trail[j].copied && trail[j].part.ToolUsePart? && trail[j].part.callId == trail[c].part.callId
  }

  /** The last result that the call at `c` hears before `n`. */
  function LastHeard(trail: seq<Told>, c: nat, n: nat): (r: Option<nat>)
    requires c < n <= |trail|
    ensures r.Some? ==> c < r.value < n && HearsAt(trail, c, r.value)
    ensures forall l :: (if r.Some? then r.value + 1 else c + 1) <= l < n ==> !HearsAt(trail, c, l)
  {
    if n == c + 1 then None else if HearsAt(trail, c, n - 1) then Some(n - 1) else LastHeard(trail, c, n - 1)
  }

  predicate HearsTimeAt(trail: seq<Told>, c: nat, j: nat)
    requires c < |trail| && j < |trail|
  {
    HearsAt(trail, c, j) && trail[j].part.durationMs.Some?
  }

  /** The last such result that brings a duration. */
  function LastTimed(trail: seq<Told>, c: nat, n: nat): (r: Option<nat>)
    requires c < n <= |trail|
    ensures r.Some? ==> c < r.value < n && HearsTimeAt(trail, c, r.value)
    ensures forall l :: (if r.Some? then r.value + 1 else c + 1) <= l < n ==> !HearsTimeAt(trail, c, l)
  {
    if n == c + 1 then None else if HearsTimeAt(trail, c, n - 1) then Some(n - 1) else LastTimed(trail, c, n - 1)
  }

  predicate FillsLinesAt(trail: seq<Told>, c: nat, j: nat)
    requires c < |trail| && j < |trail|
  {
    FillsAt(trail, c, j) && trail[j].part.outputLines.Some? && trail[j].part.outputLines.value != []
  }

  /** The first copy from `from` on that brings output lines. */
  function FirstLines(trail: seq<Told>, c: nat, from: nat, n: nat): (r: Option<nat>)
    requires c < from <= n <= |trail|
    ensures r.Some? ==> from <= r.value < n && FillsLinesAt(trail, c, r.value)
    ensures forall l :: from <= l < (if r.Some? then r.value else n) ==> !FillsLinesAt(trail, c, l)
  {
    if n == from then None
    else
      var r := FirstLines(trail, c, from, n - 1);
      if r.Some? then r else if FillsLinesAt(trail, c, n - 1) then Some(n - 1) else None
  }

  predicate FillsStartAt(trail: seq<Told>, c: nat, j: nat)
    requires c < |trail| && j < |trail|
  {
    FillsAt(trail, c, j) && trail[j].part.startedAtMs.Some?
  }

  /** The first copy that brings a start stamp. */
  function FirstStart(trail: seq<Told>, c: nat, n: nat): (r: Option<nat>)
    requires c < n <= |trail|
    ensures r.Some? ==> c < r.value < n && FillsStartAt(trail, c, r.value)
    ensures forall l :: c < l < (if r.Some? then r.value else n) ==> !FillsStartAt(trail, c, l)
  {
    if n == c + 1 then None
    else
      var r := FirstStart(trail, c, n - 1);
      if r.Some? then r else if FillsStartAt(trail, c, n - 1) then Some(n - 1) else None
  }

  predicate HearsPathAt(env: Env, trail: seq<Told>, c: nat, j: nat)
    requires c < |trail| && j < |trail|
  {
    HearsAt(trail, c, j) &&
    env.planPathIn(env.toolOutput(trail[j].part.output)).Some? &&
    env.planPathIn(env.toolOutput(trail[j].part.output)).value != ""
  }

  /** The first result whose output names a plan file. */
  function FirstPath(env: Env, trail: seq<Told>, c: nat, n: nat): (r: Option<nat>)
    requires c < n <= |trail|
    ensures r.Some? ==> c < r.value < n && HearsPathAt(env, trail, c, r.value)
    ensures forall l :: c < l < (if r.Some? then r.value else n) ==> !HearsPathAt(env, trail, c, l)
  {
    if n == c + 1 then None
    else
      var r := FirstPath(env, trail, c, n - 1);
      if r.Some? then r else if HearsPathAt(env, trail, c, n - 1) then Some(n - 1) else None
  }

  // ---------------------------------------------------------------- what a card must show

  function Lookup(m: map<string, string>, k: string): Option<string> {
    if k in m then Some(m[k]) else None
  }

  /** The last result heard decides, else the call; what is then still missing the first
      later copy supplies that brings lines. */
  function OutputOf(env: Env, trail: seq<Told>, c: nat, n: nat): Option<seq<string>>
    requires c < n <= |trail| && IsCall(trail[c])
  {
    var h := LastHeard(trail, c, n);
    var told := if h.Some? then env.toolOutput(trail[h.value].part.output) else trail[c].part.outputLines;
    var f := FirstLines(trail, c, if h.Some? then h.value + 1 else c + 1, n);
    if told.Some? then told else if f.Some? then trail[f.value].part.outputLines else None
  }

  function StartOf(trail: seq<Told>, c: nat, n: nat): Option<int>
    requires c < n <= |trail| && IsCall(trail[c])
  {
    var f := FirstStart(trail, c, n);
    if trail[c].part.startedAtMs.Some? then trail[c].part.startedAtMs
    else if f.Some? then trail[f.value].part.startedAtMs
    else None
  }

  /** The approved plan's path if it was kept, else the first that a result's output names. */
  function PathOf(env: Env, trail: seq<Told>, c: nat, n: nat): Option<string>
    requires c < n <= |trail| && IsCall(trail[c])
  {
    var call := trail[c].part;
    var kept := Lookup(env.planReview, call.callId);
    var f, h := FirstPath(env, trail, c, n), LastHeard(trail, c, n);
    if call.name != "ExitPlanMode" then None
    else if kept.Some? && kept.value != "" then kept
    else if f.Some? then env.planPathIn(env.toolOutput(trail[f.value].part.output))
    else if h.Some? then env.planPathIn(env.toolOutput(trail[h.value].part.output))
    else kept
  }

  /** All that the card of the call at `c` shows after the first `n` parts, field by field. */
  ghost predicate ShowsCall(env: Env, tool: ToolCall, trail: seq<Told>, c: nat, n: nat)
    requires c < n <= |trail| && IsCall(trail[c])
  {
    var call, h, timed := trail[c].part, LastHeard(trail, c, n), LastTimed(trail, c, n);
    && tool.id == call.callId && tool.name == call.name
    && tool.arg == (if call.input.JsonString? then call.input.text else env.stringifyInput(call.input))
    && tool.backgroundedTaskId == Lookup(env.backgrounded, call.callId)
    && tool.status == (if h.None? then Running else if trail[h.value].part.isError then Failed else Succeeded)
    && tool.media == (if h.None? || trail[h.value].part.isError then None
                      else env.toolMedia(call.name, trail[h.value].part.output))
    && tool.timing == (if timed.None? then None
                       else Some(env.formatDuration(trail[timed.value].part.durationMs.value)))
    && tool.output == OutputOf(env, trail, c, n)
    && tool.startedAtMs == StartOf(trail, c, n)
    && tool.planPath == PathOf(env, trail, c, n)
  }

  // ---------------------------------------------------------------- one call through its turn

  /** The card of the call at `c` after the first `n` parts. */
  function CardUpTo(env: Env, trail: seq<Told>, c: nat, n: nat): ToolCall
    requires c < n <= |trail| && IsCall(trail[c])
  {
    if n == c + 1 then NewCard(env, trail[c].part)
    else
      var before := CardUpTo(env, trail, c, n - 1);
      if HearsAt(trail, c, n - 1) then ResultCard(env, before, trail[n - 1].part)
      else if FillsAt(trail, c, n - 1) then FilledCard(before, trail[n - 1].part)
      else before
  }

  lemma NewCardShows(env: Env, trail: seq<Told>, c: nat)
    requires c < |trail| && IsCall(trail[c])
    ensures ShowsCall(env, NewCard(env, trail[c].part), trail, c, c + 1)
  {}

  lemma ResultShows(env: Env, tool: ToolCall, trail: seq<Told>, c: nat, n: nat)
    requires c < n < |trail| && IsCall(trail[c]) && HearsAt(trail, c, n)
    requires ShowsCall(env, tool, trail, c, n)
    ensures ShowsCall(env, ResultCard(env, tool, trail[n].part), trail, c, n + 1)
  {
    hide HearsAt, FillsAt, Lookup, OutputOf, StartOf, PathOf, FirstLines, FirstStart, FirstPath;
    NotBoth(trail, c, n);
    assert LastHeard(trail, c, n + 1) == Some(n);
    assert LastTimed(trail, c, n + 1)
           == (if trail[n].part.durationMs.Some? then Some(n) else LastTimed(trail, c, n));
    assert OutputOf(env, trail, c, n + 1) == env.toolOutput(trail[n].part.output) by { ResultOutput(env, trail, c, n); }
    assert StartOf(trail, c, n + 1) == StartOf(trail, c, n) by { ResultStart(trail, c, n); }
    ResultPath(env, trail, c, n);
  }

  lemma ResultOutput(env: Env, trail: seq<Told>, c: nat, n: nat)
    requires c < n < |trail| && IsCall(trail[c]) && HearsAt(trail, c, n)
    ensures OutputOf(env, trail, c, n + 1) == env.toolOutput(trail[n].part.output)
  {
    hide HearsAt, FillsAt;
    assert LastHeard(trail, c, n + 1) == Some(n);
    assert FirstLines(trail, c, n + 1, n + 1) == None;
  }

  lemma ResultStart(trail: seq<Told>, c: nat, n: nat)
    requires c < n < |trail| && IsCall(trail[c]) && HearsAt(trail, c, n)
    ensures StartOf(trail, c, n + 1) == StartOf(trail, c, n)
  {
    hide HearsAt, FillsAt;
    NotBoth(trail, c, n);
    assert FirstStart(trail, c, n + 1) == FirstStart(trail, c, n);
  }

  /** A result names the plan file if none was known. */
  lemma ResultPath(env: Env, trail: seq<Told>, c: nat, n: nat)
    requires c < n < |trail| && IsCall(trail[c]) && HearsAt(trail, c, n)
    ensures var before := PathOf(env, trail, c, n);
            PathOf(env, trail, c, n + 1) ==
              if trail[c].part.name == "ExitPlanMode" && (before.None? || before.value == "")
              then env.planPathIn(env.toolOutput(trail[n].part.output)) else before
  {
    hide HearsAt, Lookup;
    var h, f := LastHeard(trail, c, n), FirstPath(env, trail, c, n);
    assert LastHeard(trail, c, n + 1) == Some(n);
    assert FirstPath(env, trail, c, n + 1)
           == (if f.Some? then f else if HearsPathAt(env, trail, c, n) then Some(n) else None);
    if h.Some? && f.None? { assert !HearsPathAt(env, trail, c, h.value); }
  }

  lemma NotBoth(trail: seq<Told>, c: nat, n: nat)
    requires c < |trail| && n < |trail|
    ensures HearsAt(trail, c, n) ==> !FillsAt(trail, c, n) && trail[n].part.ToolResultPart?
    ensures FillsAt(trail, c, n) ==> trail[n].part.ToolUsePart?
  {}

  lemma FilledShows(env: Env, tool: ToolCall, trail: seq<Told>, c: nat, n: nat)
    requires c < n < |trail| && IsCall(trail[c]) && FillsAt(trail, c, n)
    requires ShowsCall(env, tool, trail, c, n)
    ensures ShowsCall(env, FilledCard(tool, trail[n].part), trail, c, n + 1)
  {
    hide HearsAt, FillsAt, Lookup;
    NotBoth(trail, c, n);
    assert LastHeard(trail, c, n + 1) == LastHeard(trail, c, n);
    assert LastTimed(trail, c, n + 1) == LastTimed(trail, c, n);
    assert FirstPath(env, trail, c, n + 1) == FirstPath(env, trail, c, n);
  }

  lemma OtherShows(env: Env, tool: ToolCall, trail: seq<Told>, c: nat, n: nat)
    requires c < n < |trail| && IsCall(trail[c]) && !HearsAt(trail, c, n) && !FillsAt(trail, c, n)
    requires ShowsCall(env, tool, trail, c, n)
    ensures ShowsCall(env, tool, trail, c, n + 1)
  {
    hide HearsAt, FillsAt, Lookup;
    var h := LastHeard(trail, c, n);
    assert LastHeard(trail, c, n + 1) == h && LastTimed(trail, c, n + 1) == LastTimed(trail, c, n);
    assert FirstPath(env, trail, c, n + 1) == FirstPath(env, trail, c, n);
    assert FirstStart(trail, c, n + 1) == FirstStart(trail, c, n);
    var from := if h.Some? then h.value + 1 else c + 1;
    assert FirstLines(trail, c, from, n + 1) == FirstLines(trail, c, from, n);
  }

  lemma {:induction false} CardShowsCall(env: Env, trail: seq<Told>, c: nat, n: nat)
    requires c < n <= |trail| && IsCall(trail[c])
    ensures ShowsCall(env, CardUpTo(env, trail, c, n), trail, c, n)
  {
    hide ShowsCall, HearsAt, FillsAt, IsCall;
    if n == c + 1 {
      NewCardShows(env, trail, c);
    } else {
      CardShowsCall(env, trail, c, n - 1);
      var before := CardUpTo(env, trail, c, n - 1);
      NotBoth(trail, c, n - 1);
      if HearsAt(trail, c, n - 1) {
        ResultShows(env, before, trail, c, n - 1);
      } else if FillsAt(trail, c, n - 1) {
        FilledShows(env, before, trail, c, n - 1);
      } else {
        OtherShows(env, before, trail, c, n - 1);
      }
    }
  }

  lemma {:induction false} CardOfPrefix(env: Env, trail: seq<Told>, t: Told, c: nat, n: nat)
    requires c < n <= |trail| && IsCall(trail[c])
    ensures CardUpTo(env, trail + [t], c, n) == CardUpTo(env, trail, c, n)
  {
    if n > c + 1 {
      hide NewCard, ResultCard, FilledCard;
      CardOfPrefix(env, trail, t, c, n - 1);
      SameEvents(trail, t, c, n - 1);
    }
  }

  lemma SameEvents(trail: seq<Told>, t: Told, c: nat, j: nat)
    requires c < |trail| && j < |trail|
    ensures IsFirstCall(trail + [t], c) == IsFirstCall(trail, c)
    ensures HearsAt(trail + [t], c, j) == HearsAt(trail, c, j)
    ensures FillsAt(trail + [t], c, j) == FillsAt(trail, c, j)
  {
    var all := trail + [t];
    forall d | 0 <= d < |trail| ensures all[d] == trail[d] {}
    if IsFirstCall(all, c) {
      forall d | 0 <= d < c && IsCall(trail[d]) ensures trail[d].part.callId != trail[c].part.callId {
        assert IsCall(all[d]);
      }
    }
  }

  // ---------------------------------------------------------------- the cards of the open group

  /** One card for each call, in order, as the trail makes it. */
  ghost predicate Logged(env: Env, tools: seq<ToolCall>, trail: seq<Told>) {
    && |tools| == |CallsAt(trail)|
    && (forall i :: 0 <= i < |tools| ==> tools[i] == CardUpTo(env, trail, CallsAt(trail)[i], |trail|))
  }

  lemma CardId(env: Env, trail: seq<Told>, c: nat, n: nat)
    requires c < n <= |trail| && IsCall(trail[c])
    ensures CardUpTo(env, trail, c, n).id == trail[c].part.callId
  {
    CardShowsCall(env, trail, c, n);
  }

  /** The first entry with an id is the card of the first call with it. */
  lemma FirstEntryIsFirstCall(env: Env, tools: seq<ToolCall>, trail: seq<Told>, i: nat)
    requires Logged(env, tools, trail) && i < |tools|
    ensures tools[i].id == trail[CallsAt(trail)[i]].part.callId
    ensures FindTool(tools, tools[i].id) == i <==> IsFirstCall(trail, CallsAt(trail)[i])
  {
    hide CardUpTo, CallsAt, FindTool;
    var calls := CallsAt(trail);
    var c := calls[i];
    forall j | 0 <= j < |tools| ensures tools[j].id == trail[calls[j]].part.callId {
      CardId(env, trail, calls[j], |trail|);
    }
    if IsFirstCall(trail, c) {
      forall j | 0 <= j < i ensures tools[j].id != tools[i].id { assert calls[j] < c; }
      FindToolUnique(tools, tools[i].id, i);
    }
    if FindTool(tools, tools[i].id) == i {
      forall d | 0 <= d < c && IsCall(trail[d]) ensures trail[d].part.callId != trail[c].part.callId {
        var j :| 0 <= j < |calls| && calls[j] == d;
        assert j < i;
      }
    }
  }

  lemma CallsSnoc(trail: seq<Told>, t: Told)
    ensures CallsAt(trail + [t]) == CallsAt(trail) + (if IsCall(t) then [|trail|] else [])
  {
    assert (trail + [t])[..|trail|] == trail;
  }

  /** What one more part does to one card. */
  lemma CardStep(env: Env, tools: seq<ToolCall>, trail: seq<Told>, t: Told, i: nat)
    requires Logged(env, tools, trail) && i < |tools|
    ensures i < |CallsAt(trail + [t])| && CallsAt(trail + [t])[i] == CallsAt(trail)[i]
    ensures var first := FindTool(tools, tools[i].id) == i;
            CardUpTo(env, trail + [t], CallsAt(trail)[i], |trail| + 1) ==
              if first && !t.copied && t.part.ToolResultPart? && t.part.callId == tools[i].id
              then ResultCard(env, tools[i], t.part)
              else if first && t.copied && t.part.ToolUsePart? && t.part.callId == tools[i].id
              then FilledCard(tools[i], t.part)
              else tools[i]
  {
    hide NewCard, ResultCard, FilledCard, FindTool, CallsAt;
    CallsSnoc(trail, t);
    var c := CallsAt(trail)[i];
    FirstEntryIsFirstCall(env, tools, trail, i);
    CardOfPrefix(env, trail, t, c, |trail|);
    SameEvents(trail, t, c, c);
  }

  lemma ResultLogged(env: Env, g: Group, trail: seq<Told>, part: Part)
    requires Logged(env, g.tools, trail) && part.ToolResultPart?
    ensures Logged(env, AbsorbPart(env, g, part).tools, trail + [Told(part, false)])
  {
    hide NewCard, ResultCard, FilledCard, FindTool, CallsAt, CardUpTo, PatchCard;
    var t := Told(part, false);
    CallsSnoc(trail, t);
    var h := AbsorbPart(env, g, part);
    forall i | 0 <= i < |g.tools| ensures h.tools[i] == CardUpTo(env, trail + [t], CallsAt(trail + [t])[i], |trail| + 1) {
      CardStep(env, g.tools, trail, t, i);
    }
  }

  lemma CallLogged(env: Env, g: Group, trail: seq<Told>, part: Part)
    requires Logged(env, g.tools, trail) && part.ToolUsePart?
    ensures Logged(env, AbsorbPart(env, g, part).tools, trail + [Told(part, false)])
  {
    hide NewCard, ResultCard, FilledCard, FindTool, CallsAt;
    var t := Told(part, false);
    CallsSnoc(trail, t);
    var h := AbsorbPart(env, g, part);
    assert h.tools == g.tools + [NewCard(env, part)];
    assert CardUpTo(env, trail + [t], |trail|, |trail| + 1) == NewCard(env, part);
    forall i | 0 <= i < |g.tools| ensures h.tools[i] == CardUpTo(env, trail + [t], CallsAt(trail + [t])[i], |trail| + 1) {
      CardStep(env, g.tools, trail, t, i);
    }
  }

  /** Neither a call nor a result, or a copy's part that is no call. */
  lemma IdleLogged(env: Env, g: Group, trail: seq<Told>, t: Told)
    requires Logged(env, g.tools, trail) && !t.part.ToolUsePart? && (t.copied || !t.part.ToolResultPart?)
    ensures Logged(env, g.tools, trail + [t])
  {
    hide NewCard, ResultCard, FilledCard, FindTool, CallsAt, CardUpTo;
    CallsSnoc(trail, t);
    forall i | 0 <= i < |g.tools| ensures g.tools[i] == CardUpTo(env, trail + [t], CallsAt(trail + [t])[i], |trail| + 1) {
      CardStep(env, g.tools, trail, t, i);
    }
  }

  lemma AbsorbPartLogged(env: Env, g: Group, trail: seq<Told>, part: Part)
    requires Logged(env, g.tools, trail)
    ensures Logged(env, AbsorbPart(env, g, part).tools, trail + [Told(part, false)])
  {
    hide Logged;
    if part.ToolUsePart? {
      CallLogged(env, g, trail, part);
    } else if part.ToolResultPart? {
      ResultLogged(env, g, trail, part);
    } else {
      IdleLogged(env, g, trail, Told(part, false));
    }
  }

  lemma MergePartLogged(env: Env, g: Group, trail: seq<Told>, part: Part)
    requires Logged(env, g.tools, trail)
    ensures Logged(env, MergePart(g, part).tools, trail + [Told(part, true)])
  {
    hide NewCard, ResultCard, FilledCard, FindTool, CallsAt, CardUpTo, PatchCard;
    var t := Told(part, true);
    if part.ToolUsePart? {
      CallsSnoc(trail, t);
      var h := MergePart(g, part);
      forall i | 0 <= i < |g.tools| ensures h.tools[i] == CardUpTo(env, trail + [t], CallsAt(trail + [t])[i], |trail| + 1) {
        CardStep(env, g.tools, trail, t, i);
      }
    } else {
      IdleLogged(env, g, trail, t);
    }
  }

  lemma TellSnoc(content: seq<Part>, copied: bool)
    requires content != []
    ensures var n := |content| - 1;
            TellAll(content, copied) == TellAll(content[..n], copied) + [Told(content[n], copied)]
  {}

  lemma {:induction false} AbsorbLogged(env: Env, g: Group, trail: seq<Told>, content: seq<Part>)
    requires Logged(env, g.tools, trail)
    ensures Logged(env, Absorb(env, g, content).tools, trail + TellAll(content, false))
  {
    hide Logged, AbsorbPart, TellAll;
    if content == [] {
      assert trail + TellAll(content, false) == trail;
    } else {
      var n := |content| - 1;
      AbsorbLogged(env, g, trail, content[..n]);
      AbsorbPartLogged(env, Absorb(env, g, content[..n]), trail + TellAll(content[..n], false), content[n]);
      TellSnoc(content, false);
      assert trail + TellAll(content, false) == trail + TellAll(content[..n], false) + [Told(content[n], false)];
    }
  }

  lemma {:induction false} MergeLogged(env: Env, g: Group, trail: seq<Told>, content: seq<Part>)
    requires Logged(env, g.tools, trail)
    ensures Logged(env, MergeExtras(g, content).tools, trail + TellAll(content, true))
  {
    hide Logged, MergePart, TellAll;
    if content == [] {
      assert trail + TellAll(content, true) == trail;
    } else {
      var n := |content| - 1;
      MergeLogged(env, g, trail, content[..n]);
      MergePartLogged(env, MergeExtras(g, content[..n]), trail + TellAll(content[..n], true), content[n]);
      TellSnoc(content, true);
      assert trail + TellAll(content, true) == trail + TellAll(content[..n], true) + [Told(content[n], true)];
    }
  }

  // ---------------------------------------------------------------- the log of a turn

  /** All that was told to a turn, and the assistant rows, dropped ones too, that told it. */
  datatype Log = Log(told: seq<Told>, rows: seq<Message>)

  function Append(a: Log, b: Log): Log {
    Log(a.told + b.told, a.rows + b.rows)
  }

  /** The log of turn `n` after the first `k` messages: an assistant row goes into the log of
      the turn it is folded into, as a copy if it is not kept; a tool row into that of the
      turn that is open. */
  ghost function LogAt(env: Env, msgs: seq<Message>, n: nat, k: nat): Log
    requires k <= |msgs|
  {
    if k == 0 then Log([], [])
    else
      var m := msgs[k - 1];
      Append(LogAt(env, msgs, n, k - 1),
             if Slot(env, msgs, k - 1) != n then Log([], [])
             else if Classify(m) == AssistantRow then Log(TellAll(m.content, !Kept(env, msgs, k - 1)), [m])
             else if Classify(m) == ToolResultRow && StateAt(env, msgs, k - 1).group.Some?
             then Log(TellAll(m.content, false), [])
             else Log([], []))
  }

  function LastDurationIn(rows: seq<Message>): Option<int> {
    if rows == [] then None
    else if rows[|rows| - 1].durationMs.Some? then rows[|rows| - 1].durationMs
    else LastDurationIn(rows[..|rows| - 1])
  }

  /** The approval registered last for a call, as its place in the list. */
  function Registered(approvals: seq<Approval>, id: string): (r: Option<nat>)
    ensures r.Some? ==> r.value < |approvals| && approvals[r.value].toolCallId == id
    ensures forall i :: (if r.Some? then r.value + 1 else 0) <= i < |approvals| ==> approvals[i].toolCallId != id
  {
    if approvals == [] then None
    else if approvals[|approvals| - 1].toolCallId == id then Some(|approvals| - 1)
    else Registered(approvals[..|approvals| - 1], id)
  }

  predicate IsApprovedCall(env: Env, t: Told) {
    IsCall(t) && Registered(env.approvals, t.part.callId).Some?
  }

  /** The last call that has an approval registered. */
  function LastApproved(env: Env, told: seq<Told>): (r: Option<nat>)
    ensures r.Some? ==> r.value < |told| && IsApprovedCall(env, told[r.value])
    ensures forall i :: (if r.Some? then r.value + 1 else 0) <= i < |told| ==> !IsApprovedCall(env, told[i])
  {
    if told == [] then None
    else if IsApprovedCall(env, told[|told| - 1]) then Some(|told| - 1)
    else LastApproved(env, told[..|told| - 1])
  }

  function ApprovalIn(env: Env, told: seq<Told>): Option<Approval> {
    match LastApproved(env, told)
    case None => None
    case Some(c) => Some(env.approvals[Registered(env.approvals, told[c].part.callId).value])
  }

  /** The instant the turn's unfinished calls are frozen at: its end, if the last row has
      one, else the last row's creation plus the turn's duration, if that is positive. */
  function Anchor(env: Env, rows: seq<Message>): Option<int>
    requires rows != []
  {
    var last, duration := rows[|rows| - 1], LastDurationIn(rows);
    if last.endedAt.Some? && last.endedAt.value != "" then env.parseDate(last.endedAt.value)
    else if last.createdAt == "" || duration.None? || duration.value <= 0 then None
    else
      match env.parseDate(last.createdAt)
      case None => None
      case Some(ms) => Some(ms + duration.value)
  }

  /** The card in a finished turn: without a result it counts as succeeded, and its time is
      what had passed when the turn ended, if that is known. */
  ghost predicate ShowsSettled(env: Env, tool: ToolCall, trail: seq<Told>, c: nat, anchor: Option<int>)
    requires c < |trail| && IsCall(trail[c])
  {
    if LastHeard(trail, c, |trail|).Some? then ShowsCall(env, tool, trail, c, |trail|)
    else
      var start := StartOf(trail, c, |trail|);
      && ShowsCall(env, tool.(status := Running, timing := None), trail, c, |trail|)
      && tool.status == Succeeded
      && tool.timing == (if start.None? || anchor.None? then None
                         else if anchor.value < start.value then Some(env.formatDuration(0))
                         else Some(env.formatDuration(anchor.value - start.value)))
  }

  /** The turn is what its log tells. */
  ghost predicate TurnLogged(env: Env, t: Turn, log: Log, settled: bool) {
    && t.AssistantTurn? && log.rows != []
    && t.id == log.rows[0].id
    && t.durationMs == LastDurationIn(log.rows)
    && t.endedAt == (if log.rows[|log.rows| - 1].endedAt == Some("") then None
                     else log.rows[|log.rows| - 1].endedAt)
    && t.approval == (if ApprovalIn(env, log.told).Some? then Some(ApprovalIn(env, log.told).value.block) else None)
    && t.approvalId
       == (if ApprovalIn(env, log.told).Some? then Some(ApprovalIn(env, log.told).value.approvalId) else None)
    && |ToolsOf(t)| == |CallsAt(log.told)|
    && (forall i :: 0 <= i < |ToolsOf(t)| ==>
          if settled then ShowsSettled(env, ToolsOf(t)[i], log.told, CallsAt(log.told)[i], Anchor(env, log.rows))
          else ShowsCall(env, ToolsOf(t)[i], log.told, CallsAt(log.told)[i], |log.told|))
  }

  // ---------------------------------------------------------------- the open group

  ghost predicate StampsLogged(g: Group, rows: seq<Message>) {
    && rows != [] && g.id == rows[0].id && g.durationMs == LastDurationIn(rows)
    && g.lastRowEndedAt == rows[|rows| - 1].endedAt && g.lastCreatedAt == rows[|rows| - 1].createdAt
  }

  ghost predicate ApprovalLogged(env: Env, g: Group, told: seq<Told>) {
    var a := ApprovalIn(env, told);
    && g.approval == (if a.Some? then Some(a.value.block) else None)
    && g.approvalId == (if a.Some? then Some(a.value.approvalId) else None)
  }

  ghost predicate GroupLogged(env: Env, g: Group, log: Log) {
    StampsLogged(g, log.rows) && ApprovalLogged(env, g, log.told) && Logged(env, g.tools, log.told)
  }

  lemma {:induction false} RegisteredFor(approvals: seq<Approval>, id: string)
    ensures var r := Registered(approvals, id);
            ApprovalFor(approvals, id) == if r.Some? then Some(approvals[r.value]) else None
  {
    if approvals != [] { RegisteredFor(approvals[..|approvals| - 1], id); }
  }

  lemma ApprovalSnoc(env: Env, told: seq<Told>, t: Told)
    ensures ApprovalIn(env, told + [t]) ==
              if IsCall(t) && ApprovalFor(env.approvals, t.part.callId).Some?
              then ApprovalFor(env.approvals, t.part.callId) else ApprovalIn(env, told)
  {
    assert (told + [t])[..|told|] == told;
    if IsCall(t) { RegisteredFor(env.approvals, t.part.callId); }
  }

  lemma PartApproval(env: Env, g: Group, told: seq<Told>, part: Part)
    requires ApprovalLogged(env, g, told)
    ensures ApprovalLogged(env, AbsorbPart(env, g, part), told + [Told(part, false)])
  {
    hide ApprovalIn, PatchCard, FindTool, AppendText, AppendThinking, NewCard, ResultCard;
    ApprovalSnoc(env, told, Told(part, false));
  }

  lemma CopiedApproval(env: Env, g: Group, told: seq<Told>, part: Part)
    requires ApprovalLogged(env, g, told)
    ensures ApprovalLogged(env, g, told + [Told(part, true)])
  {
    hide ApprovalIn;
    ApprovalSnoc(env, told, Told(part, true));
  }

  lemma {:induction false} AbsorbApproval(env: Env, g: Group, told: seq<Told>, content: seq<Part>)
    requires ApprovalLogged(env, g, told)
    ensures ApprovalLogged(env, Absorb(env, g, content), told + TellAll(content, false))
  {
    hide ApprovalLogged, AbsorbPart, TellAll;
    if content == [] {
      assert told + TellAll(content, false) == told;
    } else {
      var n := |content| - 1;
      AbsorbApproval(env, g, told, content[..n]);
      PartApproval(env, Absorb(env, g, content[..n]), told + TellAll(content[..n], false), content[n]);
      TellSnoc(content, false);
      assert told + TellAll(content, false) == told + TellAll(content[..n], false) + [Told(content[n], false)];
    }
  }

  lemma {:induction false} CopyApproval(env: Env, g: Group, told: seq<Told>, content: seq<Part>)
    requires ApprovalLogged(env, g, told)
    ensures ApprovalLogged(env, g, told + TellAll(content, true))
  {
    hide ApprovalLogged, TellAll;
    if content == [] {
      assert told + TellAll(content, true) == told;
    } else {
      var n := |content| - 1;
      CopyApproval(env, g, told, content[..n]);
      CopiedApproval(env, g, told + TellAll(content[..n], true), content[n]);
      TellSnoc(content, true);
      assert told + TellAll(content, true) == told + TellAll(content[..n], true) + [Told(content[n], true)];
    }
  }

  lemma SameApproval(env: Env, g: Group, h: Group, told: seq<Told>)
    requires ApprovalLogged(env, g, told) && h.approval == g.approval && h.approvalId == g.approvalId
    ensures ApprovalLogged(env, h, told)
  {}

  lemma StampedLogged(g: Group, m: Message, rows: seq<Message>)
    requires StampsLogged(g, rows) || (rows == [] && g == NewGroup(m))
    ensures StampsLogged(Stamped(g, m), rows + [m])
  {
    assert (rows + [m])[..|rows|] == rows;
  }

  lemma SameStamps(g: Group, h: Group, rows: seq<Message>)
    requires StampsLogged(g, rows) && h.id == g.id && h.durationMs == g.durationMs
    requires h.lastRowEndedAt == g.lastRowEndedAt && h.lastCreatedAt == g.lastCreatedAt
    ensures StampsLogged(h, rows)
  {}

  lemma RowLogged(env: Env, g: Group, m: Message, log: Log)
    requires GroupLogged(env, g, log) || (g == NewGroup(m) && log == Log([], []))
    ensures GroupLogged(env, FoldRow(env, g, m),
                        Append(log, Log(TellAll(m.content, AlreadyFolded(Stamped(g, m), SigOf(env, m.content))), [m])))
  {
    hide SigOf, Absorb, MergeExtras, AlreadyFolded, OnlyFills, StampsLogged, ApprovalLogged, Logged, TellAll;
    var g1, sig := Stamped(g, m), SigOf(env, m.content);
    if !GroupLogged(env, g, log) { NothingLogged(env, m); }
    StampedLogged(g, m, log.rows);
    SameApproval(env, g, g1, log.told);
    if AlreadyFolded(g1, sig) {
      var h := MergeExtras(g1, m.content);
      MergeOnlyFills(g1, m.content);
      FillsOnlyTools(g1, h);
      CopyApproval(env, g1, log.told, m.content);
      SameApproval(env, g1, h, log.told + TellAll(m.content, true));
      SameStamps(g1, h, log.rows + [m]);
      MergeLogged(env, g1, log.told, m.content);
    } else {
      var g2 := g1.(foldedSigs := g1.foldedSigs + [sig]);
      SameApproval(env, g1, g2, log.told);
      AbsorbKeepsStamps(env, g2, m.content);
      AbsorbApproval(env, g2, log.told, m.content);
      SameStamps(g1, Absorb(env, g2, m.content), log.rows + [m]);
      AbsorbLogged(env, g2, log.told, m.content);
    }
  }

  lemma FillsOnlyTools(g: Group, h: Group)
    requires OnlyFills(g, h)
    ensures h == g.(tools := h.tools, blocks := h.blocks)
  {}

  lemma NothingLogged(env: Env, m: Message)
    ensures ApprovalLogged(env, NewGroup(m), []) && Logged(env, NewGroup(m).tools, [])
  {}

  lemma ResultsLogged(env: Env, g: Group, m: Message, log: Log)
    requires GroupLogged(env, g, log)
    ensures GroupLogged(env, Absorb(env, g, m.content), Append(log, Log(TellAll(m.content, false), [])))
  {
    hide Absorb, StampsLogged, ApprovalLogged, Logged, TellAll;
    AbsorbKeepsStamps(env, g, m.content);
    AbsorbApproval(env, g, log.told, m.content);
    AbsorbLogged(env, g, log.told, m.content);
    assert log.rows + [] == log.rows;
    SameStamps(g, Absorb(env, g, m.content), log.rows);
  }

  lemma BlockLogged(env: Env, g: Group, b: Block, log: Log)
    requires GroupLogged(env, g, log)
    ensures GroupLogged(env, g.(blocks := g.blocks + [b]), log)
  {}

  // ---------------------------------------------------------------- flushing

  lemma AnchorIs(env: Env, g: Group, rows: seq<Message>)
    requires StampsLogged(g, rows)
    ensures FreezeAnchor(env, g) == Anchor(env, rows)
  {}

  lemma SettledShows(env: Env, tool: ToolCall, trail: seq<Told>, c: nat, anchor: Option<int>)
    requires c < |trail| && IsCall(trail[c]) && ShowsCall(env, tool, trail, c, |trail|)
    ensures ShowsSettled(env, if tool.status == Running then SettledCard(env, tool, anchor) else tool, trail, c, anchor)
  {
    hide HearsAt, FillsAt, OutputOf, StartOf, PathOf, Lookup;
    var timed := LastTimed(trail, c, |trail|);
    if timed.Some? { assert HearsAt(trail, c, timed.value) by { TimedHears(trail, c, timed.value); } }
  }

  lemma TimedHears(trail: seq<Told>, c: nat, j: nat)
    requires c < |trail| && j < |trail| && HearsTimeAt(trail, c, j)
    ensures HearsAt(trail, c, j)
  {}

  lemma FlushedLogged(env: Env, g: Group, log: Log, no: nat, settle: bool)
    requires GroupLogged(env, g, log)
    ensures TurnLogged(env, TurnOf(if settle then Settle(env, g) else g, no), log, settle)
  {
    hide CardUpTo, ShowsCall, ShowsSettled, CallsAt, SettledCard, ApprovalIn, LastDurationIn, FreezeAnchor, Anchor;
    var anchor, told := FreezeAnchor(env, g), log.told;
    SettleFlat(env, g, anchor, |g.tools|);
    AnchorIs(env, g, log.rows);
    var h := if settle then Settle(env, g) else g;
    assert ToolsOf(TurnOf(h, no)) == h.tools;
    forall i | 0 <= i < |g.tools|
      ensures ShowsCall(env, g.tools[i], told, CallsAt(told)[i], |told|)
      ensures ShowsSettled(env, if g.tools[i].status == Running then SettledCard(env, g.tools[i], anchor) else g.tools[i],
                           told, CallsAt(told)[i], anchor)
    {
      CardShowsCall(env, told, CallsAt(told)[i], |told|);
      SettledShows(env, g.tools[i], told, CallsAt(told)[i], anchor);
    }
  }

  // ---------------------------------------------------------------- whole transcripts

  /** Turn by turn, what the state holds is what its log tells. */
  ghost predicate StateLogged(env: Env, s: State, log: nat -> Log) {
    && (forall n :: 0 <= n < |s.turns| && s.turns[n].AssistantTurn? ==> TurnLogged(env, s.turns[n], log(n), true))
    && (s.group.Some? ==> GroupLogged(env, s.group.value, log(|s.turns|)))
    && (s.group.None? ==> log(|s.turns|) == Log([], []))
    && (forall n :: n > |s.turns| ==> log(n) == Log([], []))
  }

  lemma FlushStateLogged(env: Env, s: State, log: nat -> Log)
    requires StateLogged(env, s, log)
    ensures StateLogged(env, Flush(env, s, true), log)
    ensures |Flush(env, s, true).turns| == |s.turns| + (if s.group.Some? then 1 else 0)
  {
    hide Settle, TurnLogged, GroupLogged, TurnOf;
    FlushPrompts(env, s);
    if s.group.Some? { FlushedLogged(env, s.group.value, log(|s.turns|), s.no, true); }
  }

  /** What one message adds to the log of turn `n`. */
  function AddsLog(env: Env, s: State, m: Message, n: nat): Log {
    if Classify(m) == AssistantRow then
      if n == |AssistantStep(env, s, m).turns| then Log(TellAll(m.content, RecognisedBy(env, s, m)), [m]) else Log([], [])
    else if Classify(m) == ToolResultRow && s.group.Some? && n == |s.turns| then Log(TellAll(m.content, false), [])
    else Log([], [])
  }

  lemma AppendNothing(a: Log)
    ensures Append(a, Log([], [])) == a && Append(Log([], []), a) == a
  {
    assert a.told + [] == a.told && [] + a.told == a.told && a.rows + [] == a.rows && [] + a.rows == a.rows;
  }

  lemma AssistantLogged(env: Env, s: State, m: Message, before: nat -> Log, after: nat -> Log)
    requires StateLogged(env, s, before) && Classify(m) == AssistantRow
    requires forall n :: after(n) == Append(before(n), AddsLog(env, s, m, n))
    ensures StateLogged(env, AssistantStep(env, s, m), after)
  {
    hide Flush, FoldRow, TurnLogged, GroupLogged, SigOf, AlreadyFolded, Append, TellAll;
    var f := Flush(env, s, true);
    FlushStateLogged(env, s, before);
    FlushPrompts(env, s);
    forall n: nat ensures Append(before(n), Log([], [])) == before(n) { AppendNothing(before(n)); }
    if ContinuesGroup(s.group, m.promptId) {
      RowLogged(env, s.group.value, m, before(|s.turns|));
    } else {
      RowLogged(env, NewGroup(m), m, Log([], []));
      NothingRecognised(env, m);
      assert before(|f.turns|) == Log([], []);
    }
  }

  lemma BoundaryLogged(env: Env, s: State, m: Message, log: nat -> Log)
    requires StateLogged(env, s, log)
    ensures StateLogged(env, BoundaryStep(env, s, m), log)
  {
    hide Flush, TurnLogged, GroupLogged;
    FlushStateLogged(env, s, log);
    BoundaryPrompts(env, s, m);
    FlushPrompts(env, s);
    assert Flush(env, s, true).group.None?;
  }

  lemma StepLogged(env: Env, s: State, m: Message, rest: seq<Message>, before: nat -> Log, after: nat -> Log)
    requires StateLogged(env, s, before)
    requires forall n :: after(n) == Append(before(n), AddsLog(env, s, m, n))
    ensures StateLogged(env, Step(env, s, m, rest), after)
  {
    hide AssistantStep, BoundaryStep, Absorb, TurnLogged, GroupLogged, RecognisedBy, Append, TellAll;
    forall n: nat ensures Append(before(n), Log([], [])) == before(n) { AppendNothing(before(n)); }
    if Classify(m) == AssistantRow {
      AssistantLogged(env, s, m, before, after);
    } else if Classify(m) == ToolResultRow && s.group.Some? {
      ResultsLogged(env, s.group.value, m, before(|s.turns|));
    } else {
      assert forall n: nat :: after(n) == before(n);
      assert StateLogged(env, s, after);
      BoundaryLogged(env, s, m, after);
      if GoesInline(s, m, rest) { BlockLogged(env, s.group.value, InlineBlock(env, m), after(|s.turns|)); }
    }
  }

  lemma LogStep(env: Env, msgs: seq<Message>, k: nat, n: nat)
    requires 0 < k <= |msgs|
    ensures LogAt(env, msgs, n, k)
            == Append(LogAt(env, msgs, n, k - 1), AddsLog(env, StateAt(env, msgs, k - 1), msgs[k - 1], n))
  {
    hide StateAt, AssistantStep, RecognisedBy, Absorb, TellAll, Append, Kept;
    var s, m := StateAt(env, msgs, k - 1), msgs[k - 1];
    OneStep(env, msgs, k - 1);
    if Classify(m) == AssistantRow {
      RowStep(env, s, m, msgs[k..]);
      RowLandsIffKept(env, msgs, k - 1);
      RecognisedIsNotLanding(env, msgs, k - 1);
    } else if Classify(m) == ToolResultRow {
      ResultsStay(env, s, m, msgs[k..]);
    }
  }

  lemma RecognisedIsNotLanding(env: Env, msgs: seq<Message>, i: nat)
    requires i < |msgs| && Classify(msgs[i]) == AssistantRow
    ensures RecognisedBy(env, StateAt(env, msgs, i), msgs[i]) <==> !Lands(env, msgs, i, Slot(env, msgs, i))
  {}

  lemma ResultsStay(env: Env, s: State, m: Message, rest: seq<Message>)
    requires Classify(m) == ToolResultRow
    ensures Step(env, s, m, rest).turns == s.turns
  {}

  lemma NothingYet(env: Env, log: nat -> Log)
    requires forall n :: log(n) == Log([], [])
    ensures StateLogged(env, State([], 1, None), log)
  {}

  lemma {:induction false} StatesLogged(env: Env, msgs: seq<Message>, k: nat)
    requires k <= |msgs|
    ensures StateLogged(env, StateAt(env, msgs, k), (n: nat) => LogAt(env, msgs, n, k))
  {
    hide StateLogged, Step, AddsLog, Append;
    var after := (n: nat) => LogAt(env, msgs, n, k);
    if k > 0 {
      StatesLogged(env, msgs, k - 1);
      var before := (n: nat) => LogAt(env, msgs, n, k - 1);
      forall n: nat ensures after(n) == Append(before(n), AddsLog(env, StateAt(env, msgs, k - 1), msgs[k - 1], n)) {
        LogStep(env, msgs, k, n);
      }
      StepLogged(env, StateAt(env, msgs, k - 1), msgs[k - 1], msgs[k..], before, after);
    } else {
      NothingYet(env, after);
    }
  }

  /** Every assistant turn of every transcript, field by field, by the rows folded into it:
      it has the id of its first row, the end of its last row, the last duration any row
      brings, the approval of its last approved call, and one card for each call. Each card
      has the call's name and argument; result, media, time and plan path are those of the
      last result it heard, as far as that brings them; and what is missing the first copy
      supplies. A call without a result in a finished turn counts as succeeded, with the
      time that had passed when the turn ended. */
  lemma TurnIsToldByItsRows(env: Env, msgs: seq<Message>, active: bool, n: nat)
    requires n < |Turns(env, msgs, active)| && Turns(env, msgs, active)[n].AssistantTurn?
    ensures TurnLogged(env, Turns(env, msgs, active)[n], LogAt(env, msgs, n, |msgs|), !IsLiveTurn(env, msgs, active, n))
  {
    hide TurnLogged, GroupLogged, TurnOf, Settle;
    var s := StateAt(env, msgs, |msgs|);
    StatesLogged(env, msgs, |msgs|);
    if s.group.Some? { FlushedLogged(env, s.group.value, LogAt(env, msgs, |s.turns|, |msgs|), s.no, !active); }
  }
}
