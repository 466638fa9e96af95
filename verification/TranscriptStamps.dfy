/** When a turn ended: the end stamp of the last row folded into it, and what a second
    copy of a row does to it. */
module TranscriptStamps {
  import opened Wrappers
  import opened TranscriptTypes
  import opened TranscriptFold
  import opened TranscriptViews
  import opened TranscriptDecomposition
  import opened TranscriptDuplicates
  import opened TranscriptPrompts

  /** The first assistant row before any hard boundary continues the prompt `pid`. */
  predicate RowFollows(q: seq<Message>, pid: Option<string>) {
    q != [] && !IsHardBoundary(q[0]) &&
    if Classify(q[0]) == AssistantRow then Continues(pid, q[0].promptId) else RowFollows(q[1..], pid)
  }

  /** The end stamp of the last row of `q` that still belongs to the prompt `pid`, or
      `soFar` if there is none. */
  function LastEnded(q: seq<Message>, pid: Option<string>, soFar: Option<string>): Option<string> {
    if q == [] || IsHardBoundary(q[0]) then soFar
    else if Classify(q[0]) != AssistantRow then LastEnded(q[1..], pid, soFar)
    else if Continues(pid, q[0].promptId) then LastEnded(q[1..], pid, q[0].endedAt)
    else soFar
  }

  lemma {:induction false} LastEndedDepends(q: seq<Message>, pid: Option<string>, a: Option<string>, b: Option<string>)
    ensures if RowFollows(q, pid) then LastEnded(q, pid, a) == LastEnded(q, pid, b) else LastEnded(q, pid, a) == a
  {
    if q != [] && !IsHardBoundary(q[0]) && Classify(q[0]) != AssistantRow { LastEndedDepends(q[1..], pid, a, b); }
  }

  /** Such a row that also brings a duration. */
  predicate TimedRowFollows(q: seq<Message>, pid: Option<string>) {
    q != [] && !IsHardBoundary(q[0]) &&
    if Classify(q[0]) != AssistantRow then TimedRowFollows(q[1..], pid)
    else Continues(pid, q[0].promptId) && (q[0].durationMs.Some? || TimedRowFollows(q[1..], pid))
  }

  /** The duration the last row of `q` that still belongs to the prompt `pid` brings. */
  function LastDuration(q: seq<Message>, pid: Option<string>, soFar: Option<int>): Option<int> {
    if q == [] || IsHardBoundary(q[0]) then soFar
    else if Classify(q[0]) != AssistantRow then LastDuration(q[1..], pid, soFar)
    else if Continues(pid, q[0].promptId)
    then LastDuration(q[1..], pid, if q[0].durationMs.Some? then q[0].durationMs else soFar)
    else soFar
  }

  lemma {:induction false} LastDurationDepends(q: seq<Message>, pid: Option<string>, a: Option<int>, b: Option<int>)
    ensures if TimedRowFollows(q, pid) then LastDuration(q, pid, a) == LastDuration(q, pid, b)
            else LastDuration(q, pid, a) == a
  {
    if q != [] && !IsHardBoundary(q[0]) {
      if Classify(q[0]) != AssistantRow {
        LastDurationDepends(q[1..], pid, a, b);
      } else if Continues(pid, q[0].promptId) && q[0].durationMs.None? {
        LastDurationDepends(q[1..], pid, a, b);
      }
    }
  }

  /** A notice that is not folded into the running turn is followed by no row of it. */
  lemma {:induction false} UnsteeredNotFollowed(q: seq<Message>, pid: Option<string>)
    requires NextAssistant(q).Some? && !Continues(pid, NextAssistant(q).value.promptId)
    ensures !RowFollows(q, pid) && !TimedRowFollows(q, pid)
  {
    if q[0].role != AssistantRole { UnsteeredNotFollowed(q[1..], pid); }
  }

  lemma FlushedEnd(env: Env, s: State, settle: bool)
    requires s.group.Some?
    ensures var t := Flush(env, s, settle).turns;
            && |t| == |s.turns| + 1 && t[|s.turns|].AssistantTurn?
            && t[|s.turns|].endedAt == NonEmpty(s.group.value.lastRowEndedAt)
            && t[|s.turns|].durationMs == s.group.value.durationMs
  {
    var g := s.group.value;
    SettleFlat(env, g, FreezeAnchor(env, g), |g.tools|);
  }

  /** What one message does to the stamps of the open group: it stays open and takes the
      row's stamps, stays as it is, or is flushed as it is. */
  lemma StepEnd(env: Env, s: State, m: Message, rest: seq<Message>)
    requires s.group.Some? && s.group.value.promptId.Some?
    ensures var g, s' := s.group.value, Step(env, s, m, rest);
            var row := Classify(m) == AssistantRow && Continues(g.promptId, m.promptId);
            if row || Classify(m) == SkippedRow || Classify(m) == ToolResultRow || GoesInline(s, m, rest) then
              && s'.turns == s.turns && s'.group.Some? && s'.group.value.promptId == g.promptId
              && s'.group.value.lastRowEndedAt == (if row then m.endedAt else g.lastRowEndedAt)
              && s'.group.value.durationMs == (if row && m.durationMs.Some? then m.durationMs else g.durationMs)
            else
              && |s.turns| < |s'.turns| && s'.turns[|s.turns|].AssistantTurn?
              && s'.turns[|s.turns|].endedAt == NonEmpty(g.lastRowEndedAt)
              && s'.turns[|s.turns|].durationMs == g.durationMs
  {
    hide Flush, FoldRow, Absorb, OwnTurn, InlineBlock;
    var g := s.group.value;
    FlushedEnd(env, s, true);
    FoldRowStamps(env, g, m);
    AbsorbKeepsStamps(env, g, m.content);
  }

  /** For every transcript: a turn with a known prompt carries the end stamp of the last row
      folded into it, blank counting as none, whatever earlier rows said, and the duration
      of the last row that brings one. */
  lemma {:induction false} TurnEnds(env: Env, msgs: seq<Message>, k: nat, active: bool)
    requires k <= |msgs| && StateAt(env, msgs, k).group.Some?
    requires StateAt(env, msgs, k).group.value.promptId.Some?
    ensures var s, t := StateAt(env, msgs, k), Turns(env, msgs, active);
            var g := s.group.value;
            && |s.turns| < |t| && t[|s.turns|].AssistantTurn?
            && t[|s.turns|].endedAt == NonEmpty(LastEnded(msgs[k..], g.promptId, g.lastRowEndedAt))
            && t[|s.turns|].durationMs == LastDuration(msgs[k..], g.promptId, g.durationMs)
    decreases |msgs| - k
  {
    hide Step, Flush, NonEmpty, IsHardBoundary, GoesInline, LastEnded, LastDuration, Continues;
    var s := StateAt(env, msgs, k);
    var g := s.group.value;
    if k == |msgs| {
      assert msgs[k..] == [];
      NoneFollow(g.promptId, g.lastRowEndedAt, g.durationMs);
      FlushedEnd(env, s, !active);
    } else {
      var m, rest := msgs[k], msgs[k + 1..];
      var s' := StateAt(env, msgs, k + 1);
      assert s' == Step(env, s, m, rest);
      assert msgs[k..] == [m] + rest;
      StepEnd(env, s, m, rest);
      LastEndedStep(s, m, rest);
      if s'.group.Some? && s'.turns == s.turns {
        TurnEnds(env, msgs, k + 1, active);
      } else {
        TurnsStay(env, msgs, k + 1, |msgs|);
        FlushExtends(env, StateAt(env, msgs, |msgs|), !active);
      }
    }
  }

  lemma NoneFollow(pid: Option<string>, soFar: Option<string>, duration: Option<int>)
    ensures LastEnded([], pid, soFar) == soFar && LastDuration([], pid, duration) == duration
  {}

  lemma FlushExtends(env: Env, s: State, settle: bool)
    ensures s.turns <= Flush(env, s, settle).turns
  {}

  /** Both stop where the group is flushed. */
  lemma LastEndedStep(s: State, m: Message, rest: seq<Message>)
    requires s.group.Some? && s.group.value.promptId.Some?
    ensures var pid, soFar := s.group.value.promptId, s.group.value.lastRowEndedAt;
            var row := Classify(m) == AssistantRow && Continues(pid, m.promptId);
            LastEnded([m] + rest, pid, soFar) ==
              if row then LastEnded(rest, pid, m.endedAt)
              else if Classify(m) == SkippedRow || Classify(m) == ToolResultRow || GoesInline(s, m, rest)
              then LastEnded(rest, pid, soFar)
              else soFar
    ensures var pid, soFar := s.group.value.promptId, s.group.value.durationMs;
            var row := Classify(m) == AssistantRow && Continues(pid, m.promptId);
            LastDuration([m] + rest, pid, soFar) ==
              if row then LastDuration(rest, pid, if m.durationMs.Some? then m.durationMs else soFar)
              else if Classify(m) == SkippedRow || Classify(m) == ToolResultRow || GoesInline(s, m, rest)
              then LastDuration(rest, pid, soFar)
              else soFar
  {
    var pid, soFar := s.group.value.promptId, s.group.value.lastRowEndedAt;
    assert ([m] + rest)[1..] == rest;
    if Classify(m) == NoticeRow && !GoesInline(s, m, rest) {
      UnsteeredNotFollowed(rest, pid);
      LastEndedDepends(rest, pid, soFar, soFar);
      LastDurationDepends(rest, pid, s.group.value.durationMs, s.group.value.durationMs);
    }
  }

  /** Where a row that names its prompt lands, and what it leaves there. */
  lemma RowStamps(env: Env, s: State, m: Message)
    requires m.promptId.Some?
    ensures var s' := AssistantStep(env, s, m);
            s'.group.Some? && s'.group.value.promptId == m.promptId && s'.group.value.lastRowEndedAt == m.endedAt
  {
    hide FoldRow, Flush;
    FoldRowStamps(env, if ContinuesGroup(s.group, m.promptId) then s.group.value else NewGroup(m), m);
  }
}
