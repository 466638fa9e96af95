/** Prompt attribution: which turn an assistant row lands in, and when two assistant
    turns stand side by side. */
module TranscriptPrompts {
  import opened Wrappers
  import opened TranscriptTypes
  import opened TranscriptFold
  import opened TranscriptDuplicates

  /** The index of the turn that the assistant row `i` is folded into. */
  function Slot(env: Env, msgs: seq<Message>, i: nat): nat
    requires i < |msgs|
  {
    |StateAt(env, msgs, i + 1).turns|
  }

  predicate IsRowOf(env: Env, msgs: seq<Message>, i: nat, n: nat)
    requires i < |msgs|
  {
    Classify(msgs[i]) == AssistantRow && Slot(env, msgs, i) == n
  }

  // ---------------------------------------------------------------- a row's turn carries its prompt

  /** Turn `n`, flushed or still open, is an assistant turn, with prompt `pid` if that is known. */
  ghost predicate HasPrompt(s: State, n: nat, pid: Option<string>) {
    || (|s.turns| == n && s.group.Some? && (pid.Some? ==> s.group.value.promptId == pid))
    || (|s.turns| > n && s.turns[n].AssistantTurn? && (pid.Some? ==> s.turns[n].promptId == pid))
  }

  lemma {:induction false} SettleKeepsPrompt(env: Env, g: Group, anchor: Option<int>, n: nat)
    requires n <= |g.tools|
    ensures SettleFirst(env, g, anchor, n).promptId == g.promptId
  {
    if n > 0 { SettleKeepsPrompt(env, g, anchor, n - 1); }
  }

  lemma FlushKeepsPrompt(env: Env, s: State, settle: bool, n: nat, pid: Option<string>)
    requires HasPrompt(s, n, pid)
    ensures HasPrompt(Flush(env, s, settle), n, pid)
    ensures |Flush(env, s, settle).turns| > n
  {
    if s.group.Some? {
      SettleKeepsPrompt(env, s.group.value, FreezeAnchor(env, s.group.value), |s.group.value.tools|);
    }
  }

  lemma StepKeepsPrompt(env: Env, s: State, m: Message, rest: seq<Message>, n: nat, pid: Option<string>)
    requires HasPrompt(s, n, pid)
    ensures HasPrompt(Step(env, s, m, rest), n, pid)
  {
    hide Flush, FoldRow, Absorb, InlineBlock;
    FlushKeepsPrompt(env, s, true, n, pid);
    if s.group.Some? {
      FoldRowStamps(env, s.group.value, m);
      AbsorbKeepsStamps(env, s.group.value, m.content);
    }
  }

  lemma {:induction false} PromptStays(env: Env, msgs: seq<Message>, k0: nat, k: nat, n: nat, pid: Option<string>)
    requires k0 <= k <= |msgs| && HasPrompt(StateAt(env, msgs, k0), n, pid)
    ensures HasPrompt(StateAt(env, msgs, k), n, pid)
    decreases k
  {
    hide Step, HasPrompt;
    if k0 < k {
      PromptStays(env, msgs, k0, k - 1, n, pid);
      StepKeepsPrompt(env, StateAt(env, msgs, k - 1), msgs[k - 1], msgs[k..], n, pid);
    }
  }

  lemma RowOpensItsSlot(env: Env, s: State, m: Message)
    ensures var s' := AssistantStep(env, s, m); HasPrompt(s', |s'.turns|, m.promptId)
  {
    if ContinuesGroup(s.group, m.promptId) {
      FoldRowStamps(env, s.group.value, m);
    } else {
      FoldRowStamps(env, NewGroup(m), m);
    }
  }

  /** Every assistant row lands in an assistant turn, and if the row names its prompt
      then the turn carries that very prompt id. */
  lemma RowLandsInItsPrompt(env: Env, msgs: seq<Message>, active: bool, i: nat)
    requires i < |msgs| && Classify(msgs[i]) == AssistantRow
    ensures var t, n := Turns(env, msgs, active), Slot(env, msgs, i);
            && n < |t| && t[n].AssistantTurn?
            && (msgs[i].promptId.Some? ==> t[n].promptId == msgs[i].promptId)
  {
    hide AssistantStep;
    var s, n := StateAt(env, msgs, i), Slot(env, msgs, i);
    assert StateAt(env, msgs, i + 1) == AssistantStep(env, s, msgs[i]);
    RowOpensItsSlot(env, s, msgs[i]);
    PromptStays(env, msgs, i + 1, |msgs|, n, msgs[i].promptId);
    FlushKeepsPrompt(env, StateAt(env, msgs, |msgs|), !active, n, msgs[i].promptId);
  }

  /** No turn absorbs rows of two different prompts. */
  lemma OnePromptPerTurn(env: Env, msgs: seq<Message>, i: nat, j: nat)
    requires i < |msgs| && j < |msgs|
    requires Classify(msgs[i]) == AssistantRow && Classify(msgs[j]) == AssistantRow
    requires Slot(env, msgs, i) == Slot(env, msgs, j)
    requires msgs[i].promptId.Some? && msgs[j].promptId.Some?
    ensures msgs[i].promptId == msgs[j].promptId
  {
    RowLandsInItsPrompt(env, msgs, false, i);
    RowLandsInItsPrompt(env, msgs, false, j);
  }

  // ---------------------------------------------------------------- a turn's prompt comes from a row

  ghost predicate FromRow(env: Env, msgs: seq<Message>, k: nat, n: nat, pid: Option<string>)
    requires k <= |msgs|
  {
    pid.Some? ==> exists i :: 0 <= i < k && IsRowOf(env, msgs, i, n) && msgs[i].promptId == pid
  }

  ghost predicate PromptsFromRows(env: Env, msgs: seq<Message>, k: nat)
    requires k <= |msgs|
  {
    var s := StateAt(env, msgs, k);
    && (forall n :: 0 <= n < |s.turns| && s.turns[n].AssistantTurn? ==>
          FromRow(env, msgs, k, n, s.turns[n].promptId))
    && (s.group.Some? ==> FromRow(env, msgs, k, |s.turns|, s.group.value.promptId))
  }

  /** What one message does to the prompts: turns keep theirs, the group's moves to the
      turn it becomes, and a new prompt is that of the assistant row just handled. */
  lemma StepPrompts(env: Env, s: State, m: Message, rest: seq<Message>)
    ensures var s' := Step(env, s, m, rest);
            && s.turns <= s'.turns
            && (forall n :: |s.turns| <= n < |s'.turns| && s'.turns[n].AssistantTurn? ==>
                  n == |s.turns| && s.group.Some? && s'.turns[n].promptId == s.group.value.promptId)
            && (s'.group.Some? ==>
                  || (|s'.turns| == |s.turns| && s.group.Some? && s'.group.value.promptId == s.group.value.promptId)
                  || (Classify(m) == AssistantRow && s'.group.value.promptId == m.promptId))
  {
    hide Flush, BoundaryStep, FoldRow, Absorb, InlineBlock;
    FlushPrompts(env, s);
    BoundaryPrompts(env, s, m);
    if s.group.Some? {
      FoldRowStamps(env, s.group.value, m);
      AbsorbKeepsStamps(env, s.group.value, m.content);
    }
    FoldRowStamps(env, NewGroup(m), m);
  }

  /** Flushing moves the group's prompt to the turn it becomes. */
  lemma FlushPrompts(env: Env, s: State)
    ensures var r := Flush(env, s, true);
            && r.group.None? && s.turns <= r.turns
            && |r.turns| == |s.turns| + (if s.group.Some? then 1 else 0)
            && (s.group.Some? ==> r.turns[|s.turns|].AssistantTurn? &&
                                  r.turns[|s.turns|].promptId == s.group.value.promptId)
  {
    if s.group.Some? {
      SettleKeepsPrompt(env, s.group.value, FreezeAnchor(env, s.group.value), |s.group.value.tools|);
    }
  }

  /** A boundary adds at most one turn behind it, and that is no assistant turn. */
  lemma BoundaryPrompts(env: Env, s: State, m: Message)
    ensures var f, r := Flush(env, s, true), BoundaryStep(env, s, m);
            && r.group == f.group && f.turns <= r.turns && |r.turns| <= |f.turns| + 1
            && (|r.turns| == |f.turns| + 1 ==> !r.turns[|f.turns|].AssistantTurn?)
  {
    hide Flush;
  }

  lemma FromRowLater(env: Env, msgs: seq<Message>, k: nat, n: nat, pid: Option<string>)
    requires k < |msgs| && FromRow(env, msgs, k, n, pid)
    ensures FromRow(env, msgs, k + 1, n, pid)
  {}

  lemma {:induction false} PromptsComeFromRows(env: Env, msgs: seq<Message>, k: nat)
    requires k <= |msgs|
    ensures PromptsFromRows(env, msgs, k)
  {
    if k > 0 {
      PromptsComeFromRows(env, msgs, k - 1);
      var s, s' := StateAt(env, msgs, k - 1), StateAt(env, msgs, k);
      StepPrompts(env, s, msgs[k - 1], msgs[k..]);
      forall n | 0 <= n < |s'.turns| && s'.turns[n].AssistantTurn?
        ensures FromRow(env, msgs, k, n, s'.turns[n].promptId)
      {
        FromRowLater(env, msgs, k - 1, n, s'.turns[n].promptId);
      }
      if s'.group.Some? {
        if Classify(msgs[k - 1]) == AssistantRow && s'.group.value.promptId == msgs[k - 1].promptId {
          assert IsRowOf(env, msgs, k - 1, |s'.turns|);
        } else {
          FromRowLater(env, msgs, k - 1, |s'.turns|, s'.group.value.promptId);
        }
      }
    }
  }

  /** A turn's prompt id is that of one of the rows folded into it. */
  lemma TurnPromptComesFromARow(env: Env, msgs: seq<Message>, active: bool, n: nat)
    requires n < |Turns(env, msgs, active)|
    requires var t := Turns(env, msgs, active)[n]; t.AssistantTurn? && t.promptId.Some?
    ensures exists i :: 0 <= i < |msgs| && IsRowOf(env, msgs, i, n) &&
                        msgs[i].promptId == Turns(env, msgs, active)[n].promptId
  {
    var s := StateAt(env, msgs, |msgs|);
    PromptsComeFromRows(env, msgs, |msgs|);
    if s.group.Some? {
      SettleKeepsPrompt(env, s.group.value, FreezeAnchor(env, s.group.value), |s.group.value.tools|);
    }
    assert FromRow(env, msgs, |msgs|, n, Turns(env, msgs, active)[n].promptId);
  }

  // ---------------------------------------------------------------- neighbouring assistant turns

  /** The turn counts at which a hidden user message came by. */
  function HiddenCuts(env: Env, msgs: seq<Message>, k: nat): set<nat>
    requires k <= |msgs|
  {
    if k == 0 then {}
    else HiddenCuts(env, msgs, k - 1) +
         (if Classify(msgs[k - 1]) == HiddenRow then {|StateAt(env, msgs, k).turns|} else {})
  }

  predicate KnownAndDifferent(a: Option<string>, b: Option<string>) {
    a.Some? && b.Some? && a != b
  }

  ghost predicate Separated(turns: seq<Turn>, cuts: set<nat>) {
    forall n :: 0 < n < |turns| && turns[n - 1].AssistantTurn? && turns[n].AssistantTurn? ==>
      KnownAndDifferent(turns[n - 1].promptId, turns[n].promptId) || n in cuts
  }

  ghost predicate SeparatedState(s: State, cuts: set<nat>) {
    && Separated(s.turns, cuts)
    && (s.turns != [] && s.turns[|s.turns| - 1].AssistantTurn? && |s.turns| !in cuts ==>
          s.group.Some? && KnownAndDifferent(s.turns[|s.turns| - 1].promptId, s.group.value.promptId))
  }

  lemma FlushSeparated(env: Env, s: State, cuts: set<nat>, settle: bool)
    requires SeparatedState(s, cuts)
    ensures Separated(Flush(env, s, settle).turns, cuts)
  {
    if s.group.Some? {
      SettleKeepsPrompt(env, s.group.value, FreezeAnchor(env, s.group.value), |s.group.value.tools|);
    }
  }

  lemma AssistantSeparated(env: Env, s: State, m: Message, cuts: set<nat>)
    requires SeparatedState(s, cuts)
    ensures SeparatedState(AssistantStep(env, s, m), cuts)
  {
    if ContinuesGroup(s.group, m.promptId) {
      FoldRowStamps(env, s.group.value, m);
    } else {
      FlushSeparated(env, s, cuts, true);
      FoldRowStamps(env, NewGroup(m), m);
      if s.group.Some? {
        SettleKeepsPrompt(env, s.group.value, FreezeAnchor(env, s.group.value), |s.group.value.tools|);
      }
    }
  }

  lemma StepSeparated(env: Env, s: State, m: Message, rest: seq<Message>, cuts: set<nat>)
    requires SeparatedState(s, cuts)
    ensures var s' := Step(env, s, m, rest);
            SeparatedState(s', if Classify(m) == HiddenRow then cuts + {|s'.turns|} else cuts)
  {
    var row := Classify(m);
    if row == SkippedRow {
    } else if row == ToolResultRow {
      if s.group.Some? { AbsorbKeepsStamps(env, s.group.value, m.content); }
    } else if row == AssistantRow {
      AssistantSeparated(env, s, m, cuts);
    } else if !GoesInline(s, m, rest) {
      FlushSeparated(env, s, cuts, true);
    }
  }

  lemma {:induction false} StatesSeparated(env: Env, msgs: seq<Message>, k: nat)
    requires k <= |msgs|
    ensures SeparatedState(StateAt(env, msgs, k), HiddenCuts(env, msgs, k))
  {
    if k > 0 {
      StatesSeparated(env, msgs, k - 1);
      StepSeparated(env, StateAt(env, msgs, k - 1), msgs[k - 1], msgs[k..], HiddenCuts(env, msgs, k - 1));
    }
  }

  lemma {:induction false} CutIsAHiddenMessage(env: Env, msgs: seq<Message>, k: nat, n: nat)
    requires k <= |msgs| && n in HiddenCuts(env, msgs, k)
    ensures exists j :: 0 <= j < k && Classify(msgs[j]) == HiddenRow && Slot(env, msgs, j) == n
  {
    if n in HiddenCuts(env, msgs, k - 1) {
      CutIsAHiddenMessage(env, msgs, k - 1, n);
    } else {
      assert Slot(env, msgs, k - 1) == n;
    }
  }

  /** Two assistant turns stand side by side only if they carry different known prompts,
      or a hidden user message came between them. */
  lemma NeighboursDiffer(env: Env, msgs: seq<Message>, active: bool, n: nat)
    requires 0 < n < |Turns(env, msgs, active)|
    requires Turns(env, msgs, active)[n - 1].AssistantTurn? && Turns(env, msgs, active)[n].AssistantTurn?
    ensures || KnownAndDifferent(Turns(env, msgs, active)[n - 1].promptId, Turns(env, msgs, active)[n].promptId)
            || exists j :: 0 <= j < |msgs| && Classify(msgs[j]) == HiddenRow && Slot(env, msgs, j) == n
  {
    StatesSeparated(env, msgs, |msgs|);
    FlushSeparated(env, StateAt(env, msgs, |msgs|), HiddenCuts(env, msgs, |msgs|), !active);
    if n in HiddenCuts(env, msgs, |msgs|) {
      CutIsAHiddenMessage(env, msgs, |msgs|, n);
    }
  }
}
