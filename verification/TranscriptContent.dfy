/** What an assistant turn says: the texts, thinking and calls of the rows folded into it,
    each once and in order, and for each call the last result that reached it. */
module TranscriptContent {
  import opened Wrappers
  import opened TranscriptTypes
  import opened TranscriptFold
  import opened TranscriptViews
  import opened TranscriptDecomposition
  import opened TranscriptDuplicates
  import opened TranscriptPrompts

  // ---------------------------------------------------------------- what the parts say

  function TextsIn(parts: seq<Part>): seq<string> {
    if parts == [] then []
    else TextsIn(parts[..|parts| - 1]) +
         (if parts[|parts| - 1].TextPart? && parts[|parts| - 1].text != "" then [parts[|parts| - 1].text] else [])
  }

  function ThinkingsIn(parts: seq<Part>): seq<string> {
    if parts == [] then []
    else ThinkingsIn(parts[..|parts| - 1]) +
         (if parts[|parts| - 1].ThinkingPart? && parts[|parts| - 1].thinking != ""
          then [parts[|parts| - 1].thinking] else [])
  }

  function CallsIn(parts: seq<Part>): seq<string> {
    if parts == [] then []
    else CallsIn(parts[..|parts| - 1]) +
         (if parts[|parts| - 1].ToolUsePart? then [parts[|parts| - 1].callId] else [])
  }

  predicate IsFirst(ids: seq<string>, i: nat)
    requires i < |ids|
  {
    forall j :: 0 <= j < i ==> ids[j] != ids[i]
  }

  ghost predicate Distinct(ids: seq<string>) {
    forall i, j :: 0 <= i < j < |ids| ==> ids[i] != ids[j]
  }

  function Verdict(c: Part): ToolStatus
    requires c.ToolResultPart?
  {
    if c.isError then Failed else Succeeded
  }

  /** Part `c` is a result for the call `i` of `ids`, and no earlier call has its id. */
  predicate Answers(c: Part, ids: seq<string>, i: nat)
    requires i < |ids|
  {
    c.ToolResultPart? && c.callId == ids[i] && IsFirst(ids, i)
  }

  /** The status of the call `i` of `parts`. */
  function StatusOf(parts: seq<Part>, i: nat): ToolStatus
    requires i < |CallsIn(parts)|
  {
    var init, c := parts[..|parts| - 1], parts[|parts| - 1];
    if i == |CallsIn(init)| then Running
    else if Answers(c, CallsIn(init), i) then Verdict(c)
    else StatusOf(init, i)
  }

  /** Part `j` is a result that the call `i` hears: the call is the first with its id, and
      made by then. */
  ghost predicate Hears(parts: seq<Part>, i: nat, j: nat)
    requires i < |CallsIn(parts)| && j < |parts|
  {
    i < |CallsIn(parts[..j])| && Answers(parts[j], CallsIn(parts), i)
  }

  lemma {:induction false} CallsExtend(parts: seq<Part>, j: nat)
    requires j <= |parts|
    ensures CallsIn(parts[..j]) <= CallsIn(parts)
    decreases |parts| - j
  {
    if j < |parts| {
      assert parts[..j + 1][..j] == parts[..j];
      CallsExtend(parts, j + 1);
    } else {
      assert parts[..j] == parts;
    }
  }

  lemma AnswersSame(c: Part, a: seq<string>, b: seq<string>, i: nat)
    requires i < |a| && a <= b
    ensures Answers(c, a, i) == Answers(c, b, i)
  {}

  /** One part more: the call hears what it heard, and the new part if that answers it. */
  lemma HearsSnoc(parts: seq<Part>, i: nat)
    requires parts != [] && i < |CallsIn(parts[..|parts| - 1])|
    ensures var n := |parts| - 1;
            && i < |CallsIn(parts)|
            && (forall j :: 0 <= j < n ==> Hears(parts, i, j) == Hears(parts[..n], i, j))
            && Hears(parts, i, n) == Answers(parts[n], CallsIn(parts[..n]), i)
  {
    hide Answers;
    var n := |parts| - 1;
    var init := parts[..n];
    assert CallsIn(init) <= CallsIn(parts);
    forall j | 0 <= j < n ensures Hears(parts, i, j) == Hears(init, i, j) {
      assert parts[..j] == init[..j] && parts[j] == init[j];
      AnswersSame(parts[j], CallsIn(init), CallsIn(parts), i);
    }
    AnswersSame(parts[n], CallsIn(init), CallsIn(parts), i);
  }

  lemma LastCallHearsNothing(parts: seq<Part>, j: nat)
    requires parts != [] && j < |parts| && |CallsIn(parts[..|parts| - 1])| < |CallsIn(parts)|
    ensures !Hears(parts, |CallsIn(parts[..|parts| - 1])|, j)
  {
    var init := parts[..|parts| - 1];
    assert parts[..j] == init[..j];
    CallsExtend(init, j);
  }

  lemma StatusUnfold(parts: seq<Part>, i: nat)
    requires i < |CallsIn(parts)|
    ensures parts != []
    ensures var init, c := parts[..|parts| - 1], parts[|parts| - 1];
            StatusOf(parts, i) ==
              if i >= |CallsIn(init)| then Running
              else if Answers(c, CallsIn(init), i) then Verdict(c)
              else StatusOf(init, i)
    ensures i <= |CallsIn(parts[..|parts| - 1])|
  {}

  /** Result `j` is the last that call `i` hears. */
  ghost predicate HearsLast(parts: seq<Part>, i: nat, j: nat)
    requires i < |CallsIn(parts)| && j < |parts|
  {
    Hears(parts, i, j) && forall l :: j < l < |parts| ==> !Hears(parts, i, l)
  }

  ghost predicate HearsNothing(parts: seq<Part>, i: nat)
    requires i < |CallsIn(parts)|
  {
    forall j :: 0 <= j < |parts| ==> !Hears(parts, i, j)
  }

  /** A call that hears no result is running; otherwise the last result it hears counts. */
  lemma {:induction false} StatusIsLastResult(parts: seq<Part>, i: nat)
    requires i < |CallsIn(parts)|
    ensures HearsNothing(parts, i) ==> StatusOf(parts, i) == Running
    ensures forall j :: 0 <= j < |parts| && HearsLast(parts, i, j) ==>
              parts[j].ToolResultPart? && StatusOf(parts, i) == Verdict(parts[j])
  {
    hide Hears, CallsIn, StatusOf;
    StatusUnfold(parts, i);
    var n := |parts| - 1;
    var init := parts[..n];
    if i >= |CallsIn(init)| {
      forall j | 0 <= j < |parts| ensures !Hears(parts, i, j) { LastCallHearsNothing(parts, j); }
    } else {
      HearsSnoc(parts, i);
      StatusIsLastResult(init, i);
      if !Hears(parts, i, n) {
        forall j | 0 <= j < |parts| && HearsLast(parts, i, j) ensures j < n && HearsLast(init, i, j) {}
      }
    }
  }

  lemma PartsSnoc(parts: seq<Part>, c: Part)
    ensures TextsIn(parts + [c]) == TextsIn(parts) + (if c.TextPart? && c.text != "" then [c.text] else [])
    ensures ThinkingsIn(parts + [c])
            == ThinkingsIn(parts) + (if c.ThinkingPart? && c.thinking != "" then [c.thinking] else [])
    ensures CallsIn(parts + [c]) == CallsIn(parts) + (if c.ToolUsePart? then [c.callId] else [])
    ensures forall i :: 0 <= i < |CallsIn(parts + [c])| ==>
              StatusOf(parts + [c], i) ==
                if i == |CallsIn(parts)| then Running
                else if Answers(c, CallsIn(parts), i) then Verdict(c)
                else StatusOf(parts, i)
  {
    assert (parts + [c])[..|parts|] == parts;
  }

  // ---------------------------------------------------------------- the open group

  ghost predicate CardsTell(tools: seq<ToolCall>, parts: seq<Part>) {
    && |tools| == |CallsIn(parts)|
    && (forall i :: 0 <= i < |tools| ==> tools[i].id == CallsIn(parts)[i] && tools[i].status == StatusOf(parts, i))
  }

  /** The group holds what `parts` say. */
  ghost predicate Tells(g: Group, parts: seq<Part>) {
    g.textParts == TextsIn(parts) && g.thinkingParts == ThinkingsIn(parts) && CardsTell(g.tools, parts)
  }

  lemma FirstIs(tools: seq<ToolCall>, ids: seq<string>, i: nat)
    requires |tools| == |ids| && i < |ids| && forall j :: 0 <= j < |ids| ==> tools[j].id == ids[j]
    ensures FindTool(tools, ids[i]) == i <==> IsFirst(ids, i)
  {
    if IsFirst(ids, i) { FindToolUnique(tools, ids[i], i); }
  }

  lemma ResultTells(env: Env, g: Group, parts: seq<Part>, c: Part)
    requires CardsTell(g.tools, parts) && c.ToolResultPart?
    ensures CardsTell(AbsorbPart(env, g, c).tools, parts + [c])
  {
    hide StatusOf, FindTool, IsFirst, PatchCard;
    PartsSnoc(parts, c);
    var ids, t := CallsIn(parts), FindTool(g.tools, c.callId);
    var h := AbsorbPart(env, g, c);
    assert ids + [] == ids;
    if t < |g.tools| { assert ResultCard(env, g.tools[t], c).status == Verdict(c) && ResultCard(env, g.tools[t], c).id == g.tools[t].id; }
    forall i | 0 <= i < |ids| ensures h.tools[i].id == ids[i] && h.tools[i].status == StatusOf(parts + [c], i) {
      FirstIs(g.tools, ids, i);
    }
  }

  lemma CallTells(env: Env, g: Group, parts: seq<Part>, c: Part)
    requires CardsTell(g.tools, parts) && c.ToolUsePart?
    ensures CardsTell(AbsorbPart(env, g, c).tools, parts + [c])
  {
    hide StatusOf;
    PartsSnoc(parts, c);
  }

  lemma OtherTells(env: Env, g: Group, parts: seq<Part>, c: Part)
    requires CardsTell(g.tools, parts) && !c.ToolUsePart? && !c.ToolResultPart?
    ensures CardsTell(AbsorbPart(env, g, c).tools, parts + [c])
  {
    hide StatusOf;
    PartsSnoc(parts, c);
  }

  lemma PartTells(env: Env, g: Group, parts: seq<Part>, c: Part)
    requires Tells(g, parts)
    ensures Tells(AbsorbPart(env, g, c), parts + [c])
  {
    hide CardsTell, PatchCard, FindTool;
    PartsSnoc(parts, c);
    if c.ToolUsePart? {
      CallTells(env, g, parts, c);
    } else if c.ToolResultPart? {
      ResultTells(env, g, parts, c);
    } else {
      OtherTells(env, g, parts, c);
    }
  }

  /** Absorbing content adds what it says. */
  lemma {:induction false} AbsorbTells(env: Env, g: Group, parts: seq<Part>, content: seq<Part>)
    requires Tells(g, parts)
    ensures Tells(Absorb(env, g, content), parts + content)
  {
    hide Tells, AbsorbPart;
    if content == [] {
      assert parts + content == parts;
    } else {
      var init, c := content[..|content| - 1], content[|content| - 1];
      AbsorbTells(env, g, parts, init);
      PartTells(env, Absorb(env, g, init), parts + init, c);
      assert parts + content == parts + init + [c];
    }
  }

  /** Filling gaps adds nothing to it. */
  lemma FillTells(g: Group, h: Group, parts: seq<Part>)
    requires Tells(g, parts) && OnlyFills(g, h)
    ensures Tells(h, parts)
  {
    hide StatusOf;
    forall i | 0 <= i < |h.tools| ensures h.tools[i].id == g.tools[i].id && h.tools[i].status == g.tools[i].status {
      assert Fills(g.tools[i], h.tools[i]);
    }
  }

  // ---------------------------------------------------------------- which rows land where

  /** The assistant row `i` is taken for a second copy of what its group already holds. */
  predicate Recognised(env: Env, msgs: seq<Message>, i: nat)
    requires i < |msgs|
  {
    RecognisedBy(env, StateAt(env, msgs, i), msgs[i])
  }

  predicate RecognisedBy(env: Env, s: State, m: Message) {
    ContinuesGroup(s.group, m.promptId) && AlreadyFolded(Stamped(s.group.value, m), SigOf(env, m.content))
  }

  /** The content of row `i` goes into turn `n`: an assistant row's unless it is taken for a
      copy, and that of a tool row if a group is open. */
  predicate Lands(env: Env, msgs: seq<Message>, i: nat, n: nat)
    requires i < |msgs|
  {
    && Slot(env, msgs, i) == n
    && ( || (Classify(msgs[i]) == AssistantRow && !Recognised(env, msgs, i))
         || (Classify(msgs[i]) == ToolResultRow && StateAt(env, msgs, i).group.Some?))
  }

  /** The parts that land in turn `n`, in input order. */
  function SlotContent(env: Env, msgs: seq<Message>, n: nat, k: nat): seq<Part>
    requires k <= |msgs|
  {
    if k == 0 then []
    else SlotContent(env, msgs, n, k - 1) + (if Lands(env, msgs, k - 1, n) then msgs[k - 1].content else [])
  }

  ghost predicate TurnTells(t: Turn, parts: seq<Part>, settled: bool) {
    && t.AssistantTurn?
    && t.text == Join(TextsIn(parts), "\n")
    && t.thinking == (if ThinkingsIn(parts) == [] then None else Some(Join(ThinkingsIn(parts), "\n")))
    && |ToolsOf(t)| == |CallsIn(parts)|
    && (forall i :: 0 <= i < |ToolsOf(t)| ==>
          && ToolsOf(t)[i].id == CallsIn(parts)[i]
          && ToolsOf(t)[i].status == if settled && StatusOf(parts, i) == Running then Succeeded else StatusOf(parts, i))
  }

  lemma FlushTells(env: Env, g: Group, parts: seq<Part>, no: nat, settle: bool)
    requires Tells(g, parts)
    ensures TurnTells(TurnOf(if settle then Settle(env, g) else g, no), parts, settle)
  {
    hide StatusOf;
    SettleFlat(env, g, FreezeAnchor(env, g), |g.tools|);
    var h := if settle then Settle(env, g) else g;
    assert ToolsOf(TurnOf(h, no)) == h.tools;
  }

  /** Turn by turn, what the state holds is what landed there. */
  ghost predicate StateTells(s: State, content: nat -> seq<Part>) {
    && (forall n :: 0 <= n < |s.turns| && s.turns[n].AssistantTurn? ==> TurnTells(s.turns[n], content(n), true))
    && (s.group.Some? ==> Tells(s.group.value, content(|s.turns|)))
    && (s.group.None? ==> content(|s.turns|) == [])
    && (forall n :: n > |s.turns| ==> content(n) == [])
  }

  lemma FlushStateTells(env: Env, s: State, content: nat -> seq<Part>)
    requires StateTells(s, content)
    ensures StateTells(Flush(env, s, true), content)
    ensures |Flush(env, s, true).turns| == |s.turns| + (if s.group.Some? then 1 else 0)
  {
    hide Settle, TurnTells, Tells;
    if s.group.Some? { FlushTells(env, s.group.value, content(|s.turns|), s.no, true); }
  }

  lemma BoundaryTells(env: Env, s: State, m: Message, content: nat -> seq<Part>)
    requires StateTells(s, content)
    ensures StateTells(BoundaryStep(env, s, m), content)
  {
    hide Flush, TurnTells, Tells;
    FlushStateTells(env, s, content);
    BoundaryPrompts(env, s, m);
    FlushPrompts(env, s);
    assert Flush(env, s, true).group.None?;
  }

  lemma NewTells(m: Message)
    ensures Tells(NewGroup(m), [])
  {}

  lemma StampedTells(g: Group, h: Group, parts: seq<Part>)
    requires Tells(g, parts) && h.textParts == g.textParts && h.thinkingParts == g.thinkingParts && h.tools == g.tools
    ensures Tells(h, parts)
  {}

  lemma RowTells(env: Env, g: Group, m: Message, parts: seq<Part>)
    requires Tells(g, parts)
    ensures Tells(FoldRow(env, g, m),
                  if AlreadyFolded(Stamped(g, m), SigOf(env, m.content)) then parts else parts + m.content)
  {
    hide Tells, SigOf, Absorb, MergeExtras, AlreadyFolded, OnlyFills;
    var g1, sig := Stamped(g, m), SigOf(env, m.content);
    StampedTells(g, g1, parts);
    if AlreadyFolded(g1, sig) {
      MergeOnlyFills(g1, m.content);
      FillTells(g1, MergeExtras(g1, m.content), parts);
    } else {
      var g2 := g1.(foldedSigs := g1.foldedSigs + [sig]);
      StampedTells(g1, g2, parts);
      AbsorbTells(env, g2, parts, m.content);
    }
  }

  /** What one message adds to the content of turn `n`. */
  function Adds(env: Env, s: State, m: Message, n: nat): seq<Part> {
    if Classify(m) == AssistantRow then
      if n == |AssistantStep(env, s, m).turns| && !RecognisedBy(env, s, m) then m.content else []
    else if Classify(m) == ToolResultRow && s.group.Some? && n == |s.turns| then m.content
    else []
  }

  lemma AssistantTells(env: Env, s: State, m: Message, before: nat -> seq<Part>, after: nat -> seq<Part>)
    requires StateTells(s, before) && Classify(m) == AssistantRow
    requires forall n :: after(n) == before(n) + Adds(env, s, m, n)
    ensures StateTells(AssistantStep(env, s, m), after)
  {
    hide Flush, FoldRow, TurnTells, Tells, SigOf, AlreadyFolded;
    var s' := AssistantStep(env, s, m);
    FlushStateTells(env, s, before);
    var f := Flush(env, s, true);
    if ContinuesGroup(s.group, m.promptId) {
      RowTells(env, s.group.value, m, before(|s.turns|));
    } else {
      NewTells(m);
      RowTells(env, NewGroup(m), m, []);
      NothingRecognised(env, m);
      assert f.group.None? by { FlushPrompts(env, s); }
      assert before(|f.turns|) == [];
    }
    forall n: nat ensures before(n) + [] == before(n) {}
    assert [] + m.content == m.content;
  }

  lemma NothingRecognised(env: Env, m: Message)
    ensures !AlreadyFolded(Stamped(NewGroup(m), m), SigOf(env, m.content))
  {}

  lemma StepTells(env: Env, s: State, m: Message, rest: seq<Message>, before: nat -> seq<Part>, after: nat -> seq<Part>)
    requires StateTells(s, before)
    requires forall n :: after(n) == before(n) + Adds(env, s, m, n)
    ensures StateTells(Step(env, s, m, rest), after)
  {
    hide AssistantStep, BoundaryStep, Absorb, TurnTells, RecognisedBy;
    if Classify(m) == AssistantRow {
      AssistantTells(env, s, m, before, after);
    } else if Classify(m) == ToolResultRow && s.group.Some? {
      AbsorbTells(env, s.group.value, before(|s.turns|), m.content);
      forall n | n != |s.turns| ensures after(n) == before(n) { assert before(n) + [] == before(n); }
    } else {
      forall n: nat ensures after(n) == before(n) { assert before(n) + [] == before(n); }
      BoundaryTells(env, s, m, before);
      assert StateTells(s, after) && StateTells(BoundaryStep(env, s, m), after);
    }
  }

  lemma LandsIsAdds(env: Env, msgs: seq<Message>, k: nat, n: nat)
    requires 0 < k <= |msgs|
    ensures SlotContent(env, msgs, n, k)
            == SlotContent(env, msgs, n, k - 1) + Adds(env, StateAt(env, msgs, k - 1), msgs[k - 1], n)
  {
    hide AssistantStep, RecognisedBy, Absorb;
    assert StateAt(env, msgs, k) == Step(env, StateAt(env, msgs, k - 1), msgs[k - 1], msgs[k..]);
  }

  lemma {:induction false} StatesTell(env: Env, msgs: seq<Message>, k: nat)
    requires k <= |msgs|
    ensures StateTells(StateAt(env, msgs, k), (n: nat) => SlotContent(env, msgs, n, k))
  {
    hide StateTells, Step, Adds;
    var after := (n: nat) => SlotContent(env, msgs, n, k);
    if k > 0 {
      StatesTell(env, msgs, k - 1);
      var before := (n: nat) => SlotContent(env, msgs, n, k - 1);
      forall n: nat ensures after(n) == before(n) + Adds(env, StateAt(env, msgs, k - 1), msgs[k - 1], n) {
        LandsIsAdds(env, msgs, k, n);
      }
      StepTells(env, StateAt(env, msgs, k - 1), msgs[k - 1], msgs[k..], before, after);
    } else {
      NothingTold(after);
    }
  }

  lemma NothingTold(content: nat -> seq<Part>)
    requires forall n :: content(n) == []
    ensures StateTells(State([], 1, None), content)
  {}

  /** Every assistant turn of every transcript holds exactly what landed there: its text and
      thinking are the non-empty parts joined in input order, and its cards are the calls in
      input order, each with the verdict of the last result that it heard, or none: then it
      is running in the live turn and counts as succeeded in every other. */
  lemma TurnContent(env: Env, msgs: seq<Message>, active: bool, n: nat)
    requires n < |Turns(env, msgs, active)| && Turns(env, msgs, active)[n].AssistantTurn?
    ensures TurnTells(Turns(env, msgs, active)[n], SlotContent(env, msgs, n, |msgs|), !IsLiveTurn(env, msgs, active, n))
  {
    hide TurnTells, Tells;
    var s := StateAt(env, msgs, |msgs|);
    StatesTell(env, msgs, |msgs|);
    if s.group.Some? { FlushTells(env, s.group.value, SlotContent(env, msgs, |s.turns|, |msgs|), s.no, !active); }
  }

  /** Card by card: without a result that it hears it runs, or counts as succeeded in a
      finished turn; otherwise the last such result decides. */
  lemma CardShowsLastResult(env: Env, msgs: seq<Message>, active: bool, n: nat, i: nat)
    requires n < |Turns(env, msgs, active)| && i < |ToolsOf(Turns(env, msgs, active)[n])|
    ensures var parts, tool := SlotContent(env, msgs, n, |msgs|), ToolsOf(Turns(env, msgs, active)[n])[i];
            && i < |CallsIn(parts)| && tool.id == CallsIn(parts)[i]
            && (HearsNothing(parts, i) ==>
                  tool.status == if IsLiveTurn(env, msgs, active, n) then Running else Succeeded)
            && (forall j :: 0 <= j < |parts| && HearsLast(parts, i, j) ==>
                  parts[j].ToolResultPart? && tool.status == Verdict(parts[j]))
  {
    hide Turns, SlotContent, IsLiveTurn, StatusOf, CallsIn, HearsLast, HearsNothing, Join;
    TurnContent(env, msgs, active, n);
    StatusIsLastResult(SlotContent(env, msgs, n, |msgs|), i);
  }

  /** So whether the two tool views of a finished turn are equal is decided by the input:
      if and only if no two calls that landed there have the same id. */
  lemma ViewsAgreeIffCallsDistinct(env: Env, msgs: seq<Message>, active: bool, n: nat)
    requires n < |Turns(env, msgs, active)| && Turns(env, msgs, active)[n].AssistantTurn?
    requires !IsLiveTurn(env, msgs, active, n)
    ensures var t := Turns(env, msgs, active)[n];
            Cards(BlocksOf(t)) == ToolsOf(t) <==> Distinct(CallsIn(SlotContent(env, msgs, n, |msgs|)))
  {
    hide Turns, SlotContent, IsLiveTurn, StatusOf, Cards;
    TwoViewsAgree(env, msgs, active, n);
    TurnContent(env, msgs, active, n);
    var tools, ids := ToolsOf(Turns(env, msgs, active)[n]), CallsIn(SlotContent(env, msgs, n, |msgs|));
    if Distinct(ids) {
      forall i, j | 0 <= i < j < |tools| ensures tools[i].id != tools[j].id { assert ids[i] != ids[j]; }
    }
    if DistinctIds(tools) {
      forall i, j | 0 <= i < j < |ids| ensures ids[i] != ids[j] { assert tools[i].id != tools[j].id; }
    }
  }

  // ---------------------------------------------------------------- which rows are taken for copies

  /** The signatures of the assistant rows that land in turn `n`, in input order. */
  function SlotSigs(env: Env, msgs: seq<Message>, n: nat, k: nat): seq<ContentSig>
    requires k <= |msgs|
  {
    if k == 0 then []
    else SlotSigs(env, msgs, n, k - 1) +
         (if Classify(msgs[k - 1]) == AssistantRow && Lands(env, msgs, k - 1, n)
          then [SigOf(env, msgs[k - 1].content)] else [])
  }

  function AddsSig(env: Env, s: State, m: Message, n: nat): seq<ContentSig> {
    if Classify(m) == AssistantRow && n == |AssistantStep(env, s, m).turns| && !RecognisedBy(env, s, m)
    then [SigOf(env, m.content)] else []
  }

  /** The open group has on record what landed in its turn. */
  ghost predicate OnRecord(s: State, sigs: nat -> seq<ContentSig>) {
    && sigs(|s.turns|) == (if s.group.Some? then s.group.value.foldedSigs else [])
    && (forall n :: n > |s.turns| ==> sigs(n) == [])
  }

  lemma RowSigs(env: Env, g: Group, m: Message)
    ensures FoldRow(env, g, m).foldedSigs
            == g.foldedSigs + (if AlreadyFolded(Stamped(g, m), SigOf(env, m.content)) then []
                               else [SigOf(env, m.content)])
  {
    var g1 := Stamped(g, m);
    MergeOnlyFills(g1, m.content);
    AbsorbKeepsStamps(env, g1.(foldedSigs := g1.foldedSigs + [SigOf(env, m.content)]), m.content);
  }

  lemma AssistantRecords(env: Env, s: State, m: Message, before: nat -> seq<ContentSig>, after: nat -> seq<ContentSig>)
    requires OnRecord(s, before) && Classify(m) == AssistantRow
    requires forall n :: after(n) == before(n) + AddsSig(env, s, m, n)
    ensures OnRecord(AssistantStep(env, s, m), after)
  {
    hide Flush, FoldRow, SigOf, AlreadyFolded;
    FlushPrompts(env, s);
    NothingRecognised(env, m);
    RowSigs(env, if ContinuesGroup(s.group, m.promptId) then s.group.value else NewGroup(m), m);
  }

  lemma StepRecords(env: Env, s: State, m: Message, rest: seq<Message>,
                    before: nat -> seq<ContentSig>, after: nat -> seq<ContentSig>)
    requires OnRecord(s, before)
    requires forall n :: after(n) == before(n) + AddsSig(env, s, m, n)
    ensures OnRecord(Step(env, s, m, rest), after)
  {
    hide AssistantStep, BoundaryStep, Absorb, RecognisedBy, Flush;
    if Classify(m) == AssistantRow {
      AssistantRecords(env, s, m, before, after);
    } else {
      forall n: nat ensures after(n) == before(n) { assert before(n) + [] == before(n); }
      FlushPrompts(env, s);
      BoundaryPrompts(env, s, m);
      if s.group.Some? { AbsorbKeepsStamps(env, s.group.value, m.content); }
    }
  }

  lemma SigsStep(env: Env, msgs: seq<Message>, k: nat, n: nat)
    requires 0 < k <= |msgs|
    ensures SlotSigs(env, msgs, n, k)
            == SlotSigs(env, msgs, n, k - 1) + AddsSig(env, StateAt(env, msgs, k - 1), msgs[k - 1], n)
  {
    hide StateAt, AssistantStep, RecognisedBy, SigOf;
    OneStep(env, msgs, k - 1);
    RowStep(env, StateAt(env, msgs, k - 1), msgs[k - 1], msgs[k..]);
  }

  lemma NothingRecorded(sigs: nat -> seq<ContentSig>)
    requires forall n :: sigs(n) == []
    ensures OnRecord(State([], 1, None), sigs)
  {}

  lemma {:induction false} StatesRecord(env: Env, msgs: seq<Message>, k: nat)
    requires k <= |msgs|
    ensures OnRecord(StateAt(env, msgs, k), (n: nat) => SlotSigs(env, msgs, n, k))
  {
    hide Step, OnRecord, AddsSig;
    var after := (n: nat) => SlotSigs(env, msgs, n, k);
    if k > 0 {
      StatesRecord(env, msgs, k - 1);
      var before := (n: nat) => SlotSigs(env, msgs, n, k - 1);
      forall n: nat ensures after(n) == before(n) + AddsSig(env, StateAt(env, msgs, k - 1), msgs[k - 1], n) {
        SigsStep(env, msgs, k, n);
      }
      StepRecords(env, StateAt(env, msgs, k - 1), msgs[k - 1], msgs[k..], before, after);
    } else {
      NothingRecorded(after);
    }
  }

  lemma RowStep(env: Env, s: State, m: Message, rest: seq<Message>)
    ensures Classify(m) == AssistantRow ==> Step(env, s, m, rest) == AssistantStep(env, s, m)
  {}

  // ---- what one row says, on the parts alone

  function Spoken(parts: seq<Part>): string {
    if parts == [] then "" else (if parts[0].TextPart? then parts[0].text else "") + Spoken(parts[1..])
  }

  function Thought(parts: seq<Part>): string {
    if parts == [] then "" else (if parts[0].ThinkingPart? then parts[0].thinking else "") + Thought(parts[1..])
  }

  /** Any part but text, thinking and calls. */
  predicate IsOther(c: Part) {
    c.ToolResultPart? || c.OtherPart?
  }

  predicate HasCall(parts: seq<Part>, id: string) {
    exists i :: 0 <= i < |parts| && parts[i].ToolUsePart? && parts[i].callId == id
  }

  predicate HasOther(env: Env, parts: seq<Part>, text: string) {
    exists i :: 0 <= i < |parts| && IsOther(parts[i]) && env.stringifyPart(parts[i]) == text
  }

  /** `a` says all that `b` says: its text and its thinking as a whole, if any, the ids of
      its calls, and its other parts as they are written out. */
  predicate Says(env: Env, a: seq<Part>, b: seq<Part>) {
    && (Spoken(b) == "" || Spoken(b) == Spoken(a))
    && (Thought(b) == "" || Thought(b) == Thought(a))
    && (forall i :: 0 <= i < |b| && b[i].ToolUsePart? ==> HasCall(a, b[i].callId))
    && (forall i :: 0 <= i < |b| && IsOther(b[i]) ==> HasOther(env, a, env.stringifyPart(b[i])))
  }

  lemma {:induction false} SpokenSnoc(parts: seq<Part>, c: Part)
    ensures Spoken(parts + [c]) == Spoken(parts) + (if c.TextPart? then c.text else "")
  {
    var all, tail := parts + [c], if c.TextPart? then c.text else "";
    if parts == [] {
      assert all == [c] && all[1..] == [];
      assert Spoken(all) == tail + Spoken([]) == tail == "" + tail;
    } else {
      SpokenSnoc(parts[1..], c);
      var head := if parts[0].TextPart? then parts[0].text else "";
      assert all[0] == parts[0] && all[1..] == parts[1..] + [c];
      assert head + (Spoken(parts[1..]) + tail) == (head + Spoken(parts[1..])) + tail;
    }
  }

  lemma {:induction false} ThoughtSnoc(parts: seq<Part>, c: Part)
    ensures Thought(parts + [c]) == Thought(parts) + (if c.ThinkingPart? then c.thinking else "")
  {
    var all, tail := parts + [c], if c.ThinkingPart? then c.thinking else "";
    if parts == [] {
      assert all == [c] && all[1..] == [];
      assert Thought(all) == tail + Thought([]) == tail == "" + tail;
    } else {
      ThoughtSnoc(parts[1..], c);
      var head := if parts[0].ThinkingPart? then parts[0].thinking else "";
      assert all[0] == parts[0] && all[1..] == parts[1..] + [c];
      assert head + (Thought(parts[1..]) + tail) == (head + Thought(parts[1..])) + tail;
    }
  }

  lemma HasSnoc(env: Env, parts: seq<Part>, c: Part, id: string, text: string)
    ensures HasCall(parts + [c], id) <==> HasCall(parts, id) || (c.ToolUsePart? && c.callId == id)
    ensures HasOther(env, parts + [c], text)
            <==> HasOther(env, parts, text) || (IsOther(c) && env.stringifyPart(c) == text)
  {
    var all := parts + [c];
    if HasCall(parts, id) {
      var i :| 0 <= i < |parts| && parts[i].ToolUsePart? && parts[i].callId == id;
      assert all[i] == parts[i];
    }
    if HasOther(env, parts, text) {
      var i :| 0 <= i < |parts| && IsOther(parts[i]) && env.stringifyPart(parts[i]) == text;
      assert all[i] == parts[i];
    }
    assert all[|parts|] == c;
  }

  lemma {:induction false} SigSays(env: Env, parts: seq<Part>)
    ensures var sig := SigOf(env, parts);
            && sig.text == Spoken(parts) && sig.thinking == Thought(parts)
            && (forall id :: id in sig.toolIds <==> HasCall(parts, id))
            && (forall text :: text in sig.rest <==> HasOther(env, parts, text))
  {
    if parts != [] {
      hide HasCall, HasOther, Spoken, Thought;
      var init, c := parts[..|parts| - 1], parts[|parts| - 1];
      assert parts == init + [c];
      SigSays(env, init);
      SpokenSnoc(init, c);
      ThoughtSnoc(init, c);
      forall id, text
        ensures HasCall(parts, id) <==> HasCall(init, id) || (c.ToolUsePart? && c.callId == id)
        ensures HasOther(env, parts, text) <==> HasOther(env, init, text) || (IsOther(c) && env.stringifyPart(c) == text)
      {
        HasSnoc(env, init, c, id, text);
      }
    } else {
      NothingSaid(env);
    }
  }

  lemma NothingSaid(env: Env)
    ensures forall id :: !HasCall([], id)
    ensures forall text :: !HasOther(env, [], text)
  {}

  lemma CallsSaid(a: seq<Part>, b: seq<Part>)
    ensures (forall id :: HasCall(b, id) ==> HasCall(a, id))
            <==> (forall i :: 0 <= i < |b| && b[i].ToolUsePart? ==> HasCall(a, b[i].callId))
  {}

  lemma OthersSaid(env: Env, a: seq<Part>, b: seq<Part>)
    ensures (forall text :: HasOther(env, b, text) ==> HasOther(env, a, text))
            <==> (forall i :: 0 <= i < |b| && IsOther(b[i]) ==> HasOther(env, a, env.stringifyPart(b[i])))
  {}

  /** One signature covers another exactly if the one row says all that the other says. */
  lemma CoversIffSays(env: Env, a: seq<Part>, b: seq<Part>)
    ensures Covers(SigOf(env, a), SigOf(env, b)) <==> Says(env, a, b)
  {
    hide SigOf, HasCall, HasOther;
    SigSays(env, a);
    SigSays(env, b);
    CallsSaid(a, b);
    OthersSaid(env, a, b);
    var x, y := SigOf(env, a), SigOf(env, b);
    if Covers(x, y) {
      forall id | HasCall(b, id) ensures HasCall(a, id) { assert id in y.toolIds; }
      forall text | HasOther(env, b, text) ensures HasOther(env, a, text) { assert text in y.rest; }
    }
    if Says(env, a, b) {
      forall id <- y.toolIds ensures id in x.toolIds { assert HasCall(a, id); }
      forall text <- y.rest ensures text in x.rest { assert HasOther(env, a, text); }
    }
  }

  /** Row `j` landed in turn `n` and says all that `parts` say. */
  ghost predicate SaidByRow(env: Env, msgs: seq<Message>, j: nat, n: nat, parts: seq<Part>)
    requires j < |msgs|
  {
    Classify(msgs[j]) == AssistantRow && Lands(env, msgs, j, n) && Says(env, msgs[j].content, parts)
  }

  ghost predicate SomeCovers(sigs: seq<ContentSig>, sig: ContentSig) {
    exists x :: 0 <= x < |sigs| && Covers(sigs[x], sig)
  }

  lemma {:induction false} SigsAreOfRows(env: Env, msgs: seq<Message>, n: nat, k: nat, parts: seq<Part>)
    requires k <= |msgs|
    ensures SomeCovers(SlotSigs(env, msgs, n, k), SigOf(env, parts))
            <==> exists j :: 0 <= j < k && SaidByRow(env, msgs, j, n, parts)
  {
    hide Lands, SigOf, Covers, Says;
    if k > 0 {
      var sig := SigOf(env, parts);
      SigsAreOfRows(env, msgs, n, k - 1, parts);
      CoversIffSays(env, msgs[k - 1].content, parts);
      var a, b := SlotSigs(env, msgs, n, k - 1), SlotSigs(env, msgs, n, k);
      assert forall x :: 0 <= x < |a| ==> a[x] == b[x];
      if SaidByRow(env, msgs, k - 1, n, parts) { assert Covers(b[|a|], sig); }
      if SomeCovers(b, sig) && !SaidByRow(env, msgs, k - 1, n, parts) {
        var x :| 0 <= x < |b| && Covers(b[x], sig);
        assert Covers(a[x], sig);
      }
    }
  }

  /** The prompt of turn `n` is known by the time row `i` has been handled. */
  ghost predicate Named(env: Env, msgs: seq<Message>, i: nat, n: nat)
    requires i < |msgs|
  {
    exists j :: 0 <= j <= i && IsRowOf(env, msgs, j, n) && msgs[j].promptId.Some?
  }

  lemma RowNames(env: Env, msgs: seq<Message>, j: nat, i: nat, n: nat)
    requires j <= i < |msgs| && IsRowOf(env, msgs, j, n)
    ensures HasPrompt(StateAt(env, msgs, i + 1), n, msgs[j].promptId)
  {
    hide Step, AssistantStep, HasPrompt;
    OneStep(env, msgs, j);
    RowStep(env, StateAt(env, msgs, j), msgs[j], msgs[j + 1..]);
    RowOpensItsSlot(env, StateAt(env, msgs, j), msgs[j]);
    PromptStays(env, msgs, j + 1, i + 1, n, msgs[j].promptId);
  }

  lemma NamedIff(env: Env, msgs: seq<Message>, i: nat)
    requires i < |msgs| && Classify(msgs[i]) == AssistantRow
    ensures var g := StateAt(env, msgs, i + 1).group;
            g.Some? && (g.value.promptId.Some? <==> Named(env, msgs, i, Slot(env, msgs, i)))
  {
    hide StateAt;
    var s, n := StateAt(env, msgs, i + 1), Slot(env, msgs, i);
    RowNames(env, msgs, i, i, n);
    if Named(env, msgs, i, n) {
      var j :| 0 <= j <= i && IsRowOf(env, msgs, j, n) && msgs[j].promptId.Some?;
      RowNames(env, msgs, j, i, n);
    }
    if s.group.value.promptId.Some? { PromptIsNamed(env, msgs, i); }
  }

  lemma PromptIsNamed(env: Env, msgs: seq<Message>, i: nat)
    requires i < |msgs| && StateAt(env, msgs, i + 1).group.Some?
    requires StateAt(env, msgs, i + 1).group.value.promptId.Some?
    ensures Named(env, msgs, i, Slot(env, msgs, i))
  {
    hide StateAt;
    PromptsComeFromRows(env, msgs, i + 1);
    assert FromRow(env, msgs, i + 1, Slot(env, msgs, i), StateAt(env, msgs, i + 1).group.value.promptId);
  }

  lemma RecognisedByIff(env: Env, s: State, m: Message, sigs: nat -> seq<ContentSig>)
    requires OnRecord(s, sigs)
    ensures var s' := AssistantStep(env, s, m);
            s'.group.Some? &&
            (RecognisedBy(env, s, m) <==>
               s'.group.value.promptId.Some? && SomeCovers(sigs(|s'.turns|), SigOf(env, m.content)))
  {
    hide Covers, SigOf, FoldRow, Flush;
    FlushPrompts(env, s);
    FoldRowStamps(env, if ContinuesGroup(s.group, m.promptId) then s.group.value else NewGroup(m), m);
  }

  /** Which rows are taken for copies, by the rows alone: exactly those whose turn has a
      known prompt by then and a row that landed there before and says all they say. */
  lemma RecognisedIff(env: Env, msgs: seq<Message>, i: nat)
    requires i < |msgs| && Classify(msgs[i]) == AssistantRow
    ensures var n := Slot(env, msgs, i);
            Recognised(env, msgs, i) <==>
              && Named(env, msgs, i, n)
              && exists j :: 0 <= j < i && SaidByRow(env, msgs, j, n, msgs[i].content)
  {
    hide SigOf, Named, RecognisedBy, OnRecord, SomeCovers, SlotSigs, SaidByRow, AssistantStep;
    var s, n := StateAt(env, msgs, i), Slot(env, msgs, i);
    NamedIff(env, msgs, i);
    StatesRecord(env, msgs, i);
    SigsAreOfRows(env, msgs, n, i, msgs[i].content);
    RecognisedByIff(env, s, msgs[i], (n: nat) => SlotSigs(env, msgs, n, i));
    OneStep(env, msgs, i);
    RowStep(env, s, msgs[i], msgs[i + 1..]);
  }

  /** The row `i` is not dropped, told from the rows alone: an assistant row is dropped
      exactly if the prompt of its turn is known by then and an earlier row of the turn that
      was not dropped says all that it says. */
  ghost predicate Kept(env: Env, msgs: seq<Message>, i: nat)
    requires i < |msgs|
    decreases i
  {
    !( && Named(env, msgs, i, Slot(env, msgs, i))
       && exists j :: 0 <= j < i && IsRowOf(env, msgs, j, Slot(env, msgs, i)) && Kept(env, msgs, j) &&
                      Says(env, msgs[j].content, msgs[i].content))
  }

  /** So it is the rows that are kept whose content lands in the turn. */
  lemma {:induction false} RowLandsIffKept(env: Env, msgs: seq<Message>, i: nat)
    requires i < |msgs| && Classify(msgs[i]) == AssistantRow
    ensures Lands(env, msgs, i, Slot(env, msgs, i)) <==> Kept(env, msgs, i)
    decreases i
  {
    hide Slot, Named, Recognised, Says;
    var n := Slot(env, msgs, i);
    RecognisedIff(env, msgs, i);
    forall j | 0 <= j < i
      ensures SaidByRow(env, msgs, j, n, msgs[i].content)
              <==> IsRowOf(env, msgs, j, n) && Kept(env, msgs, j) && Says(env, msgs[j].content, msgs[i].content)
    {
      if Classify(msgs[j]) == AssistantRow { RowLandsIffKept(env, msgs, j); }
    }
  }

  lemma SaysItself(env: Env, parts: seq<Part>)
    ensures Says(env, parts, parts)
  {}

  /** Nothing is lost by dropping: what an assistant row says, its text, its thinking, every
      call and every other part, is said by one row of its turn that is kept, up to itself. */
  lemma NothingSaidIsLost(env: Env, msgs: seq<Message>, i: nat)
    requires i < |msgs| && Classify(msgs[i]) == AssistantRow
    ensures exists j :: 0 <= j <= i && IsRowOf(env, msgs, j, Slot(env, msgs, i)) && Kept(env, msgs, j) &&
                        Says(env, msgs[j].content, msgs[i].content)
  {
    hide Slot, Named, Says;
    if Kept(env, msgs, i) {
      SaysItself(env, msgs[i].content);
      assert IsRowOf(env, msgs, i, Slot(env, msgs, i));
    }
  }

  /** A row whose only content is a new call is never dropped. */
  lemma NewCallIsKept(env: Env, msgs: seq<Message>, i: nat, p: nat)
    requires i < |msgs| && Classify(msgs[i]) == AssistantRow
    requires p < |msgs[i].content| && msgs[i].content[p].ToolUsePart?
    requires forall j :: 0 <= j < i && IsRowOf(env, msgs, j, Slot(env, msgs, i)) ==>
               !HasCall(msgs[j].content, msgs[i].content[p].callId)
    ensures Lands(env, msgs, i, Slot(env, msgs, i))
  {
    hide Slot, Named, HasCall, Lands;
    RowLandsIffKept(env, msgs, i);
  }

  // ---------------------------------------------------------------- results that come too late

  lemma {:induction false} GoOnSame(env: Env, x: seq<Message>, k: nat, y: seq<Message>, l: nat)
    requires k <= |x| && l <= |y| && x[k..] == y[l..] && StateAt(env, x, k) == StateAt(env, y, l)
    ensures StateAt(env, x, |x|) == StateAt(env, y, |y|)
    decreases |x| - k
  {
    hide Step;
    assert |x| - k == |x[k..]| == |y[l..]| == |y| - l;
    if k < |x| {
      assert x[k] == x[k..][0] == y[l..][0] == y[l];
      assert x[k + 1..] == x[k..][1..] == y[l..][1..] == y[l + 1..];
      GoOnSame(env, x, k + 1, y, l + 1);
    }
  }

  lemma {:induction false} NoRowAmongResults(r: seq<Message>)
    requires forall i :: 0 <= i < |r| ==> Classify(r[i]) == ToolResultRow
    ensures NextAssistant(r).None?
  {
    if r != [] { NoRowAmongResults(r[1..]); }
  }

  lemma {:induction false} ResultsDropped(env: Env, msgs: seq<Message>, k: nat, j: nat)
    requires k + j <= |msgs| && StateAt(env, msgs, k).group.None?
    requires forall i :: k <= i < k + j ==> Classify(msgs[i]) == ToolResultRow
    ensures StateAt(env, msgs, k + j) == StateAt(env, msgs, k)
  {
    if j > 0 {
      ResultsDropped(env, msgs, k, j - 1);
      DroppedStep(env, StateAt(env, msgs, k), msgs[k + j - 1], msgs[k + j..]);
    }
  }

  lemma DroppedStep(env: Env, s: State, m: Message, rest: seq<Message>)
    requires s.group.None? && Classify(m) == ToolResultRow
    ensures Step(env, s, m, rest) == s
  {}

  lemma BoundaryLeavesNoGroup(env: Env, s: State, m: Message, rest: seq<Message>)
    requires IsHardBoundary(m)
    ensures Step(env, s, m, rest).group.None?
  {
    hide Flush, OwnTurn;
    FlushPrompts(env, s);
  }

  lemma BoundaryIgnoresRest(env: Env, s: State, m: Message, rest: seq<Message>, rest': seq<Message>)
    requires IsHardBoundary(m)
    ensures Step(env, s, m, rest) == Step(env, s, m, rest')
  {
    SameDecisionSameStep(env, s, m, rest, rest');
  }

  /** Behind a hard boundary no group is open, whatever comes next, and what precedes the
      boundary only looks for the next assistant row. */
  lemma SameAtBoundary(env: Env, p: seq<Message>, b: Message, x: seq<Message>, y: seq<Message>)
    requires IsHardBoundary(b) && NextAssistant(x) == NextAssistant(y)
    ensures StateAt(env, p + ([b] + x), |p| + 1) == StateAt(env, p + ([b] + y), |p| + 1)
    ensures StateAt(env, p + ([b] + x), |p| + 1).group.None?
  {
    hide Step, StateAt, IsHardBoundary;
    var one, two := p + ([b] + x), p + ([b] + y);
    NextAssistantConcat([b], x);
    NextAssistantConcat([b], y);
    PrefixSame(env, p, [b] + x, [b] + y, |p|);
    OneStep(env, one, |p|);
    OneStep(env, two, |p|);
    assert one[|p|] == b && two[|p|] == b;
    BoundaryIgnoresRest(env, StateAt(env, one, |p|), b, one[|p| + 1..], two[|p| + 1..]);
    BoundaryLeavesNoGroup(env, StateAt(env, one, |p|), b, one[|p| + 1..]);
  }

  /** Results behind a hard boundary are lost: whatever precedes and follows, the transcript
      is rendered as if they had never come. */
  lemma ResultsBehindBoundaryAreLost(env: Env, p: seq<Message>, b: Message, r: seq<Message>, q: seq<Message>, active: bool)
    requires IsHardBoundary(b) && forall i :: 0 <= i < |r| ==> Classify(r[i]) == ToolResultRow
    ensures Turns(env, p + [b] + r + q, active) == Turns(env, p + [b] + q, active)
  {
    hide StateAt, Flush, IsHardBoundary, Classify, NextAssistant;
    var one, two, k := p + [b] + q, p + [b] + r + q, |p| + 1;
    NoRowAmongResults(r);
    NextAssistantConcat(r, q);
    assert one == p + ([b] + q) && two == p + ([b] + (r + q));
    SameAtBoundary(env, p, b, q, r + q);
    assert forall i :: k <= i < k + |r| ==> two[i] == r[i - k];
    ResultsDropped(env, two, k, |r|);
    assert one[k..] == q == two[k + |r|..];
    GoOnSame(env, one, k, two, k + |r|);
  }

  // ---------------------------------------------------------------- an input

  function BareOrigin(kind: OriginKind): Origin {
    Origin(kind, OtherTrigger, Some("task"), Some("done"), None, CronData(None, None, None, None, None, None),
           None, None, None, None, None, None, None)
  }

  function BareMessage(role: Role, kind: OriginKind, content: seq<Part>): Message {
    Message("m", role, content, "", Some("p"), None, None, BareOrigin(kind), false,
            CompactionStats(None, None, None), [], [])
  }

  /** A call, a hidden user message and the call's failure: the call shows as succeeded. */
  lemma FailureBehindHiddenMessage(env: Env)
    ensures var call := BareMessage(AssistantRole, NoKind, [ToolUsePart("a", "tool", JsonString(""), None, None)]);
            var hidden := BareMessage(UserRole, OtherKind, [TextPart("x")]);
            var failure := BareMessage(ToolRole, NoKind, [ToolResultPart("a", JsonString(""), true, None)]);
            var t := Turns(env, [call, hidden, failure], false);
            && |t| == 1 && |ToolsOf(t[0])| == 1
            && ToolsOf(t[0])[0].id == "a" && ToolsOf(t[0])[0].status == Succeeded
  {
    hide Absorb, Turns, TurnTells, Recognised;
    var call := BareMessage(AssistantRole, NoKind, [ToolUsePart("a", "tool", JsonString(""), None, None)]);
    var hidden := BareMessage(UserRole, OtherKind, [TextPart("x")]);
    var failure := BareMessage(ToolRole, NoKind, [ToolResultPart("a", JsonString(""), true, None)]);
    CallThenHidden(env, call, hidden, failure);
  }

  lemma CallThenHidden(env: Env, call: Message, hidden: Message, failure: Message)
    requires Classify(call) == AssistantRow && Classify(hidden) == HiddenRow && Classify(failure) == ToolResultRow
    requires |call.content| == 1 && call.content[0].ToolUsePart?
    ensures var t := Turns(env, [call, hidden, failure], false);
            && |t| == 1 && |ToolsOf(t[0])| == 1
            && ToolsOf(t[0])[0].id == call.content[0].callId && ToolsOf(t[0])[0].status == Succeeded
  {
    hide Turns, StatusOf, CallsIn, Join;
    var msgs, parts := [call, hidden, failure], call.content;
    CallThenHiddenState(env, call, hidden, failure);
    TurnContent(env, msgs, false, 0);
    assert parts == [] + [parts[0]];
    PartsSnoc([], parts[0]);
    assert CallsIn([]) == [] by { NoCalls(); }
  }

  lemma NoCalls()
    ensures CallsIn([]) == []
  {}

  lemma CallThenHiddenState(env: Env, call: Message, hidden: Message, failure: Message)
    requires Classify(call) == AssistantRow && Classify(hidden) == HiddenRow && Classify(failure) == ToolResultRow
    ensures var msgs := [call, hidden, failure];
            var t := Turns(env, msgs, false);
            && |t| == 1 && t[0].AssistantTurn? && SlotContent(env, msgs, 0, 3) == call.content
  {
    hide FoldRow, Flush, Recognised;
    var msgs := [call, hidden, failure];
    var s0, s1, s2 := State([], 1, None), StateAt(env, msgs, 1), StateAt(env, msgs, 2);
    assert StateAt(env, msgs, 0) == s0;
    FlushPrompts(env, s0);
    FlushPrompts(env, s1);
    assert s1 == AssistantStep(env, s0, call);
    assert s2 == BoundaryStep(env, s1, hidden);
    assert StateAt(env, msgs, 3) == s2;
    assert Flush(env, s2, true) == s2 by { FlushNothing(env, s2); }
    assert !Recognised(env, msgs, 0) by { NotRecognised(env, msgs); }
    assert SlotContent(env, msgs, 0, 0) == [];
    assert SlotContent(env, msgs, 0, 1) == [] + call.content == call.content;
    assert SlotContent(env, msgs, 0, 2) == call.content + [] == call.content;
    assert SlotContent(env, msgs, 0, 3) == call.content + [] == call.content;
  }

  lemma NotRecognised(env: Env, msgs: seq<Message>)
    requires msgs != []
    ensures !Recognised(env, msgs, 0)
  {
    assert StateAt(env, msgs, 0).group.None?;
  }
}
