/** How a turn list is put on screen: tool cards stacked inside a turn, and runs of
    consecutive assistant turns folded (apps/mirri-web/src/components/chatTurnRendering.ts). */
module RenderPlan {
  import opened Wrappers
  import opened TranscriptTypes
  import opened TranscriptFold
  import opened TranscriptViews

  // ---------------------------------------------------------------- blocks of a turn

  datatype StackItem = StackItem(tool: ToolCall, sourceIndex: nat)

  datatype RenderBlock =
    | Single(block: Block, sourceIndex: nat)
    | Stack(tools: seq<StackItem>)

  predicate RendersToolCard(tool: ToolCall) {
    !(tool.status == Succeeded && tool.media.Some?)
  }

  /** A block that can be part of a stack. */
  predicate Stackable(b: Block) {
    b.ToolBlock? && RendersToolCard(b.tool)
  }

  /** `flushToolRun`: one waiting card stands alone, two or more become a stack. */
  function FlushRun(rendered: seq<RenderBlock>, run: seq<StackItem>): seq<RenderBlock> {
    if |run| == 0 then rendered
    else if |run| == 1 then rendered + [Single(ToolBlock(run[0].tool), run[0].sourceIndex)]
    else rendered + [Stack(run)]
  }

  datatype PlanState = PlanState(rendered: seq<RenderBlock>, run: seq<StackItem>)

  /** The loop's variables after the first `n` blocks. */
  function PlanAt(blocks: seq<Block>, n: nat): PlanState
    requires n <= |blocks|
  {
    if n == 0 then PlanState([], [])
    else
      var s, b := PlanAt(blocks, n - 1), blocks[n - 1];
      if Stackable(b) then s.(run := s.run + [StackItem(b.tool, n - 1)])
      else
        var flushed := FlushRun(s.rendered, s.run);
        PlanState(if b.CronBlock? then flushed else flushed + [Single(b, n - 1)], [])
  }

  function RenderBlocks(blocks: seq<Block>): seq<RenderBlock> {
    var s := PlanAt(blocks, |blocks|);
    FlushRun(s.rendered, s.run)
  }

  /** `renderBlocksFromBlocks`. */
  method RenderBlocksFromBlocks(blocks: seq<Block>) returns (rendered: seq<RenderBlock>)
    ensures rendered == RenderBlocks(blocks)
  {
    rendered := [];
    var toolRun: seq<StackItem> := [];
    for sourceIndex := 0 to |blocks|
      invariant PlanState(rendered, toolRun) == PlanAt(blocks, sourceIndex)
    {
      var block := blocks[sourceIndex];
      if block.ToolBlock? {
        if RendersToolCard(block.tool) {
          toolRun := toolRun + [StackItem(block.tool, sourceIndex)];
          continue;
        }
        rendered, toolRun := FlushRun(rendered, toolRun), [];
        rendered := rendered + [Single(block, sourceIndex)];
        continue;
      }
      rendered, toolRun := FlushRun(rendered, toolRun), [];
      if !block.CronBlock? {
        rendered := rendered + [Single(block, sourceIndex)];
      }
    }
    rendered := FlushRun(rendered, toolRun);
  }

  // ---------------------------------------------------------------- nothing lost, nothing reordered

  function Expand(run: seq<StackItem>): seq<(Block, nat)> {
    seq(|run|, i requires 0 <= i < |run| => (ToolBlock(run[i].tool), run[i].sourceIndex))
  }

  /** What a plan shows, stacks opened up. */
  function Shown(rendered: seq<RenderBlock>): seq<(Block, nat)> {
    if rendered == [] then []
    else
      Shown(rendered[..|rendered| - 1]) +
      match rendered[|rendered| - 1]
      case Single(b, i) => [(b, i)]
      case Stack(run) => Expand(run)
  }

  /** The blocks that are to be shown, with their positions. */
  function Visible(blocks: seq<Block>): seq<(Block, nat)> {
    if blocks == [] then []
    else
      var n := |blocks| - 1;
      if blocks[n].CronBlock? then Visible(blocks[..n]) else Visible(blocks[..n]) + [(blocks[n], n)]
  }

  lemma ShownSnoc(rendered: seq<RenderBlock>, r: RenderBlock)
    ensures Shown(rendered + [r]) ==
            Shown(rendered) + (if r.Single? then [(r.block, r.sourceIndex)] else Expand(r.tools))
  {
    assert (rendered + [r])[..|rendered|] == rendered;
  }

  lemma FlushShown(rendered: seq<RenderBlock>, run: seq<StackItem>)
    ensures Shown(FlushRun(rendered, run)) == Shown(rendered) + Expand(run)
  {
    if |run| == 0 {
    } else if |run| == 1 {
      ShownSnoc(rendered, Single(ToolBlock(run[0].tool), run[0].sourceIndex));
      assert Expand(run) == [(ToolBlock(run[0].tool), run[0].sourceIndex)];
    } else {
      ShownSnoc(rendered, Stack(run));
    }
  }

  lemma ExpandSnoc(run: seq<StackItem>, item: StackItem)
    ensures Expand(run + [item]) == Expand(run) + [(ToolBlock(item.tool), item.sourceIndex)]
  {}

  lemma ExpandNone()
    ensures Expand([]) == []
  {}

  lemma VisibleSnoc(blocks: seq<Block>, n: nat)
    requires 0 < n <= |blocks|
    ensures var before, b := Visible(blocks[..n - 1]), blocks[n - 1];
            Visible(blocks[..n]) == if b.CronBlock? then before else before + [(b, n - 1)]
  {
    assert blocks[..n][..n - 1] == blocks[..n - 1];
  }

  lemma {:induction false} PlanShows(blocks: seq<Block>, n: nat)
    requires n <= |blocks|
    ensures var s := PlanAt(blocks, n); Shown(s.rendered) + Expand(s.run) == Visible(blocks[..n])
  {
    hide FlushRun, RendersToolCard, Shown, Expand, Visible;
    if n == 0 {
      NothingShown(blocks);
    } else {
      PlanShows(blocks, n - 1);
      var s, b := PlanAt(blocks, n - 1), blocks[n - 1];
      VisibleSnoc(blocks, n);
      ExpandNone();
      if Stackable(b) { ExpandSnoc(s.run, StackItem(b.tool, n - 1)); }
      FlushShown(s.rendered, s.run);
      ShownSnoc(FlushRun(s.rendered, s.run), Single(b, n - 1));
    }
  }

  lemma NothingShown(blocks: seq<Block>)
    ensures Shown([]) + Expand([]) == Visible(blocks[..0])
  {}

  /** Opening up the stacks gives every non-cron block once, at its own position, in order. */
  lemma PlanShowsEveryBlock(blocks: seq<Block>)
    ensures Shown(RenderBlocks(blocks)) == Visible(blocks)
  {
    PlanShows(blocks, |blocks|);
    assert blocks[..|blocks|] == blocks;
    FlushShown(PlanAt(blocks, |blocks|).rendered, PlanAt(blocks, |blocks|).run);
  }

  // ---------------------------------------------------------------- stacks are maximal

  /** The card of a call that is not shown by the media it brought: it may be part of a
      stack, and nothing else may. */
  ghost predicate IsOpenCard(b: Block) {
    b.ToolBlock? && (b.tool.status != Succeeded || b.tool.media.None?)
  }

  lemma OpenCardsStack(b: Block)
    ensures Stackable(b) <==> IsOpenCard(b)
  {}

  /** The cards at `from`, `from + 1`, ... of `blocks`, all of them open. */
  ghost predicate IsRunFrom(blocks: seq<Block>, run: seq<StackItem>, from: nat) {
    from + |run| <= |blocks| && forall i :: 0 <= i < |run| ==> IsCardAt(blocks, run[i], from + i)
  }

  ghost predicate IsCardAt(blocks: seq<Block>, item: StackItem, i: nat) {
    i < |blocks| && item.sourceIndex == i && IsOpenCard(blocks[i]) && blocks[i].tool == item.tool
  }

  /** No open card right before `from` or right after `to`. */
  ghost predicate CannotGrow(blocks: seq<Block>, from: nat, to: nat) {
    && (0 < from <= |blocks| ==> !IsOpenCard(blocks[from - 1]))
    && (to < |blocks| ==> !IsOpenCard(blocks[to]))
  }

  ghost predicate WellStacked(blocks: seq<Block>, r: RenderBlock) {
    match r
    case Single(b, i) => i < |blocks| && b == blocks[i] && (IsOpenCard(b) ==> CannotGrow(blocks, i, i + 1))
    case Stack(run) =>
      && |run| >= 2
      && IsRunFrom(blocks, run, run[0].sourceIndex)
      && CannotGrow(blocks, run[0].sourceIndex, run[0].sourceIndex + |run|)
  }

  ghost predicate AllWellStacked(blocks: seq<Block>, rendered: seq<RenderBlock>) {
    forall k :: 0 <= k < |rendered| ==> WellStacked(blocks, rendered[k])
  }

  /** After `n` blocks: finished entries are well stacked, and the waiting run is the
      maximal stretch of open cards that ends at `n`. */
  ghost predicate Planned(blocks: seq<Block>, s: PlanState, n: nat) {
    && n <= |blocks| && AllWellStacked(blocks, s.rendered)
    && |s.run| <= n && IsRunFrom(blocks, s.run, n - |s.run|)
    && (0 < n - |s.run| ==> !IsOpenCard(blocks[n - |s.run| - 1]))
  }

  lemma GrowRun(blocks: seq<Block>, run: seq<StackItem>, n: nat)
    requires n < |blocks| && |run| <= n && IsRunFrom(blocks, run, n - |run|) && IsOpenCard(blocks[n])
    ensures IsRunFrom(blocks, run + [StackItem(blocks[n].tool, n)], n - |run|)
  {
    var last := StackItem(blocks[n].tool, n);
    forall i | 0 <= i < |run + [last]| ensures IsCardAt(blocks, (run + [last])[i], n - |run| + i) {
      if i < |run| { assert (run + [last])[i] == run[i]; }
    }
  }

  lemma PlanStep(blocks: seq<Block>, s: PlanState, n: nat)
    requires n < |blocks| && Planned(blocks, s, n)
    ensures var b := blocks[n];
            var flushed := FlushRun(s.rendered, s.run);
            Planned(blocks,
                    if Stackable(b) then s.(run := s.run + [StackItem(b.tool, n)])
                    else PlanState(if b.CronBlock? then flushed else flushed + [Single(b, n)], []),
                    n + 1)
  {
    hide FlushRun, IsRunFrom, AllWellStacked, Stackable, IsOpenCard;
    OpenCardsStack(blocks[n]);
    if Stackable(blocks[n]) {
      GrowRun(blocks, s.run, n);
    } else {
      FlushStacks(blocks, s.rendered, s.run, n);
      assert WellStacked(blocks, Single(blocks[n], n));
      AddWellStacked(blocks, FlushRun(s.rendered, s.run), Single(blocks[n], n));
      NoRun(blocks, n + 1);
    }
  }

  lemma AddWellStacked(blocks: seq<Block>, rendered: seq<RenderBlock>, r: RenderBlock)
    requires AllWellStacked(blocks, rendered) && WellStacked(blocks, r)
    ensures AllWellStacked(blocks, rendered + [r])
  {}

  lemma NoRun(blocks: seq<Block>, n: nat)
    requires n <= |blocks|
    ensures IsRunFrom(blocks, [], n) && AllWellStacked(blocks, [])
  {}

  lemma {:induction false} PlanStacks(blocks: seq<Block>, n: nat)
    requires n <= |blocks|
    ensures Planned(blocks, PlanAt(blocks, n), n)
  {
    hide Planned, FlushRun, Stackable;
    if n > 0 {
      PlanStacks(blocks, n - 1);
      PlanStep(blocks, PlanAt(blocks, n - 1), n - 1);
    } else {
      NothingPlanned(blocks);
    }
  }

  lemma NothingPlanned(blocks: seq<Block>)
    ensures Planned(blocks, PlanState([], []), 0)
  {}

  lemma FlushStacks(blocks: seq<Block>, rendered: seq<RenderBlock>, run: seq<StackItem>, n: nat)
    requires AllWellStacked(blocks, rendered)
    requires n <= |blocks| && |run| <= n && IsRunFrom(blocks, run, n - |run|)
    requires CannotGrow(blocks, n - |run|, n)
    ensures AllWellStacked(blocks, FlushRun(rendered, run))
  {
    hide AllWellStacked, WellStacked, IsRunFrom, CannotGrow;
    if |run| == 1 {
      RunIsWellStacked(blocks, run, n);
      AddWellStacked(blocks, rendered, Single(ToolBlock(run[0].tool), run[0].sourceIndex));
    } else if |run| > 1 {
      RunIsWellStacked(blocks, run, n);
      AddWellStacked(blocks, rendered, Stack(run));
    }
  }

  lemma RunIsWellStacked(blocks: seq<Block>, run: seq<StackItem>, n: nat)
    requires 0 < |run| <= n <= |blocks| && IsRunFrom(blocks, run, n - |run|)
    requires CannotGrow(blocks, n - |run|, n)
    ensures if |run| == 1 then WellStacked(blocks, Single(ToolBlock(run[0].tool), run[0].sourceIndex))
            else WellStacked(blocks, Stack(run))
  {
    var from := n - |run|;
    assert IsCardAt(blocks, run[0], from + 0);
  }

  /** Every stack has at least two members at consecutive positions and could not be made
      longer on either side; a card shown alone has no stackable neighbour. */
  lemma StacksAreMaximal(blocks: seq<Block>, k: nat)
    requires k < |RenderBlocks(blocks)|
    ensures WellStacked(blocks, RenderBlocks(blocks)[k])
  {
    PlanStacks(blocks, |blocks|);
    var s := PlanAt(blocks, |blocks|);
    FlushStacks(blocks, s.rendered, s.run, |blocks|);
  }

  lemma {:induction false} ShownFrom(rendered: seq<RenderBlock>, x: (Block, nat)) returns (k: nat)
    requires x in Shown(rendered)
    ensures k < |rendered|
    ensures rendered[k].Single? ==> x == (rendered[k].block, rendered[k].sourceIndex)
    ensures rendered[k].Stack? ==> x in Expand(rendered[k].tools)
  {
    hide Expand;
    var n := |rendered| - 1;
    if x in Shown(rendered[..n]) {
      k := ShownFrom(rendered[..n], x);
    } else {
      k := n;
    }
  }

  lemma {:induction false} VisibleHas(blocks: seq<Block>, i: nat)
    requires i < |blocks| && !blocks[i].CronBlock?
    ensures (blocks[i], i) in Visible(blocks)
  {
    var n := |blocks| - 1;
    if i < n { VisibleHas(blocks[..n], i); }
  }

  /** Where each card goes, by itself and its neighbours: an open card with an open card next
      to it is in a stack, and every other card stands alone. */
  lemma CardIsStackedIff(blocks: seq<Block>, i: nat) returns (k: nat)
    requires i < |blocks| && blocks[i].ToolBlock?
    ensures k < |RenderBlocks(blocks)|
    ensures var r := RenderBlocks(blocks)[k];
            var open := IsOpenCard(blocks[i]) &&
                        ((i > 0 && IsOpenCard(blocks[i - 1])) || (i + 1 < |blocks| && IsOpenCard(blocks[i + 1])));
            if open then r.Stack? && StackItem(blocks[i].tool, i) in r.tools else r == Single(blocks[i], i)
  {
    hide RenderBlocks, IsOpenCard, Shown, Visible;
    PlanShowsEveryBlock(blocks);
    VisibleHas(blocks, i);
    k := ShownFrom(RenderBlocks(blocks), (blocks[i], i));
    StacksAreMaximal(blocks, k);
    var r := RenderBlocks(blocks)[k];
    if r.Stack? {
      var j :| 0 <= j < |r.tools| && Expand(r.tools)[j] == (blocks[i], i);
      assert r.tools[j] == StackItem(blocks[i].tool, i);
      InOneStack(blocks, r.tools, j);
    }
  }

  lemma InOneStack(blocks: seq<Block>, run: seq<StackItem>, j: nat)
    requires |run| >= 2 && j < |run| && IsRunFrom(blocks, run, run[0].sourceIndex)
    ensures var i := run[j].sourceIndex;
            && i < |blocks| && IsOpenCard(blocks[i])
            && ((i > 0 && IsOpenCard(blocks[i - 1])) || (i + 1 < |blocks| && IsOpenCard(blocks[i + 1])))
  {
    hide IsOpenCard;
    var from := run[0].sourceIndex;
    assert IsCardAt(blocks, run[j], from + j);
    if j > 0 { assert IsCardAt(blocks, run[j - 1], from + j - 1); } else { assert IsCardAt(blocks, run[1], from + 1); }
  }

  // ---------------------------------------------------------------- composed with the fold

  /** `turnBlocks`: the ordered blocks, or a reconstruction from the aggregate fields. */
  function TurnBlocks(t: Turn): seq<Block>
    requires t.AssistantTurn?
  {
    if t.blocks.Some? then t.blocks.value
    else
      (if t.thinking.Some? && t.thinking.value != "" then [ThinkingBlock(t.thinking.value)] else []) +
      (if t.text != "" then [TextBlock(t.text)] else []) +
      seq(|ToolsOf(t)|, i requires 0 <= i < |ToolsOf(t)| => ToolBlock(ToolsOf(t)[i]))
  }

  /** Thinking comes first, then the text, then the calls. */
  function Rank(b: Block): nat {
    match b
    case ThinkingBlock(_) => 0
    case TextBlock(_) => 1
    case _ => 2
  }

  /** The reconstruction holds the thinking, the text and the calls of the turn, empty ones
      left out, in that order. */
  lemma ReconstructionShowsTheTurn(t: Turn)
    requires t.AssistantTurn? && t.blocks.None?
    ensures var blocks := TurnBlocks(t);
            && Thinkings(blocks) == (if t.thinking.Some? && t.thinking.value != "" then [t.thinking.value] else [])
            && Texts(blocks) == (if t.text != "" then [t.text] else [])
            && Cards(blocks) == ToolsOf(t)
            && (forall i, j :: 0 <= i < j < |blocks| ==> Rank(blocks[i]) <= Rank(blocks[j]))
            && (forall b <- blocks :: b.ThinkingBlock? || b.TextBlock? || b.ToolBlock?)
  {
    hide Cards, Texts, Thinkings;
    var tools := ToolsOf(t);
    var a := if t.thinking.Some? && t.thinking.value != "" then [ThinkingBlock(t.thinking.value)] else [];
    var b := if t.text != "" then [TextBlock(t.text)] else [];
    assert TurnBlocks(t) == (a + b) + CardBlocks(tools, |tools|);
    CardsOnly(a + b, tools, |tools|);
    assert [] + tools[..|tools|] == tools;
    HeadBlocks(a, b);
  }

  function CardBlocks(tools: seq<ToolCall>, n: nat): (r: seq<Block>)
    requires n <= |tools|
    ensures |r| == n && forall i :: 0 <= i < n ==> r[i] == ToolBlock(tools[i])
  {
    seq(n, i requires 0 <= i < n => ToolBlock(tools[i]))
  }

  lemma HeadBlocks(a: seq<Block>, b: seq<Block>)
    requires |a| <= 1 && |b| <= 1 && (a != [] ==> a[0].ThinkingBlock?) && (b != [] ==> b[0].TextBlock?)
    ensures Thinkings(a + b) == (if a == [] then [] else [a[0].thinking])
    ensures Texts(a + b) == (if b == [] then [] else [b[0].text])
    ensures Cards(a + b) == []
  {
    var ab := a + b;
    if ab != [] {
      assert ab[..|ab| - 1] == (if b == [] then a[..|a| - 1] else a);
      assert a != [] ==> a[..0] == [];
    }
  }

  lemma {:induction false} CardsOnly(before: seq<Block>, tools: seq<ToolCall>, n: nat)
    requires n <= |tools|
    ensures var all := before + CardBlocks(tools, n);
            && Cards(all) == Cards(before) + tools[..n]
            && Texts(all) == Texts(before) && Thinkings(all) == Thinkings(before)
  {
    var all := before + CardBlocks(tools, n);
    if n == 0 {
      assert all == before;
    } else {
      CardsOnly(before, tools, n - 1);
      assert all[..|all| - 1] == before + CardBlocks(tools, n - 1);
      assert tools[..n] == tools[..n - 1] + [tools[n - 1]];
    }
  }

  /** A turn of the fold never needs the reconstruction. */
  lemma FoldedTurnBlocks(env: Env, msgs: seq<Message>, active: bool, i: nat)
    requires i < |Turns(env, msgs, active)| && Turns(env, msgs, active)[i].AssistantTurn?
    ensures TurnBlocks(Turns(env, msgs, active)[i]) == BlocksOf(Turns(env, msgs, active)[i])
  {
    BlockNormalForm(env, msgs, active, i);
    TwoViewsAgree(env, msgs, active, i);
    assert Join([], "\n") == "";
  }

  function ToolsIn(shown: seq<(Block, nat)>): seq<ToolCall> {
    if shown == [] then []
    else
      var init, b := ToolsIn(shown[..|shown| - 1]), shown[|shown| - 1].0;
      if b.ToolBlock? then init + [b.tool] else init
  }

  lemma {:induction false} VisibleTools(blocks: seq<Block>)
    ensures ToolsIn(Visible(blocks)) == Cards(blocks)
  {
    if blocks != [] {
      var n := |blocks| - 1;
      VisibleTools(blocks[..n]);
      if !blocks[n].CronBlock? {
        assert Visible(blocks)[..|Visible(blocks)| - 1] == Visible(blocks[..n]);
      }
    }
  }

  /** A turn built by the fold shows one card per tool call, in call order; with distinct
      ids these are exactly the entries of its flat tool list. */
  lemma FoldedTurnShowsItsTools(env: Env, msgs: seq<Message>, active: bool, i: nat)
    requires i < |Turns(env, msgs, active)| && Turns(env, msgs, active)[i].AssistantTurn?
    ensures var t := Turns(env, msgs, active)[i];
            var shown := ToolsIn(Shown(RenderBlocks(TurnBlocks(t))));
            SameIds(shown, ToolsOf(t)) && (DistinctIds(ToolsOf(t)) ==> shown == ToolsOf(t))
  {
    var t := Turns(env, msgs, active)[i];
    FoldedTurnBlocks(env, msgs, active, i);
    PlanShowsEveryBlock(BlocksOf(t));
    VisibleTools(BlocksOf(t));
    TwoViewsAgree(env, msgs, active, i);
  }

  // ---------------------------------------------------------------- runs of assistant turns

  datatype AssistantRun = AssistantRun(turns: seq<Turn>, startIndex: nat, endIndex: nat)

  /** `start..=end` is a stretch of assistant turns that cannot be made longer. */
  ghost predicate IsRun(turns: seq<Turn>, start: nat, end: nat) {
    && start <= end < |turns|
    && (forall i :: start <= i <= end ==> turns[i].AssistantTurn?)
    && (start > 0 ==> !turns[start - 1].AssistantTurn?)
    && (end + 1 < |turns| ==> !turns[end + 1].AssistantTurn?)
  }

  ghost predicate InSomeRun(runs: seq<AssistantRun>, i: nat) {
    exists k :: 0 <= k < |runs| && runs[k].startIndex <= i <= runs[k].endIndex
  }

  /** The maximal stretches below `n`, each once, in order. */
  ghost predicate AreTheRuns(turns: seq<Turn>, runs: seq<AssistantRun>, n: nat)
    requires n <= |turns|
  {
    && (forall k :: 0 <= k < |runs| ==>
          && runs[k].endIndex < n
          && IsRun(turns, runs[k].startIndex, runs[k].endIndex)
          && runs[k].turns == turns[runs[k].startIndex..runs[k].endIndex + 1])
    && (forall k :: 0 < k < |runs| ==> runs[k - 1].endIndex + 1 < runs[k].startIndex)
    && (forall i :: 0 <= i < n && turns[i].AssistantTurn? ==> InSomeRun(runs, i))
  }

  /** A turn that is not an assistant turn adds nothing. */
  lemma SkipTurn(turns: seq<Turn>, runs: seq<AssistantRun>, i: nat)
    requires i < |turns| && AreTheRuns(turns, runs, i) && !turns[i].AssistantTurn?
    ensures AreTheRuns(turns, runs, i + 1)
  {}

  lemma CloseRun(turns: seq<Turn>, runs: seq<AssistantRun>, start: nat, end: nat)
    requires IsRun(turns, start, end) && AreTheRuns(turns, runs, start)
    ensures AreTheRuns(turns, runs + [AssistantRun(turns[start..end + 1], start, end)], end + 1)
  {
    hide InSomeRun;
    var r := AssistantRun(turns[start..end + 1], start, end);
    var grown := runs + [r];
    forall i: nat | i <= end && turns[i].AssistantTurn? ensures InSomeRun(grown, i) { StillInSomeRun(runs, r, i); }
    if runs != [] { LastRunIsApart(turns, runs, start, end); }
  }

  lemma StillInSomeRun(runs: seq<AssistantRun>, r: AssistantRun, i: nat)
    requires InSomeRun(runs, i) || r.startIndex <= i <= r.endIndex
    ensures InSomeRun(runs + [r], i)
  {
    if InSomeRun(runs, i) {
      var k :| 0 <= k < |runs| && runs[k].startIndex <= i <= runs[k].endIndex;
      assert (runs + [r])[k] == runs[k];
    } else {
      assert (runs + [r])[|runs|] == r;
    }
  }

  lemma LastRunIsApart(turns: seq<Turn>, runs: seq<AssistantRun>, start: nat, end: nat)
    requires runs != [] && IsRun(turns, start, end) && AreTheRuns(turns, runs, start)
    ensures runs[|runs| - 1].endIndex + 1 < start
  {
    var last := runs[|runs| - 1];
    assert IsRun(turns, last.startIndex, last.endIndex) && last.endIndex < start;
  }

  /** The loop's state before index `i`: the runs found so far and, from `start` on, a
      stretch of assistant turns still open (`-1` for none). */
  ghost predicate Scanning(turns: seq<Turn>, runs: seq<AssistantRun>, start: int, i: nat) {
    && -1 <= start < i <= |turns| + 1
    && (start == -1 ==>
          && (0 < i <= |turns| ==> !turns[i - 1].AssistantTurn?)
          && AreTheRuns(turns, runs, if i <= |turns| then i else |turns|))
    && (start >= 0 ==>
          && i <= |turns|
          && (forall j :: start <= j < i ==> turns[j].AssistantTurn?)
          && (start > 0 ==> !turns[start - 1].AssistantTurn?)
          && AreTheRuns(turns, runs, start))
  }

  lemma ScanAssistant(turns: seq<Turn>, runs: seq<AssistantRun>, start: int, i: nat)
    requires Scanning(turns, runs, start, i) && i < |turns| && turns[i].AssistantTurn?
    ensures Scanning(turns, runs, if start == -1 then i else start, i + 1)
  {}

  lemma ScanOther(turns: seq<Turn>, runs: seq<AssistantRun>, start: int, i: nat)
    requires Scanning(turns, runs, start, i) && i <= |turns| && (i < |turns| ==> !turns[i].AssistantTurn?)
    ensures start >= 0 ==> start < i <= |turns|
    ensures Scanning(turns,
                     if start == -1 then runs else runs + [AssistantRun(turns[start..i], start, i - 1)],
                     -1, i + 1)
  {
    hide AreTheRuns;
    if start == -1 {
      if i < |turns| { SkipTurn(turns, runs, i); }
    } else {
      CloseRun(turns, runs, start, i - 1);
      if i < |turns| { SkipTurn(turns, runs + [AssistantRun(turns[start..i], start, i - 1)], i); }
    }
  }

  /** `groupAssistantRuns`: one pass that finds the runs of the whole turn list. */
  method GroupAssistantRuns(turns: seq<Turn>) returns (runs: seq<AssistantRun>)
    ensures AreTheRuns(turns, runs, |turns|)
  {
    runs := [];
    var start := -1;
    for i := 0 to |turns| + 1
      invariant Scanning(turns, runs, start, i)
    {
      var isAssistant := i < |turns| && turns[i].AssistantTurn?;
      if isAssistant {
        ScanAssistant(turns, runs, start, i);
        if start == -1 { start := i; }
      } else {
        ScanOther(turns, runs, start, i);
        if start != -1 {
          runs := runs + [AssistantRun(turns[start..i], start, i - 1)];
          start := -1;
        }
      }
    }
  }

  /** There is only one maximal stretch around an index. */
  lemma RunIsUnique(turns: seq<Turn>, a: nat, b: nat, a': nat, b': nat, i: nat)
    requires IsRun(turns, a, b) && IsRun(turns, a', b') && a <= i <= b && a' <= i <= b'
    ensures a == a' && b == b'
  {}

  // ---------------------------------------------------------------- the plan of one turn

  function RunStart(turns: seq<Turn>, i: nat): (start: nat)
    requires i < |turns| && turns[i].AssistantTurn?
    ensures start <= i && (forall j :: start <= j <= i ==> turns[j].AssistantTurn?)
    ensures start > 0 ==> !turns[start - 1].AssistantTurn?
  {
    if i > 0 && turns[i - 1].AssistantTurn? then RunStart(turns, i - 1) else i
  }

  function RunEnd(turns: seq<Turn>, i: nat): (end: nat)
    requires i < |turns| && turns[i].AssistantTurn?
    ensures i <= end < |turns| && (forall j :: i <= j <= end ==> turns[j].AssistantTurn?)
    ensures end + 1 < |turns| ==> !turns[end + 1].AssistantTurn?
    decreases |turns| - i
  {
    if i < |turns| - 1 && turns[i + 1].AssistantTurn? then RunEnd(turns, i + 1) else i
  }

  predicate Trailing(b: Block) {
    b.NoticeBlock? || b.SteerBlock?
  }

  /** The text of the last block that is neither a notice nor a steer, if that is a text block. */
  function TerminalText(blocks: seq<Block>): string {
    if blocks == [] then ""
    else if Trailing(blocks[|blocks| - 1]) then TerminalText(blocks[..|blocks| - 1])
    else if blocks[|blocks| - 1].TextBlock? then blocks[|blocks| - 1].text
    else ""
  }

  function RunFinalText(turns: seq<Turn>): string
    requires turns != [] ==> turns[|turns| - 1].AssistantTurn?
  {
    if turns == [] then "" else TerminalText(TurnBlocks(turns[|turns| - 1]))
  }

  /** `runFinalText`, as a backward walk over the last turn's blocks. */
  method ComputeRunFinalText(run: seq<Turn>) returns (text: string)
    requires run != [] ==> run[|run| - 1].AssistantTurn?
    ensures text == RunFinalText(run)
  {
    if run == [] { return ""; }
    var blocks := TurnBlocks(run[|run| - 1]);
    var i := |blocks| - 1;
    assert blocks[..i + 1] == blocks;
    while i >= 0 && Trailing(blocks[i])
      invariant -1 <= i < |blocks|
      invariant TerminalText(blocks) == TerminalText(blocks[..i + 1])
    {
      assert blocks[..i + 1][..i] == blocks[..i];
      i := i - 1;
    }
    text := if i >= 0 && blocks[i].TextBlock? then blocks[i].text else "";
  }

  /** Nothing after the final text is dropped but notices and steers. */
  lemma {:induction false} FinalTextIsTerminal(blocks: seq<Block>)
    requires TerminalText(blocks) != ""
    ensures exists i :: 0 <= i < |blocks| && blocks[i] == TextBlock(TerminalText(blocks)) &&
                        forall j :: i < j < |blocks| ==> Trailing(blocks[j])
  {
    var n := |blocks| - 1;
    if Trailing(blocks[n]) {
      FinalTextIsTerminal(blocks[..n]);
      var i :| 0 <= i < n && blocks[..n][i] == TextBlock(TerminalText(blocks)) &&
               forall j :: i < j < n ==> Trailing(blocks[..n][j]);
      assert blocks[i] == TextBlock(TerminalText(blocks));
      forall j | i < j < |blocks| ensures Trailing(blocks[j]) {
        if j < n { assert Trailing(blocks[..n][j]); }
      }
    } else {
      assert blocks[n] == TextBlock(TerminalText(blocks));
    }
  }

  /** The final text by the blocks alone: that of the last block but the notices and steers
      at the end, if it is a text, else none. */
  lemma {:induction false} FinalTextIs(blocks: seq<Block>, i: int)
    requires -1 <= i < |blocks| && (i >= 0 ==> !blocks[i].NoticeBlock? && !blocks[i].SteerBlock?)
    requires forall j :: i < j < |blocks| ==> blocks[j].NoticeBlock? || blocks[j].SteerBlock?
    ensures TerminalText(blocks) == if i >= 0 && blocks[i].TextBlock? then blocks[i].text else ""
  {
    var n := |blocks| - 1;
    if i < n {
      assert blocks[n].NoticeBlock? || blocks[n].SteerBlock?;
      FinalTextIs(blocks[..n], i);
    }
  }

  datatype TurnPlan = TurnPlan(
    runKey: string, isRunStart: bool, isRunEnd: bool, streaming: bool, folded: bool,
    renderBlocks: bool, finalText: string,
    durationMs: Option<int>, createdAt: Option<string>, endedAt: Option<string>, visible: bool)

  predicate HasId(turns: seq<Turn>, id: Option<string>) {
    id.Some? && exists i :: 0 <= i < |turns| && turns[i].id == id.value
  }

  /** `turn.createdAt`: user, cron and notice turns carry one, no other turn does. */
  function CreatedAtOf(t: Turn): Option<string> {
    if t.UserTurn? || t.CronTurn? || t.NoticeTurn? then Some(t.createdAt) else None
  }

  /** The plan of the turn at `index` inside the run `start..=end`. */
  function PlanIn(turns: seq<Turn>, start: nat, end: nat, index: nat,
                  streamingTurnId: Option<string>, expanded: set<string>): TurnPlan
    requires start <= index <= end < |turns| && turns[start].AssistantTurn? && turns[end].AssistantTurn?
  {
    var run := turns[start..end + 1];
    var streaming := HasId(run, streamingTurnId);
    var folded := !streaming && run[0].id !in expanded;
    TurnPlan(run[0].id, index == start, index == end, streaming, folded, !folded,
             if folded && index == end then RunFinalText(run) else "",
             run[|run| - 1].durationMs, CreatedAtOf(run[|run| - 1]), run[|run| - 1].endedAt,
             index == start || index == end || !folded)
  }

  function PlanOf(turns: seq<Turn>, index: int, streamingTurnId: Option<string>, expanded: set<string>): Option<TurnPlan> {
    if 0 <= index < |turns| && turns[index].AssistantTurn?
    then Some(PlanIn(turns, RunStart(turns, index), RunEnd(turns, index), index, streamingTurnId, expanded))
    else None
  }

  /** The two loops of `assistantTurnRenderPlan`: walk out from the turn to the bounds of its run. */
  method WalkOut(turns: seq<Turn>, index: nat) returns (start: nat, end: nat)
    requires index < |turns| && turns[index].AssistantTurn?
    ensures start == RunStart(turns, index) && end == RunEnd(turns, index)
  {
    start := index;
    while start > 0 && turns[start - 1].AssistantTurn?
      invariant start <= index && turns[start].AssistantTurn?
      invariant RunStart(turns, start) == RunStart(turns, index)
    {
      start := start - 1;
    }
    end := index;
    while end < |turns| - 1 && turns[end + 1].AssistantTurn?
      invariant index <= end < |turns| && turns[end].AssistantTurn?
      invariant RunEnd(turns, end) == RunEnd(turns, index)
    {
      end := end + 1;
    }
  }

  /** `assistantTurnRenderPlan`. */
  method AssistantTurnRenderPlan(turns: seq<Turn>, index: int, streamingTurnId: Option<string>, expanded: set<string>)
    returns (plan: Option<TurnPlan>)
    ensures plan == PlanOf(turns, index, streamingTurnId, expanded)
  {
    hide RunStart, RunEnd, TerminalText, TurnBlocks;
    if index < 0 || index >= |turns| || !turns[index].AssistantTurn? { return None; }
    var start, end := WalkOut(turns, index);
    var run := turns[start..end + 1];
    var streaming := HasId(run, streamingTurnId);
    var folded := !streaming && run[0].id !in expanded;
    var finalText := "";
    if folded && index == end { finalText := ComputeRunFinalText(run); }
    plan := Some(TurnPlan(run[0].id, index == start, index == end, streaming, folded, !folded, finalText,
                          run[|run| - 1].durationMs, CreatedAtOf(run[|run| - 1]), run[|run| - 1].endedAt,
                          index == start || index == end || !folded));
  }

  lemma OneRunAround(turns: seq<Turn>, runs: seq<AssistantRun>, i: nat, k: nat, k': nat)
    requires AreTheRuns(turns, runs, |turns|) && k < |runs| && k' < |runs|
    requires runs[k].startIndex <= i <= runs[k].endIndex && runs[k'].startIndex <= i <= runs[k'].endIndex
    ensures k == k'
  {
    RunsInOrder(turns, runs, if k < k' then k else k', if k < k' then k' else k);
  }

  lemma RunAround(turns: seq<Turn>, runs: seq<AssistantRun>, i: nat) returns (k: nat)
    requires AreTheRuns(turns, runs, |turns|) && i < |turns| && turns[i].AssistantTurn?
    ensures k < |runs| && runs[k].startIndex <= i <= runs[k].endIndex
    ensures IsRun(turns, runs[k].startIndex, runs[k].endIndex)
    ensures runs[k].turns == turns[runs[k].startIndex..runs[k].endIndex + 1]
  {
    assert InSomeRun(runs, i);
    k :| 0 <= k < |runs| && runs[k].startIndex <= i <= runs[k].endIndex;
  }

  /** The two ways to find a run agree: around every assistant turn, the walk finds the
      one run of the grouping that contains it. */
  lemma WalkFindsTheRun(turns: seq<Turn>, runs: seq<AssistantRun>, i: nat) returns (k: nat)
    requires AreTheRuns(turns, runs, |turns|)
    requires i < |turns| && turns[i].AssistantTurn?
    ensures k < |runs| && runs[k].startIndex == RunStart(turns, i) && runs[k].endIndex == RunEnd(turns, i)
    ensures runs[k].turns == turns[RunStart(turns, i)..RunEnd(turns, i) + 1]
    ensures forall k' :: 0 <= k' < |runs| && runs[k'].startIndex <= i <= runs[k'].endIndex ==> k' == k
  {
    hide RunStart, RunEnd, AreTheRuns, InSomeRun;
    k := RunAround(turns, runs, i);
    RunIsUnique(turns, runs[k].startIndex, runs[k].endIndex, RunStart(turns, i), RunEnd(turns, i), i);
    forall k' | 0 <= k' < |runs| && runs[k'].startIndex <= i <= runs[k'].endIndex ensures k' == k {
      OneRunAround(turns, runs, i, k, k');
    }
  }

  /** ... and with the run come the same key and the same final text. */
  lemma PlanAgreesWithGrouping(turns: seq<Turn>, runs: seq<AssistantRun>, i: nat,
                               streamingTurnId: Option<string>, expanded: set<string>) returns (k: nat)
    requires AreTheRuns(turns, runs, |turns|)
    requires i < |turns| && turns[i].AssistantTurn?
    ensures k < |runs| && runs[k].startIndex <= i <= runs[k].endIndex && runs[k].turns != []
    ensures var plan := PlanOf(turns, i, streamingTurnId, expanded);
            && plan.Some? && plan.value.runKey == runs[k].turns[0].id
            && (plan.value.isRunStart <==> i == runs[k].startIndex)
            && (plan.value.isRunEnd <==> i == runs[k].endIndex)
            && plan.value.finalText == (if plan.value.folded && i == runs[k].endIndex
                                        then TerminalText(TurnBlocks(turns[i])) else "")
  {
    hide AreTheRuns, HasId, TurnBlocks, TerminalText, RunStart, RunEnd;
    k := WalkFindsTheRun(turns, runs, i);
  }

  /** The whole plan of an assistant turn, by the run it is in: the run streams if and only
      if one of its turns is the streaming one; it is folded if and only if it does not
      stream and the id of its first turn is not expanded; a folded run shows its first and
      last turn, and on the last the final text; and its duration, creation and end are those
      of its last turn. A turn that is no assistant turn has no plan. */
  lemma PlanOfRun(turns: seq<Turn>, a: nat, b: nat, i: nat, streamingTurnId: Option<string>, expanded: set<string>)
    requires IsRun(turns, a, b) && a <= i <= b
    ensures var p := PlanOf(turns, i, streamingTurnId, expanded);
            && p.Some?
            && p.value.runKey == turns[a].id
            && (p.value.isRunStart <==> i == a) && (p.value.isRunEnd <==> i == b)
            && (p.value.streaming <==> exists k :: a <= k <= b && Some(turns[k].id) == streamingTurnId)
            && (p.value.folded <==>
                  (forall k :: a <= k <= b ==> Some(turns[k].id) != streamingTurnId) && turns[a].id !in expanded)
            && (p.value.renderBlocks <==> !p.value.folded)
            && (p.value.visible <==> !p.value.folded || i == a || i == b)
            && p.value.finalText == (if p.value.folded && i == b then TerminalText(TurnBlocks(turns[b])) else "")
            && p.value.durationMs == turns[b].durationMs && p.value.createdAt == None
            && p.value.endedAt == turns[b].endedAt
  {
    hide TurnBlocks, TerminalText, RunStart, RunEnd, HasId;
    RunIsUnique(turns, a, b, RunStart(turns, i), RunEnd(turns, i), i);
    StreamsIff(turns, a, b, streamingTurnId);
  }

  lemma StreamsIff(turns: seq<Turn>, a: nat, b: nat, id: Option<string>)
    requires a <= b < |turns|
    ensures HasId(turns[a..b + 1], id) <==> exists k :: a <= k <= b && Some(turns[k].id) == id
  {
    var run := turns[a..b + 1];
    if HasId(run, id) {
      var i :| 0 <= i < |run| && run[i].id == id.value;
      assert Some(turns[a + i].id) == id;
    }
    if exists k :: a <= k <= b && Some(turns[k].id) == id {
      var k :| a <= k <= b && Some(turns[k].id) == id;
      assert run[k - a].id == id.value;
    }
  }

  lemma NoPlanElsewhere(turns: seq<Turn>, index: int, streamingTurnId: Option<string>, expanded: set<string>)
    ensures PlanOf(turns, index, streamingTurnId, expanded) == None
            <==> index < 0 || index >= |turns| || !turns[index].AssistantTurn?
  {}

  lemma {:induction false} RunsInOrder(turns: seq<Turn>, runs: seq<AssistantRun>, a: nat, b: nat)
    requires AreTheRuns(turns, runs, |turns|) && a <= b < |runs|
    ensures a < b ==> runs[a].endIndex + 1 < runs[b].startIndex
    decreases b
  {
    if a < b {
      RunsInOrder(turns, runs, a, b - 1);
      assert IsRun(turns, runs[b - 1].startIndex, runs[b - 1].endIndex);
    }
  }

  lemma PlansOfOneRun(turns: seq<Turn>, start: nat, end: nat, i: nat, j: nat,
                      streamingTurnId: Option<string>, expanded: set<string>)
    requires start <= i <= end && start <= j <= end < |turns|
    requires turns[start].AssistantTurn? && turns[end].AssistantTurn?
    ensures var a := PlanIn(turns, start, end, i, streamingTurnId, expanded);
            var b := PlanIn(turns, start, end, j, streamingTurnId, expanded);
            && a.runKey == b.runKey && a.folded == b.folded && a.streaming == b.streaming
            && a.durationMs == b.durationMs && a.createdAt == b.createdAt && a.endedAt == b.endedAt
            && (b.folded ==>
                  && !b.renderBlocks && (b.visible <==> j == start || j == end)
                  && b.finalText == (if j == end then TerminalText(TurnBlocks(turns[end])) else ""))
            && (!b.folded ==> b.renderBlocks && b.visible && b.finalText == "")
  {
    hide HasId, TerminalText, TurnBlocks;
  }

  /** Two turns of one run get one decision: same key, fold state, stamps. While folded,
      only the first and last turn are visible and no blocks render; the final text
      appears on the last turn alone. */
  lemma RunIsPlannedAsOne(turns: seq<Turn>, i: nat, j: nat, streamingTurnId: Option<string>, expanded: set<string>)
    requires i < |turns| && j < |turns| && turns[i].AssistantTurn? && RunStart(turns, i) <= j <= RunEnd(turns, i)
    ensures turns[j].AssistantTurn?
    ensures var a := PlanOf(turns, i, streamingTurnId, expanded).value;
            var b := PlanOf(turns, j, streamingTurnId, expanded).value;
            && a.runKey == b.runKey && a.folded == b.folded && a.streaming == b.streaming
            && a.durationMs == b.durationMs && a.createdAt == b.createdAt && a.endedAt == b.endedAt
            && (b.folded ==>
                  && !b.renderBlocks
                  && (b.visible <==> j == RunStart(turns, i) || j == RunEnd(turns, i))
                  && b.finalText == (if j == RunEnd(turns, i) then TerminalText(TurnBlocks(turns[j])) else ""))
            && (!b.folded ==> b.renderBlocks && b.visible && b.finalText == "")
  {
    hide HasId, TerminalText, TurnBlocks, RunStart, RunEnd, PlanIn;
    assert turns[j].AssistantTurn?;
    RunIsUnique(turns, RunStart(turns, i), RunEnd(turns, i), RunStart(turns, j), RunEnd(turns, j), j);
    PlansOfOneRun(turns, RunStart(turns, i), RunEnd(turns, i), i, j, streamingTurnId, expanded);
  }
}
