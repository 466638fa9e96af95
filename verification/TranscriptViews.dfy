/** What every turn of the fold looks like inside: ordered blocks in normal form, and a
    flat tool list that agrees with the tool cards among the blocks. */
module TranscriptViews {
  import opened Wrappers
  import opened TranscriptTypes
  import opened TranscriptFold

  // ---------------------------------------------------------------- projections of blocks

  function Texts(blocks: seq<Block>): seq<string> {
    if blocks == [] then []
    else
      var init := Texts(blocks[..|blocks| - 1]);
      if blocks[|blocks| - 1].TextBlock? then init + [blocks[|blocks| - 1].text] else init
  }

  function Thinkings(blocks: seq<Block>): seq<string> {
    if blocks == [] then []
    else
      var init := Thinkings(blocks[..|blocks| - 1]);
      if blocks[|blocks| - 1].ThinkingBlock? then init + [blocks[|blocks| - 1].thinking] else init
  }

  /** The tool cards among the blocks, in order. */
  function Cards(blocks: seq<Block>): seq<ToolCall> {
    if blocks == [] then []
    else
      var init := Cards(blocks[..|blocks| - 1]);
      if blocks[|blocks| - 1].ToolBlock? then init + [blocks[|blocks| - 1].tool] else init
  }

  predicate NonEmptyBlock(b: Block) {
    && (b.TextBlock? ==> b.text != "")
    && (b.ThinkingBlock? ==> b.thinking != "")
  }

  predicate Mergeable(a: Block, b: Block) {
    (a.TextBlock? && b.TextBlock?) || (a.ThinkingBlock? && b.ThinkingBlock?)
  }

  /** No empty text or thinking block, and no two of a kind side by side. */
  ghost predicate NormalForm(blocks: seq<Block>) {
    && (forall i :: 0 <= i < |blocks| ==> NonEmptyBlock(blocks[i]))
    && (forall i :: 0 < i < |blocks| ==> !Mergeable(blocks[i - 1], blocks[i]))
  }

  // ---------------------------------------------------------------- turn accessors

  function ToolsOf(t: Turn): seq<ToolCall> {
    if t.AssistantTurn? && t.tools.Some? then t.tools.value else []
  }

  function BlocksOf(t: Turn): seq<Block> {
    if t.AssistantTurn? && t.blocks.Some? then t.blocks.value else []
  }

  ghost predicate DistinctIds(tools: seq<ToolCall>) {
    forall i, j :: 0 <= i < j < |tools| ==> tools[i].id != tools[j].id
  }

  ghost predicate SameIds(a: seq<ToolCall>, b: seq<ToolCall>) {
    |a| == |b| && forall i :: 0 <= i < |a| ==> a[i].id == b[i].id
  }

  ghost predicate NoneRunning(tools: seq<ToolCall>) {
    forall i :: 0 <= i < |tools| ==> tools[i].status != Running
  }

  /** Every running card is the first one with its id. */
  ghost predicate RunningAreFirst(tools: seq<ToolCall>) {
    forall i :: 0 <= i < |tools| && tools[i].status == Running ==> FindTool(tools, tools[i].id) == i
  }

  // ---------------------------------------------------------------- patching a card

  /** Equal up to the contents of tool cards. */
  ghost predicate SameButTools(a: seq<Block>, b: seq<Block>) {
    |a| == |b| && forall i :: 0 <= i < |a| ==> a[i] == b[i] || (a[i].ToolBlock? && b[i].ToolBlock?)
  }

  lemma {:induction false} SameButToolsKeepsText(a: seq<Block>, b: seq<Block>)
    requires SameButTools(a, b)
    ensures Texts(a) == Texts(b) && Thinkings(a) == Thinkings(b)
    ensures NormalForm(a) ==> NormalForm(b)
  {
    if a != [] {
      SameButToolsKeepsText(a[..|a| - 1], b[..|b| - 1]);
    }
  }

  lemma FindToolUnique(tools: seq<ToolCall>, id: string, i: nat)
    requires i <= |tools|
    requires i < |tools| ==> tools[i].id == id
    requires forall j :: 0 <= j < i ==> tools[j].id != id
    ensures FindTool(tools, id) == i
  {}

  lemma FindToolSnoc(tools: seq<ToolCall>, t: ToolCall, id: string)
    ensures var i := FindTool(tools, id);
            FindTool(tools + [t], id) ==
              if i < |tools| then i else if t.id == id then |tools| else |tools| + 1
  {
    assert (tools + [t])[..|tools|] == tools;
  }

  lemma FindCardSnoc(blocks: seq<Block>, b: Block, id: string)
    ensures var i := FindCard(blocks, id);
            FindCard(blocks + [b], id) ==
              if i < |blocks| then i else if IsCard(b, id) then |blocks| else |blocks| + 1
  {
    assert (blocks + [b])[..|blocks|] == blocks;
  }

  lemma PatchCardSnoc(blocks: seq<Block>, b: Block, tool: ToolCall)
    ensures PatchCard(blocks + [b], tool) ==
            if FindCard(blocks, tool.id) < |blocks| then PatchCard(blocks, tool) + [b]
            else if IsCard(b, tool.id) then blocks + [ToolBlock(tool)]
            else blocks + [b]
  {
    hide FindCard, IsCard;
    FindCardSnoc(blocks, b, tool.id);
    UpdateSnoc(blocks, b, FindCard(blocks, tool.id), ToolBlock(tool));
  }

  lemma UpdateSnoc<T>(s: seq<T>, last: T, i: nat, x: T)
    ensures i < |s| ==> (s + [last])[i := x] == s[i := x] + [last]
    ensures (s + [last])[|s| := x] == s + [x]
  {}

  /** The flat list with the first entry of that id replaced. */
  function PatchFirst(tools: seq<ToolCall>, tool: ToolCall): seq<ToolCall> {
    var i := FindTool(tools, tool.id);
    if i < |tools| then tools[i := tool] else tools
  }

  lemma PatchToolsSnoc(tools: seq<ToolCall>, t: ToolCall, tool: ToolCall)
    ensures PatchFirst(tools + [t], tool) ==
            if FindTool(tools, tool.id) < |tools| then PatchFirst(tools, tool) + [t]
            else if t.id == tool.id then tools + [tool]
            else tools + [t]
    ensures FindTool(tools + [t], tool.id) < |tools| + 1
            <==> FindTool(tools, tool.id) < |tools| || t.id == tool.id
  {
    hide FindTool;
    FindToolSnoc(tools, t, tool.id);
    UpdateSnoc(tools, t, FindTool(tools, tool.id), tool);
  }

  /** Patching the first card with an id in the blocks is the same as patching the
      first entry with that id in their card list. */
  lemma {:induction false} PatchCardPatchesFirst(blocks: seq<Block>, tool: ToolCall)
    ensures Cards(PatchCard(blocks, tool)) == PatchFirst(Cards(blocks), tool)
    ensures FindCard(blocks, tool.id) < |blocks| <==> FindTool(Cards(blocks), tool.id) < |Cards(blocks)|
  {
    if blocks != [] {
      hide FindTool, FindCard, Cards, PatchCard, PatchFirst;
      var n := |blocks| - 1;
      var init, last := blocks[..n], blocks[n];
      assert blocks == init + [last];
      PatchCardPatchesFirst(init, tool);
      PatchCardSnoc(init, last, tool);
      FindCardSnoc(init, last, tool.id);
      ProjectSnoc(init, last);
      ProjectSnoc(PatchCard(init, tool), last);
      ProjectSnoc(init, ToolBlock(tool));
      if last.ToolBlock? { PatchToolsSnoc(Cards(init), last.tool, tool); }
    }
  }

  lemma PatchSameButTools(blocks: seq<Block>, tool: ToolCall)
    ensures SameButTools(blocks, PatchCard(blocks, tool))
  {}

  // ---------------------------------------------------------------- the open group

  /** What holds of the open group at every point. */
  ghost predicate GroupInv(g: Group) {
    && NormalForm(g.blocks)
    && SameJoin(Texts(g.blocks), g.textParts)
    && SameJoin(Thinkings(g.blocks), g.thinkingParts)
    && Cards(g.blocks) == g.tools
  }

  ghost predicate SameJoin(a: seq<string>, b: seq<string>) {
    Join(a, "\n") == Join(b, "\n") && (a == [] <==> b == [])
  }

  lemma JoinSnoc(parts: seq<string>, s: string)
    ensures Join(parts + [s], "\n") == if parts == [] then s else Join(parts, "\n") + "\n" + s
  {
    assert (parts + [s])[..|parts|] == parts;
  }

  /** Growing the last of several joined strings grows the joined string. */
  lemma JoinGrowLast(parts: seq<string>, a: string, s: string)
    ensures Join(parts + [a + "\n" + s], "\n") == Join(parts + [a], "\n") + "\n" + s
  {
    JoinSnoc(parts, a + "\n" + s);
    JoinSnoc(parts, a);
    if parts != [] {
      assert Join(parts, "\n") + "\n" + (a + "\n" + s) == (Join(parts, "\n") + "\n" + a) + "\n" + s;
    }
  }

  lemma ProjectSnoc(blocks: seq<Block>, b: Block)
    ensures Texts(blocks + [b]) == if b.TextBlock? then Texts(blocks) + [b.text] else Texts(blocks)
    ensures Thinkings(blocks + [b]) == if b.ThinkingBlock? then Thinkings(blocks) + [b.thinking] else Thinkings(blocks)
    ensures Cards(blocks + [b]) == if b.ToolBlock? then Cards(blocks) + [b.tool] else Cards(blocks)
  {
    assert (blocks + [b])[..|blocks|] == blocks;
  }

  lemma NormalSnoc(blocks: seq<Block>, b: Block)
    requires NormalForm(blocks) && NonEmptyBlock(b)
    requires blocks == [] || !Mergeable(blocks[|blocks| - 1], b)
    ensures NormalForm(blocks + [b])
  {}

  /** A last block that stays of its kind keeps the normal form. */
  lemma NormalReplaceLast(init: seq<Block>, prev: Block, b: Block)
    requires NormalForm(init + [prev]) && NonEmptyBlock(b)
    requires (prev.TextBlock? && b.TextBlock?) || (prev.ThinkingBlock? && b.ThinkingBlock?)
    ensures NormalForm(init + [b])
  {
    var was := init + [prev];
    forall i | 0 <= i < |init| ensures NonEmptyBlock(init[i]) && (i > 0 ==> !Mergeable(init[i - 1], init[i])) {
      assert was[i] == init[i] && (i > 0 ==> was[i - 1] == init[i - 1]);
    }
    if init != [] {
      assert was[|init|] == prev && was[|init| - 1] == init[|init| - 1];
    }
  }

  lemma AppendTextKeeps(g: Group, t: string)
    requires GroupInv(g) && t != ""
    ensures GroupInv(g.(textParts := g.textParts + [t], blocks := AppendText(g.blocks, t)))
  {
    hide Join, NormalForm, Texts, Thinkings, Cards;
    var n := |g.blocks| - 1;
    JoinSnoc(g.textParts, t);
    if n >= 0 && g.blocks[n].TextBlock? {
      var init, a := g.blocks[..n], g.blocks[n].text;
      var grown := TextBlock(a + "\n" + t);
      assert g.blocks == init + [g.blocks[n]];
      assert AppendText(g.blocks, t) == init + [grown];
      NormalReplaceLast(init, g.blocks[n], grown);
      ProjectSnoc(init, g.blocks[n]);
      ProjectSnoc(init, grown);
      JoinGrowLast(Texts(init), a, t);
    } else {
      NormalSnoc(g.blocks, TextBlock(t));
      ProjectSnoc(g.blocks, TextBlock(t));
      JoinSnoc(Texts(g.blocks), t);
    }
  }

  lemma AppendThinkingKeeps(g: Group, t: string)
    requires GroupInv(g) && t != ""
    ensures GroupInv(g.(thinkingParts := g.thinkingParts + [t], blocks := AppendThinking(g.blocks, t)))
  {
    hide Join, NormalForm, Texts, Thinkings, Cards;
    var n := |g.blocks| - 1;
    JoinSnoc(g.thinkingParts, t);
    if n >= 0 && g.blocks[n].ThinkingBlock? {
      var init, a := g.blocks[..n], g.blocks[n].thinking;
      var grown := ThinkingBlock(a + "\n" + t);
      assert g.blocks == init + [g.blocks[n]];
      assert AppendThinking(g.blocks, t) == init + [grown];
      NormalReplaceLast(init, g.blocks[n], grown);
      ProjectSnoc(init, g.blocks[n]);
      ProjectSnoc(init, grown);
      JoinGrowLast(Thinkings(init), a, t);
    } else {
      NormalSnoc(g.blocks, ThinkingBlock(t));
      ProjectSnoc(g.blocks, ThinkingBlock(t));
      JoinSnoc(Thinkings(g.blocks), t);
    }
  }

  /** Patching the first entry with an id in both views keeps them equal. */
  lemma PatchKeeps(g: Group, i: nat, tool: ToolCall)
    requires GroupInv(g) && i < |g.tools| && FindTool(g.tools, tool.id) == i
    ensures GroupInv(PatchTool(g, i, tool))
  {
    PatchCardPatchesFirst(g.blocks, tool);
    PatchSameButTools(g.blocks, tool);
    SameButToolsKeepsText(g.blocks, PatchCard(g.blocks, tool));
  }

  lemma AddBlockKeeps(g: Group, b: Block)
    requires GroupInv(g) && !b.TextBlock? && !b.ThinkingBlock? && !b.ToolBlock?
    ensures GroupInv(g.(blocks := g.blocks + [b]))
  {
    ProjectSnoc(g.blocks, b);
  }

  lemma ToolUseKeeps(env: Env, g: Group, c: Part)
    requires GroupInv(g) && c.ToolUsePart?
    ensures GroupInv(AbsorbToolUse(env, g, c))
  {
    ProjectSnoc(g.blocks, ToolBlock(NewCard(env, c)));
  }

  lemma ResultKeeps(env: Env, g: Group, c: Part)
    requires GroupInv(g) && c.ToolResultPart?
    ensures GroupInv(AbsorbPart(env, g, c))
  {
    var i := FindTool(g.tools, c.callId);
    if i < |g.tools| { PatchKeeps(g, i, ResultCard(env, g.tools[i], c)); }
  }

  lemma AbsorbPartKeeps(env: Env, g: Group, c: Part)
    requires GroupInv(g)
    ensures GroupInv(AbsorbPart(env, g, c))
  {
    match c
    case TextPart(t) => if t != "" { AppendTextKeeps(g, t); }
    case ThinkingPart(t) => if t != "" { AppendThinkingKeeps(g, t); }
    case ToolUsePart(_, _, _, _, _) => ToolUseKeeps(env, g, c);
    case ToolResultPart(_, _, _, _) => ResultKeeps(env, g, c);
    case OtherPart(_) =>
  }

  lemma {:induction false} AbsorbKeeps(env: Env, g: Group, content: seq<Part>)
    requires GroupInv(g)
    ensures GroupInv(Absorb(env, g, content))
  {
    if content != [] {
      AbsorbKeeps(env, g, content[..|content| - 1]);
      AbsorbPartKeeps(env, Absorb(env, g, content[..|content| - 1]), content[|content| - 1]);
    }
  }

  lemma {:induction false} MergeKeeps(g: Group, content: seq<Part>)
    requires GroupInv(g)
    ensures GroupInv(MergeExtras(g, content))
  {
    if content != [] {
      var g1, c := MergeExtras(g, content[..|content| - 1]), content[|content| - 1];
      MergeKeeps(g, content[..|content| - 1]);
      if c.ToolUsePart? && FindTool(g1.tools, c.callId) < |g1.tools| {
        var i := FindTool(g1.tools, c.callId);
        PatchKeeps(g1, i, FilledCard(g1.tools[i], c));
      }
    }
  }

  lemma FoldRowKeeps(env: Env, g: Group, m: Message)
    requires GroupInv(g)
    ensures GroupInv(FoldRow(env, g, m))
  {
    var g1 := Stamped(g, m);
    var sig := SigOf(env, m.content);
    if AlreadyFolded(g1, sig) {
      MergeKeeps(g1, m.content);
    } else {
      AbsorbKeeps(env, g1.(foldedSigs := g1.foldedSigs + [sig]), m.content);
    }
  }

  // ---------------------------------------------------------------- settling

  /** After `n` rounds the first `n` entries of the flat list are settled, the others
      and all ids are untouched. */
  lemma {:induction false} SettleFlat(env: Env, g: Group, anchor: Option<int>, n: nat)
    requires n <= |g.tools|
    ensures var r := SettleFirst(env, g, anchor, n);
            && r == g.(tools := r.tools, blocks := r.blocks)
            && (forall i :: 0 <= i < |g.tools| ==>
                  r.tools[i] == if i < n && g.tools[i].status == Running
                                then SettledCard(env, g.tools[i], anchor) else g.tools[i])
  {
    if n > 0 {
      SettleFlat(env, g, anchor, n - 1);
      var p := SettleFirst(env, g, anchor, n - 1);
      assert p.tools[n - 1] == g.tools[n - 1];
    }
  }

  lemma SameButToolsTransitive(a: seq<Block>, b: seq<Block>, c: seq<Block>)
    requires SameButTools(a, b) && SameButTools(b, c)
    ensures SameButTools(a, c)
  {
    forall i | 0 <= i < |a|
      ensures a[i] == c[i] || (a[i].ToolBlock? && c[i].ToolBlock?)
    {
      assert a[i] == b[i] || (a[i].ToolBlock? && b[i].ToolBlock?);
    }
  }

  lemma {:induction false} SettleSameButTools(env: Env, g: Group, anchor: Option<int>, n: nat)
    requires n <= |g.tools|
    ensures SameButTools(g.blocks, SettleFirst(env, g, anchor, n).blocks)
  {
    if n > 0 {
      SettleSameButTools(env, g, anchor, n - 1);
      var p := SettleFirst(env, g, anchor, n - 1);
      var u := SettledCard(env, p.tools[n - 1], anchor);
      PatchSameButTools(p.blocks, u);
      SameButToolsTransitive(g.blocks, p.blocks, PatchCard(p.blocks, u));
    }
  }

  lemma FindToolSameIds(a: seq<ToolCall>, b: seq<ToolCall>, id: string)
    requires SameIds(a, b)
    ensures FindTool(a, id) == FindTool(b, id)
  {
    FindToolUnique(a, id, FindTool(b, id));
  }

  /** One round of the settle loop, seen in the card list: it writes to the first card
      with the id, whichever one is being settled. */
  lemma SettleRound(env: Env, g: Group, anchor: Option<int>, n: nat)
    requires 0 < n <= |g.tools|
    requires SameIds(Cards(SettleFirst(env, g, anchor, n - 1).blocks), g.tools)
    ensures var p, r := SettleFirst(env, g, anchor, n - 1), SettleFirst(env, g, anchor, n);
            var f := FindTool(g.tools, g.tools[n - 1].id);
            && f <= n - 1
            && p.tools[n - 1] == g.tools[n - 1]
            && SameIds(Cards(r.blocks), g.tools)
            && Cards(r.blocks) == (if g.tools[n - 1].status == Running
                                   then Cards(p.blocks)[f := SettledCard(env, g.tools[n - 1], anchor)]
                                   else Cards(p.blocks))
            && r.tools == (if g.tools[n - 1].status == Running
                           then p.tools[n - 1 := SettledCard(env, g.tools[n - 1], anchor)]
                           else p.tools)
  {
    SettleFlat(env, g, anchor, n - 1);
    var p := SettleFirst(env, g, anchor, n - 1);
    var u := SettledCard(env, g.tools[n - 1], anchor);
    PatchCardPatchesFirst(p.blocks, u);
    FindToolSameIds(Cards(p.blocks), g.tools, u.id);
  }

  /** A card whose id occurs earlier is never reached by the settle loop; if every
      running card is the first with its id, the two views stay equal. */
  lemma {:induction false} SettleCards(env: Env, g: Group, anchor: Option<int>, n: nat)
    requires n <= |g.tools| && Cards(g.blocks) == g.tools
    ensures var r := SettleFirst(env, g, anchor, n);
            && SameIds(Cards(r.blocks), g.tools)
            && (forall i :: 0 <= i < |g.tools| && FindTool(g.tools, g.tools[i].id) < i ==>
                  Cards(r.blocks)[i] == g.tools[i])
            && (RunningAreFirst(g.tools) ==> Cards(r.blocks) == r.tools)
  {
    if n > 0 {
      SettleCards(env, g, anchor, n - 1);
      SettleRound(env, g, anchor, n);
    }
  }

  /** Exactly when the two views agree after settling: the settle loop writes each
      settled card to the first block with its id, so a running card behind another
      one with the same id keeps spinning in the blocks. */
  lemma SettleAgreesIff(env: Env, g: Group)
    requires GroupInv(g)
    ensures Cards(Settle(env, g).blocks) == Settle(env, g).tools <==> RunningAreFirst(g.tools)
    ensures NoneRunning(Settle(env, g).tools)
    ensures SameIds(Settle(env, g).tools, g.tools)
    ensures SameIds(Cards(Settle(env, g).blocks), g.tools)
  {
    hide SettleFirst, FindTool, Cards, NormalForm, SameJoin;
    var anchor, n := FreezeAnchor(env, g), |g.tools|;
    SettleFlat(env, g, anchor, n);
    SettleCards(env, g, anchor, n);
    var r := Settle(env, g);
    if !RunningAreFirst(g.tools) {
      var i :| 0 <= i < n && g.tools[i].status == Running && FindTool(g.tools, g.tools[i].id) != i;
      assert FindTool(g.tools, g.tools[i].id) < i;
      assert Cards(r.blocks)[i].status == Running;
    }
  }

  lemma DistinctAreFirst(tools: seq<ToolCall>)
    requires DistinctIds(tools)
    ensures RunningAreFirst(tools)
  {
    forall i | 0 <= i < |tools|
      ensures FindTool(tools, tools[i].id) == i
    {
      FindToolUnique(tools, tools[i].id, i);
    }
  }

  /** A card whose id occurs earlier is still running: results and merges only ever reach
      the first card with an id. */
  ghost predicate RepeatsRun(tools: seq<ToolCall>) {
    forall i, j :: 0 <= i < j < |tools| && tools[i].id == tools[j].id ==> tools[j].status == Running
  }

  lemma RepeatsRunPatch(tools: seq<ToolCall>, i: nat, tool: ToolCall)
    requires RepeatsRun(tools) && i < |tools| && FindTool(tools, tool.id) == i
    ensures RepeatsRun(tools[i := tool])
  {}

  lemma RepeatsRunSnoc(tools: seq<ToolCall>, tool: ToolCall)
    requires RepeatsRun(tools) && tool.status == Running
    ensures RepeatsRun(tools + [tool])
  {}

  lemma {:induction false} AbsorbRepeats(env: Env, g: Group, content: seq<Part>)
    requires RepeatsRun(g.tools)
    ensures RepeatsRun(Absorb(env, g, content).tools)
  {
    if content != [] {
      hide RepeatsRun, FindTool;
      var g1, c := Absorb(env, g, content[..|content| - 1]), content[|content| - 1];
      AbsorbRepeats(env, g, content[..|content| - 1]);
      if c.ToolUsePart? {
        RepeatsRunSnoc(g1.tools, NewCard(env, c));
      } else if c.ToolResultPart? && FindTool(g1.tools, c.callId) < |g1.tools| {
        var i := FindTool(g1.tools, c.callId);
        RepeatsRunPatch(g1.tools, i, ResultCard(env, g1.tools[i], c));
      }
    }
  }

  lemma {:induction false} MergeRepeats(g: Group, content: seq<Part>)
    requires RepeatsRun(g.tools)
    ensures RepeatsRun(MergeExtras(g, content).tools)
  {
    if content != [] {
      hide RepeatsRun, FindTool;
      var g1, c := MergeExtras(g, content[..|content| - 1]), content[|content| - 1];
      MergeRepeats(g, content[..|content| - 1]);
      if c.ToolUsePart? && FindTool(g1.tools, c.callId) < |g1.tools| {
        var i := FindTool(g1.tools, c.callId);
        RepeatsRunPatch(g1.tools, i, FilledCard(g1.tools[i], c));
      }
    }
  }

  lemma FoldRowRepeats(env: Env, g: Group, m: Message)
    requires RepeatsRun(g.tools)
    ensures RepeatsRun(FoldRow(env, g, m).tools)
  {
    hide RepeatsRun, Absorb, MergeExtras, AlreadyFolded;
    var g1 := Stamped(g, m);
    MergeRepeats(g1, m.content);
    AbsorbRepeats(env, g1.(foldedSigs := g1.foldedSigs + [SigOf(env, m.content)]), m.content);
  }

  /** So in a group that some transcript leads to, every running card is the first with
      its id exactly when no id occurs twice. */
  lemma FirstIffDistinct(tools: seq<ToolCall>)
    requires RepeatsRun(tools)
    ensures RunningAreFirst(tools) <==> DistinctIds(tools)
  {
    if DistinctIds(tools) { DistinctAreFirst(tools); }
    if RunningAreFirst(tools) {
      forall i, j | 0 <= i < j < |tools| ensures tools[i].id != tools[j].id {
        if tools[j].status == Running { assert FindTool(tools, tools[j].id) == j; }
      }
    }
  }

  /** After settling such a group: the views are equal, and no block keeps running, exactly
      when no id occurs twice. */
  lemma SettledViewsIff(env: Env, g: Group)
    requires GroupInv(g) && RepeatsRun(g.tools)
    ensures Cards(Settle(env, g).blocks) == Settle(env, g).tools <==> DistinctIds(g.tools)
    ensures NoneRunning(Cards(Settle(env, g).blocks)) <==> DistinctIds(g.tools)
  {
    FirstIffDistinct(g.tools);
    SettleAgreesIff(env, g);
    if !DistinctIds(g.tools) {
      var i, j :| 0 <= i < j < |g.tools| && g.tools[i].id == g.tools[j].id;
      hide GroupInv;
      assert Cards(g.blocks) == g.tools by { CardsAreTools(g); }
      SettleCards(env, g, FreezeAnchor(env, g), |g.tools|);
      assert FindTool(g.tools, g.tools[j].id) <= i;
      assert Cards(Settle(env, g).blocks)[j].status == Running;
    }
  }

  lemma CardsAreTools(g: Group)
    requires GroupInv(g)
    ensures Cards(g.blocks) == g.tools
  {}

  /** Two calls with the same id and no result in a finished group: the flat list is
      settled, and the second card among the blocks still says running. */
  lemma DuplicateIdsSplitTheViews(env: Env, g: Group, c: ToolCall)
    requires GroupInv(g) && g.tools == [c, c] && c.status == Running
    ensures Settle(env, g).tools[1].status == Succeeded
    ensures |Cards(Settle(env, g).blocks)| == 2 && Cards(Settle(env, g).blocks)[1].status == Running
  {
    var anchor := FreezeAnchor(env, g);
    FindToolUnique(g.tools, c.id, 0);
    SettleCards(env, g, anchor, 2);
    SettleCards(env, g, anchor, 1);
    SettleRound(env, g, anchor, 2);
  }

  // ---------------------------------------------------------------- every turn of every run

  /** What holds of every turn that has been flushed. */
  ghost predicate TurnInv(t: Turn, settled: bool) {
    t.AssistantTurn? ==>
      && NormalForm(BlocksOf(t))
      && t.text == Join(Texts(BlocksOf(t)), "\n")
      && t.thinking == (if Thinkings(BlocksOf(t)) == [] then None
                        else Some(Join(Thinkings(BlocksOf(t)), "\n")))
      && SameIds(Cards(BlocksOf(t)), ToolsOf(t))
      && (settled ==> NoneRunning(ToolsOf(t)))
      && ViewsSplitIff(BlocksOf(t), ToolsOf(t), settled)
  }

  /** In an open group the views are equal. Once settled they are equal, and no block runs,
      exactly when no id occurs twice. */
  ghost predicate ViewsSplitIff(blocks: seq<Block>, tools: seq<ToolCall>, settled: bool) {
    if settled then
      && (Cards(blocks) == tools <==> DistinctIds(tools))
      && (NoneRunning(Cards(blocks)) <==> DistinctIds(tools))
    else Cards(blocks) == tools
  }

  /** What is left of the group invariant after settling, enough for the turn. */
  ghost predicate Settled(g: Group, settled: bool) {
    && NormalForm(g.blocks)
    && SameJoin(Texts(g.blocks), g.textParts)
    && SameJoin(Thinkings(g.blocks), g.thinkingParts)
    && SameIds(Cards(g.blocks), g.tools)
    && (settled ==> NoneRunning(g.tools))
    && ViewsSplitIff(g.blocks, g.tools, settled)
  }

  lemma SettleSettles(env: Env, g: Group)
    requires GroupInv(g) && RepeatsRun(g.tools)
    ensures Settled(Settle(env, g), true)
  {
    hide RepeatsRun, Cards, Texts, Thinkings;
    var r := Settle(env, g);
    SettleAgreesIff(env, g);
    SettledViewsIff(env, g);
    if DistinctIds(r.tools) { SameIdsDistinct(r.tools, g.tools); }
    if DistinctIds(g.tools) { SameIdsDistinct(g.tools, r.tools); }
    SettleFlat(env, g, FreezeAnchor(env, g), |g.tools|);
    SettleSameButTools(env, g, FreezeAnchor(env, g), |g.tools|);
    SameButToolsKeepsText(g.blocks, r.blocks);
  }

  lemma SameIdsDistinct(a: seq<ToolCall>, b: seq<ToolCall>)
    requires SameIds(a, b) && DistinctIds(a)
    ensures DistinctIds(b)
  {
    forall i, j | 0 <= i < j < |b| ensures b[i].id != b[j].id { assert a[i].id != a[j].id; }
  }

  lemma SettledTurnInv(g: Group, no: nat, settled: bool)
    requires Settled(g, settled)
    ensures TurnInv(TurnOf(g, no), settled)
  {
    var t := TurnOf(g, no);
    assert BlocksOf(t) == g.blocks && ToolsOf(t) == g.tools;
  }

  lemma FlushedTurnInv(env: Env, g: Group, no: nat, settle: bool)
    requires GroupInv(g) && RepeatsRun(g.tools)
    ensures TurnInv(TurnOf(if settle then Settle(env, g) else g, no), settle)
  {
    if settle {
      SettleSettles(env, g);
      SettledTurnInv(Settle(env, g), no, true);
    } else {
      SettledTurnInv(g, no, false);
    }
  }

  ghost predicate StateInv(s: State) {
    && (forall i :: 0 <= i < |s.turns| ==> TurnInv(s.turns[i], true))
    && (s.group.Some? ==> GroupInv(s.group.value) && RepeatsRun(s.group.value.tools))
  }

  lemma FlushKeeps(env: Env, s: State)
    requires StateInv(s)
    ensures StateInv(Flush(env, s, true))
  {
    if s.group.Some? { FlushedTurnInv(env, s.group.value, s.no, true); }
  }

  lemma StepKeeps(env: Env, s: State, m: Message, rest: seq<Message>)
    requires StateInv(s)
    ensures StateInv(Step(env, s, m, rest))
  {
    hide Flush, FoldRow, Absorb, RepeatsRun;
    FlushKeeps(env, s);
    assert RepeatsRun(NewGroup(m).tools) by { NoRepeats(); }
    var row := Classify(m);
    if row == ToolResultRow {
      if s.group.Some? {
        AbsorbKeeps(env, s.group.value, m.content);
        AbsorbRepeats(env, s.group.value, m.content);
      }
    } else if row == AssistantRow {
      if s.group.Some? {
        FoldRowKeeps(env, s.group.value, m);
        FoldRowRepeats(env, s.group.value, m);
      }
      FoldRowKeeps(env, NewGroup(m), m);
      FoldRowRepeats(env, NewGroup(m), m);
    } else if GoesInline(s, m, rest) {
      AddBlockKeeps(s.group.value, InlineBlock(env, m));
    }
  }

  lemma NoRepeats()
    ensures RepeatsRun([])
  {}

  lemma {:induction false} StatesKeep(env: Env, msgs: seq<Message>, k: nat)
    requires k <= |msgs|
    ensures StateInv(StateAt(env, msgs, k))
  {
    if k > 0 {
      StatesKeep(env, msgs, k - 1);
      StepKeeps(env, StateAt(env, msgs, k - 1), msgs[k - 1], msgs[k..]);
    }
  }

  lemma AbsorbTwo(env: Env, g: Group, a: Part, b: Part)
    ensures Absorb(env, g, [a, b]) == AbsorbPart(env, AbsorbPart(env, g, a), b)
  {
    assert [a, b][..1] == [a] && [a][..0] == [];
    assert Absorb(env, g, [a]) == AbsorbPart(env, g, a);
  }

  function BareCall(): Part {
    ToolUsePart("a", "Bash", JsonString(""), None, None)
  }

  lemma TwoBareCalls(env: Env, g: Group)
    requires g.tools == [] && GroupInv(g)
    ensures var r := Absorb(env, g, [BareCall(), BareCall()]);
            GroupInv(r) && r.tools == [NewCard(env, BareCall()), NewCard(env, BareCall())]
  {
    AbsorbTwo(env, g, BareCall(), BareCall());
    AbsorbKeeps(env, g, [BareCall(), BareCall()]);
  }

  /** The first row of a group is always absorbed. */
  lemma FirstRow(env: Env, m: Message)
    ensures FoldRow(env, NewGroup(m), m)
            == Absorb(env, Stamped(NewGroup(m), m).(foldedSigs := [SigOf(env, m.content)]), m.content)
  {
    var g1 := Stamped(NewGroup(m), m);
    assert g1.foldedSigs + [SigOf(env, m.content)] == [SigOf(env, m.content)];
  }

  lemma OneRowState(env: Env, m: Message)
    requires Classify(m) == AssistantRow
    ensures StateAt(env, [m], 1) == State([], 1, Some(FoldRow(env, NewGroup(m), m)))
  {
    assert StateAt(env, [m], 0) == State([], 1, None);
  }

  /** The same on a whole transcript: one finished assistant message that calls a tool
      twice under one id. */
  lemma DuplicateIdsInATranscript(env: Env, m: Message)
    requires Classify(m) == AssistantRow && m.content == [BareCall(), BareCall()]
    ensures var t := Turns(env, [m], false);
            && |t| == 1 && |ToolsOf(t[0])| == 2 && |Cards(BlocksOf(t[0]))| == 2
            && ToolsOf(t[0])[1].status == Succeeded
            && Cards(BlocksOf(t[0]))[1].status == Running
  {
    var g0 := Stamped(NewGroup(m), m).(foldedSigs := [SigOf(env, m.content)]);
    TwoBareCalls(env, g0);
    var g := Absorb(env, g0, m.content);
    FirstRow(env, m);
    OneRowState(env, m);
    DuplicateIdsSplitTheViews(env, g, NewCard(env, BareCall()));
    OneGroupTurns(env, [m], g);
    SettleFlat(env, g, FreezeAnchor(env, g), 2);
  }

  lemma OneGroupTurns(env: Env, msgs: seq<Message>, g: Group)
    requires StateAt(env, msgs, |msgs|) == State([], 1, Some(g))
    ensures var t := TurnOf(Settle(env, g), 1);
            && Turns(env, msgs, false) == [t]
            && ToolsOf(t) == Settle(env, g).tools && BlocksOf(t) == Settle(env, g).blocks
  {
    assert [] + [TurnOf(Settle(env, g), 1)] == [TurnOf(Settle(env, g), 1)];
  }

  /** Block normal form, for every transcript. */
  lemma BlockNormalForm(env: Env, msgs: seq<Message>, active: bool, i: nat)
    requires i < |Turns(env, msgs, active)| && Turns(env, msgs, active)[i].AssistantTurn?
    ensures var t := Turns(env, msgs, active)[i];
            && NormalForm(BlocksOf(t))
            && Join(Texts(BlocksOf(t)), "\n") == t.text
            && t.thinking == (if Thinkings(BlocksOf(t)) == [] then None
                              else Some(Join(Thinkings(BlocksOf(t)), "\n")))
  {
    TurnsInv(env, msgs, active, i);
  }

  /** The turn still open when a live session's transcript ends. */
  ghost predicate IsLiveTurn(env: Env, msgs: seq<Message>, active: bool, i: nat) {
    active && StateAt(env, msgs, |msgs|).group.Some? && i == |Turns(env, msgs, active)| - 1
  }

  lemma TurnsInv(env: Env, msgs: seq<Message>, active: bool, i: nat)
    requires i < |Turns(env, msgs, active)|
    ensures TurnInv(Turns(env, msgs, active)[i], !IsLiveTurn(env, msgs, active, i))
  {
    var s := StateAt(env, msgs, |msgs|);
    StatesKeep(env, msgs, |msgs|);
    if s.group.Some? {
      FlushedTurnInv(env, s.group.value, s.no, !active);
    }
  }

  /** The two tool views of every turn, for every transcript: the same calls in the same
      order always. In the live turn they are equal. In every other turn no card of the
      flat list is running, and the views are equal, and no card of the blocks is running,
      if and only if no id occurs twice in the turn. */
  lemma TwoViewsAgree(env: Env, msgs: seq<Message>, active: bool, i: nat)
    requires i < |Turns(env, msgs, active)| && Turns(env, msgs, active)[i].AssistantTurn?
    ensures var t := Turns(env, msgs, active)[i];
            && SameIds(Cards(BlocksOf(t)), ToolsOf(t))
            && (IsLiveTurn(env, msgs, active, i) ==> Cards(BlocksOf(t)) == ToolsOf(t))
            && (!IsLiveTurn(env, msgs, active, i) ==>
                  && NoneRunning(ToolsOf(t))
                  && (Cards(BlocksOf(t)) == ToolsOf(t) <==> DistinctIds(ToolsOf(t)))
                  && (NoneRunning(Cards(BlocksOf(t))) <==> DistinctIds(ToolsOf(t))))
  {
    TurnsInv(env, msgs, active, i);
  }

  // ---------------------------------------------------------------- tools only advance

  /** Cards keep their place and identity, and a settled card stays settled. */
  ghost predicate Advances(a: seq<ToolCall>, b: seq<ToolCall>) {
    && |a| <= |b|
    && (forall i :: 0 <= i < |a| ==>
          && a[i].id == b[i].id && a[i].name == b[i].name && a[i].arg == b[i].arg
          && (a[i].status != Running ==> b[i].status != Running))
  }

  lemma {:induction false} AbsorbAdvances(env: Env, g: Group, content: seq<Part>)
    ensures Advances(g.tools, Absorb(env, g, content).tools)
  {
    if content != [] {
      AbsorbAdvances(env, g, content[..|content| - 1]);
    }
  }

  lemma {:induction false} MergeAdvances(g: Group, content: seq<Part>)
    ensures Advances(g.tools, MergeExtras(g, content).tools)
  {
    if content != [] {
      MergeAdvances(g, content[..|content| - 1]);
    }
  }

  lemma FoldRowAdvances(env: Env, g: Group, m: Message)
    ensures Advances(g.tools, FoldRow(env, g, m).tools)
  {
    var g1 := Stamped(g, m);
    MergeAdvances(g1, m.content);
    AbsorbAdvances(env, g1.(foldedSigs := g1.foldedSigs + [SigOf(env, m.content)]), m.content);
  }

  /** One message: turns are only added, and a group that stays open only advances. */
  ghost predicate AdvancesTo(s: State, s': State) {
    && |s.turns| <= |s'.turns|
    && (s.group.Some? && s'.group.Some? && |s.turns| == |s'.turns| ==>
          Advances(s.group.value.tools, s'.group.value.tools))
    && (s.group.Some? && s'.group.None? ==> |s.turns| < |s'.turns|)
  }

  lemma StepAdvances(env: Env, s: State, m: Message, rest: seq<Message>)
    ensures AdvancesTo(s, Step(env, s, m, rest))
  {
    match Classify(m)
    case ToolResultRow => if s.group.Some? { AbsorbAdvances(env, s.group.value, m.content); }
    case AssistantRow => if s.group.Some? { FoldRowAdvances(env, s.group.value, m); }
    case _ =>
  }

  /** As long as a group stays open, from message `k` to message `n`, no card of it
      moves, changes identity or goes back to running. */
  lemma {:induction false} ToolsOnlyAdvance(env: Env, msgs: seq<Message>, k: nat, n: nat)
    requires k <= n <= |msgs|
    ensures AdvancesTo(StateAt(env, msgs, k), StateAt(env, msgs, n))
    decreases n
  {
    hide Step;
    if k < n {
      ToolsOnlyAdvance(env, msgs, k, n - 1);
      StepAdvances(env, StateAt(env, msgs, n - 1), msgs[n - 1], msgs[n..]);
    }
  }
}
