/** Duplicate assistant rows: a reply that arrives twice is shown once. */
module TranscriptDuplicates {
  import opened Wrappers
  import opened TranscriptTypes
  import opened TranscriptFold
  import opened TranscriptViews
  import opened TranscriptDecomposition

  // ---------------------------------------------------------------- covers

  lemma CoversIsPreorder(a: ContentSig, b: ContentSig, c: ContentSig)
    ensures Covers(a, a)
    ensures Covers(a, b) && Covers(b, c) ==> Covers(a, c)
  {
    if Covers(a, b) && Covers(b, c) {
      forall id | id in c.toolIds ensures id in a.toolIds { assert id in b.toolIds; }
      forall j | j in c.rest ensures j in a.rest { assert j in b.rest; }
    }
  }

  // ---------------------------------------------------------------- filling gaps

  /** `b` is `a` with at most its missing output and start stamp supplied. */
  ghost predicate Fills(a: ToolCall, b: ToolCall) {
    && b == a.(output := b.output, startedAtMs := b.startedAtMs)
    && (a.output.Some? ==> b.output == a.output)
    && (a.startedAtMs.Some? ==> b.startedAtMs == a.startedAtMs)
  }

  /** Text, thinking, block sequence, tool ids and statuses are untouched. */
  ghost predicate OnlyFills(g: Group, h: Group) {
    && h == g.(tools := h.tools, blocks := h.blocks)
    && SameButTools(g.blocks, h.blocks)
    && |h.tools| == |g.tools|
    && (forall i :: 0 <= i < |g.tools| ==> Fills(g.tools[i], h.tools[i]))
  }

  lemma MergePartOnlyFills(g: Group, c: Part)
    ensures OnlyFills(g, MergePart(g, c))
  {
    if c.ToolUsePart? && FindTool(g.tools, c.callId) < |g.tools| {
      PatchSameButTools(g.blocks, FilledCard(g.tools[FindTool(g.tools, c.callId)], c));
    }
  }

  lemma OnlyFillsTransitive(a: Group, b: Group, c: Group)
    requires OnlyFills(a, b) && OnlyFills(b, c)
    ensures OnlyFills(a, c)
  {
    SameButToolsTransitive(a.blocks, b.blocks, c.blocks);
    forall i | 0 <= i < |a.tools| ensures Fills(a.tools[i], c.tools[i]) {
      assert Fills(a.tools[i], b.tools[i]) && Fills(b.tools[i], c.tools[i]);
    }
  }

  lemma {:induction false} MergeOnlyFills(g: Group, content: seq<Part>)
    ensures OnlyFills(g, MergeExtras(g, content))
  {
    if content != [] {
      var g1 := MergeExtras(g, content[..|content| - 1]);
      MergeOnlyFills(g, content[..|content| - 1]);
      MergePartOnlyFills(g1, content[|content| - 1]);
      OnlyFillsTransitive(g, g1, MergeExtras(g, content));
    }
  }

  /** The part has nothing left to give to its card. */
  ghost predicate Spent(g: Group, c: Part) {
    c.ToolUsePart? ==>
      var i := FindTool(g.tools, c.callId);
      i < |g.tools| ==> FilledCard(g.tools[i], c) == g.tools[i]
  }

  lemma SpentStays(g: Group, h: Group, c: Part)
    requires Spent(g, c) && OnlyFills(g, h)
    ensures Spent(h, c)
  {
    if c.ToolUsePart? {
      forall i | 0 <= i < |g.tools| ensures g.tools[i].id == h.tools[i].id {
        assert Fills(g.tools[i], h.tools[i]);
      }
      FindToolSameIds(g.tools, h.tools, c.callId);
      var i := FindTool(g.tools, c.callId);
      if i < |g.tools| { assert Fills(g.tools[i], h.tools[i]); }
    }
  }

  lemma MergePartSpends(g: Group, c: Part)
    ensures Spent(MergePart(g, c), c)
  {
    if c.ToolUsePart? && FindTool(g.tools, c.callId) < |g.tools| {
      var i := FindTool(g.tools, c.callId);
      var h := MergePart(g, c);
      assert h.tools == g.tools[i := FilledCard(g.tools[i], c)];
      FindToolSameIds(g.tools, h.tools, c.callId);
    }
  }

  lemma {:induction false} MergeSpends(g: Group, content: seq<Part>)
    ensures forall i :: 0 <= i < |content| ==> Spent(MergeExtras(g, content), content[i])
  {
    if content != [] {
      var n := |content| - 1;
      var g1 := MergeExtras(g, content[..n]);
      MergeSpends(g, content[..n]);
      MergePartOnlyFills(g1, content[n]);
      MergePartSpends(g1, content[n]);
      forall i | 0 <= i < |content| ensures Spent(MergeExtras(g, content), content[i]) {
        if i < n {
          assert content[..n][i] == content[i];
          SpentStays(g1, MergeExtras(g, content), content[i]);
        }
      }
    }
  }

  lemma {:induction false} MergeSpentIsIdle(g: Group, content: seq<Part>)
    requires forall i :: 0 <= i < |content| ==> Spent(g, content[i])
    ensures MergeExtras(g, content) == g
  {
    if content != [] {
      var init := content[..|content| - 1];
      forall i | 0 <= i < |init| ensures Spent(g, init[i]) {
        assert init[i] == content[i];
      }
      MergeSpentIsIdle(g, init);
      assert Spent(g, content[|content| - 1]);
    }
  }

  /** Merging the same extras again changes nothing. */
  lemma MergeIsIdempotent(g: Group, content: seq<Part>)
    ensures MergeExtras(MergeExtras(g, content), content) == MergeExtras(g, content)
  {
    MergeSpends(g, content);
    MergeSpentIsIdle(MergeExtras(g, content), content);
  }

  // ---------------------------------------------------------------- one row, folded again

  lemma {:induction false} AbsorbKeepsStamps(env: Env, g: Group, content: seq<Part>)
    ensures var r := Absorb(env, g, content);
            && r.promptId == g.promptId && r.durationMs == g.durationMs
            && r.lastCreatedAt == g.lastCreatedAt && r.lastRowEndedAt == g.lastRowEndedAt
            && r.foldedSigs == g.foldedSigs && r.id == g.id
  {
    if content != [] { AbsorbKeepsStamps(env, g, content[..|content| - 1]); }
  }

  lemma FoldRowStamps(env: Env, g: Group, m: Message)
    ensures var r := FoldRow(env, g, m);
            && Stamped(r, m) == r && r.promptId == Stamped(g, m).promptId && r.id == g.id
            && r.durationMs == Stamped(g, m).durationMs && r.lastRowEndedAt == m.endedAt
  {
    var g1 := Stamped(g, m);
    MergeOnlyFills(g1, m.content);
    AbsorbKeepsStamps(env, g1.(foldedSigs := g1.foldedSigs + [SigOf(env, m.content)]), m.content);
  }

  /** After a row has been folded, its signature is on record exactly as long as the
      group's prompt id is known: only then is a second copy recognised. */
  lemma SecondCopyRecognisedIff(env: Env, g: Group, m: Message)
    ensures var r := FoldRow(env, g, m);
            AlreadyFolded(r, SigOf(env, m.content)) <==> Stamped(g, m).promptId.Some?
  {
    var g1, sig := Stamped(g, m), SigOf(env, m.content);
    MergeOnlyFills(g1, m.content);
    AbsorbKeepsStamps(env, g1.(foldedSigs := g1.foldedSigs + [sig]), m.content);
    if AlreadyFolded(g1, sig) {
    } else {
      CoversIsPreorder(sig, sig, sig);
      assert FoldRow(env, g, m).foldedSigs[|g1.foldedSigs|] == sig;
    }
  }

  /** The same blocks, each tool block with at most its gaps filled. */
  ghost predicate BlocksFill(a: seq<Block>, b: seq<Block>) {
    && |a| == |b|
    && (forall i :: 0 <= i < |a| ==>
          if a[i].ToolBlock? then b[i].ToolBlock? && Fills(a[i].tool, b[i].tool) else b[i] == a[i])
  }

  lemma {:induction false} CardsFillBlocks(a: seq<Block>, b: seq<Block>)
    requires SameButTools(a, b) && |Cards(a)| == |Cards(b)|
    requires forall i :: 0 <= i < |Cards(a)| ==> Fills(Cards(a)[i], Cards(b)[i])
    ensures BlocksFill(a, b)
  {
    if a != [] {
      var n := |a| - 1;
      var a0, b0 := Cards(a[..n]), Cards(b[..n]);
      assert a[n] == b[n] || (a[n].ToolBlock? && b[n].ToolBlock?);
      assert Cards(a) == (if a[n].ToolBlock? then a0 + [a[n].tool] else a0);
      assert Cards(b) == (if a[n].ToolBlock? then b0 + [b[n].tool] else b0);
      forall i | 0 <= i < |a0| ensures Fills(a0[i], b0[i]) { assert Cards(a)[i] == a0[i] && Cards(b)[i] == b0[i]; }
      CardsFillBlocks(a[..n], b[..n]);
      if a[n].ToolBlock? { assert Cards(a)[|a0|] == a[n].tool && Cards(b)[|a0|] == b[n].tool; }
      forall i | 0 <= i < n
        ensures if a[i].ToolBlock? then b[i].ToolBlock? && Fills(a[i].tool, b[i].tool) else b[i] == a[i]
      {
        assert a[..n][i] == a[i] && b[..n][i] == b[i];
      }
    }
  }

  /** A covered row, with a known prompt id, only fills gaps in the cards; in a group that
      some transcript leads to, in both views alike. */
  lemma CoveredRowOnlyFills(env: Env, g: Group, m: Message)
    requires AlreadyFolded(Stamped(g, m), SigOf(env, m.content))
    ensures OnlyFills(Stamped(g, m), FoldRow(env, g, m))
    ensures GroupInv(g) ==> GroupInv(FoldRow(env, g, m)) && BlocksFill(g.blocks, FoldRow(env, g, m).blocks)
  {
    hide SigOf, Covers, MergeExtras;
    MergeOnlyFills(Stamped(g, m), m.content);
    if GroupInv(g) {
      FoldRowKeeps(env, g, m);
      CardsFillBlocks(g.blocks, FoldRow(env, g, m).blocks);
    }
  }

  /** With a known prompt id: folding a row a second time only fills gaps, and a third
      time does nothing at all. */
  lemma FoldingAgain(env: Env, g: Group, m: Message)
    requires Stamped(g, m).promptId.Some?
    ensures var once := FoldRow(env, g, m);
            var twice := FoldRow(env, once, m);
            && OnlyFills(once, twice)
            && FoldRow(env, twice, m) == twice
  {
    var once := FoldRow(env, g, m);
    var twice := FoldRow(env, once, m);
    var sig := SigOf(env, m.content);
    FoldRowStamps(env, g, m);
    SecondCopyRecognisedIff(env, g, m);
    CoveredRowOnlyFills(env, once, m);
    assert twice == MergeExtras(once, m.content);
    FoldRowStamps(env, once, m);
    assert AlreadyFolded(twice, sig);
    MergeIsIdempotent(once, m.content);
  }

  // ---------------------------------------------------------------- whole transcripts

  /** Equal up to what a duplicate may fill in, and the frozen timing derived from it. */
  ghost predicate ToolEq(a: ToolCall, b: ToolCall) {
    b == a.(output := b.output, startedAtMs := b.startedAtMs, timing := b.timing)
  }

  ghost predicate BlockEq(a: Block, b: Block) {
    if a.ToolBlock? && b.ToolBlock? then ToolEq(a.tool, b.tool) else a == b
  }

  ghost predicate ToolsEq(a: seq<ToolCall>, b: seq<ToolCall>) {
    |a| == |b| && forall i :: 0 <= i < |a| ==> ToolEq(a[i], b[i])
  }

  ghost predicate BlocksEq(a: seq<Block>, b: seq<Block>) {
    |a| == |b| && forall i :: 0 <= i < |a| ==> BlockEq(a[i], b[i])
  }

  /** The same group but for its stamps and what a copy may fill in. */
  ghost predicate GroupEq(g: Group, h: Group) {
    && h == g.(tools := h.tools, blocks := h.blocks, durationMs := h.durationMs,
               lastRowEndedAt := h.lastRowEndedAt, lastCreatedAt := h.lastCreatedAt)
    && ToolsEq(g.tools, h.tools) && BlocksEq(g.blocks, h.blocks)
  }

  /** The same turn but for its duration and end, and for tool outputs, start stamps and
      timings. */
  ghost predicate TurnAlike(t: Turn, u: Turn) {
    if t.AssistantTurn? && u.AssistantTurn? then
      u == t.(tools := u.tools, blocks := u.blocks, durationMs := u.durationMs, endedAt := u.endedAt) &&
      ToolsEq(ToolsOf(t), ToolsOf(u)) && BlocksEq(BlocksOf(t), BlocksOf(u))
    else t == u
  }

  ghost predicate TurnsAlike(a: seq<Turn>, b: seq<Turn>) {
    |a| == |b| && forall i :: 0 <= i < |a| ==> TurnAlike(a[i], b[i])
  }

  ghost predicate StateEq(a: State, b: State) {
    && TurnsAlike(a.turns, b.turns) && a.no == b.no
    && (a.group.Some? <==> b.group.Some?)
    && (a.group.Some? ==> GroupEq(a.group.value, b.group.value))
  }

  lemma FindSame(g: Group, h: Group, id: string)
    requires GroupEq(g, h)
    ensures FindTool(g.tools, id) == FindTool(h.tools, id)
    ensures FindCard(g.blocks, id) == FindCard(h.blocks, id)
  {
    forall i | 0 <= i < |g.tools| ensures g.tools[i].id == h.tools[i].id {
      assert ToolEq(g.tools[i], h.tools[i]);
    }
    FindToolSameIds(g.tools, h.tools, id);
    forall i | 0 <= i < |g.blocks| ensures IsCard(g.blocks[i], id) == IsCard(h.blocks[i], id) {
      assert BlockEq(g.blocks[i], h.blocks[i]);
    }
    FindCardSame(g.blocks, h.blocks, id);
  }

  lemma FindCardSame(a: seq<Block>, b: seq<Block>, id: string)
    requires |a| == |b| && forall i :: 0 <= i < |a| ==> IsCard(a[i], id) == IsCard(b[i], id)
    ensures FindCard(a, id) == FindCard(b, id)
  {}

  lemma PatchEq(g: Group, h: Group, i: nat, a: ToolCall, b: ToolCall)
    requires GroupEq(g, h) && i < |g.tools| && ToolEq(a, b)
    ensures GroupEq(PatchTool(g, i, a), PatchTool(h, i, b))
  {
    FindSame(g, h, a.id);
  }

  lemma AppendEq(a: seq<Block>, b: seq<Block>, t: string)
    requires BlocksEq(a, b)
    ensures BlocksEq(AppendText(a, t), AppendText(b, t))
    ensures BlocksEq(AppendThinking(a, t), AppendThinking(b, t))
  {
    if a != [] { assert BlockEq(a[|a| - 1], b[|b| - 1]); }
  }

  lemma ResultEq(env: Env, g: Group, h: Group, c: Part)
    requires GroupEq(g, h) && c.ToolResultPart?
    ensures GroupEq(AbsorbPart(env, g, c), AbsorbPart(env, h, c))
  {
    FindSame(g, h, c.callId);
    var i := FindTool(g.tools, c.callId);
    if i < |g.tools| {
      assert ToolEq(g.tools[i], h.tools[i]);
      PatchEq(g, h, i, ResultCard(env, g.tools[i], c), ResultCard(env, h.tools[i], c));
    }
  }

  lemma {:induction false} AbsorbEq(env: Env, g: Group, h: Group, content: seq<Part>)
    requires GroupEq(g, h)
    ensures GroupEq(Absorb(env, g, content), Absorb(env, h, content))
  {
    if content != [] {
      var init, c := content[..|content| - 1], content[|content| - 1];
      AbsorbEq(env, g, h, init);
      var g1, h1 := Absorb(env, g, init), Absorb(env, h, init);
      AbsorbPartEq(env, g1, h1, c);
    }
  }

  lemma AbsorbPartEq(env: Env, g: Group, h: Group, c: Part)
    requires GroupEq(g, h)
    ensures GroupEq(AbsorbPart(env, g, c), AbsorbPart(env, h, c))
  {
    match c
    case TextPart(t) => AppendEq(g.blocks, h.blocks, t);
    case ThinkingPart(t) => AppendEq(g.blocks, h.blocks, t);
    case ToolUsePart(_, _, _, _, _) =>
    case ToolResultPart(_, _, _, _) => ResultEq(env, g, h, c);
    case OtherPart(_) =>
  }

  /** The first card with an id among the blocks is the first tool with that id. */
  lemma {:induction false} FirstCard(blocks: seq<Block>, id: string)
    ensures var j, i := FindCard(blocks, id), FindTool(Cards(blocks), id);
            if j < |blocks| then i < |Cards(blocks)| && blocks[j].tool == Cards(blocks)[i]
            else i == |Cards(blocks)|
  {
    if blocks != [] {
      var init, last := blocks[..|blocks| - 1], blocks[|blocks| - 1];
      FirstCard(init, id);
      if last.ToolBlock? {
        assert Cards(blocks)[..|Cards(blocks)| - 1] == Cards(init);
      }
    }
  }

  /** Filling gaps is invisible up to what it fills. */
  lemma MergePartEq(g: Group, c: Part)
    requires GroupInv(g)
    ensures GroupEq(g, MergePart(g, c)) && GroupInv(MergePart(g, c))
  {
    if c.ToolUsePart? && FindTool(g.tools, c.callId) < |g.tools| {
      var i := FindTool(g.tools, c.callId);
      FirstCard(g.blocks, c.callId);
      PatchKeeps(g, i, FilledCard(g.tools[i], c));
    }
  }

  lemma GroupEqTransitive(a: Group, b: Group, c: Group)
    requires GroupEq(a, b) && GroupEq(b, c)
    ensures GroupEq(a, c)
  {
    forall i | 0 <= i < |a.tools| ensures ToolEq(a.tools[i], c.tools[i]) {
      assert ToolEq(a.tools[i], b.tools[i]) && ToolEq(b.tools[i], c.tools[i]);
    }
    forall i | 0 <= i < |a.blocks| ensures BlockEq(a.blocks[i], c.blocks[i]) {
      assert BlockEq(a.blocks[i], b.blocks[i]) && BlockEq(b.blocks[i], c.blocks[i]);
    }
  }

  lemma GroupEqSymmetric(a: Group, b: Group)
    requires GroupEq(a, b)
    ensures GroupEq(b, a)
  {
    forall i | 0 <= i < |a.tools| ensures ToolEq(b.tools[i], a.tools[i]) {
      assert ToolEq(a.tools[i], b.tools[i]);
    }
    forall i | 0 <= i < |a.blocks| ensures BlockEq(b.blocks[i], a.blocks[i]) {
      assert BlockEq(a.blocks[i], b.blocks[i]);
    }
  }

  lemma {:induction false} MergeEq(g: Group, content: seq<Part>)
    requires GroupInv(g)
    ensures GroupEq(g, MergeExtras(g, content)) && GroupInv(MergeExtras(g, content))
  {
    if content != [] {
      var init := content[..|content| - 1];
      MergeEq(g, init);
      MergePartEq(MergeExtras(g, init), content[|content| - 1]);
      GroupEqTransitive(g, MergeExtras(g, init), MergeExtras(g, content));
    }
  }

  lemma FoldRowEq(env: Env, g: Group, h: Group, m: Message)
    requires GroupEq(g, h) && GroupInv(g) && GroupInv(h)
    ensures GroupEq(FoldRow(env, g, m), FoldRow(env, h, m))
  {
    var g1, h1 := Stamped(g, m), Stamped(h, m);
    var sig := SigOf(env, m.content);
    if AlreadyFolded(g1, sig) {
      MergeEq(g1, m.content);
      MergeEq(h1, m.content);
      GroupEqSymmetric(g1, MergeExtras(g1, m.content));
      GroupEqTransitive(MergeExtras(g1, m.content), g1, h1);
      GroupEqTransitive(MergeExtras(g1, m.content), h1, MergeExtras(h1, m.content));
    } else {
      AbsorbEq(env, g1.(foldedSigs := g1.foldedSigs + [sig]), h1.(foldedSigs := h1.foldedSigs + [sig]), m.content);
    }
  }

  lemma {:induction false} SettleEq(env: Env, g: Group, h: Group, a: Option<int>, b: Option<int>, n: nat)
    requires GroupEq(g, h) && n <= |g.tools|
    ensures GroupEq(SettleFirst(env, g, a, n), SettleFirst(env, h, b, n))
  {
    if n > 0 {
      hide FindCard, PatchTool;
      SettleEq(env, g, h, a, b, n - 1);
      var p, r := SettleFirst(env, g, a, n - 1), SettleFirst(env, h, b, n - 1);
      assert ToolEq(p.tools[n - 1], r.tools[n - 1]);
      PatchEq(p, r, n - 1, SettledCard(env, p.tools[n - 1], a), SettledCard(env, r.tools[n - 1], b));
    }
  }

  lemma TurnOfEq(g: Group, h: Group, no: nat)
    requires GroupEq(g, h)
    ensures TurnAlike(TurnOf(g, no), TurnOf(h, no))
  {
    var t, u := TurnOf(g, no), TurnOf(h, no);
    assert ToolsOf(t) == g.tools && ToolsOf(u) == h.tools;
    assert BlocksOf(t) == g.blocks && BlocksOf(u) == h.blocks;
  }

  lemma FlushEq(env: Env, a: State, b: State, settle: bool)
    requires StateEq(a, b)
    ensures StateEq(Flush(env, a, settle), Flush(env, b, settle))
  {
    if a.group.Some? {
      var g, h := a.group.value, b.group.value;
      SettleEq(env, g, h, FreezeAnchor(env, g), FreezeAnchor(env, h), |g.tools|);
      TurnOfEq(if settle then Settle(env, g) else g, if settle then Settle(env, h) else h, a.no);
    }
  }

  lemma BoundaryEq(env: Env, a: State, b: State, m: Message)
    requires StateEq(a, b)
    ensures StateEq(BoundaryStep(env, a, m), BoundaryStep(env, b, m))
  {
    FlushEq(env, a, b, true);
    if HasOwnTurn(m) {
      var t := OwnTurn(env, m, Flush(env, a, true).no);
      assert TurnAlike(t, t);
    }
  }

  lemma AssistantEq(env: Env, a: State, b: State, m: Message)
    requires StateEq(a, b) && StateInv(a) && StateInv(b)
    ensures StateEq(AssistantStep(env, a, m), AssistantStep(env, b, m))
  {
    if ContinuesGroup(a.group, m.promptId) {
      FoldRowEq(env, a.group.value, b.group.value, m);
    } else {
      FlushEq(env, a, b, true);
      assert GroupEq(FoldRow(env, NewGroup(m), m), FoldRow(env, NewGroup(m), m)) by { SelfEq(FoldRow(env, NewGroup(m), m)); }
    }
  }

  lemma SelfEq(g: Group)
    ensures GroupEq(g, g)
  {}

  lemma InlineEq(a: State, b: State, block: Block)
    requires StateEq(a, b) && a.group.Some?
    ensures StateEq(AddBlock(a, block), AddBlock(b, block))
  {
    var x, y := a.group.value.blocks, b.group.value.blocks;
    assert BlocksEq(x + [block], y + [block]);
  }

  /** One message keeps two transcripts that differ only in fillable gaps that close. */
  lemma StepEq(env: Env, a: State, b: State, m: Message, rest: seq<Message>)
    requires StateEq(a, b) && StateInv(a) && StateInv(b)
    ensures StateEq(Step(env, a, m, rest), Step(env, b, m, rest))
  {
    var row := Classify(m);
    if row == SkippedRow {
    } else if row == ToolResultRow {
      if a.group.Some? { AbsorbEq(env, a.group.value, b.group.value, m.content); }
    } else if row == AssistantRow {
      AssistantEq(env, a, b, m);
    } else if GoesInline(a, m, rest) {
      InlineEq(a, b, InlineBlock(env, m));
    } else {
      BoundaryEq(env, a, b, m);
    }
  }

  /** The next assistant row, if any, belongs to the same prompt. */
  ghost predicate SameNextPrompt(x: seq<Message>, y: seq<Message>) {
    && (NextAssistant(x).Some? <==> NextAssistant(y).Some?)
    && (NextAssistant(x).Some? ==> NextAssistant(x).value.promptId == NextAssistant(y).value.promptId)
  }

  lemma {:induction false} PrefixSame(env: Env, p: seq<Message>, x: seq<Message>, y: seq<Message>, k: nat)
    requires k <= |p| && SameNextPrompt(x, y)
    ensures StateAt(env, p + x, k) == StateAt(env, p + y, k)
  {
    if k > 0 {
      hide Step;
      PrefixSame(env, p, x, y, k - 1);
      assert (p + x)[k - 1] == p[k - 1] == (p + y)[k - 1];
      assert (p + x)[k..] == p[k..] + x && (p + y)[k..] == p[k..] + y;
      NextAssistantConcat(p[k..], x);
      NextAssistantConcat(p[k..], y);
      SameDecisionSameStep(env, StateAt(env, p + x, k - 1), p[k - 1], (p + x)[k..], (p + y)[k..]);
    }
  }

  /** `copy` is a second delivery of the row `m`: the same named prompt, and nothing said
      that `m` does not say. It may lack finished tools, part boundaries and stamps, have
      stamps of its own, and bring outputs and start stamps along. */
  ghost predicate IsCopyOf(env: Env, copy: Message, m: Message) {
    && Classify(m) == AssistantRow && Classify(copy) == AssistantRow
    && m.promptId.Some? && copy.promptId == m.promptId
    && Covers(SigOf(env, m.content), SigOf(env, copy.content))
  }

  /** What the row would be if it had come once, with the stamps the copy leaves behind. */
  function WithStampsOf(m: Message, copy: Message): Message {
    m.(durationMs := if copy.durationMs.Some? then copy.durationMs else m.durationMs,
       endedAt := copy.endedAt)
  }

  /** The group with other stamps. */
  function Restamped(g: Group, durationMs: Option<int>, endedAt: Option<string>, createdAt: string): Group {
    g.(durationMs := durationMs, lastRowEndedAt := endedAt, lastCreatedAt := createdAt)
  }

  lemma {:induction false} AbsorbRestamped(env: Env, g: Group, content: seq<Part>,
                                           d: Option<int>, e: Option<string>, c: string)
    ensures Absorb(env, Restamped(g, d, e, c), content) == Restamped(Absorb(env, g, content), d, e, c)
  {
    if content != [] {
      hide PatchCard, FindTool, AppendText, AppendThinking, ResultCard, NewCard, ApprovalFor;
      AbsorbRestamped(env, g, content[..|content| - 1], d, e, c);
    }
  }

  lemma {:induction false} MergeRestamped(g: Group, content: seq<Part>, d: Option<int>, e: Option<string>, c: string)
    ensures MergeExtras(Restamped(g, d, e, c), content) == Restamped(MergeExtras(g, content), d, e, c)
  {
    if content != [] {
      hide PatchCard, FindTool, FilledCard;
      MergeRestamped(g, content[..|content| - 1], d, e, c);
    }
  }

  /** Rows that differ only in their stamps are folded alike. */
  lemma FoldRestamped(env: Env, g: Group, h: Group, m: Message, other: Message)
    requires h == Restamped(g, h.durationMs, h.lastRowEndedAt, h.lastCreatedAt)
    requires other.content == m.content && other.promptId == m.promptId
    ensures var r := Stamped(h, other);
            FoldRow(env, h, other) == Restamped(FoldRow(env, g, m), r.durationMs, r.lastRowEndedAt, r.lastCreatedAt)
  {
    hide Absorb, MergeExtras, SigOf;
    var g1, r := Stamped(g, m), Stamped(h, other);
    var sig := SigOf(env, m.content);
    assert r == Restamped(g1, r.durationMs, r.lastRowEndedAt, r.lastCreatedAt);
    MergeRestamped(g1, m.content, r.durationMs, r.lastRowEndedAt, r.lastCreatedAt);
    AbsorbRestamped(env, g1.(foldedSigs := g1.foldedSigs + [sig]), m.content,
                    r.durationMs, r.lastRowEndedAt, r.lastCreatedAt);
  }

  lemma FoldCopy(env: Env, g: Group, m: Message, copy: Message)
    requires IsCopyOf(env, copy, m) && Stamped(g, m).promptId == m.promptId
    ensures var once := FoldRow(env, g, m);
            FoldRow(env, once, copy) == MergeExtras(Stamped(once, copy), copy.content)
  {
    hide MergeExtras, Absorb, SigOf, Covers;
    var once, sig := FoldRow(env, g, m), SigOf(env, m.content);
    FoldRowStamps(env, g, m);
    SecondCopyRecognisedIff(env, g, m);
    var i :| 0 <= i < |once.foldedSigs| && Covers(once.foldedSigs[i], sig);
    CoversIsPreorder(once.foldedSigs[i], sig, SigOf(env, copy.content));
    assert Covers(Stamped(once, copy).foldedSigs[i], SigOf(env, copy.content));
  }

  /** Row and copy, against the row alone with the stamps the copy leaves. */
  lemma FoldPair(env: Env, g: Group, h: Group, m: Message, copy: Message)
    requires IsCopyOf(env, copy, m) && Stamped(g, m).promptId == m.promptId && GroupInv(g)
    requires h == g || (g == NewGroup(m) && h == NewGroup(WithStampsOf(m, copy)))
    ensures GroupEq(FoldRow(env, h, WithStampsOf(m, copy)), FoldRow(env, FoldRow(env, g, m), copy))
  {
    hide FoldRow, MergeExtras, Absorb, SigOf, Covers, GroupInv;
    var once, one := FoldRow(env, g, m), WithStampsOf(m, copy);
    FoldCopy(env, g, m, copy);
    FoldRestamped(env, g, h, m, one);
    FoldRowStamps(env, g, m);
    FoldRowKeeps(env, g, m);
    var r := Stamped(once, copy);
    assert GroupInv(r) by { StampsKeepInv(once, r); }
    MergeEq(r, copy.content);
    SelfEq(r);
    assert FoldRow(env, h, one) == r.(lastCreatedAt := m.createdAt);
    assert GroupEq(FoldRow(env, h, one), r) by { SelfEq(r.(lastCreatedAt := m.createdAt)); }
    GroupEqTransitive(FoldRow(env, h, one), r, MergeExtras(r, copy.content));
  }

  lemma StampsKeepInv(g: Group, h: Group)
    requires GroupInv(g) && h.tools == g.tools && h.blocks == g.blocks
    requires h.textParts == g.textParts && h.thinkingParts == g.thinkingParts
    ensures GroupInv(h)
  {}

  lemma StepPair(env: Env, s: State, m: Message, copy: Message)
    requires StateInv(s) && IsCopyOf(env, copy, m)
    ensures var one := AssistantStep(env, s, WithStampsOf(m, copy));
            StateEq(one, AssistantStep(env, AssistantStep(env, s, m), copy))
  {
    hide Covers, SigOf, Flush, FoldRow, MergeExtras, GroupEq, RepeatsRun, GroupInv;
    var once, one := AssistantStep(env, s, m), WithStampsOf(m, copy);
    var goesOn := ContinuesGroup(s.group, m.promptId);
    var g, h := if goesOn then s.group.value else NewGroup(m), if goesOn then s.group.value else NewGroup(one);
    assert GroupInv(g) by { if !goesOn { NewGroupInv(m); } }
    FoldRowStamps(env, g, m);
    FoldPair(env, g, h, m, copy);
    SelfTurnsAlike(AssistantStep(env, s, one).turns);
  }

  lemma NewGroupInv(m: Message)
    ensures GroupInv(NewGroup(m))
  {}

  lemma SelfTurnsAlike(turns: seq<Turn>)
    ensures TurnsAlike(turns, turns)
  {}

  /** The same next message, with the same messages to come. */
  lemma NextSame(env: Env, x: seq<Message>, k: nat, y: seq<Message>, l: nat)
    requires k < |x| && l < |y| && x[k] == y[l] && x[k + 1..] == y[l + 1..]
    requires StateEq(StateAt(env, x, k), StateAt(env, y, l))
    ensures StateEq(StateAt(env, x, k + 1), StateAt(env, y, l + 1))
  {
    var a, b := StateAt(env, x, k), StateAt(env, y, l);
    assert StateInv(a) by { StatesKeep(env, x, k); }
    assert StateInv(b) by { StatesKeep(env, y, l); }
    StepEq(env, a, b, x[k], x[k + 1..]);
  }

  lemma {:induction false} SuffixSame(env: Env, x: seq<Message>, k: nat, y: seq<Message>, l: nat)
    requires k <= |x| && l <= |y| && x[k..] == y[l..]
    requires StateEq(StateAt(env, x, k), StateAt(env, y, l))
    ensures StateEq(StateAt(env, x, |x|), StateAt(env, y, |y|))
    decreases |x| - k
  {
    assert |x| - k == |x[k..]| == |y[l..]| == |y| - l;
    if k < |x| {
      assert x[k] == x[k..][0] == y[l..][0] == y[l];
      assert x[k + 1..] == x[k..][1..] == y[l..][1..] == y[l + 1..];
      NextSame(env, x, k, y, l);
      SuffixSame(env, x, k + 1, y, l + 1);
    }
  }

  /** Without a prompt id there is no protection: the same text is shown twice. */
  lemma UnnamedDuplicateShowsTwice(env: Env, m: Message, t: string)
    requires Classify(m) == AssistantRow && m.promptId.None? && m.content == [TextPart(t)] && t != ""
    ensures |Turns(env, [m, m], false)| == 1
    ensures Turns(env, [m, m], false)[0].text == t + "\n" + t
  {
    var g1 := FoldRow(env, NewGroup(m), m);
    OneText(env, NewGroup(m), m, t);
    OneText(env, g1, m, t);
    TwoUnnamedRows(env, m);
    OneGroupTurns(env, [m, m], FoldRow(env, g1, m));
    SettleFlat(env, FoldRow(env, g1, m), FreezeAnchor(env, FoldRow(env, g1, m)), |FoldRow(env, g1, m).tools|);
    JoinSnoc([t], t);
    assert [] + [t] == [t];
  }

  lemma TwoUnnamedRows(env: Env, m: Message)
    requires Classify(m) == AssistantRow && m.promptId.None?
    ensures StateAt(env, [m, m], 2) == State([], 1, Some(FoldRow(env, FoldRow(env, NewGroup(m), m), m)))
  {
    var s0, s1 := StateAt(env, [m, m], 0), StateAt(env, [m, m], 1);
    assert s0 == State([], 1, None);
    assert s1 == AssistantStep(env, s0, m) == State([], 1, Some(FoldRow(env, NewGroup(m), m)));
    assert StateAt(env, [m, m], 2) == AssistantStep(env, s1, m);
  }

  lemma OneText(env: Env, g: Group, m: Message, t: string)
    requires m.promptId.None? && g.promptId.None? && m.content == [TextPart(t)] && t != ""
    ensures FoldRow(env, g, m).textParts == g.textParts + [t] && FoldRow(env, g, m).promptId.None?
  {
    var g1 := Stamped(g, m);
    var g2 := g1.(foldedSigs := g1.foldedSigs + [SigOf(env, m.content)]);
    assert m.content[..0] == [];
    assert Absorb(env, g2, m.content) == AbsorbPart(env, g2, TextPart(t));
  }
}
