/** Cutting a transcript at a hard boundary: when the two halves can be rendered apart. */
module TranscriptDecomposition {
  import opened Wrappers
  import opened TranscriptTypes
  import opened TranscriptFold
  import opened TranscriptViews

  // ---------------------------------------------------------------- shifting numbers

  function ShiftTurn(t: Turn, shift: nat): Turn {
    t.(no := t.no + shift)
  }

  function Shift(turns: seq<Turn>, shift: nat): (r: seq<Turn>)
    ensures |r| == |turns|
    ensures forall i :: 0 <= i < |turns| ==> r[i] == ShiftTurn(turns[i], shift)
  {
    if turns == [] then [] else Shift(turns[..|turns| - 1], shift) + [ShiftTurn(turns[|turns| - 1], shift)]
  }

  /** How many gutter numbers a finished transcript uses up. */
  function Consumed(env: Env, msgs: seq<Message>): int {
    FinalState(env, msgs, false).no - 1
  }

  /** `b` is what `a` becomes behind the turns `before`, with `shift` numbers gone. */
  ghost predicate Shifted(a: State, b: State, before: seq<Turn>, shift: nat) {
    && b.turns == before + Shift(a.turns, shift)
    && b.no == a.no + shift
    && b.group == a.group
  }

  lemma ShiftedFlush(env: Env, a: State, b: State, before: seq<Turn>, shift: nat, settle: bool)
    requires Shifted(a, b, before, shift)
    ensures Shifted(Flush(env, a, settle), Flush(env, b, settle), before, shift)
  {
    hide Shift, SettleFirst, Join;
    if a.group.Some? {
      var g := if settle then Settle(env, a.group.value) else a.group.value;
      ShiftedPush(a.turns, TurnOf(g, a.no), before, shift);
    }
  }

  lemma ShiftedPush(turns: seq<Turn>, t: Turn, before: seq<Turn>, shift: nat)
    ensures before + Shift(turns + [t], shift) == (before + Shift(turns, shift)) + [ShiftTurn(t, shift)]
  {
    assert (turns + [t])[..|turns|] == turns;
  }

  lemma OwnTurnShifts(env: Env, m: Message, no: nat, shift: nat)
    requires HasOwnTurn(m)
    ensures OwnTurn(env, m, no + shift) == ShiftTurn(OwnTurn(env, m, no), shift)
  {}

  lemma ShiftedBoundary(env: Env, a: State, b: State, m: Message, before: seq<Turn>, shift: nat)
    requires Shifted(a, b, before, shift)
    ensures Shifted(BoundaryStep(env, a, m), BoundaryStep(env, b, m), before, shift)
  {
    hide Flush, OwnTurn, TakesNumber, HasOwnTurn;
    ShiftedFlush(env, a, b, before, shift, true);
    if HasOwnTurn(m) {
      var a1 := Flush(env, a, true);
      OwnTurnShifts(env, m, a1.no, shift);
      ShiftedPush(a1.turns, OwnTurn(env, m, a1.no), before, shift);
    }
  }

  lemma ShiftedStep(env: Env, a: State, b: State, m: Message, rest: seq<Message>, before: seq<Turn>, shift: nat)
    requires Shifted(a, b, before, shift)
    ensures Shifted(Step(env, a, m, rest), Step(env, b, m, rest), before, shift)
  {
    var row := Classify(m);
    if row == AssistantRow {
      ShiftedAssistant(env, a, b, m, before, shift);
    } else if row == SkippedRow || row == ToolResultRow || GoesInline(a, m, rest) {
      assert Step(env, a, m, rest) == a.(group := Step(env, a, m, rest).group);
      assert Step(env, b, m, rest) == b.(group := Step(env, a, m, rest).group);
    } else {
      ShiftedBoundary(env, a, b, m, before, shift);
    }
  }

  lemma ShiftedAssistant(env: Env, a: State, b: State, m: Message, before: seq<Turn>, shift: nat)
    requires Shifted(a, b, before, shift)
    ensures Shifted(AssistantStep(env, a, m), AssistantStep(env, b, m), before, shift)
  {
    if !ContinuesGroup(a.group, m.promptId) {
      ShiftedFlush(env, a, b, before, shift, true);
    }
  }

  // ---------------------------------------------------------------- the look-ahead

  lemma {:induction false} NextAssistantConcat(p: seq<Message>, q: seq<Message>)
    ensures NextAssistant(p + q) == if NextAssistant(p).Some? then NextAssistant(p) else NextAssistant(q)
  {
    if p == [] {
      assert p + q == q;
    } else {
      assert (p + q)[1..] == p[1..] + q;
      NextAssistantConcat(p[1..], q);
    }
  }

  /** The background-task notice at `i` decides the same way whether or not `q` follows:
      an assistant row of `p` comes after it, or no group is open, or `q` has no assistant
      row, or `q`'s first assistant row would continue the open group. */
  ghost predicate NoticeAgrees(env: Env, p: seq<Message>, q: seq<Message>, i: nat)
    requires i < |p|
  {
    Classify(p[i]) == NoticeRow && NextAssistant(p[i + 1..]).None? && StateAt(env, p, i).group.Some? ==>
      NextAssistant(q).None? ||
      Continues(StateAt(env, p, i).group.value.promptId, NextAssistant(q).value.promptId)
  }

  ghost predicate NoticesAgree(env: Env, p: seq<Message>, q: seq<Message>, n: nat)
    requires n <= |p|
  {
    forall i :: 0 <= i < n ==> NoticeAgrees(env, p, q, i)
  }

  lemma NoticeAgreesSteered(env: Env, p: seq<Message>, q: seq<Message>, i: nat)
    requires i < |p| && Classify(p[i]) == NoticeRow
    ensures var g := StateAt(env, p, i).group;
            NoticeAgrees(env, p, q, i) <==> Steered(g, p[i + 1..]) == Steered(g, (p + q)[i + 1..])
  {
    assert (p + q)[i + 1..] == p[i + 1..] + q;
    NextAssistantConcat(p[i + 1..], q);
  }

  /** Up to the first notice that decides otherwise, `q` is not felt. */
  lemma {:induction false} PrefixUnaffected(env: Env, p: seq<Message>, q: seq<Message>, k: nat)
    requires k <= |p| && NoticesAgree(env, p, q, k)
    ensures StateAt(env, p + q, k) == StateAt(env, p, k)
  {
    hide Step;
    if k > 0 {
      PrefixUnaffected(env, p, q, k - 1);
      assert (p + q)[k - 1] == p[k - 1];
      if Classify(p[k - 1]) == NoticeRow {
        assert NoticeAgrees(env, p, q, k - 1);
        NoticeAgreesSteered(env, p, q, k - 1);
      }
      SameDecisionSameStep(env, StateAt(env, p, k - 1), p[k - 1], p[k..], (p + q)[k..]);
    }
  }

  /** A step looks at what follows only to place a notice. */
  lemma SameDecisionSameStep(env: Env, s: State, m: Message, rest: seq<Message>, rest': seq<Message>)
    requires Classify(m) == NoticeRow ==> Steered(s.group, rest) == Steered(s.group, rest')
    ensures Step(env, s, m, rest) == Step(env, s, m, rest')
  {}

  // ---------------------------------------------------------------- the second half

  /** A hard boundary closes the group it finds. */
  lemma BoundaryCloses(env: Env, s: State, m: Message, rest: seq<Message>)
    requires IsHardBoundary(m)
    ensures Step(env, s, m, rest) == Step(env, Flush(env, s, true), m, rest)
  {}

  lemma StepFromClosed(env: Env, s: State, m: Message, rest: seq<Message>)
    requires IsHardBoundary(m) && s.no >= 1
    ensures var done := Flush(env, s, true);
            && done.no >= 1
            && Shifted(Step(env, State([], 1, None), m, rest), Step(env, s, m, rest), done.turns, done.no - 1)
  {
    hide Step, IsHardBoundary, Settle, TurnOf;
    var empty, done := State([], 1, None), Flush(env, s, true);
    BoundaryCloses(env, s, m, rest);
    assert done.turns + Shift([], done.no - 1) == done.turns;
    assert Shifted(empty, done, done.turns, done.no - 1);
    ShiftedStep(env, empty, done, m, rest, done.turns, done.no - 1);
  }

  lemma FirstOfSuffix(env: Env, p: seq<Message>, q: seq<Message>)
    requires q != [] && IsHardBoundary(q[0])
    requires StateAt(env, p + q, |p|) == StateAt(env, p, |p|)
    ensures Consumed(env, p) >= 0
    ensures Shifted(StateAt(env, q, 1), StateAt(env, p + q, |p| + 1), Turns(env, p, false), Consumed(env, p))
  {
    hide Step, IsHardBoundary, Shifted, Flush;
    var s := StateAt(env, p, |p|);
    ConsumedNat(env, p, |p|);
    StepFromClosed(env, s, q[0], q[1..]);
    assert (p + q)[|p|] == q[0] && (p + q)[|p| + 1..] == q[1..];
    assert StateAt(env, p + q, |p| + 1) == Step(env, s, q[0], q[1..]);
    assert StateAt(env, q, 1) == Step(env, State([], 1, None), q[0], q[1..]);
  }

  lemma {:induction false} SuffixShifted(env: Env, p: seq<Message>, q: seq<Message>, j: nat)
    requires 0 < j <= |q| && IsHardBoundary(q[0])
    requires StateAt(env, p + q, |p|) == StateAt(env, p, |p|)
    ensures Consumed(env, p) >= 0
    ensures Shifted(StateAt(env, q, j), StateAt(env, p + q, |p| + j), Turns(env, p, false), Consumed(env, p))
  {
    hide Step, Shifted, Turns, Consumed;
    if j == 1 {
      FirstOfSuffix(env, p, q);
    } else {
      SuffixShifted(env, p, q, j - 1);
      var a, b := StateAt(env, q, j - 1), StateAt(env, p + q, |p| + j - 1);
      assert (p + q)[|p| + j - 1] == q[j - 1] && (p + q)[|p| + j..] == q[j..];
      assert StateAt(env, q, j) == Step(env, a, q[j - 1], q[j..]);
      assert StateAt(env, p + q, |p| + j) == Step(env, b, q[j - 1], q[j..]);
      ShiftedStep(env, a, b, q[j - 1], q[j..], Turns(env, p, false), Consumed(env, p));
    }
  }

  lemma {:induction false} ConsumedNat(env: Env, msgs: seq<Message>, k: nat)
    requires k <= |msgs|
    ensures StateAt(env, msgs, k).no >= 1
  {
    if k > 0 { ConsumedNat(env, msgs, k - 1); }
  }

  // ---------------------------------------------------------------- when a notice differs

  function NoticeCount(blocks: seq<Block>): nat {
    if blocks == [] then 0
    else NoticeCount(blocks[..|blocks| - 1]) + (if blocks[|blocks| - 1].NoticeBlock? then 1 else 0)
  }

  lemma NoticeCountSnoc(blocks: seq<Block>, b: Block)
    ensures NoticeCount(blocks + [b]) == NoticeCount(blocks) + (if b.NoticeBlock? then 1 else 0)
  {
    assert (blocks + [b])[..|blocks|] == blocks;
  }

  lemma {:induction false} SameButToolsKeepsCount(a: seq<Block>, b: seq<Block>)
    requires SameButTools(a, b)
    ensures NoticeCount(a) == NoticeCount(b)
  {
    if a != [] {
      SameButToolsKeepsCount(a[..|a| - 1], b[..|b| - 1]);
    }
  }

  lemma ReplaceLastCount(blocks: seq<Block>, b: Block)
    requires blocks != [] && !b.NoticeBlock? && !blocks[|blocks| - 1].NoticeBlock?
    ensures NoticeCount(blocks[|blocks| - 1 := b]) == NoticeCount(blocks)
  {
    assert blocks[|blocks| - 1 := b][..|blocks| - 1] == blocks[..|blocks| - 1];
  }

  lemma AppendKeepsCount(blocks: seq<Block>, t: string)
    ensures NoticeCount(AppendText(blocks, t)) == NoticeCount(blocks)
    ensures NoticeCount(AppendThinking(blocks, t)) == NoticeCount(blocks)
  {
    NoticeCountSnoc(blocks, TextBlock(t));
    NoticeCountSnoc(blocks, ThinkingBlock(t));
    if blocks != [] && blocks[|blocks| - 1].TextBlock? {
      ReplaceLastCount(blocks, TextBlock(blocks[|blocks| - 1].text + "\n" + t));
    }
    if blocks != [] && blocks[|blocks| - 1].ThinkingBlock? {
      ReplaceLastCount(blocks, ThinkingBlock(blocks[|blocks| - 1].thinking + "\n" + t));
    }
  }

  lemma PatchKeepsCount(blocks: seq<Block>, tool: ToolCall)
    ensures NoticeCount(PatchCard(blocks, tool)) == NoticeCount(blocks)
  {
    PatchSameButTools(blocks, tool);
    SameButToolsKeepsCount(blocks, PatchCard(blocks, tool));
  }

  lemma {:induction false} AbsorbKeepsCount(env: Env, g: Group, content: seq<Part>)
    ensures NoticeCount(Absorb(env, g, content).blocks) == NoticeCount(g.blocks)
  {
    if content != [] {
      var g1, c := Absorb(env, g, content[..|content| - 1]), content[|content| - 1];
      AbsorbKeepsCount(env, g, content[..|content| - 1]);
      match c
      case TextPart(t) => AppendKeepsCount(g1.blocks, t);
      case ThinkingPart(t) => AppendKeepsCount(g1.blocks, t);
      case ToolUsePart(_, _, _, _, _) => NoticeCountSnoc(g1.blocks, ToolBlock(NewCard(env, c)));
      case ToolResultPart(id, _, _, _) =>
        if FindTool(g1.tools, id) < |g1.tools| {
          PatchKeepsCount(g1.blocks, ResultCard(env, g1.tools[FindTool(g1.tools, id)], c));
        }
      case OtherPart(_) =>
    }
  }

  lemma {:induction false} MergeKeepsCount(g: Group, content: seq<Part>)
    ensures NoticeCount(MergeExtras(g, content).blocks) == NoticeCount(g.blocks)
  {
    if content != [] {
      var g1, c := MergeExtras(g, content[..|content| - 1]), content[|content| - 1];
      MergeKeepsCount(g, content[..|content| - 1]);
      if c.ToolUsePart? && FindTool(g1.tools, c.callId) < |g1.tools| {
        PatchKeepsCount(g1.blocks, FilledCard(g1.tools[FindTool(g1.tools, c.callId)], c));
      }
    }
  }

  lemma FoldRowKeepsCount(env: Env, g: Group, m: Message)
    ensures NoticeCount(FoldRow(env, g, m).blocks) == NoticeCount(g.blocks)
  {
    var g1 := Stamped(g, m);
    MergeKeepsCount(g1, m.content);
    AbsorbKeepsCount(env, g1.(foldedSigs := g1.foldedSigs + [SigOf(env, m.content)]), m.content);
  }

  /** Turn number `n` (counting from 0), flushed or still open, has at least `c` notices. */
  ghost predicate HasNotices(s: State, n: nat, c: nat) {
    || (|s.turns| == n && s.group.Some? && NoticeCount(s.group.value.blocks) >= c)
    || (|s.turns| > n && s.turns[n].AssistantTurn? && NoticeCount(BlocksOf(s.turns[n])) >= c)
  }

  lemma FlushedCount(env: Env, g: Group, no: nat, settle: bool)
    ensures var t := TurnOf(if settle then Settle(env, g) else g, no);
            t.AssistantTurn? && NoticeCount(BlocksOf(t)) == NoticeCount(g.blocks)
  {
    if settle {
      SettleSameButTools(env, g, FreezeAnchor(env, g), |g.tools|);
      SameButToolsKeepsCount(g.blocks, Settle(env, g).blocks);
    }
    var g1 := if settle then Settle(env, g) else g;
    assert BlocksOf(TurnOf(g1, no)) == g1.blocks;
  }

  lemma FlushKeepsNotices(env: Env, s: State, n: nat, c: nat, settle: bool)
    requires HasNotices(s, n, c)
    ensures HasNotices(Flush(env, s, settle), n, c)
    ensures |Flush(env, s, settle).turns| > n
  {
    if s.group.Some? { FlushedCount(env, s.group.value, s.no, settle); }
  }

  lemma StepKeepsNotices(env: Env, s: State, m: Message, rest: seq<Message>, n: nat, c: nat)
    requires HasNotices(s, n, c)
    ensures HasNotices(Step(env, s, m, rest), n, c)
  {
    hide Flush, FoldRow, Absorb, NoticeCount, InlineBlock;
    FlushKeepsNotices(env, s, n, c, true);
    if s.group.Some? {
      FoldRowKeepsCount(env, s.group.value, m);
      AbsorbKeepsCount(env, s.group.value, m.content);
      if GoesInline(s, m, rest) { NoticeCountSnoc(s.group.value.blocks, InlineBlock(env, m)); }
    }
  }

  lemma {:induction false} NoticesStay(env: Env, msgs: seq<Message>, k0: nat, k: nat, n: nat, c: nat)
    requires k0 <= k <= |msgs| && HasNotices(StateAt(env, msgs, k0), n, c)
    ensures HasNotices(StateAt(env, msgs, k), n, c)
    decreases k
  {
    hide Step, HasNotices;
    if k0 < k {
      NoticesStay(env, msgs, k0, k - 1, n, c);
      StepKeepsNotices(env, StateAt(env, msgs, k - 1), msgs[k - 1], msgs[k..], n, c);
    }
  }

  lemma OneStep(env: Env, msgs: seq<Message>, k: nat)
    requires k < |msgs|
    ensures StateAt(env, msgs, k + 1) == Step(env, StateAt(env, msgs, k), msgs[k], msgs[k + 1..])
  {}

  lemma FlushNothing(env: Env, s: State)
    requires s.group.None?
    ensures Flush(env, s, true) == s
  {}

  lemma StepExtends(env: Env, s: State, m: Message, rest: seq<Message>)
    ensures s.turns <= Step(env, s, m, rest).turns
  {}

  lemma {:induction false} TurnsStay(env: Env, msgs: seq<Message>, k0: nat, k: nat)
    requires k0 <= k <= |msgs|
    ensures StateAt(env, msgs, k0).turns <= StateAt(env, msgs, k).turns
    decreases k
  {
    hide Step;
    if k0 < k {
      TurnsStay(env, msgs, k0, k - 1);
      StepExtends(env, StateAt(env, msgs, k - 1), msgs[k - 1], msgs[k..]);
    }
  }

  lemma FoldedNoticeStep(env: Env, s: State, m: Message, rest: seq<Message>)
    requires Classify(m) == NoticeRow && Steered(s.group, rest)
    ensures HasNotices(Step(env, s, m, rest), |s.turns|, NoticeCount(s.group.value.blocks) + 1)
  {
    NoticeCountSnoc(s.group.value.blocks, InlineBlock(env, m));
  }

  lemma StandaloneNoticeStep(env: Env, s: State, m: Message, rest: seq<Message>)
    requires Classify(m) == NoticeRow && s.group.Some? && !Steered(s.group, rest)
    ensures var s' := Step(env, s, m, rest);
            && |s.turns| < |s'.turns|
            && NoticeCount(BlocksOf(s'.turns[|s.turns|])) == NoticeCount(s.group.value.blocks)
  {
    FlushedCount(env, s.group.value, s.no, true);
    assert Step(env, s, m, rest) == BoundaryStep(env, s, m);
  }

  /** A notice folded inline leaves one more notice in the turn it went into. */
  lemma FoldedNoticeStays(env: Env, p: seq<Message>, i: nat, active: bool)
    requires i < |p| && Classify(p[i]) == NoticeRow
    requires Steered(StateAt(env, p, i).group, p[i + 1..])
    ensures var s := StateAt(env, p, i);
            HasNotices(FinalState(env, p, active), |s.turns|, NoticeCount(s.group.value.blocks) + 1)
            && |s.turns| < |Turns(env, p, active)|
  {
    var s := StateAt(env, p, i);
    var n, c := |s.turns|, NoticeCount(s.group.value.blocks) + 1;
    FoldedNoticeStep(env, s, p[i], p[i + 1..]);
    NoticesStay(env, p, i + 1, |p|, n, c);
    FlushKeepsNotices(env, StateAt(env, p, |p|), n, c, !active);
  }

  /** A notice that stands alone ends the turn before it as it is. */
  lemma StandaloneNoticeCuts(env: Env, p: seq<Message>, i: nat, active: bool)
    requires i < |p| && Classify(p[i]) == NoticeRow && StateAt(env, p, i).group.Some?
    requires !Steered(StateAt(env, p, i).group, p[i + 1..])
    ensures var s := StateAt(env, p, i);
            && |s.turns| < |Turns(env, p, active)|
            && NoticeCount(BlocksOf(Turns(env, p, active)[|s.turns|])) == NoticeCount(s.group.value.blocks)
  {
    var s, s' := StateAt(env, p, i), StateAt(env, p, i + 1);
    StandaloneNoticeStep(env, s, p[i], p[i + 1..]);
    TurnsStay(env, p, i + 1, |p|);
    var last := StateAt(env, p, |p|);
    assert s'.turns <= last.turns <= Flush(env, last, !active).turns;
  }

  /** The first notice that decides otherwise leaves a trace: without `q` it is one more
      inline block of a turn, with `q` that turn was flushed just before it. */
  lemma DisagreementShows(env: Env, p: seq<Message>, q: seq<Message>, i: nat, active: bool)
    requires i < |p| && NoticesAgree(env, p, q, i) && !NoticeAgrees(env, p, q, i)
    ensures var n := |StateAt(env, p, i).turns|;
            && n < |Turns(env, p, false)| && n < |Turns(env, p + q, active)|
            && Turns(env, p, false)[n] != Turns(env, p + q, active)[n]
  {
    PrefixUnaffected(env, p, q, i);
    NoticeAgreesSteered(env, p, q, i);
    assert (p + q)[i] == p[i];
    FoldedNoticeStays(env, p, i, false);
    StandaloneNoticeCuts(env, p + q, i, active);
  }

  // ---------------------------------------------------------------- the theorem

  /** If `q` starts with a hard boundary, then the turns of `p + q` are the turns of `p`
      rendered as a finished transcript followed by the turns of `q` with their numbers
      moved up by those `p` used, if and only if no notice of `p` is placed differently
      because of what `q` says next. */
  lemma Decomposition(env: Env, p: seq<Message>, q: seq<Message>, active: bool)
    requires q != [] && IsHardBoundary(q[0])
    ensures Consumed(env, p) >= 0
    ensures Turns(env, p + q, active) == Turns(env, p, false) + Shift(Turns(env, q, active), Consumed(env, p))
            <==> NoticesAgree(env, p, q, |p|)
  {
    hide StateAt, NoticesAgree, NoticeAgrees, IsHardBoundary, Shift;
    ConsumedNat(env, p, |p|);
    if NoticesAgree(env, p, q, |p|) {
      PrefixUnaffected(env, p, q, |p|);
      SuffixShifted(env, p, q, |q|);
      ShiftedFlush(env, StateAt(env, q, |q|), StateAt(env, p + q, |p + q|),
                   Turns(env, p, false), Consumed(env, p), !active);
    } else {
      var i := FirstDisagreement(env, p, q, |p|);
      DisagreementShows(env, p, q, i, active);
    }
  }

  lemma {:induction false} FirstDisagreement(env: Env, p: seq<Message>, q: seq<Message>, n: nat) returns (i: nat)
    requires n <= |p| && !NoticesAgree(env, p, q, n)
    ensures i < n && NoticesAgree(env, p, q, i) && !NoticeAgrees(env, p, q, i)
  {
    hide NoticeAgrees;
    if NoticesAgree(env, p, q, n - 1) {
      i := n - 1;
    } else {
      i := FirstDisagreement(env, p, q, n - 1);
    }
  }

  /** In particular it holds when every notice of `p` has a later assistant row in `p`. */
  lemma DecompositionWithLaterRow(env: Env, p: seq<Message>, q: seq<Message>, active: bool)
    requires q != [] && IsHardBoundary(q[0])
    requires forall i :: 0 <= i < |p| && Classify(p[i]) == NoticeRow ==> NextAssistant(p[i + 1..]).Some?
    ensures Consumed(env, p) >= 0
    ensures Turns(env, p + q, active) == Turns(env, p, false) + Shift(Turns(env, q, active), Consumed(env, p))
  {
    Decomposition(env, p, q, active);
  }
}
