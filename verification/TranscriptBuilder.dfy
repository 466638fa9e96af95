/** `messagesToTurns` in its own form: one pass that updates the turn list, the gutter
    number and the open group in place. Every method is proved to do what the function
    of the same name in `TranscriptFold` says. */
module TranscriptBuilder {
  import opened Wrappers
  import opened TranscriptTypes
  import opened TranscriptFold

  // ---------------------------------------------------------------- helpers with loops

  /** `contentSig`. */
  method ComputeSig(env: Env, content: seq<Part>) returns (sig: ContentSig)
    ensures sig == SigOf(env, content)
  {
    var text, thinking := "", "";
    var toolIds, rest := multiset{}, multiset{};
    for i := 0 to |content|
      invariant ContentSig(text, thinking, toolIds, rest) == SigOf(env, content[..i])
    {
      assert content[..i + 1][..i] == content[..i];
      match content[i]
      case TextPart(t) => text := text + t;
      case ThinkingPart(t) => thinking := thinking + t;
      case ToolUsePart(id, _, _, _, _) => toolIds := toolIds + multiset{id};
      case c => rest := rest + multiset{env.stringifyPart(c)};
    }
    assert content[..|content|] == content;
    sig := ContentSig(text, thinking, toolIds, rest);
  }

  ghost predicate IsApprovalMap(byTool: map<string, Approval>, approvals: seq<Approval>) {
    forall id :: ApprovalFor(approvals, id) == if id in byTool then Some(byTool[id]) else None
  }

  /** The approval lookup: a later request for the same call replaces an earlier one. */
  method ApprovalsByTool(approvals: seq<Approval>) returns (byTool: map<string, Approval>)
    ensures IsApprovalMap(byTool, approvals)
  {
    byTool := map[];
    for i := 0 to |approvals|
      invariant IsApprovalMap(byTool, approvals[..i])
    {
      assert approvals[..i + 1][..i] == approvals[..i];
      byTool := byTool[approvals[i].toolCallId := approvals[i]];
    }
    assert approvals[..|approvals|] == approvals;
  }

  /** `steeredIntoRunningTurn`: look past the message for the next assistant row. */
  method SteeredIntoRunningTurn(messages: seq<Message>, index: nat, group: Option<Group>) returns (r: bool)
    requires index < |messages|
    ensures r == Steered(group, messages[index + 1..])
  {
    if group.None? { return false; }
    var i := index + 1;
    while i < |messages|
      invariant index < i <= |messages|
      invariant NextAssistant(messages[index + 1..]) == NextAssistant(messages[i..])
    {
      assert messages[i..][1..] == messages[i + 1..];
      if messages[i].role == AssistantRole {
        return Continues(group.value.promptId, messages[i].promptId);
      }
      i := i + 1;
    }
    return true;
  }

  // ---------------------------------------------------------------- the open group

  class OpenGroup {
    var id: string
    var promptId: Option<string>
    var textParts: seq<string>
    var thinkingParts: seq<string>
    var tools: seq<ToolCall>
    var blocks: seq<Block>
    var approval: Option<string>
    var approvalId: Option<string>
    var durationMs: Option<int>
    var lastRowEndedAt: Option<string>
    var lastCreatedAt: string
    var foldedSigs: seq<ContentSig>

    function View(): Group
      reads this
    {
      Group(id, promptId, textParts, thinkingParts, tools, blocks, approval, approvalId,
            durationMs, lastRowEndedAt, lastCreatedAt, foldedSigs)
    }

    constructor (m: Message)
      ensures View() == NewGroup(m)
    {
      id, promptId := m.id, m.promptId;
      textParts, thinkingParts, tools, blocks := [], [], [], [];
      approval, approvalId, foldedSigs := None, None, [];
      durationMs, lastRowEndedAt, lastCreatedAt := m.durationMs, m.endedAt, m.createdAt;
    }

    /** Put an updated card into both views: `tools[i]` and the first block with its id. */
    method ReplaceTool(i: nat, updated: ToolCall)
      requires i < |tools|
      modifies this`tools, this`blocks
      ensures View() == PatchTool(old(View()), i, updated)
    {
      tools := tools[i := updated];
      var b := FindCard(blocks, updated.id);
      if b < |blocks| {
        blocks := blocks[b := ToolBlock(updated)];
      }
    }

    method AbsorbOne(env: Env, byTool: map<string, Approval>, c: Part)
      requires IsApprovalMap(byTool, env.approvals)
      modifies this
      ensures View() == AbsorbPart(env, old(View()), c)
    {
      match c {
        case TextPart(t) =>
          if t != "" {
            textParts := textParts + [t];
            blocks := AppendText(blocks, t);
          }
        case ThinkingPart(t) =>
          if t != "" {
            thinkingParts := thinkingParts + [t];
            blocks := AppendThinking(blocks, t);
          }
        case ToolUsePart(callId, _, _, _, _) =>
          var card := NewCard(env, c);
          tools := tools + [card];
          blocks := blocks + [ToolBlock(card)];
          if callId in byTool {
            approval := Some(byTool[callId].block);
            approvalId := Some(byTool[callId].approvalId);
          }
          assert ApprovalFor(env.approvals, callId).Some? == (callId in byTool);
        case ToolResultPart(callId, _, _, _) =>
          var i := FindTool(tools, callId);
          if i < |tools| {
            ReplaceTool(i, ResultCard(env, tools[i], c));
          }
        case OtherPart(_) =>
      }
    }

    /** `absorbContent`. */
    method AbsorbContent(env: Env, byTool: map<string, Approval>, content: seq<Part>)
      requires IsApprovalMap(byTool, env.approvals)
      modifies this
      ensures View() == Absorb(env, old(View()), content)
    {
      for i := 0 to |content|
        invariant View() == Absorb(env, old(View()), content[..i])
      {
        assert content[..i + 1][..i] == content[..i];
        AbsorbOne(env, byTool, content[i]);
      }
      assert content[..|content|] == content;
    }

    /** `mergeVolatileExtras`. */
    method MergeVolatileExtras(content: seq<Part>)
      modifies this
      ensures View() == MergeExtras(old(View()), content)
    {
      for n := 0 to |content|
        invariant View() == MergeExtras(old(View()), content[..n])
      {
        assert content[..n + 1][..n] == content[..n];
        var c := content[n];
        if !c.ToolUsePart? { continue; }
        if !HasLines(c.outputLines) && c.startedAtMs.None? { continue; }
        var i := FindTool(tools, c.callId);
        if i == |tools| { continue; }
        var tool := tools[i];
        var fillOutput := tool.output.None? && HasLines(c.outputLines);
        var fillStartedAt := tool.startedAtMs.None? && c.startedAtMs.Some?;
        if !fillOutput && !fillStartedAt { continue; }
        ReplaceTool(i, tool.(output := if fillOutput then c.outputLines else tool.output,
                             startedAtMs := if fillStartedAt then c.startedAtMs else tool.startedAtMs));
      }
      assert content[..|content|] == content;
    }

    /** The settle loop of `flushGroup`. */
    method SettleRunningTools(env: Env)
      modifies this`tools, this`blocks
      ensures View() == Settle(env, old(View()))
    {
      ghost var g := View();
      var anchor := FreezeAnchor(env, View());
      for i := 0 to |tools|
        invariant |tools| == |g.tools|
        invariant View() == SettleFirst(env, g, anchor, i)
      {
        if tools[i].status == Running {
          ReplaceTool(i, SettledCard(env, tools[i], anchor));
        }
      }
    }

    /** The stamps of an assistant row folded into this group. */
    method TakeStamps(m: Message)
      modifies this`promptId, this`durationMs, this`lastCreatedAt, this`lastRowEndedAt
      ensures View() == Stamped(old(View()), m)
    {
      if promptId.None? && m.promptId.Some? { promptId := m.promptId; }
      if m.durationMs.Some? && durationMs != m.durationMs { durationMs := m.durationMs; }
      lastCreatedAt := m.createdAt;
      lastRowEndedAt := m.endedAt;
    }

    /** An assistant row folded into this group: stamps, duplicate check, content. */
    method FoldAssistantRow(env: Env, byTool: map<string, Approval>, m: Message)
      requires IsApprovalMap(byTool, env.approvals)
      modifies this
      ensures View() == FoldRow(env, old(View()), m)
    {
      TakeStamps(m);
      var sig := ComputeSig(env, m.content);
      if promptId.Some? && exists i :: 0 <= i < |foldedSigs| && Covers(foldedSigs[i], sig) {
        MergeVolatileExtras(m.content);
        return;
      }
      foldedSigs := foldedSigs + [sig];
      AbsorbContent(env, byTool, m.content);
    }
  }

  // ---------------------------------------------------------------- the pass

  class TurnBuilder {
    const env: Env
    const byTool: map<string, Approval>
    var turns: seq<Turn>
    var no: nat
    var pendingGroup: OpenGroup?

    ghost predicate Valid()
      reads this
    {
      IsApprovalMap(byTool, env.approvals)
    }

    ghost function View(): State
      reads this, pendingGroup
    {
      State(turns, no, if pendingGroup == null then None else Some(pendingGroup.View()))
    }

    constructor (env: Env)
      ensures Valid() && this.env == env && View() == State([], 1, None) && pendingGroup == null
    {
      this.env := env;
      var m := ApprovalsByTool(env.approvals);
      byTool := m;
      turns, no, pendingGroup := [], 1, null;
    }

    /** `flushGroup`; `settle` is the source's `!final || !sessionActive`. */
    method FlushGroup(settle: bool)
      requires Valid()
      modifies this, pendingGroup
      ensures Valid() && View() == Flush(env, old(View()), settle) && pendingGroup == null
    {
      if pendingGroup == null { return; }
      var g := pendingGroup;
      pendingGroup := null;
      if settle { g.SettleRunningTools(env); }
      turns := turns + [TurnOf(g.View(), no)];
      no := no + 1;
    }

    method Push(t: Turn, numbered: bool)
      requires Valid()
      modifies this`turns, this`no
      ensures Valid() && View() == Emit(old(View()), t, numbered)
    {
      turns := turns + [t];
      if numbered { no := no + 1; }
    }

    method PushInline(b: Block)
      requires Valid() && pendingGroup != null
      modifies pendingGroup
      ensures Valid() && View() == AddBlock(old(View()), b)
    {
      pendingGroup.blocks := pendingGroup.blocks + [b];
    }

    method HandleUser(messages: seq<Message>, mi: nat)
      requires Valid() && mi < |messages|
      requires messages[mi].role == UserRole && !IsDivider(messages[mi])
      modifies this, pendingGroup
      ensures Valid() && View() == Step(env, old(View()), messages[mi], messages[mi + 1..])
      ensures pendingGroup == null || pendingGroup == old(pendingGroup)
    {
      hide Flush;
      var msg := messages[mi];
      var notice := NoticeOf(msg);
      if notice.Some? {
        var group := if pendingGroup == null then None else Some(pendingGroup.View());
        var steered := SteeredIntoRunningTurn(messages, mi, group);
        if steered {
          PushInline(NoticeBlock(env.noticeTextOf(msg), notice.value));
          return;
        }
      }
      if msg.origin.kind == SteerKind && pendingGroup != null {
        PushInline(SteerBlock(msg.id, env.bubbleOf(msg), msg.createdAt));
        return;
      }
      FlushGroup(true);
      if IsCron(msg) {
        Push(CronTurn(msg.id, no, env.cronTextOf(msg), msg.createdAt, CronDataOf(msg)), true);
        return;
      }
      if notice.Some? {
        Push(NoticeTurn(msg.id, no, env.noticeTextOf(msg), msg.createdAt, notice.value), true);
        return;
      }
      if !IsDisplayableUser(msg) { return; }
      Push(UserTurnOf(env, msg, no), !IsInlineWrapper(msg));
    }

    method HandleAssistant(msg: Message)
      requires Valid()
      modifies this, pendingGroup
      ensures Valid() && View() == AssistantStep(env, old(View()), msg)
      ensures pendingGroup == old(pendingGroup) || fresh(pendingGroup)
    {
      if pendingGroup == null || !Continues(pendingGroup.promptId, msg.promptId) {
        FlushGroup(true);
        pendingGroup := new OpenGroup(msg);
      }
      pendingGroup.FoldAssistantRow(env, byTool, msg);
    }

    static predicate IsDivider(m: Message) {
      m.origin.kind == CompactionKind || m.swarmEnded || m.origin.kind == ModelSwitchKind
    }

    /** The body of the main loop. */
    method HandleMessage(messages: seq<Message>, mi: nat)
      requires Valid() && mi < |messages|
      modifies this, pendingGroup
      ensures Valid() && View() == Step(env, old(View()), messages[mi], messages[mi + 1..])
      ensures pendingGroup == null || pendingGroup == old(pendingGroup) || fresh(pendingGroup)
    {
      var msg := messages[mi];
      if msg.role == SystemRole { return; }
      if msg.origin.kind == CompactionKind {
        FlushGroup(true);
        Push(CompactionTurn(msg.id, no, Join(PlainText(msg.content), "\n"), msg.compaction), false);
        return;
      }
      if msg.swarmEnded {
        FlushGroup(true);
        Push(SwarmEndedTurn(msg.id, no, ""), false);
        return;
      }
      if msg.origin.kind == ModelSwitchKind {
        FlushGroup(true);
        Push(ModelSwitchTurn(msg.id, no, "", msg.origin.fromModel, OrEmpty(msg.origin.toModel)), false);
        return;
      }
      if msg.role == UserRole {
        HandleUser(messages, mi);
        return;
      }
      if msg.role == ToolRole {
        if pendingGroup != null { pendingGroup.AbsorbContent(env, byTool, msg.content); }
        return;
      }
      HandleAssistant(msg);
    }
  }

  /** `messagesToTurns`: the pass computes exactly the turns of the fold. */
  method MessagesToTurns(env: Env, messages: seq<Message>, sessionActive: bool) returns (turns: seq<Turn>)
    ensures turns == Turns(env, messages, sessionActive)
  {
    var b := new TurnBuilder(env);
    for mi := 0 to |messages|
      invariant b.Valid() && b.env == env && fresh(b)
      invariant b.pendingGroup == null || fresh(b.pendingGroup)
      invariant b.View() == StateAt(env, messages, mi)
    {
      b.HandleMessage(messages, mi);
    }
    b.FlushGroup(!sessionActive);
    turns := b.turns;
  }
}
