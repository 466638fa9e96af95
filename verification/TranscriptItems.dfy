/** Conservation: every message that should be visible shows up exactly once, in order,
    and gutter numbers run without gaps. */
module TranscriptItems {
  import opened Wrappers
  import opened TranscriptTypes
  import opened TranscriptFold
  import opened TranscriptViews

  /** One visible thing, whether it became a turn of its own or an inline block. */
  datatype Item =
    | CompactionItem(id: string, text: string, stats: CompactionStats)
    | SwarmEndedItem(id: string)
    | ModelSwitchItem(id: string, fromModel: Option<string>, toModel: string)
    | CronItem(id: string, text: string, createdAt: string, cron: CronData)
    | NoticeItem(text: string, notice: Notice)
    | BubbleItem(id: string, text: string, attachments: seq<Attachment>, createdAt: string)

  // ---------------------------------------------------------------- what a message is presented as

  function TextOf(parts: seq<Part>): seq<string> {
    if parts == [] then []
    else (if parts[0].TextPart? then [parts[0].text] else []) + TextOf(parts[1..])
  }

  function Default(s: Option<string>, other: string): string {
    if s.Some? then s.value else other
  }

  /** A plain user bubble with its attachments; some carry a chip and show its arguments. */
  function BubbleTurn(env: Env, m: Message, no: nat, text: string): Turn {
    UserTurn(m.id, no, text,
             if env.bubbleOf(m).attachments == [] then None else Some(env.bubbleOf(m).attachments),
             m.withSkills, m.fileRefs, None, None, m.createdAt)
  }

  /** The turn that a message is presented as when it stands alone, told from its role, the
      kind of its origin and what triggered it: user input, also when steered in, skill and
      plugin commands that the user typed, cron jobs, notices that name a task and its
      status, and the dividers. Nothing else a user message can be is presented. */
  function Presented(env: Env, m: Message, no: nat): Option<Turn> {
    var o := m.origin;
    if m.role == SystemRole then None
    else if o.kind == CompactionKind then Some(CompactionTurn(m.id, no, Join(TextOf(m.content), "\n"), m.compaction))
    else if m.swarmEnded then Some(SwarmEndedTurn(m.id, no, ""))
    else if o.kind == ModelSwitchKind then
      Some(ModelSwitchTurn(m.id, no, "", o.fromModel, Default(o.toModel, "")))
    else if m.role != UserRole then None
    else
      match o.kind
      case NoKind | UserKind | SteerKind => Some(BubbleTurn(env, m, no, env.bubbleOf(m).text))
      case SkillKind =>
        if o.trigger != UserSlash && o.trigger != UserInline then None
        else Some(BubbleTurn(env, m, no, Default(o.skillArgs, "")).(skill := Some((o.skillName, o.skillArgs))))
      case PluginKind =>
        if o.trigger != UserSlash then None
        else Some(BubbleTurn(env, m, no, Default(o.commandArgs, ""))
                    .(plugin := Some((o.pluginId, o.commandName, o.commandArgs))))
      case CronJobKind =>
        Some(CronTurn(m.id, no, env.cronTextOf(m), m.createdAt,
                      CronData(o.cron.jobId, o.cron.cron, o.cron.recurring, o.cron.coalescedCount, o.cron.stale, None)))
      case CronMissedKind =>
        Some(CronTurn(m.id, no, env.cronTextOf(m), m.createdAt,
                      CronData(None, None, None, None, None, o.cron.missedCount)))
      case BackgroundTaskKind =>
        if o.taskId.None? || o.status.None? then None
        else Some(NoticeTurn(m.id, no, env.noticeTextOf(m), m.createdAt,
                             Notice(o.taskId.value, o.status.value, o.notificationId)))
      case CompactionKind | ModelSwitchKind | OtherKind => None
  }

  /** What a message must show: nothing or one item. */
  function Shown(env: Env, m: Message): seq<Item> {
    match Presented(env, m, 0)
    case None => []
    case Some(t) => TurnItems(t)
  }

  function ShownAll(env: Env, msgs: seq<Message>): seq<Item> {
    if msgs == [] then [] else ShownAll(env, msgs[..|msgs| - 1]) + Shown(env, msgs[|msgs| - 1])
  }

  function BlockItem(b: Block): seq<Item> {
    match b
    case NoticeBlock(text, notice) => [NoticeItem(text, notice)]
    case SteerBlock(id, bubble, createdAt) => [BubbleItem(id, bubble.text, bubble.attachments, createdAt)]
    case _ => []
  }

  function BlockItems(blocks: seq<Block>): seq<Item> {
    if blocks == [] then [] else BlockItems(blocks[..|blocks| - 1]) + BlockItem(blocks[|blocks| - 1])
  }

  function TurnItems(t: Turn): seq<Item> {
    match t
    case AssistantTurn(_, _, _, _, _, _, _, _, _, _, _) => BlockItems(BlocksOf(t))
    case UserTurn(id, _, text, attachments, _, _, _, _, createdAt) =>
      [BubbleItem(id, text, if attachments.Some? then attachments.value else [], createdAt)]
    case CronTurn(id, _, text, createdAt, cron) => [CronItem(id, text, createdAt, cron)]
    case NoticeTurn(_, _, text, _, notice) => [NoticeItem(text, notice)]
    case CompactionTurn(id, _, text, stats) => [CompactionItem(id, text, stats)]
    case SwarmEndedTurn(id, _, _) => [SwarmEndedItem(id)]
    case ModelSwitchTurn(id, _, _, fromModel, toModel) => [ModelSwitchItem(id, fromModel, toModel)]
  }

  /** All items of a turn list, inline ones included, top to bottom. */
  function Flatten(turns: seq<Turn>): seq<Item> {
    if turns == [] then [] else Flatten(turns[..|turns| - 1]) + TurnItems(turns[|turns| - 1])
  }

  lemma FlattenSnoc(turns: seq<Turn>, t: Turn)
    ensures Flatten(turns + [t]) == Flatten(turns) + TurnItems(t)
  {
    assert (turns + [t])[..|turns|] == turns;
  }

  lemma BlockItemsSnoc(blocks: seq<Block>, b: Block)
    ensures BlockItems(blocks + [b]) == BlockItems(blocks) + BlockItem(b)
  {
    assert (blocks + [b])[..|blocks|] == blocks;
  }

  lemma {:induction false} SameButToolsKeepsItems(a: seq<Block>, b: seq<Block>)
    requires SameButTools(a, b)
    ensures BlockItems(a) == BlockItems(b)
  {
    if a != [] {
      SameButToolsKeepsItems(a[..|a| - 1], b[..|b| - 1]);
    }
  }

  lemma PatchKeepsItems(blocks: seq<Block>, tool: ToolCall)
    ensures BlockItems(PatchCard(blocks, tool)) == BlockItems(blocks)
  {
    PatchSameButTools(blocks, tool);
    SameButToolsKeepsItems(blocks, PatchCard(blocks, tool));
  }

  /** Replacing or appending a text, thinking or tool block adds no item. */
  lemma GrowKeepsItems(blocks: seq<Block>, b: Block)
    requires b.TextBlock? || b.ThinkingBlock? || b.ToolBlock?
    ensures BlockItems(blocks + [b]) == BlockItems(blocks)
    ensures blocks != [] && (blocks[|blocks| - 1].TextBlock? || blocks[|blocks| - 1].ThinkingBlock?) ==>
              BlockItems(blocks[|blocks| - 1 := b]) == BlockItems(blocks)
  {
    BlockItemsSnoc(blocks, b);
    if blocks != [] {
      var init := blocks[..|blocks| - 1];
      assert blocks[|blocks| - 1 := b] == init + [b];
      assert blocks == init + [blocks[|blocks| - 1]];
      BlockItemsSnoc(init, b);
      BlockItemsSnoc(init, blocks[|blocks| - 1]);
    }
  }

  lemma AppendTextKeepsItems(blocks: seq<Block>, t: string)
    ensures BlockItems(AppendText(blocks, t)) == BlockItems(blocks)
  {
    if blocks != [] && blocks[|blocks| - 1].TextBlock? {
      GrowKeepsItems(blocks, TextBlock(blocks[|blocks| - 1].text + "\n" + t));
    } else {
      GrowKeepsItems(blocks, TextBlock(t));
    }
  }

  lemma AppendThinkingKeepsItems(blocks: seq<Block>, t: string)
    ensures BlockItems(AppendThinking(blocks, t)) == BlockItems(blocks)
  {
    if blocks != [] && blocks[|blocks| - 1].ThinkingBlock? {
      GrowKeepsItems(blocks, ThinkingBlock(blocks[|blocks| - 1].thinking + "\n" + t));
    } else {
      GrowKeepsItems(blocks, ThinkingBlock(t));
    }
  }

  lemma AbsorbPartKeepsItems(env: Env, g: Group, c: Part)
    ensures BlockItems(AbsorbPart(env, g, c).blocks) == BlockItems(g.blocks)
  {
    match c
    case TextPart(t) => AppendTextKeepsItems(g.blocks, t);
    case ThinkingPart(t) => AppendThinkingKeepsItems(g.blocks, t);
    case ToolUsePart(_, _, _, _, _) => GrowKeepsItems(g.blocks, ToolBlock(NewCard(env, c)));
    case ToolResultPart(id, _, _, _) =>
      var i := FindTool(g.tools, id);
      if i < |g.tools| { PatchKeepsItems(g.blocks, ResultCard(env, g.tools[i], c)); }
    case OtherPart(_) =>
  }

  lemma {:induction false} AbsorbKeepsItems(env: Env, g: Group, content: seq<Part>)
    ensures BlockItems(Absorb(env, g, content).blocks) == BlockItems(g.blocks)
  {
    if content != [] {
      AbsorbKeepsItems(env, g, content[..|content| - 1]);
      AbsorbPartKeepsItems(env, Absorb(env, g, content[..|content| - 1]), content[|content| - 1]);
    }
  }

  lemma {:induction false} MergeKeepsItems(g: Group, content: seq<Part>)
    ensures BlockItems(MergeExtras(g, content).blocks) == BlockItems(g.blocks)
  {
    if content != [] {
      var g1, c := MergeExtras(g, content[..|content| - 1]), content[|content| - 1];
      MergeKeepsItems(g, content[..|content| - 1]);
      if c.ToolUsePart? && FindTool(g1.tools, c.callId) < |g1.tools| {
        PatchKeepsItems(g1.blocks, FilledCard(g1.tools[FindTool(g1.tools, c.callId)], c));
      }
    }
  }

  lemma FoldRowKeepsItems(env: Env, g: Group, m: Message)
    ensures BlockItems(FoldRow(env, g, m).blocks) == BlockItems(g.blocks)
  {
    var g1 := Stamped(g, m);
    MergeKeepsItems(g1, m.content);
    AbsorbKeepsItems(env, g1.(foldedSigs := g1.foldedSigs + [SigOf(env, m.content)]), m.content);
  }

  /** The items of the turns so far and of the open group. */
  function StateItems(s: State): seq<Item> {
    Flatten(s.turns) + (if s.group.Some? then BlockItems(s.group.value.blocks) else [])
  }

  lemma FlushKeepsItems(env: Env, s: State, settle: bool)
    ensures StateItems(Flush(env, s, settle)) == StateItems(s)
    ensures Flatten(Flush(env, s, settle).turns) == StateItems(s)
  {
    if s.group.Some? {
      var g := s.group.value;
      var g1 := if settle then Settle(env, g) else g;
      if settle {
        SettleSameButTools(env, g, FreezeAnchor(env, g), |g.tools|);
        SameButToolsKeepsItems(g.blocks, g1.blocks);
      }
      FlattenSnoc(s.turns, TurnOf(g1, s.no));
      assert BlocksOf(TurnOf(g1, s.no)) == g1.blocks;
    }
  }

  lemma EmitAddsItem(s: State, t: Turn, numbered: bool)
    requires s.group.None?
    ensures StateItems(Emit(s, t, numbered)) == StateItems(s) + TurnItems(t)
  {
    FlattenSnoc(s.turns, t);
  }

  lemma AddBlockAddsItem(s: State, b: Block)
    requires s.group.Some? && (b.NoticeBlock? || b.SteerBlock?)
    ensures StateItems(AddBlock(s, b)) == StateItems(s) + BlockItem(b)
  {
    BlockItemsSnoc(s.group.value.blocks, b);
  }

  lemma {:induction false} SameTexts(parts: seq<Part>)
    ensures PlainText(parts) == TextOf(parts)
  {
    if parts != [] {
      var n := |parts| - 1;
      SameTexts(parts[..n]);
      TextOfSnoc(parts[..n], parts[n]);
      assert parts[..n] + [parts[n]] == parts;
    }
  }

  lemma {:induction false} TextOfSnoc(parts: seq<Part>, c: Part)
    ensures TextOf(parts + [c]) == TextOf(parts) + (if c.TextPart? then [c.text] else [])
  {
    var all, tail := parts + [c], if c.TextPart? then [c.text] else [];
    if parts == [] {
      assert all == [c] && all[1..] == [];
      assert TextOf(all) == tail + TextOf([]) == tail == [] + tail;
    } else {
      TextOfSnoc(parts[1..], c);
      var head := if parts[0].TextPart? then [parts[0].text] else [];
      assert all[0] == parts[0] && all[1..] == parts[1..] + [c];
      assert head + (TextOf(parts[1..]) + tail) == (head + TextOf(parts[1..])) + tail;
    }
  }

  /** The fold gives a message the turn it must be presented as, if any. */
  lemma OwnTurnIsPresented(env: Env, m: Message, no: nat)
    ensures HasOwnTurn(m) <==> Presented(env, m, no).Some?
    ensures HasOwnTurn(m) ==> Presented(env, m, no) == Some(OwnTurn(env, m, no))
  {
    SameTexts(m.content);
  }

  lemma OwnTurnShows(env: Env, m: Message, no: nat)
    requires HasOwnTurn(m)
    ensures TurnItems(OwnTurn(env, m, no)) == Shown(env, m)
  {
    hide OwnTurn, Presented, HasOwnTurn;
    OwnTurnIsPresented(env, m, no);
    OwnTurnIsPresented(env, m, 0);
    SameItemsAtAnyNumber(env, m, no);
  }

  lemma SameItemsAtAnyNumber(env: Env, m: Message, no: nat)
    requires HasOwnTurn(m)
    ensures TurnItems(OwnTurn(env, m, no)) == TurnItems(OwnTurn(env, m, 0))
  {}

  lemma InlineShows(env: Env, m: Message)
    requires Classify(m) == NoticeRow || Classify(m) == SteerRow
    ensures BlockItem(InlineBlock(env, m)) == Shown(env, m)
  {}

  lemma HiddenShowsNothing(env: Env, m: Message)
    requires !HasOwnTurn(m)
    ensures Shown(env, m) == []
  {
    hide Presented;
    OwnTurnIsPresented(env, m, 0);
  }

  lemma BoundaryShows(env: Env, s: State, m: Message)
    requires HasOwnTurn(m) || Classify(m) == HiddenRow
    ensures StateItems(BoundaryStep(env, s, m)) == StateItems(s) + Shown(env, m)
  {
    var s1 := Flush(env, s, true);
    FlushKeepsItems(env, s, true);
    if HasOwnTurn(m) {
      EmitAddsItem(s1, OwnTurn(env, m, s1.no), TakesNumber(m));
      OwnTurnShows(env, m, s1.no);
    } else {
      HiddenShowsNothing(env, m);
    }
  }

  lemma AssistantShows(env: Env, s: State, m: Message)
    ensures StateItems(AssistantStep(env, s, m)) == StateItems(s)
  {
    if ContinuesGroup(s.group, m.promptId) {
      FoldRowKeepsItems(env, s.group.value, m);
    } else {
      FlushKeepsItems(env, s, true);
      FoldRowKeepsItems(env, NewGroup(m), m);
    }
  }

  lemma StepShows(env: Env, s: State, m: Message, rest: seq<Message>)
    ensures StateItems(Step(env, s, m, rest)) == StateItems(s) + Shown(env, m)
  {
    hide Flush, FoldRow, Absorb, BoundaryStep, Flatten, BlockItems, AssistantStep, Shown;
    var row := Classify(m);
    if !HasOwnTurn(m) { HiddenShowsNothing(env, m); }
    if row == SkippedRow {
    } else if row == ToolResultRow {
      if s.group.Some? { AbsorbKeepsItems(env, s.group.value, m.content); }
    } else if row == AssistantRow {
      AssistantShows(env, s, m);
    } else if GoesInline(s, m, rest) {
      AddBlockAddsItem(s, InlineBlock(env, m));
      InlineShows(env, m);
    } else {
      BoundaryShows(env, s, m);
    }
  }

  lemma {:induction false} StatesShow(env: Env, msgs: seq<Message>, k: nat)
    requires k <= |msgs|
    ensures StateItems(StateAt(env, msgs, k)) == ShownAll(env, msgs[..k])
  {
    hide Step, StateItems, Shown;
    if k > 0 {
      StatesShow(env, msgs, k - 1);
      StepShows(env, StateAt(env, msgs, k - 1), msgs[k - 1], msgs[k..]);
      assert msgs[..k][..k - 1] == msgs[..k - 1];
    } else {
      NothingShown();
    }
  }

  lemma NothingShown()
    ensures StateItems(State([], 1, None)) == []
  {}

  /** Exactly once, in order, for every transcript: reading the turns and their inline
      blocks from top to bottom gives the visible messages in input order, each once. */
  lemma ExactlyOnceInOrder(env: Env, msgs: seq<Message>, active: bool)
    ensures Flatten(Turns(env, msgs, active)) == ShownAll(env, msgs)
  {
    StatesShow(env, msgs, |msgs|);
    assert msgs[..|msgs|] == msgs;
    FlushKeepsItems(env, StateAt(env, msgs, |msgs|), !active);
  }

  lemma {:induction false} ShownAllPrefix(env: Env, msgs: seq<Message>, i: nat)
    requires i <= |msgs|
    ensures ShownAll(env, msgs[..i]) <= ShownAll(env, msgs)
    decreases |msgs| - i
  {
    hide Shown;
    if i < |msgs| {
      assert msgs[..i + 1][..i] == msgs[..i];
      ShownAllPrefix(env, msgs, i + 1);
    } else {
      assert msgs[..i] == msgs;
    }
  }

  /** What a user bubble shows as its text: what was typed, or the arguments of the command. */
  function BubbleText(env: Env, m: Message): string {
    match m.origin.kind
    case SkillKind => Default(m.origin.skillArgs, "")
    case PluginKind => Default(m.origin.commandArgs, "")
    case _ => env.bubbleOf(m).text
  }

  /** A user message that is no divider, cron job or notice, in any transcript: at its place
      among the items stands a bubble with its id, text and attachments if and only if it
      has no origin, is user input, also steered in, or a skill or plugin command that the
      user typed; otherwise it adds nothing. */
  lemma UserMessageIsShownIff(env: Env, msgs: seq<Message>, active: bool, i: nat)
    requires i < |msgs| && msgs[i].role == UserRole && !msgs[i].swarmEnded
    requires msgs[i].origin.kind !in {CompactionKind, ModelSwitchKind, CronJobKind, CronMissedKind, BackgroundTaskKind}
    ensures var m, at := msgs[i], |ShownAll(env, msgs[..i])|;
            var k, t := m.origin.kind, m.origin.trigger;
            if k in {NoKind, UserKind, SteerKind} || (k == SkillKind && t in {UserSlash, UserInline})
               || (k == PluginKind && t == UserSlash)
            then
              && at < |Flatten(Turns(env, msgs, active))|
              && Flatten(Turns(env, msgs, active))[at]
                 == BubbleItem(m.id, BubbleText(env, m), env.bubbleOf(m).attachments, m.createdAt)
              && |ShownAll(env, msgs[..i + 1])| == at + 1
            else ShownAll(env, msgs[..i + 1]) == ShownAll(env, msgs[..i])
  {
    hide Flatten, Turns;
    ExactlyOnceInOrder(env, msgs, active);
    ShownAllPrefix(env, msgs, i + 1);
    assert msgs[..i + 1][..i] == msgs[..i];
    assert ShownAll(env, msgs[..i + 1]) == ShownAll(env, msgs[..i]) + Shown(env, msgs[i]);
    UserShown(env, msgs[i]);
  }

  lemma UserShown(env: Env, m: Message)
    requires m.role == UserRole && !m.swarmEnded
    requires m.origin.kind !in {CompactionKind, ModelSwitchKind, CronJobKind, CronMissedKind, BackgroundTaskKind}
    ensures var k, t := m.origin.kind, m.origin.trigger;
            Shown(env, m) ==
              if k in {NoKind, UserKind, SteerKind} || (k == SkillKind && t in {UserSlash, UserInline})
                 || (k == PluginKind && t == UserSlash)
              then [BubbleItem(m.id, BubbleText(env, m), env.bubbleOf(m).attachments, m.createdAt)]
              else []
  {}

  // ---------------------------------------------------------------- gutter numbers

  /** What the turn alone tells: dividers share their number with the turn that follows,
      user turns that carry a skill chip may, and every other turn takes its own. */
  predicate IsNumbered(t: Turn) {
    t.AssistantTurn? || t.CronTurn? || t.NoticeTurn? || (t.UserTurn? && t.skill.None?)
  }

  predicate IsDivider(t: Turn) {
    t.CompactionTurn? || t.SwarmEndedTurn? || t.ModelSwitchTurn?
  }

  /** From `t` on, the next number is `next`. */
  predicate Follows(t: Turn, next: nat) {
    && (IsNumbered(t) ==> next == t.no + 1)
    && (IsDivider(t) ==> next == t.no)
    && t.no <= next <= t.no + 1
  }

  ghost predicate Numbered(turns: seq<Turn>, next: nat) {
    && (turns == [] ==> next == 1)
    && (turns != [] ==> turns[0].no == 1 && Follows(turns[|turns| - 1], next))
    && (forall i :: 0 < i < |turns| ==> Follows(turns[i - 1], turns[i].no))
  }

  lemma {:induction false} StatesNumbered(env: Env, msgs: seq<Message>, k: nat)
    requires k <= |msgs|
    ensures Numbered(StateAt(env, msgs, k).turns, StateAt(env, msgs, k).no)
  {
    if k > 0 {
      StatesNumbered(env, msgs, k - 1);
      var s, m := StateAt(env, msgs, k - 1), msgs[k - 1];
      NumberedFlush(env, s, true);
      NumberedStep(env, s, m, msgs[k..]);
    }
  }

  lemma NumberedFlush(env: Env, s: State, settle: bool)
    requires Numbered(s.turns, s.no)
    ensures Numbered(Flush(env, s, settle).turns, Flush(env, s, settle).no)
  {}

  /** How an own turn follows on: it has the number at hand, and takes it if it may. */
  lemma OwnTurnFollows(env: Env, m: Message, no: nat)
    requires HasOwnTurn(m)
    ensures OwnTurn(env, m, no).no == no
    ensures Follows(OwnTurn(env, m, no), if TakesNumber(m) then no + 1 else no)
  {}

  lemma NumberedOwn(turns: seq<Turn>, no: nat, t: Turn, next: nat)
    requires Numbered(turns, no) && t.no == no && Follows(t, next)
    ensures Numbered(turns + [t], next)
  {
    hide Follows;
    var all := turns + [t];
    forall i | 0 < i < |all| ensures Follows(all[i - 1], all[i].no) {
      if i < |turns| { assert Follows(turns[i - 1], turns[i].no); }
    }
  }

  lemma NumberedStep(env: Env, s: State, m: Message, rest: seq<Message>)
    requires Numbered(s.turns, s.no)
    requires Numbered(Flush(env, s, true).turns, Flush(env, s, true).no)
    ensures Numbered(Step(env, s, m, rest).turns, Step(env, s, m, rest).no)
  {
    hide Numbered, Flush, FoldRow, Absorb, InlineBlock, OwnTurn, TakesNumber, Follows;
    var f := Flush(env, s, true);
    if HasOwnTurn(m) {
      OwnTurnFollows(env, m, f.no);
      NumberedOwn(f.turns, f.no, OwnTurn(env, m, f.no), if TakesNumber(m) then f.no + 1 else f.no);
    }
  }

  // ---------------------------------------------------------------- numbers, message by message

  /** Told from role and origin: the message is presented at all. */
  predicate IsPresented(m: Message) {
    m.role != SystemRole &&
    ( || IsDividerMessage(m)
      || (m.role == UserRole &&
          match m.origin.kind
          case NoKind | UserKind | SteerKind | CronJobKind | CronMissedKind => true
          case SkillKind => m.origin.trigger == UserSlash || m.origin.trigger == UserInline
          case PluginKind => m.origin.trigger == UserSlash
          case BackgroundTaskKind => m.origin.taskId.Some? && m.origin.status.Some?
          case CompactionKind | ModelSwitchKind | OtherKind => false))
  }

  predicate IsDividerMessage(m: Message) {
    m.origin.kind == CompactionKind || m.swarmEnded || m.origin.kind == ModelSwitchKind
  }

  lemma PresentedIff(env: Env, m: Message, no: nat)
    ensures IsPresented(m) <==> HasOwnTurn(m)
    ensures HasOwnTurn(m) ==> (TakesNumber(m) <==> !IsDividerMessage(m) && !IsInlineSkill(m))
  {}

  /** Where the turns that one message adds come from: `None` for the group it ends, the
      message itself for its own turn. */
  function NewOwners(s: State, m: Message, rest: seq<Message>): seq<Option<Message>> {
    var ended := if s.group.Some? then [None] else [];
    var row := Classify(m);
    if row == SkippedRow || row == ToolResultRow then []
    else if row == AssistantRow then if ContinuesGroup(s.group, m.promptId) then [] else ended
    else if GoesInline(s, m, rest) then []
    else ended + if IsPresented(m) then [Some(m)] else []
  }

  function OwnersAt(env: Env, msgs: seq<Message>, k: nat): seq<Option<Message>>
    requires k <= |msgs|
  {
    if k == 0 then []
    else OwnersAt(env, msgs, k - 1) + NewOwners(StateAt(env, msgs, k - 1), msgs[k - 1], msgs[k..])
  }

  /** For each turn of the transcript, the message whose own turn it is, if any. */
  function Owners(env: Env, msgs: seq<Message>): seq<Option<Message>> {
    OwnersAt(env, msgs, |msgs|) + if StateAt(env, msgs, |msgs|).group.Some? then [None] else []
  }

  predicate IsInlineSkill(m: Message) {
    m.origin.kind == SkillKind && m.origin.trigger == UserInline
  }

  /** Assistant turns take a number, and of the others all but the dividers and the skill
      commands typed inline, which ride with the turn after them. */
  predicate OwnerTakesNumber(o: Option<Message>) {
    o.None? || (!IsDividerMessage(o.value) && !IsInlineSkill(o.value))
  }

  ghost predicate IsTurnOf(env: Env, t: Turn, o: Option<Message>) {
    match o
    case None => t.AssistantTurn?
    case Some(m) => Presented(env, m, t.no) == Some(t)
  }

  /** Turn `n` is that of owner `n`; numbers start at 1 and go up by one behind exactly the
      turns that take a number. */
  ghost predicate NumberedBy(env: Env, turns: seq<Turn>, owners: seq<Option<Message>>, next: nat) {
    && |owners| == |turns|
    && (forall n :: 0 <= n < |turns| ==> IsTurnOf(env, turns[n], owners[n]))
    && (forall n :: 0 <= n < |turns| ==>
          turns[n].no + (if OwnerTakesNumber(owners[n]) then 1 else 0) == NoAt(turns, n + 1, next))
    && NoAt(turns, 0, next) == 1
  }

  /** The number of turn `n`, or the next number behind the last turn. */
  function NoAt(turns: seq<Turn>, n: nat, next: nat): nat {
    if n < |turns| then turns[n].no else next
  }

  lemma NumberedPush(env: Env, turns: seq<Turn>, owners: seq<Option<Message>>, next: nat, t: Turn, o: Option<Message>)
    requires NumberedBy(env, turns, owners, next) && t.no == next && IsTurnOf(env, t, o)
    ensures NumberedBy(env, turns + [t], owners + [o], next + if OwnerTakesNumber(o) then 1 else 0)
  {
    hide IsTurnOf, OwnerTakesNumber;
    var all := turns + [t];
    forall n | 0 <= n < |all|
      ensures all[n].no + (if OwnerTakesNumber((owners + [o])[n]) then 1 else 0)
              == NoAt(all, n + 1, next + if OwnerTakesNumber(o) then 1 else 0)
    {
      if n < |turns| { assert NoAt(all, n + 1, next) == NoAt(turns, n + 1, next); }
    }
  }

  lemma FlushNumbered(env: Env, s: State, owners: seq<Option<Message>>, settle: bool)
    requires NumberedBy(env, s.turns, owners, s.no)
    ensures var r := Flush(env, s, settle);
            NumberedBy(env, r.turns, owners + (if s.group.Some? then [None] else []), r.no)
  {
    hide NumberedBy;
    if s.group.Some? {
      var g := if settle then Settle(env, s.group.value) else s.group.value;
      NumberedPush(env, s.turns, owners, s.no, TurnOf(g, s.no), None);
    } else {
      assert owners + [] == owners;
    }
  }

  lemma BoundaryNumbered(env: Env, s: State, m: Message, owners: seq<Option<Message>>)
    requires NumberedBy(env, s.turns, owners, s.no)
    ensures var r := BoundaryStep(env, s, m);
            var ended := if s.group.Some? then [None] else [];
            NumberedBy(env, r.turns, owners + (ended + if IsPresented(m) then [Some(m)] else []), r.no)
  {
    hide NumberedBy, Flush, TakesNumber, IsPresented, HasOwnTurn, OwnTurn, IsDividerMessage, IsInlineSkill;
    FlushNumbered(env, s, owners, true);
    var s1 := Flush(env, s, true);
    var ended: seq<Option<Message>> := if s.group.Some? then [None] else [];
    PresentedIff(env, m, s1.no);
    if HasOwnTurn(m) {
      OwnTurnIsItsOwn(env, m, s1.no);
      NumberedPush(env, s1.turns, owners + ended, s1.no, OwnTurn(env, m, s1.no), Some(m));
      assert owners + (ended + [Some(m)]) == (owners + ended) + [Some(m)];
    } else {
      assert ended + [] == ended;
    }
  }

  lemma OwnTurnIsItsOwn(env: Env, m: Message, no: nat)
    requires HasOwnTurn(m)
    ensures OwnTurn(env, m, no).no == no && IsTurnOf(env, OwnTurn(env, m, no), Some(m))
  {
    hide Presented;
    OwnTurnIsPresented(env, m, no);
  }

  lemma {:induction false} StatesNumberedBy(env: Env, msgs: seq<Message>, k: nat)
    requires k <= |msgs|
    ensures NumberedBy(env, StateAt(env, msgs, k).turns, OwnersAt(env, msgs, k), StateAt(env, msgs, k).no)
  {
    hide Step, NumberedBy, NewOwners;
    if k > 0 {
      StatesNumberedBy(env, msgs, k - 1);
      StepNumberedBy(env, StateAt(env, msgs, k - 1), msgs[k - 1], msgs[k..], OwnersAt(env, msgs, k - 1));
    } else {
      NothingNumbered(env);
    }
  }

  lemma NothingNumbered(env: Env)
    ensures NumberedBy(env, [], [], 1)
  {}

  lemma StepNumberedBy(env: Env, s: State, m: Message, rest: seq<Message>, owners: seq<Option<Message>>)
    requires NumberedBy(env, s.turns, owners, s.no)
    ensures NumberedBy(env, Step(env, s, m, rest).turns, owners + NewOwners(s, m, rest), Step(env, s, m, rest).no)
  {
    hide NumberedBy, Flush, FoldRow, Absorb, BoundaryStep, InlineBlock;
    BoundaryNumbered(env, s, m, owners);
    FlushNumbered(env, s, owners, true);
    assert owners + [] == owners;
  }

  /** Gutter numbers start at 1 and go up by one after every turn that takes a number: for
      every transcript, turn by turn, with the message each turn belongs to. */
  lemma NumbersRunWithoutGaps(env: Env, msgs: seq<Message>, active: bool)
    ensures Numbered(Turns(env, msgs, active), FinalState(env, msgs, active).no)
    ensures NumberedBy(env, Turns(env, msgs, active), Owners(env, msgs), FinalState(env, msgs, active).no)
  {
    hide Numbered, NumberedBy, Flush;
    StatesNumbered(env, msgs, |msgs|);
    NumberedFlush(env, StateAt(env, msgs, |msgs|), !active);
    StatesNumberedBy(env, msgs, |msgs|);
    FlushNumbered(env, StateAt(env, msgs, |msgs|), OwnersAt(env, msgs, |msgs|), !active);
  }
}
