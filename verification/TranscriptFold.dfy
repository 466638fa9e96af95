/** The transcript fold as a function: what one message does to the turns so far,
    the next gutter number and the open group, and what flushing the group emits
    (apps/mirri-web/src/composables/messagesToTurns.ts). */
module TranscriptFold {
  import opened Wrappers
  import opened TranscriptTypes

  // ---------------------------------------------------------------- classification

  /** The one arm of the main loop a message takes. */
  datatype RowClass =
    | SkippedRow | CompactionRow | SwarmEndedRow | ModelSwitchRow
    | NoticeRow | SteerRow | CronRow | HiddenRow | BubbleRow
    | ToolResultRow | AssistantRow

  function NoticeOf(m: Message): Option<Notice> {
    if m.origin.kind == BackgroundTaskKind && m.origin.taskId.Some? && m.origin.status.Some?
    then Some(Notice(m.origin.taskId.value, m.origin.status.value, m.origin.notificationId))
    else None
  }

  predicate IsDisplayableUser(m: Message) {
    match m.origin.kind
    case NoKind | UserKind | SteerKind => true
    case SkillKind => m.origin.trigger == UserSlash || m.origin.trigger == UserInline
    case PluginKind => m.origin.trigger == UserSlash
    case _ => false
  }

  predicate IsCron(m: Message) {
    m.origin.kind == CronJobKind || m.origin.kind == CronMissedKind
  }

  predicate IsInlineWrapper(m: Message) {
    m.origin.kind == SkillKind && m.origin.trigger == UserInline
  }

  function Classify(m: Message): RowClass {
    if m.role == SystemRole then SkippedRow
    else if m.origin.kind == CompactionKind then CompactionRow
    else if m.swarmEnded then SwarmEndedRow
    else if m.origin.kind == ModelSwitchKind then ModelSwitchRow
    else if m.role == UserRole then
      if NoticeOf(m).Some? then NoticeRow
      else if m.origin.kind == SteerKind then SteerRow
      else if IsCron(m) then CronRow
      else if IsDisplayableUser(m) then BubbleRow
      else HiddenRow
    else if m.role == ToolRole then ToolResultRow
    else AssistantRow
  }

  /** A message at which every open group ends, whatever precedes or follows it. */
  predicate IsHardBoundary(m: Message) {
    Classify(m) in {CompactionRow, SwarmEndedRow, ModelSwitchRow, CronRow, HiddenRow, BubbleRow}
  }

  // ---------------------------------------------------------------- duplicate detection

  function SigOf(env: Env, content: seq<Part>): ContentSig {
    if content == [] then ContentSig("", "", multiset{}, multiset{})
    else
      var sig := SigOf(env, content[..|content| - 1]);
      match content[|content| - 1]
      case TextPart(t) => sig.(text := sig.text + t)
      case ThinkingPart(t) => sig.(thinking := sig.thinking + t)
      case ToolUsePart(id, _, _, _, _) => sig.(toolIds := sig.toolIds + multiset{id})
      case c => sig.(rest := sig.rest + multiset{env.stringifyPart(c)})
  }

  predicate Covers(folded: ContentSig, incoming: ContentSig) {
    && (incoming.text == "" || incoming.text == folded.text)
    && (incoming.thinking == "" || incoming.thinking == folded.thinking)
    && (forall id <- incoming.toolIds :: id in folded.toolIds)
    && (forall j <- incoming.rest :: j in folded.rest)
  }

  predicate AlreadyFolded(g: Group, sig: ContentSig) {
    g.promptId.Some? && exists i :: 0 <= i < |g.foldedSigs| && Covers(g.foldedSigs[i], sig)
  }

  // ---------------------------------------------------------------- tool cards in two views

  /** `tools.findIndex(t => t.id === id)`, with the length for "not found". */
  function FindTool(tools: seq<ToolCall>, id: string): (i: nat)
    ensures i <= |tools|
    ensures i < |tools| ==> tools[i].id == id
    ensures forall j :: 0 <= j < i ==> tools[j].id != id
  {
    if tools == [] then 0
    else
      var i := FindTool(tools[..|tools| - 1], id);
      if i < |tools| - 1 then i
      else if tools[|tools| - 1].id == id then |tools| - 1
      else |tools|
  }

  predicate IsCard(b: Block, id: string) {
    b.ToolBlock? && b.tool.id == id
  }

  /** `blocks.find(b => b.kind === 'tool' && b.tool.id === id)`, as an index. */
  function FindCard(blocks: seq<Block>, id: string): (i: nat)
    ensures i <= |blocks|
    ensures i < |blocks| ==> IsCard(blocks[i], id)
    ensures forall j :: 0 <= j < i ==> !IsCard(blocks[j], id)
  {
    if blocks == [] then 0
    else
      var i := FindCard(blocks[..|blocks| - 1], id);
      if i < |blocks| - 1 then i
      else if IsCard(blocks[|blocks| - 1], id) then |blocks| - 1
      else |blocks|
  }

  function PatchCard(blocks: seq<Block>, tool: ToolCall): (r: seq<Block>)
    ensures |r| == |blocks|
  {
    var i := FindCard(blocks, tool.id);
    if i < |blocks| then blocks[i := ToolBlock(tool)] else blocks
  }

  function PatchTool(g: Group, i: nat, tool: ToolCall): (r: Group)
    requires i < |g.tools|
    ensures |r.tools| == |g.tools|
  {
    g.(tools := g.tools[i := tool], blocks := PatchCard(g.blocks, tool))
  }

  // ---------------------------------------------------------------- absorbing content

  function AppendText(blocks: seq<Block>, text: string): seq<Block> {
    if blocks != [] && blocks[|blocks| - 1].TextBlock?
    then blocks[|blocks| - 1 := TextBlock(blocks[|blocks| - 1].text + "\n" + text)]
    else blocks + [TextBlock(text)]
  }

  function AppendThinking(blocks: seq<Block>, thinking: string): seq<Block> {
    if blocks != [] && blocks[|blocks| - 1].ThinkingBlock?
    then blocks[|blocks| - 1 := ThinkingBlock(blocks[|blocks| - 1].thinking + "\n" + thinking)]
    else blocks + [ThinkingBlock(thinking)]
  }

  /** The approval registered last for this call id. */
  function ApprovalFor(approvals: seq<Approval>, id: string): Option<Approval> {
    if approvals == [] then None
    else if approvals[|approvals| - 1].toolCallId == id then Some(approvals[|approvals| - 1])
    else ApprovalFor(approvals[..|approvals| - 1], id)
  }

  function MapGet(m: map<string, string>, k: string): Option<string> {
    if k in m then Some(m[k]) else None
  }

  function NewCard(env: Env, c: Part): ToolCall
    requires c.ToolUsePart?
  {
    ToolCall(c.callId, c.name,
             if c.input.JsonString? then c.input.text else env.stringifyInput(c.input),
             Running, None, c.startedAtMs, c.outputLines, None,
             if c.name == "ExitPlanMode" then MapGet(env.planReview, c.callId) else None,
             MapGet(env.backgrounded, c.callId))
  }

  predicate IsBlank(s: Option<string>) {
    s.None? || s.value == ""
  }

  function ResultCard(env: Env, tool: ToolCall, c: Part): ToolCall
    requires c.ToolResultPart?
  {
    var updated := tool.(
      status := if c.isError then Failed else Succeeded,
      output := env.toolOutput(c.output),
      media := if c.isError then None else env.toolMedia(tool.name, c.output),
      timing := if c.durationMs.Some? then Some(env.formatDuration(c.durationMs.value)) else tool.timing);
    if updated.name == "ExitPlanMode" && IsBlank(updated.planPath)
    then updated.(planPath := env.planPathIn(updated.output))
    else updated
  }

  function AbsorbToolUse(env: Env, g: Group, c: Part): Group
    requires c.ToolUsePart?
  {
    var card := NewCard(env, c);
    var g1 := g.(tools := g.tools + [card], blocks := g.blocks + [ToolBlock(card)]);
    match ApprovalFor(env.approvals, c.callId)
    case Some(a) => g1.(approval := Some(a.block), approvalId := Some(a.approvalId))
    case None => g1
  }

  function AbsorbPart(env: Env, g: Group, c: Part): Group {
    match c
    case TextPart(t) =>
      if t == "" then g
      else g.(textParts := g.textParts + [t], blocks := AppendText(g.blocks, t))
    case ThinkingPart(t) =>
      if t == "" then g
      else g.(thinkingParts := g.thinkingParts + [t], blocks := AppendThinking(g.blocks, t))
    case ToolUsePart(_, _, _, _, _) => AbsorbToolUse(env, g, c)
    case ToolResultPart(id, _, _, _) =>
      var i := FindTool(g.tools, id);
      if i < |g.tools| then PatchTool(g, i, ResultCard(env, g.tools[i], c)) else g
    case OtherPart(_) => g
  }

  function Absorb(env: Env, g: Group, content: seq<Part>): Group {
    if content == [] then g
    else AbsorbPart(env, Absorb(env, g, content[..|content| - 1]), content[|content| - 1])
  }

  predicate HasLines(lines: Option<seq<string>>) {
    lines.Some? && lines.value != []
  }

  /** The card with its missing output and start stamp taken from a duplicate. */
  function FilledCard(tool: ToolCall, c: Part): ToolCall
    requires c.ToolUsePart?
  {
    tool.(output := if tool.output.None? && HasLines(c.outputLines) then c.outputLines else tool.output,
          startedAtMs := if tool.startedAtMs.None? && c.startedAtMs.Some? then c.startedAtMs
                         else tool.startedAtMs)
  }

  function MergePart(g: Group, c: Part): Group {
    if !c.ToolUsePart? then g
    else
      var i := FindTool(g.tools, c.callId);
      if i < |g.tools| && FilledCard(g.tools[i], c) != g.tools[i]
      then PatchTool(g, i, FilledCard(g.tools[i], c))
      else g
  }

  function MergeExtras(g: Group, content: seq<Part>): Group {
    if content == [] then g
    else MergePart(MergeExtras(g, content[..|content| - 1]), content[|content| - 1])
  }

  // ---------------------------------------------------------------- flushing

  function NonEmpty(s: Option<string>): Option<string> {
    if IsBlank(s) then None else s
  }

  function FreezeAnchor(env: Env, g: Group): Option<int> {
    if !IsBlank(g.lastRowEndedAt) then env.parseDate(g.lastRowEndedAt.value)
    else if g.lastCreatedAt != "" && g.durationMs.Some? && g.durationMs.value > 0 then
      match env.parseDate(g.lastCreatedAt)
      case Some(ms) => Some(ms + g.durationMs.value)
      case None => None
    else None
  }

  function Max(a: int, b: int): int {
    if a < b then b else a
  }

  function SettledCard(env: Env, tool: ToolCall, anchor: Option<int>): ToolCall {
    tool.(status := Succeeded,
          timing := if tool.startedAtMs.Some? && anchor.Some?
                    then Some(env.formatDuration(Max(0, anchor.value - tool.startedAtMs.value)))
                    else tool.timing)
  }

  /** The settle loop after its first `n` iterations. */
  function SettleFirst(env: Env, g: Group, anchor: Option<int>, n: nat): (r: Group)
    requires n <= |g.tools|
    ensures |r.tools| == |g.tools|
  {
    if n == 0 then g
    else
      var r := SettleFirst(env, g, anchor, n - 1);
      if r.tools[n - 1].status == Running
      then PatchTool(r, n - 1, SettledCard(env, r.tools[n - 1], anchor))
      else r
  }

  function Settle(env: Env, g: Group): Group {
    SettleFirst(env, g, FreezeAnchor(env, g), |g.tools|)
  }

  function TurnOf(g: Group, no: nat): Turn {
    AssistantTurn(
      g.id, no, Join(g.textParts, "\n"),
      if g.thinkingParts != [] then Some(Join(g.thinkingParts, "\n")) else None,
      if g.tools != [] then Some(g.tools) else None,
      if g.blocks != [] then Some(g.blocks) else None,
      g.approval, g.approvalId, g.durationMs, NonEmpty(g.lastRowEndedAt), g.promptId)
  }

  /** The loop's variables: the turns pushed, the next number, the open group. */
  datatype State = State(turns: seq<Turn>, no: nat, group: Option<Group>)

  function Flush(env: Env, s: State, settle: bool): State {
    match s.group
    case None => s
    case Some(g) =>
      State(s.turns + [TurnOf(if settle then Settle(env, g) else g, s.no)], s.no + 1, None)
  }

  // ---------------------------------------------------------------- one message

  function Emit(s: State, t: Turn, numbered: bool): State {
    s.(turns := s.turns + [t], no := if numbered then s.no + 1 else s.no)
  }

  function PlainText(content: seq<Part>): seq<string> {
    if content == [] then []
    else PlainText(content[..|content| - 1]) +
         (if content[|content| - 1].TextPart? then [content[|content| - 1].text] else [])
  }

  function CronDataOf(m: Message): CronData {
    if m.origin.kind == CronMissedKind
    then CronData(None, None, None, None, None, m.origin.cron.missedCount)
    else m.origin.cron.(missedCount := None)
  }

  function OrEmpty(s: Option<string>): string {
    if s.Some? then s.value else ""
  }

  function UserText(env: Env, m: Message): string {
    if m.origin.kind == SkillKind then OrEmpty(m.origin.skillArgs)
    else if m.origin.kind == PluginKind then OrEmpty(m.origin.commandArgs)
    else env.bubbleOf(m).text
  }

  function UserTurnOf(env: Env, m: Message, no: nat): Turn {
    UserTurn(
      m.id, no, UserText(env, m),
      if env.bubbleOf(m).attachments != [] then Some(env.bubbleOf(m).attachments) else None,
      m.withSkills, m.fileRefs,
      if m.origin.kind == SkillKind then Some((m.origin.skillName, m.origin.skillArgs)) else None,
      if m.origin.kind == PluginKind
      then Some((m.origin.pluginId, m.origin.commandName, m.origin.commandArgs)) else None,
      m.createdAt)
  }

  predicate Continues(group: Option<string>, incoming: Option<string>) {
    group.None? || incoming.None? || group == incoming
  }

  predicate ContinuesGroup(g: Option<Group>, promptId: Option<string>) {
    g.Some? && Continues(g.value.promptId, promptId)
  }

  /** The next assistant-role message, whatever lies before it. */
  function NextAssistant(rest: seq<Message>): Option<Message> {
    if rest == [] then None
    else if rest[0].role == AssistantRole then Some(rest[0])
    else NextAssistant(rest[1..])
  }

  predicate Steered(g: Option<Group>, rest: seq<Message>) {
    g.Some? &&
    match NextAssistant(rest)
    case None => true
    case Some(next) => Continues(g.value.promptId, next.promptId)
  }

  function AddBlock(s: State, b: Block): State
    requires s.group.Some?
  {
    s.(group := Some(s.group.value.(blocks := s.group.value.blocks + [b])))
  }

  function NewGroup(m: Message): Group {
    Group(m.id, m.promptId, [], [], [], [], None, None, m.durationMs, m.endedAt, m.createdAt, [])
  }

  /** The group an assistant row lands in, with the row's stamps taken over. */
  function Stamped(g: Group, m: Message): Group {
    g.(promptId := if g.promptId.None? then m.promptId else g.promptId,
       durationMs := if m.durationMs.Some? then m.durationMs else g.durationMs,
       lastCreatedAt := m.createdAt,
       lastRowEndedAt := m.endedAt)
  }

  /** Fold one assistant row into the group it continues. */
  function FoldRow(env: Env, g: Group, m: Message): Group {
    var g1 := Stamped(g, m);
    var sig := SigOf(env, m.content);
    if AlreadyFolded(g1, sig) then MergeExtras(g1, m.content)
    else Absorb(env, g1.(foldedSigs := g1.foldedSigs + [sig]), m.content)
  }

  function AssistantStep(env: Env, s: State, m: Message): State {
    if ContinuesGroup(s.group, m.promptId)
    then s.(group := Some(FoldRow(env, s.group.value, m)))
    else Flush(env, s, true).(group := Some(FoldRow(env, NewGroup(m), m)))
  }

  predicate HasOwnTurn(m: Message) {
    Classify(m) in {CompactionRow, SwarmEndedRow, ModelSwitchRow, NoticeRow, SteerRow, CronRow, BubbleRow}
  }

  /** The turn a non-assistant message becomes when it does not go inline. */
  function OwnTurn(env: Env, m: Message, no: nat): Turn
    requires HasOwnTurn(m)
  {
    match Classify(m)
    case CompactionRow => CompactionTurn(m.id, no, Join(PlainText(m.content), "\n"), m.compaction)
    case SwarmEndedRow => SwarmEndedTurn(m.id, no, "")
    case ModelSwitchRow => ModelSwitchTurn(m.id, no, "", m.origin.fromModel, OrEmpty(m.origin.toModel))
    case NoticeRow => NoticeTurn(m.id, no, env.noticeTextOf(m), m.createdAt, NoticeOf(m).value)
    case CronRow => CronTurn(m.id, no, env.cronTextOf(m), m.createdAt, CronDataOf(m))
    case SteerRow | BubbleRow => UserTurnOf(env, m, no)
  }

  /** Dividers show no number, and an inline skill wrapper rides with the turn after it. */
  predicate TakesNumber(m: Message) {
    Classify(m) in {NoticeRow, SteerRow, CronRow} || (Classify(m) == BubbleRow && !IsInlineWrapper(m))
  }

  /** End the open group, then show the message's own turn if it has one. */
  function BoundaryStep(env: Env, s: State, m: Message): State {
    var s1 := Flush(env, s, true);
    if HasOwnTurn(m) then Emit(s1, OwnTurn(env, m, s1.no), TakesNumber(m)) else s1
  }

  /** The block of a message that goes inline. */
  function InlineBlock(env: Env, m: Message): Block
    requires Classify(m) == NoticeRow || Classify(m) == SteerRow
  {
    if Classify(m) == NoticeRow then NoticeBlock(env.noticeTextOf(m), NoticeOf(m).value)
    else SteerBlock(m.id, env.bubbleOf(m), m.createdAt)
  }

  predicate GoesInline(s: State, m: Message, rest: seq<Message>) {
    || (Classify(m) == NoticeRow && Steered(s.group, rest))
    || (Classify(m) == SteerRow && s.group.Some?)
  }

  function Step(env: Env, s: State, m: Message, rest: seq<Message>): State {
    var row := Classify(m);
    if row == SkippedRow then s
    else if row == ToolResultRow then
      if s.group.Some? then s.(group := Some(Absorb(env, s.group.value, m.content))) else s
    else if row == AssistantRow then AssistantStep(env, s, m)
    else if GoesInline(s, m, rest) then AddBlock(s, InlineBlock(env, m))
    else BoundaryStep(env, s, m)
  }

  // ---------------------------------------------------------------- whole runs

  /** The loop's variables after its first `k` messages. */
  function StateAt(env: Env, msgs: seq<Message>, k: nat): State
    requires k <= |msgs|
  {
    if k == 0 then State([], 1, None)
    else Step(env, StateAt(env, msgs, k - 1), msgs[k - 1], msgs[k..])
  }

  function FinalState(env: Env, msgs: seq<Message>, active: bool): State {
    Flush(env, StateAt(env, msgs, |msgs|), !active)
  }

  /** `messagesToTurns`. */
  function Turns(env: Env, msgs: seq<Message>, active: bool): seq<Turn> {
    FinalState(env, msgs, active).turns
  }
}
