/** The wire messages that come in, the chat turns that go out, and the open
    assistant group in between (apps/mirri-web/src/api/types.ts and src/types.ts). */
module TranscriptTypes {
  import opened Wrappers

  datatype Role = UserRole | AssistantRole | ToolRole | SystemRole

  /** `metadata.origin.kind`; `NoKind` when the origin or its kind is missing. */
  datatype OriginKind =
    | NoKind | UserKind | SteerKind | CronJobKind | CronMissedKind | BackgroundTaskKind
    | SkillKind | PluginKind | CompactionKind | ModelSwitchKind | OtherKind

  datatype Trigger = UserSlash | UserInline | OtherTrigger

  /** Every optional origin field is `None` when it is missing or has the wrong type. */
  datatype Origin = Origin(
    kind: OriginKind, trigger: Trigger,
    taskId: Option<string>, status: Option<string>, notificationId: Option<string>,
    cron: CronData,
    skillName: Option<string>, skillArgs: Option<string>,
    pluginId: Option<string>, commandName: Option<string>, commandArgs: Option<string>,
    fromModel: Option<string>, toModel: Option<string>)

  datatype CronData = CronData(
    jobId: Option<string>, cron: Option<string>, recurring: Option<bool>,
    coalescedCount: Option<int>, stale: Option<bool>, missedCount: Option<int>)

  datatype Notice = Notice(taskId: string, status: string, notificationId: Option<string>)

  /** A JSON value: strings are told apart, everything else is opaque. */
  datatype Json = JsonString(text: string) | JsonOther(raw: string)

  datatype Part =
    | TextPart(text: string)
    | ThinkingPart(thinking: string)
    | ToolUsePart(callId: string, name: string, input: Json,
                  outputLines: Option<seq<string>>, startedAtMs: Option<int>)
    | ToolResultPart(callId: string, output: Json, isError: bool, durationMs: Option<int>)
    | OtherPart(raw: string)

  datatype CompactionStats = CompactionStats(
    trigger: Option<string>, tokensBefore: Option<int>, tokensAfter: Option<int>)

  datatype Message = Message(
    id: string, role: Role, content: seq<Part>, createdAt: string,
    promptId: Option<string>, durationMs: Option<int>, endedAt: Option<string>,
    origin: Origin, swarmEnded: bool, compaction: CompactionStats,
    withSkills: seq<string>, fileRefs: seq<string>)

  datatype ToolStatus = Running | Succeeded | Failed

  datatype ToolCall = ToolCall(
    id: string, name: string, arg: string, status: ToolStatus,
    timing: Option<string>, startedAtMs: Option<int>, output: Option<seq<string>>,
    media: Option<string>, planPath: Option<string>, backgroundedTaskId: Option<string>)

  datatype Attachment = Attachment(url: string, fileId: Option<string>, name: Option<string>)

  datatype Bubble = Bubble(text: string, attachments: seq<Attachment>)

  datatype Block =
    | TextBlock(text: string)
    | ThinkingBlock(thinking: string)
    | ToolBlock(tool: ToolCall)
    | CronBlock(cronText: string, cron: CronData)
    | NoticeBlock(noticeText: string, notice: Notice)
    | SteerBlock(id: string, bubble: Bubble, createdAt: string)

  datatype Turn =
    | AssistantTurn(id: string, no: nat, text: string, thinking: Option<string>,
                    tools: Option<seq<ToolCall>>, blocks: Option<seq<Block>>,
                    approval: Option<string>, approvalId: Option<string>,
                    durationMs: Option<int>, endedAt: Option<string>, promptId: Option<string>)
    | UserTurn(id: string, no: nat, text: string, attachments: Option<seq<Attachment>>,
               withSkills: seq<string>, fileRefs: seq<string>,
               skill: Option<(Option<string>, Option<string>)>,
               plugin: Option<(Option<string>, Option<string>, Option<string>)>,
               createdAt: string)
    | CronTurn(id: string, no: nat, text: string, createdAt: string, cron: CronData)
    | NoticeTurn(id: string, no: nat, text: string, createdAt: string, notice: Notice)
    | CompactionTurn(id: string, no: nat, text: string, stats: CompactionStats)
    | SwarmEndedTurn(id: string, no: nat, text: string)
    | ModelSwitchTurn(id: string, no: nat, text: string, fromModel: Option<string>, toModel: string)

  /** A tool-approval request; `block` is its rendered form (`buildApprovalBlock`). */
  datatype Approval = Approval(toolCallId: string, approvalId: string, block: string)

  /** What one assistant message says, up to part boundaries. The two id lists are
      sorted in the source, so they are multisets here. */
  datatype ContentSig = ContentSig(
    text: string, thinking: string, toolIds: multiset<string>, rest: multiset<string>)

  /** The open assistant group. */
  datatype Group = Group(
    id: string, promptId: Option<string>,
    textParts: seq<string>, thinkingParts: seq<string>,
    tools: seq<ToolCall>, blocks: seq<Block>,
    approval: Option<string>, approvalId: Option<string>,
    durationMs: Option<int>, lastRowEndedAt: Option<string>, lastCreatedAt: string,
    foldedSigs: seq<ContentSig>)

  /** The remaining arguments of `messagesToTurns`, and the pure text helpers whose
      inner workings the fold does not depend on. */
  datatype Env = Env(
    approvals: seq<Approval>,
    planReview: map<string, string>,
    backgrounded: map<string, string>,
    stringifyPart: Part -> string,
    stringifyInput: Json -> string,
    parseDate: string -> Option<int>,
    formatDuration: int -> string,
    bubbleOf: Message -> Bubble,
    noticeTextOf: Message -> string,
    cronTextOf: Message -> string,
    toolOutput: Json -> Option<seq<string>>,
    toolMedia: (string, Json) -> Option<string>,
    planPathIn: Option<seq<string>> -> Option<string>)

  /** `parts.join(sep)`. */
  function Join(parts: seq<string>, sep: string): string {
    if |parts| == 0 then ""
    else if |parts| == 1 then parts[0]
    else Join(parts[..|parts| - 1], sep) + sep + parts[|parts| - 1]
  }
}
