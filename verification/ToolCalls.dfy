/** The stored rows about tool calls: the audit trail and the approvals. */
module ToolCalls {
  import opened Prelude

  /** The call as asked for. */
  datatype ToolCall = ToolCall(runId: nat, stepIndex: nat, tool: string, sideEffect: string, arguments: Token)

  datatype ToolStatus = Approved | Denied | Timeout | Blocked

  datatype ToolCallRecord = ToolCallRecord(call: ToolCall, status: ToolStatus, createdAt: Instant)

  datatype ApprovalStatus = StatusPending | StatusApproved | StatusDenied

  datatype ApprovalRecord = ApprovalRecord(
    call: ToolCall, status: ApprovalStatus, reason: Token, decidedBy: Token, createdAt: Instant, decidedAt: Option<Instant>)
}
