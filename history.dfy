/**
  * Sequences of ledger operations: whatever mix of user creation, daily resets,
  * plan changes and chat messages reaches the table, every row keeps a known plan
  * and a balance between zero and that plan's allowance, and no row is ever removed.
  * update_user_tokens_and_plan is not an operation of its own here: its only caller
  * is the debit inside handle_message, which MessageOp covers.
  */
module History {
  import opened Config
  import opened Guard
  import opened Ledger

  datatype Op =
    | CreateUserOp(id: UserId, plan: string, today: Day)
    | ResetOp(id: UserId, today: Day)
    | SetPlanOp(id: UserId, plan: string, today: Day)
    | MessageOp(id: UserId, text: string, caption: string, today: Day, backend: BackendOutcome)

  /** The table after one operation. */
  function Step(t: Table, op: Op): Table
  {
    match op
    case CreateUserOp(id, plan, today) => Created(t, id, plan, today)
    case ResetOp(id, today) => Refreshed(t, id, today)
    case SetPlanOp(id, plan, today) => WithPlan(t, id, plan, today)
    case MessageOp(id, text, caption, today, backend) =>
      AfterMessage(t, id, Estimate.ComposeText(text, caption), today, backend).table
  }

  /** The table after the operations, applied in order. */
  function Run(t: Table, ops: seq<Op>): Table
    decreases |ops|
  {
    if ops == [] then t else Run(Step(t, ops[0]), ops[1..])
  }

  lemma StepKeepsValid(t: Table, op: Op)
    requires TableValid(t)
    ensures TableValid(Step(t, op))
    ensures t.Keys <= Step(t, op).Keys
  {
    match op
    case CreateUserOp(id, plan, today) => CreatedKeepsValid(t, id, plan, today);
    case ResetOp(id, today) => RefreshedKeepsValid(t, id, today);
    case SetPlanOp(id, plan, today) => WithPlanKeepsValid(t, id, plan, today);
    case MessageOp(id, text, caption, today, backend) =>
      AfterMessageKeepsValid(t, id, Estimate.ComposeText(text, caption), today, backend);
  }

  /** The ledger invariant holds after any sequence of operations, and rows are never deleted. */
  lemma {:induction false} RunKeepsValid(t: Table, ops: seq<Op>)
    requires TableValid(t)
    ensures TableValid(Run(t, ops))
    ensures t.Keys <= Run(t, ops).Keys
    decreases |ops|
  {
    if ops != [] {
      StepKeepsValid(t, ops[0]);
      RunKeepsValid(Step(t, ops[0]), ops[1..]);
    }
  }

  /** Starting from the empty table (a new database), every reachable table is valid. */
  lemma {:induction false} ReachableTablesAreValid(ops: seq<Op>)
    ensures TableValid(Run(map[], ops))
  {
    RunKeepsValid(map[], ops);
  }
}
