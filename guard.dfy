/**
  * The per-request arithmetic of handle_message (main.py:335-379): the quota
  * guard, the output ceiling handed to the backend, and the balance written back.
  */
module Guard {
  import opened Wrappers
  import opened Config
  import opened Estimate
  import opened Chunking

  /** The guard's verdict on one request. */
  datatype Decision = QuotaExhausted | InsufficientHeadroom | Authorized(ceiling: int)

  /**
    * Rejects an exhausted balance, then a balance that leaves fewer than
    * MinOutputTokens once the input is paid for; otherwise grants the ceiling
    * `min(2048, max(20, remaining - input))` (main.py:339-354).
    */
  function Authorize(remaining: int, inputTokens: int): (d: Decision)
    ensures d.QuotaExhausted? <==> remaining <= 0
    ensures d.InsufficientHeadroom? <==> 0 < remaining && remaining - inputTokens < MinOutputTokens
    ensures d.Authorized? ==> MinOutputTokens <= d.ceiling <= MaxOutputTokens
    ensures d.Authorized? ==> d.ceiling <= remaining - inputTokens
    ensures d.Authorized? ==> d.ceiling == MaxOutputTokens || d.ceiling == remaining - inputTokens
  {
    if remaining <= 0 then QuotaExhausted
    else if remaining - inputTokens < MinOutputTokens then InsufficientHeadroom
    else Authorized(Min(MaxOutputTokens, Max(MinOutputTokens, remaining - inputTokens)))
  }

  /**
    * `max(0, remaining - used)` (main.py:378): the balance after a charge never
    * drops below zero, and is exact whenever the charge fits.
    */
  function BalanceAfter(remaining: int, used: int): (r: int)
    ensures 0 <= r
    ensures r == 0 <==> remaining <= used
    ensures 0 < r ==> r == remaining - used
    ensures 0 < used && 0 < remaining ==> r < remaining
  {
    Max(0, remaining - used)
  }

  /** What the backend call produced: generated text, or an exception. */
  datatype BackendOutcome = Generated(text: string) | Failed

  /** What handle_message tells the user. */
  datatype Reply =
    | AskForText                    // blank prompt (main.py:327-329)
    | Exhausted                     // balance at or below zero (main.py:339-343)
    | NotEnoughTokens(remaining: int)  // no room for a reply (main.py:346-351)
    | ModelError(ceiling: int)      // the backend raised (main.py:367-370)
    | Answered(ceiling: int, used: int, messages: seq<string>)  // main.py:373-395

  /** The reply to one request and the balance to write back, if any. */
  datatype Settlement = Settlement(reply: Reply, newBalance: Option<int>)

  /**
    * One request against a fresh balance: estimate the prompt, consult the
    * guard, and on a generated text charge input plus output estimates.
    */
  function Respond(remaining: int, prompt: string, backend: BackendOutcome): (o: Settlement)
    ensures o.reply.Exhausted? <==> remaining <= 0
    ensures o.reply.NotEnoughTokens? <==> 0 < remaining && remaining - EstimateTokens(prompt) < MinOutputTokens
    ensures o.reply.ModelError? <==> 0 < remaining && MinOutputTokens <= remaining - EstimateTokens(prompt) && backend.Failed?
    ensures o.newBalance.Some? <==> o.reply.Answered?
    ensures o.reply.Answered? <==> 0 < remaining && MinOutputTokens <= remaining - EstimateTokens(prompt) && backend.Generated?
    ensures o.reply.NotEnoughTokens? ==> o.reply.remaining == remaining
    ensures o.reply.ModelError? || o.reply.Answered? ==>
      MinOutputTokens <= o.reply.ceiling <= MaxOutputTokens && o.reply.ceiling <= remaining - EstimateTokens(prompt)
    ensures o.reply.ModelError? || o.reply.Answered? ==>
      o.reply.ceiling == Min(MaxOutputTokens, remaining - EstimateTokens(prompt))
    ensures o.reply.Answered? ==>
      && o.reply.used == EstimateTokens(prompt) + EstimateTokens(backend.text)
      && o.reply.messages == Replies(backend.text)
      && o.newBalance.value == BalanceAfter(remaining, o.reply.used)
      && 0 <= o.newBalance.value < remaining
  {
    var inputTokens := EstimateTokens(prompt);
    match Authorize(remaining, inputTokens)
    case QuotaExhausted => Settlement(Exhausted, None)
    case InsufficientHeadroom => Settlement(NotEnoughTokens(remaining), None)
    case Authorized(ceiling) =>
      match backend
      case Failed => Settlement(ModelError(ceiling), None)
      case Generated(gen) =>
        var used := inputTokens + EstimateTokens(gen);
        Settlement(Answered(ceiling, used, Replies(gen)), Some(BalanceAfter(remaining, used)))
  }

  /** The lower clamp of the ceiling never binds: the guard has already excluded it. */
  lemma CeilingIgnoresFloor(remaining: int, inputTokens: int)
    requires Authorize(remaining, inputTokens).Authorized?
    ensures Authorize(remaining, inputTokens).ceiling == Min(MaxOutputTokens, remaining - inputTokens)
  {
  }
}
