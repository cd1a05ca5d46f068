/**
  * The plan registry and the constants of the metering engine
  * (main.py:59-68, and the two literals of handle_message at main.py:354 and main.py:388).
  */
module Config {

  /** Subscription plans and their daily token allowance. */
  const Plans: map<string, nat> := map["free" := 1_000, "pro" := 20_000, "premium" := 100_000]

  /** The plan given to users created without a known plan. */
  const DefaultPlan: string := "free"

  /** Tokens that must remain for a reply once the input is paid for. */
  const MinOutputTokens: nat := 20

  /** Hard cap on the output ceiling requested from the backend. */
  const MaxOutputTokens: nat := 2048

  /** Longest chat message sent in one piece. */
  const MaxMessageLength: nat := 4000

  /** Python's `max` of two integers. */
  function Max(a: int, b: int): (m: int)
    ensures m >= a && m >= b && (m == a || m == b)
  {
    if a >= b then a else b
  }

  /** Python's `min` of two integers. */
  function Min(a: int, b: int): int
  {
    if a <= b then a else b
  }

  /**
    * `PLANS.get(plan, PLANS[DEFAULT_PLAN])["daily_tokens"]`: the allowance of a
    * known plan, and the default plan's allowance for any other name.
    */
  function AllowanceOf(plan: string): (n: nat)
    ensures plan in Plans ==> n == Plans[plan]
    ensures plan !in Plans ==> n == Plans[DefaultPlan]
    ensures MinOutputTokens < n
  {
    if plan in Plans then Plans[plan] else Plans[DefaultPlan]
  }
}
