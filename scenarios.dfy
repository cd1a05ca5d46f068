/**
  * Worked examples of the metering rules, stated as the code computes them.
  */
module Scenarios {
  import opened Wrappers
  import opened Config
  import opened Estimate
  import opened Guard
  import opened Ledger

  /**
    * A new user says "hello" (five characters, estimated at one token) and the
    * model answers with 160 characters (40 tokens): 1000 - 1 - 40 remain.
    */
  lemma NewUserHello(today: Day)
    ensures var h := AfterMessage(map[], 7, "hello", today, Generated(seq(160, _ => 'a')));
      && h.reply.Answered? && h.reply.ceiling == 999 && h.reply.used == 41
      && h.table[7] == Record("free", 959, today)
  {
    assert !IsSpace("hello"[0]);
    assert EstimateTokens("hello") == 1;
    var gen := seq(160, _ => 'a');
    assert !IsSpace(gen[0]);
  }

  /** A failed backend call leaves a full balance untouched. */
  lemma FailedCallIsFree(today: Day)
    ensures var t := map[7 := Record("free", 1000, today)];
      AfterMessage(t, 7, seq(200, _ => 'a'), today, Failed) == Handled(t, ModelError(950))
  {
    var prompt := seq(200, _ => 'a');
    assert !IsSpace(prompt[0]);
  }

  /** Ten tokens left and a five-token prompt: refused, nothing written. */
  lemma TooFewTokens(today: Day)
    ensures var t := map[7 := Record("free", 10, today)];
      AfterMessage(t, 7, seq(20, _ => 'a'), today, Generated("x")) == Handled(t, NotEnoughTokens(10))
  {
    var prompt := seq(20, _ => 'a');
    assert !IsSpace(prompt[0]);
  }

  /** Yesterday's empty balance is full again today. */
  lemma NextDayRollover(yesterday: Day, today: Day)
    requires yesterday != today
    ensures Refreshed(map[7 := Record("free", 0, yesterday)], 7, today)[7] == Record("free", 1000, today)
  {
  }

  /** Raising a user to "pro" grants the full 20000 at once. */
  lemma UpgradeGrantsFullAllowance(today: Day)
    ensures WithPlan(map[7 := Record("free", 3, today)], 7, "pro", today)[7] == Record("pro", 20_000, today)
  {
  }

  /** The calls of the bot in sequence, against the table object. */
  method ClientRun(today: Day, tomorrow: Day)
    requires today != tomorrow
  {
    var table := new UserTable();
    var plan, tokens := table.ResetIfNeeded(7, today);
    assert plan == "free" && tokens == 1000;
    var r := table.SetPlan(7, "gold", today);
    assert r.Fail? && table.users[7].plan == "free";
    r := table.SetPlan(7, "pro", today);
    assert r.Pass? && table.users[7] == Record("pro", 20_000, today);
    var reply := table.HandleMessage(7, "", " \n", today, Generated("ignored"));
    assert reply == AskForText;
    table.UpdateTokensAndPlan(7, 5, None);
    plan, tokens := table.ResetIfNeeded(7, tomorrow);
    assert plan == "pro" && tokens == 20_000;
    assert table.Valid();
  }
}
