/**
  * The `users` table (main.py:81-88) and the helpers that change it:
  * create_user, update_user_tokens_and_plan, reset_user_daily_if_needed and
  * set_user_plan (main.py:107-162), plus the read-then-write of a balance in
  * handle_message (main.py:326-379). The SQLite table is a map from user id to
  * record; the wall clock is the `today` argument.
  */
module Ledger {
  import opened Wrappers
  import opened Config
  import opened Estimate
  import opened Guard

  type UserId = int

  /** A calendar date in ISO form, as stored in the `last_reset` column; only compared for equality. */
  type Day = string

  /** One row of the `users` table. */
  datatype Record = Record(plan: string, tokensRemaining: int, lastReset: Day)

  type Table = map<UserId, Record>

  /** The ledger invariant for one row: a known plan and a balance within its allowance. */
  predicate WellFormed(r: Record)
  {
    r.plan in Plans && 0 <= r.tokensRemaining <= Plans[r.plan]
  }

  predicate TableValid(t: Table)
  {
    forall id :: id in t ==> WellFormed(t[id])
  }

  /** Every row other than `id` is the same in both tables, and no other row appears. */
  predicate OthersUnchanged(t: Table, t': Table, id: UserId)
  {
    && t'.Keys - {id} == t.Keys - {id}
    && forall u :: u in t && u != id ==> u in t' && t'[u] == t[u]
  }

  /**
    * create_user (main.py:107-115): an unknown plan name becomes the default plan,
    * and the row is written afresh (INSERT OR REPLACE) with the full allowance.
    */
  function Created(t: Table, id: UserId, plan: string, today: Day): (t': Table)
    ensures id in t' && OthersUnchanged(t, t', id)
    ensures t'[id].plan == (if plan in Plans then plan else DefaultPlan)
    ensures WellFormed(t'[id]) && t'[id].tokensRemaining == Plans[t'[id].plan]
    ensures t'[id].lastReset == today
  {
    var p := if plan in Plans then plan else DefaultPlan;
    t[id := Record(p, Plans[p], today)]
  }

  /**
    * update_user_tokens_and_plan (main.py:117-128): an UPDATE, so a missing row
    * stays missing; the plan is written only when one is given and non-empty.
    */
  function Updated(t: Table, id: UserId, tokens: int, plan: Option<string>): (t': Table)
    ensures t'.Keys == t.Keys && OthersUnchanged(t, t', id)
    ensures id in t ==> t'[id].tokensRemaining == tokens && t'[id].lastReset == t[id].lastReset
    ensures id in t ==> t'[id].plan == (if plan.Some? && plan.value != "" then plan.value else t[id].plan)
  {
    if id !in t then t
    else if plan.Some? && plan.value != "" then t[id := t[id].(tokensRemaining := tokens, plan := plan.value)]
    else t[id := t[id].(tokensRemaining := tokens)]
  }

  /**
    * reset_user_daily_if_needed (main.py:130-150): create the row if it is
    * missing; if its date differs from today (any difference, not only an
    * earlier day), restore the allowance of its plan (the default plan's for an
    * unknown name) and date it today; the plan itself is kept.
    */
  function Refreshed(t: Table, id: UserId, today: Day): (t': Table)
    ensures id in t' && OthersUnchanged(t, t', id)
    ensures t'[id].lastReset == today
    ensures id !in t ==> t'[id] == Record(DefaultPlan, Plans[DefaultPlan], today)
    ensures id in t && t[id].lastReset == today ==> t' == t
    ensures id in t && t[id].lastReset != today ==> t'[id] == Record(t[id].plan, AllowanceOf(t[id].plan), today)
  {
    var t1 := if id in t then t else Created(t, id, DefaultPlan, today);
    var r := t1[id];
    if r.lastReset != today then t1[id := r.(tokensRemaining := AllowanceOf(r.plan), lastReset := today)]
    else t1
  }

  /**
    * set_user_plan (main.py:152-162): an unknown plan raises and leaves the table
    * alone; a known one (re)writes the row with that plan's full allowance, dated today.
    */
  function WithPlan(t: Table, id: UserId, plan: string, today: Day): (t': Table)
    ensures plan !in Plans ==> t' == t
    ensures plan in Plans ==> id in t' && OthersUnchanged(t, t', id)
    ensures plan in Plans ==> t'[id] == Record(plan, Plans[plan], today) && WellFormed(t'[id])
  {
    if plan !in Plans then t else t[id := Record(plan, Plans[plan], today)]
  }

  /** The table after one message, and the reply. */
  datatype Handled = Handled(table: Table, reply: Reply)

  /**
    * handle_message from the blank check to the debit (main.py:326-379): a blank
    * prompt is answered without touching the table; otherwise the row is
    * refreshed, the request settled against its balance, and only a generated
    * reply writes the new balance back.
    */
  function AfterMessage(t: Table, id: UserId, prompt: string, today: Day, backend: BackendOutcome): (h: Handled)
    ensures IsBlank(prompt) ==> h == Handled(t, AskForText)
    ensures !IsBlank(prompt) ==>
      var renewed := Refreshed(t, id, today);
      var s := Respond(renewed[id].tokensRemaining, prompt, backend);
      && h.reply == s.reply
      && id in h.table && OthersUnchanged(t, h.table, id)
      && h.table[id].plan == renewed[id].plan
      && h.table[id].lastReset == today
      && h.table[id].tokensRemaining == (if s.newBalance.Some? then s.newBalance.value else renewed[id].tokensRemaining)
  {
    if IsBlank(prompt) then Handled(t, AskForText)
    else
      var renewed := Refreshed(t, id, today);
      var s := Respond(renewed[id].tokensRemaining, prompt, backend);
      match s.newBalance
      case None => Handled(renewed, s.reply)
      case Some(balance) => Handled(Updated(renewed, id, balance, None), s.reply)
  }

  // ----- Properties of the ledger operations -----

  /** A second refresh on the same day changes nothing. */
  lemma RefreshIdempotent(t: Table, id: UserId, today: Day)
    ensures Refreshed(Refreshed(t, id, today), id, today) == Refreshed(t, id, today)
  {
  }

  /** Daily rollover: a row dated another day gets its plan's full allowance back. */
  lemma RefreshRestoresAllowance(t: Table, id: UserId, today: Day)
    requires id in t && t[id].lastReset != today && TableValid(t)
    ensures Refreshed(t, id, today)[id].tokensRemaining == Plans[t[id].plan]
    ensures Refreshed(t, id, today)[id].plan == t[id].plan
  {
  }

  /** Creating a row keeps the invariant, whatever plan name is passed. */
  lemma CreatedKeepsValid(t: Table, id: UserId, plan: string, today: Day)
    requires TableValid(t)
    ensures TableValid(Created(t, id, plan, today))
  {
  }

  /** Refreshing keeps the invariant. */
  lemma RefreshedKeepsValid(t: Table, id: UserId, today: Day)
    requires TableValid(t)
    ensures TableValid(Refreshed(t, id, today))
  {
  }

  /** Changing the plan keeps the invariant, whether or not the name is known. */
  lemma WithPlanKeepsValid(t: Table, id: UserId, plan: string, today: Day)
    requires TableValid(t)
    ensures TableValid(WithPlan(t, id, plan, today))
  {
  }

  /** A direct balance update keeps the invariant only when its arguments respect it. */
  lemma UpdatedKeepsValid(t: Table, id: UserId, tokens: int, plan: Option<string>)
    requires TableValid(t)
    requires id in t
    requires var p := if plan.Some? && plan.value != "" then plan.value else t[id].plan;
      p in Plans && 0 <= tokens <= Plans[p]
    ensures TableValid(Updated(t, id, tokens, plan))
  {
  }

  /** Handling a message keeps the invariant: the debit only lowers a valid balance. */
  lemma AfterMessageKeepsValid(t: Table, id: UserId, prompt: string, today: Day, backend: BackendOutcome)
    requires TableValid(t)
    ensures TableValid(AfterMessage(t, id, prompt, today, backend).table)
  {
    if !IsBlank(prompt) {
      RefreshedKeepsValid(t, id, today);
    }
  }

  /** A failed backend call charges nothing: only the freshness reset is kept. */
  lemma FailureChargesNothing(t: Table, id: UserId, prompt: string, today: Day)
    requires !IsBlank(prompt)
    ensures AfterMessage(t, id, prompt, today, Failed).table == Refreshed(t, id, today)
  {
  }

  /**
    * A request never raises a balance: the stored value after a message is at
    * most the refreshed one, and is lower exactly when a reply was generated.
    */
  lemma MessageNeverRaisesBalance(t: Table, id: UserId, prompt: string, today: Day, backend: BackendOutcome)
    requires !IsBlank(prompt)
    ensures var before := Refreshed(t, id, today)[id].tokensRemaining;
      var h := AfterMessage(t, id, prompt, today, backend);
      && h.table[id].tokensRemaining <= before
      && (h.table[id].tokensRemaining < before <==> h.reply.Answered?)
  {
  }

  /**
    * An object holding the `users` table; each method is one of the helpers of
    * main.py and changes the map in place.
    */
  class UserTable {
    var users: Table

    constructor ()
      ensures users == map[] && Valid()
    {
      users := map[];
    }

    predicate Valid()
      reads this
    {
      TableValid(users)
    }

    /** create_user (main.py:107-115). */
    method CreateUser(id: UserId, plan: string, today: Day)
      modifies this
      ensures users == Created(old(users), id, plan, today)
      ensures old(Valid()) ==> Valid()
    {
      var p := if plan in Plans then plan else DefaultPlan;
      var tokens := Plans[p];
      users := users[id := Record(p, tokens, today)];
    }

    /** update_user_tokens_and_plan (main.py:117-128). */
    method UpdateTokensAndPlan(id: UserId, tokens: int, plan: Option<string>)
      modifies this
      ensures users == Updated(old(users), id, tokens, plan)
    {
      if id in users {
        if plan.Some? && plan.value != "" {
          users := users[id := users[id].(tokensRemaining := tokens, plan := plan.value)];
        } else {
          users := users[id := users[id].(tokensRemaining := tokens)];
        }
      }
    }

    /** reset_user_daily_if_needed (main.py:130-150): returns the row's plan and balance. */
    method ResetIfNeeded(id: UserId, today: Day) returns (plan: string, tokens: int)
      modifies this
      ensures users == Refreshed(old(users), id, today)
      ensures plan == users[id].plan && tokens == users[id].tokensRemaining
      ensures old(Valid()) ==> Valid()
    {
      ghost var before := users;
      if id !in users {
        CreateUser(id, DefaultPlan, today);
      }
      var row := users[id];
      plan, tokens := row.plan, row.tokensRemaining;
      if row.lastReset != today {
        var allowance := AllowanceOf(plan);
        users := users[id := row.(tokensRemaining := allowance, lastReset := today)];
        tokens := allowance;
      }
      if TableValid(before) {
        RefreshedKeepsValid(before, id, today);
      }
    }

    /** set_user_plan (main.py:152-162): `Fail` stands for the ValueError. */
    method SetPlan(id: UserId, plan: string, today: Day) returns (r: Outcome<string>)
      modifies this
      ensures r.Fail? <==> plan !in Plans
      ensures users == WithPlan(old(users), id, plan, today)
      ensures old(Valid()) ==> Valid()
    {
      if plan !in Plans {
        return Fail("Unknown plan");
      }
      var tokens := Plans[plan];
      users := users[id := Record(plan, tokens, today)];
      r := Pass;
    }

    /**
      * handle_message (main.py:326-379) for a message with text and caption
      * (each "" when absent), on the day `today`, whose backend call has the
      * outcome `backend`.
      */
    method HandleMessage(id: UserId, text: string, caption: string, today: Day, backend: BackendOutcome)
      returns (reply: Reply)
      modifies this
      ensures Handled(users, reply) == AfterMessage(old(users), id, ComposeText(text, caption), today, backend)
      ensures old(Valid()) ==> Valid()
    {
      ghost var before := users;
      var prompt := ComposeText(text, caption);
      if IsBlank(prompt) {
        return AskForText;
      }
      var plan, remaining := ResetIfNeeded(id, today);
      ghost var settled := Respond(remaining, prompt, backend);
      var inputTokens := EstimateTokens(prompt);
      match Authorize(remaining, inputTokens)
      case QuotaExhausted =>
        reply := Exhausted;
        assert settled == Settlement(reply, None);
      case InsufficientHeadroom =>
        reply := NotEnoughTokens(remaining);
        assert settled == Settlement(reply, None);
      case Authorized(ceiling) =>
        match backend
        case Failed =>
          reply := ModelError(ceiling);
          assert settled == Settlement(reply, None);
        case Generated(gen) =>
          var outputTokens := EstimateTokens(gen);
          var used := inputTokens + outputTokens;
          var newRemaining := BalanceAfter(remaining, used);
          UpdateTokensAndPlan(id, newRemaining, None);
          reply := Answered(ceiling, used, Chunking.Replies(gen));
          assert settled == Settlement(reply, Some(newRemaining));
      if TableValid(before) {
        AfterMessageKeepsValid(before, id, prompt, today, backend);
      }
    }
  }
}
