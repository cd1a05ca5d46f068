/**
  * The argument checks of the `/setplan <user_id> <plan>` command
  * (main.py:288-306): the caller must be an administrator, there must be exactly
  * two words, the first must be an integer as Python's `int()` reads it, and the
  * second, lower-cased, must name a plan. Only then is set_user_plan called.
  */
module Admin {
  import opened Wrappers
  import opened Config
  import opened Ledger

  predicate IsDigit(c: char)
  {
    '0' <= c <= '9'
  }

  /**
    * The digits part accepted by `int()` in base 10 (ASCII digits): digits with
    * single underscores between them.
    */
  predicate ValidDigits(d: string)
  {
    && d != []
    && IsDigit(d[0]) && IsDigit(d[|d| - 1])
    && (forall i :: 0 <= i < |d| ==> IsDigit(d[i]) || d[i] == '_')
    && (forall i :: 0 < i < |d| ==> d[i - 1] != '_' || d[i] != '_')
  }

  /** The number the digits spell, underscores ignored. */
  function DigitsValue(d: string): nat
    decreases |d|
  {
    if d == [] then 0
    else
      var last := d[|d| - 1];
      if IsDigit(last) then DigitsValue(d[..|d| - 1]) * 10 + (last as int - '0' as int)
      else DigitsValue(d[..|d| - 1])
  }

  /** Python's `int(word)` for a word without whitespace: `None` stands for the ValueError. */
  function ParseInt(word: string): (r: Option<int>)
    ensures r.Some? <==>
      if word != [] && (word[0] == '-' || word[0] == '+') then ValidDigits(word[1..]) else ValidDigits(word)
    ensures r.Some? && word[0] == '-' ==> r.value == -(DigitsValue(word[1..]) as int)
    ensures r.Some? && word[0] != '-' ==> r.value == DigitsValue(if word[0] == '+' then word[1..] else word)
  {
    if word != [] && (word[0] == '-' || word[0] == '+') then
      var digits := word[1..];
      if !ValidDigits(digits) then None
      else if word[0] == '-' then Some(-(DigitsValue(digits) as int))
      else Some(DigitsValue(digits))
    else if ValidDigits(word) then Some(DigitsValue(word))
    else None
  }

  function DigitChar(n: nat): char
    requires n < 10
  {
    ('0' as int + n) as char
  }

  /** The decimal spelling of a natural number, as Python's `str` writes it. */
  function ShowNat(n: nat): string
    decreases n
  {
    if n < 10 then [DigitChar(n)] else ShowNat(n / 10) + [DigitChar(n % 10)]
  }

  /** The decimal spelling of an integer, with a minus sign when negative. */
  function ShowInt(n: int): string
  {
    if n < 0 then "-" + ShowNat(-n) else ShowNat(n)
  }

  /** Decimal spelling is read back as the same number. */
  lemma {:induction false} ShowNatRoundTrip(n: nat)
    ensures ValidDigits(ShowNat(n))
    ensures DigitsValue(ShowNat(n)) == n
    decreases n
  {
    var s := ShowNat(n);
    if n >= 10 {
      ShowNatRoundTrip(n / 10);
      var prefix := ShowNat(n / 10);
      assert s[..|s| - 1] == prefix;
      assert forall i :: 0 <= i < |prefix| ==> s[i] == prefix[i];
    }
  }

  /** Every user id written in decimal is accepted by the `/setplan` id check. */
  lemma ParseShowRoundTrip(n: int)
    ensures ParseInt(ShowInt(n)) == Some(n)
  {
    var w := ShowInt(n);
    if n < 0 {
      var d := ShowNat(-n);
      ShowNatRoundTrip(-n);
      assert w == "-" + d && w[0] == '-' && w[1..] == d;
      assert ParseInt(w) == Some(-(DigitsValue(d) as int));
    } else {
      ShowNatRoundTrip(n);
      assert w == ShowNat(n);
      assert IsDigit(w[0]);
      assert ParseInt(w) == Some(DigitsValue(w) as int);
    }
  }

  /** ASCII lower-casing of one character. */
  function LowerChar(c: char): char
  {
    if 'A' <= c <= 'Z' then (c as int - 'A' as int + 'a' as int) as char else c
  }

  /**
    * `s.lower()` on ASCII text: same length, every upper-case ASCII letter
    * replaced by its lower-case partner, other characters kept.
    */
  function Lower(s: string): (r: string)
    ensures |r| == |s|
    ensures forall i :: 0 <= i < |r| ==> !('A' <= r[i] <= 'Z')
    ensures forall i :: 0 <= i < |s| && 'A' <= s[i] <= 'Z' ==> r[i] as int == s[i] as int + ('a' as int - 'A' as int)
    ensures forall i :: 0 <= i < |s| && !('A' <= s[i] <= 'Z') ==> r[i] == s[i]
  {
    seq(|s|, i requires 0 <= i < |s| => LowerChar(s[i]))
  }

  /** Lower-casing twice is lower-casing once. */
  lemma LowerIdempotent(s: string)
    ensures Lower(Lower(s)) == Lower(s)
  {
  }

  /**
    * The case of the plan word never changes the answer to `/setplan`: the plan
    * is lower-cased before it is looked up.
    */
  lemma PlanWordIgnoresCase(adminId: UserId, admins: set<UserId>, id: string, word: string)
    ensures DecideSetPlan(adminId, admins, [id, word]) == DecideSetPlan(adminId, admins, [id, Lower(word)])
  {
    LowerIdempotent(word);
  }

  /** The answer to a `/setplan` command. */
  datatype SetPlanReply =
    | NotAuthorized                        // main.py:288-290
    | Usage                                // main.py:293-295
    | InvalidUserId                        // main.py:296-300
    | UnknownPlan                          // main.py:302-304
    | PlanChanged(target: UserId, plan: string)  // main.py:305-307

  /** The checks of main.py:288-304, in the order the handler makes them. */
  function DecideSetPlan(adminId: UserId, admins: set<UserId>, args: seq<string>): (d: SetPlanReply)
    ensures d.NotAuthorized? <==> adminId !in admins
    ensures d.Usage? <==> adminId in admins && |args| != 2
    ensures d.InvalidUserId? <==> adminId in admins && |args| == 2 && ParseInt(args[0]).None?
    ensures d.UnknownPlan? <==>
      adminId in admins && |args| == 2 && ParseInt(args[0]).Some? && Lower(args[1]) !in Plans
    ensures d.PlanChanged? ==>
      && d.plan in Plans && d.plan == Lower(args[1])
      && ParseInt(args[0]) == Some(d.target)
  {
    if adminId !in admins then NotAuthorized
    else if |args| != 2 then Usage
    else match ParseInt(args[0])
      case None => InvalidUserId
      case Some(target) =>
        var plan := Lower(args[1]);
        if plan !in Plans then UnknownPlan else PlanChanged(target, plan)
  }

  /**
    * The `/setplan` command against the table: only an accepted command writes,
    * and then set_user_plan cannot raise, since the plan was already checked.
    */
  method SetPlanCommand(table: UserTable, adminId: UserId, admins: set<UserId>, args: seq<string>, today: Day)
    returns (reply: SetPlanReply)
    modifies table
    ensures reply == DecideSetPlan(adminId, admins, args)
    ensures reply.PlanChanged? ==> table.users == WithPlan(old(table.users), reply.target, reply.plan, today)
    ensures !reply.PlanChanged? ==> table.users == old(table.users)
  {
    reply := DecideSetPlan(adminId, admins, args);
    if reply.PlanChanged? {
      var outcome := table.SetPlan(reply.target, reply.plan, today);
      assert outcome.Pass?;
    }
  }
}
