# Usage metering of a chat bot in front of a generative-text API

This project models, in Dafny, the usage-metering core of a Telegram bot
(`main.py`) that forwards user messages to Google's Gemini text API. Each user has
one row in a `users` table: a subscription plan, the tokens left for the day and
the date of the last daily reset. Plans (`free` 1000, `pro` 20000, `premium`
100000 tokens a day) come from a fixed registry. Each chat message goes through
these steps:

1. A blank prompt is refused.
2. The user's row is created or reset for the day.
3. The prompt's cost is estimated at one token per four characters.
4. The request is refused when the balance is exhausted or leaves fewer than 20
   tokens for a reply. Otherwise the backend is asked for at most
   `min(2048, remaining - input)` tokens.
5. If the backend answers, the balance becomes `max(0, remaining - (input + output))`
   and the reply is delivered in slices of at most 4000 characters.
6. If the backend fails, nothing is charged.

Administrators can change a user's plan with `/setplan`, which always grants the new
plan's full allowance.

Modules, one per component:

- `Config` (config.dfy): the plan registry and the constants.
- `Estimate` (estimate.dfy): the cost estimator, Python's whitespace test and
  `strip`, and the prompt built from a message's text and caption.
- `Chunking` (chunking.dfy): splitting a reply into messages.
- `Guard` (guard.dfy): the quota decision, the output ceiling, the new balance, and
  the pure settlement of one request.
- `Ledger` (ledger.dfy): the table as `map<int, Record>`. Pure functions give the
  table after each helper of `main.py`; lemmas prove the ledger invariant for them;
  the class `UserTable` holds the map and has one method per helper, proved to
  produce exactly those tables. `HandleMessage` is the read-then-write of
  `handle_message`, with the backend's outcome as an argument.
- `History` (history.dfy): the invariant over any sequence of operations.
- `Gateway` (gateway.dfy): how the generated text is picked out of the backend's
  JSON reply.
- `Admin` (admin.dfy): the `/setplan` argument checks, including Python's `int()`
  on the user id and its round trip with decimal spelling.
- `Scenarios` (scenarios.dfy): worked examples and a client that drives the class.

The ledger invariant (`Ledger.TableValid`) says that every row has a plan from the
registry and `0 <= tokens_remaining <= allowance(plan)`. It holds for the empty
table and is kept by row creation, daily reset, plan change and message handling.
The direct balance update (`update_user_tokens_and_plan`) keeps it only when its
arguments respect it; its one caller, the debit, always does.

Behaviour of the code worth knowing, which the model follows:

- A failed backend call charges nothing, not even the input estimate: the handler
  returns at main.py:367-370, before the debit at main.py:379. The row may still
  have been created or reset for the day at main.py:332.
- "hello" costs `max(1, 5 // 4)` = 1 token. A new user's "hello" answered with 160
  characters therefore leaves 1000 - 1 - 40 = 959 tokens (`Scenarios.NewUserHello`).
- The daily reset fires whenever the stored date differs from today, including a
  stored date later than today (main.py:142).
- The quota check rejects any balance `<= 0` (main.py:339).
- The debit writes `max(0, remaining - used)` computed from the balance read at
  main.py:332; it does not re-read the row or re-check its date (main.py:379).

## Model

| member | source | states |
|---|---|---|
| Config.AllowanceOf | main.py:59-65 | a registered plan's allowance, the default plan's for any other name (the `.get` fallback at main.py:143); every allowance exceeds the 20-token reply floor |
| Estimate.EstimateTokens | main.py:168-176 | the estimate is at least 1; it is 1 for texts under 8 characters; otherwise it is the length divided by 4, rounded down |
| Estimate.EstimateMonotone | main.py:173-176 | the estimate depends only on the length and never decreases as the text grows |
| Estimate.BlankTextIsNotFree | main.py:173-175 | whitespace-only text of 8 or more characters costs `len // 4 >= 2` tokens |
| Estimate.IsSpace | main.py:327 | Python's `str.isspace`: among ASCII characters exactly tab, newline, vertical tab, form feed, carriage return, the four separators 0x1C-0x1F and space; no letter or digit is whitespace |
| Estimate.Strip | main.py:327 | `strip` never lengthens the text and leaves no whitespace at either end |
| Estimate.StripIsInfix | main.py:327 | the result of `strip` is a slice `s[i..j]` with only whitespace before i and from j on: only leading and trailing whitespace is removed |
| Estimate.StripEmptyIffAllSpace | main.py:327 | `s.strip()` is empty exactly when every character is whitespace |
| Estimate.IsBlank | main.py:327 | `not s.strip()` holds exactly when every character of the text is whitespace |
| Estimate.ComposeText | main.py:326 | the prompt is the text alone when there is no caption; otherwise it is the text, a newline, then the caption |
| Chunking.ChunksConcat | main.py:393 | concatenating the slices gives back the text exactly |
| Chunking.Chunks | main.py:393 | the comprehension's slices; every slice is non-empty and at most n characters long |
| Chunking.ChunkAt | main.py:393 | slice i starts at `i*n < len` and is `s[i*n : min((i+1)*n, len)]`, as the comprehension writes it |
| Chunking.ChunkCount | main.py:393 | there are `ceil(len / n)` slices, one per element of `range(0, len, n)` |
| Chunking.ChunksShort | main.py:389-390 | a non-empty text of at most n characters is one slice |
| Chunking.Replies | main.py:383-395 | a blank reply becomes the notice; any other reply is delivered whole and in order; a reply of at most 4000 characters is one message; every message has 1 to 4000 characters |
| Guard.Authorize | main.py:338-354 | rejects exactly when the balance is `<= 0`, then exactly when fewer than 20 tokens remain after the input; otherwise the ceiling lies in [20, 2048], does not exceed `remaining - input`, and equals 2048 or `remaining - input` |
| Guard.CeilingIgnoresFloor | main.py:354 | when authorised, the ceiling is `min(2048, remaining - input)`: the lower clamp never binds |
| Guard.BalanceAfter | main.py:377-378 | the new balance is never negative; it is 0 exactly when the charge covers the balance, otherwise `remaining - used`; a positive charge strictly lowers a positive balance |
| Guard.Respond | main.py:335-379 | each reply kind happens exactly under its guard condition; a balance is written back exactly when text was generated; the charge is input plus output estimate; the written balance is `max(0, remaining - used)` and below the old balance; the ceiling passed to the backend is `min(2048, remaining - input)`, in [20, 2048]; a refusal for lack of headroom reports the balance read |
| Ledger.Created | main.py:107-115 | the row gets the given plan, or the default one if the name is unknown, with that plan's full allowance and today's date; other rows are unchanged |
| Ledger.Updated | main.py:117-128 | a missing row stays missing; otherwise only the balance is set, plus the plan when one is given and non-empty; the date and other rows are untouched |
| Ledger.Refreshed | main.py:130-150 | the row exists afterwards and is dated today; a missing row becomes a fresh default-plan row; a row dated another day keeps its plan and gets that plan's allowance back; a row dated today is left as it is; other rows are unchanged |
| Ledger.WithPlan | main.py:152-162 | an unknown plan leaves the table unchanged; a known one sets the row to (plan, full allowance, today), creating it if needed; other rows are unchanged |
| Ledger.AfterMessage | main.py:326-379 | a blank prompt leaves the table untouched; otherwise the row is refreshed, its plan and date are kept, and its balance changes only by the settlement's write-back; other rows are unchanged |
| Ledger.RefreshIdempotent | main.py:142-150 | a second reset on the same day is a no-op |
| Ledger.RefreshRestoresAllowance | main.py:142-149 | on a new day the balance goes back to the plan's full allowance and the plan is kept |
| Ledger.CreatedKeepsValid | main.py:107-115 | creating a row keeps the ledger invariant, whatever plan name is passed |
| Ledger.RefreshedKeepsValid | main.py:130-150 | the daily reset keeps the ledger invariant |
| Ledger.WithPlanKeepsValid | main.py:152-162 | a plan change keeps the ledger invariant |
| Ledger.UpdatedKeepsValid | main.py:117-128 | a direct update keeps the invariant when the resulting plan is registered and the balance is within its allowance |
| Ledger.AfterMessageKeepsValid | main.py:332-379 | handling a message keeps the ledger invariant |
| Ledger.FailureChargesNothing | main.py:365-370 | after a failed backend call, the table is the refreshed table: no debit |
| Ledger.MessageNeverRaisesBalance | main.py:373-379 | a message never raises the refreshed balance, and lowers it exactly when a reply was generated |
| Ledger.UserTable.constructor | main.py:81-88 | a new table has no rows and satisfies the ledger invariant |
| Ledger.UserTable.CreateUser | main.py:107-115 | the map becomes `Created(old, ...)` and the invariant is kept |
| Ledger.UserTable.UpdateTokensAndPlan | main.py:117-128 | the map becomes `Updated(old, ...)` |
| Ledger.UserTable.ResetIfNeeded | main.py:130-150 | the map becomes `Refreshed(old, ...)`; the returned plan and balance are the stored row's; the invariant is kept |
| Ledger.UserTable.SetPlan | main.py:152-162 | fails exactly on an unknown plan; the map becomes `WithPlan(old, ...)`; the invariant is kept |
| Ledger.UserTable.HandleMessage | main.py:317-379 | the map and the reply are those of `AfterMessage` on the composed prompt; the invariant is kept |
| History.StepKeepsValid | main.py:107-162 | each operation keeps the invariant and removes no row |
| History.RunKeepsValid | main.py:107-379 | any sequence of creates, resets, plan changes and messages keeps the invariant and removes no row |
| History.ReachableTablesAreValid | main.py:81-162 | every table reachable from an empty database satisfies the invariant |
| Gateway.FirstTruthy | main.py:213-216 | `get(k0) or get(k1) or ""` gives the first truthy value in key order, or `""` when every key is missing or falsy |
| Gateway.ExtractOutput | main.py:208-220 | with a non-empty candidate list, the text is the first candidate's "output", else its "content", else `""`, and a non-object candidate raises; without one it is the body's "output", else "text", else `""`; a body that is not an object is rendered; a picked output is truthy or `""`, never None, so the check at main.py:219-220 never fires |
| Gateway.CallOutcome | main.py:202-221 | a non-200 status or a raised lookup is a backend failure; a string output is the generated text |
| Gateway.EmptyBodyGivesEmptyText | main.py:216-220 | an empty object body yields the output `""` and the generated text `""` |
| Admin.ParseInt | main.py:296-300 | accepts exactly an optional sign followed by digits with single underscores between them; the value is the digits' number (underscores ignored), negated after a minus sign |
| Admin.ShowNatRoundTrip | main.py:297 | a natural number's decimal spelling is well formed and reads back as that number |
| Admin.ParseShowRoundTrip | main.py:297 | every integer written in decimal parses back to itself, so `int()` accepts every id in decimal form |
| Admin.Lower | main.py:301 | lower-casing keeps the length, turns every upper-case ASCII letter into its lower-case partner (so `PRO` is read as `pro`) and keeps every other character |
| Admin.LowerIdempotent | main.py:301 | lower-casing twice is lower-casing once |
| Admin.PlanWordIgnoresCase | main.py:301-304 | for every plan word, its case never changes the answer to `/setplan` |
| Admin.DecideSetPlan | main.py:288-304 | non-admins are refused; then a wrong word count; then an id `int()` rejects; then an unknown plan; an accepted command carries a registered plan and the parsed id |
| Admin.SetPlanCommand | main.py:288-307 | only an accepted command writes, and then the map becomes `WithPlan(old, target, plan, today)`; the modelled `SetPlan` cannot fail on that path |
| Scenarios.NewUserHello | main.py:326-379 | a new user's "hello" answered with 160 characters leaves the row as ("free", 959, today) with a ceiling of 999 |
| Scenarios.FailedCallIsFree | main.py:365-370 | a failed call leaves a 1000-token row untouched |
| Scenarios.TooFewTokens | main.py:346-351 | 10 tokens left with a 5-token prompt are refused, and nothing is written |
| Scenarios.NextDayRollover | main.py:142-149 | yesterday's empty "free" row holds 1000 tokens today |
| Scenarios.UpgradeGrantsFullAllowance | main.py:155-161 | moving a user to "pro" sets 20000 tokens at once |

## Left out

- Chat transport is not modelled: the aiogram handlers, `reply`, `send_chat_action`,
  the best-effort notification of the target user (main.py:308-312), the
  missing-sender checks and the `/start`, `/help` and `/balance` texts. The
  messages a request produces are returned as a `Reply` value.
- The HTTP call to the backend (main.py:187-207, 222-227) is not modelled: the URL,
  the payload, the 60-second timeout and the exceptions. Its result is an argument:
  generated text or failure. The temperature parameter is not modelled.
- Gateway.CallOutcome: returns `None` for two kinds of output it does not follow.
  The first is the `str(data)` rendering of a body that is not an object
  (main.py:218): a string, but the model does not render it. The second is an
  output field that holds a non-string value, whether a candidate's
  "output"/"content" (main.py:213) or the body's own "output"/"text" (main.py:216).
  In the source, an integer or boolean output makes `len()` in `estimate_tokens`
  (main.py:175, called at main.py:373) raise outside any `try`, so the request ends
  with no debit and no reply. A list or object output is charged by its length, and
  then `.strip()` fails at main.py:384 and the handler's `except` at main.py:396
  sends the delivery-failure notice. JSON floats are not modelled.
- SQLite is not modelled: the connection, `CREATE TABLE`, commits, store errors
  (including the "Failed to set plan" path at main.py:313-315, which an id outside
  SQLite's 64-bit integer range reaches: `int()` accepts it, and sqlite3 raises
  OverflowError inside `set_user_plan` at main.py:158-161) and the
  `admin_stats` aggregate. The table is an in-memory map.
- The wall clock (`date.today()`) is not modelled: `today` is a parameter. Dates are
  compared only for equality, as the code does, so "the anchor is never after
  today" is not a property of the model.
- Concurrency is not modelled; the model is sequential. The balance read at
  main.py:332 and the absolute write at main.py:379 straddle an `await`, so two
  simultaneous requests from one user can lose an update. This model does not
  show that interleaving.
- Environment and configuration loading, and the parsing of `ADMIN_IDS`
  (main.py:42-57), are not modelled: the administrator set is a parameter.
  Logging is not modelled.
- Estimate.EstimateTokens: uses exact integer division. Python's
  `int(len(text) / 4)` goes through a float, which differs only for lengths beyond
  2^53.
- Admin.ParseInt: accepts ASCII digits only. Python's `int()` also accepts other
  Unicode decimal digits.
- Admin.Lower: lower-cases ASCII letters only; Python's `str.lower` also maps other
  Unicode letters.
- The splitting of the `/setplan` argument string into words (`get_args().split()`)
  is not modelled: the words are the argument.
- History.RunKeepsValid: has no free-standing `update_user_tokens_and_plan` step.
  Called with arbitrary arguments, that helper can break the invariant
  (`Ledger.UpdatedKeepsValid` states when it does not); its only caller is the
  debit inside a message.
