# homework_bot, modelled in Dafny

The bot polls a homework-review API and forwards status changes to a Telegram
chat. This project models what happens between the HTTP call and the Telegram
call. That covers four things:

- validating the API answer (`check_response`);
- turning the newest homework record into a notification (`parse_status`);
- checking the three required settings (`check_tokens`);
- the poll loop in `main`: a fixed cursor, `prev_report` deduplication, and
  sorting exceptions into "log only" and "log and alert the chat".

Files:

- `wrappers.dfy`: `Option` and `Result`.
- `json.dfy`: decoded JSON values and the Python value semantics the bot
  relies on. That means truthiness, `in` and `.get` on dicts, type names,
  `str` and `repr`.
- `homework.dfy`: the pure stages `CheckResponse`, `ParseStatus` and
  `CheckTokens`, with lemmas about them.
- `bot.dfy`: one cycle as a specification function (`CycleSpec`) and its
  lemmas. It also holds the `Poller` class, whose `Cycle` and `Run` methods
  are proved against `CycleSpec` and `RunSpec`, and start-up (`Launch`).
  The as-written members that back the findings below are there too.

Inputs the real program gets from outside become parameters:

- what the endpoint call produced (`Fetch`: a decoded 200 answer, a
  `TimeoutError`, a non-OK status, or any other exception);
- what the messenger does with each send attempt of a cycle (`SendResult`);
- the three settings;
- the verdict table `HOMEWORK_VERDICTS`;
- the start-up time.

A send is an output event: the message handed to the messenger.

Where the code departs from what a reader might expect, the model follows
the code:

- A missing `homeworks` key is a `KeyError`, raised by the indexing at line
  53. The test at line 49 only checks `current_date`.
- `prev_report` is set before the message is sent. A refused report is
  therefore not retried while its record stays the newest one; there is no
  retry of a failed delivery. The comparison is with `prev_report` only, so
  a text comes back if the newest record changes and then changes back
  (A, B, A sends A twice).
- Type, key and unknown-status errors are only logged. Only a generic
  exception alerts the chat.
- Start-up with a missing setting exits without sending any alert.
- The cursor is taken once at start-up and never advanced.
- The messages are the program's own Russian texts.

## Model

| member | source | states |
|---|---|---|
| `Homework.CheckResponse` | homework.py:43-58 | accepts exactly a dict holding `current_date` and a list under `homeworks`, and then returns that very list; every rejection is a TypeError or a KeyError |
| `Homework.CheckResponseRejects` | homework.py:46-57 | a non-dict is a TypeError; a dict without `current_date` or without `homeworks` is a KeyError; a non-list `homeworks` is a TypeError |
| `Homework.EnvelopeRoundTrip` | homework.py:53-58 | for any answer built from a list, the date and unrelated extra members, validation returns the list unchanged and in order |
| `Homework.ParseStatus` | homework.py:61-73 | a non-dict record fails on `.get` with the AttributeError text; a falsy or missing name or status is a KeyError; with both truthy, an unhashable status (list or dict) is a TypeError and any other status outside the verdict table is UnknownStatus; the result is a message iff the record is a dict with a truthy name and a non-empty string status in the table, and then it is the message for that name and `HOMEWORK_VERDICTS[status]` |
| `Homework.MissingFieldFirst` | homework.py:64-70 | a falsy or missing name or status is a KeyError, even when the status is also unknown: this check comes first |
| `Homework.ParseRecord` | homework.py:64-73 | for a record built from a name and a status: an empty name or status is a KeyError; a status outside the table is UnknownStatus; otherwise the result is the message with `HOMEWORK_VERDICTS[status]` |
| `Homework.VerdictsDistinguish` | homework.py:72-73 | for one homework name, different verdicts give different messages |
| `Homework.MessageInjective` | homework.py:73 | for names without a double quote, the message determines both the name and the verdict |
| `Homework.MessageInjectiveForVerdicts` | homework.py:72-73 | for any names, if the verdict texts have no double quote, the message determines both the name and the verdict |
| `Homework.QuotedNameAmbiguous` | homework.py:73 | with a name holding `". `, two different name and verdict pairs give the same message, one of them with a quote in the verdict, so neither injectivity lemma holds without its quote-free condition |
| `Homework.All` | homework.py:78 | `all(...)` over settings is true iff every one is set and non-empty |
| `Homework.CheckTokens` | homework.py:76-78 | true iff all three settings are set and non-empty |
| `Bot.Launch` | homework.py:81-93 | with a setting missing there is no poller (the process exits without polling or sending); otherwise a fresh poller starts with an empty `prev_report` and its cursor at the start-up time |
| `Bot.FetchStage` | homework.py:34-40 | only a 200 answer yields a value, and that value is the decoded body; a timeout is a TimeoutError, a non-OK status a NotOkResponse, and any other exception a generic failure with its own text |
| `Bot.Latest` | homework.py:97-102 | the try block up to the comparison: an endpoint error or a rejected answer is that error; an empty homeworks list is the only way to get no message; otherwise the result is `parse_status` of the first record, message or error |
| `Bot.Handle` | homework.py:107-122 | the except clauses record the caught exception and the report; they alert iff the exception is generic, with the failure prefix and its text, and the loop ends iff that alert is refused |
| `Bot.CycleSpec` | homework.py:96-124 | one iteration queries with the cursor and ends the loop only after sending an alert |
| `Bot.CycleOutcome` | homework.py:99-124 | full outcome of one iteration: `prev_report` becomes the parsed message if there is one; a report is sent iff that message differs from `prev_report`; the caught exception is the try block's or the messenger's refusal of the report; an alert is sent iff the caught exception is generic; the loop ends iff that alert is refused |
| `Bot.EndpointErrorsQuiet` | homework.py:34-40 | a timeout or a non-OK answer is caught as that error; the cycle sends nothing, alerts nothing, keeps `prev_report` and goes on |
| `Bot.Classify` | homework.py:107-122 | exactly the generic exceptions are alerted, with the message `Сбой в работе программы: ` followed by the exception text; all named exception kinds are only logged |
| `Bot.OnlyFirstRecord` | homework.py:98-102 | two valid answers with the same first record give the same cycle result: later records are ignored |
| `Bot.EmptyListQuiet` | homework.py:99-100 | an answer with an empty homeworks list, a date and any other members makes a whole cycle that catches nothing, sends nothing and leaves `prev_report` unchanged |
| `Bot.ReportIffChanged` | homework.py:102-105 | a parsed message is sent iff it differs from `prev_report`, and `prev_report` holds it afterwards either way |
| `Bot.ErrorsClassified` | homework.py:107-124 | after an error, `prev_report` is unchanged and no report is sent; timeout, non-OK, type, key and unknown-status errors send nothing; any other error sends exactly one prefixed alert, and the loop ends only if that alert is refused |
| `Bot.RefusedReportAlerted` | homework.py:16-24 | when the messenger refuses a report, `prev_report` already holds it, the refusal is alerted with both prefixes, and the loop ends only if that alert is refused too |
| `Bot.RepeatSendsNothing` | homework.py:102-105 | a second cycle over the same parsed record sends nothing and changes nothing, even if the first send was refused |
| `Bot.RunSpec` | homework.py:95-124 | a run performs at most one cycle per input, and at least one when there is any input |
| `Bot.SameRecordReportedOnce` | homework.py:95-105 | a run whose every try block parses the same message reports it once, or never if it already was the last report |
| `Bot.RunKeepsCursor` | homework.py:92-97 | every cycle of a run queries with the start-up timestamp, only the last cycle may let an exception escape, and a run stops early only at a cycle whose exception escaped |
| `Bot.ReportExtendsHistory` | homework.py:103-104 | a report that differs from the last one keeps the report history free of immediate repeats |
| `Bot.Poller.constructor` | homework.py:91-93 | the poller starts with an empty `prev_report`, an empty history and the cursor at the start-up time |
| `Bot.Poller.Cycle` | homework.py:96-124 | one loop iteration yields `CycleSpec`'s new `prev_report` and report; the history grows by exactly the report sent; the poller keeps running unless an exception escaped; `prev_report` stays the last report and no report repeats the one before it |
| `Bot.Poller.Settle` | homework.py:99-124 | comparing, sending and the except clauses yield exactly `CycleSpec`'s new `prev_report` and report for the try block's result, and keep the same invariant |
| `Bot.Poller.Run` | homework.py:95-124 | the loop yields exactly `RunSpec` over the try results of its inputs; the history grows by exactly the reports of this run, in order, and stays free of immediate repeats with `prev_report` its last entry; every cycle queries with the fixed cursor; it stops early only after an escaped exception |
| `Bot.ReportsSnoc` | homework.py:103-105 | the reports of a run with one more cycle are those before it followed by that cycle's report, if it sent one |
| `Bot.HandleAsWritten` | homework.py:107-110 | as written, only a TimeoutError is handled; any other exception escapes with the AttributeError for `e.NotOkResponse` |
| `Bot.NonDictAnswerEndsLoopAsWritten` | homework.py:107-111 | an answer that is not a dict is a TypeError; the except chain as written lets it escape, while the intended handling only logs it |
| `Bot.FetchAsWritten` | homework.py:36-39 | as written, a non-OK answer raises an UnboundLocalError, because `except TimeoutError as e` makes `e` a local name that is unbound at line 39; every other outcome is unchanged |
| `Bot.NotOkEscapesAsWritten` | homework.py:36-39 | as written, a non-OK answer's UnboundLocalError escapes the except chain of line 109 and ends the loop; with that chain corrected it would be alerted as a generic failure; the intended NotOkResponse is only logged |
| `Bot.ParseStatusAsWritten` | homework.py:69-71 | as written, a status outside the verdict table raises the AttributeError for `e.NotExpectedHwStatusException`; every other result is unchanged |
| `Bot.UnknownStatusEscapesAsWritten` | homework.py:69-71 | a record with an unknown status is meant to be only logged; as written its AttributeError escapes the except chain of line 109, and with that chain corrected it would be alerted as a generic failure |

## Left out

- `send_message` and the Telegram `Bot` (homework.py:16-24) are external
  messaging. A send is modelled as the message handed over plus the
  messenger's answer (`Delivered` or `Refused(reason)`). The reason is the
  text of the messenger's error. The prefix clean-up the Telegram library
  applies to error texts is not modelled; the bot's own prefix does not
  trigger it.
- `get_api_answer` (homework.py:27-40) is an HTTP call. Its URL, headers,
  `from_date` parameter and 10-second timeout are replaced by the `Fetch`
  outcome. The `requests` library's own timeout exception is not a
  `TimeoutError`; it reaches the loop as `Broken`, like every other exception
  from the request or the decoding.
- Logging, `time.sleep(RETRY_TIME)`, `time.time()` and `sys.exit` are not
  modelled. Every cycle, including one whose exception escapes, ends with the
  same sleep; the model has no clock. The start-up time is a parameter.
  Exiting is `Launch` returning no poller.
- The `settings` module is not part of this model. The tokens and
  `HOMEWORK_VERDICTS` are parameters.
- The exceptions module (exceptions.py:1-10) declares two unused classes.
  Errors are the `Error` datatype instead.
- The code raises and catches names that are never defined. They are
  `e.NotOkResponseExeption` at homework.py:39 (where `e` is an unbound local),
  `e.NotExpectedHwStatusException` at homework.py:70 and homework.py:117,
  and `e.NotOkResponse` at homework.py:109. The main model gives them their
  evident meaning: `NotOkResponse` stands for lines 39 and 109, and
  `UnknownStatus` for lines 70 and 117. Both are only logged. What Python
  does with the code as written is under Findings.
- The missing-settings message built at homework.py:84-87 is logged at
  critical level and passed to `sys.exit`, which prints it. If
  `constant_tuple` holds a setting that is None, `msg + i` at line 87
  raises TypeError before anything is logged. Either way the process ends
  without polling or alerting; the model keeps only that outcome, not the
  message.
- Bot.Poller.Run: the source loops forever; `Run` performs one cycle per
  given input and then returns.
- Diagnostic texts of exceptions that are only logged (the key lists, the
  offending values) are not kept; only the texts that can reach the chat are.
- JSON floating-point numbers are not modelled.
- Json.Repr: a non-string homework name appears in the message through
  Python's `repr`. Python's escapes for non-printable characters beyond
  ASCII are not modelled. An object with a repeated key is rendered member
  by member, where Python's dict shows each key once.
- Bot.FetchAsWritten: the UnboundLocalError text is the one Python 3.11 and
  later print; older versions word it differently.

## Findings

| source | as written | input that shows it | evidently intended | confidence | as-written member | corrected member |
|---|---|---|---|---|---|---|
| homework.py:109 | `except e.NotOkResponse` names a class the exceptions module does not define. Matching any exception other than `TimeoutError` evaluates that name and raises AttributeError, which ends the process after the `finally` sleep | an answer that is a JSON list, `[]` (check_response raises TypeError) | log the TypeError and poll again | high, not executed | `Bot.HandleAsWritten`, shown by `Bot.NonDictAnswerEndsLoopAsWritten` | `Bot.Classify` |
| homework.py:39 | the raise reads `e`, which `except TimeoutError as e` at line 36 makes a local name of the function; on this path it is unbound, so an UnboundLocalError is raised instead of a non-OK error. With line 109 as written that error escapes and ends the process | the endpoint answers with status 500 | raise the non-OK error, which line 109 only logs | high, not executed | `Bot.FetchAsWritten`, shown by `Bot.NotOkEscapesAsWritten` | `Bot.FetchStage` |
| homework.py:70 | the raise names `e.NotExpectedHwStatusException`, which the exceptions module does not define, so an AttributeError is raised instead of an unknown-status error. With line 109 as written that error escapes and ends the process | a homework record `{"homework_name": "hw", "status": "unknown_code"}` with `unknown_code` outside the verdict table | raise the unknown-status error, which line 117 only logs | high, not executed | `Bot.ParseStatusAsWritten`, shown by `Bot.UnknownStatusEscapesAsWritten` | `Homework.ParseStatus` |
