# Code-generation agent and billing lookup, modelled in Dafny

This project models two small programs that sit side by side in one
repository:

* `langgraph_agent.py`, a code-generation agent. It keeps a `CodeState`
  record (`task`, `code`, `output`, `error`). It asks a language model for
  a Python snippet, runs the snippet in a worker process, and routes back to
  generation until a run leaves truthy bindings and no error.
* `assume_role_get_billing.py`, a billing lookup. It assumes an IAM role in a
  member account and computes last month's period as two `YYYY-MM-DD`
  strings. It pages through Cost Explorer's grouped results and flattens
  them into one `(service, usage_type, amount)` record per group.

The language model, the worker process, STS, Cost Explorer and the clock are
outside the model. Each is replaced by data the caller supplies:

* the generator's reply is a `GenReply` (`GenOk(text)` or `GenFault(msg)`);
* the worker's outcome is an `ExecOutcome` (`Done(Ok(bindings))`,
  `Done(Fault(msg))` or `Timeout`);
* Cost Explorer's answers are a sequence of `Page`s;
* "today" is a `Date` parameter.

Files:

* `wrappers.dfy`: `Option` and `Result`.
* `agent.dfy` (module `Agent`):
  * Python truthiness of `output` and `error`, and the prompt text.
  * `Snapshot`, a value copy of the state, with pure step functions:
    `Generated`, `Executed`, `Route`.
  * The `CodeState` class, whose `GenerateCode` and `ExecuteCode` methods
    update its fields in place and are proved against those step functions.
  * `Drive`, the generate → execute → route loop as a recursive function over
    a finite script of attempts.
  * `Invoke`, the loop as a `while` over a `CodeState` object, proved equal
    to `Drive`.
  * Lemmas about how the loop behaves.
* `billing_period.dfy` (module `BillingPeriod`):
  * proleptic Gregorian dates and one-day-back arithmetic, checked against a
    day-number count;
  * `last_month_period`;
  * the ISO 8601:2004 extended calendar-date format (section 4.1.2.2) and its
    parser, with round-trip lemmas both ways.
* `billing.dfy` (module `Billing`):
  * the role ARN and its parse-back;
  * the Cost Explorer request parameters;
  * the pagination loop (`FetchResults`, proved against the recursive
    `Paginate`);
  * the nested flattening loops (`Flatten` and `Records`, proved against
    `Convert` and `AllGroups`);
  * `list_service_usage` as a whole.

Three facts about the agent's code shape the model:

* **When `error` is cleared.** `generate_code` clears `error` only after the
  model call has returned (langgraph_agent.py:51-54). A generator fault
  therefore leaves `code` and `error` as they were.
* **A generator fault.** The exception raised by the model call propagates out
  of the graph; no field records it. The model reports the fault as the run's
  stop reason `Aborted(msg)`, with the state unchanged.
* **The field not written.** `execute_code` writes exactly one of `output` and
  `error` and leaves the other as it was (langgraph_agent.py:74-82). Because
  generation has just cleared `error`, and `output` is never truthy when the
  loop goes round again, the two are never both truthy after a step.

## Model

| member | source | states |
|---|---|---|
| Agent.PromptLayout | langgraph_agent.py:42-50 | Every prompt starts with the capability note, a newline and the fixed lead text "Write a short Python function to ". |
| Agent.PromptTaskSlot | langgraph_agent.py:42-45 | Right after the lead text the prompt holds the task verbatim, followed by the trailer ".\nYou have access to assume_role_get_billing.list_service_usage.\n". |
| Agent.PromptFeedback | langgraph_agent.py:42-47 | The prompt is the plain prompt, followed by "\nPrevious error:\n" + error + "\nPlease correct it." exactly when the previous error is truthy (not None and not empty); otherwise it is the plain prompt. |
| Agent.PromptDeterminesTask | langgraph_agent.py:42-45 | Prompts built with the same error are equal only when the tasks are equal. |
| Agent.PromptDeterminesFeedback | langgraph_agent.py:46-47 | Two prompts for one task are equal only when both or neither carry feedback, and then with the same error text. |
| Agent.Initial | langgraph_agent.py:21-28 | A fresh state holds only the task; code, output and error are None. |
| Agent.CodeState.constructor | langgraph_agent.py:21-28 | The new object's fields are the fresh state for the task. |
| Agent.Generated | langgraph_agent.py:52-54 | After a successful generation step, code is the model's text and error is None; task and output are unchanged. |
| Agent.CodeState.GenerateCode | langgraph_agent.py:40-55 | Sends the prompt for the old task and old error. On a reply, the fields become the generated state. On a fault, it reports the message and writes no field. |
| Agent.CodeToRun | langgraph_agent.py:69 | The worker runs the stored code, or the empty program when code is None. |
| Agent.Executed | langgraph_agent.py:74-82 | Task and code are kept. A timeout sets error to exactly "Execution timed out". A finished worker's bindings set output. A caught exception's message sets error. Each case writes one field and leaves the other as it was. |
| Agent.CodeState.ExecuteCode | langgraph_agent.py:67-83 | Hands the worker the code-or-empty snippet, and moves the fields to the executed state for the outcome. |
| Agent.Route | langgraph_agent.py:92-93 | Routes to END exactly when output is present and a non-empty mapping and error is None or empty; otherwise back to generate. |
| Agent.RouteAfterStep | langgraph_agent.py:52-93 | From a state whose output is not truthy, one generate-then-execute step ends the loop exactly when the worker finished with non-empty bindings. Output and error are never both truthy afterwards, and a step that loops leaves output not truthy. |
| Agent.Invoke | langgraph_agent.py:85-96 | Running the graph on a fresh state object gives the stop reason, final fields and sequence of collaborator calls that the recursive loop Drive defines. |
| Agent.DriveAlternates | langgraph_agent.py:88-90 | Calls alternate generate, execute, generate, and so on. There are at most two per attempt, and an odd number exactly when the run aborted on a generator fault. A run that uses up the script made exactly two calls per attempt. |
| Agent.DriveKeepsExclusive | langgraph_agent.py:76-93 | Started with output not truthy, the task is kept. The run finishes exactly when the final output is truthy, and then error is None. Output and error are never both truthy at the end. |
| Agent.StopsAtFirstSuccess | langgraph_agent.py:88-95 | After any number of attempts that retry, the first execution with non-empty bindings ends the run. Exactly two calls are made per attempt, the rest of the script is not touched, and the final state holds that attempt's code and bindings with error None. |
| Agent.FinishedAtFirstSuccess | langgraph_agent.py:88-95 | Conversely, a finished run stopped at its last attempt, which succeeded, and every attempt before it retried. |
| Agent.FaultThenSuccess | langgraph_agent.py:40-95 | A failing run followed by a succeeding one finishes after exactly two executions. The second prompt carries the first run's error, and the final state holds the second code and its bindings. |
| Agent.EmptyBindingsRetryWithoutFeedback | langgraph_agent.py:46-93 | A run that finishes with empty bindings loops again, and the next prompt carries no error feedback. |
| Agent.GenerationFaultAborts | langgraph_agent.py:49-55 | A generator fault stops the loop at once, after a single generate call, with no execute call and the state unchanged. |
| Billing.RoleArnRoundTrip | assume_role_get_billing.py:8 | For an account id without ':', the ARN "arn:aws:iam::" + account + ":role/" + role parses back to that account and role name. |
| Billing.AssumeRole | assume_role_get_billing.py:6-9 | The AssumeRole request uses session name "BillingAccess" and the ARN of the given account and role, which reads back to them. |
| Billing.DefaultRoleArn | assume_role_get_billing.py:6-8 | Without a role name, the ARN names the role OrganizationAccountAccessRole. |
| Billing.Query | assume_role_get_billing.py:35-45 | Each request covers [start, end) and carries the continuation token exactly when the token is truthy. |
| Billing.LastPage | assume_role_get_billing.py:48-50 | Gives the position of the first page whose NextPageToken is absent or empty; every earlier page has a truthy token. |
| Billing.PaginateSpec | assume_role_get_billing.py:33-50 | The loop reads pages up to and including the first one without a truthy token, and is complete exactly when it met one. It sends one request per page read, and the results are those pages' ResultsByTime concatenated in order, a missing key counting as empty. |
| Billing.PaginateQueries | assume_role_get_billing.py:33-50 | Every request asks for the same period. The first carries the initial token only if truthy (none for the source's first request), and each later one carries the previous page's NextPageToken. |
| Billing.FetchResults | assume_role_get_billing.py:33-50 | The `while True` loop sends exactly the requests, and gathers exactly the results, that Paginate defines for a first request without a token. |
| Billing.AllGroupsAppend | assume_role_get_billing.py:53-54 | Flattening visits results in order and groups within each result in order: the groups of a concatenation are the concatenation of the groups. |
| Billing.MissingGroupsContributeNothing | assume_role_get_billing.py:54 | A result without Groups adds no group wherever it sits. |
| Billing.Convert | assume_role_get_billing.py:55-58 | Succeeds exactly when every group has two keys and an UnblendedCost metric. Then there is one record per group, in order, holding Keys[0], Keys[1] and the amount unchanged. Otherwise it fails with the exception of the first malformed group: IndexError for short Keys, KeyError for a missing metric. |
| Billing.ConvertAppend | assume_role_get_billing.py:52-58 | Converting a concatenation fails with the first part's exception if it has one, and otherwise with the second part's. When neither fails, the records of both parts come in order. |
| Billing.ConvertAtFirstMalformed | assume_role_get_billing.py:55-57 | The first malformed group decides the exception raised. |
| Billing.Records | assume_role_get_billing.py:54-58 | The inner loop over one result's groups gives the converted records of those groups, or the exception of the first malformed one. |
| Billing.Flatten | assume_role_get_billing.py:52-58 | The nested loops give the conversion of all groups of all results, in order; the record count equals the total group count. |
| Billing.ListServiceUsage | assume_role_get_billing.py:27-60 | The AssumeRole request is always sent first. The lookup fails with a date overflow exactly when last month lies before year 1, and then no Cost Explorer request is sent. Otherwise the paginated requests for last month are sent, on the failing path as on the succeeding one. The result is the flattened records of every page read, or the lookup exception of the first malformed group. |
| BillingPeriod.DaysInMonth | assume_role_get_billing.py:22 | Month lengths are 28 to 31 days, with 29 exactly for February of a Gregorian leap year. |
| BillingPeriod.YearLength | assume_role_get_billing.py:22 | On the day count, a year adds 366 days when it is a leap year and 365 otherwise. |
| BillingPeriod.MonthLength | assume_role_get_billing.py:22 | On the day count, a month adds its own length. |
| BillingPeriod.FirstOfMonth | assume_role_get_billing.py:21 | `replace(day=1)` keeps the year and month, sets the day to 1, and does not move the date later. |
| BillingPeriod.DayBefore | assume_role_get_billing.py:22 | Subtracting one day gives a valid, earlier date, and overflows exactly on 0001-01-01. |
| BillingPeriod.DayBeforeIsOneDayEarlier | assume_role_get_billing.py:22 | The date one day back is one less on the proleptic Gregorian day count. |
| BillingPeriod.LastMonth | assume_role_get_billing.py:21-23 | The end is day 1 of today's month and year. The start is day 1 of the month before, December of the previous year for January. Both are valid, start is strictly before end, and only January of year 1 overflows. |
| BillingPeriod.PeriodIsPreviousMonth | assume_role_get_billing.py:21-23 | The period spans exactly the days of the start's month, and no first of a month lies strictly between start and end. |
| BillingPeriod.PaddedRoundTrip | assume_role_get_billing.py:24 | A number below 10^width, zero-padded to width digits, reads back as itself. |
| BillingPeriod.DecimalRoundTrip | assume_role_get_billing.py:24 | A digit string is the zero-padded form of the number it denotes. |
| BillingPeriod.FormatDate | assume_role_get_billing.py:24 | The text has 10 characters: 4 digits, '-', 2 digits, '-', 2 digits. |
| BillingPeriod.DateRoundTrip | assume_role_get_billing.py:24 | Parsing the formatted text of a valid date gives back that date. |
| BillingPeriod.ParsedIsCanonical | assume_role_get_billing.py:24 | A text that parses is exactly the formatted text of the date it names. |
| BillingPeriod.LastMonthPeriod | assume_role_get_billing.py:19-24 | Overflows exactly for January of year 1. Otherwise the two strings parse back to the first day of last month and the first day of today's month. |

## Left out

- The ChatOpenAI call (langgraph_agent.py:49-51) is a remote service. Only its reply text or the message of the exception it raises is modelled, as a `GenReply` supplied by the caller.
- The worker process, its queue, the 10-second join, `terminate`, and `exec` with restricted builtins (langgraph_agent.py:57-83) are OS processes and dynamic code execution. Three of the outcomes are modelled: a timeout, a finished worker's bindings, and a caught exception's message. A fourth is not: a worker that exits without delivering a result, for instance because its bindings cannot be pickled by the queue's feeder thread (a function defined by the snippet). Then `queue.get()` at langgraph_agent.py:78 waits forever and the loop hangs. The worker's local variables are abstracted to a map from names to `Value`.
- Agent.StopsAtFirstSuccess: holds only for runs in which every finished worker delivers its result; a worker whose result never reaches the queue leaves the source loop waiting forever, not stopped.
- Agent.FinishedAtFirstSuccess: likewise assumes every finished worker delivers its result.
- LangGraph's `Graph`, `compile` and `invoke` (langgraph_agent.py:85-96, 105) are library code. Their effect is modelled directly as the loop `Drive` and the method `Invoke`, and the `MessageState` base class is not part of this model.
- Agent.Invoke: the source sets no iteration bound, and LangGraph's own recursion limit is not modelled. The model consumes one scripted attempt per iteration and stops with `Exhausted` when the script runs out, so it does not capture a loop that never ends.
- Agent.GenerationFaultAborts: a generator fault propagates as a Python exception out of `app.invoke`. The model returns it as the stop reason `Aborted(msg)` instead.
- Billing.FetchResults: the source loop stops only at a page without a truthy token. The model stops with `complete == false` when the scripted pages run out first.
- `main`, the argument check, printing of the final state (langgraph_agent.py:99-109) and the argparse entry point (assume_role_get_billing.py:63-69) are console I/O.
- STS `assume_role`, the credentials and the session (assume_role_get_billing.py:7, 9-16) are network calls. Only the request values are modelled, and an STS failure is not.
- `ce.get_cost_and_usage` (assume_role_get_billing.py:29, 46) is a network call. Its answers are a sequence of pages supplied by the caller, and an exception it raises is not modelled.
- `date.today()` (assume_role_get_billing.py:20) reads the clock; today's date is a parameter.
- Cost amounts are kept as the strings the API returns and are never read as numbers.
- BillingPeriod.FormatDate: always pads the year to four digits, as ISO 8601 requires. `strftime("%Y")` may not pad years below 1000 on some C libraries, and that platform dependence is not modelled.
- Billing.Convert: a group always has a `Keys` list and a `Metrics` map, and each metric always has an `Amount` string. Groups with either field missing, a metric without `Amount`, or values of other JSON types (which would raise `KeyError` or `TypeError`) are not modelled.
