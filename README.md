# Homework status bot — a Dafny model of its decision core

The bot polls a homework-review API every ten minutes. It takes the first homework of the answer and compares its review status with the status it notified about last. It then hands a message to a Telegram bot: the verdict when the status changed, a fixed "nothing happened today" text when it did not, and a failure text when anything in the cycle raised.

The model has three modules:

- `Wrappers` (`wrappers.dfy`): `Option`, for Python's `None`, and `Result`, for a value or the exception raised instead.
- `HomeworkBot` (`homework_bot.dfy`): the pure core.
  - The data: the status catalogue `HomeworkStatuses`, the homework record, the `homeworks` field, the payload, the endpoint's response and the error kinds (`KeyError`, `TypeError`, `IndexError`, `EndpointError`).
  - `get_api_answer`, `check_response`, `check_tokens`, the catalogue lookup and `parse_status` as functions over an explicit stored status.
  - One cycle of `main` (`Attempt`, `Cycle`), a run of cycles (`RunCycles`, `Sent`) and the lemmas about them.
- `Polling` (`polling.dfy`): the script's mutable state as the class `Poller`.
  - `lastStatus` is the module global `HOMEWORK_STATUS_QUO`; `currentTimestamp` is `main`'s local variable.
  - `Poller.ParseStatus` reassigns the stored status the way `parse_status` does, and `Poller.Step` runs one pass of `main`'s `try`/`except`.
  - `Run` is `main` over a finite list of cycles: it checks the credentials, then calls `Step` once per cycle in a loop.

The endpoint is a parameter, `fetch: int -> Response`. It maps the `from_date` query value to the status code and parsed JSON body that came back. The clock is a parameter, `now`. Each cycle takes one `Tick(now, fetch)`.

Three facts about the code shape the model:

- The bot notifies only when the status changes. A status equal to the stored one gives the fixed "nothing happened" text.
- An empty `homeworks` list raises `IndexError` at `homeworks[0]`. The `except` catches it, and the cycle sends `'Сбой в работе программы: list index out of range'` (`EmptyListIsReported`).
- The timestamp is read from the clock before the fetch (homework.py:118).

## Model

| member | source | states |
|---|---|---|
| HomeworkBot.CheckTokens | homework.py:97-103 | true exactly when all three credentials are present (not `None`) and non-empty |
| HomeworkBot.FromDate | homework.py:56 | a nonzero timestamp is sent as it is; a zero timestamp is replaced by the clock |
| HomeworkBot.GetApiAnswer | homework.py:54-69 | returns the parsed body exactly when the answer to `from_date` has status code 200; otherwise fails with the endpoint error |
| HomeworkBot.CheckResponse | homework.py:75-80 | a `homeworks` list is returned unchanged; a missing key gives `KeyError('homeworks')`; a value that is no list gives `TypeError`; success exactly when the value is a list |
| HomeworkBot.Verdict | homework.py:38-42 | the catalogue lookup succeeds exactly on `approved`, `reviewing` and `rejected` and returns the verdict listed for that status; any other status, `None` included, fails with a key error that carries that status |
| HomeworkBot.ParseStatus | homework.py:83-94 | a failed parse leaves the stored status unchanged; the new stored status is the old one or a catalogue key; a changed stored status is the record's own status |
| HomeworkBot.Attempt | homework.py:117-125 | a non-200 answer raises the endpoint error; a malformed answer raises `check_response`'s error; an empty list raises `IndexError`; otherwise the outcome is `parse_status` on element 0; every failure leaves the stored status unchanged, and it is only ever replaced by a catalogue key |
| HomeworkBot.Cycle | homework.py:117-133 | a failed attempt sends `'Сбой в работе программы: '` followed by the error text and keeps the state; a successful one sends the attempt's message and stores the attempt's new status; the stored status stays the initial one or a catalogue key |
| HomeworkBot.UnchangedStatusIsQuiet | homework.py:89-94 | a status equal to the stored one yields exactly `'Сегодня ничего не произошло'` and keeps the stored status |
| HomeworkBot.ChangedKnownStatusIsCommitted | homework.py:89-93 | a changed catalogue status yields `'Изменился статус проверки работы "' + name + '". ' + verdict` and becomes the stored status |
| HomeworkBot.ChangedUnknownStatusFails | homework.py:87-92 | a changed status outside the catalogue, a missing one included, raises a key error and keeps the stored status, because the lookup precedes the assignment |
| HomeworkBot.FirstKnownStatusIsAChange | homework.py:89-93 | from the initial empty stored status, any catalogue status takes the "changed" branch and is committed |
| HomeworkBot.RepeatedRecordIsIdempotent | homework.py:89-94 | after a successful parse, the same record again yields the "nothing happened" text and does not change the stored status |
| HomeworkBot.ParsedStatusIsKnown | homework.py:90-92 | parsing keeps the stored status the initial one or a catalogue key |
| HomeworkBot.EndpointFailureIsReported | homework.py:65-67 | a non-200 answer makes the cycle send the bare failure prefix (an argument-less exception prints as nothing) and keep the state |
| HomeworkBot.EmptyListIsReported | homework.py:122-132 | an empty `homeworks` list makes the cycle send the failure prefix plus `list index out of range` and keep the state |
| HomeworkBot.MalformedAnswerIsReported | homework.py:75-80 | a 200 answer whose `homeworks` is missing or no list makes the cycle send the failure prefix plus `check_response`'s error text (`'homeworks'` for a missing key, nothing for a non-list) and keep the state |
| HomeworkBot.GoodAnswerIsParsed | homework.py:120-132 | a 200 answer with a non-empty list sends what `parse_status` makes of the first record and stores its new status, or, when `parse_status` raises, sends the failure text and keeps the state |
| HomeworkBot.UnknownStatusIsReported | homework.py:123-132 | a first record whose changed status is outside the catalogue makes the cycle send the failure prefix plus the quoted status (`None` when missing) and keep the state |
| HomeworkBot.SuccessTextIsNotFailure | homework.py:89-94 | no message `parse_status` returns starts with the failure prefix |
| HomeworkBot.FailureIsRecognisable | homework.py:117-132 | a cycle's message starts with the failure prefix exactly when something in the cycle raised |
| HomeworkBot.OneMessagePerCycle | homework.py:116-133 | a run of n cycles sends exactly n messages, one per cycle, whether the cycle succeeded or failed (that no cycle raises follows from `Cycle` being a total function) |
| HomeworkBot.StatusStaysKnown | homework.py:26-42 | however many cycles run, the stored status stays the initial `''` or one of the three catalogue keys |
| HomeworkBot.RunCyclesSnoc | homework.py:116-133 | one more cycle appends that cycle's message and moves the stored status on |
| HomeworkBot.MissingTokenSendsNothing | homework.py:106-111 | when any credential is missing or empty, nothing is ever sent, whatever the endpoint would answer |
| HomeworkBot.ReviewThenApproveScenario | homework.py:83-94 | cycles answering `reviewing`, `reviewing`, `approved` send the changed text, the quiet text, the changed text, and end with `approved` stored |
| Polling.Poller.constructor | homework.py:114 | the loop starts with the empty stored status and the clock as the timestamp |
| Polling.Poller.ParseStatus | homework.py:83-94 | the message and the new stored status are those of `HomeworkBot.ParseStatus` on the old stored status; a key error leaves the stored status unchanged |
| Polling.Poller.Step | homework.py:117-133 | the timestamp becomes the clock; the message and new stored status are those of `HomeworkBot.Cycle` on the old stored status; the stored-status invariant is kept |
| Polling.Run | homework.py:106-133 | sends nothing when a credential is missing; otherwise sends one message per cycle, equal to the messages of the cycle specification run from the empty stored status |

## Left out

- Network I/O: `requests.get`, the endpoint URL and the `OAuth` header (homework.py:20-21, 60-63). The endpoint is the `fetch` parameter. A connection error or a body that is not JSON would also raise inside the `try`; the model has no such answers.
- Telegram: `Bot` and `send_message` (homework.py:45-51, 113). The model's output is the message handed to the bot. `send_message` swallows delivery errors, so delivery has no effect on the state.
- Environment: `load_dotenv` and `os.getenv` (homework.py:13-17). The three credentials are inputs.
- Logging (homework.py:28-35, 49, 51, 66, 109): side effects only.
- Time: `time.sleep(RETRY_TIME)` in both branches (homework.py:128, 133) has no effect on the state, and the endless `while True` (homework.py:116) is modelled by finite lists of cycles. Both clock reads in a cycle (homework.py:56, 118) are the cycle's one `now`.
- `PERIOD_DAYS` and `TIMEDELTA_SECONDS` (homework.py:23-24): defined but never used.
- HomeworkBot.ErrorText: renders `KeyError(k)` as `k` in single quotes, without Python's `repr` escaping or its switch to double quotes.
- JSON shapes beyond the ones named: a body that is not an object, and a `homeworks` element that is not an object. In Python these raise other errors inside the `try`, which the same `except` catches.
- Non-string field values. A non-string `homework_name` is rendered by `str()` in the f-string and the cycle succeeds; the model has only string names. A non-string `status` that is hashable fails the lookup with a `KeyError` of that value; an unhashable one (a list or an object) raises `TypeError`. The model has only string statuses.
