# homework_bot: a verified model of the polling core

The bot polls the Yandex Practicum homework-status API. It asks for the
statuses that changed since a time cursor. It checks the shape of the decoded
JSON answer, turns the newest homework record into a Russian-language notice
and sends it to one Telegram chat. Any exception in a cycle becomes a failure
notice in the same chat. Before the loop starts, `check_tokens` checks three
secrets.

The model has three modules:

- `PyJson` (`pyjson.dfy`) is the decoded payload (`None`, bool, int, str,
  list, dict) and the Python operations the bot applies to it: truthiness,
  `in` with a string key, `x[key]`, `dict.get`, `str()` in an f-string, and
  `str()` of a `KeyError` (the `repr` of its argument). Exceptions are the
  variants `KeyError(msg)` and `TypeError(msg)` of a `Result`.
- `Homework` (`homework.dfy`) holds the catalog `HOMEWORK_STATUSES`,
  `check_response`, `parse_status`, `check_tokens` and the `from_date` rule
  of `get_api_answer`. `ReadNotice` reads a status notice back into the name
  and status it came from. It is the inverse that shows a notice carries
  both exactly.
- `Polling` (`polling.dfy`) is one iteration of main's `while True`. The pure
  function `TryCycle` is the `try` block and `Cycle` adds the
  `except Exception`. `Run` is the first n iterations. The class `Poller`
  holds the two pieces of state main keeps: `cursor`, the value of
  `current_timestamp`, and `sent`, the log of every message sent. `Step` and
  `Poll` update them in place, and their postconditions tie the new state to
  `Cycle` and `Run`.

The review API and the clock are parameters. `Step` receives the clock
reading `now` and a function `server` from the `from_date` it requests to
what `get_api_answer` hands back: a decoded body (`Answer`) or a raised
exception (`Failed`). A body that fails to decode makes `get_api_answer`
return `None` (homework.py:64-68), which is `Answer(Null)`. `check_response`
then rejects it with a `TypeError`.

Some behaviours of the code are easy to misread:

- The cursor is a JSON value, not an integer. Line 134 stores whatever
  `response.get('current_date')` yields. When the key is absent the cursor
  becomes `None` and is not left unchanged. The next request then falls back
  to the clock, because `from_date` is `current_timestamp or int(time.time())`
  (line 57).
- A response that is not a dict fails with `TypeError` at the subscription
  on line 78, not with a missing-key error. A `homeworks` value of `None` is a
  `KeyError` (lines 86-87).
- Every check in `parse_status` raises `KeyError`, the unknown status
  included. The record is an arbitrary JSON value, so Python's `in` decides
  the error kind for a record that is not a dict. A string record is
  searched for the substring `homework_name`, a list record for that
  element, and a scalar raises `TypeError`. A list or dict status cannot be
  hashed and raises `TypeError` at line 99.
- `check_tokens` raises when a secret is set, so main never polls (see
  Findings). The poll-loop model describes the loop that main would run once
  that check lets it through.

## Model

| member | source | states |
|---|---|---|
| `Homework.CheckResponse` | homework.py:73-87 | Succeeds exactly for a dict whose `homeworks` is a list, and returns that list unchanged. A non-dict is a TypeError. A missing or `None` `homeworks` is the KeyError "Ключ 'homeworks' не найден". Any other non-list value is the TypeError about a non-list. |
| `Homework.ParseStatus` | homework.py:90-104 | Succeeds exactly for a dict with `homework_name` and `status` whose status is a catalog key. It then returns `Изменился статус проверки работы "<name>". <verdict>`. Errors come in a fixed order: a missing name is a KeyError (also when `status` is missing too), then a missing status, then an unknown status. An unhashable status is a TypeError. For string, list and scalar records the error kind is the one Python's `in` and subscription give. |
| `Homework.NoticeRoundTrip` | homework.py:102-104 | Reading a notice back yields exactly the name and status it was made from, for any name. The notice therefore contains the name and the exact verdict of its status. |
| `Homework.FailureIsNotStatus` | homework.py:137 | A failure notice never equals a status notice. |
| `Homework.CheckTokens` | homework.py:107-116 | As written: raises `KeyError("Ошибка переменных окружения")` exactly when some secret is not None. Never returns True. |
| `Homework.ConfiguredTokensRejected` | homework.py:109-112 | With all three secrets set, the check raises KeyError. |
| `Homework.CheckTokensFixed` | homework.py:107-116 | Corrected check: returns True exactly when all three secrets are set and non-empty, and raises the KeyError otherwise. |
| `Homework.NeverPolls` | homework.py:119-121 | With the check as written, main never enters its loop, whatever the environment holds. |
| `Homework.FromDate` | homework.py:57 | The `from_date` sent is the cursor when it is truthy (for an int cursor, when it is non-zero). Otherwise, including a `None` cursor, it is the clock reading. |
| `Polling.TryCycle` | homework.py:126-134 | A failed fetch and a `check_response` failure are reported with their own exception. Otherwise an empty `homeworks` list produces no message. A non-empty list succeeds exactly when `parse_status(homeworks[0])` does: the one message is its notice, and its exception is the one reported otherwise. A cycle that raises nothing had a dict answer, and its next cursor is the answer's `current_date`, or `None` when the key is absent. |
| `Polling.Cycle` | homework.py:124-140 | A cycle sends at most one message. A failed fetch keeps the cursor and sends exactly the failure notice for its exception. A cycle that sends nothing had a dict answer with an empty `homeworks` list, and its cursor became `current_date`. |
| `Polling.EmptyListSendsNothing` | homework.py:128-134 | An empty `homeworks` list sends nothing and moves the cursor to `current_date`, or to `None` when it is absent. |
| `Polling.NewestRecordNotified` | homework.py:127-134 | A first record with a name and a catalog status produces exactly one message, its status notice with the name as `str()` prints it, and later records are ignored. The message reads back as that printed name and the status. |
| `Polling.FailureKeepsCursor` | homework.py:136-139 | Any exception in the cycle leaves the cursor unchanged and sends exactly one message, `Сбой в работе программы: ` + str(error), which is never a status notice. A cycle without exception sends only status notices. |
| `Polling.UnknownStatusFails` | homework.py:99-101 | A first record with a string status outside the catalog fails the cycle. The cursor is kept and the failure notice for the unknown-status KeyError is sent. |
| `Polling.NextRequestFollowsCurrentDate` | homework.py:134 | After a successful cycle the next request uses `current_date` when it is truthy, and the clock otherwise (key missing, or a falsy value such as `None` or 0). |
| `Polling.ApprovedExample` | homework.py:127-134 | The answer `{"homeworks": [{"homework_name": "lab1", "status": "approved"}], "current_date": 1700000000}` sends the approved notice for lab1 and sets the cursor to 1700000000, whatever the cursor was. |
| `Polling.RunNotices` | homework.py:124-140 | Over n iterations the loop sends at most n messages. Each message is a status notice or starts with the failure prefix. |
| `Polling.Poller.constructor` | homework.py:123 | The cursor starts at the clock reading and nothing has been sent. |
| `Polling.Poller.Step` | homework.py:124-140 | Returns the `from_date` it requested. The cursor and the appended messages are exactly those of `Cycle` on the answer to that request. |
| `Polling.Poller.Poll` | homework.py:124-140 | After n iterations the cursor and the appended messages are exactly those of `Run`. |
| `PyJson.SubstringAt` | homework.py:92 | The substring test Python's `in` performs on a string record agrees with "some window of the string equals the key". |
| `PyJson.NatTextRoundTrip` | homework.py:104 | The decimal text an f-string writes for a non-negative int name reads back as that int. |
| `PyJson.PlainRepr` | homework.py:137 | `str()` of a KeyError whose text has no backslash or control character is the text in quotes. The quotes are double when the text holds a single quote and no double quote, and single when it holds no single quote. |

## Left out

- Fetching (homework.py:59-70) is an input to the cycle, not a model of `requests.get`. A non-200 status runs `raise HTTPError('...')`, and with urllib's `HTTPError`, which takes five arguments, that line itself raises a TypeError. Either way an `Exception` reaches line 136, so the model accepts any `Failed(error)`.
- A `RequestException` becomes `SystemExit` (homework.py:69-70). It is not an `Exception`, so it ends the process. The model has no outcome that stops the loop.
- Sending (homework.py:46-52) appends to `sent` and never fails, because `send_message` swallows `TelegramError`. The Telegram client, the chat id and the log lines are not modelled.
- `time.sleep(RETRY_TIME)` is not modelled. `time.time()` is the `now` parameter of `Step`, and `Poll` takes one clock reading per iteration.
- `main`'s `while True` never ends. `Poll` models its first n iterations.
- Logging setup, `load_dotenv`/`os.getenv`, the unused `invalid_chatid` list and the `__main__` entry point are environment plumbing. The key name that `check_tokens` logs is not modelled either.
- JSON floats are not modelled. A dict is a map, so the order of its keys is not kept.
- `PyJson.Display`: renders a list or dict name as its type name in angle brackets. Python prints the value's repr there, which depends on the key order the model does not keep. None, bool, int and str names are rendered exactly.
- `PyJson.PyRepr`: escapes backslash, the chosen quote, `\n`, `\r` and `\t` only. The `\x..`/`\u..` escapes Python writes for other non-printable characters are not modelled. Every KeyError text the bot raises itself contains none of them.
- The texts of TypeErrors raised by the interpreter (subscription of a non-dict, `in` on a scalar, an unhashable status) follow CPython 3.11 and vary between Python versions.
- Exceptions that are not `Exception`s (for example `KeyboardInterrupt`) are not modelled. A `KeyError` from `check_tokens` is not caught and ends the process before the loop. That is `CheckTokens` returning `Err`.

## Findings

| source | as written | input that shows it | evidently intended | confidence | as-written member | corrected member |
|---|---|---|---|---|---|---|
| homework.py:107-116 | raises KeyError when a secret is set (`value is not None`), and otherwise returns whether all three are truthy, which none then is | all three secrets set: KeyError, and main crashes before polling. None set: False, and main returns. No environment makes it return True | raise when a secret is missing; return True when all three are present | high, not executed | `Homework.CheckTokens` (with `Homework.ConfiguredTokensRejected`, `Homework.NeverPolls`) | `Homework.CheckTokensFixed` |
