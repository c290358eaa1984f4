/**
 The checks of the homework-status bot: the status catalog, validation of the
 review API's answer, turning one homework record into a notification, the
 start-up check of the three secrets, and the `from_date` the next request uses.
 */
module Homework {
  import opened PyJson

  const HomeworksKey := "homeworks"
  const NameKey := "homework_name"
  const StatusKey := "status"
  const CurrentDateKey := "current_date"

  /** HOMEWORK_STATUSES: the three documented review states and their verdicts. */
  const Catalog: map<string, string> := map[
    "approved" := "Работа проверена: ревьюеру всё понравилось. Ура!",
    "reviewing" := "Работа взята на проверку ревьюером.",
    "rejected" := "Работа проверена: у ревьюера есть замечания."
  ]

  const NoHomeworksMsg := "Ключ 'homeworks' не найден"
  const NotListMsg := "Значение по ключу 'homeworks' не является списком"
  const NoNameMsg := "Необнаружено имя домашней работы"
  const NoStatusMsg := "Необнаружен статус домашней работы"
  const UnknownStatusMsg := "Обнаружен недокументированный статус домашней работы"
  const TokensMsg := "Ошибка переменных окружения"

  const StatusPrefix := "Изменился статус проверки работы \""
  const FailurePrefix := "Сбой в работе программы: "

  /** The text that follows the homework name in a notice for `status`. */
  function VerdictTail(status: string): string
    requires status in Catalog
  {
    "\". " + Catalog[status]
  }

  /** The notification for a homework whose name prints as `name` and whose state is `status`. */
  function StatusNotice(name: string, status: string): string
    requires status in Catalog
  {
    StatusPrefix + name + VerdictTail(status)
  }

  /** The notification sent when a cycle raised `e`. */
  function FailureNotice(e: Error): string {
    FailurePrefix + ErrorText(e)
  }

  /** A status value that names a catalog entry. */
  predicate Known(status: Json) {
    status.Str? && status.s in Catalog
  }

  /** `status in HOMEWORK_STATUSES`: a list or dict cannot be hashed, anything else is looked up. */
  function CatalogHas(status: Json): Result<bool> {
    if status.Arr? || status.Obj? then Err(TypeError("unhashable type: '" + TypeName(status) + "'"))
    else Ok(Known(status))
  }

  /**
   check_response: the `homeworks` list of a dict answer. A dict without the
   key is a KeyError, a non-dict fails at the subscription with a TypeError, a
   None value is a KeyError and any other non-list value a TypeError.
   */
  function CheckResponse(response: Json): (r: Result<seq<Json>>)
    ensures r.Ok? <==> response.Obj? && HomeworksKey in response.fields && response.fields[HomeworksKey].Arr?
    ensures r.Ok? ==> r.value == response.fields[HomeworksKey].items
    ensures !response.Obj? ==> r.Err? && r.error.TypeError?
    ensures response.Obj? && Get(response.fields, HomeworksKey) == Null ==> r == Err(KeyError(NoHomeworksMsg))
    ensures response.Obj? && Get(response.fields, HomeworksKey) != Null && !response.fields[HomeworksKey].Arr?
      ==> r == Err(TypeError(NotListMsg))
  {
    if response.Obj? && HomeworksKey !in response.fields then Err(KeyError(NoHomeworksMsg))
    else
      var homeworks :- Index(response, HomeworksKey);
      if homeworks != Null then
        if !homeworks.Arr? then Err(TypeError(NotListMsg))
        else Ok(homeworks.items)
      else Err(KeyError(NoHomeworksMsg))
  }

  /**
   parse_status: the notice for one homework record. The name is looked for
   first, then the status, then the status is looked up in the catalog.
   */
  function ParseStatus(homework: Json): (r: Result<string>)
    ensures r.Ok? <==>
      homework.Obj? && NameKey in homework.fields && StatusKey in homework.fields
      && Known(homework.fields[StatusKey])
    ensures r.Ok? ==>
      r.value == StatusNotice(Display(homework.fields[NameKey]), homework.fields[StatusKey].s)
    ensures homework.Obj? && NameKey !in homework.fields ==> r == Err(KeyError(NoNameMsg))
    ensures homework.Obj? && NameKey in homework.fields && StatusKey !in homework.fields
      ==> r == Err(KeyError(NoStatusMsg))
    ensures homework.Obj? && NameKey in homework.fields && StatusKey in homework.fields
      && !Known(homework.fields[StatusKey])
      ==> r.Err? && (r.error.TypeError? <==> homework.fields[StatusKey].Arr? || homework.fields[StatusKey].Obj?)
    ensures homework.Obj? && NameKey in homework.fields && StatusKey in homework.fields
      && !Known(homework.fields[StatusKey]) && !homework.fields[StatusKey].Arr? && !homework.fields[StatusKey].Obj?
      ==> r == Err(KeyError(UnknownStatusMsg))
    ensures homework.Null? || homework.Bool? || homework.Int? ==> r.Err? && r.error.TypeError?
    ensures homework.Str? ==> r.Err? && (r.error.TypeError? <==> IsSubstring(NameKey, homework.s))
    ensures homework.Arr? ==> r.Err? && (r.error.TypeError? <==> Str(NameKey) in homework.items)
  {
    var hasName :- Contains(homework, NameKey);
    if !hasName then Err(KeyError(NoNameMsg))
    else
      match Index(homework, NameKey)
      case Err(e) => Err(e)
      case Ok(name) =>
        match Contains(homework, StatusKey)
        case Err(e) => Err(e)
        case Ok(hasStatus) =>
          if !hasStatus then Err(KeyError(NoStatusMsg))
          else
            match Index(homework, StatusKey)
            case Err(e) => Err(e)
            case Ok(status) =>
              var known :- CatalogHas(status);
              if !known then Err(KeyError(UnknownStatusMsg))
              else Ok(StatusNotice(Display(name), status.s))
  }

  /** Splits a status notice back into the printed name and the status it reports. */
  function ReadNotice(m: string): Option<(string, string)> {
    if |m| < |StatusPrefix| || m[..|StatusPrefix|] != StatusPrefix then None
    else
      var rest := m[|StatusPrefix|..];
      if EndsWith(rest, VerdictTail("approved")) then Some((Strip(rest, VerdictTail("approved")), "approved"))
      else if EndsWith(rest, VerdictTail("reviewing")) then Some((Strip(rest, VerdictTail("reviewing")), "reviewing"))
      else if EndsWith(rest, VerdictTail("rejected")) then Some((Strip(rest, VerdictTail("rejected")), "rejected"))
      else None
  }

  predicate EndsWith(s: string, tail: string) {
    |tail| <= |s| && s[|s| - |tail|..] == tail
  }

  function Strip(s: string, tail: string): string
    requires EndsWith(s, tail)
  {
    s[..|s| - |tail|]
  }

  lemma EndsWithAppend(s: string, tail: string)
    ensures EndsWith(s + tail, tail) && Strip(s + tail, tail) == s
  {
  }

  /** A string ending in `tail` ends in the last two characters of `tail`. */
  lemma EndsWithLastTwo(s: string, tail: string)
    requires |tail| >= 2 && EndsWith(s, tail)
    ensures s[|s| - 1] == tail[|tail| - 1] && s[|s| - 2] == tail[|tail| - 2]
  {
  }

  /** The three verdicts differ in their last two characters. */
  lemma TailEndings()
    ensures var a, v, j := VerdictTail("approved"), VerdictTail("reviewing"), VerdictTail("rejected");
      |a| >= 2 && |v| >= 2 && |j| >= 2
      && a[|a| - 1] == '!' && v[|v| - 1] == '.' && j[|j| - 1] == '.'
      && v[|v| - 2] == 'м' && j[|j| - 2] == 'я'
  {
  }

  /**
   A notice names its homework and its verdict unambiguously: reading it back
   yields exactly the name and status it was made from, whatever the name holds.
   */
  lemma NoticeRoundTrip(name: string, status: string)
    requires status in Catalog
    ensures ReadNotice(StatusNotice(name, status)) == Some((name, status))
  {
    var m := StatusNotice(name, status);
    var tail := VerdictTail(status);
    var rest := name + tail;
    assert m == StatusPrefix + rest;
    assert m[..|StatusPrefix|] == StatusPrefix && m[|StatusPrefix|..] == rest;
    EndsWithAppend(name, tail);
    TailEndings();
    if status != "approved" && EndsWith(rest, VerdictTail("approved")) {
      EndsWithLastTwo(rest, VerdictTail("approved"));
      EndsWithLastTwo(rest, tail);
    }
    if status == "rejected" && EndsWith(rest, VerdictTail("reviewing")) {
      EndsWithLastTwo(rest, VerdictTail("reviewing"));
      EndsWithLastTwo(rest, tail);
    }
  }

  /** A failure notice never reads as a status notice, so the two kinds of message are told apart. */
  lemma FailureIsNotStatus(e: Error, name: string, status: string)
    requires status in Catalog
    ensures FailureNotice(e) != StatusNotice(name, status)
  {
    assert FailureNotice(e)[0] != StatusNotice(name, status)[0];
  }

  /** Python truthiness of an optional secret: unset or empty is false. */
  predicate Present(secret: Option<string>) {
    secret.Some? && secret.value != ""
  }

  /**
   check_tokens as written: it raises as soon as a secret is NOT None, and
   otherwise answers whether all three are truthy, which by then none is.
   */
  function CheckTokens(practicum: Option<string>, telegram: Option<string>, chat: Option<string>): (r: Result<bool>)
    ensures r.Err? <==> practicum.Some? || telegram.Some? || chat.Some?
    ensures r.Err? ==> r.error == KeyError(TokensMsg)
    ensures r != Ok(true)
  {
    if practicum.Some? || telegram.Some? || chat.Some? then Err(KeyError(TokensMsg))
    else if Present(practicum) && Present(telegram) && Present(chat) then Ok(true)
    else Ok(false)
  }

  /** With all three secrets configured, the check as written refuses to start. */
  lemma ConfiguredTokensRejected(practicum: string, telegram: string, chat: string)
    ensures CheckTokens(Some(practicum), Some(telegram), Some(chat)) == Err(KeyError(TokensMsg))
  {
  }

  /**
   The check the function was evidently meant to be: raise when a secret is
   missing (None or empty), and answer True when all three are present.
   */
  function CheckTokensFixed(practicum: Option<string>, telegram: Option<string>, chat: Option<string>): (r: Result<bool>)
    ensures r == Ok(true) <==> Present(practicum) && Present(telegram) && Present(chat)
    ensures r.Err? <==> !Present(practicum) || !Present(telegram) || !Present(chat)
    ensures r.Err? ==> r.error == KeyError(TokensMsg)
  {
    if !Present(practicum) || !Present(telegram) || !Present(chat) then Err(KeyError(TokensMsg))
    else Ok(true)
  }

  /** main enters its polling loop only when check_tokens returns True. */
  predicate EntersLoop(practicum: Option<string>, telegram: Option<string>, chat: Option<string>) {
    CheckTokens(practicum, telegram, chat) == Ok(true)
  }

  /** As written, main never reaches its loop, whatever the environment holds. */
  lemma NeverPolls(practicum: Option<string>, telegram: Option<string>, chat: Option<string>)
    ensures !EntersLoop(practicum, telegram, chat)
  {
  }

  /**
   get_api_answer's `current_timestamp or int(time.time())`: the cursor
   itself when it is truthy, otherwise the clock reading `now`.
   */
  function FromDate(cursor: Json, now: int): (r: Json)
    ensures cursor.Int? && cursor.i != 0 ==> r == cursor
    ensures cursor == Null || cursor == Int(0) ==> r == Int(now)
    ensures r == cursor || r == Int(now)
    ensures r == cursor <==> Truthy(cursor) || cursor == Int(now)
  {
    if Truthy(cursor) then cursor else Int(now)
  }
}
