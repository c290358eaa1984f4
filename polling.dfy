/**
 The body of main's `while True`: fetch with the current cursor, validate,
 notify about the newest homework, advance the cursor; any exception raised
 on the way is reported as one failure notice and leaves the cursor alone.
 The review API and the clock are inputs; sending appends to a log.
 */
module Polling {
  import opened PyJson
  import opened Homework

  /** What get_api_answer hands back: the decoded body, or the exception it raised. */
  datatype FetchOutcome = Answer(body: Json) | Failed(error: Error)

  /** What the `try` block of one cycle achieves when nothing is raised. */
  datatype Progress = Progress(notices: seq<string>, next: Json)

  /** The state one cycle leaves behind: the new cursor and the messages it sent. */
  datatype CycleResult = CycleResult(cursor: Json, notices: seq<string>)

  /**
   The `try` block of one cycle on the fetched answer: validate it, format
   `homeworks[0]` when the list is non-empty, and read `current_date`.
   */
  function TryCycle(fetched: FetchOutcome): (r: Result<Progress>)
    ensures fetched.Failed? ==> r == Err(fetched.error)
    ensures fetched.Answer? && CheckResponse(fetched.body).Err? ==> r == Err(CheckResponse(fetched.body).error)
    ensures fetched.Answer? && CheckResponse(fetched.body) == Ok([]) ==> r.Ok? && r.value.notices == []
    ensures fetched.Answer? && CheckResponse(fetched.body).Ok? && CheckResponse(fetched.body).value != [] ==>
      var first := ParseStatus(CheckResponse(fetched.body).value[0]);
      && (r.Ok? <==> first.Ok?)
      && (r.Ok? ==> r.value.notices == [first.value])
      && (r.Err? ==> r.error == first.error)
    ensures r.Ok? ==> fetched.Answer? && fetched.body.Obj?
    ensures r.Ok? ==> r.value.next == Get(fetched.body.fields, CurrentDateKey)
  {
    var response :- match fetched case Answer(body) => Ok(body) case Failed(e) => Err(e);
    var homeworks :- CheckResponse(response);
    var notices :-
      if homeworks != [] then
        match ParseStatus(homeworks[0])
        case Ok(message) => Ok([message])
        case Err(e) => Err(e)
      else Ok([]);
    Ok(Progress(notices, Get(response.fields, CurrentDateKey)))
  }

  /**
   One whole cycle, the `except Exception` included: on success the cursor
   becomes `current_date` (None when absent) and at most one status notice is
   sent; on failure the cursor stays and exactly one failure notice is sent.
   */
  function Cycle(cursor: Json, fetched: FetchOutcome): (r: CycleResult)
    ensures |r.notices| <= 1
    ensures fetched.Failed? ==> r == CycleResult(cursor, [FailureNotice(fetched.error)])
    ensures r.notices == [] ==>
      fetched.Answer? && CheckResponse(fetched.body) == Ok([])
      && r.cursor == Get(fetched.body.fields, CurrentDateKey)
  {
    match TryCycle(fetched)
    case Ok(p) => CycleResult(p.next, p.notices)
    case Err(e) => CycleResult(cursor, [FailureNotice(e)])
  }

  /** An empty `homeworks` list: nothing is sent and the cursor moves to `current_date`. */
  lemma EmptyListSendsNothing(cursor: Json, fields: map<string, Json>)
    requires HomeworksKey in fields && fields[HomeworksKey] == Arr([])
    ensures Cycle(cursor, Answer(Obj(fields))) == CycleResult(Get(fields, CurrentDateKey), [])
  {
  }

  /**
   A well-formed newest record: exactly one message is sent, the notice for
   that record, carrying its name as `str()` prints it and its verdict; later
   records are ignored.
   */
  lemma NewestRecordNotified(cursor: Json, fields: map<string, Json>, record: map<string, Json>, rest: seq<Json>)
    requires HomeworksKey in fields && fields[HomeworksKey] == Arr([Obj(record)] + rest)
    requires NameKey in record
    requires StatusKey in record && Known(record[StatusKey])
    ensures Cycle(cursor, Answer(Obj(fields))) ==
      CycleResult(Get(fields, CurrentDateKey), [StatusNotice(Display(record[NameKey]), record[StatusKey].s)])
    ensures ReadNotice(Cycle(cursor, Answer(Obj(fields))).notices[0])
      == Some((Display(record[NameKey]), record[StatusKey].s))
  {
    NoticeRoundTrip(Display(record[NameKey]), record[StatusKey].s);
  }

  /**
   A cycle that raises anywhere keeps the cursor and sends exactly the failure
   notice, never a status notice; a cycle that does not raise sends only
   status notices.
   */
  lemma FailureKeepsCursor(cursor: Json, fetched: FetchOutcome)
    ensures TryCycle(fetched).Err? ==>
      Cycle(cursor, fetched) == CycleResult(cursor, [FailureNotice(TryCycle(fetched).error)])
    ensures TryCycle(fetched).Err? ==>
      forall name, status | status in Catalog :: Cycle(cursor, fetched).notices[0] != StatusNotice(name, status)
    ensures TryCycle(fetched).Ok? ==>
      forall i | 0 <= i < |Cycle(cursor, fetched).notices| :: ReadNotice(Cycle(cursor, fetched).notices[i]).Some?
  {
    var r := Cycle(cursor, fetched);
    match TryCycle(fetched)
    case Err(e) =>
      forall name, status | status in Catalog
        ensures r.notices[0] != StatusNotice(name, status)
      {
        FailureIsNotStatus(e, name, status);
      }
    case Ok(p) =>
      if p.notices != [] {
        var response := fetched.body;
        var homework := response.fields[HomeworksKey].items[0];
        NoticeRoundTrip(Display(homework.fields[NameKey]), homework.fields[StatusKey].s);
      }
  }

  /** A record whose status is not in the catalog fails the cycle with a KeyError. */
  lemma UnknownStatusFails(cursor: Json, fields: map<string, Json>, record: map<string, Json>, rest: seq<Json>)
    requires HomeworksKey in fields && fields[HomeworksKey] == Arr([Obj(record)] + rest)
    requires NameKey in record && StatusKey in record && record[StatusKey].Str? && !Known(record[StatusKey])
    ensures Cycle(cursor, Answer(Obj(fields))) == CycleResult(cursor, [FailureNotice(KeyError(UnknownStatusMsg))])
  {
  }

  /**
   The cursor a successful cycle stores is what the next request asks for,
   unless it is falsy, in which case the next request uses the clock.
   */
  lemma NextRequestFollowsCurrentDate(cursor: Json, fields: map<string, Json>, later: int)
    requires TryCycle(Answer(Obj(fields))).Ok?
    ensures var next := Cycle(cursor, Answer(Obj(fields))).cursor;
      FromDate(next, later) == if CurrentDateKey in fields && Truthy(fields[CurrentDateKey])
                                then fields[CurrentDateKey] else Int(later)
  {
  }

  /** The newest record "lab1" approved, with current_date 1700000000, whatever the cursor was. */
  lemma ApprovedExample(cursor: Json)
    ensures Cycle(cursor, Answer(Obj(map[
        HomeworksKey := Arr([Obj(map[NameKey := Str("lab1"), StatusKey := Str("approved")])]),
        CurrentDateKey := Int(1700000000)])))
      == CycleResult(Int(1700000000),
           [StatusNotice("lab1", "approved")])
  {
  }

  /**
   The first `|clock|` cycles of the loop from `cursor`: cycle `k` reads the
   clock as `clock[k]` and gets `server(k, from_date)` back from the API.
   */
  function Run(cursor: Json, clock: seq<int>, server: (nat, Json) -> FetchOutcome): (r: CycleResult)
    decreases |clock|
  {
    if clock == [] then CycleResult(cursor, [])
    else
      var before := Run(cursor, clock[..|clock| - 1], server);
      var k := |clock| - 1;
      var c := Cycle(before.cursor, server(k, FromDate(before.cursor, clock[k])));
      CycleResult(c.cursor, before.notices + c.notices)
  }

  /** A message the bot can send: a status notice or a failure notice. */
  predicate IsNotice(m: string) {
    ReadNotice(m).Some? || (|FailurePrefix| <= |m| && m[..|FailurePrefix|] == FailurePrefix)
  }

  lemma CycleNotices(cursor: Json, fetched: FetchOutcome)
    ensures forall m | m in Cycle(cursor, fetched).notices :: IsNotice(m)
  {
  }

  /** Every notice the loop sends is a status notice or a failure notice, and each cycle sends at most one. */
  lemma {:induction false} RunNotices(cursor: Json, clock: seq<int>, server: (nat, Json) -> FetchOutcome)
    ensures |Run(cursor, clock, server).notices| <= |clock|
    ensures forall m | m in Run(cursor, clock, server).notices :: IsNotice(m)
    decreases |clock|
  {
    if clock != [] {
      var before := Run(cursor, clock[..|clock| - 1], server);
      RunNotices(cursor, clock[..|clock| - 1], server);
      var k := |clock| - 1;
      var fetched := server(k, FromDate(before.cursor, clock[k]));
      CycleNotices(before.cursor, fetched);
      assert Run(cursor, clock, server).notices == before.notices + Cycle(before.cursor, fetched).notices;
    }
  }

  /** The running bot: main's `current_timestamp` and every message sent so far. */
  class Poller {
    var cursor: Json
    var sent: seq<string>

    /** main after check_tokens: the cursor starts at the clock reading, nothing sent yet. */
    constructor(now: int)
      ensures cursor == Int(now) && sent == []
    {
      cursor := Int(now);
      sent := [];
    }

    /**
     One iteration of the loop: request with `from_date`, then handle the
     answer as the `try`/`except` does; returns the `from_date` it asked for.
     */
    method Step(now: int, server: Json -> FetchOutcome) returns (requested: Json)
      modifies this
      ensures requested == FromDate(old(cursor), now)
      ensures cursor == Cycle(old(cursor), server(requested)).cursor
      ensures sent == old(sent) + Cycle(old(cursor), server(requested)).notices
    {
      requested := FromDate(cursor, now);
      var failure: Option<Error> := None;
      match server(requested) {
        case Failed(e) =>
          failure := Some(e);
        case Answer(response) =>
          var homeworks := CheckResponse(response);
          if homeworks.Err? {
            failure := Some(homeworks.error);
          } else {
            if homeworks.value != [] {
              var message := ParseStatus(homeworks.value[0]);
              if message.Err? {
                failure := Some(message.error);
              } else {
                sent := sent + [message.value];
              }
            }
            if failure.None? {
              cursor := Get(response.fields, CurrentDateKey);
            }
          }
      }
      if failure.Some? {
        sent := sent + [FailureNotice(failure.value)];
      }
    }

    /** The first `|clock|` iterations of main's `while True`. */
    method Poll(clock: seq<int>, server: (nat, Json) -> FetchOutcome)
      modifies this
      ensures cursor == Run(old(cursor), clock, server).cursor
      ensures sent == old(sent) + Run(old(cursor), clock, server).notices
    {
      var i := 0;
      while i < |clock|
        invariant 0 <= i <= |clock|
        invariant cursor == Run(old(cursor), clock[..i], server).cursor
        invariant sent == old(sent) + Run(old(cursor), clock[..i], server).notices
      {
        assert clock[..i + 1][..i] == clock[..i];
        var k: nat := i;
        var _ := Step(clock[i], r => server(k, r));
        i := i + 1;
      }
      assert clock[..i] == clock;
    }
  }
}
