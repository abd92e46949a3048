/**
 * The decision core of the homework status bot: the status catalogue, the
 * response check, the credential check, the status-change detector and one
 * cycle of the polling loop, all as pure functions over explicit state.
 * The stateful wrapper that the script keeps in module globals lives in
 * module Polling.
 */
module HomeworkBot {
  import opened Wrappers

  /** The status last notified about starts out empty, which is no valid status code. */
  const InitialStatus: string := ""

  /** The closed catalogue of review statuses and the verdict text sent for each. */
  const HomeworkStatuses: map<string, string> := map[
    "approved" := "Работа проверена: ревьюеру всё понравилось. Ура!",
    "reviewing" := "Работа взята на проверку ревьюером.",
    "rejected" := "Работа проверена: у ревьюера есть замечания."
  ]

  const NothingHappened: string := "Сегодня ничего не произошло"
  const ChangedPrefix: string := "Изменился статус проверки работы \""
  const FailurePrefix: string := "Сбой в работе программы: "

  /** The exceptions the core raises. `KeyError` carries the missing key (`None` included). */
  datatype Error =
    | KeyError(key: Option<string>)
    | TypeError
    | IndexError
    | EndpointError

  /** One homework record: both fields are read with `.get`, so either may be missing. */
  datatype Homework = Homework(homeworkName: Option<string>, status: Option<string>)

  /** The value under the `homeworks` key: a list of records or some other JSON value. */
  datatype HomeworksField = HomeworkList(items: seq<Homework>) | NotAList

  /** The parsed JSON body of an answer: an object that may or may not have a `homeworks` key. */
  datatype Payload = Payload(homeworks: Option<HomeworksField>)

  /** What the endpoint answered: the HTTP status code and the parsed body. */
  datatype Response = Response(statusCode: int, body: Payload)

  /** The outcome of parse_status: the message or the exception, and the stored status afterwards. */
  datatype Parsed = Parsed(message: Result<string, Error>, lastStatus: string)

  /** The outcome of one loop cycle: the message handed to the bot and the stored status afterwards. */
  datatype CycleResult = CycleResult(message: string, lastStatus: string)

  /** The outcome of a run of cycles: the messages handed to the bot, in order, and the stored status afterwards. */
  datatype RunResult = RunResult(messages: seq<string>, lastStatus: string)

  /** One cycle's inputs: the wall-clock time and the endpoint, as a map from `from_date` to its answer. */
  datatype Tick = Tick(now: int, fetch: int -> Response)

  /** A status the stored last status may hold: the initial empty string or a catalogue key. */
  predicate KnownOrInitial(s: string) {
    s == InitialStatus || s in HomeworkStatuses
  }

  /** How Python's `str()` renders an exception raised by the core. */
  function ErrorText(e: Error): string {
    match e
    case KeyError(None) => "None"
    case KeyError(Some(k)) => "'" + k + "'"
    case TypeError => ""
    case IndexError => "list index out of range"
    case EndpointError => ""
  }

  /** The text sent when a cycle fails. */
  function FailureMessage(e: Error): string {
    FailurePrefix + ErrorText(e)
  }

  /** How an f-string renders a value read with `.get`: a missing value prints as `None`. */
  function FormatValue(v: Option<string>): string {
    match v
    case Some(s) => s
    case None => "None"
  }

  /** The text sent when the review status has changed. */
  function ChangedMessage(name: Option<string>, verdict: string): string {
    ChangedPrefix + FormatValue(name) + "\". " + verdict
  }

  /** Python truthiness of a value read with `os.getenv`. */
  predicate Truthy(v: Option<string>) {
    v.Some? && v.value != ""
  }

  /** check_tokens: the bot may run only when all three credentials are set and non-empty. */
  function CheckTokens(practicumToken: Option<string>, telegramToken: Option<string>, chatId: Option<string>): (ok: bool)
    ensures ok <==> practicumToken != None && practicumToken != Some("")
                    && telegramToken != None && telegramToken != Some("")
                    && chatId != None && chatId != Some("")
  {
    Truthy(practicumToken) && Truthy(telegramToken) && Truthy(chatId)
  }

  /** The `from_date` sent: the given timestamp, or the clock when that timestamp is zero. */
  function FromDate(currentTimestamp: int, now: int): (t: int)
    ensures currentTimestamp != 0 ==> t == currentTimestamp
    ensures currentTimestamp == 0 ==> t == now
  {
    if currentTimestamp != 0 then currentTimestamp else now
  }

  /** get_api_answer: the parsed body on HTTP 200, and an endpoint error otherwise. */
  function GetApiAnswer(currentTimestamp: int, now: int, fetch: int -> Response): (r: Result<Payload, Error>)
    ensures r.Success? <==> fetch(FromDate(currentTimestamp, now)).statusCode == 200
    ensures r.Success? ==> r.value == fetch(FromDate(currentTimestamp, now)).body
    ensures r.Failure? ==> r.error == EndpointError
  {
    var response := fetch(FromDate(currentTimestamp, now));
    if response.statusCode != 200 then Failure(EndpointError) else Success(response.body)
  }

  /** check_response: the `homeworks` list unchanged, a key error when it is absent, a type error when it is no list. */
  function CheckResponse(p: Payload): (r: Result<seq<Homework>, Error>)
    ensures r.Success? <==> p.homeworks.Some? && p.homeworks.value.HomeworkList?
    ensures r.Success? ==> p.homeworks == Some(HomeworkList(r.value))
    ensures p.homeworks == None <==> r == Failure(KeyError(Some("homeworks")))
    ensures p.homeworks == Some(NotAList) <==> r == Failure(TypeError)
  {
    match p.homeworks
    case None => Failure(KeyError(Some("homeworks")))
    case Some(NotAList) => Failure(TypeError)
    case Some(HomeworkList(items)) => Success(items)
  }

  /** The catalogue lookup `HOMEWORK_STATUSES[status]`: it succeeds exactly on the three known codes. */
  function Verdict(status: Option<string>): (r: Result<string, Error>)
    ensures r.Success? <==> status == Some("approved") || status == Some("reviewing") || status == Some("rejected")
    ensures r.Failure? ==> r == Failure(KeyError(status))
    ensures r.Success? ==> r.value == HomeworkStatuses[status.value]
  {
    if status.Some? && status.value in HomeworkStatuses then Success(HomeworkStatuses[status.value])
    else Failure(KeyError(status))
  }

  /**
   * parse_status: an unchanged status yields the fixed "nothing happened" text;
   * a changed one is looked up first and committed only when the lookup succeeds.
   */
  function ParseStatus(lastStatus: string, hw: Homework): (p: Parsed)
    ensures p.message.Failure? ==> p.lastStatus == lastStatus
    ensures p.lastStatus == lastStatus || p.lastStatus in HomeworkStatuses
    ensures p.lastStatus != lastStatus ==> hw.status == Some(p.lastStatus)
  {
    if hw.status != Some(lastStatus) then
      match Verdict(hw.status)
      case Failure(e) => Parsed(Failure(e), lastStatus)
      case Success(verdict) => Parsed(Success(ChangedMessage(hw.homeworkName, verdict)), hw.status.value)
    else
      Parsed(Success(NothingHappened), lastStatus)
  }

  /** The body of main's `try`: fetch, check the response, take element 0, parse its status. */
  function Attempt(lastStatus: string, now: int, fetch: int -> Response): (p: Parsed)
    ensures p.message.Failure? ==> p.lastStatus == lastStatus
    ensures p.lastStatus == lastStatus || p.lastStatus in HomeworkStatuses
    ensures fetch(now).statusCode != 200 ==> p == Parsed(Failure(EndpointError), lastStatus)
    ensures fetch(now).statusCode == 200 && CheckResponse(fetch(now).body).Failure? ==>
              p == Parsed(Failure(CheckResponse(fetch(now).body).error), lastStatus)
    ensures fetch(now).statusCode == 200 && CheckResponse(fetch(now).body) == Success([]) ==>
              p == Parsed(Failure(IndexError), lastStatus)
    ensures fetch(now).statusCode == 200 && CheckResponse(fetch(now).body).Success?
            && CheckResponse(fetch(now).body).value != [] ==>
              p == ParseStatus(lastStatus, CheckResponse(fetch(now).body).value[0])
  {
    match GetApiAnswer(now, now, fetch)
    case Failure(e) => Parsed(Failure(e), lastStatus)
    case Success(answer) =>
      match CheckResponse(answer)
      case Failure(e) => Parsed(Failure(e), lastStatus)
      case Success(homeworks) =>
        if |homeworks| == 0 then Parsed(Failure(IndexError), lastStatus)
        else ParseStatus(lastStatus, homeworks[0])
  }

  /** One cycle of main: every exception of the attempt becomes the failure message. */
  function Cycle(lastStatus: string, now: int, fetch: int -> Response): (c: CycleResult)
    ensures KnownOrInitial(lastStatus) ==> KnownOrInitial(c.lastStatus)
    ensures Attempt(lastStatus, now, fetch).message.Failure? ==>
              c == CycleResult(FailureMessage(Attempt(lastStatus, now, fetch).message.error), lastStatus)
    ensures Attempt(lastStatus, now, fetch).message.Success? ==>
              c == CycleResult(Attempt(lastStatus, now, fetch).message.value, Attempt(lastStatus, now, fetch).lastStatus)
  {
    var p := Attempt(lastStatus, now, fetch);
    match p.message
    case Success(m) => CycleResult(m, p.lastStatus)
    case Failure(e) => CycleResult(FailureMessage(e), p.lastStatus)
  }

  /** A run of cycles starting from a stored status: the messages sent and the stored status at the end. */
  function RunCycles(lastStatus: string, ticks: seq<Tick>): RunResult
    decreases |ticks|
  {
    if ticks == [] then RunResult([], lastStatus)
    else
      var c := Cycle(lastStatus, ticks[0].now, ticks[0].fetch);
      var rest := RunCycles(c.lastStatus, ticks[1..]);
      RunResult([c.message] + rest.messages, rest.lastStatus)
  }

  /** What the whole program sends: nothing when a credential is missing, one message per cycle otherwise. */
  function Sent(practicumToken: Option<string>, telegramToken: Option<string>, chatId: Option<string>, ticks: seq<Tick>): seq<string>
  {
    if CheckTokens(practicumToken, telegramToken, chatId) then RunCycles(InitialStatus, ticks).messages else []
  }

  // ----- Properties of parse_status -----

  /** A record whose status equals the stored one yields the fixed text and leaves the state alone. */
  lemma UnchangedStatusIsQuiet(lastStatus: string, hw: Homework)
    requires hw.status == Some(lastStatus)
    ensures ParseStatus(lastStatus, hw) == Parsed(Success(NothingHappened), lastStatus)
  {
  }

  /** A changed, known status yields the formatted verdict message and is committed. */
  lemma ChangedKnownStatusIsCommitted(lastStatus: string, hw: Homework)
    requires hw.status.Some? && hw.status.value != lastStatus && hw.status.value in HomeworkStatuses
    ensures ParseStatus(lastStatus, hw) ==
              Parsed(Success(ChangedPrefix + FormatValue(hw.homeworkName) + "\". " + HomeworkStatuses[hw.status.value]),
                     hw.status.value)
  {
  }

  /** A changed status outside the catalogue (a missing one included) raises a key error and keeps the state. */
  lemma ChangedUnknownStatusFails(lastStatus: string, hw: Homework)
    requires hw.status != Some(lastStatus)
    requires hw.status !in {Some("approved"), Some("reviewing"), Some("rejected")}
    ensures ParseStatus(lastStatus, hw) == Parsed(Failure(KeyError(hw.status)), lastStatus)
  {
  }

  /** From the initial empty status, any known status takes the "changed" branch. */
  lemma FirstKnownStatusIsAChange(hw: Homework)
    requires hw.status.Some? && hw.status.value in HomeworkStatuses
    ensures ParseStatus(InitialStatus, hw).lastStatus == hw.status.value
    ensures ParseStatus(InitialStatus, hw).message ==
              Success(ChangedMessage(hw.homeworkName, HomeworkStatuses[hw.status.value]))
  {
  }

  /** Parsing the same record again after a success is quiet and does not change the state. */
  lemma RepeatedRecordIsIdempotent(lastStatus: string, hw: Homework)
    requires ParseStatus(lastStatus, hw).message.Success?
    ensures var after := ParseStatus(lastStatus, hw).lastStatus;
            ParseStatus(after, hw) == Parsed(Success(NothingHappened), after)
  {
  }

  /** After any successful parse the stored status is the initial one or a catalogue key. */
  lemma ParsedStatusIsKnown(lastStatus: string, hw: Homework)
    requires KnownOrInitial(lastStatus)
    ensures KnownOrInitial(ParseStatus(lastStatus, hw).lastStatus)
  {
  }

  // ----- Properties of a cycle -----

  /** A non-200 answer makes the cycle send the failure text and keep the state. */
  lemma EndpointFailureIsReported(lastStatus: string, now: int, fetch: int -> Response)
    requires fetch(now).statusCode != 200
    ensures Cycle(lastStatus, now, fetch) == CycleResult(FailurePrefix, lastStatus)
  {
  }

  /** An empty `homeworks` list is indexed anyway: the cycle reports the index error. */
  lemma EmptyListIsReported(lastStatus: string, now: int, fetch: int -> Response)
    requires fetch(now).statusCode == 200 && fetch(now).body == Payload(Some(HomeworkList([])))
    ensures Cycle(lastStatus, now, fetch) == CycleResult(FailurePrefix + "list index out of range", lastStatus)
  {
  }

  /** A missing or non-list `homeworks` value makes the cycle report the check's error and keep the state. */
  lemma MalformedAnswerIsReported(lastStatus: string, now: int, fetch: int -> Response)
    requires fetch(now).statusCode == 200 && CheckResponse(fetch(now).body).Failure?
    ensures Cycle(lastStatus, now, fetch) ==
              CycleResult(FailureMessage(CheckResponse(fetch(now).body).error), lastStatus)
    ensures fetch(now).body.homeworks == None ==>
              Cycle(lastStatus, now, fetch).message == FailurePrefix + "'homeworks'"
    ensures fetch(now).body.homeworks == Some(NotAList) ==>
              Cycle(lastStatus, now, fetch).message == FailurePrefix
  {
  }

  /**
   * A non-empty list makes the cycle act on its first record: it sends what
   * parse_status makes of it, or reports parse_status's error and keeps the state.
   */
  lemma GoodAnswerIsParsed(lastStatus: string, now: int, fetch: int -> Response, hw: Homework, rest: seq<Homework>)
    requires fetch(now).statusCode == 200 && fetch(now).body == Payload(Some(HomeworkList([hw] + rest)))
    ensures var p := ParseStatus(lastStatus, hw);
            Cycle(lastStatus, now, fetch) ==
              if p.message.Success? then CycleResult(p.message.value, p.lastStatus)
              else CycleResult(FailureMessage(p.message.error), lastStatus)
  {
  }

  /** A changed status outside the catalogue in the first record is reported as a key error and keeps the state. */
  lemma UnknownStatusIsReported(lastStatus: string, now: int, fetch: int -> Response, hw: Homework, rest: seq<Homework>)
    requires fetch(now).statusCode == 200 && fetch(now).body == Payload(Some(HomeworkList([hw] + rest)))
    requires hw.status != Some(lastStatus)
    requires hw.status !in {Some("approved"), Some("reviewing"), Some("rejected")}
    ensures Cycle(lastStatus, now, fetch) == CycleResult(FailurePrefix + ErrorText(KeyError(hw.status)), lastStatus)
    ensures hw.status.Some? ==> Cycle(lastStatus, now, fetch).message == FailurePrefix + "'" + hw.status.value + "'"
  {
  }

  /** No success message starts with the failure prefix. */
  lemma SuccessTextIsNotFailure(lastStatus: string, hw: Homework)
    requires ParseStatus(lastStatus, hw).message.Success?
    ensures !(FailurePrefix <= ParseStatus(lastStatus, hw).message.value)
  {
    var m := ParseStatus(lastStatus, hw).message.value;
    if hw.status != Some(lastStatus) {
      assert m[1] == ChangedPrefix[1];
    } else {
      assert m == NothingHappened;
    }
    assert m[1] != FailurePrefix[1];
  }

  /** The sent text starts with the failure prefix exactly when the cycle's attempt raised. */
  lemma FailureIsRecognisable(lastStatus: string, now: int, fetch: int -> Response)
    ensures FailurePrefix <= Cycle(lastStatus, now, fetch).message
            <==> Attempt(lastStatus, now, fetch).message.Failure?
  {
    var answer := GetApiAnswer(now, now, fetch);
    if answer.Success? && CheckResponse(answer.value).Success? {
      var homeworks := CheckResponse(answer.value).value;
      if |homeworks| > 0 && ParseStatus(lastStatus, homeworks[0]).message.Success? {
        SuccessTextIsNotFailure(lastStatus, homeworks[0]);
      }
    }
  }

  // ----- Properties of a run of cycles -----

  /** A cycle never propagates an exception: every cycle sends exactly one message. */
  lemma {:induction false} OneMessagePerCycle(lastStatus: string, ticks: seq<Tick>)
    ensures |RunCycles(lastStatus, ticks).messages| == |ticks|
    decreases |ticks|
  {
    if ticks != [] {
      var c := Cycle(lastStatus, ticks[0].now, ticks[0].fetch);
      OneMessagePerCycle(c.lastStatus, ticks[1..]);
    }
  }

  /** However many cycles run, the stored status stays the initial one or a catalogue key. */
  lemma {:induction false} StatusStaysKnown(lastStatus: string, ticks: seq<Tick>)
    requires KnownOrInitial(lastStatus)
    ensures KnownOrInitial(RunCycles(lastStatus, ticks).lastStatus)
    decreases |ticks|
  {
    if ticks != [] {
      var c := Cycle(lastStatus, ticks[0].now, ticks[0].fetch);
      StatusStaysKnown(c.lastStatus, ticks[1..]);
    }
  }

  /** Running one more cycle appends that cycle's message and moves the state on. */
  lemma {:induction false} RunCyclesSnoc(lastStatus: string, ticks: seq<Tick>, t: Tick)
    ensures var r := RunCycles(lastStatus, ticks);
            var c := Cycle(r.lastStatus, t.now, t.fetch);
            RunCycles(lastStatus, ticks + [t]) == RunResult(r.messages + [c.message], c.lastStatus)
    decreases |ticks|
  {
    if ticks == [] {
      assert ticks + [t] == [t];
    } else {
      var c := Cycle(lastStatus, ticks[0].now, ticks[0].fetch);
      assert (ticks + [t])[1..] == ticks[1..] + [t];
      RunCyclesSnoc(c.lastStatus, ticks[1..], t);
    }
  }

  /** A missing credential means nothing is ever sent, however many cycles are offered. */
  lemma MissingTokenSendsNothing(practicumToken: Option<string>, telegramToken: Option<string>, chatId: Option<string>, ticks: seq<Tick>)
    requires practicumToken in {None, Some("")} || telegramToken in {None, Some("")} || chatId in {None, Some("")}
    ensures Sent(practicumToken, telegramToken, chatId, ticks) == []
  {
  }

  // ----- A three-cycle scenario -----

  function Answer(hw: Homework): int -> Response {
    _ => Response(200, Payload(Some(HomeworkList([hw]))))
  }

  /** Reviewing, reviewing again, then approved: changed, quiet, changed, ending on "approved". */
  lemma ReviewThenApproveScenario()
    ensures var ticks := [Tick(1, Answer(Homework(Some("A"), Some("reviewing")))),
                          Tick(2, Answer(Homework(Some("A"), Some("reviewing")))),
                          Tick(3, Answer(Homework(Some("A"), Some("approved"))))];
            RunCycles(InitialStatus, ticks) ==
              RunResult([ChangedPrefix + "A\". " + HomeworkStatuses["reviewing"],
                         NothingHappened,
                         ChangedPrefix + "A\". " + HomeworkStatuses["approved"]],
                        "approved")
  {
    var reviewing := Homework(Some("A"), Some("reviewing"));
    var approved := Homework(Some("A"), Some("approved"));
    var ticks := [Tick(1, Answer(reviewing)), Tick(2, Answer(reviewing)), Tick(3, Answer(approved))];
    var c1 := Cycle(InitialStatus, 1, Answer(reviewing));
    assert c1 == CycleResult(ChangedPrefix + "A\". " + HomeworkStatuses["reviewing"], "reviewing");
    var c2 := Cycle("reviewing", 2, Answer(reviewing));
    assert c2 == CycleResult(NothingHappened, "reviewing");
    var c3 := Cycle("reviewing", 3, Answer(approved));
    assert c3 == CycleResult(ChangedPrefix + "A\". " + HomeworkStatuses["approved"], "approved");
    assert ticks[1..][1..][1..] == [];
  }
}
