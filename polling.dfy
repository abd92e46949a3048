/**
 * The script's mutable state and its main loop: the stored last status
 * (a module global that parse_status reassigns) and the request timestamp
 * (a local of main reassigned every cycle), held by one Poller object.
 */
module Polling {
  import opened Wrappers
  import opened HomeworkBot

  class Poller {
    /** The status last notified about. */
    var lastStatus: string
    /** The timestamp of the current cycle's request. */
    var currentTimestamp: int

    /** The stored status is always the initial empty string or a catalogue key. */
    ghost predicate Valid()
      reads this
    {
      KnownOrInitial(lastStatus)
    }

    /** The state when the loop starts: nothing notified yet, the clock read once. */
    constructor (startTime: int)
      ensures Valid()
      ensures lastStatus == InitialStatus && currentTimestamp == startTime
    {
      lastStatus := InitialStatus;
      currentTimestamp := startTime;
    }

    /**
     * parse_status on the stored status: the catalogue lookup comes before the
     * assignment, so a key error leaves the stored status as it was.
     */
    method ParseStatus(hw: Homework) returns (message: Result<string, Error>)
      requires Valid()
      modifies this`lastStatus
      ensures Valid()
      ensures Parsed(message, lastStatus) == HomeworkBot.ParseStatus(old(lastStatus), hw)
      ensures message.Failure? ==> lastStatus == old(lastStatus)
    {
      if hw.status != Some(lastStatus) {
        var verdict := Verdict(hw.status);
        if verdict.Failure? {
          return Failure(verdict.error);
        }
        lastStatus := hw.status.value;
        message := Success(ChangedMessage(hw.homeworkName, verdict.value));
      } else {
        message := Success(NothingHappened);
      }
    }

    /**
     * One pass through main's `try`/`except`: read the clock, fetch, check the
     * response, take element 0, parse its status; any exception becomes the
     * failure message. Returns the message handed to the bot.
     */
    method Step(now: int, fetch: int -> Response) returns (message: string)
      requires Valid()
      modifies this
      ensures Valid()
      ensures currentTimestamp == now
      ensures CycleResult(message, lastStatus) == Cycle(old(lastStatus), now, fetch)
    {
      currentTimestamp := now;
      var answer := GetApiAnswer(currentTimestamp, now, fetch);
      if answer.Failure? {
        return FailureMessage(answer.error);
      }
      var homeworks := CheckResponse(answer.value);
      if homeworks.Failure? {
        return FailureMessage(homeworks.error);
      }
      if |homeworks.value| == 0 {
        return FailureMessage(IndexError);
      }
      var parsed := ParseStatus(homeworks.value[0]);
      match parsed {
        case Success(m) => message := m;
        case Failure(e) => message := FailureMessage(e);
      }
    }
  }

  /**
   * main over a finite prefix of its endless loop: check the credentials and
   * stop at once when one is missing; otherwise run one cycle per tick and
   * collect the messages handed to the bot.
   */
  method Run(practicumToken: Option<string>, telegramToken: Option<string>, chatId: Option<string>,
             startTime: int, ticks: seq<Tick>)
    returns (sent: seq<string>)
    ensures sent == Sent(practicumToken, telegramToken, chatId, ticks)
    ensures !CheckTokens(practicumToken, telegramToken, chatId) ==> sent == []
    ensures CheckTokens(practicumToken, telegramToken, chatId) ==> |sent| == |ticks|
  {
    if !CheckTokens(practicumToken, telegramToken, chatId) {
      return [];
    }
    var poller := new Poller(startTime);
    sent := [];
    var i := 0;
    while i < |ticks|
      invariant 0 <= i <= |ticks|
      invariant poller.Valid()
      invariant RunResult(sent, poller.lastStatus) == RunCycles(InitialStatus, ticks[..i])
    {
      var message := poller.Step(ticks[i].now, ticks[i].fetch);
      RunCyclesSnoc(InitialStatus, ticks[..i], ticks[i]);
      assert ticks[..i + 1] == ticks[..i] + [ticks[i]];
      sent := sent + [message];
      i := i + 1;
    }
    assert ticks[..i] == ticks;
    OneMessagePerCycle(InitialStatus, ticks);
  }
}
