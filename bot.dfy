/**
 * The bot's main loop: start-up check, then an endless series of poll cycles
 * that fetch with a fixed cursor, validate, parse the newest record, send it
 * when it differs from the last report, and sort every exception into
 * "log only" or "log and alert the operator".
 */
module Bot {
  import opened Wrappers
  import opened Json
  import opened Homework

  /** What the endpoint call of one cycle produced. */
  datatype Fetch =
    | Fetched(body: Json)     // a 200 answer, decoded
    | Timeout                 // TimeoutError
    | NotOk                   // any status other than 200
    | Broken(reason: string)  // any other exception from the request or the decoding

  /** What the messenger does with one send attempt. */
  datatype SendResult = Delivered | Refused(reason: string)

  /** How the except clauses treat an exception. */
  datatype Handling = LogOnly | Alert(message: string)

  const AlertPrefix: string := "Сбой в работе программы: "
  const SendErrorPrefix: string := "Ошибка при отправке телеграм сообщения: "

  /**
   * The except chain: the named exception classes are only logged; any other
   * exception is logged and reported to the chat with the failure prefix.
   * The second `except TypeError` can never be reached and adds nothing.
   */
  function Classify(e: Error): (h: Handling)
    ensures h.Alert? <==> e.Failure?
    ensures h.Alert? ==> h.message == AlertPrefix + e.text
  {
    match e
    case Failure(text) => Alert(AlertPrefix + text)
    case _ => LogOnly
  }

  /** get_api_answer as seen by the loop. */
  function FetchStage(fetched: Fetch): (r: Result<Json, Error>)
    ensures r.Ok? <==> fetched.Fetched?
    ensures fetched.Fetched? ==> r.value == fetched.body
    ensures fetched == Timeout ==> r == Err(TimeoutError)
    ensures fetched == NotOk ==> r == Err(NotOkResponse)
    ensures fetched.Broken? ==> r == Err(Failure(fetched.reason))
  {
    match fetched
    case Fetched(body) => Ok(body)
    case Timeout => Err(TimeoutError)
    case NotOk => Err(NotOkResponse)
    case Broken(reason) => Err(Failure(reason))
  }

  /**
   * The try block up to the comparison: the message for the newest record,
   * None when the list is empty, or the exception raised on the way.
   */
  function Latest(fetched: Fetch, verdicts: Verdicts): (r: Result<Option<string>, Error>)
    ensures !fetched.Fetched? ==> r == Err(FetchStage(fetched).error)
    ensures fetched.Fetched? && CheckResponse(fetched.body).Err? ==>
      r == Err(CheckResponse(fetched.body).error)
    ensures r == Ok(None) <==> fetched.Fetched? && CheckResponse(fetched.body) == Ok([])
    ensures fetched.Fetched? && CheckResponse(fetched.body).Ok? && CheckResponse(fetched.body).value != [] ==>
      r == match ParseStatus(CheckResponse(fetched.body).value[0], verdicts)
           case Ok(message) => Ok(Some(message))
           case Err(e) => Err(e)
  {
    match FetchStage(fetched)
    case Err(e) => Err(e)
    case Ok(response) =>
      match CheckResponse(response)
      case Err(e) => Err(e)
      case Ok(homeworks) =>
        if homeworks == [] then Ok(None)
        else
          match ParseStatus(homeworks[0], verdicts)
          case Err(e) => Err(e)
          case Ok(message) => Ok(Some(message))
  }

  /** Only the first record counts: answers that agree on it give the same result. */
  lemma OnlyFirstRecord(b1: Json, b2: Json, verdicts: Verdicts)
    requires CheckResponse(b1).Ok? && CheckResponse(b2).Ok?
    requires CheckResponse(b1).value != [] && CheckResponse(b2).value != []
    requires CheckResponse(b1).value[0] == CheckResponse(b2).value[0]
    ensures Latest(Fetched(b1), verdicts) == Latest(Fetched(b2), verdicts)
  {
  }

  /** The outcome of the k-th send attempt of a cycle (counting from 0). */
  function SendAt(transport: seq<SendResult>, k: nat): SendResult {
    if k < |transport| then transport[k] else Delivered
  }

  /**
   * One cycle as observed from outside: the cursor it fetched with, the
   * exception that reached the except clauses, the status report and the
   * operator alert handed to the messenger, and whether an exception left
   * the loop (a refused alert is raised from inside the except clause).
   */
  datatype CycleReport = CycleReport(
    query: int,
    caught: Option<Error>,
    report: Option<string>,
    alert: Option<string>,
    escaped: bool)

  datatype Step = Step(prevReport: string, out: CycleReport)

  /** The except clauses for exception `e`, whose alert (if any) meets `alertSend`. */
  function Handle(cursor: int, e: Error, report: Option<string>, alertSend: SendResult): (out: CycleReport)
    ensures out.query == cursor && out.caught == Some(e) && out.report == report
    ensures out.alert.Some? <==> e.Failure?
    ensures out.alert.Some? ==> out.alert.value == AlertPrefix + e.text
    ensures out.escaped <==> e.Failure? && alertSend.Refused?
  {
    match Classify(e)
    case LogOnly => CycleReport(cursor, Some(e), report, None, false)
    case Alert(message) => CycleReport(cursor, Some(e), report, Some(message), alertSend.Refused?)
  }

  /**
   * One pass of the loop body. prev_report is updated before the report is
   * sent, so a refused report is not sent again; the refusal becomes a
   * generic failure, which is alerted with the next send attempt.
   */
  function CycleSpec(prev: string, cursor: int, latest: Result<Option<string>, Error>,
                     transport: seq<SendResult>): (s: Step)
    ensures s.out.query == cursor
    ensures s.out.escaped ==> s.out.alert.Some?
  {
    match latest
    case Err(e) => Step(prev, Handle(cursor, e, None, SendAt(transport, 0)))
    case Ok(None) => Step(prev, CycleReport(cursor, None, None, None, false))
    case Ok(Some(message)) =>
      if message == prev then Step(prev, CycleReport(cursor, None, None, None, false))
      else
        match SendAt(transport, 0)
        case Delivered => Step(message, CycleReport(cursor, None, Some(message), None, false))
        case Refused(reason) =>
          Step(message, Handle(cursor, Failure(SendErrorPrefix + reason), Some(message), SendAt(transport, 1)))
  }

  /**
   * What one cycle does with the try block's result: prev_report becomes the
   * parsed message whenever there is one; a report is sent iff that message
   * differs from prev_report; the exception caught is the try block's, or the
   * messenger's refusal of the report; only a caught generic exception is
   * alerted, and the loop ends only when that alert is refused.
   */
  lemma CycleOutcome(prev: string, cursor: int, latest: Result<Option<string>, Error>,
                     transport: seq<SendResult>)
    ensures var s := CycleSpec(prev, cursor, latest, transport);
      s.out.query == cursor &&
      s.prevReport == (if latest.Ok? && latest.value.Some? then latest.value.value else prev) &&
      (s.out.report.Some? <==> latest.Ok? && latest.value.Some? && latest.value.value != prev) &&
      (s.out.report.Some? ==> s.out.report.value == latest.value.value) &&
      s.out.caught == (if latest.Err? then Some(latest.error)
                       else if s.out.report.Some? && SendAt(transport, 0).Refused?
                       then Some(Failure(SendErrorPrefix + SendAt(transport, 0).reason)) else None) &&
      (s.out.alert.Some? <==> s.out.caught.Some? && s.out.caught.value.Failure?) &&
      (s.out.alert.Some? ==> s.out.alert.value == AlertPrefix + s.out.caught.value.text) &&
      (s.out.escaped <==> s.out.alert.Some? &&
                          SendAt(transport, if s.out.report.Some? then 1 else 0).Refused?)
  {
  }

  /** An answer with an empty homeworks list: the cycle sends nothing and prev_report stays. */
  lemma EmptyListQuiet(prev: string, verdicts: Verdicts, cursor: int, currentDate: int,
                       extra: seq<(string, Json)>, transport: seq<SendResult>)
    requires forall i :: 0 <= i < |extra| ==> extra[i].0 != "homeworks" && extra[i].0 != "current_date"
    ensures CycleSpec(prev, cursor, Latest(Fetched(Envelope([], currentDate, extra)), verdicts), transport)
         == Step(prev, CycleReport(cursor, None, None, None, false))
  {
    EnvelopeRoundTrip([], currentDate, extra);
  }

  /** A timeout or a non-OK answer: the cycle sends nothing and prev_report stays. */
  lemma EndpointErrorsQuiet(prev: string, verdicts: Verdicts, cursor: int, fetched: Fetch,
                            transport: seq<SendResult>)
    requires fetched == Timeout || fetched == NotOk
    ensures var s := CycleSpec(prev, cursor, Latest(fetched, verdicts), transport);
      s.prevReport == prev && s.out.report.None? && s.out.alert.None? && !s.out.escaped &&
      s.out.caught == Some(if fetched == Timeout then TimeoutError else NotOkResponse)
  {
  }

  /** A parsed record is reported iff it differs from prev_report, which then holds it. */
  lemma ReportIffChanged(prev: string, cursor: int, message: string, transport: seq<SendResult>)
    ensures var s := CycleSpec(prev, cursor, Ok(Some(message)), transport);
      s.prevReport == message &&
      (s.out.report == Some(message) <==> message != prev) &&
      (s.out.report.None? <==> message == prev) &&
      (message == prev ==> s.out.alert.None? && !s.out.escaped)
  {
  }

  /**
   * Timeout, non-OK, type, key and unknown-status errors are only logged;
   * any other exception yields exactly one alert with the failure prefix,
   * and the loop ends only when that alert is refused.
   */
  lemma ErrorsClassified(prev: string, cursor: int, e: Error, transport: seq<SendResult>)
    ensures var s := CycleSpec(prev, cursor, Err(e), transport);
      s.prevReport == prev && s.out.report.None? && s.out.caught == Some(e) &&
      (!e.Failure? ==> s.out.alert.None? && !s.out.escaped) &&
      (e.Failure? ==> s.out.alert == Some(AlertPrefix + e.text) &&
                      (s.out.escaped <==> SendAt(transport, 0).Refused?))
  {
  }

  /** A refused report: prev_report already holds it, and the refusal is alerted. */
  lemma RefusedReportAlerted(prev: string, cursor: int, message: string, transport: seq<SendResult>,
                             reason: string)
    requires message != prev
    requires SendAt(transport, 0) == Refused(reason)
    ensures var s := CycleSpec(prev, cursor, Ok(Some(message)), transport);
      s.prevReport == message && s.out.report == Some(message) &&
      s.out.alert == Some(AlertPrefix + (SendErrorPrefix + reason)) &&
      (s.out.escaped <==> SendAt(transport, 1).Refused?)
  {
  }

  /**
   * Two consecutive cycles over the same parsed record send it at most once,
   * even when the first send was refused: the second cycle sends nothing.
   */
  lemma RepeatSendsNothing(prev: string, cursor: int, message: string,
                           t1: seq<SendResult>, t2: seq<SendResult>)
    ensures var s1 := CycleSpec(prev, cursor, Ok(Some(message)), t1);
            var s2 := CycleSpec(s1.prevReport, cursor, Ok(Some(message)), t2);
      s2 == Step(message, CycleReport(cursor, None, None, None, false))
  {
  }

  /** The inputs of one loop iteration: the fetch outcome and the messenger's answers. */
  datatype Tick = Tick(fetched: Fetch, transport: seq<SendResult>)

  /** What the try block of one iteration produced, with the messenger's answers for it. */
  datatype Tried = Tried(latest: Result<Option<string>, Error>, transport: seq<SendResult>)

  /** The try block run over each input of a script. */
  function TryAll(script: seq<Tick>, verdicts: Verdicts): seq<Tried> {
    seq(|script|, i requires 0 <= i < |script| => Tried(Latest(script[i].fetched, verdicts), script[i].transport))
  }

  /** Cycles over the try results of a script, stopping after the first one whose exception escapes. */
  function RunSpec(prev: string, cursor: int, tries: seq<Tried>): (r: (string, seq<CycleReport>))
    ensures |r.1| <= |tries|
    ensures tries != [] ==> r.1 != []
    decreases |tries|
  {
    if tries == [] then (prev, [])
    else
      var s := CycleSpec(prev, cursor, tries[0].latest, tries[0].transport);
      if s.out.escaped then (s.prevReport, [s.out])
      else
        var rest := RunSpec(s.prevReport, cursor, tries[1..]);
        (rest.0, [s.out] + rest.1)
  }

  /** Reports `outs` so far, followed by the run over the remaining try results. */
  function Resume(prev: string, cursor: int, outs: seq<CycleReport>, tries: seq<Tried>): (r: (string, seq<CycleReport>))
    ensures |r.1| <= |outs| + |tries|
  {
    var rest := RunSpec(prev, cursor, tries);
    (rest.0, outs + rest.1)
  }

  /** One cycle of a run: either it escapes and the run ends, or the run resumes after it. */
  lemma ResumeStep(prev: string, cursor: int, outs: seq<CycleReport>, tries: seq<Tried>,
                   next: string, out: CycleReport)
    requires tries != []
    requires Step(next, out) == CycleSpec(prev, cursor, tries[0].latest, tries[0].transport)
    ensures Resume(prev, cursor, outs, tries)
         == if out.escaped then (next, outs + [out]) else Resume(next, cursor, outs + [out], tries[1..])
  {
    if !out.escaped {
      var rest := RunSpec(next, cursor, tries[1..]);
      assert outs + ([out] + rest.1) == (outs + [out]) + rest.1;
    }
  }

  /** Every cycle of a run fetches with the start-up timestamp; only the last may escape. */
  lemma {:induction false} RunKeepsCursor(prev: string, cursor: int, tries: seq<Tried>)
    ensures var outs := RunSpec(prev, cursor, tries).1;
      |outs| <= |tries| &&
      (forall i :: 0 <= i < |outs| ==> outs[i].query == cursor) &&
      (forall i :: 0 <= i < |outs| - 1 ==> !outs[i].escaped) &&
      (|outs| < |tries| ==> outs != [] && outs[|outs| - 1].escaped)
    decreases |tries|
  {
    if tries != [] {
      var s := CycleSpec(prev, cursor, tries[0].latest, tries[0].transport);
      if !s.out.escaped {
        RunKeepsCursor(s.prevReport, cursor, tries[1..]);
      }
    }
  }

  /** The status reports a run hands to the messenger, in order. */
  function Reports(outs: seq<CycleReport>): seq<string>
    decreases |outs|
  {
    if outs == [] then []
    else (if outs[0].report.Some? then [outs[0].report.value] else []) + Reports(outs[1..])
  }

  /** The reports of one more cycle come after those of the cycles before it. */
  lemma {:induction false} ReportsSnoc(outs: seq<CycleReport>, out: CycleReport)
    ensures Reports(outs + [out])
         == Reports(outs) + (if out.report.Some? then [out.report.value] else [])
    decreases |outs|
  {
    if outs != [] {
      assert (outs + [out])[1..] == outs[1..] + [out];
      ReportsSnoc(outs[1..], out);
    } else {
      assert [out][1..] == [];
    }
  }

  /** A run that keeps seeing the same newest record reports it at most once, and not at all if it was the last report. */
  lemma {:induction false} SameRecordReportedOnce(prev: string, cursor: int, tries: seq<Tried>, message: string)
    requires forall i :: 0 <= i < |tries| ==> tries[i].latest == Ok(Some(message))
    ensures Reports(RunSpec(prev, cursor, tries).1)
         == if tries == [] || prev == message then [] else [message]
    decreases |tries|
  {
    if tries != [] {
      var s := CycleSpec(prev, cursor, tries[0].latest, tries[0].transport);
      assert s.prevReport == message;
      if !s.out.escaped {
        SameRecordReportedOnce(message, cursor, tries[1..], message);
        var rest := RunSpec(message, cursor, tries[1..]);
        assert RunSpec(prev, cursor, tries).1 == [s.out] + rest.1;
        assert ([s.out] + rest.1)[1..] == rest.1;
      }
    }
  }

  /** No report repeats the one just before it. */
  ghost predicate NoRepeats(reports: seq<string>) {
    forall i, j :: 0 <= i && j == i + 1 && j < |reports| ==> reports[i] != reports[j]
  }

  /** The last report of a history, or "" before the first one. */
  function LastReport(reports: seq<string>): string {
    if reports == [] then "" else reports[|reports| - 1]
  }

  /** A report that differs from the last one keeps the history free of repeats. */
  lemma ReportExtendsHistory(reports: seq<string>, message: string)
    requires NoRepeats(reports) && message != LastReport(reports)
    ensures NoRepeats(reports + [message]) && LastReport(reports + [message]) == message
  {
  }

  /** The bot's mutable state while polling. */
  class Poller {
    const verdicts: Verdicts
    /** current_timestamp: taken once at start-up and never advanced. */
    const cursor: int
    /** prev_report: the last status report handed to the messenger, or "". */
    var prevReport: string
    /** False once an exception has left the loop, which ends the process. */
    var running: bool
    /** Every status report handed to the messenger so far. */
    ghost var reports: seq<string>

    /** prev_report is the last report, and no report repeats the one before it. */
    ghost predicate Valid()
      reads this
    {
      prevReport == LastReport(reports) && NoRepeats(reports)
    }

    constructor (verdicts: Verdicts, startedAt: int)
      ensures Valid() && running
      ensures this.verdicts == verdicts && cursor == startedAt
      ensures prevReport == "" && reports == []
    {
      this.verdicts := verdicts;
      cursor := startedAt;
      prevReport := "";
      running := true;
      reports := [];
    }

    /** One iteration of `while True`: the try block, the except clauses, the report. */
    method Cycle(fetched: Fetch, transport: seq<SendResult>) returns (out: CycleReport)
      requires Valid() && running
      modifies this
      ensures Valid()
      ensures Step(prevReport, out) == CycleSpec(old(prevReport), cursor, Latest(fetched, verdicts), transport)
      ensures reports == old(reports) + (if out.report.Some? then [out.report.value] else [])
      ensures running == !out.escaped
    {
      // try: get_api_answer, check_response, parse_status of the first record
      var latest := Latest(fetched, verdicts);
      out := Settle(latest, transport);
    }

    /** The rest of the iteration: compare with prev_report, send, the except clauses. */
    method Settle(latest: Result<Option<string>, Error>, transport: seq<SendResult>) returns (out: CycleReport)
      requires Valid() && running
      modifies this
      ensures Valid()
      ensures Step(prevReport, out) == CycleSpec(old(prevReport), cursor, latest, transport)
      ensures reports == old(reports) + (if out.report.Some? then [out.report.value] else [])
      ensures running == !out.escaped
    {
      var caught: Option<Error> := None;
      var report: Option<string> := None;
      var attempts: nat := 0;
      match latest {
        case Err(e) =>
          caught := Some(e);
        case Ok(None) =>
        case Ok(Some(message)) =>
          if prevReport != message {
            ReportExtendsHistory(reports, message);
            prevReport := message;
            reports := reports + [message];
            report := Some(message);
            var sent := SendAt(transport, attempts);
            attempts := attempts + 1;
            if sent.Refused? {
              caught := Some(Failure(SendErrorPrefix + sent.reason));
            }
          }
      }
      // except
      var alert: Option<string> := None;
      var escaped := false;
      if caught.Some? {
        match Classify(caught.value) {
          case LogOnly =>
          case Alert(message) =>
            alert := Some(message);
            escaped := SendAt(transport, attempts).Refused?;
        }
      }
      // finally: time.sleep(RETRY_TIME)
      running := !escaped;
      out := CycleReport(cursor, caught, report, alert, escaped);
    }

    /** The loop, driven by a script of cycle inputs, until the script ends or an exception escapes. */
    method Run(script: seq<Tick>) returns (outs: seq<CycleReport>)
      requires Valid() && running
      modifies this
      ensures Valid()
      ensures (prevReport, outs) == RunSpec(old(prevReport), cursor, TryAll(script, verdicts))
      ensures reports == old(reports) + Reports(outs)
      ensures forall i :: 0 <= i < |outs| ==> outs[i].query == cursor
      ensures running <==> |outs| == |script| && (outs == [] || !outs[|outs| - 1].escaped)
    {
      var tries := TryAll(script, verdicts);
      assert |tries| == |script|;
      ghost var whole := RunSpec(prevReport, cursor, tries);
      outs := [];
      var i := 0;
      assert tries[i..] == tries;
      assert [] + whole.1 == whole.1;
      while i < |script| && running
        invariant 0 <= i <= |script|
        invariant Valid()
        invariant |outs| == i
        invariant reports == old(reports) + Reports(outs)
        invariant whole == if running then Resume(prevReport, cursor, outs, tries[i..]) else (prevReport, outs)
        invariant running ==> outs == [] || !outs[|outs| - 1].escaped
        invariant !running ==> outs != [] && outs[|outs| - 1].escaped
        decreases |script| - i
      {
        ghost var prev := prevReport;
        var out := Settle(tries[i].latest, tries[i].transport);
        assert tries[i..][1..] == tries[i + 1..];
        ResumeStep(prev, cursor, outs, tries[i..], prevReport, out);
        ReportsSnoc(outs, out);
        outs := outs + [out];
        i := i + 1;
      }
      if running {
        assert tries[i..] == [];
        assert outs + [] == outs;
      }
      RunKeepsCursor(old(prevReport), cursor, tries);
    }
  }

  /**
   * main's start-up: with a setting missing the process exits before any bot
   * is created or any request is made, and nothing is sent; otherwise polling
   * starts with an empty prev_report and the cursor fixed at `now`.
   */
  method Launch(tokens: Tokens, verdicts: Verdicts, now: int) returns (poller: Poller?)
    ensures poller == null <==> !CheckTokens(tokens)
    ensures poller != null ==>
      fresh(poller) && poller.Valid() && poller.running &&
      poller.prevReport == "" && poller.reports == [] &&
      poller.cursor == now && poller.verdicts == verdicts
  {
    if !CheckTokens(tokens) {
      // logging.critical(...); sys.exit(...)
      return null;
    }
    poller := new Poller(verdicts, now);
  }
  // ---------------------------------------------------------------------------
  // The except chain and the non-OK raise as Python evaluates them
  // ---------------------------------------------------------------------------

  /** What becomes of an exception at the except chain. */
  datatype Disposition = Handled(h: Handling) | Escapes(text: string)

  const NoNotOkResponse: string := "module 'exceptions' has no attribute 'NotOkResponse'"
  const NoNotExpectedHwStatus: string :=
    "module 'exceptions' has no attribute 'NotExpectedHwStatusException'"
  const UnboundE: string := "cannot access local variable 'e' where it is not associated with a value"

  /**
   * The except chain as written: the clause after `except TimeoutError` names
   * `e.NotOkResponse`, which the exceptions module does not define. Python
   * evaluates that name while matching any other exception, the AttributeError
   * it raises replaces the one being handled, and after the finally clause it
   * leaves the loop and ends the process.
   */
  function HandleAsWritten(e: Error): (d: Disposition)
    ensures d.Handled? <==> e == TimeoutError
    ensures d.Escapes? ==> d.text == NoNotOkResponse
  {
    if e == TimeoutError then Handled(LogOnly) else Escapes(NoNotOkResponse)
  }

  /** An answer that is not a dict: meant to be logged, but as written it ends the loop. */
  lemma NonDictAnswerEndsLoopAsWritten(verdicts: Verdicts)
    ensures Latest(Fetched(JArray([])), verdicts) == Err(TypeError)
    ensures HandleAsWritten(TypeError) == Escapes(NoNotOkResponse)
    ensures Classify(TypeError) == LogOnly
  {
  }

  /**
   * get_api_answer as written: `except TimeoutError as e` makes `e` a local
   * name of the function, so the raise for a non-OK answer reads an unbound
   * local and an UnboundLocalError is raised in its place.
   */
  function FetchAsWritten(fetched: Fetch): (r: Result<Json, Error>)
    ensures fetched != NotOk ==> r == FetchStage(fetched)
    ensures fetched == NotOk ==> r == Err(Failure(UnboundE))
  {
    if fetched == NotOk then Err(Failure(UnboundE)) else FetchStage(fetched)
  }

  /**
   * A non-OK answer: meant to be logged only. As written its UnboundLocalError
   * escapes the loop; with the except chain corrected it would still be
   * alerted as a generic failure.
   */
  lemma NotOkEscapesAsWritten()
    ensures HandleAsWritten(FetchAsWritten(NotOk).error) == Escapes(NoNotOkResponse)
    ensures Classify(FetchAsWritten(NotOk).error) == Alert(AlertPrefix + UnboundE)
    ensures Classify(FetchStage(NotOk).error) == LogOnly
  {
  }

  /**
   * parse_status as written: the raise for an unknown status names
   * `e.NotExpectedHwStatusException`, which the exceptions module does not
   * define, so an AttributeError is raised in its place.
   */
  function ParseStatusAsWritten(homework: Json, verdicts: Verdicts): (r: Result<string, Error>)
    ensures ParseStatus(homework, verdicts) != Err(UnknownStatus) ==> r == ParseStatus(homework, verdicts)
    ensures ParseStatus(homework, verdicts) == Err(UnknownStatus) ==> r == Err(Failure(NoNotExpectedHwStatus))
  {
    var r := ParseStatus(homework, verdicts);
    if r == Err(UnknownStatus) then Err(Failure(NoNotExpectedHwStatus)) else r
  }

  /**
   * A record with an undocumented status: meant to be logged only. As written
   * its AttributeError escapes the loop; with the except chain corrected it
   * would still be alerted as a generic failure.
   */
  lemma UnknownStatusEscapesAsWritten(verdicts: Verdicts)
    requires "unknown_code" !in verdicts
    ensures ParseStatus(Record("hw", "unknown_code", []), verdicts) == Err(UnknownStatus)
    ensures ParseStatusAsWritten(Record("hw", "unknown_code", []), verdicts) == Err(Failure(NoNotExpectedHwStatus))
    ensures HandleAsWritten(Failure(NoNotExpectedHwStatus)) == Escapes(NoNotOkResponse)
    ensures Classify(Failure(NoNotExpectedHwStatus)) == Alert(AlertPrefix + NoNotExpectedHwStatus)
    ensures Classify(UnknownStatus) == LogOnly
  {
    ParseRecord("hw", "unknown_code", [], verdicts);
  }
}
