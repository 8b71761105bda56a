/**
 * The pure stages of the bot's poll cycle: validating the API answer,
 * turning the latest homework record into a notification, and checking
 * that the three required settings are present.
 */
module Homework {
  import opened Wrappers
  import opened Json

  /**
   * The exceptions the loop's except clauses tell apart. NotOkResponse and
   * UnknownStatus stand for the exception names the code raises and catches
   * (`NotOkResponse`, `NotExpectedHwStatusException`) but the exceptions
   * module never defines; Failure is any other exception, carrying
   * `str(error)`.
   */
  datatype Error =
    | TimeoutError
    | NotOkResponse
    | TypeError
    | KeyError
    | UnknownStatus
    | Failure(text: string)

  /** HOMEWORK_VERDICTS: status code to verdict text, fixed for the process lifetime. */
  type Verdicts = map<string, string>

  const StatusPrefix: string := "Изменился статус проверки работы \""
  const VerdictSeparator: string := "\". "

  /** The notification for homework `name` whose status reads `verdict`. */
  function StatusMessage(name: string, verdict: string): string {
    StatusPrefix + name + VerdictSeparator + verdict
  }

  // ---------------------------------------------------------------------------
  // check_response
  // ---------------------------------------------------------------------------

  /** A dict holding `current_date` and a list under `homeworks`. */
  predicate IsEnvelope(response: Json) {
    response.JObject? &&
    Has(response.members, "current_date") &&
    Has(response.members, "homeworks") &&
    Get(response.members, "homeworks").JArray?
  }

  /**
   * check_response: accepts exactly the well-formed envelopes and returns the
   * `homeworks` list itself; every rejection is a TypeError or a KeyError.
   */
  function CheckResponse(response: Json): (r: Result<seq<Json>, Error>)
    ensures r.Ok? <==> IsEnvelope(response)
    ensures r.Ok? ==> Lookup(response.members, "homeworks") == Some(JArray(r.value))
    ensures r.Err? ==> r.error == TypeError || r.error == KeyError
  {
    if !response.JObject? then Err(TypeError)
    // `'homeworks' and 'current_date' not in response` tests current_date only
    else if !Has(response.members, "current_date") then Err(KeyError)
    else
      match Lookup(response.members, "homeworks")
      // `response['homeworks']` raises KeyError
      case None => Err(KeyError)
      case Some(homeworks) =>
        if homeworks.JArray? then Ok(homeworks.items) else Err(TypeError)
  }

  /** How each malformed answer is rejected. */
  lemma CheckResponseRejects(response: Json)
    ensures !response.JObject? ==> CheckResponse(response) == Err(TypeError)
    ensures response.JObject? && !Has(response.members, "current_date") ==>
      CheckResponse(response) == Err(KeyError)
    ensures response.JObject? && !Has(response.members, "homeworks") ==>
      CheckResponse(response) == Err(KeyError)
    ensures response.JObject? && Has(response.members, "current_date") &&
            Has(response.members, "homeworks") && !Get(response.members, "homeworks").JArray? ==>
      CheckResponse(response) == Err(TypeError)
  {
  }

  /** The envelope the API sends, followed by any other members. */
  function Envelope(homeworks: seq<Json>, currentDate: int, extra: seq<(string, Json)>): Json {
    JObject([("homeworks", JArray(homeworks)), ("current_date", JInt(currentDate))] + extra)
  }

  /** Validation hands back the list the envelope was built from, unchanged and in order. */
  lemma {:induction false} EnvelopeRoundTrip(homeworks: seq<Json>, currentDate: int, extra: seq<(string, Json)>)
    requires forall i :: 0 <= i < |extra| ==> extra[i].0 != "homeworks" && extra[i].0 != "current_date"
    ensures CheckResponse(Envelope(homeworks, currentDate, extra)) == Ok(homeworks)
  {
    var head := [("homeworks", JArray(homeworks)), ("current_date", JInt(currentDate))];
    LookupPastAbsent(head, extra, "homeworks");
    LookupPastAbsent(head, extra, "current_date");
  }

  // ---------------------------------------------------------------------------
  // parse_status
  // ---------------------------------------------------------------------------

  /**
   * parse_status: a record that is not a dict fails on `.get` (AttributeError);
   * a falsy name or status is a KeyError; an unhashable status fails the
   * membership test with a TypeError; a status outside the verdict table is
   * UnknownStatus; otherwise the message names the homework and its verdict.
   */
  function ParseStatus(homework: Json, verdicts: Verdicts): (r: Result<string, Error>)
    ensures !homework.JObject? ==>
      r == Err(Failure("'" + TypeName(homework) + "' object has no attribute 'get'"))
    ensures homework.JObject? &&
            !(Truthy(Get(homework.members, "homework_name")) && Truthy(Get(homework.members, "status"))) ==>
      r == Err(KeyError)
    ensures homework.JObject? &&
            Truthy(Get(homework.members, "homework_name")) && Truthy(Get(homework.members, "status")) &&
            !Hashable(Get(homework.members, "status")) ==>
      r == Err(TypeError)
    ensures homework.JObject? &&
            Truthy(Get(homework.members, "homework_name")) && Truthy(Get(homework.members, "status")) &&
            Hashable(Get(homework.members, "status")) &&
            !(Get(homework.members, "status").JString? && Get(homework.members, "status").s in verdicts) ==>
      r == Err(UnknownStatus)
    ensures r.Ok? <==>
      homework.JObject? &&
      Truthy(Get(homework.members, "homework_name")) &&
      Get(homework.members, "status").JString? &&
      Get(homework.members, "status").s != "" &&
      Get(homework.members, "status").s in verdicts
    ensures r.Ok? ==>
      r.value == StatusMessage(Str(Get(homework.members, "homework_name")),
                               verdicts[Get(homework.members, "status").s])
  {
    if !homework.JObject? then
      Err(Failure("'" + TypeName(homework) + "' object has no attribute 'get'"))
    else
      var name := Get(homework.members, "homework_name");
      var status := Get(homework.members, "status");
      if !(Truthy(name) && Truthy(status)) then Err(KeyError)
      else if !Hashable(status) then Err(TypeError)
      else if !(status.JString? && status.s in verdicts) then Err(UnknownStatus)
      else Ok(StatusMessage(Str(name), verdicts[status.s]))
  }

  /** The missing-field check comes first: it wins even when the status is unknown. */
  lemma MissingFieldFirst(members: seq<(string, Json)>, verdicts: Verdicts)
    requires !Truthy(Get(members, "homework_name")) || !Truthy(Get(members, "status"))
    ensures ParseStatus(JObject(members), verdicts) == Err(KeyError)
  {
  }

  /** A record as the API sends it: name and status first, then any other members. */
  function Record(name: string, status: string, extra: seq<(string, Json)>): Json {
    JObject([("homework_name", JString(name)), ("status", JString(status))] + extra)
  }

  /** What parse_status makes of every record built from a name and a status. */
  lemma {:induction false} ParseRecord(name: string, status: string, extra: seq<(string, Json)>, verdicts: Verdicts)
    requires forall i :: 0 <= i < |extra| ==> extra[i].0 != "homework_name" && extra[i].0 != "status"
    ensures name == "" || status == "" ==>
      ParseStatus(Record(name, status, extra), verdicts) == Err(KeyError)
    ensures name != "" && status != "" && status !in verdicts ==>
      ParseStatus(Record(name, status, extra), verdicts) == Err(UnknownStatus)
    ensures name != "" && status != "" && status in verdicts ==>
      ParseStatus(Record(name, status, extra), verdicts) == Ok(StatusMessage(name, verdicts[status]))
  {
    var head := [("homework_name", JString(name)), ("status", JString(status))];
    LookupPastAbsent(head, extra, "homework_name");
    LookupPastAbsent(head, extra, "status");
  }

  /** For one homework, different verdicts give different messages. */
  lemma VerdictsDistinguish(name: string, v1: string, v2: string)
    requires v1 != v2
    ensures StatusMessage(name, v1) != StatusMessage(name, v2)
  {
    var head := StatusPrefix + name + VerdictSeparator;
    assert StatusMessage(name, v1)[|head|..] == v1;
    assert StatusMessage(name, v2)[|head|..] == v2;
  }

  /**
   * The message determines both the name and the verdict, as long as the
   * name has no double quote (the first one after the prefix ends the name).
   */
  lemma MessageInjective(n1: string, v1: string, n2: string, v2: string)
    requires '"' !in n1 && '"' !in n2
    requires StatusMessage(n1, v1) == StatusMessage(n2, v2)
    ensures n1 == n2 && v1 == v2
  {
    var m := StatusMessage(n1, v1);
    var p := |StatusPrefix|;
    assert forall k :: 0 <= k < |n1| ==> m[p + k] == n1[k];
    assert forall k :: 0 <= k < |n2| ==> m[p + k] == n2[k];
    assert m[p + |n1|] == '"';
    assert m[p + |n2|] == '"';
    if |n1| < |n2| {
      assert false;
    } else if |n2| < |n1| {
      assert false;
    }
    assert n1 == m[p..p + |n1|] == n2;
    var head := StatusPrefix + n1 + VerdictSeparator;
    assert m[|head|..] == v1;
    assert StatusMessage(n2, v2)[|head|..] == v2;
  }

  /**
   * The message determines both the name and the verdict for any names, as
   * long as the verdict texts have no double quote: the last `"` of the
   * message then opens the separator before the verdict.
   */
  lemma MessageInjectiveForVerdicts(n1: string, v1: string, n2: string, v2: string)
    requires '"' !in v1 && '"' !in v2
    requires StatusMessage(n1, v1) == StatusMessage(n2, v2)
    ensures n1 == n2 && v1 == v2
  {
    var m := StatusMessage(n1, v1);
    var e1 := |m| - |v1|;
    var e2 := |m| - |v2|;
    assert forall k :: 0 <= k < |v1| ==> m[e1 + k] == v1[k];
    assert forall k :: 0 <= k < |v2| ==> m[e2 + k] == v2[k];
    assert m[e1 - 3] == '"' && m[e1 - 2] == '.' && m[e1 - 1] == ' ';
    assert m[e2 - 3] == '"' && m[e2 - 2] == '.' && m[e2 - 1] == ' ';
    if |v1| < |v2| {
      assert false;
    } else if |v2| < |v1| {
      assert false;
    }
    assert v1 == m[e1..] == v2;
    assert m[..e1 - 3] == StatusPrefix + n1;
    assert StatusMessage(n2, v2)[..e1 - 3] == StatusPrefix + n2;
    assert n1 == (StatusPrefix + n1)[|StatusPrefix|..];
    assert n2 == (StatusPrefix + n2)[|StatusPrefix|..];
  }

  /**
   * Without the no-double-quote condition the message is not injective: a
   * name that itself contains `". ` can shift text into the verdict.
   */
  lemma QuotedNameAmbiguous()
    ensures StatusMessage("a\". b", "c") == StatusMessage("a", "b\". c")
  {
    assert StatusMessage("a\". b", "c") == StatusPrefix + "a\". b\". c";
    assert StatusMessage("a", "b\". c") == StatusPrefix + "a\". b\". c";
  }

  // ---------------------------------------------------------------------------
  // check_tokens
  // ---------------------------------------------------------------------------

  /** PRACTICUM_TOKEN, TELEGRAM_TOKEN and TELEGRAM_CHAT_ID as read from the environment. */
  datatype Tokens = Tokens(practicum: Option<string>, telegram: Option<string>, chatId: Option<string>)

  /** Truthiness of a setting: set and non-empty. */
  predicate Present(setting: Option<string>) {
    setting.Some? && setting.value != ""
  }

  /** Python's `all(values)` over settings: stops at the first falsy one. */
  function All(values: seq<Option<string>>): (r: bool)
    ensures r <==> forall i :: 0 <= i < |values| ==> Present(values[i])
    decreases |values|
  {
    values == [] || (Present(values[0]) && All(values[1..]))
  }

  /** check_tokens: true iff every one of the three settings is set and non-empty. */
  function CheckTokens(tokens: Tokens): (ok: bool)
    ensures ok <==> Present(tokens.practicum) && Present(tokens.telegram) && Present(tokens.chatId)
  {
    var settings := [tokens.practicum, tokens.telegram, tokens.chatId];
    assert settings[0] == tokens.practicum && settings[1] == tokens.telegram && settings[2] == tokens.chatId;
    All(settings)
  }
}
