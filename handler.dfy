/** `_generate_toot_from_chatgpt` and the per-alert loop of `lambda_handler`.
    The outside world is passed in: `lookup` answers the alerts endpoint,
    `dumps` is `json.dumps`, `api` is the completion service, and the toots
    posted to Mastodon are returned in order. */
module Handler {
  import opened Wrappers
  import opened Template
  import opened Cleanup
  import ChatGpt

  const FallbackNotice := "Content failed to generate. Please consult link below"
  const RequestNumberKey := "request_number"
  const RequestNumberHint := " . Encourage the use of the request_number value when contacting the City"
  const OkStatus := 200

  /** What the alerts endpoint gives for an address: None when the HEAD request
      is not answered 200, otherwise the fetched document's `toot_text`
      (None when that key is absent or null). */
  type Lookup = Option<Option<string>>

  /** Lines 103-106: the request-number sentence follows the prompt exactly when
      the cleaned alert has a `request_number` entry. */
  function WithRequestNumberHint(prompt: string, alert: Record): (r: string)
    ensures |r| >= |prompt| && r[..|prompt|] == prompt
    ensures RequestNumberKey in alert <==> |r| > |prompt|
    ensures RequestNumberKey in alert ==> r[|prompt|..] == RequestNumberHint
  {
    prompt + if RequestNumberKey in alert then RequestNumberHint else ""
  }

  /** The body of a toot: the message when there is a non-empty one, otherwise
      the fallback notice. */
  function Body(message: Option<string>): string {
    if message.Some? && message.value != "" then message.value else FallbackNotice
  }

  /** The `try` block of `_generate_toot_from_chatgpt` on the cleaned alert:
      the reply, or None when building the prompt or asking for a toot fails;
      also the attempts made. */
  function Prompted(cleaned: Record, dumps: Record -> string, api: ChatGpt.Call -> ChatGpt.Outcome, maxLength: int)
    : (Option<string>, seq<ChatGpt.Attempt>)
  {
    match Format(ChatGptTemplate, map["json_str" := dumps(cleaned)])
    case Err(_) => (None, [])
    case Ok(prompt) =>
      var run := ChatGpt.Retry(WithRequestNumberHint(prompt, cleaned), maxLength, api);
      (if run.0.Ok? then Some(run.0.value) else None, run.1)
  }

  /** The reference behaviour of `_generate_toot_from_chatgpt` on an alert:
      the cleanup's exception escapes, otherwise the outcome of the `try` block. */
  function Generation(m: Record, dumps: Record -> string, api: ChatGpt.Call -> ChatGpt.Outcome, maxLength: int)
    : (Result<Option<string>, CleanupError>, seq<ChatGpt.Attempt>)
  {
    var cleaned := CleanupSteps(m);
    if cleaned.1.Some? then (Err(cleaned.1.value), [])
    else
      var asked := Prompted(cleaned.0, dumps, api, maxLength);
      (Ok(asked.0), asked.1)
  }

  /** `_generate_toot_from_chatgpt(alert, ...)`: cleans the caller's alert in
      place, then tries to build the prompt and ask for a toot. */
  method GenerateToot(alert: Alert, dumps: Record -> string, api: ChatGpt.Call -> ChatGpt.Outcome, maxLength: int)
    returns (message: Result<Option<string>, CleanupError>, sent: seq<ChatGpt.Attempt>)
    modifies alert
    ensures (message, sent) == Generation(old(alert.fields), dumps, api, maxLength)
    ensures alert.fields == CleanupSteps(old(alert.fields)).0
  {
    var err := alert.Sanitize();
    if err.Some? {
      return Err(err.value), [];
    }
    var prompt := Format(ChatGptTemplate, map["json_str" := dumps(alert.fields)]);
    if prompt.Err? {
      return Ok(None), [];
    }
    var reply;
    reply, sent := ChatGpt.ChatGptWrapper(WithRequestNumberHint(prompt.value, alert.fields), maxLength, api);
    message := if reply.Ok? then Ok(Some(reply.value)) else Ok(None);
  }

  /** Because the prompt template's `toot_length` is never bound, the `try`
      block fails before reaching the completion service, whatever the alert. */
  lemma PromptNeverCallsApi(cleaned: Record, dumps: Record -> string, api: ChatGpt.Call -> ChatGpt.Outcome, maxLength: int)
    ensures Prompted(cleaned, dumps, api, maxLength) == (None, [])
  {
    ChatGptTemplateNeedsTootLength(dumps(cleaned), "");
  }

  /** So generation never reaches the completion service: it raises the
      cleanup's exception, or gives no message. */
  lemma GenerationNeverCallsApi(m: Record, dumps: Record -> string, api: ChatGpt.Call -> ChatGpt.Outcome, maxLength: int)
    ensures Generation(m, dumps, api, maxLength).1 == []
    ensures Generation(m, dumps, api, maxLength).0
         == if CleanupSteps(m).1.Some? then Err(CleanupSteps(m).1.value) else Ok(None)
  {
    PromptNeverCallsApi(CleanupSteps(m).0, dumps, api, maxLength);
  }

  /** The toot posted for one alert, or the exception that aborts the batch. */
  function AlertToot(m: Record, lookup: string -> Lookup, dumps: Record -> string,
                     api: ChatGpt.Call -> ChatGpt.Outcome, maxLength: int): Result<string, CleanupError>
  {
    if "Id" !in m then Err(KeyError("Id"))
    else
      var url := AlertUrl(AsText(m["Id"]));
      var found := lookup(url);
      var message := if found.Some? then found.value else None;
      if message.Some? then Ok(Toot(Body(message), url))
      else
        match Generation(m, dumps, api, maxLength).0
        case Err(e) => Err(e)
        case Ok(generated) => Ok(Toot(Body(generated), url))
  }

  /** What one alert gives: a toot that is a body, the attribution line and the
      alert's address, where the body is the looked-up `toot_text` when it is
      non-empty and the fallback notice otherwise, since generation never
      yields text. An empty `toot_text` skips generation, and so the cleanup;
      without any `toot_text` the cleanup's exception aborts. */
  lemma AlertTootCases(m: Record, lookup: string -> Lookup, dumps: Record -> string,
                       api: ChatGpt.Call -> ChatGpt.Outcome, maxLength: int)
    ensures "Id" !in m ==> AlertToot(m, lookup, dumps, api, maxLength) == Err(KeyError("Id"))
    ensures "Id" in m ==>
      var url := AlertsPrefix + AsText(m["Id"]) + ".json";
      var found := lookup(url);
      AlertToot(m, lookup, dumps, api, maxLength) ==
        if found.Some? && found.value.Some? && found.value.value != "" then
          Ok(found.value.value + Attribution + url)
        else if found.Some? && found.value == Some("") then
          Ok(FallbackNotice + Attribution + url)
        else if CleanupSteps(m).1.Some? then
          Err(CleanupSteps(m).1.value)
        else
          Ok(FallbackNotice + Attribution + url)
  {
    GenerationNeverCallsApi(m, dumps, api, maxLength);
  }

  /** One pass of the loop of `lambda_handler`, on an alert dictionary fresh
      from `json.loads`: the toot it posts, or the exception it raises. */
  method HandleAlert(m: Record, lookup: string -> Lookup, dumps: Record -> string,
                     api: ChatGpt.Call -> ChatGpt.Outcome, tootMaxLength: nat)
    returns (toot: Result<string, CleanupError>)
    ensures toot == AlertToot(m, lookup, dumps, api, tootMaxLength)
  {
    var serviceAlert := new Alert(m);
    if "Id" !in serviceAlert.fields {
      return Err(KeyError("Id"));
    }
    var path := AlertUrl(AsText(serviceAlert.fields["Id"]));
    var message: Option<string> := None;
    var found := lookup(path);
    if found.Some? {
      message := found.value;
    }
    if message.None? {
      var generated, _ := GenerateToot(serviceAlert, dumps, api, tootMaxLength);
      if generated.Err? {
        return Err(generated.error);
      }
      message := generated.value;
    }
    return Ok(Toot(Body(message), path));
  }

  /** The loop of `lambda_handler` over the alerts `json.loads` produced: one
      toot per alert, in order, then status 200; an exception stops the loop
      and escapes, leaving the toots already posted. */
  method LambdaHandler(alerts: seq<Record>, lookup: string -> Lookup, dumps: Record -> string,
                       api: ChatGpt.Call -> ChatGpt.Outcome, tootMaxLength: nat)
    returns (status: Result<int, CleanupError>, posted: seq<string>)
    ensures |posted| <= |alerts|
    ensures forall i :: 0 <= i < |posted| ==> AlertToot(alerts[i], lookup, dumps, api, tootMaxLength) == Ok(posted[i])
    ensures status.Ok? <==> |posted| == |alerts|
    ensures status.Ok? ==> status.value == OkStatus
    ensures status.Err? ==> AlertToot(alerts[|posted|], lookup, dumps, api, tootMaxLength) == Err(status.error)
  {
    posted := [];
    for i := 0 to |alerts|
      invariant |posted| == i
      invariant forall j :: 0 <= j < i ==> AlertToot(alerts[j], lookup, dumps, api, tootMaxLength) == Ok(posted[j])
    {
      var toot := HandleAlert(alerts[i], lookup, dumps, api, tootMaxLength);
      if toot.Err? {
        return Err(toot.error), posted;
      }
      posted := posted + [toot.value];
    }
    status := Ok(OkStatus);
  }
}
