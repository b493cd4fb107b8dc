/** `_chatgpt_wrapper`: up to three chat-completion requests, adjusting the token
    estimate or the temperature after each failure, and re-raising the last
    failure once the attempts run out. The completion service is a parameter
    `api` that answers each request; temperatures are in tenths. */
module ChatGpt {
  import opened Wrappers

  const RequestRetries := 3
  /** The model's context size, out of which the prompt's estimate is reserved. */
  const ContextTokens := 4097
  const InitialTemperature := 2
  const TemperatureStep := 2

  /** What the completion service answers to one request. */
  datatype Outcome =
    | Reply(text: string)
    | InvalidRequest             // openai.error.InvalidRequestError
    | OtherFailure(kind: string) // any other exception: timeout, rate limit, ...

  /** The exception one attempt ends with. */
  datatype Failure =
    | InvalidRequestError
    | TooLong(text: string)      // the AssertionError on an over-long reply
    | OtherError(kind: string)

  /** The state an attempt is made in: temperature (tenths) and token estimate. */
  datatype Attempt = Attempt(temperature: int, estimate: int)

  /** One request as the service sees it. */
  datatype Call = Call(attempt: nat, message: string, temperature: int, maxTokens: int)

  function InitialAttempt(message: string): Attempt {
    Attempt(InitialTemperature, |message| / 4 + 256)
  }

  function CallOf(i: nat, message: string, a: Attempt): Call {
    Call(i, message, a.temperature, ContextTokens - a.estimate)
  }

  /** An answer is accepted when it is a reply no longer than `maxLength`. */
  function Check(o: Outcome, maxLength: int): Result<string, Failure> {
    match o
    case Reply(text) => if |text| <= maxLength then Ok(text) else Err(TooLong(text))
    case InvalidRequest => Err(InvalidRequestError)
    case OtherFailure(kind) => Err(OtherError(kind))
  }

  /** After an InvalidRequestError the estimate grows by a fifth (`int(r * 1.2)`),
      after any other failure the temperature rises by 0.2. */
  function Adjust(a: Attempt, f: Failure): (b: Attempt)
    ensures f.InvalidRequestError? ==> b.temperature == a.temperature && b.estimate == a.estimate * 6 / 5
    ensures !f.InvalidRequestError? ==> b.estimate == a.estimate && b.temperature == a.temperature + TemperatureStep
  {
    if f.InvalidRequestError? then a.(estimate := a.estimate * 6 / 5)
    else a.(temperature := a.temperature + TemperatureStep)
  }

  /** The verdict on attempt `i` made in state `a`. */
  function Verdict(i: nat, message: string, maxLength: int, api: Call -> Outcome, a: Attempt): Result<string, Failure> {
    Check(api(CallOf(i, message, a)), maxLength)
  }

  /** Attempts `i`, `i + 1`, ... starting in state `a`: the result and the
      states the attempts were made in. */
  function RetryFrom(i: nat, message: string, maxLength: int, api: Call -> Outcome, a: Attempt)
    : (run: (Result<string, Failure>, seq<Attempt>))
    requires i < RequestRetries
    ensures 1 <= |run.1| <= RequestRetries - i && run.1[0] == a
    decreases RequestRetries - i
  {
    match Verdict(i, message, maxLength, api, a)
    case Ok(text) => (Ok(text), [a])
    case Err(f) =>
      if i + 1 == RequestRetries then (Err(f), [a])
      else
        var rest := RetryFrom(i + 1, message, maxLength, api, Adjust(a, f));
        (rest.0, [a] + rest.1)
  }

  /** The reference run of `_chatgpt_wrapper(message, maxLength)`. */
  function Retry(message: string, maxLength: int, api: Call -> Outcome): (Result<string, Failure>, seq<Attempt>) {
    RetryFrom(0, message, maxLength, api, InitialAttempt(message))
  }

  /** The loop of `_chatgpt_wrapper`; `sent` lists the states of the attempts made. */
  method ChatGptWrapper(message: string, maxLength: int, api: Call -> Outcome)
    returns (result: Result<string, Failure>, sent: seq<Attempt>)
    ensures (result, sent) == Retry(message, maxLength, api)
  {
    var attempt := InitialAttempt(message);
    var lastError: Option<Failure> := None;
    sent := [];
    assert [] + Retry(message, maxLength, api).1 == Retry(message, maxLength, api).1;
    for t := 0 to RequestRetries
      invariant |sent| == t
      invariant t < RequestRetries ==>
        var rest := RetryFrom(t, message, maxLength, api, attempt);
        Retry(message, maxLength, api) == (rest.0, sent + rest.1)
      invariant t == RequestRetries ==>
        lastError.Some? && Retry(message, maxLength, api) == (Err(lastError.value), sent)
    {
      var verdict := Check(api(CallOf(t, message, attempt)), maxLength);
      ghost var before := sent;
      sent := sent + [attempt];
      if verdict.Ok? {
        return verdict, sent;
      }
      if t + 1 < RequestRetries {
        ghost var rest := RetryFrom(t + 1, message, maxLength, api, Adjust(attempt, verdict.error));
        assert before + ([attempt] + rest.1) == sent + rest.1;
      }
      attempt := Adjust(attempt, verdict.error);
      lastError := Some(verdict.error);
    }
    result := Err(lastError.value);
  }

  /** The run from attempt `i` as a trace: every attempt but the last failed and
      the next state is the adjusted one; the result is the last verdict, and a
      failure is returned only once all attempts are used. */
  ghost predicate IsTrace(i: nat, message: string, maxLength: int, api: Call -> Outcome,
                          result: Result<string, Failure>, sent: seq<Attempt>)
  {
    && 1 <= |sent| <= RequestRetries - i
    && (forall k :: 0 <= k < |sent| - 1 ==>
          Verdict(i + k, message, maxLength, api, sent[k]).Err?
          && sent[k + 1] == Adjust(sent[k], Verdict(i + k, message, maxLength, api, sent[k]).error))
    && result == Verdict(i + |sent| - 1, message, maxLength, api, sent[|sent| - 1])
    && (result.Err? ==> i + |sent| == RequestRetries)
  }

  lemma {:induction false} RetryFromIsTrace(i: nat, message: string, maxLength: int, api: Call -> Outcome, a: Attempt)
    requires i < RequestRetries
    ensures var run := RetryFrom(i, message, maxLength, api, a);
            IsTrace(i, message, maxLength, api, run.0, run.1)
    decreases RequestRetries - i
  {
    var v := Verdict(i, message, maxLength, api, a);
    if v.Err? && i + 1 < RequestRetries {
      var rest := RetryFrom(i + 1, message, maxLength, api, Adjust(a, v.error));
      RetryFromIsTrace(i + 1, message, maxLength, api, Adjust(a, v.error));
      var sent := [a] + rest.1;
      forall k | 0 <= k < |sent| - 1
        ensures Verdict(i + k, message, maxLength, api, sent[k]).Err?
        ensures sent[k + 1] == Adjust(sent[k], Verdict(i + k, message, maxLength, api, sent[k]).error)
      {
        if k > 0 {
          assert sent[k] == rest.1[k - 1] && sent[k + 1] == rest.1[k];
          assert i + k == (i + 1) + (k - 1);
        }
      }
      assert sent[|sent| - 1] == rest.1[|rest.1| - 1];
    }
  }

  /** `_chatgpt_wrapper` makes one to three attempts, the first with
      temperature 0.2 and estimate `len(message) // 4 + 256`; every attempt
      before the last failed and led to the adjusted state; the result is the
      verdict on the last attempt, so a reply is returned only if it is the
      first acceptable one, and the last failure is raised only after three
      attempts. */
  lemma RetryTrace(message: string, maxLength: int, api: Call -> Outcome)
    ensures var run := Retry(message, maxLength, api);
            && run.1[0] == InitialAttempt(message)
            && IsTrace(0, message, maxLength, api, run.0, run.1)
  {
    RetryFromIsTrace(0, message, maxLength, api, InitialAttempt(message));
  }

  /** A service that rejects the first two requests as too large and then
      replies briefly enough: three attempts, the estimate grown twice by a
      fifth, the temperature unchanged, and the reply returned. */
  lemma TwoInvalidRequestsThenReply(message: string, maxLength: int, api: Call -> Outcome, text: string)
    requires forall c: Call :: c.attempt < 2 ==> api(c) == InvalidRequest
    requires forall c: Call :: c.attempt == 2 ==> api(c) == Reply(text)
    requires |text| <= maxLength
    ensures var e := |message| / 4 + 256;
            Retry(message, maxLength, api)
              == (Ok(text), [Attempt(2, e), Attempt(2, e * 6 / 5), Attempt(2, e * 6 / 5 * 6 / 5)])
  {
    var e := |message| / 4 + 256;
    assert api(CallOf(0, message, Attempt(2, e))) == InvalidRequest;
    assert api(CallOf(1, message, Attempt(2, e * 6 / 5))) == InvalidRequest;
    assert api(CallOf(2, message, Attempt(2, e * 6 / 5 * 6 / 5))) == Reply(text);
    var a0, a1, a2 := Attempt(2, e), Attempt(2, e * 6 / 5), Attempt(2, e * 6 / 5 * 6 / 5);
    assert RetryFrom(2, message, maxLength, api, a2) == (Ok(text), [a2]);
    assert Verdict(1, message, maxLength, api, a1) == Err(InvalidRequestError);
    assert Adjust(a1, InvalidRequestError) == a2;
    assert [a1] + [a2] == [a1, a2];
    assert RetryFrom(1, message, maxLength, api, a1) == (Ok(text), [a1, a2]);
    assert Verdict(0, message, maxLength, api, a0) == Err(InvalidRequestError);
    assert Adjust(a0, InvalidRequestError) == a1;
    assert [a0] + [a1, a2] == [a0, a1, a2];
    assert RetryFrom(0, message, maxLength, api, a0) == (Ok(text), [a0, a1, a2]);
  }

  /** A service that first rejects the request as too large, then fails some
      other way, then replies briefly enough: the estimate grows once, after the
      first attempt, and the temperature rises once, after the second. */
  lemma MixedFailuresThenReply(message: string, maxLength: int, api: Call -> Outcome, kind: string, text: string)
    requires forall c: Call :: c.attempt == 0 ==> api(c) == InvalidRequest
    requires forall c: Call :: c.attempt == 1 ==> api(c) == OtherFailure(kind)
    requires forall c: Call :: c.attempt == 2 ==> api(c) == Reply(text)
    requires |text| <= maxLength
    ensures var e := |message| / 4 + 256;
            Retry(message, maxLength, api)
              == (Ok(text), [Attempt(2, e), Attempt(2, e * 6 / 5), Attempt(4, e * 6 / 5)])
  {
    var e := |message| / 4 + 256;
    var a0, a1, a2 := Attempt(2, e), Attempt(2, e * 6 / 5), Attempt(4, e * 6 / 5);
    assert api(CallOf(0, message, a0)) == InvalidRequest;
    assert api(CallOf(1, message, a1)) == OtherFailure(kind);
    assert api(CallOf(2, message, a2)) == Reply(text);
    assert RetryFrom(2, message, maxLength, api, a2) == (Ok(text), [a2]);
    assert Verdict(1, message, maxLength, api, a1) == Err(OtherError(kind));
    assert Adjust(a1, OtherError(kind)) == a2;
    assert [a1] + [a2] == [a1, a2];
    assert RetryFrom(1, message, maxLength, api, a1) == (Ok(text), [a1, a2]);
    assert Verdict(0, message, maxLength, api, a0) == Err(InvalidRequestError);
    assert Adjust(a0, InvalidRequestError) == a1;
    assert [a0] + [a1, a2] == [a0, a1, a2];
    assert RetryFrom(0, message, maxLength, api, a0) == (Ok(text), [a0, a1, a2]);
  }

  /** A service that always fails with something other than an oversized
      request: three attempts at temperatures 0.2, 0.4 and 0.6, same estimate,
      and the third failure raised. */
  lemma AlwaysFailing(message: string, maxLength: int, api: Call -> Outcome, kind: string)
    requires forall c: Call :: api(c) == OtherFailure(kind)
    ensures var e := |message| / 4 + 256;
            Retry(message, maxLength, api)
              == (Err(OtherError(kind)), [Attempt(2, e), Attempt(4, e), Attempt(6, e)])
  {
    var e := |message| / 4 + 256;
    assert api(CallOf(0, message, Attempt(2, e))) == OtherFailure(kind);
    assert api(CallOf(1, message, Attempt(4, e))) == OtherFailure(kind);
    assert api(CallOf(2, message, Attempt(6, e))) == OtherFailure(kind);
    var a0, a1, a2 := Attempt(2, e), Attempt(4, e), Attempt(6, e);
    assert RetryFrom(2, message, maxLength, api, a2) == (Err(OtherError(kind)), [a2]);
    assert Verdict(1, message, maxLength, api, a1) == Err(OtherError(kind));
    assert Adjust(a1, OtherError(kind)) == a2;
    assert [a1] + [a2] == [a1, a2];
    assert RetryFrom(1, message, maxLength, api, a1) == (Err(OtherError(kind)), [a1, a2]);
    assert Verdict(0, message, maxLength, api, a0) == Err(OtherError(kind));
    assert Adjust(a0, OtherError(kind)) == a1;
    assert [a0] + [a1, a2] == [a0, a1, a2];
    assert RetryFrom(0, message, maxLength, api, a0) == (Err(OtherError(kind)), [a0, a1, a2]);
  }
}
