/** `ArticleTranslator.translate`: the request/retry loop against the Azure
    Translator service. The service is abstracted as the sequence of responses
    it gives to successive requests; `time.sleep` becomes the list of delays,
    in seconds, that the loop would sleep. */
module Translator {
  import opened Wrappers

  const INITIAL_BACKOFF: nat := 1
  const MAX_BACKOFF: nat := 60
  const TOO_MANY_REQUESTS: int := 429

  /** One response of the service. `HttpError` is a status for which
      `raise_for_status` raises; `retryAfter` is the `Retry-After` header in
      delay-seconds (section 10.2.3 of RFC 9110), `None` when it is absent or
      empty; `detail` is the text of the raised `HTTPError`. `Raised` is any
      other exception of the request or of reading its body (a connection
      error, a time-out, a body that is not JSON or lacks
      `[0]['translations'][0]['text']`); the loop catches only `HTTPError`,
      so it escapes unwrapped, with `message` as its text. */
  datatype Response =
    | Success(translatedText: string)
    | HttpError(status: int, retryAfter: Option<nat>, detail: string)
    | Raised(message: string)

  /** `ArticleTranslatorError`, by cause. */
  datatype TranslatorError = EmptyTranslation | RequestFailed(detail: string)

  function ErrorMessage(e: TranslatorError): string {
    match e
    case EmptyTranslation => "Translation failed:"
    case RequestFailed(detail) => "Translation failed: " + detail
  }

  /** How a call ends: with the text, with an `ArticleTranslatorError`, with an
      exception that is not one, or still retrying when the modelled responses
      run out (the source has no attempt cap). */
  datatype Outcome =
    | Translated(text: string)
    | Failed(error: TranslatorError)
    | Escaped(message: string)
    | StillRetrying

  /** The outcome, the sleeps taken and the number of requests made. */
  datatype Run = Run(outcome: Outcome, sleeps: seq<nat>, requests: nat)

  /** The delay after a 429: the server's hint when it gives one, otherwise
      the previous delay doubled, capped at `MAX_BACKOFF`. */
  function NextBackoff(backoff: nat, retryAfter: Option<nat>): (b: nat)
    ensures retryAfter.Some? ==> b == retryAfter.value
    ensures retryAfter.None? ==> b <= MAX_BACKOFF && b <= 2 * backoff && (b == 2 * backoff || b == MAX_BACKOFF)
    ensures retryAfter.None? && backoff <= MAX_BACKOFF ==> backoff <= b
  {
    if retryAfter.Some? then retryAfter.value else Min(2 * backoff, MAX_BACKOFF)
  }

  /** The reference semantics of the loop, from the current `backoff`. */
  function TranslateRun(responses: seq<Response>, backoff: nat): Run
    decreases |responses|
  {
    if responses == [] then Run(StillRetrying, [], 0)
    else
      match responses[0]
      case Success(text) =>
        Run(if text == "" then Failed(EmptyTranslation) else Translated(text), [], 1)
      case HttpError(status, retryAfter, detail) =>
        if status == TOO_MANY_REQUESTS then
          var b := NextBackoff(backoff, retryAfter);
          var rest := TranslateRun(responses[1..], b);
          Run(rest.outcome, [b] + rest.sleeps, 1 + rest.requests)
        else
          Run(Failed(RequestFailed(detail)), [], 1)
      case Raised(message) =>
        Run(Escaped(message), [], 1)
  }

  /** The `while True` loop of `translate`. */
  method Translate(responses: seq<Response>) returns (outcome: Outcome, sleeps: seq<nat>, requests: nat)
    ensures Run(outcome, sleeps, requests) == TranslateRun(responses, INITIAL_BACKOFF)
  {
    var backoff := INITIAL_BACKOFF;
    sleeps := [];
    requests := 0;
    while requests < |responses|
      invariant requests <= |responses|
      invariant TranslateRun(responses, INITIAL_BACKOFF)
             == var rest := TranslateRun(responses[requests..], backoff);
                Run(rest.outcome, sleeps + rest.sleeps, requests + rest.requests)
    {
      var response := responses[requests];
      assert responses[requests..][1..] == responses[requests + 1..];
      requests := requests + 1;
      match response
      case Success(text) =>
        if text == "" {
          return Failed(EmptyTranslation), sleeps, requests;
        }
        return Translated(text), sleeps, requests;
      case HttpError(status, retryAfter, detail) =>
        if status != TOO_MANY_REQUESTS {
          return Failed(RequestFailed(detail)), sleeps, requests;
        }
        backoff := NextBackoff(backoff, retryAfter);
        sleeps := sleeps + [backoff];
      case Raised(message) =>
        return Escaped(message), sleeps, requests;
    }
    outcome := StillRetrying;
  }

  // ---------------------------------------------------------------------------
  // Properties of the loop
  // ---------------------------------------------------------------------------

  /** A call that ends made one request more than it slept; one still retrying
      has used every response and slept after each. */
  lemma {:induction false} RequestsAndSleeps(responses: seq<Response>, backoff: nat)
    ensures var r := TranslateRun(responses, backoff);
      && r.requests <= |responses|
      && (r.outcome.StillRetrying? ==> r.requests == |responses| == |r.sleeps|)
      && (!r.outcome.StillRetrying? ==> r.requests == |r.sleeps| + 1)
  {
    if responses != [] && responses[0].HttpError? && responses[0].status == TOO_MANY_REQUESTS {
      RequestsAndSleeps(responses[1..], NextBackoff(backoff, responses[0].retryAfter));
    }
  }

  /** The first response decides the call unless it is a 429; an exception
      other than `HTTPError` is neither retried nor wrapped. */
  lemma FirstResponse(responses: seq<Response>, backoff: nat)
    requires responses != []
    ensures var r := TranslateRun(responses, backoff);
      && (responses[0].Success? && responses[0].translatedText != "" ==>
            r == Run(Translated(responses[0].translatedText), [], 1))
      && (responses[0] == Success("") ==> r == Run(Failed(EmptyTranslation), [], 1))
      && (responses[0].HttpError? && responses[0].status != TOO_MANY_REQUESTS ==>
            r == Run(Failed(RequestFailed(responses[0].detail)), [], 1))
      && (responses[0].Raised? ==> r == Run(Escaped(responses[0].message), [], 1))
      && (responses[0].HttpError? && responses[0].status == TOO_MANY_REQUESTS ==>
            r.sleeps != [] && r.sleeps[0] == NextBackoff(backoff, responses[0].retryAfter))
  {
  }

  /** A call escapes with an exception that is not an `ArticleTranslatorError`
      exactly when its last request raised one, and then with that request's
      message: only `HTTPError` is caught, and earlier 429s do not change it. */
  lemma {:induction false} EscapesOnlyFromRaised(responses: seq<Response>, backoff: nat)
    ensures var r := TranslateRun(responses, backoff);
      && r.requests <= |responses|
      && (r.outcome.Escaped? <==> 1 <= r.requests && responses[r.requests - 1].Raised?)
      && (r.outcome.Escaped? ==> r.outcome.message == responses[r.requests - 1].message)
    decreases |responses|
  {
    if responses != [] && responses[0].HttpError? && responses[0].status == TOO_MANY_REQUESTS {
      var b := NextBackoff(backoff, responses[0].retryAfter);
      EscapesOnlyFromRaised(responses[1..], b);
      var rest := TranslateRun(responses[1..], b);
      if 1 <= rest.requests {
        assert responses[1 + rest.requests - 1] == responses[1..][rest.requests - 1];
      }
    }
  }

  /** A 429 without `Retry-After`, whatever the text of its error. */
  predicate IsUnhinted429(r: Response) {
    r.HttpError? && r.status == TOO_MANY_REQUESTS && r.retryAfter.None?
  }

  /** `n` doublings of `backoff`, each capped at `MAX_BACKOFF`. */
  function Doubled(backoff: nat, n: nat): nat {
    if n == 0 then backoff else NextBackoff(Doubled(backoff, n - 1), None)
  }

  function Pow2(n: nat): nat {
    if n == 0 then 1 else 2 * Pow2(n - 1)
  }

  /** From the initial backoff of 1, the n-th doubling is 2^n capped at 60:
      2, 4, 8, 16, 32, 60, 60, ... */
  lemma {:induction false} DoubledFromInitial(n: nat)
    ensures Doubled(INITIAL_BACKOFF, n) == Min(Pow2(n), MAX_BACKOFF)
  {
    if n > 0 {
      DoubledFromInitial(n - 1);
    }
  }

  /** No attempt cap: any number of 429s without `Retry-After` followed by a
      translation yields that translation, after one doubled sleep per 429. */
  lemma {:induction false} RetriesUntilSuccess(limited: seq<Response>, backoff: nat, text: string)
    requires forall i :: 0 <= i < |limited| ==> IsUnhinted429(limited[i])
    requires text != ""
    ensures var r := TranslateRun(limited + [Success(text)], backoff);
      && r.outcome == Translated(text)
      && r.requests == |limited| + 1
      && |r.sleeps| == |limited|
      && forall i :: 0 <= i < |limited| ==> r.sleeps[i] == Doubled(backoff, i + 1)
    decreases |limited|
  {
    var rs := limited + [Success(text)];
    if limited != [] {
      assert rs[0] == limited[0];
      assert rs[1..] == limited[1..] + [Success(text)];
      var b := NextBackoff(backoff, None);
      RetriesUntilSuccess(limited[1..], b, text);
      DoubledShift(backoff, |limited|);
    } else {
      assert rs == [Success(text)];
    }
  }

  lemma {:induction false} DoubledShift(backoff: nat, n: nat)
    ensures forall i :: 0 <= i < n ==> Doubled(NextBackoff(backoff, None), i) == Doubled(backoff, i + 1)
  {
    forall i | 0 <= i < n
      ensures Doubled(NextBackoff(backoff, None), i) == Doubled(backoff, i + 1)
    {
      DoubledShiftAt(backoff, i);
    }
  }

  lemma {:induction false} DoubledShiftAt(backoff: nat, i: nat)
    ensures Doubled(NextBackoff(backoff, None), i) == Doubled(backoff, i + 1)
  {
    if i > 0 {
      DoubledShiftAt(backoff, i - 1);
    }
  }

  /** Over a run of 429s without `Retry-After`, whatever the previous delay was,
      the sleeps never exceed 60 seconds and never decrease. */
  lemma {:induction false} BackoffBoundedAndMonotone(responses: seq<Response>, backoff: nat)
    requires forall i :: 0 <= i < |responses| ==> IsUnhinted429(responses[i])
    ensures var r := TranslateRun(responses, backoff);
      && r.outcome == StillRetrying
      && |r.sleeps| == |responses|
      && (forall i :: 0 <= i < |r.sleeps| ==> r.sleeps[i] <= MAX_BACKOFF)
      && (forall i, j :: 0 <= i <= j < |r.sleeps| ==> r.sleeps[i] <= r.sleeps[j])
  {
    if responses != [] {
      var b := NextBackoff(backoff, None);
      BackoffBoundedAndMonotone(responses[1..], b);
      var rest := TranslateRun(responses[1..], b);
      if rest.sleeps != [] {
        assert rest.sleeps[0] == NextBackoff(b, None);
      }
      assert TranslateRun(responses, backoff).sleeps == [b] + rest.sleeps;
    }
  }

  /** The first sleep after a 429 without `Retry-After` is 2 seconds, and one
      after a 429 with `Retry-After: v` is exactly v seconds. */
  lemma FirstSleeps(v: nat, detail: string, later: seq<Response>)
    ensures TranslateRun([HttpError(TOO_MANY_REQUESTS, None, detail)] + later, INITIAL_BACKOFF).sleeps[0] == 2
    ensures TranslateRun([HttpError(TOO_MANY_REQUESTS, Some(v), detail)] + later, INITIAL_BACKOFF).sleeps[0] == v
  {
  }

  /** A `Retry-After: 0` hint leaves the backoff at 0, so every later 429
      without a hint sleeps 0 seconds. */
  lemma {:induction false} ZeroHintStaysZero(responses: seq<Response>)
    requires forall i :: 0 <= i < |responses| ==> IsUnhinted429(responses[i])
    ensures var r := TranslateRun(responses, 0);
      |r.sleeps| == |responses| && forall i :: 0 <= i < |responses| ==> r.sleeps[i] == 0
  {
    BackoffBoundedAndMonotone(responses, 0);
    if responses != [] {
      ZeroHintStaysZero(responses[1..]);
      assert TranslateRun(responses, 0).sleeps == [0] + TranslateRun(responses[1..], 0).sleeps;
    }
  }
}
