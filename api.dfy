/** The browser-side request client: the retrying `safeFetch` and the error
    message that `createEnquiry` derives from a rejected submission.

    The network is an input: one abstract outcome per physical attempt, in
    the order the attempts would be made. Timers are not waited on; a wait
    is recorded as its length in milliseconds. */
module Api {
  import opened Wrappers

  /** Physical attempts per logical call. */
  const MaxRetries: nat := 3
  /** Wait after the first failed attempt, in milliseconds; it doubles after each further failure. */
  const InitialRetryDelay: nat := 1000

  /** The terminal error thrown when every attempt failed at the transport level. */
  const SleepingMessage: string :=
    "Server connection failed after 3 attempts. This usually happens if the server is sleeping — please wait 60 seconds and refresh the page."

  /** What a JavaScript engine throws when code reads `message` from `null`
      (the wording of V8; other engines word it differently). */
  const NullReadError: string := "Cannot read properties of null (reading 'message')"

  /** A response body as `response.json()` sees it: it does not parse, it is
      the JSON literal `null`, or it is a value whose string-valued fields are
      kept (a number, string or array has none). */
  datatype Body = Unparseable(parseError: string) | NullBody | Parsed(fields: map<string, string>)

  /** A transport-level response of any status. */
  datatype Response = Response(status: nat, body: Body)

  /** `response.ok`: a status in the 2xx range. */
  predicate IsOk(response: Response)
    ensures IsOk(response) <==> response.status / 100 == 2
  {
    200 <= response.status <= 299
  }

  /** How one physical attempt ends: a response arrives, the abort timer
      fires (`AbortError`), or the fetch fails with a network error. */
  datatype Attempt = Responded(response: Response) | TimedOut | NetworkError(message: string)

  /** What `safeFetch` resolves to: the response it returns, or the error it throws. */
  datatype Fetched = Returned(response: Response) | Failed(message: string)

  /** One whole call as the caller observes it: what it resolved to, how many
      physical attempts it made, and the waits it made between them, in order. */
  datatype Run = Run(result: Fetched, attempts: nat, delays: seq<nat>)

  function Pow2(n: nat): (p: nat)
    ensures p >= 1
  {
    if n == 0 then 1 else 2 * Pow2(n - 1)
  }

  /** The wait after failed attempt `attempt` (counted from 1): `1000 * 2^(attempt - 1)` ms. */
  function RetryDelay(attempt: nat): (d: nat)
    requires attempt >= 1
    ensures d >= InitialRetryDelay
    ensures attempt == 1 ==> d == InitialRetryDelay
    ensures d % InitialRetryDelay == 0
  {
    InitialRetryDelay * Pow2(attempt - 1)
  }

  /** The waits made after the first `failures` failed attempts, each of them
      followed by another attempt. */
  function Schedule(failures: nat): (s: seq<nat>)
    ensures |s| == failures
    ensures forall j :: 0 <= j < failures ==> s[j] == RetryDelay(j + 1)
  {
    if failures == 0 then [] else Schedule(failures - 1) + [RetryDelay(failures)]
  }

  /** Total of a list of waits. */
  function Sum(s: seq<nat>): nat {
    if s == [] then 0 else Sum(s[..|s| - 1]) + s[|s| - 1]
  }

  /** The position of the first attempt that received a response, if any. */
  function FirstResponse(outcomes: seq<Attempt>): (r: Option<nat>)
    ensures r.Some? ==> r.value < |outcomes| && outcomes[r.value].Responded?
    ensures r.Some? ==> forall j :: 0 <= j < r.value ==> !outcomes[j].Responded?
    ensures r.None? ==> forall j :: 0 <= j < |outcomes| ==> !outcomes[j].Responded?
  {
    if outcomes == [] then None
    else if outcomes[0].Responded? then Some(0)
    else match FirstResponse(outcomes[1..])
      case Some(i) => Some(i + 1)
      case None => None
  }

  /** The call `safeFetch` makes against `network`: the first response within
      the attempt budget ends it, and otherwise the budget is spent and the
      terminal error is thrown. */
  function Expected(network: seq<Attempt>): (run: Run)
    requires |network| >= MaxRetries
    ensures 1 <= run.attempts <= MaxRetries
    ensures run.delays == Schedule(run.attempts - 1)
    ensures forall j :: 0 <= j < run.attempts - 1 ==> !network[j].Responded?
    ensures run.result.Returned? ==>
              network[run.attempts - 1].Responded? && run.result.response == network[run.attempts - 1].response
    ensures run.result.Failed? ==>
              run.attempts == MaxRetries && !network[MaxRetries - 1].Responded? && run.result.message == SleepingMessage
  {
    match FirstResponse(network[..MaxRetries])
    case Some(i) => Run(Returned(network[i].response), i + 1, Schedule(i))
    case None => Run(Failed(SleepingMessage), MaxRetries, Schedule(MaxRetries - 1))
  }

  /** `safeFetch`: at most `MaxRetries` attempts, one at a time; the first
      response of any status is returned as it is; after each failed attempt
      but the last the client waits `RetryDelay(attempt)`. Returns, besides the
      result, the number of attempts, the waits in order and their total. */
  method SafeFetch(network: seq<Attempt>) returns (result: Fetched, attempts: nat, delays: seq<nat>, waited: nat)
    requires |network| >= MaxRetries
    ensures Run(result, attempts, delays) == Expected(network)
    ensures waited == Sum(delays)
  {
    attempts, delays, waited := 0, [], 0;
    var attempt: nat := 1;
    while attempt <= MaxRetries
      invariant 1 <= attempt <= MaxRetries + 1
      invariant attempts == attempt - 1
      invariant forall j :: 0 <= j < attempt - 1 ==> !network[j].Responded?
      invariant attempt <= MaxRetries ==> delays == Schedule(attempt - 1)
      invariant attempt > MaxRetries ==> delays == Schedule(MaxRetries - 1)
      invariant waited == InitialRetryDelay * (Pow2(|delays|) - 1)
    {
      var outcome := network[attempt - 1];
      attempts := attempt;
      if outcome.Responded? {
        result := Returned(outcome.response);
        ResponseEndsCall(network, attempt - 1);
        ScheduleTotal(attempt - 1);
        return;
      }
      // A timeout and a network error take the same path from here on.
      if attempt < MaxRetries {
        var delay := RetryDelay(attempt);
        delays := delays + [delay];
        waited := waited + delay;
      }
      attempt := attempt + 1;
    }
    ExhaustedCall(network);
    ScheduleTotal(MaxRetries - 1);
    result := Failed(SleepingMessage);
  }

  /** The waits form the geometric series `1000 * (2^0 + ... + 2^(n-1))`. */
  lemma {:induction false} ScheduleTotal(n: nat)
    ensures Sum(Schedule(n)) == InitialRetryDelay * (Pow2(n) - 1)
  {
    if n > 0 {
      var s := Schedule(n);
      assert s[..|s| - 1] == Schedule(n - 1);
      ScheduleTotal(n - 1);
    }
  }

  /** Each wait is twice the one before it. */
  lemma BackoffDoubles(n: nat, j: nat)
    requires 0 < j < n
    ensures Schedule(n)[j] == 2 * Schedule(n)[j - 1]
  {
    assert Pow2(j) == 2 * Pow2(j - 1);
  }

  /** An attempt that got a response, after only failed ones, is the first response. */
  lemma {:induction false} FirstResponseAt(outcomes: seq<Attempt>, k: nat)
    requires k < |outcomes| && outcomes[k].Responded?
    requires forall j :: 0 <= j < k ==> !outcomes[j].Responded?
    ensures FirstResponse(outcomes) == Some(k)
  {
    if k > 0 {
      FirstResponseAt(outcomes[1..], k - 1);
    }
  }

  /** A response at attempt `k`, after `k` transport failures, is returned
      unchanged and ends the call: `k + 1` attempts, no further one. */
  lemma ResponseEndsCall(network: seq<Attempt>, k: nat)
    requires |network| >= MaxRetries && k < MaxRetries
    requires network[k].Responded?
    requires forall j :: 0 <= j < k ==> !network[j].Responded?
    ensures Expected(network) == Run(Returned(network[k].response), k + 1, Schedule(k))
  {
    FirstResponseAt(network[..MaxRetries], k);
  }

  /** Three transport failures: the terminal error after exactly three
      attempts, with waits of 1 s and 2 s, 3 s in all. */
  lemma ExhaustedCall(network: seq<Attempt>)
    requires |network| >= MaxRetries
    requires forall j :: 0 <= j < MaxRetries ==> !network[j].Responded?
    ensures Expected(network).result == Failed(SleepingMessage)
    ensures Expected(network).attempts == MaxRetries
    ensures Expected(network).delays == [1000, 2000]
    ensures Sum(Expected(network).delays) == 3000
  {
    ScheduleTotal(MaxRetries - 1);
  }

  /** Two outcome sequences that agree on which attempts got a response and
      on those responses give the same first response. */
  lemma {:induction false} FirstResponseIgnoresFailureKind(a: seq<Attempt>, b: seq<Attempt>)
    requires |a| == |b|
    requires forall j :: 0 <= j < |a| ==> a[j].Responded? == b[j].Responded?
    ensures FirstResponse(a) == FirstResponse(b)
  {
    if a != [] && !a[0].Responded? {
      FirstResponseIgnoresFailureKind(a[1..], b[1..]);
    }
  }

  /** A timeout and a network error are handled alike: changing the kind of
      any transport failure changes neither the result, nor the attempts, nor
      the waits. */
  lemma TransportFailuresAlike(a: seq<Attempt>, b: seq<Attempt>)
    requires |a| == |b| >= MaxRetries
    requires forall j :: 0 <= j < |a| ==> a[j].Responded? == b[j].Responded?
    requires forall j :: 0 <= j < |a| && a[j].Responded? ==> a[j] == b[j]
    ensures Expected(a) == Expected(b)
  {
    FirstResponseIgnoresFailureKind(a[..MaxRetries], b[..MaxRetries]);
  }

  /** The decimal digits of `n`, as a template literal renders a status code. */
  function DecimalString(n: nat): (s: string)
    ensures |s| >= 1
    ensures forall i :: 0 <= i < |s| ==> '0' <= s[i] <= '9'
  {
    var digit := [(48 + n % 10) as char];
    if n < 10 then digit else DecimalString(n / 10) + digit
  }

  /** The number a string of decimal digits denotes. */
  function DigitsValue(s: string): nat
    requires forall i :: 0 <= i < |s| ==> '0' <= s[i] <= '9'
  {
    if s == [] then 0 else 10 * DigitsValue(s[..|s| - 1]) + (s[|s| - 1] as int - 48)
  }

  /** `DecimalString` renders `n` itself, without leading zeros. */
  lemma {:induction false} DecimalStringValue(n: nat)
    ensures DigitsValue(DecimalString(n)) == n
    ensures DecimalString(n)[0] == '0' ==> n == 0
  {
    var s := DecimalString(n);
    if n >= 10 {
      DecimalStringValue(n / 10);
      assert s[..|s| - 1] == DecimalString(n / 10);
    }
  }

  /** `errorData.message` when it is a non-empty string; `errorData` is `{}`
      when the body does not parse. (Reading it from `null` throws instead;
      see `SubmissionFailure`.) */
  function BodyMessage(body: Body): (m: Option<string>)
    ensures m.Some? <==> body.Parsed? && "message" in body.fields && body.fields["message"] != ""
    ensures m.Some? ==> m.value == body.fields["message"]
  {
    match body
    case Parsed(fields) =>
      if "message" in fields && fields["message"] != "" then Some(fields["message"]) else None
    case _ => None
  }

  /** The message `createEnquiry` throws for a response that is not ok: the
      body's own message if it has one, else one naming the status; a `null`
      body makes the read of `message` itself throw. */
  function SubmissionFailure(response: Response): (message: string)
    ensures message != ""
    ensures response.body.NullBody? ==> message == NullReadError
    ensures BodyMessage(response.body).Some? ==> message == BodyMessage(response.body).value
    ensures !response.body.NullBody? && BodyMessage(response.body).None? ==>
              message == "HTTP " + DecimalString(response.status) + ": Submission failed"
  {
    if response.body.NullBody? then NullReadError
    else match BodyMessage(response.body)
      case Some(m) => m
      case None => "HTTP " + DecimalString(response.status) + ": Submission failed"
  }

  /** Status 500 renders as "500". */
  lemma DecimalFiveHundred()
    ensures DecimalString(500) == "500"
  {
    assert DecimalString(5) == "5";
    assert DecimalString(50) == DecimalString(5) + "0";
  }

  /** An unparseable 500 response is reported by its status. */
  lemma UnparseableServerError(parseError: string)
    ensures SubmissionFailure(Response(500, Unparseable(parseError))) == "HTTP 500: Submission failed"
  {
    DecimalFiveHundred();
    assert BodyMessage(Unparseable(parseError)) == None;
  }

  /** `createEnquiry`: posts through `SafeFetch`; a terminal transport error
      is rethrown; a response that is not ok becomes `SubmissionFailure`; an
      ok response yields its parsed body (`None` for `null`), and a body that
      does not parse throws its parse error. */
  method CreateEnquiry(network: seq<Attempt>) returns (r: Result<Option<map<string, string>>, string>)
    requires |network| >= MaxRetries
    ensures Expected(network).result.Failed? ==> r == Failure(SleepingMessage)
    ensures Expected(network).result.Returned? ==>
              var response := Expected(network).result.response;
              && (!IsOk(response) ==> r == Failure(SubmissionFailure(response)))
              && (IsOk(response) && response.body.Parsed? ==> r == Success(Some(response.body.fields)))
              && (IsOk(response) && response.body.NullBody? ==> r == Success(None))
              && (IsOk(response) && response.body.Unparseable? ==> r == Failure(response.body.parseError))
  {
    var fetched, _, _, _ := SafeFetch(network);
    match fetched
    case Failed(message) =>
      r := Failure(message);
    case Returned(response) =>
      if !IsOk(response) {
        r := Failure(SubmissionFailure(response));
      } else {
        match response.body
        case Parsed(fields) => r := Success(Some(fields));
        case NullBody => r := Success(None);
        case Unparseable(parseError) => r := Failure(parseError);
      }
  }

  /** A first attempt that times out followed by an HTTP 500 returns that
      response after two attempts and a single 1 s wait. */
  lemma TimeoutThenServerError(network: seq<Attempt>, body: Body)
    requires |network| >= MaxRetries
    requires network[0] == TimedOut && network[1] == Responded(Response(500, body))
    ensures Expected(network) == Run(Returned(Response(500, body)), 2, [1000])
  {
    ResponseEndsCall(network, 1);
  }
}
