/** The server-side submission coordinator, `enquiryService.submit`: one
    enquiry is written to the primary store (Supabase) and then posted to the
    redundant endpoint (a Google Apps Script that appends to a sheet); each
    backend's outcome is recorded, and the call succeeds when at least one of
    them saved the enquiry.

    Both backends are inputs: what the insert came back with, and what the
    post came back with. The script URL is an input as well. */
module EnquiryService {
  import opened Wrappers

  /** A record as the backends return it: an inserted row, or `{}`. */
  type Row = map<string, string>

  /** The script URL left in the configuration template: it counts as not configured. */
  const PlaceholderUrl: string := "https://script.google.com/macros/s/YOUR_SCRIPT_ID/exec"
  const NotConfigured: string := "Not configured"
  const UnknownResponse: string := "Unknown response from Google Sheets"
  const AllBackendsFailed: string := "All storage backends failed to save the enquiry"

  /** How the insert into the primary store ends: the rows it returned
      (`None` when `data` is null), an `error` it returned, or an exception. */
  datatype InsertOutcome =
    | Inserted(rows: Option<seq<Row>>)
    | Rejected(message: string)
    | Threw(message: string)

  /** How the post to the redundant endpoint ends: a 2xx reply whose body
      may carry `success` and `error` (a body that is not an object carries
      neither), or an error that `axios.post` rejects with. The latter
      covers transport errors, timeouts, and replies of any status outside
      2xx, which axios rejects with "Request failed with status code N". */
  datatype PostOutcome =
    | Replied(success: Option<bool>, error: Option<string>)
    | PostFailed(message: string)

  /** One entry of `results`: `{success, error?, data?}`. */
  datatype BackendResult = BackendResult(success: bool, error: Option<string>, data: Option<Row>)

  /** The `results` record: one entry per backend, always both. */
  datatype Results = Results(supabase: BackendResult, googleSheets: BackendResult)

  /** The value `submit` resolves to. */
  datatype Submission = Submission(success: bool, results: Results, data: Row)

  /** The entry each backend starts from: `{success: false}`. */
  const Pending: BackendResult := BackendResult(false, None, None)

  /** A string that JavaScript treats as true: present and not empty. */
  predicate Truthy(s: Option<string>) {
    s.Some? && s.value != ""
  }

  /** The redundant endpoint is used only with a non-empty URL other than the placeholder. */
  predicate Configured(scriptUrl: Option<string>)
    ensures Configured(scriptUrl) <==> scriptUrl.Some? && scriptUrl.value !in {"", PlaceholderUrl}
  {
    Truthy(scriptUrl) && scriptUrl.value != PlaceholderUrl
  }

  /** `insertedData?.[0] || {}`. */
  function FirstRow(rows: Option<seq<Row>>): (row: Row)
    ensures rows.Some? && rows.value != [] ==> row == rows.value[0]
    ensures rows.None? || rows.value == [] ==> row == map[]
  {
    if rows.Some? && |rows.value| > 0 then rows.value[0] else map[]
  }

  /** `a || b` for an optional record: records are objects, so a present one is truthy. */
  function Or(a: Option<Row>, b: Row): Row {
    match a
    case Some(row) => row
    case None => b
  }

  /** The reply counts as saved only when its body's `success` is true. */
  predicate Accepted(outcome: PostOutcome)
    ensures outcome.PostFailed? ==> !Accepted(outcome)
    ensures outcome.Replied? ==> (Accepted(outcome) <==> outcome.success == Some(true))
  {
    outcome.Replied? && outcome.success == Some(true)
  }

  /** `results.supabase` after the first try/catch block. */
  function PrimaryResult(outcome: InsertOutcome): (r: BackendResult)
    ensures r.success <==> outcome.Inserted?
    ensures r.success <==> r.error.None?
    ensures outcome.Inserted? ==> r.data == Some(FirstRow(outcome.rows))
    ensures !outcome.Inserted? ==> r.data.None? && r.error == Some(outcome.message)
  {
    match outcome
    case Inserted(rows) => BackendResult(true, None, Some(FirstRow(rows)))
    case Rejected(message) => Pending.(error := Some(message))
    case Threw(message) => Pending.(error := Some(message))
  }

  /** `results.googleSheets` after the second block. */
  function RedundantResult(scriptUrl: Option<string>, outcome: PostOutcome): (r: BackendResult)
    ensures r.success <==> Configured(scriptUrl) && Accepted(outcome)
    ensures r.success <==> r.error.None?
    ensures r.data.None?
    ensures !Configured(scriptUrl) ==> r.error == Some(NotConfigured)
    ensures Configured(scriptUrl) && outcome.PostFailed? ==> r.error == Some(outcome.message)
    ensures Configured(scriptUrl) && outcome.Replied? && !Accepted(outcome) ==>
              r.error == Some(if Truthy(outcome.error) then outcome.error.value else UnknownResponse)
  {
    if !Configured(scriptUrl) then Pending.(error := Some(NotConfigured))
    else match outcome
      case Replied(success, error) =>
        if success == Some(true) then BackendResult(true, None, None)
        else Pending.(error := Some(if Truthy(error) then error.value else UnknownResponse))
      case PostFailed(message) => Pending.(error := Some(message))
  }

  /** The at-least-one policy and the choice of `data` (the last lines of `submit`). */
  function Decide(results: Results): (r: Result<Submission, string>)
    ensures r.Success? <==> results.supabase.success || results.googleSheets.success
    ensures r.Failure? ==> r.error == AllBackendsFailed
    ensures r.Success? ==> r.value.success && r.value.results == results
    ensures r.Success? && results.supabase.data.Some? ==> r.value.data == results.supabase.data.value
    ensures r.Success? && results.supabase.data.None? && results.googleSheets.data.Some? ==>
              r.value.data == results.googleSheets.data.value
    ensures r.Success? && results.supabase.data.None? && results.googleSheets.data.None? ==> r.value.data == map[]
  {
    if !(results.supabase.success || results.googleSheets.success) then
      Failure(AllBackendsFailed)
    else
      var data := Or(results.supabase.data, Or(results.googleSheets.data, map[]));
      Success(Submission(true, results, data))
  }

  /** What `submit` resolves to, or the message it throws, for the given backend outcomes. */
  function SubmitOutcome(primary: InsertOutcome, scriptUrl: Option<string>, post: PostOutcome): (r: Result<Submission, string>)
    ensures r.Success? ==> r.value.results.supabase == PrimaryResult(primary)
    ensures r.Success? ==> r.value.results.googleSheets == RedundantResult(scriptUrl, post)
  {
    Decide(Results(PrimaryResult(primary), RedundantResult(scriptUrl, post)))
  }

  /** `enquiryService.submit`: builds `results` from two pending entries,
      tries the insert, then the post (skipped when the URL is not
      configured), and applies the at-least-one policy. `posted` tells
      whether the post was made. */
  method Submit(primary: InsertOutcome, scriptUrl: Option<string>, post: PostOutcome)
    returns (r: Result<Submission, string>, posted: bool)
    ensures posted <==> Configured(scriptUrl)
    ensures r == SubmitOutcome(primary, scriptUrl, post)
  {
    var results := Results(Pending, Pending);

    // 1. The primary store; a failure is recorded and the post still follows.
    match primary {
      case Inserted(rows) =>
        results := results.(supabase := BackendResult(true, None, Some(FirstRow(rows))));
      case Rejected(message) =>
        results := results.(supabase := results.supabase.(error := Some(message)));
      case Threw(message) =>
        results := results.(supabase := results.supabase.(error := Some(message)));
    }

    // 2. The redundant endpoint.
    posted := false;
    if Truthy(scriptUrl) && scriptUrl.value != PlaceholderUrl {
      posted := true;
      match post {
        case Replied(success, error) =>
          if success == Some(true) {
            results := results.(googleSheets := BackendResult(true, None, None));
          } else {
            var message := if Truthy(error) then error.value else UnknownResponse;
            results := results.(googleSheets := results.googleSheets.(error := Some(message)));
          }
        case PostFailed(message) =>
          results := results.(googleSheets := results.googleSheets.(error := Some(message)));
      }
    } else {
      results := results.(googleSheets := results.googleSheets.(error := Some(NotConfigured)));
    }

    var isSuccess := results.supabase.success || results.googleSheets.success;
    if !isSuccess {
      r := Failure(AllBackendsFailed);
      return;
    }
    var data := Or(results.supabase.data, Or(results.googleSheets.data, map[]));
    r := Success(Submission(true, results, data));
  }

  /** The at-least-one policy over every combination of backend outcomes:
      `submit` returns exactly when one backend saved the enquiry, what it
      returns says `success: true`, and otherwise it throws the all-failed
      message. */
  lemma AtLeastOnePolicy(primary: InsertOutcome, scriptUrl: Option<string>, post: PostOutcome)
    ensures SubmitOutcome(primary, scriptUrl, post).Success? <==>
              primary.Inserted? || (Configured(scriptUrl) && Accepted(post))
    ensures SubmitOutcome(primary, scriptUrl, post).Success? ==> SubmitOutcome(primary, scriptUrl, post).value.success
    ensures SubmitOutcome(primary, scriptUrl, post).Failure? ==>
              SubmitOutcome(primary, scriptUrl, post).error == AllBackendsFailed
  {
  }

  /** The returned `data` is the inserted row when the primary store saved
      the enquiry, and `{}` when only the redundant endpoint did: it never
      returns a record. */
  lemma DataPreference(primary: InsertOutcome, scriptUrl: Option<string>, post: PostOutcome)
    requires SubmitOutcome(primary, scriptUrl, post).Success?
    ensures primary.Inserted? ==> SubmitOutcome(primary, scriptUrl, post).value.data == FirstRow(primary.rows)
    ensures !primary.Inserted? ==> SubmitOutcome(primary, scriptUrl, post).value.data == map[]
  {
  }

  /** A failed insert, whether returned or thrown, neither prevents the post
      nor alters what is recorded for it: the outcome is decided by the
      redundant endpoint alone. */
  lemma PrimaryFailureIsolated(primary: InsertOutcome, scriptUrl: Option<string>, post: PostOutcome)
    requires !primary.Inserted?
    ensures SubmitOutcome(primary, scriptUrl, post).Success? <==> Configured(scriptUrl) && Accepted(post)
    ensures SubmitOutcome(primary, scriptUrl, post).Success? ==>
              SubmitOutcome(primary, scriptUrl, post).value.results ==
              Results(Pending.(error := Some(primary.message)), BackendResult(true, None, None))
  {
  }

  /** Primary store saves, no script URL: success, the redundant entry says
      "Not configured", and `data` is the inserted row. */
  lemma PrimaryOnlyScenario(row: Row, post: PostOutcome)
    ensures SubmitOutcome(Inserted(Some([row])), None, post) ==
              Success(Submission(true,
                                 Results(BackendResult(true, None, Some(row)), Pending.(error := Some(NotConfigured))),
                                 row))
  {
  }

  /** Primary store throws, the endpoint replies `{success: true}`: success,
      the primary entry carries the error, and `data` is `{}`. */
  lemma RedundantOnlyScenario(message: string, scriptUrl: string)
    requires scriptUrl != "" && scriptUrl != PlaceholderUrl
    ensures SubmitOutcome(Threw(message), Some(scriptUrl), Replied(Some(true), None)) ==
              Success(Submission(true,
                                 Results(Pending.(error := Some(message)), BackendResult(true, None, None)),
                                 map[]))
  {
  }

  /** Both backends fail: the call throws the all-failed message. */
  lemma BothFailScenario(message: string, scriptUrl: Option<string>, post: PostOutcome)
    requires !Accepted(post)
    ensures SubmitOutcome(Rejected(message), scriptUrl, post) == Failure(AllBackendsFailed)
  {
  }
}
