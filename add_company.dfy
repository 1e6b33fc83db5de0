/** The `AddCompany` component: its `useState` variables as fields of a
    class and its event handlers as methods. Each network call is split into
    the handler's synchronous part, which returns what would be sent, and
    one method per way the returned promise settles; the outcome of the
    request is a parameter of that method. */
module Component {
  import opened JsValues
  import opened CompanyId
  import opened CompanyDraft
  import opened HelperText

  const InvalidUrlMessage: string := "LinkedIn URL Invalid!"
  const ScrapeErrorMessage: string := "Some error Occured!"
  const SameNameMessage: string := "Company with same name already exists"
  const ClickAway: string := "clickaway"

  /** A scrape that `runScrapper` started: the `profileId` it sends and the
      `formData` its `.then` closure captured. */
  datatype ScrapeRequest = ScrapeRequest(profileId: string, snapshot: FormData)

  /** How a scrape request can be rejected: with an HTTP error response, or
      without any response (`err.response` undefined). */
  datatype ScrapeFailure = ScrapeNoResponse | ScrapeErrorResponse

  /** How `POST /addCompany` can be rejected: without any response, or with
      a response body whose `errors` list may be absent. */
  datatype SubmitFailure =
    | SubmitNoResponse
    | SubmitErrorResponse(errors: Option<seq<FieldError>>)

  class AddCompany {
    var scrapperLoad: bool
    var addCompanyLoad: bool
    var open: bool
    var error: string
    var errors: seq<FieldError>
    var scrapperError: string
    var formData: FormData

    /** The state on mount: nothing loading, no notification, no errors and
        an empty draft. */
    constructor ()
      ensures !scrapperLoad && !addCompanyLoad && !open
      ensures error == "" && errors == [] && scrapperError == ""
      ensures formData == EmptyDraft
    {
      scrapperLoad := false;
      addCompanyLoad := false;
      open := false;
      error := "";
      errors := [];
      scrapperError := "";
      formData := EmptyDraft;
    }

    /** `runScrapper` up to the request: clear the scrape message, extract
        the identifier from the LinkedIn field and, when it is truthy, raise
        the spinner and start a request for it; otherwise report the URL as
        invalid and start nothing. The draft is never changed here. */
    method RunScrapper() returns (request: Option<ScrapeRequest>)
      modifies this`scrapperError, this`scrapperLoad
      ensures var id := GetCompanyId(formData.linkedIn);
        request.Some? <==> IsTruthy(id)
      ensures request.Some? ==>
        && request.value == ScrapeRequest(GetCompanyId(formData.linkedIn).value, formData)
        && scrapperLoad && scrapperError == ""
      ensures request.None? ==>
        scrapperError == InvalidUrlMessage && scrapperLoad == old(scrapperLoad)
    {
      scrapperError := "";
      var companyId := GetCompanyId(formData.linkedIn);
      if IsTruthy(companyId) {
        scrapperLoad := true;
        request := Some(ScrapeRequest(companyId.value, formData));
      } else {
        scrapperError := InvalidUrlMessage;
        request := None;
      }
    }

    /** The `.then` of a scrape: drop the spinner and replace the draft by
        the merge of the response into the draft the request captured.
        Edits made while the request was pending are overwritten. */
    method ScrapeSucceeded(request: ScrapeRequest, data: ScrapeData)
      modifies this`scrapperLoad, this`formData
      ensures !scrapperLoad
      ensures formData == Merge(request.snapshot, data)
    {
      scrapperLoad := false;
      formData := Merge(request.snapshot, data);
    }

    /** The `.catch` of a scrape: with a response, show the generic message
        and drop the spinner. Without one, reading `err.response.data`
        throws before either setter runs, so nothing changes. */
    method ScrapeFailed(failure: ScrapeFailure)
      modifies this`scrapperError, this`scrapperLoad
      ensures failure.ScrapeErrorResponse? ==> scrapperError == ScrapeErrorMessage && !scrapperLoad
      ensures failure.ScrapeNoResponse? ==>
        scrapperError == old(scrapperError) && scrapperLoad == old(scrapperLoad)
    {
      if failure.ScrapeErrorResponse? {
        scrapperError := ScrapeErrorMessage;
        scrapperLoad := false;
      }
    }

    /** `handleAddCompany` up to the request: raise the submit spinner and
        post the whole draft. */
    method HandleAddCompany() returns (payload: FormData)
      modifies this`addCompanyLoad
      ensures addCompanyLoad
      ensures payload == formData
    {
      addCompanyLoad := true;
      payload := formData;
    }

    /** The `.then` of a submission: show the success notification and drop
        the spinner. */
    method AddCompanySucceeded()
      modifies this`open, this`addCompanyLoad
      ensures open && !addCompanyLoad
    {
      open := true;
      addCompanyLoad := false;
    }

    /** The `.catch` of a submission: drop the spinner; then a body without
        `errors` sets the same-name message and leaves `errors`, and a body
        with `errors` (even an empty list) replaces `errors` and leaves the
        message. Without a response, reading `err.response.data` throws
        after the spinner was dropped. */
    method AddCompanyFailed(failure: SubmitFailure)
      modifies this`addCompanyLoad, this`error, this`errors
      ensures !addCompanyLoad
      ensures failure.SubmitNoResponse? ==> error == old(error) && errors == old(errors)
      ensures failure.SubmitErrorResponse? && failure.errors.None? ==>
        error == SameNameMessage && errors == old(errors)
      ensures failure.SubmitErrorResponse? && failure.errors.Some? ==>
        error == old(error) && errors == failure.errors.value
    {
      addCompanyLoad := false;
      if failure.SubmitErrorResponse? {
        if failure.errors.None? {
          error := SameNameMessage;
        }
        if failure.errors.Some? {
          errors := failure.errors.value;
        }
      }
    }

    /** `handleChange`: clear all three kinds of feedback and set the key
        named by the edited box. The name box then shows its default text. */
    method HandleChange(box: InputBox, value: string)
      modifies this`scrapperError, this`error, this`errors, this`formData
      ensures scrapperError == "" && error == "" && errors == []
      ensures formData == With(old(formData), WrittenKey(box), value)
      ensures NameHelperText(error, errors) == NameDefaultText
      ensures !NameInError(error, errors)
    {
      scrapperError := "";
      error := "";
      errors := [];
      formData := With(formData, WrittenKey(box), value);
    }

    /** `handleClose`: a click away from the notification keeps it open;
        any other reason, or none, closes it. */
    method HandleClose(reason: Option<string>)
      modifies this`open
      ensures reason == Some(ClickAway) ==> open == old(open)
      ensures reason != Some(ClickAway) ==> !open
    {
      if reason == Some(ClickAway) {
        return;
      }
      open := false;
    }
  }
}
