/** The resume analyzer page: two text fields, a blank-field check, one
    request, and the colour band of the returned match score. */
module AnalyzerPage {
  import opened Js

  /** Shown when either field is blank; no request is made. */
  const ValidationMessage := "Please paste both your resume and the job description."

  /** Shown when the request fails without a server message. */
  const FailureMessage := "An error occurred during analysis. Please try again."

  /** The server's analysis; the score is a percentage, possibly fractional. */
  datatype Analysis = Analysis(matchScore: real, strengths: string, improvements: seq<string>)

  datatype View = View(
    resumeText: string,
    jobDescriptionText: string,
    result: Option<Analysis>,
    isLoading: bool,
    error: string)

  /** The body of the analyze request. */
  datatype AnalyzeRequest = AnalyzeRequest(resumeText: string, jobDescriptionText: string)

  /** The server's answer: the analysis, or a failure carrying the response's
      `msg` field when there is one. */
  datatype Response = Analyzed(analysis: Analysis) | Failed(msg: Option<string>)

  datatype Started = Started(view: View, request: Option<AnalyzeRequest>)

  /** The three colours of the score gauge. */
  datatype Band = SuccessBand | WarningBand | ErrorBand

  /** The page's state on mount. */
  function Initial(): (v: View)
    ensures v.resumeText == "" && v.jobDescriptionText == ""
    ensures v.result.None? && !v.isLoading && v.error == ""
  {
    View("", "", None, false, "")
  }

  /** The resume field's `onChange`. */
  function ResumeChanged(v: View, text: string): (r: View)
    ensures r.resumeText == text && r.jobDescriptionText == v.jobDescriptionText
    ensures r.result == v.result && r.isLoading == v.isLoading && r.error == v.error
  {
    v.(resumeText := text)
  }

  /** The job description field's `onChange`. */
  function JobDescriptionChanged(v: View, text: string): (r: View)
    ensures r.jobDescriptionText == text && r.resumeText == v.resumeText
    ensures r.result == v.result && r.isLoading == v.isLoading && r.error == v.error
  {
    v.(jobDescriptionText := text)
  }

  /** `handleAnalyzer`, up to the request: a field made only of whitespace
      sets the validation message and changes nothing else; otherwise the
      page starts loading with the error and previous result cleared, and
      sends both texts as typed. */
  function Start(v: View): (r: Started)
    ensures r.request.None? <==> AllWhitespace(v.resumeText) || AllWhitespace(v.jobDescriptionText)
    ensures r.request.None? ==> r.view == v.(error := ValidationMessage)
    ensures r.request.Some? ==>
              && r.request.value == AnalyzeRequest(v.resumeText, v.jobDescriptionText)
              && r.view.isLoading && r.view.error == "" && r.view.result.None?
              && r.view.resumeText == v.resumeText
              && r.view.jobDescriptionText == v.jobDescriptionText
  {
    BlankIffAllWhitespace(v.resumeText);
    BlankIffAllWhitespace(v.jobDescriptionText);
    if IsBlank(v.resumeText) || IsBlank(v.jobDescriptionText) then
      Started(v.(error := ValidationMessage), None)
    else
      Started(v.(isLoading := true, error := "", result := None),
              Some(AnalyzeRequest(v.resumeText, v.jobDescriptionText)))
  }

  /** `handleAnalyzer`, after the request settles: success stores the
      analysis and leaves the error alone; failure shows the server's
      message, or the fallback when it is missing or empty; loading stops
      either way. */
  function Finish(v: View, response: Response): (r: View)
    ensures !r.isLoading
    ensures r.resumeText == v.resumeText && r.jobDescriptionText == v.jobDescriptionText
    ensures response.Analyzed? ==> r.result == Some(response.analysis) && r.error == v.error
    ensures response.Failed? ==> r.result == v.result
    ensures response.Failed? && Truthy(response.msg) ==> r.error == response.msg.value
    ensures response.Failed? && !Truthy(response.msg) ==> r.error == FailureMessage
  {
    match response
    case Analyzed(a) => v.(result := Some(a), isLoading := false)
    case Failed(msg) => v.(error := OrElse(msg, FailureMessage), isLoading := false)
  }

  /** A complete valid analysis: success shows the result with no error,
      failure shows a non-empty error with no result. */
  lemma StartThenFinish(v: View, response: Response)
    requires !AllWhitespace(v.resumeText) && !AllWhitespace(v.jobDescriptionText)
    ensures var r := Finish(Start(v).view, response);
            && !r.isLoading
            && (response.Analyzed? ==> r.result == Some(response.analysis) && r.error == "")
            && (response.Failed? ==> r.result.None? && r.error != "")
  {
  }

  /** A blank field never reaches the network and always shows the
      validation message, whatever the page was doing. */
  lemma BlankFieldIsRejected(v: View)
    requires AllWhitespace(v.resumeText) || AllWhitespace(v.jobDescriptionText)
    ensures Start(v).request.None?
    ensures Start(v).view.error == ValidationMessage
    ensures Start(v).view.isLoading == v.isLoading && Start(v).view.result == v.result
  {
  }

  /** The gauge colour: above 75 success, above 50 warning, else error. */
  function ScoreBand(score: real): (b: Band)
    ensures b == SuccessBand <==> score > 75.0
    ensures b == WarningBand <==> 50.0 < score <= 75.0
    ensures b == ErrorBand <==> score <= 50.0
  {
    if score > 75.0 then SuccessBand else if score > 50.0 then WarningBand else ErrorBand
  }

  /** Bands ordered from worst to best. */
  function Rank(b: Band): nat {
    match b
    case ErrorBand => 0
    case WarningBand => 1
    case SuccessBand => 2
  }

  /** A higher score never gets a worse colour. */
  lemma ScoreBandMonotone(lo: real, hi: real)
    requires lo <= hi
    ensures Rank(ScoreBand(lo)) <= Rank(ScoreBand(hi))
  {
  }
}
