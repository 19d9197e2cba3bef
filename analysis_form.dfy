/**
 * The document-analysis form (src/components/document-analysis/analysis-form.tsx):
 * a length check on the pasted text, then one summarisation request whose
 * outcome is an input, with a loading flag and the last result as state.
 */
module AnalysisForm {
  import opened Wrappers

  const MinDocumentLength := 100
  const MaxDocumentLength := 20000

  const DocumentTooShort := "Document text must be at least 100 characters."
  const DocumentTooLong := "Document text must not exceed 20,000 characters."

  /** The three parts of a summary. */
  datatype Analysis = Analysis(summary: string, history: string, relatedResources: string)

  /** How the summarisation request settles. */
  datatype AnalysisReply = Analysed(analysis: Analysis) | AnalysisFailed

  datatype FormState = FormState(isLoading: bool, result: Option<Analysis>)

  const Initial := FormState(false, None)

  /** `formSchema`: the message under the text field, if the text is too short or too long. */
  function DocumentTextError(text: string): (r: Option<string>)
    ensures r.None? <==> 100 <= |text| <= 20000
    ensures |text| < 100 ==> r == Some(DocumentTooShort)
    ensures |text| > 20000 ==> r == Some(DocumentTooLong)
  {
    if |text| < MinDocumentLength then Some(DocumentTooShort)
    else if |text| > MaxDocumentLength then Some(DocumentTooLong)
    else None
  }

  /** `onSubmit` up to its `await`: loading on, any earlier result cleared. */
  function AnalysisStarted(s: FormState): (r: FormState)
    ensures r.isLoading && r.result.None?
  {
    FormState(true, None)
  }

  /** `onSubmit` after its `await`: the result is the analysis on success and is untouched on failure; loading ends either way. */
  function AnalysisSettled(s: FormState, reply: AnalysisReply): (r: FormState)
    ensures !r.isLoading
    ensures reply.Analysed? ==> r.result == Some(reply.analysis)
    ensures reply.AnalysisFailed? ==> r.result == s.result
  {
    match reply
    case Analysed(a) => FormState(false, Some(a))
    case AnalysisFailed => FormState(false, s.result)
  }

  /** What the form draws: the submit button's state, the progress card and the result card. */
  datatype View = View(submitDisabled: bool, progressCard: bool, resultCard: Option<Analysis>)

  function ViewOf(s: FormState): (r: View)
    ensures r.submitDisabled <==> s.isLoading
    ensures r.progressCard <==> s.isLoading
    ensures r.resultCard == s.result
  {
    View(s.isLoading, s.isLoading, s.result)
  }

  /** While a request is in flight the button is off, the progress card shows and no earlier result is shown. */
  lemma AnalysisInProgressView(s: FormState)
    ensures ViewOf(AnalysisStarted(s)) == View(true, true, None)
  {
  }

  /** After a failed request no result is shown, not even one from an earlier request. */
  lemma FailedAnalysisShowsNoResult(s: FormState)
    ensures AnalysisSettled(AnalysisStarted(s), AnalysisFailed) == Initial
    ensures ViewOf(AnalysisSettled(AnalysisStarted(s), AnalysisFailed)) == View(false, false, None)
  {
  }

  /** After a successful request exactly its analysis is shown. */
  lemma SucceededAnalysisShowsIt(s: FormState, a: Analysis)
    ensures AnalysisSettled(AnalysisStarted(s), Analysed(a)) == FormState(false, Some(a))
    ensures ViewOf(AnalysisSettled(AnalysisStarted(s), Analysed(a))) == View(false, false, Some(a))
  {
  }

  /** The component instance: `isLoading` and `result` are its state hooks. */
  class AnalysisForm {
    var isLoading: bool
    var result: Option<Analysis>

    function State(): FormState
      reads this
    {
      FormState(isLoading, result)
    }

    constructor ()
      ensures State() == Initial
    {
      isLoading := false;
      result := None;
    }

    method StartAnalysis()
      modifies this
      ensures State() == AnalysisStarted(old(State()))
    {
      isLoading := true;
      result := None;
    }

    method SettleAnalysis(reply: AnalysisReply)
      modifies this
      ensures State() == AnalysisSettled(old(State()), reply)
    {
      if reply.Analysed? {
        result := Some(reply.analysis);
      }
      isLoading := false;
    }

    /**
     * A submit of the form: the text is checked first, and `onSubmit` runs
     * (with the request settling as `reply`) only when it passes.
     */
    method Submit(text: string, reply: AnalysisReply) returns (error: Option<string>)
      modifies this
      ensures error == DocumentTextError(text)
      ensures error.Some? ==> State() == old(State())
      ensures error.None? ==> State() == AnalysisSettled(AnalysisStarted(old(State())), reply)
    {
      error := DocumentTextError(text);
      if error.None? {
        StartAnalysis();
        SettleAnalysis(reply);
      }
    }
  }
}
