/** The content-mode transform: preview (truncate), full (identity) or summary (LLM, falling back to preview). */
module ContentMode {
  import opened Wrappers

  datatype Mode = Preview | Full | Summary

  /** The length `applyContentMode` truncates to in preview mode and on a summary fallback. */
  const PreviewChars: nat := 300

  /** What the summariser collaborator does with one text: it returns a summary, or `null`
      (`None`), or it throws. */
  datatype SummaryOutcome = Summarised(summary: Option<string>) | SummaryFailed(error: Error)

  /** `truncateForPreview(content, maxChars)`; the empty string is JavaScript's falsy content. */
  function TruncateForPreview(content: string, maxChars: nat): (r: string)
    ensures |content| <= maxChars ==> r == content
    ensures |content| > maxChars ==> |r| == maxChars + 3 && r[..maxChars] == content[..maxChars] && r[maxChars..] == "..."
  {
    if content == "" || |content| <= maxChars then content
    else content[..maxChars] + "..."
  }

  /** A preview is never longer than `maxChars` plus the marker. */
  lemma TruncateBound(content: string, maxChars: nat)
    ensures |TruncateForPreview(content, maxChars)| <= maxChars + 3
    ensures |TruncateForPreview(content, maxChars)| <= |content| + 3
  {
  }

  /** Truncating a preview again changes nothing. */
  lemma TruncateIdempotent(content: string, maxChars: nat)
    ensures TruncateForPreview(TruncateForPreview(content, maxChars), maxChars) == TruncateForPreview(content, maxChars)
  {
    var once := TruncateForPreview(content, maxChars);
    if |content| > maxChars {
      assert once[..maxChars] == content[..maxChars];
    }
  }

  /** `applyContentMode(content, mode, summaryModel)`, the summariser passed in as `summarize`. */
  function ApplyContentMode(content: string, mode: Mode, summarize: string -> SummaryOutcome): (r: string)
    ensures content == "" ==> r == ""
    ensures r == content || r == TruncateForPreview(content, PreviewChars) ||
            (mode == Summary && summarize(content) == Summarised(Some(r)) && r != "")
  {
    if content == "" then content
    else match mode
      case Preview => TruncateForPreview(content, PreviewChars)
      case Summary =>
        (match summarize(content)
         case Summarised(Some(summary)) =>
           if summary != "" then summary else TruncateForPreview(content, PreviewChars)
         case _ => TruncateForPreview(content, PreviewChars))
      case Full => content
  }

  /** Full mode is the identity. */
  lemma FullIsIdentity(content: string, summarize: string -> SummaryOutcome)
    ensures ApplyContentMode(content, Full, summarize) == content
  {
  }

  /** Preview mode truncates to 300 characters, and a second preview changes nothing. */
  lemma PreviewIsTruncation(content: string, summarize: string -> SummaryOutcome)
    ensures ApplyContentMode(content, Preview, summarize) == TruncateForPreview(content, PreviewChars)
    ensures ApplyContentMode(ApplyContentMode(content, Preview, summarize), Preview, summarize) ==
            ApplyContentMode(content, Preview, summarize)
  {
    TruncateIdempotent(content, PreviewChars);
  }

  /** Summary mode returns a non-empty summary, and otherwise degrades to the preview. */
  lemma SummaryFallsBack(content: string, summarize: string -> SummaryOutcome)
    ensures content != "" && summarize(content).Summarised? && summarize(content).summary.Some? &&
            summarize(content).summary.value != "" ==>
              ApplyContentMode(content, Summary, summarize) == summarize(content).summary.value
    ensures !(summarize(content).Summarised? && summarize(content).summary.Some? && summarize(content).summary.value != "") ==>
              ApplyContentMode(content, Summary, summarize) == TruncateForPreview(content, PreviewChars)
  {
  }
}
