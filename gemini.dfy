/** The deterministic part of the AI assistant service: the cleanup applied to
    a deal-analysis reply before it is parsed, and the fixed texts returned
    when a reply is empty or the call fails. The model call itself and the
    JSON parser are outside the model; the reply and the parser are inputs. */
module Gemini {
  import opened Types
  import opened Strings

  /** What the model call produced: it failed (threw), or it answered with a
      text; an undefined text is the empty string. */
  datatype Reply = Failed | Answered(text: string)

  /** The object a deal analysis returns. */
  datatype Analysis = Analysis(analysis: string, recommendedAction: string)

  const JsonFence: string := "```json"

  /** `text.replace(/```json/g, '').replace(/```/g, '').trim()`. */
  function Clean(text: string): (r: string)
    ensures |r| <= |text|
  {
    Trim(RemoveAll(RemoveAll(text, JsonFence), Fence))
  }

  /** The cleaned text holds no fence and has no white space at either end. */
  lemma CleanSpec(text: string)
    ensures !Contains(Clean(text), Fence)
    ensures Trimmed(Clean(text))
  {
    var u := RemoveAll(RemoveAll(text, JsonFence), Fence);
    RemoveFencesLeavesNone(RemoveAll(text, JsonFence));
    TrimSlice(u);
    var i, j :| TrimCut(u, i, j) && Trim(u) == u[i..j];
    if Contains(u[i..j], Fence) {
      ContainsSlice(u, i, j, Fence);
    }
  }

  /** Text with no fence and no surrounding white space comes back as is;
      single or double backticks survive. */
  lemma CleanKeepsPlainText(text: string)
    requires !Contains(text, Fence) && Trimmed(text)
    ensures Clean(text) == text
  {
    assert IsPrefix(Fence, JsonFence);
    if Contains(text, JsonFence) {
      ContainsPrefixOf(text, JsonFence, Fence);
    }
    RemoveAllAbsent(text, JsonFence);
    RemoveAllAbsent(text, Fence);
    TrimTrimmed(text);
  }

  /** The first pass over a "```json" block: only the opening fence goes. */
  lemma JsonFencePass(body: string)
    requires '`' !in body
    ensures RemoveAll(JsonFence + body + Fence, JsonFence) == body + Fence
  {
    assert JsonFence + body + Fence == JsonFence + (body + Fence);
    RemoveAllLeading(body + Fence, JsonFence);
    RemoveAllSkips(body, Fence, JsonFence);
    ContainsShorter(Fence, JsonFence);
    RemoveAllAbsent(Fence, JsonFence);
  }

  /** A reply wrapped in a "```json" block comes back as the text between the
      fences, trimmed. */
  lemma CleanJsonFenced(body: string)
    requires '`' !in body
    ensures Clean(JsonFence + body + Fence) == Trim(body)
  {
    JsonFencePass(body);
    RemoveAllTrailing(body, Fence);
  }

  /** None of the first three positions of a bare "```" block starts a
      "```json" when the text inside does not start with "json". */
  lemma NoJsonFenceInBareHead(body: string)
    requires '`' !in body && !IsPrefix("json", body)
    ensures var s := Fence + body + Fence;
      !IsPrefix(JsonFence, s) && !IsPrefix(JsonFence, s[1..]) && !IsPrefix(JsonFence, s[2..])
  {
    var s := Fence + body + Fence;
    assert |body| > 0 ==> s[3] == body[0];
    if |body| >= 4 {
      assert s[3..7] == body[..4];
      assert s[..7][3..] == s[3..7];
    } else if |body| > 0 {
      assert s[3 + |body|] == '`';
    }
  }

  /** The first pass over a bare "```" block whose text does not start with
      "json": there is no "```json" to remove. */
  lemma BareFencePass(body: string)
    requires '`' !in body && !IsPrefix("json", body)
    ensures RemoveAll(Fence + body + Fence, JsonFence) == Fence + body + Fence
  {
    var s := Fence + body + Fence;
    assert s[1..][1..] == s[2..] && s[2..][1..] == s[3..] && s[3..] == body + Fence;
    NoJsonFenceInBareHead(body);
    RemoveAllStep(s, JsonFence);
    RemoveAllStep(s[1..], JsonFence);
    RemoveAllStep(s[2..], JsonFence);
    RemoveAllSkips(body, Fence, JsonFence);
    ContainsShorter(Fence, JsonFence);
    RemoveAllAbsent(Fence, JsonFence);
    assert [s[0]] + ([s[1]] + ([s[2]] + s[3..])) == s;
  }

  /** A reply wrapped in a bare "```" block comes back as the text between the
      fences, trimmed. */
  lemma CleanBareFenced(body: string)
    requires '`' !in body && !IsPrefix("json", body)
    ensures Clean(Fence + body + Fence) == Trim(body)
  {
    BareFencePass(body);
    RemoveAllWrapped(body, Fence);
  }

  /** Cleaning twice is cleaning once. */
  lemma CleanIdempotent(text: string)
    ensures Clean(Clean(text)) == Clean(text)
  {
    var c := Clean(text);
    CleanSpec(text);
    if Contains(c, JsonFence) {
      assert IsPrefix(Fence, JsonFence);
      ContainsPrefixOf(c, JsonFence, Fence);
    }
    RemoveAllAbsent(c, JsonFence);
    RemoveAllAbsent(c, Fence);
    TrimTrimmed(c);
  }

  /** The answer when anything goes wrong in a deal analysis. */
  const AnalysisFallback: Analysis :=
    Analysis("Could not analyze deal at this time.", "Review manually.")

  /** `analyzeDeal`: an empty or failed reply, or a cleaned text the parser
      rejects, gives the fallback; otherwise the parsed object. */
  function AnalyzeDeal(reply: Reply, parse: string -> Option<Analysis>): (r: Analysis)
    ensures reply == Failed || reply == Answered("") ==> r == AnalysisFallback
    ensures reply.Answered? && reply.text != "" && parse(Clean(reply.text)).None? ==> r == AnalysisFallback
    ensures reply.Answered? && reply.text != "" && parse(Clean(reply.text)).Some? ==>
              r == parse(Clean(reply.text)).value
  {
    match reply
    case Failed => AnalysisFallback
    case Answered(text) =>
      if text == "" then AnalysisFallback
      else
        match parse(Clean(text))
        case None => AnalysisFallback
        case Some(a) => a
  }

  const DraftUnavailable: string := "Unable to generate draft."
  const DraftError: string := "Error generating email. Please check your API key."

  /** `generateEmailDraft`: the reply text, the "unable" text for an empty
      reply, the error text on failure. */
  function EmailDraft(reply: Reply): (r: string)
    ensures reply == Failed ==> r == DraftError
    ensures reply == Answered("") ==> r == DraftUnavailable
    ensures reply.Answered? && reply.text != "" ==> r == reply.text
    ensures r != ""
  {
    match reply
    case Failed => DraftError
    case Answered(text) => if text == "" then DraftUnavailable else text
  }

  const SummaryUnavailable: string := "No summary available."
  const SummaryError: string := "Error summarizing contact."

  /** `summarizeContactHistory`: the same selection with its own texts. */
  function ContactSummary(reply: Reply): (r: string)
    ensures reply == Failed ==> r == SummaryError
    ensures reply == Answered("") ==> r == SummaryUnavailable
    ensures reply.Answered? && reply.text != "" ==> r == reply.text
    ensures r != ""
  {
    match reply
    case Failed => SummaryError
    case Answered(text) => if text == "" then SummaryUnavailable else text
  }
}
