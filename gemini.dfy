// The text accessor of the Gemini reply record
// (ai/gemini/dto/GeminiResponse.java). A null candidates list, content,
// parts list, text, role or finish reason is None; the candidate index is
// a plain int.

module GeminiResponses {
  import opened Common

  datatype Part = Part(text: Option<string>)

  datatype Content = Content(parts: Option<seq<Part>>, role: Option<string>)

  datatype Candidate = Candidate(content: Option<Content>, finishReason: Option<string>, index: int)

  datatype GeminiResponse = GeminiResponse(candidates: Option<seq<Candidate>>)

  /** The first part of the first candidate, when every step on the way is present and non-empty. */
  function FirstPart(response: GeminiResponse): Option<Part>
  {
    match response.candidates
    case None => None
    case Some(cs) =>
      if cs == [] then None
      else
        match cs[0].content
        case None => None
        case Some(content) =>
          match content.parts
          case None => None
          case Some(ps) => if ps == [] then None else Some(ps[0])
  }

  /**
   * getFirstText: the text of candidates[0].parts[0], or "" when any step
   * is null or empty; never null, and nothing after the first candidate or
   * the first part is consulted.
   */
  function GetFirstText(response: GeminiResponse): (r: string)
    ensures response.candidates.None? || response.candidates.value == [] ==> r == ""
    ensures FirstPart(response).None? ==> r == ""
    ensures FirstPart(response).Some? && FirstPart(response).value.text.None? ==> r == ""
    ensures FirstPart(response).Some? && FirstPart(response).value.text.Some? ==> r == FirstPart(response).value.text.value
  {
    if response.candidates.None? || response.candidates.value == [] then ""
    else
      var first := response.candidates.value[0];
      if first.content.None? || first.content.value.parts.None? || first.content.value.parts.value == [] then ""
      else
        var part := first.content.value.parts.value[0];
        if part.text.Some? then part.text.value else ""
  }

  /** Only the first candidate's first part matters: replacing every later candidate or part changes nothing. */
  lemma OnlyFirstPartConsulted(c: Candidate, ps: seq<Part>, rest: seq<Candidate>, rest': seq<Candidate>, more: seq<Part>)
    requires c.content.Some? && c.content.value.parts == Some(ps) && ps != []
    ensures var c' := c.(content := Some(c.content.value.(parts := Some([ps[0]] + more))));
            GetFirstText(GeminiResponse(Some([c] + rest))) == GetFirstText(GeminiResponse(Some([c'] + rest')))
  {
    var c' := c.(content := Some(c.content.value.(parts := Some([ps[0]] + more))));
    assert ([c] + rest)[0] == c && ([c'] + rest')[0] == c';
  }
}
