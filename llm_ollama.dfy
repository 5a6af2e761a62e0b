// The scoring adapter: which steps are sent to the language model, and how its reply becomes
// the score record. The HTTP exchange itself is a parameter: the decoded reply body, or the
// failure that urlopen or json.loads raised.

module LlmOllama {
  import opened Wrappers
  import opened Text
  import opened Json

  const MaxScore := 3
  const NotScoredReason := "step non valutato (MVP)"
  const InvalidJsonReason := "LLM non ha restituito JSON valido"

  /** The only step ids the adapter scores; none of them is a catalogue id (mmse_stepNN). */
  predicate IsScoredStep(stepId: string): (b: bool)
    ensures b ==> |stepId| > 5 && stepId[..5] != "mmse_"
  {
    var b := stepId == "registration_3_words" || stepId == "recall_3_words";
    assert b ==> stepId[..5][0] == 'r';
    b
  }

  /** What the chat endpoint gave back: a failure of the call or of decoding its body, or the
      decoded body. */
  datatype ChatReply = ChatFailed(reason: string) | ChatOk(body: Json)

  /** The record returned for a step that is not scored. */
  function NotScored(): (j: Json)
    ensures j.JObject? && j.fields.Keys == {"score", "max_score", "reason"}
    ensures j.fields["score"] == JNull && j.fields["max_score"] == JNull
  {
    JObject(map["score" := JNull, "max_score" := JNull, "reason" := JStr(NotScoredReason)])
  }

  /** The record returned when a scored step's reply content is not JSON. */
  function InvalidJsonFallback(): (j: Json)
    ensures j.JObject? && j.fields.Keys == {"score", "max_score", "reason"}
    ensures j.fields["score"] == JNull && j.fields["max_score"] == JInt(MaxScore)
  {
    JObject(map["score" := JNull, "max_score" := JInt(MaxScore), "reason" := JStr(InvalidJsonReason)])
  }

  /** (body.get("message") or {}).get("content", ""): a missing or falsy message reads as no
      content; a body or message that is not an object, or content that is not a string, makes
      .get or .strip raise (ConversionError). */
  function ReplyContent(body: Json): (r: Result<string>)
    ensures !body.JObject? ==> r == Err(ConversionError)
    ensures body.JObject? && ("message" !in body.fields || !Truthy(body.fields["message"])) ==> r == Ok("")
    ensures body.JObject? && "message" in body.fields && Truthy(body.fields["message"]) ==>
      var m := body.fields["message"];
      && (!m.JObject? ==> r == Err(ConversionError))
      && (m.JObject? && "content" !in m.fields ==> r == Ok(""))
      && (m.JObject? && "content" in m.fields && m.fields["content"].JStr? ==> r == Ok(m.fields["content"].text))
      && (m.JObject? && "content" in m.fields && !m.fields["content"].JStr? ==> r == Err(ConversionError))
    ensures r.Ok? && r.value != "" ==>
      body.JObject? && "message" in body.fields && body.fields["message"].JObject? &&
      "content" in body.fields["message"].fields && body.fields["message"].fields["content"] == JStr(r.value)
  {
    if !body.JObject? then Err(ConversionError)
    else
      var message := Get(body.fields, "message", JNull);
      var m := if Truthy(message) then message else JObject(map[]);
      if !m.JObject? then Err(ConversionError)
      else
        match Get(m.fields, "content", JStr(""))
        case JStr(c) => Ok(c)
        case _ => Err(ConversionError)
  }

  /** score_with_ollama: unscored steps get the not-scored record without any call; for the two
      scored steps a failed call or a malformed reply propagates, content that does not decode
      (the decoder is the parameter parseJson) gives the fallback record, and decoded content
      is returned unchanged. */
  function ScoreWithOllama(stepId: string, question: string, answer: string,
                           reply: ChatReply, parseJson: string -> Option<Json>): (r: Result<Json>)
    ensures !IsScoredStep(stepId) ==> r == Ok(NotScored())
    ensures IsScoredStep(stepId) && reply.ChatFailed? ==> r == Err(TransportError(reply.reason))
    ensures IsScoredStep(stepId) && reply.ChatOk? ==>
      match ReplyContent(reply.body)
      case Err(e) => r == Err(e)
      case Ok(c) => r == Ok(parseJson(Strip(c)).GetOr(InvalidJsonFallback()))
  {
    if !IsScoredStep(stepId) then Ok(NotScored())
    else
      match reply
      case ChatFailed(reason) => Err(TransportError(reason))
      case ChatOk(body) =>
        match ReplyContent(body)
        case Err(e) => Err(e)
        case Ok(content) =>
          match parseJson(Strip(content))
          case None => Ok(InvalidJsonFallback())
          case Some(out) => Ok(out)
  }

  /** An unscored step never depends on the reply or the decoder: the call is not made. */
  lemma UnscoredIgnoresReply(stepId: string, question: string, answer: string,
                             reply1: ChatReply, parse1: string -> Option<Json>,
                             reply2: ChatReply, parse2: string -> Option<Json>)
    requires !IsScoredStep(stepId)
    ensures ScoreWithOllama(stepId, question, answer, reply1, parse1)
         == ScoreWithOllama(stepId, question, answer, reply2, parse2)
  {
  }

  /** What any decoder the adapter is given must do with empty content, as json.loads("")
      does: fail, since the empty text is not a JSON document. */
  predicate RejectsEmpty(parseJson: string -> Option<Json>) {
    parseJson("") == None
  }

  /** A reply with no message, an empty message or empty content gives the fallback record,
      whose score is None and whose max_score is 3. */
  lemma MissingContentFallsBack(stepId: string, question: string, answer: string,
                                body: Json, parseJson: string -> Option<Json>)
    requires IsScoredStep(stepId) && RejectsEmpty(parseJson)
    requires body.JObject? && ReplyContent(body) == Ok("")
    ensures ScoreWithOllama(stepId, question, answer, ChatOk(body), parseJson) == Ok(InvalidJsonFallback())
  {
    assert Strip("") == "";
  }

  /** Whatever the decoded content holds is passed on unchanged: a score of 5 out of 3 is not
      clamped, and a record without the expected fields is not rejected. */
  lemma ScoreIsNotClamped(stepId: string, question: string, answer: string,
                          content: string, parseJson: string -> Option<Json>)
    requires IsScoredStep(stepId)
    requires parseJson(Strip(content)) == Some(JObject(map["score" := JInt(5), "max_score" := JInt(MaxScore)]))
    ensures var body := JObject(map["message" := JObject(map["content" := JStr(content)])]);
      ScoreWithOllama(stepId, question, answer, ChatOk(body), parseJson)
        == Ok(JObject(map["score" := JInt(5), "max_score" := JInt(MaxScore)]))
  {
    var body := JObject(map["message" := JObject(map["content" := JStr(content)])]);
    assert "content" in body.fields["message"].fields;
    assert Truthy(body.fields["message"]);
    assert ReplyContent(body) == Ok(content);
  }
}
