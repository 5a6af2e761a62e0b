// One answer of the interview: the turn state machine behind POST
// /sessions/{id}/answer_audio. AnswerOutcome says what one call writes and returns;
// HandleAnswerAudio performs those effects in the order the pipeline does.

module Interview {
  import opened Wrappers
  import opened Text
  import opened Decimal
  import opened Json
  import opened SessionStore
  import opened DbRepo
  import opened Protocols
  import opened LlmOllama
  import opened PathNames
  import opened SessionBootstrap

  const NotFoundDetail := "Session not found. Create session first."
  const AlreadyCompletedMessage := "Session already completed."
  const NoMoreStepsMessage := "No more steps."
  /** The closing remark, character for character as the source file holds it: the "è" of
      "è terminato" is stored as the two characters U+00C3 U+00A8. */
  const ClosingRemark := "Grazie. Il test \U{C3}\U{A8} terminato."
  const DefaultSuffix := ".bin"

  /** The uploaded file: its client-side name (None when the client sent none) and its bytes. */
  datatype Upload = Upload(filename: Option<string>, bytes: seq<bv8>)

  /** What the speech recogniser did: raised (with the exception's text), or wrote the
      transcript file at transcriptPath whose content is text. */
  datatype AsrOutcome = AsrFailed(message: string) | AsrDone(transcriptPath: string, text: string)

  /** The dicts the call returns: the two early "completed" answers, and a processed turn. */
  datatype Response =
    | Closed(sessionId: string, message: string)
    | Answered(sessionId: string, protocol: string, stepAnswered: string, transcript: string,
               completed: bool, nextQuestion: Option<string>, systemText: string,
               replyAudioUrl: Option<string>, llmScore: Json)

  /** The effects of one call: the state written to state.json (if any), the files written in
      the session directory, the turn appended to turns.json (if any), the messages added, and
      the result or the exception. */
  datatype TurnOutcome = TurnOutcome(
    savedState: Option<SessionState>,
    writtenFiles: map<string, FileContent>,
    turn: Option<Turn>,
    messages: seq<NewMessage>,
    response: Result<Response>)

  /** A call that writes nothing. */
  function Stop(response: Result<Response>): (o: TurnOutcome)
    ensures o.savedState.None? && o.writtenFiles == map[] && o.turn.None? && o.messages == []
    ensures o.response == response
  {
    TurnOutcome(None, map[], None, [], response)
  }

  /** s[i] on a Python list: negative indices count from the end. */
  function PyIndex<T>(s: seq<T>, i: int): (r: Result<T>)
    ensures 0 <= i < |s| ==> r == Ok(s[i])
    ensures -|s| <= i < 0 ==> r == Ok(s[|s| + i])
    ensures r.Err? <==> i < -|s| || |s| <= i
    ensures r.Err? ==> r.error == IndexError
  {
    if 0 <= i < |s| then Ok(s[i])
    else if -|s| <= i < 0 then Ok(s[|s| + i])
    else Err(IndexError)
  }

  /** Path(filename).suffix.lower() or ".bin". */
  function UploadSuffix(filename: string): (r: string)
    ensures Suffix(Name(filename)) == "" ==> r == DefaultSuffix
    ensures Suffix(Name(filename)) != "" ==> r == Lower(Suffix(Name(filename)))
    ensures |r| >= 2 && r[0] == '.' && HasNoUpper(r)
    ensures forall i :: 0 <= i < |r| ==> r[i] != '/'
  {
    var x := Suffix(Name(filename));
    if x == "" then DefaultSuffix
    else
      SuffixHasNoSlash(filename);
      Lower(x)
  }

  lemma SuffixHasNoSlash(filename: string)
    ensures var x := Suffix(Name(filename));
      forall i :: 0 <= i < |x| ==> x[i] != '/' && Lower(x)[i] != '/'
  {
    var n := Name(filename);
    var x := Suffix(n);
    var l := Lower(x);
    forall i | 0 <= i < |x| ensures x[i] != '/' && l[i] != '/' {
      assert x[i] == n[|n| - |x| + i];
      assert n[|n| - |x| + i] in n;
      if 'A' <= x[i] <= 'Z' {
        assert l[i] as int == x[i] as int + 32;
      } else {
        assert l[i] == x[i];
      }
    }
  }

  /** The name of the stored upload: step{NN}_{step id}{suffix}. It shares its stem with the
      step's output directory and ends with the upload's suffix. */
  function InputName(stepNumber: int, stepId: string, filename: string): (r: string)
    ensures "out/" + r == StepOut(stepNumber, stepId) + UploadSuffix(filename)
    ensures |r| >= |UploadSuffix(filename)| && r[|r| - |UploadSuffix(filename)|..] == UploadSuffix(filename)
  {
    var tail := Pad2(stepNumber) + "_" + stepId;
    var x := UploadSuffix(filename);
    StemShared(tail, x);
    "step" + tail + x
  }

  lemma StemShared(tail: string, x: string)
    ensures "out/" + ("step" + tail + x) == "out/step" + tail + x
    ensures |"step" + tail + x| >= |x| && ("step" + tail + x)[|"step" + tail + x| - |x|..] == x
  {
    assert "out/" + "step" == "out/step";
  }

  /** The directory the recogniser and the scorer write into: out/step{NN}_{step id}. */
  function StepOut(stepNumber: int, stepId: string): (r: string)
    ensures |r| > 4 && r[..4] == "out/"
  {
    "out/step" + (Pad2(stepNumber) + "_" + stepId)
  }

  /** The public URL of the stored upload: it ends with the upload's path in the session
      directory. */
  function UserAudioUrl(sessionId: string, inputName: string): (url: string)
    ensures |url| == 7 + |sessionId| + 5 + |inputName|
    ensures url[..7 + |sessionId|] == "/files/" + sessionId
    ensures url[7 + |sessionId|..] == "/raw/" + inputName
  {
    "/files/" + sessionId + "/raw/" + inputName
  }

  /** What one call does with the session whose state.json reads as loaded (its directory
      exists), the prompt table, the recogniser's outcome, the scorer's reply, the JSON
      decoder and the clock reading. */
  function AnswerOutcome(sessionId: string, upload: Upload, language: string, loaded: Result<SessionState>,
                         prompts: seq<PromptRow>, asr: AsrOutcome, reply: ChatReply,
                         parseJson: string -> Option<Json>, now: string): (o: TurnOutcome)
    ensures loaded.Err? ==> o == Stop(Err(loaded.error))
    ensures o.turn.Some? ==>
      && loaded.Ok? && o.savedState.Some?
      && o.turn.value.stepIndex == loaded.value.currentStep
      && o.savedState.value.currentStep == loaded.value.currentStep + 1
    ensures o.savedState.Some? ==>
      && loaded.Ok? && !loaded.value.completed
      && o.savedState.value.protocol == loaded.value.protocol
      && var found := GetProtocolSteps(loaded.value.protocol, language, prompts);
         found.Ok? && (o.savedState.value.completed <==> o.savedState.value.currentStep >= |found.value|)
  {
    if loaded.Err? then Stop(Err(loaded.error))
    else
      var state := loaded.value;
      if state.completed then Stop(Ok(Closed(sessionId, AlreadyCompletedMessage)))
      else
        match GetProtocolSteps(state.protocol, language, prompts)
        case Err(e) => Stop(Err(e))
        case Ok(steps) =>
          PickStep(sessionId, upload, language, state, steps, prompts, asr, reply, parseJson, now)
  }

  /** Once the steps are known: close a session that is past its last step, otherwise answer
      the current one. */
  function PickStep(sessionId: string, upload: Upload, language: string, state: SessionState, steps: seq<Step>,
                    prompts: seq<PromptRow>, asr: AsrOutcome, reply: ChatReply,
                    parseJson: string -> Option<Json>, now: string): (o: TurnOutcome)
    ensures o.turn.Some? ==>
      && -|steps| <= state.currentStep < |steps|
      && o.savedState == Some(Advance(state, |steps|))
      && o.turn.value.stepIndex == state.currentStep
    ensures o.savedState.Some? ==>
      && o.savedState.value.protocol == state.protocol
      && (!state.completed ==> (o.savedState.value.completed <==> o.savedState.value.currentStep >= |steps|))
    ensures o.turn.None? ==> o.messages == []
  {
    if state.currentStep >= |steps| then
      TurnOutcome(Some(state.(completed := true)), map[], None, [], Ok(Closed(sessionId, NoMoreStepsMessage)))
    else
      match PyIndex(steps, state.currentStep)
      case Err(e) => Stop(Err(e))
      case Ok(step) => RunTurn(sessionId, upload, language, state, |steps|, step, prompts, asr, reply, parseJson, now)
  }

  /** Steps 1 to 3 of a turn, once the step to answer is known: store the upload, transcribe,
      score. */
  function RunTurn(sessionId: string, upload: Upload, language: string, state: SessionState, stepCount: nat,
                   step: Step, prompts: seq<PromptRow>, asr: AsrOutcome, reply: ChatReply,
                   parseJson: string -> Option<Json>, now: string): (o: TurnOutcome)
    ensures upload.filename.None? ==> o == Stop(Err(MissingFilename))
    ensures o.turn.Some? <==>
      upload.filename.Some? && asr.AsrDone? && ScoreWithOllama(step.stepId, step.question, Strip(asr.text), reply, parseJson).Ok?
    ensures o.turn.Some? ==>
      && o.savedState == Some(Advance(state, stepCount))
      && o.turn.value.stepIndex == state.currentStep
      && o.turn.value.stepId == step.stepId && o.turn.value.question == step.question
    ensures o.turn.None? ==> o.savedState.None? && o.messages == []
  {
    if upload.filename.None? then Stop(Err(MissingFilename))
    else
      var inputName := InputName(state.currentStep, step.stepId, upload.filename.value);
      var audio := map["raw/" + inputName := AudioFile(upload.bytes)];
      match asr
      case AsrFailed(message) => TurnOutcome(None, audio, None, [], Err(HttpError(500, message)))
      case AsrDone(transcriptPath, text) =>
        var transcript := Strip(text);
        match ScoreWithOllama(step.stepId, step.question, transcript, reply, parseJson)
        case Err(e) => TurnOutcome(None, audio, None, [], Err(e))
        case Ok(score) =>
          RecordTurn(sessionId, language, state, stepCount, step, prompts, inputName, audio,
                     transcriptPath, transcript, score, now)
  }

  /** Steps 3 to 7 once the score is known: store it, append the turn, advance and save the
      state, resolve the next prompt, add the two messages. */
  function RecordTurn(sessionId: string, language: string, state: SessionState, stepCount: nat, step: Step,
                      prompts: seq<PromptRow>, inputName: string, audio: map<string, FileContent>,
                      transcriptPath: string, transcript: string, score: Json, now: string): (o: TurnOutcome)
    ensures o.savedState == Some(Advance(state, stepCount))
    ensures o.turn.Some? && o.turn.value.stepIndex == state.currentStep && o.turn.value.stepId == step.stepId
    ensures o.turn.value.question == step.question && o.turn.value.transcript == transcript
    ensures o.writtenFiles.Keys == audio.Keys + {ScoreKey(state, step)}
    ensures o.writtenFiles[ScoreKey(state, step)] == ScoreFile(score)
    ensures forall k :: k in audio && k != ScoreKey(state, step) ==> o.writtenFiles[k] == audio[k]
  {
    Conclude(sessionId, language, prompts, inputName, transcript, step, score, Advance(state, stepCount),
             audio[ScoreKey(state, step) := ScoreFile(score)],
             TurnFor(state, step, inputName, transcriptPath, transcript, now))
  }

  /** Where the score record of the current step is written. */
  function ScoreKey(state: SessionState, step: Step): (key: string)
    ensures |key| > 15 && key[|key| - 15..] == "/llm_score.json"
    ensures key[..4] == "out/"
  {
    StepOut(state.currentStep, step.stepId) + "/llm_score.json"
  }

  /** The turn record of the answered step, with the paths of its artifacts. */
  function TurnFor(state: SessionState, step: Step, inputName: string, transcriptPath: string,
                   transcript: string, now: string): (t: Turn)
    ensures t.stepIndex == state.currentStep && t.stepId == step.stepId && t.question == step.question
    ensures t.transcript == transcript && t.artifacts.audioPath == "raw/" + inputName
    ensures t.createdAt == now && t.features == BasicTextFeatures(transcript)
    ensures t.artifacts.transcriptPath == transcriptPath
    ensures t.artifacts.segmentsPath == StepOut(state.currentStep, step.stepId) + "/segments.json"
    ensures t.artifacts.metaPath == StepOut(state.currentStep, step.stepId) + "/meta.json"
  {
    var out := StepOut(state.currentStep, step.stepId);
    MakeTurn(now, state.currentStep, step.stepId, step.question, transcript,
             "raw/" + inputName, transcriptPath, out + "/segments.json", out + "/meta.json")
  }

  /** The state after answering: one step further, and completed once past the last step. */
  function Advance(state: SessionState, stepCount: nat): (next: SessionState)
    ensures next.protocol == state.protocol && next.currentStep == state.currentStep + 1
    ensures next.completed <==> state.completed || state.currentStep + 1 >= stepCount
  {
    var advanced := state.(currentStep := state.currentStep + 1);
    if advanced.currentStep >= stepCount then advanced.(completed := true) else advanced
  }

  /** Steps 5 to 7 once the new state is saved: the next prompt (looked up only when the
      session goes on), the reply text and the two messages. */
  function Conclude(sessionId: string, language: string, prompts: seq<PromptRow>, inputName: string,
                    transcript: string, step: Step, score: Json, next: SessionState,
                    files: map<string, FileContent>, turn: Turn): (o: TurnOutcome)
    ensures o.savedState == Some(next) && o.writtenFiles == files && o.turn == Some(turn)
    ensures o.response.Err? <==> o.messages == []
    ensures o.messages != [] ==>
      && |o.messages| == 2 && o.messages[0].role == "user" && o.messages[1].role == "assistant"
      && o.messages[0].text == transcript
    ensures next.completed ==> o.response.Ok?
  {
    if next.completed then
      Finish(sessionId, inputName, transcript, step, score, next, files, turn, None, None)
    else
      match GetMmsePrompt(prompts, MmseProtocol, language, next.currentStep)
      case Err(e) => TurnOutcome(Some(next), files, Some(turn), [], Err(e))
      case Ok(p) => Finish(sessionId, inputName, transcript, step, score, next, files, turn,
                           Some(p.text), Some(AssetUrl(p.audioRelpath)))
  }

  /** The reply text and the two messages of a completed turn. */
  function Finish(sessionId: string, inputName: string, transcript: string, step: Step, score: Json,
                  next: SessionState, files: map<string, FileContent>, turn: Turn,
                  nextQuestion: Option<string>, nextAudio: Option<string>): (o: TurnOutcome)
    ensures o.savedState == Some(next) && o.writtenFiles == files && o.turn == Some(turn)
    ensures |o.messages| == 2 && o.messages[0].role == "user" && o.messages[1].role == "assistant"
    ensures o.messages[0].text == transcript && o.messages[1].text != ""
    ensures o.response.Ok? && o.response.value.Answered? && o.response.value.completed == next.completed
    ensures o.response.value.systemText == o.messages[1].text
    ensures o.response.value.replyAudioUrl == o.messages[1].audioUrl
    ensures nextQuestion.Some? && nextQuestion.value != "" ==> o.messages[1].text == nextQuestion.value
  {
    var systemText := if nextQuestion.Some? && nextQuestion.value != "" then nextQuestion.value else ClosingRemark;
    var messages := [NewMessage("user", transcript, Some(UserAudioUrl(sessionId, inputName))),
                     NewMessage("assistant", systemText, nextAudio)];
    TurnOutcome(Some(next), files, Some(turn), messages,
                Ok(Answered(sessionId, next.protocol, step.stepId, transcript, next.completed,
                            nextQuestion, systemText, nextAudio, score)))
  }

  /** state.json after the call: rewritten when the call saved a state, untouched otherwise. */
  function StateFileAfter(before: Option<Json>, o: TurnOutcome): Option<Json> {
    if o.savedState.Some? then Some(JObject(ToDict(o.savedState.value))) else before
  }

  function TurnsAfter(before: seq<Turn>, o: TurnOutcome): seq<Turn> {
    if o.turn.Some? then before + [o.turn.value] else before
  }

  /** handle_answer_audio. sessions maps each existing session id to its directory. */
  method HandleAnswerAudio(sessionId: string, upload: Upload, language: string,
                           sessions: map<string, SessionDir>, db: Database,
                           asr: AsrOutcome, reply: ChatReply, parseJson: string -> Option<Json>, now: string)
    returns (r: Result<Response>)
    requires db.Valid()
    modifies db, if sessionId in sessions then {sessions[sessionId]} else {}
    ensures db.Valid() && db.sessions == old(db.sessions)
    ensures sessionId !in sessions ==> r == Err(HttpError(404, NotFoundDetail)) && db.messages == old(db.messages)
    ensures sessionId in sessions ==>
      var dir := sessions[sessionId];
      var o := AnswerOutcome(sessionId, upload, language, old(dir.LoadState()), db.prompts, asr, reply, parseJson, now);
      && r == o.response
      && dir.stateFile == StateFileAfter(old(dir.stateFile), o)
      && dir.LoadTurns() == TurnsAfter(old(dir.LoadTurns()), o)
      && dir.files == old(dir.files) + o.writtenFiles
      && db.messages == Appended(old(db.messages), sessionId, o.messages, now)
  {
    if sessionId !in sessions {
      return Err(HttpError(404, NotFoundDetail));
    }
    var dir := sessions[sessionId];
    var loaded := dir.LoadState();
    if loaded.Err? {
      return Err(loaded.error);
    }
    var state := loaded.value;
    if state.completed {
      return Ok(Closed(sessionId, AlreadyCompletedMessage));
    }
    var found := GetProtocolSteps(state.protocol, language, db.prompts);
    if found.Err? {
      return Err(found.error);
    }
    r := PickAndAnswer(sessionId, upload, language, dir, db, state, found.value, asr, reply, parseJson, now);
  }

  /** The rest of handle_answer_audio once the steps of the protocol are known. */
  method PickAndAnswer(sessionId: string, upload: Upload, language: string, dir: SessionDir, db: Database,
                       state: SessionState, steps: seq<Step>,
                       asr: AsrOutcome, reply: ChatReply, parseJson: string -> Option<Json>, now: string)
    returns (r: Result<Response>)
    requires db.Valid()
    modifies db, dir
    ensures db.Valid() && db.sessions == old(db.sessions)
    ensures var o := PickStep(sessionId, upload, language, state, steps, db.prompts, asr, reply, parseJson, now);
      && r == o.response
      && dir.stateFile == StateFileAfter(old(dir.stateFile), o)
      && dir.LoadTurns() == TurnsAfter(old(dir.LoadTurns()), o)
      && dir.files == old(dir.files) + o.writtenFiles
      && db.messages == Appended(old(db.messages), sessionId, o.messages, now)
  {
    if state.currentStep >= |steps| {
      dir.SaveState(state.(completed := true));
      return Ok(Closed(sessionId, NoMoreStepsMessage));
    }
    var picked := PyIndex(steps, state.currentStep);
    if picked.Err? {
      return Err(picked.error);
    }
    r := AnswerStep(sessionId, upload, language, dir, db, state, |steps|, picked.value, asr, reply, parseJson, now);
  }

  /** Steps 1 to 3 of handle_answer_audio on the session directory dir. */
  method AnswerStep(sessionId: string, upload: Upload, language: string, dir: SessionDir, db: Database,
                    state: SessionState, stepCount: nat, step: Step,
                    asr: AsrOutcome, reply: ChatReply, parseJson: string -> Option<Json>, now: string)
    returns (r: Result<Response>)
    requires db.Valid()
    modifies db, dir
    ensures db.Valid() && db.sessions == old(db.sessions)
    ensures var o := RunTurn(sessionId, upload, language, state, stepCount, step, db.prompts, asr, reply, parseJson, now);
      && r == o.response
      && dir.stateFile == StateFileAfter(old(dir.stateFile), o)
      && dir.LoadTurns() == TurnsAfter(old(dir.LoadTurns()), o)
      && dir.files == old(dir.files) + o.writtenFiles
      && db.messages == Appended(old(db.messages), sessionId, o.messages, now)
  {
    // 1) store the upload
    if upload.filename.None? {
      return Err(MissingFilename);
    }
    var inputName := InputName(state.currentStep, step.stepId, upload.filename.value);
    ghost var audio := map["raw/" + inputName := AudioFile(upload.bytes)];
    dir.WriteFile("raw/" + inputName, AudioFile(upload.bytes));
    MergeSingleton(old(dir.files), "raw/" + inputName, AudioFile(upload.bytes));
    // 2) transcribe
    if asr.AsrFailed? {
      return Err(HttpError(500, asr.message));
    }
    var transcript := Strip(asr.text);
    // 3) score
    var scored := ScoreWithOllama(step.stepId, step.question, transcript, reply, parseJson);
    if scored.Err? {
      return Err(scored.error);
    }
    r := RecordStep(sessionId, language, dir, db, state, stepCount, step, inputName, audio,
                    asr.transcriptPath, transcript, scored.value, now);
    MergeUpdate(old(dir.files), audio, ScoreKey(state, step), ScoreFile(scored.value));
  }

  /** Steps 3 to 7 of handle_answer_audio, once the score is known. */
  method RecordStep(sessionId: string, language: string, dir: SessionDir, db: Database,
                    state: SessionState, stepCount: nat, step: Step, inputName: string,
                    ghost audio: map<string, FileContent>,
                    transcriptPath: string, transcript: string, llmScore: Json, now: string)
    returns (r: Result<Response>)
    requires db.Valid()
    modifies db, dir
    ensures db.Valid() && db.sessions == old(db.sessions)
    ensures var o := RecordTurn(sessionId, language, state, stepCount, step, db.prompts, inputName, audio,
                                transcriptPath, transcript, llmScore, now);
      && r == o.response
      && o.writtenFiles == audio[ScoreKey(state, step) := ScoreFile(llmScore)]
      && dir.stateFile == StateFileAfter(old(dir.stateFile), o)
      && dir.LoadTurns() == TurnsAfter(old(dir.LoadTurns()), o)
      && dir.files == old(dir.files)[ScoreKey(state, step) := ScoreFile(llmScore)]
      && db.messages == Appended(old(db.messages), sessionId, o.messages, now)
  {
    dir.WriteFile(ScoreKey(state, step), ScoreFile(llmScore));
    // 4) append the turn
    var turn := TurnFor(state, step, inputName, transcriptPath, transcript, now);
    dir.AppendTurn(turn);
    // 5) advance the state
    var next := Advance(state, stepCount);
    dir.SaveState(next);
    r := ConcludeStep(sessionId, language, db, inputName, transcript, step, llmScore, next,
                      audio[ScoreKey(state, step) := ScoreFile(llmScore)], turn, now);
  }

  /** Steps 5 to 7 of handle_answer_audio, once the new state is saved. */
  method ConcludeStep(sessionId: string, language: string, db: Database, inputName: string,
                      transcript: string, step: Step, llmScore: Json, next: SessionState,
                      ghost files: map<string, FileContent>, ghost turn: Turn, now: string)
    returns (r: Result<Response>)
    requires db.Valid()
    modifies db
    ensures db.Valid() && db.sessions == old(db.sessions)
    ensures var o := Conclude(sessionId, language, db.prompts, inputName, transcript, step, llmScore, next, files, turn);
      && r == o.response
      && db.messages == Appended(old(db.messages), sessionId, o.messages, now)
  {
    var nextQuestion: Option<string> := None;
    var nextAudioUrl: Option<string> := None;
    if !next.completed {
      var nxt := GetMmsePrompt(db.prompts, MmseProtocol, language, next.currentStep);
      if nxt.Err? {
        return Err(nxt.error);
      }
      nextQuestion := Some(nxt.value.text);
      nextAudioUrl := Some(AssetUrl(nxt.value.audioRelpath));
    }
    // 6) the reply text; its recording is the prompt's own
    var systemText := if nextQuestion.Some? && nextQuestion.value != "" then nextQuestion.value else ClosingRemark;
    // 7) the two messages
    ghost var before := db.messages;
    db.AddMessage(sessionId, "user", transcript, Some(UserAudioUrl(sessionId, inputName)), now);
    db.AddMessage(sessionId, "assistant", systemText, nextAudioUrl, now);
    AppendedTwice(before, sessionId, NewMessage("user", transcript, Some(UserAudioUrl(sessionId, inputName))),
                  NewMessage("assistant", systemText, nextAudioUrl), now);
    r := Ok(Answered(sessionId, next.protocol, step.stepId, transcript, next.completed,
                     nextQuestion, systemText, nextAudioUrl, llmScore));
  }

  lemma MergeSingleton<K, V>(m: map<K, V>, k: K, v: V)
    ensures m + map[k := v] == m[k := v]
  {
  }

  lemma MergeUpdate<K, V>(m: map<K, V>, a: map<K, V>, k: K, v: V)
    ensures m + a[k := v] == (m + a)[k := v]
  {
  }
}
