// What one answer does, stated over AnswerOutcome: the four kinds of call, the stored upload,
// the failures that stop a turn, the advance of the step and the turn log, the reply, and the
// fact that no step of the catalogue is ever sent to the scorer.

module InterviewProperties {
  import opened Wrappers
  import opened Text
  import opened Decimal
  import opened Json
  import opened SessionStore
  import opened DbRepo
  import opened Protocols
  import opened LlmOllama
  import opened SessionBootstrap
  import opened Interview

  /** A session already completed is answered at once: nothing is saved, stored, logged or
      posted, and the outcome does not depend on the prompt table, so no step is looked up. */
  lemma CompletedIsNoOp(sessionId: string, upload: Upload, language: string, s: SessionState,
                        prompts: seq<PromptRow>, asr: AsrOutcome, reply: ChatReply,
                        parseJson: string -> Option<Json>, now: string)
    requires s.completed
    ensures AnswerOutcome(sessionId, upload, language, Ok(s), prompts, asr, reply, parseJson, now)
         == Stop(Ok(Closed(sessionId, AlreadyCompletedMessage)))
  {
  }

  /** Past the last step the session is marked completed and saved, and nothing else is done. */
  lemma ExhaustedMarksCompleted(sessionId: string, upload: Upload, language: string, s: SessionState,
                                prompts: seq<PromptRow>, asr: AsrOutcome, reply: ChatReply,
                                parseJson: string -> Option<Json>, now: string, steps: seq<Step>)
    requires !s.completed && GetProtocolSteps(s.protocol, language, prompts) == Ok(steps)
    requires s.currentStep >= |steps|
    ensures var o := AnswerOutcome(sessionId, upload, language, Ok(s), prompts, asr, reply, parseJson, now);
      && o.savedState == Some(s.(completed := true))
      && o.writtenFiles == map[] && o.turn.None? && o.messages == []
      && o.response == Ok(Closed(sessionId, NoMoreStepsMessage))
  {
  }

  /** The situation in which a turn is run: the session goes on and its current step exists. */
  predicate TurnCase(s: SessionState, language: string, prompts: seq<PromptRow>, steps: seq<Step>) {
    && !s.completed
    && GetProtocolSteps(s.protocol, language, prompts) == Ok(steps)
    && 0 <= s.currentStep < |steps|
  }

  /** In a turn, the outcome is the one of the pipeline run on the current step. */
  lemma TurnRuns(sessionId: string, upload: Upload, language: string, s: SessionState,
                 prompts: seq<PromptRow>, asr: AsrOutcome, reply: ChatReply,
                 parseJson: string -> Option<Json>, now: string, steps: seq<Step>)
    requires TurnCase(s, language, prompts, steps)
    ensures AnswerOutcome(sessionId, upload, language, Ok(s), prompts, asr, reply, parseJson, now)
         == RunTurn(sessionId, upload, language, s, |steps|, steps[s.currentStep], prompts, asr, reply, parseJson, now)
  {
  }

  /** The path of the stored upload, relative to the session directory. */
  function CapturePath(s: SessionState, step: Step, filename: string): (path: string)
    ensures |path| > 4 && path[..4] == "raw/" && path[4..] == InputName(s.currentStep, step.stepId, filename)
  {
    "raw/" + InputName(s.currentStep, step.stepId, filename)
  }

  /** Whatever happens after the upload is stored, the stored file is the uploaded bytes at
      the capture path; without a file name nothing at all is written. */
  lemma UploadIsCaptured(sessionId: string, upload: Upload, language: string, s: SessionState,
                         prompts: seq<PromptRow>, asr: AsrOutcome, reply: ChatReply,
                         parseJson: string -> Option<Json>, now: string, steps: seq<Step>)
    requires TurnCase(s, language, prompts, steps)
    ensures var o := AnswerOutcome(sessionId, upload, language, Ok(s), prompts, asr, reply, parseJson, now);
      && (upload.filename.None? ==> o == Stop(Err(MissingFilename)))
      && (upload.filename.Some? ==>
            var path := CapturePath(s, steps[s.currentStep], upload.filename.value);
            path in o.writtenFiles && o.writtenFiles[path] == AudioFile(upload.bytes))
  {
    TurnRuns(sessionId, upload, language, s, prompts, asr, reply, parseJson, now, steps);
    if upload.filename.Some? {
      RunTurnCaptures(sessionId, upload, language, s, |steps|, steps[s.currentStep], prompts, asr, reply, parseJson, now);
    }
  }

  lemma RunTurnCaptures(sessionId: string, upload: Upload, language: string, s: SessionState, stepCount: nat,
                        step: Step, prompts: seq<PromptRow>, asr: AsrOutcome, reply: ChatReply,
                        parseJson: string -> Option<Json>, now: string)
    requires upload.filename.Some?
    ensures var o := RunTurn(sessionId, upload, language, s, stepCount, step, prompts, asr, reply, parseJson, now);
      var path := CapturePath(s, step, upload.filename.value);
      path in o.writtenFiles && o.writtenFiles[path] == AudioFile(upload.bytes)
  {
    var path := CapturePath(s, step, upload.filename.value);
    if asr.AsrDone? {
      var scored := ScoreWithOllama(step.stepId, step.question, Strip(asr.text), reply, parseJson);
      if scored.Ok? {
        RunTurnRecords(sessionId, upload, language, s, stepCount, step, prompts, asr.transcriptPath, asr.text,
                       reply, parseJson, now, scored.value);
        var key := ScoreKey(s, step);
        assert key[0] == 'o' && path[0] == 'r';
      }
    }
  }

  /** A failed transcription raises a server error carrying the recogniser's message; the
      state, the turn log and the messages are untouched and only the upload is stored. */
  lemma AsrFailureKeepsState(sessionId: string, upload: Upload, language: string, s: SessionState,
                             prompts: seq<PromptRow>, message: string, reply: ChatReply,
                             parseJson: string -> Option<Json>, now: string, steps: seq<Step>)
    requires TurnCase(s, language, prompts, steps) && upload.filename.Some?
    ensures AnswerOutcome(sessionId, upload, language, Ok(s), prompts, AsrFailed(message), reply, parseJson, now)
         == TurnOutcome(None, map[CapturePath(s, steps[s.currentStep], upload.filename.value) := AudioFile(upload.bytes)],
                        None, [], Err(HttpError(500, message)))
  {
    TurnRuns(sessionId, upload, language, s, prompts, AsrFailed(message), reply, parseJson, now, steps);
  }

  /** A scorer failure is not caught: on a step the scorer does score, it propagates before the
      score, the turn or the state is written, leaving only the upload stored. (No step of the
      catalogue is scored, see TurnsAreNeverScored, so handle_answer_audio never takes this
      path today; it is stated over the turn pipeline run on any step.) */
  lemma ScoringFailureKeepsState(sessionId: string, upload: Upload, language: string, s: SessionState,
                                 stepCount: nat, step: Step, prompts: seq<PromptRow>, transcriptPath: string,
                                 text: string, reply: ChatReply, parseJson: string -> Option<Json>, now: string,
                                 e: Error)
    requires upload.filename.Some?
    requires ScoreWithOllama(step.stepId, step.question, Strip(text), reply, parseJson) == Err(e)
    ensures RunTurn(sessionId, upload, language, s, stepCount, step, prompts, AsrDone(transcriptPath, text), reply, parseJson, now)
         == TurnOutcome(None, map[CapturePath(s, step, upload.filename.value) := AudioFile(upload.bytes)],
                        None, [], Err(e))
  {
  }

  /** Such a step exists: a transport failure on "recall_3_words" propagates. */
  lemma ScoredStepCanFail(question: string, answer: string, reason: string, parseJson: string -> Option<Json>)
    ensures IsScoredStep("recall_3_words")
    ensures ScoreWithOllama("recall_3_words", question, answer, ChatFailed(reason), parseJson) == Err(TransportError(reason))
  {
  }

  /** A scored turn, once transcribed: what RecordTurn computes from the advanced state, the
      two stored files and the turn record. */
  lemma TurnRecords(sessionId: string, upload: Upload, language: string, s: SessionState,
                    prompts: seq<PromptRow>, transcriptPath: string, text: string, reply: ChatReply,
                    parseJson: string -> Option<Json>, now: string, steps: seq<Step>, score: Json)
    requires TurnCase(s, language, prompts, steps) && upload.filename.Some?
    requires ScoreWithOllama(steps[s.currentStep].stepId, steps[s.currentStep].question, Strip(text), reply, parseJson) == Ok(score)
    ensures var step := steps[s.currentStep];
      var inputName := InputName(s.currentStep, step.stepId, upload.filename.value);
      AnswerOutcome(sessionId, upload, language, Ok(s), prompts, AsrDone(transcriptPath, text), reply, parseJson, now)
        == Conclude(sessionId, language, prompts, inputName, Strip(text), step, score, Advance(s, |steps|),
                    map["raw/" + inputName := AudioFile(upload.bytes)][ScoreKey(s, step) := ScoreFile(score)],
                    TurnFor(s, step, inputName, transcriptPath, Strip(text), now))
  {
    TurnRuns(sessionId, upload, language, s, prompts, AsrDone(transcriptPath, text), reply, parseJson, now, steps);
    RunTurnRecords(sessionId, upload, language, s, |steps|, steps[s.currentStep], prompts, transcriptPath, text,
                   reply, parseJson, now, score);
  }

  lemma RunTurnRecords(sessionId: string, upload: Upload, language: string, s: SessionState, stepCount: nat,
                       step: Step, prompts: seq<PromptRow>, transcriptPath: string, text: string, reply: ChatReply,
                       parseJson: string -> Option<Json>, now: string, score: Json)
    requires upload.filename.Some?
    requires ScoreWithOllama(step.stepId, step.question, Strip(text), reply, parseJson) == Ok(score)
    ensures var inputName := InputName(s.currentStep, step.stepId, upload.filename.value);
      RunTurn(sessionId, upload, language, s, stepCount, step, prompts, AsrDone(transcriptPath, text), reply, parseJson, now)
        == Conclude(sessionId, language, prompts, inputName, Strip(text), step, score, Advance(s, stepCount),
                    map["raw/" + inputName := AudioFile(upload.bytes)][ScoreKey(s, step) := ScoreFile(score)],
                    TurnFor(s, step, inputName, transcriptPath, Strip(text), now))
  {
  }

  /** A scored turn appends one turn for the step just answered (its index is the old current
      step), stores the score next to the upload, and saves the state one step further, completed
      exactly when the new step reaches the number of steps. */
  lemma TurnAdvances(sessionId: string, upload: Upload, language: string, s: SessionState,
                     prompts: seq<PromptRow>, transcriptPath: string, text: string, reply: ChatReply,
                     parseJson: string -> Option<Json>, now: string, steps: seq<Step>, score: Json)
    requires TurnCase(s, language, prompts, steps) && upload.filename.Some?
    requires ScoreWithOllama(steps[s.currentStep].stepId, steps[s.currentStep].question, Strip(text), reply, parseJson) == Ok(score)
    ensures var o := AnswerOutcome(sessionId, upload, language, Ok(s), prompts, AsrDone(transcriptPath, text), reply, parseJson, now);
      var step := steps[s.currentStep];
      && o.savedState.Some?
      && o.savedState.value.protocol == s.protocol
      && o.savedState.value.currentStep == s.currentStep + 1
      && (o.savedState.value.completed <==> s.currentStep + 1 >= |steps|)
      && o.turn.Some?
      && o.turn.value.stepIndex == s.currentStep && o.turn.value.stepId == step.stepId
      && o.turn.value.question == step.question && o.turn.value.transcript == Strip(text)
      && o.turn.value.artifacts.audioPath == CapturePath(s, step, upload.filename.value)
      && o.writtenFiles == map[CapturePath(s, step, upload.filename.value) := AudioFile(upload.bytes),
                               ScoreKey(s, step) := ScoreFile(score)]
  {
    TurnRecords(sessionId, upload, language, s, prompts, transcriptPath, text, reply, parseJson, now, steps, score);
  }

  /** The last step closes the session: no next question, the closing remark as system text
      and no reply recording; two messages are posted, the user's transcript with the URL of
      the upload, then the closing remark. */
  lemma LastTurnCloses(sessionId: string, upload: Upload, language: string, s: SessionState,
                       prompts: seq<PromptRow>, transcriptPath: string, text: string, reply: ChatReply,
                       parseJson: string -> Option<Json>, now: string, steps: seq<Step>, score: Json)
    requires TurnCase(s, language, prompts, steps) && upload.filename.Some?
    requires ScoreWithOllama(steps[s.currentStep].stepId, steps[s.currentStep].question, Strip(text), reply, parseJson) == Ok(score)
    requires s.currentStep + 1 >= |steps|
    ensures var o := AnswerOutcome(sessionId, upload, language, Ok(s), prompts, AsrDone(transcriptPath, text), reply, parseJson, now);
      var step := steps[s.currentStep];
      var inputName := InputName(s.currentStep, step.stepId, upload.filename.value);
      && o.response == Ok(Answered(sessionId, MmseProtocol, step.stepId, Strip(text), true, None, ClosingRemark, None, score))
      && o.messages == [NewMessage("user", Strip(text), Some(UserAudioUrl(sessionId, inputName))),
                        NewMessage("assistant", ClosingRemark, None)]
  {
    TurnRecords(sessionId, upload, language, s, prompts, transcriptPath, text, reply, parseJson, now, steps, score);
    var step := steps[s.currentStep];
    var inputName := InputName(s.currentStep, step.stepId, upload.filename.value);
    var next := Advance(s, |steps|);
    var files := map["raw/" + inputName := AudioFile(upload.bytes)][ScoreKey(s, step) := ScoreFile(score)];
    var turn := TurnFor(s, step, inputName, transcriptPath, Strip(text), now);
    assert Conclude(sessionId, language, prompts, inputName, Strip(text), step, score, next, files, turn)
        == Finish(sessionId, inputName, Strip(text), step, score, next, files, turn, None, None);
  }

  /** A turn that does not close the session fetches the prompt of the new step for the
      language as given. A failed lookup propagates after the turn and the state are saved, and
      posts nothing. A found prompt is the next question, its recording is the reply audio, and
      its text (the closing remark if empty) is the system text; two messages are posted, the
      user's transcript with the URL of the upload, then the system text. */
  lemma TurnContinues(sessionId: string, upload: Upload, language: string, s: SessionState,
                      prompts: seq<PromptRow>, transcriptPath: string, text: string, reply: ChatReply,
                      parseJson: string -> Option<Json>, now: string, steps: seq<Step>, score: Json)
    requires TurnCase(s, language, prompts, steps) && upload.filename.Some?
    requires ScoreWithOllama(steps[s.currentStep].stepId, steps[s.currentStep].question, Strip(text), reply, parseJson) == Ok(score)
    requires s.currentStep + 1 < |steps|
    ensures var o := AnswerOutcome(sessionId, upload, language, Ok(s), prompts, AsrDone(transcriptPath, text), reply, parseJson, now);
      var step := steps[s.currentStep];
      var inputName := InputName(s.currentStep, step.stepId, upload.filename.value);
      match GetMmsePrompt(prompts, MmseProtocol, language, s.currentStep + 1)
      case Err(e) => o.response == Err(e) && o.messages == [] && o.savedState.Some? && o.turn.Some?
      case Ok(p) =>
        var systemText := if p.text != "" then p.text else ClosingRemark;
        && o.response == Ok(Answered(sessionId, MmseProtocol, step.stepId, Strip(text), false, Some(p.text),
                                     systemText, Some(AssetUrl(p.audioRelpath)), score))
        && o.messages == [NewMessage("user", Strip(text), Some(UserAudioUrl(sessionId, inputName))),
                          NewMessage("assistant", systemText, Some(AssetUrl(p.audioRelpath)))]
  {
    var step := steps[s.currentStep];
    var inputName := InputName(s.currentStep, step.stepId, upload.filename.value);
    TurnRecords(sessionId, upload, language, s, prompts, transcriptPath, text, reply, parseJson, now, steps, score);
    ConcludeContinues(sessionId, language, prompts, inputName, Strip(text), step, score, Advance(s, |steps|),
                      map["raw/" + inputName := AudioFile(upload.bytes)][ScoreKey(s, step) := ScoreFile(score)],
                      TurnFor(s, step, inputName, transcriptPath, Strip(text), now));
  }

  lemma ConcludeContinues(sessionId: string, language: string, prompts: seq<PromptRow>, inputName: string,
                          transcript: string, step: Step, score: Json, next: SessionState,
                          files: map<string, FileContent>, turn: Turn)
    requires !next.completed && next.protocol == MmseProtocol
    ensures var o := Conclude(sessionId, language, prompts, inputName, transcript, step, score, next, files, turn);
      match GetMmsePrompt(prompts, MmseProtocol, language, next.currentStep)
      case Err(e) => o.response == Err(e) && o.messages == [] && o.savedState.Some? && o.turn.Some?
      case Ok(p) =>
        var systemText := if p.text != "" then p.text else ClosingRemark;
        && o.response == Ok(Answered(sessionId, MmseProtocol, step.stepId, transcript, false, Some(p.text),
                                     systemText, Some(AssetUrl(p.audioRelpath)), score))
        && o.messages == [NewMessage("user", transcript, Some(UserAudioUrl(sessionId, inputName))),
                          NewMessage("assistant", systemText, Some(AssetUrl(p.audioRelpath)))]
  {
  }

  /** The turn log is in step with the state: one turn per answered step, the k-th for step k. */
  predicate TurnLogMatches(s: SessionState, turns: seq<Turn>) {
    |turns| == s.currentStep && forall k :: 0 <= k < |turns| ==> turns[k].stepIndex == k
  }

  /** A new session starts in step with its (empty) turn log. */
  lemma InitialTurnLogMatches()
    ensures TurnLogMatches(InitialState(), [])
  {
  }

  /** Every call keeps the turn log in step with the state it leaves behind (the saved state,
      or the loaded one when nothing is saved). */
  lemma TurnLogStaysInStep(sessionId: string, upload: Upload, language: string, s: SessionState,
                           prompts: seq<PromptRow>, asr: AsrOutcome, reply: ChatReply,
                           parseJson: string -> Option<Json>, now: string, turns: seq<Turn>)
    requires TurnLogMatches(s, turns)
    ensures var o := AnswerOutcome(sessionId, upload, language, Ok(s), prompts, asr, reply, parseJson, now);
      TurnLogMatches(if o.savedState.Some? then o.savedState.value else s, TurnsAfter(turns, o))
  {
    var found := GetProtocolSteps(s.protocol, language, prompts);
    if s.completed {
      CompletedIsNoOp(sessionId, upload, language, s, prompts, asr, reply, parseJson, now);
    } else if found.Err? {
      assert AnswerOutcome(sessionId, upload, language, Ok(s), prompts, asr, reply, parseJson, now) == Stop(Err(found.error));
    } else if s.currentStep >= |found.value| {
      ExhaustedMarksCompleted(sessionId, upload, language, s, prompts, asr, reply, parseJson, now, found.value);
    } else if upload.filename.None? {
      UploadIsCaptured(sessionId, upload, language, s, prompts, asr, reply, parseJson, now, found.value);
    } else if asr.AsrFailed? {
      AsrFailureKeepsState(sessionId, upload, language, s, prompts, asr.message, reply, parseJson, now, found.value);
    } else {
      var steps := found.value;
      TurnsAreNeverScored(steps, s, language, prompts, asr.text, reply, parseJson);
      TurnAdvances(sessionId, upload, language, s, prompts, asr.transcriptPath, asr.text, reply, parseJson, now, steps, NotScored());
      var o := AnswerOutcome(sessionId, upload, language, Ok(s), prompts, asr, reply, parseJson, now);
      AnsweredStepExtendsLog(s, turns, o.turn.value, o.savedState.value);
    }
  }

  /** Appending the turn of the current step while moving one step on keeps the log in step. */
  lemma AnsweredStepExtendsLog(s: SessionState, turns: seq<Turn>, t: Turn, next: SessionState)
    requires TurnLogMatches(s, turns)
    requires t.stepIndex == s.currentStep && next.currentStep == s.currentStep + 1
    ensures TurnLogMatches(next, turns + [t])
  {
    var after := turns + [t];
    forall k | 0 <= k < |after| ensures after[k].stepIndex == k {
      if k < |turns| {
        assert after[k] == turns[k];
      }
    }
  }

  /** A saved state reads back as itself on the next call. */
  lemma SavedStateReloads(before: Option<Json>, o: TurnOutcome)
    requires o.savedState.Some?
    ensures StateFileAfter(before, o).Some? && StateFileAfter(before, o).value.JObject?
    ensures FromDict(StateFileAfter(before, o).value.fields) == Ok(o.savedState.value)
  {
  }

  /** The catalogue's step ids ("mmse_step" and a number) are never one of the two scored ids,
      which begin with "r". */
  lemma CatalogueStepsAreUnscored(protocol: string, lang: string, prompts: seq<PromptRow>, i: int)
    requires GetProtocolSteps(protocol, lang, prompts).Ok?
    requires 0 <= i < |GetProtocolSteps(protocol, lang, prompts).value|
    ensures !IsScoredStep(GetProtocolSteps(protocol, lang, prompts).value[i].stepId)
  {
    var steps := GetProtocolSteps(protocol, lang, prompts).value;
    assert exists p :: p in prompts && p.protocol == MmseProtocol && p.lang == NormalizeLang(lang) && steps[i] == StepOf(p);
    var p :| p in prompts && p.protocol == MmseProtocol && p.lang == NormalizeLang(lang) && steps[i] == StepOf(p);
    var id := StepId(p.step);
    assert id[..9] == "mmse_step";
    assert id[0] == id[..9][0] == 'm';
    var registration, recall := "registration_3_words", "recall_3_words";
    assert registration[0] == 'r' && recall[0] == 'r';
    FirstCharsDiffer(id, registration);
    FirstCharsDiffer(id, recall);
  }

  lemma FirstCharsDiffer(a: string, b: string)
    requires |a| > 0 && |b| > 0 && a[0] != b[0]
    ensures a != b
  {
  }

  /** Hence every turn the pipeline scores gets the not-scored record and no scorer failure can
      stop it: the reply and the decoder never matter. */
  lemma TurnsAreNeverScored(steps: seq<Step>, s: SessionState, language: string, prompts: seq<PromptRow>,
                            text: string, reply: ChatReply, parseJson: string -> Option<Json>)
    requires TurnCase(s, language, prompts, steps)
    ensures ScoreWithOllama(steps[s.currentStep].stepId, steps[s.currentStep].question, Strip(text), reply, parseJson)
         == Ok(NotScored())
  {
    CatalogueStepsAreUnscored(s.protocol, language, prompts, s.currentStep);
  }

  /** When the language is given normalised, the prompt table has unique keys and each
      language's rows are numbered 0, 1, ..., the next question of a turn that does not close
      the session is the question of the next step of the catalogue. */
  lemma NextQuestionIsNextStep(sessionId: string, upload: Upload, language: string, s: SessionState,
                               prompts: seq<PromptRow>, transcriptPath: string, text: string, reply: ChatReply,
                               parseJson: string -> Option<Json>, now: string, steps: seq<Step>)
    requires TurnCase(s, language, prompts, steps) && upload.filename.Some?
    requires UniquePromptKeys(prompts) && language == NormalizeLang(language) && ContiguousSteps(prompts, language)
    requires s.currentStep + 1 < |steps|
    ensures var o := AnswerOutcome(sessionId, upload, language, Ok(s), prompts, AsrDone(transcriptPath, text), reply, parseJson, now);
      o.response.Ok? && o.response.value.Answered? && !o.response.value.completed
      && o.response.value.nextQuestion == Some(steps[s.currentStep + 1].question)
  {
    TurnsAreNeverScored(steps, s, language, prompts, text, reply, parseJson);
    TurnContinues(sessionId, upload, language, s, prompts, transcriptPath, text, reply, parseJson, now, steps, NotScored());
    assert s.protocol == MmseProtocol;
    PromptAtStepIsStep(prompts, language, s.currentStep + 1);
  }

  /** The catalogue normalises the language but the next-prompt lookup uses it as given: with
      the table's languages stored in lower case, a spelling such as "IT" finds the steps, yet a
      turn that does not close the session fails to find the next prompt, after its turn and
      its new state are saved and before any message is posted. */
  lemma UnnormalisedLanguageLosesNextPrompt(sessionId: string, upload: Upload, language: string, s: SessionState,
                                            prompts: seq<PromptRow>, transcriptPath: string, text: string,
                                            reply: ChatReply, parseJson: string -> Option<Json>, now: string,
                                            steps: seq<Step>)
    requires TurnCase(s, language, prompts, steps) && upload.filename.Some?
    requires !HasNoUpper(language) && forall p :: p in prompts ==> HasNoUpper(p.lang)
    requires s.currentStep + 1 < |steps|
    ensures var o := AnswerOutcome(sessionId, upload, language, Ok(s), prompts, AsrDone(transcriptPath, text), reply, parseJson, now);
      o.response == Err(NoResultFound) && o.savedState.Some? && o.turn.Some? && o.messages == []
  {
    TurnsAreNeverScored(steps, s, language, prompts, text, reply, parseJson);
    TurnContinues(sessionId, upload, language, s, prompts, transcriptPath, text, reply, parseJson, now, steps, NotScored());
    forall p | p in prompts ensures p.lang != language {
      assert HasNoUpper(p.lang);
    }
    assert GetMmsePrompt(prompts, MmseProtocol, language, s.currentStep + 1) == Err(NoResultFound);
  }

  /** Such a spelling exists: "IT" has an upper-case letter and normalises to "it". */
  lemma UpperCaseItalianNormalises(language: string)
    requires language == "IT"
    ensures !HasNoUpper(language) && NormalizeLang(language) == "it"
  {
    assert 'A' <= language[0] <= 'Z';
    assert Lower(language)[0] == 'i' && Lower(language)[1] == 't';
    assert Lower(language)[..2] == "it";
  }

  /** Messages are posted only by a turn that has appended its turn record and saved the new
      state, and then exactly two: the user's, then the assistant's. */
  lemma MessagesOnlyAfterTurn(sessionId: string, upload: Upload, language: string, loaded: Result<SessionState>,
                              prompts: seq<PromptRow>, asr: AsrOutcome, reply: ChatReply,
                              parseJson: string -> Option<Json>, now: string)
    ensures var o := AnswerOutcome(sessionId, upload, language, loaded, prompts, asr, reply, parseJson, now);
      o.messages != [] ==>
        && o.savedState.Some? && o.turn.Some?
        && |o.messages| == 2 && o.messages[0].role == "user" && o.messages[1].role == "assistant"
        && o.messages[0].text == o.turn.value.transcript
  {
    if loaded.Ok? {
      var s := loaded.value;
      var found := GetProtocolSteps(s.protocol, language, prompts);
      if s.completed {
        CompletedIsNoOp(sessionId, upload, language, s, prompts, asr, reply, parseJson, now);
      } else if found.Err? {
        assert AnswerOutcome(sessionId, upload, language, loaded, prompts, asr, reply, parseJson, now) == Stop(Err(found.error));
      } else if s.currentStep >= |found.value| {
        ExhaustedMarksCompleted(sessionId, upload, language, s, prompts, asr, reply, parseJson, now, found.value);
      } else {
        var steps := found.value;
        var picked := PyIndex(steps, s.currentStep);
        if picked.Err? {
          assert AnswerOutcome(sessionId, upload, language, loaded, prompts, asr, reply, parseJson, now) == Stop(Err(picked.error));
        } else {
          assert AnswerOutcome(sessionId, upload, language, loaded, prompts, asr, reply, parseJson, now)
              == RunTurn(sessionId, upload, language, s, |steps|, picked.value, prompts, asr, reply, parseJson, now);
          RunTurnMessages(sessionId, upload, language, s, |steps|, picked.value, prompts, asr, reply, parseJson, now);
        }
      }
    }
  }

  lemma RunTurnMessages(sessionId: string, upload: Upload, language: string, s: SessionState, stepCount: nat,
                        step: Step, prompts: seq<PromptRow>, asr: AsrOutcome, reply: ChatReply,
                        parseJson: string -> Option<Json>, now: string)
    ensures var o := RunTurn(sessionId, upload, language, s, stepCount, step, prompts, asr, reply, parseJson, now);
      o.messages != [] ==>
        && o.savedState.Some? && o.turn.Some?
        && |o.messages| == 2 && o.messages[0].role == "user" && o.messages[1].role == "assistant"
        && o.messages[0].text == o.turn.value.transcript
  {
    if upload.filename.Some? && asr.AsrDone? {
      var scored := ScoreWithOllama(step.stepId, step.question, Strip(asr.text), reply, parseJson);
      if scored.Ok? {
        var inputName := InputName(s.currentStep, step.stepId, upload.filename.value);
        RunTurnRecords(sessionId, upload, language, s, stepCount, step, prompts, asr.transcriptPath, asr.text,
                       reply, parseJson, now, scored.value);
        ConcludeMessages(sessionId, language, prompts, inputName, Strip(asr.text), step, scored.value, Advance(s, stepCount),
                         map["raw/" + inputName := AudioFile(upload.bytes)][ScoreKey(s, step) := ScoreFile(scored.value)],
                         TurnFor(s, step, inputName, asr.transcriptPath, Strip(asr.text), now));
      }
    }
  }

  lemma ConcludeMessages(sessionId: string, language: string, prompts: seq<PromptRow>, inputName: string,
                         transcript: string, step: Step, score: Json, next: SessionState,
                         files: map<string, FileContent>, turn: Turn)
    requires turn.transcript == transcript
    ensures var o := Conclude(sessionId, language, prompts, inputName, transcript, step, score, next, files, turn);
      o.messages != [] ==>
        |o.messages| == 2 && o.messages[0].role == "user" && o.messages[1].role == "assistant"
        && o.messages[0].text == o.turn.value.transcript
  {
  }
}

