// Opening a session: the session directory with its initial state, the session row,
// and the greeting, which is the step-0 prompt posted as the first assistant message.

module SessionBootstrap {
  import opened Wrappers
  import opened Json
  import opened SessionStore
  import opened DbRepo
  import opened Protocols

  /** The dict create_first_question returns. */
  datatype Greeting = Greeting(sessionId: string, protocol: string, question: string, questionAudioUrl: string)

  /** The public URL of a pre-generated prompt recording. */
  function AssetUrl(relpath: string): (url: string)
    ensures |url| == 8 + |relpath| && url[..8] == "/assets/" && url[8..] == relpath
  {
    "/assets/" + relpath
  }

  /** create_first_question: fetches the step-0 prompt for the language exactly as given (it is
      not normalised here) and posts it as an assistant message; the session state is neither
      read nor written. A failed lookup propagates and posts nothing. */
  method CreateFirstQuestion(sessionId: string, lang: string, db: Database, now: string) returns (r: Result<Greeting>)
    requires db.Valid()
    modifies db
    ensures db.Valid() && db.sessions == old(db.sessions)
    ensures var p := GetMmsePrompt(db.prompts, MmseProtocol, lang, 0);
      && (p.Err? ==> r == Err(p.error) && db.messages == old(db.messages))
      && (p.Ok? ==>
            && r == Ok(Greeting(sessionId, MmseProtocol, p.value.text, AssetUrl(p.value.audioRelpath)))
            && db.messages == Appended(old(db.messages), sessionId,
                                       [NewMessage("assistant", p.value.text, Some(AssetUrl(p.value.audioRelpath)))], now))
  {
    var p0 := GetMmsePrompt(db.prompts, MmseProtocol, lang, 0);
    if p0.Err? {
      return Err(p0.error);
    }
    var firstQuestion := p0.value.text;
    var questionAudioUrl := AssetUrl(p0.value.audioRelpath);
    db.AddMessage(sessionId, "assistant", firstQuestion, Some(questionAudioUrl), now);
    r := Ok(Greeting(sessionId, MmseProtocol, firstQuestion, questionAudioUrl));
  }

  /** The state of a newly created session. */
  function InitialState(): (s: SessionState)
    ensures s == FreshState()
    ensures s.protocol == MmseProtocol && s.currentStep == 0 && !s.completed
  {
    SessionState(MmseProtocol, 0, false)
  }

  /** POST /sessions, given the generated id and the session directories that already exist:
      the directory is made if missing (an existing one is reused, mkdir with exist_ok), the
      initial state is written over its state file, then the session row is added (a duplicate
      id violates the primary key and propagates) and the greeting is posted. */
  method CreateSession(sessionId: string, lang: string, sessions: map<string, SessionDir>, db: Database, now: string)
    returns (dir: SessionDir, r: Result<Greeting>)
    requires db.Valid()
    modifies db, if sessionId in sessions then {sessions[sessionId]} else {}
    ensures db.Valid()
    ensures dir.LoadState() == Ok(InitialState())
    ensures sessionId in sessions ==>
      && dir == sessions[sessionId]
      && dir.turnsFile == old(sessions[sessionId].turnsFile) && dir.files == old(sessions[sessionId].files)
    ensures sessionId !in sessions ==> fresh(dir) && dir.LoadTurns() == [] && dir.files == map[]
    ensures (exists k :: 0 <= k < |old(db.sessions)| && old(db.sessions)[k].id == sessionId) ==>
      r == Err(IntegrityError) && db.sessions == old(db.sessions) && db.messages == old(db.messages)
    ensures (forall k :: 0 <= k < |old(db.sessions)| ==> old(db.sessions)[k].id != sessionId) ==>
      && db.sessions == old(db.sessions) + [SessionRow(sessionId, MmseProtocol, now)]
      && var p := GetMmsePrompt(db.prompts, MmseProtocol, lang, 0);
         && (p.Err? ==> r == Err(p.error) && db.messages == old(db.messages))
         && (p.Ok? ==>
               && r == Ok(Greeting(sessionId, MmseProtocol, p.value.text, AssetUrl(p.value.audioRelpath)))
               && db.messages == Appended(old(db.messages), sessionId,
                                          [NewMessage("assistant", p.value.text, Some(AssetUrl(p.value.audioRelpath)))], now))
  {
    if sessionId in sessions {
      dir := sessions[sessionId];
    } else {
      dir := new SessionDir();
    }
    dir.SaveState(InitialState());
    var added := db.AddSession(sessionId, MmseProtocol, now);
    if added.Fail? {
      return dir, Err(added.error);
    }
    r := CreateFirstQuestion(sessionId, lang, db, now);
  }

  /** The greeting is the whole conversation of a new session: reading its messages back gives
      exactly the one assistant message, with the greeting's question and audio URL. */
  lemma GreetingIsOnlyMessage(ms: seq<MessageRow>, sessionId: string, g: Greeting, now: string)
    requires IdsIncreasing(ms)
    requires forall k :: 0 <= k < |ms| ==> ms[k].sessionId != sessionId
    ensures var after := Appended(ms, sessionId, [NewMessage("assistant", g.question, Some(g.questionAudioUrl))], now);
      && |GetMessagesJson(after, sessionId).messages| == 1
      && var m := GetMessagesJson(after, sessionId).messages[0];
         m.role == "assistant" && m.text == g.question && m.audioUrl == Some(g.questionAudioUrl)
  {
    var news := [NewMessage("assistant", g.question, Some(g.questionAudioUrl))];
    var after := Appended(ms, sessionId, news, now);
    var row := after[|ms|];
    assert after == ms + [row] by {
      assert after[..|ms|] == ms;
    }
    MessagesOfAppend(ms, sessionId, row);
    assert Content(row) == news[0];
  }
}
