// The per-session record (protocol, current step, completion flag), its dict form, the
// session directory that stores it next to the append-only turn log, and the turn record
// with its transcript features.

module SessionStore {
  import opened Wrappers
  import opened Text
  import opened Json

  const DefaultProtocol := "mmse_v1"

  datatype SessionState = SessionState(protocol: string, currentStep: int, completed: bool)

  /** The state of a session that has no state file yet: what a dict with none of the keys
      reads as. */
  function FreshState(): (s: SessionState)
    ensures FromDict(map[]) == Ok(s)
  {
    SessionState(DefaultProtocol, 0, false)
  }

  /** SessionState.from_dict: each missing key takes its default, then str(), int() and
      bool() convert the values; a failing conversion raises. */
  function FromDict(d: map<string, Json>): (r: Result<SessionState>)
    ensures r.Err? <==>
      || ("protocol" in d && PyStr(d["protocol"]).Err?)
      || ("current_step" in d && PyInt(d["current_step"]).Err?)
    ensures r.Ok? && "protocol" !in d ==> r.value.protocol == DefaultProtocol
    ensures r.Ok? && "protocol" in d && d["protocol"].JStr? ==> r.value.protocol == d["protocol"].text
    ensures r.Ok? && "current_step" !in d ==> r.value.currentStep == 0
    ensures r.Ok? && "current_step" in d && d["current_step"].JInt? ==> r.value.currentStep == d["current_step"].number
    ensures r.Ok? ==> r.value.completed == ("completed" in d && Truthy(d["completed"]))
    ensures r.Ok? && "protocol" in d ==> PyStr(d["protocol"]) == Ok(r.value.protocol)
    ensures r.Ok? && "current_step" in d ==> PyInt(d["current_step"]) == Ok(r.value.currentStep)
  {
    var protocol := PyStr(Get(d, "protocol", JStr(DefaultProtocol)));
    var step := PyInt(Get(d, "current_step", JInt(0)));
    var completed := Truthy(Get(d, "completed", JBool(false)));
    if protocol.Err? then Err(protocol.error)
    else if step.Err? then Err(step.error)
    else Ok(SessionState(protocol.value, step.value, completed))
  }

  /** SessionState.to_dict; reading the dict back gives the same state. */
  function ToDict(s: SessionState): (d: map<string, Json>)
    ensures d.Keys == {"protocol", "current_step", "completed"}
    ensures FromDict(d) == Ok(s)
  {
    map["protocol" := JStr(s.protocol), "current_step" := JInt(s.currentStep), "completed" := JBool(s.completed)]
  }

  datatype Features = Features(charCount: nat, wordCount: nat)

  /** basic_text_features: the length of the raw text, and the number of whitespace-separated
      tokens of the stripped text. */
  function BasicTextFeatures(text: string): (f: Features)
    ensures f.charCount == |text|
    ensures f.wordCount == |Split(text)|
    ensures f.wordCount == 0 <==> AllSpace(text)
  {
    var tokens := DropEmpty(Split(Strip(text)));
    SplitIgnoresStrip(text);
    DropEmptyKeepsWords(Split(text));
    SplitEmptyIffBlank(text);
    Features(|text|, |tokens|)
  }

  /** The example of the feature extractor: surrounding and doubled spaces are not words,
      but they count as characters. */
  lemma FeaturesExample()
    ensures BasicTextFeatures("  casa pane  gatto ") == Features(19, 3)
  {
    SplitExample("  casa pane  gatto ");
  }

  datatype Artifacts = Artifacts(audioPath: string, transcriptPath: string, segmentsPath: string, metaPath: string)

  /** One entry of turns.json. */
  datatype Turn = Turn(
    createdAt: string,
    stepIndex: int,
    stepId: string,
    question: string,
    transcript: string,
    features: Features,
    artifacts: Artifacts)

  /** make_turn; the clock reading is the parameter createdAt. */
  function MakeTurn(createdAt: string, stepIndex: int, stepId: string, question: string, transcript: string,
                    audioPath: string, transcriptPath: string, segmentsPath: string, metaPath: string): (t: Turn)
    ensures t.stepIndex == stepIndex && t.stepId == stepId && t.question == question && t.transcript == transcript
    ensures t.artifacts == Artifacts(audioPath, transcriptPath, segmentsPath, metaPath)
    ensures t.createdAt == createdAt
    ensures t.features == BasicTextFeatures(transcript)
    ensures t.features.charCount == |transcript|
    ensures t.features.wordCount == |Split(transcript)|
  {
    Turn(createdAt, stepIndex, stepId, question, transcript, BasicTextFeatures(transcript),
         Artifacts(audioPath, transcriptPath, segmentsPath, metaPath))
  }

  /** A file the turn pipeline writes into the session directory besides the state and the turns. */
  datatype FileContent = AudioFile(bytes: seq<bv8>) | ScoreFile(score: Json)

  /** A session directory: state.json, turns.json and the other files, by path relative to the
      directory. A missing file is None. */
  class SessionDir {
    var stateFile: Option<Json>
    var turnsFile: Option<seq<Turn>>
    var files: map<string, FileContent>

    /** A newly created, empty session directory. */
    constructor ()
      ensures stateFile == None && turnsFile == None && files == map[]
      ensures LoadState() == Ok(FreshState()) && LoadTurns() == []
    {
      stateFile, turnsFile, files := None, None, map[];
    }

    /** load_state: the fresh state when there is no state file; a file that holds no JSON
        object fails in from_dict (AttributeError on .get). */
    function LoadState(): (r: Result<SessionState>)
      reads this
      ensures stateFile == None ==> r == Ok(FreshState())
      ensures stateFile.Some? && !stateFile.value.JObject? ==> r == Err(ConversionError)
      ensures stateFile.Some? && stateFile.value.JObject? ==> r == FromDict(stateFile.value.fields)
    {
      match stateFile
      case None => Ok(FreshState())
      case Some(JObject(d)) => FromDict(d)
      case Some(_) => Err(ConversionError)
    }

    /** save_state: overwrites state.json with to_dict(s). */
    method SaveState(s: SessionState)
      modifies this
      ensures stateFile == Some(JObject(ToDict(s)))
      ensures LoadState() == Ok(s)
      ensures turnsFile == old(turnsFile) && files == old(files)
    {
      stateFile := Some(JObject(ToDict(s)));
    }

    /** load_turns: the empty list when there is no turns file. */
    function LoadTurns(): (r: seq<Turn>)
      reads this
      ensures turnsFile == None ==> r == []
      ensures turnsFile.Some? ==> r == turnsFile.value
    {
      match turnsFile
      case None => []
      case Some(ts) => ts
    }

    /** append_turn: loads the list, appends t and writes the list back. */
    method AppendTurn(t: Turn)
      modifies this
      ensures LoadTurns() == old(LoadTurns()) + [t]
      ensures |LoadTurns()| == |old(LoadTurns())| + 1
      ensures LoadTurns()[..|old(LoadTurns())|] == old(LoadTurns())
      ensures stateFile == old(stateFile) && files == old(files)
    {
      var turns := LoadTurns();
      turns := turns + [t];
      turnsFile := Some(turns);
    }

    /** Writes one file of the session directory, replacing any earlier content. */
    method WriteFile(path: string, content: FileContent)
      modifies this
      ensures files == old(files)[path := content]
      ensures stateFile == old(stateFile) && turnsFile == old(turnsFile)
    {
      files := files[path := content];
    }
  }
}
