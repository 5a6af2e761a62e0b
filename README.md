# Interview turn engine — a Dafny model

This project models the turn engine of the cognitive-screening interview service. A session
is a directory that holds `state.json` (protocol, current step, completed flag) and the
append-only turn log `turns.json`. Each spoken answer is posted to
`POST /sessions/{id}/answer_audio`. The call either:

- rejects an unknown session;
- reports that the session is already completed;
- marks the session completed once its steps are exhausted;
- or runs one turn: store the upload, transcribe it, score it, append the turn record, advance
  and save the state, look up the next MMSE prompt, and post the user and assistant messages.

The step catalogue comes from the `prompt_assets` table: it normalises the language, accepts
only `mmse_v1` and names steps `mmse_stepNN`. The scoring adapter scores only two step ids
and falls back to a fixed record when the model's reply is not JSON. A new session gets the
step-0 prompt as its first assistant message. The three tables (sessions, messages,
prompt_assets) are held in memory.

Module layout, one per source file:

| module | source |
|---|---|
| `Interview` (`interview.dfy`) | `app/services/interview.py` |
| `InterviewProperties` (`interview_properties.dfy`) | properties of `handle_answer_audio` across its branches |
| `SessionStore` (`session_state.dfy`) | `app/core/session_state.py` |
| `Protocols` (`protocols.dfy`) | `app/services/protocols.py` |
| `LlmOllama` (`llm_ollama.dfy`) | `app/services/llm_ollama.py` |
| `SessionBootstrap` (`session_bootstrap.dfy`) | `app/services/session_bootstrap.py` and `create_session` in `app/api/routes.py` |
| `DbRepo` (`db_repo.dfy`) | `app/repositories/db_repo.py` |

The helper modules give the Python built-ins the core relies on:

- `Wrappers`: Option, Result and one error constructor per exception kind.
- `Text`: `str.isspace`, `strip`, `split`, `lower`, `startswith`.
- `Decimal`: `str(int)`, `int(str)`, `:02d`.
- `Json`: decoded JSON values, plus `str()`, `int()` and `bool()` on them.
- `Sorting`: `ORDER BY ... ASC`.
- `PathNames`: `Path.name` and `Path.suffix`.

The handler is written twice. `Interview.AnswerOutcome` is a pure function that says what one
call writes and returns. `Interview.HandleAnswerAudio` is the imperative handler, split into
the phases `PickAndAnswer`, `AnswerStep`, `RecordStep` and `ConcludeStep`. It updates a
`SessionDir` object and a `Database` object in the source's order. Its postcondition ties
every effect to `AnswerOutcome`. The lemmas in `InterviewProperties` then state what the
source promises about that outcome.

Collaborators the model cannot see are parameters of the call:

- the speech recogniser's outcome (`AsrOutcome`);
- the scorer's HTTP reply (`ChatReply`);
- the JSON decoder applied to the reply content (`parseJson`);
- the clock reading (`now`).

What the scorer does, as written in `app/services/llm_ollama.py`:

- It scores only the ids `registration_3_words` and `recall_3_words`. Every other id gets the
  not-scored record (score and max_score `None`) and no request is made.
- It does not catch a transport failure or a malformed reply: both propagate.
- It does not bound the decoded score by `max_score`.
- When the reply content does not decode, it returns the fallback record with score `None`
  and max_score 3.

The catalogue names its steps `mmse_stepNN`, so no turn of `handle_answer_audio` reaches
the scorer (`TurnsAreNeverScored`). The propagation path is stated over the turn pipeline
run on a scored step (`ScoringFailureKeepsState`, `ScoredStepCanFail`).

## Model

| member | source | states |
|---|---|---|
| `Interview.HandleAnswerAudio` | app/services/interview.py:23-133 | An unknown session id fails with 404 "Session not found. Create session first." and changes no message. For an existing session, the returned value, `state.json`, the turn log, the written files and the message table are exactly those of `AnswerOutcome` on the state loaded before the call. No session row is touched. |
| `Interview.PickAndAnswer` | app/services/interview.py:34-39 | Past the last step, the state is saved with `completed` set and "No more steps." is returned. Otherwise `steps[current_step]` is taken with Python indexing and its turn is run. All effects agree with `PickStep`. |
| `Interview.AnswerStep` | app/services/interview.py:41-69 | It stores the upload under `raw/`, then stops with a 500 error carrying the recogniser's message, or with the scorer's exception. Otherwise it records the turn. All effects agree with `RunTurn`. |
| `Interview.RecordStep` | app/services/interview.py:70-95 | It writes the score record at `out/stepNN_<id>/llm_score.json`, appends exactly one turn and saves the advanced state. The files become the old files with the score record added. |
| `Interview.ConcludeStep` | app/services/interview.py:97-133 | When the session goes on, it looks up the next prompt, and a failed lookup propagates with no message posted. Otherwise it appends exactly the two messages of `Conclude` (user, then assistant) and returns the `Answered` dict. |
| `Interview.UploadSuffix` | app/services/interview.py:45 | The suffix of the upload's name, lower-cased, or ".bin" when the name has none. The result is at least two characters long, starts with '.', has no upper-case letter and has no '/'. |
| `Interview.TurnFor` | app/services/interview.py:79-88 | The turn record carries the clock reading as `created_at`, the old current step as `step_index`, the answered step's id and question, the stripped transcript and its text features. Its artifacts are the stored upload, the recogniser's transcript path, and `segments.json` and `meta.json` in the step's `out/` directory. |
| `Interview.Advance` | app/services/interview.py:92-94 | The protocol is unchanged and the step grows by exactly one. The new state is completed iff it was completed already or the new step is at or past the number of steps. |
| `Interview.Conclude` | app/services/interview.py:95-133 | Once a turn is recorded, the new state is saved, the turn is appended and the upload and score files are written, whatever the next-prompt lookup gives. The response is an error exactly when no message is posted, and a completed session never fails here. Posted messages are two, the user's transcript first and then the assistant's text. |
| `Interview.AnswerOutcome` | app/services/interview.py:28-133 | A state that fails to load propagates and nothing is written. A turn is recorded only together with a saved state: the turn's index is the loaded current step and the saved step is one further. A state is saved only for a session not yet completed. It keeps its protocol and is marked completed exactly when its step reaches the number of steps of the protocol. |
| `Interview.PickStep` | app/services/interview.py:34-39 | A turn is recorded only when `current_step` indexes the step list under Python indexing. The saved state is then the advanced one and the turn's index is `current_step`. Any saved state keeps the protocol. For a session not yet completed, it is marked completed exactly when its step reaches the number of steps. Without a turn, no message is posted. |
| `Interview.RunTurn` | app/services/interview.py:41-69 | Without a file name it fails before writing anything. A turn is recorded iff there is a file name, the recogniser succeeded and the scorer returned. The turn is then that of this step (index, id, question) and the saved state is the advanced one. Without a turn nothing is saved and no message is posted. |
| `Interview.RecordTurn` | app/services/interview.py:70-95 | It saves the state advanced by one step and records the turn of this step with the transcript. It adds the score record at `ScoreKey` to the written files and keeps the other files. |
| `Interview.Finish` | app/services/interview.py:108-133 | It posts two messages: the user's transcript, then a non-empty assistant text. That text is the next question when it is non-empty. The reply's system text and audio URL are those of the assistant message, and its `completed` is that of the saved state. |
| `Interview.InputName` | app/services/interview.py:45-46 | The upload's name shares its stem `step{NN}_{id}` with the step's output directory `out/step{NN}_{id}`, and ends with the upload's suffix. |
| `Interview.StepOut` | app/services/interview.py:55 | The step's output directory lies under `out/`. |
| `Interview.UserAudioUrl` | app/services/interview.py:119 | The URL is `/files/<session id>` followed by `/raw/` and the upload's name, which is the upload's path in the session directory. |
| `Interview.ScoreKey` | app/services/interview.py:70 | The score record lies under `out/` and is named `llm_score.json`, so it never overwrites the upload under `raw/`. |
| `InterviewProperties.CompletedIsNoOp` | app/services/interview.py:28-30 | A completed session returns "Session already completed." and changes nothing. The steps are not looked up, so no catalogue error can arise. |
| `InterviewProperties.ExhaustedMarksCompleted` | app/services/interview.py:34-37 | When the current step is at or past the number of steps, the same state with `completed` set is saved and "No more steps." is returned. No file, turn or message is written. |
| `InterviewProperties.TurnRuns` | app/services/interview.py:32-39 | When the session goes on and its current step exists, the outcome is that of the turn pipeline on `steps[current_step]`. |
| `InterviewProperties.UploadIsCaptured` | app/services/interview.py:45-51 | An upload without a file name fails before anything is written. Otherwise, whatever follows (ASR failure, scorer failure, a missing next prompt or success), the uploaded bytes are among the written files at the capture path. |
| `InterviewProperties.AsrFailureKeepsState` | app/services/interview.py:53-63 | A failed transcription raises a 500 error with the recogniser's message. Only the upload has been written: no state, no turn, no message. |
| `InterviewProperties.ScoringFailureKeepsState` | app/services/interview.py:68-69 | On a step the scorer scores, an exception from the scorer propagates out of the turn. Only the upload has been written: no state, no turn, no message. |
| `InterviewProperties.ScoredStepCanFail` | app/services/llm_ollama.py:11-51 | `recall_3_words` is a scored id, and a transport failure on it propagates as an error. |
| `InterviewProperties.TurnRecords` | app/services/interview.py:65-95 | A scored turn concludes with the advanced state, the upload and score files, and the turn for the current step. |
| `InterviewProperties.TurnAdvances` | app/services/interview.py:79-95 | A scored turn appends exactly one turn whose index is the old current step and whose id, question and transcript are those of the answered step. It saves the step plus one, completed iff that reaches the number of steps. It writes exactly the upload and the score record. |
| `InterviewProperties.LastTurnCloses` | app/services/interview.py:97-109 | After the last step: the session is completed, there is no next question, the system text is the closing remark, there is no reply audio, and the two messages are posted. |
| `InterviewProperties.TurnContinues` | app/services/interview.py:100-104 | Before the last step, the prompt of the new step is fetched for the language as given. If that fails, the error propagates after the state and the turn are saved, and no message is posted. If it succeeds, the next question and the reply audio are that prompt's text and `/assets/` URL, and the assistant message carries them. |
| `InterviewProperties.NextQuestionIsNextStep` | app/services/interview.py:97-104 | Assume the language is given normalised, the prompt keys are unique and the rows are numbered 0..n-1. Then the next question is the question of catalogue step `current_step + 1`. |
| `InterviewProperties.UnnormalisedLanguageLosesNextPrompt` | app/services/interview.py:100-103 | With a language spelt with an upper-case letter and a lower-case prompt table, the catalogue is found but the next-prompt lookup fails with NoResultFound, after the turn is recorded. |
| `InterviewProperties.UpperCaseItalianNormalises` | app/services/protocols.py:9-11 | "IT" contains an upper-case letter and normalises to "it", so the situation above occurs. |
| `InterviewProperties.InitialTurnLogMatches` | app/api/routes.py:39-40 | A new session (step 0, empty log) has one turn per answered step. |
| `InterviewProperties.TurnLogStaysInStep` | app/services/interview.py:28-95 | Every call keeps `len(turns) == current_step`, with turn k recording step k, for whatever state and turn log it leaves behind. |
| `InterviewProperties.AnsweredStepExtendsLog` | app/services/interview.py:89-92 | Appending the current step's turn while moving one step on keeps the log in step. |
| `InterviewProperties.SavedStateReloads` | app/core/session_state.py:44-55 | Whatever state a call saves reads back as itself on the next call. |
| `InterviewProperties.CatalogueStepsAreUnscored` | app/services/protocols.py:24 | No catalogue step id (`mmse_stepNN`) is one of the two ids the scorer scores. |
| `InterviewProperties.TurnsAreNeverScored` | app/services/interview.py:69 | Every turn of the pipeline gets the not-scored record, whatever the scorer would have replied. |
| `InterviewProperties.MessagesOnlyAfterTurn` | app/services/interview.py:118-121 | Whatever state is loaded, a call that posts messages has saved a state and appended a turn. It posts exactly two: the user message with the turn's transcript, then the assistant message. |
| `InterviewProperties.RunTurnMessages` | app/services/interview.py:119-121 | The same fact for the turn pipeline once the step is known. |
| `InterviewProperties.ConcludeMessages` | app/services/interview.py:119-121 | The same fact once the score is known. |
| `SessionStore.FromDict` | app/core/session_state.py:27-33 | Missing keys take "mmse_v1", 0 and false. Present values are converted by `str()`, `int()` and `bool()`. The result is an error iff one of those conversions raises. |
| `SessionStore.ToDict` | app/core/session_state.py:20-25 | The dict has exactly the three keys, and `from_dict(to_dict(s))` is `s` for every state. |
| `SessionStore.FreshState` | app/core/session_state.py:27-33 | The fresh state is what a dict with none of the keys reads as: mmse_v1, step 0, not completed. |
| `SessionStore.SessionDir.constructor` | app/core/session_state.py:44-48 | A directory with no state file loads the fresh state and an empty turn log. |
| `SessionStore.SessionDir.LoadState` | app/core/session_state.py:44-48 | A missing file gives the fresh state. A JSON object gives `from_dict` of it. Any other JSON value fails. |
| `SessionStore.SessionDir.SaveState` | app/core/session_state.py:51-55 | It overwrites the state file with `to_dict(s)`, after which `load_state` returns `s`. The turn log and the other files are unchanged. |
| `SessionStore.SessionDir.LoadTurns` | app/core/session_state.py:58-62 | A missing file reads as the empty list. Otherwise it returns the stored list. |
| `SessionStore.SessionDir.AppendTurn` | app/core/session_state.py:65-71 | The log becomes the old log plus the new turn, one longer, with every earlier turn unchanged. The state file and the other files are untouched. |
| `SessionStore.SessionDir.WriteFile` | app/services/interview.py:47-73 | It replaces one file and leaves the state and turn log untouched. |
| `SessionStore.BasicTextFeatures` | app/core/session_state.py:74-79 | `char_count` is the raw length, surrounding whitespace included. `word_count` is the number of whitespace-separated words, and it is 0 iff the text is all whitespace. |
| `SessionStore.FeaturesExample` | app/core/session_state.py:74-79 | "  casa pane  gatto " has 19 characters and 3 words. |
| `SessionStore.MakeTurn` | app/core/session_state.py:82-105 | It records the clock reading as `created_at`, and copies the index, id, question, transcript and the four artifact paths verbatim. Its features are `basic_text_features` of the transcript: its characters and words. |
| `Text.SplitIgnoresStrip` | app/core/session_state.py:75 | Stripping before splitting changes no token. |
| `Text.DropEmptyKeepsWords` | app/core/session_state.py:75 | Filtering out empty tokens after `split()` removes nothing. |
| `Text.SplitEmptyIffBlank` | app/core/session_state.py:75 | `split()` gives no tokens iff the text is all whitespace. |
| `Text.Strip` | app/services/interview.py:65 | The result is empty iff the text is all whitespace. Otherwise it is the text between the leading and the trailing whitespace runs, and neither of its ends is whitespace. |
| `Text.Split` | app/core/session_state.py:75 | Every token is non-empty and free of whitespace. |
| `Text.DropEmpty` | app/core/session_state.py:75 | No empty token survives, and the result is no longer than the input. |
| `Text.DropEmptyFilters` | app/core/session_state.py:75 | The filter `if t` keeps exactly the non-empty tokens of its input and adds none. |
| `Text.Lower` | app/services/interview.py:45 | The length is kept and no capital letter remains. A-Z move to a-z, every other character is kept, and a text without capitals is unchanged. |
| `Protocols.NormalizeLang` | app/services/protocols.py:9-11 | The result has no upper-case letter. It is "it" iff the language is empty or its lower-case form starts with "it". Otherwise it is the lower-case language. |
| `Protocols.NormalizeLangIdempotent` | app/services/protocols.py:9-11 | Normalising twice is normalising once. |
| `Protocols.StepId` | app/services/protocols.py:24 | A step id starts with "mmse_step" and has at least 11 characters. |
| `Protocols.StepIdInjective` | app/services/protocols.py:24 | Distinct step numbers give distinct step ids. |
| `Protocols.StepsOf` | app/services/protocols.py:24 | There is one step per row, in row order, with the row's id and text. |
| `Protocols.GetProtocolSteps` | app/services/protocols.py:8-24 | A protocol other than mmse_v1 fails with 400 before any lookup. For mmse_v1, the call fails with 500 (the detail names protocol and language) iff the normalised language has no rows. Otherwise there is one step per row of that language, each built from such a row. |
| `Protocols.StepsFollowRows` | app/services/protocols.py:17-24 | Step i is built from the i-th row of the step-ordered list. |
| `Protocols.StepIdsDistinct` | app/services/protocols.py:17-24 | With unique (protocol, lang, step) keys, the step ids are pairwise distinct. |
| `Protocols.StepsIgnoreLangSpelling` | app/services/protocols.py:9-11 | Spellings that normalise alike give the same catalogue. |
| `Protocols.CatalogueRowsAreIndices` | app/services/protocols.py:17 | With unique keys and rows numbered 0..n-1, the k-th row of the list has step k. |
| `Protocols.PromptAtStepIsStep` | app/services/protocols.py:17-24 | Under the same assumptions, fetching the prompt of step k gives the row behind catalogue step k. |
| `LlmOllama.IsScoredStep` | app/services/llm_ollama.py:11 | No scored id starts with `mmse_`, so none is a catalogue id. |
| `LlmOllama.ReplyContent` | app/services/llm_ollama.py:53 | A missing or falsy message reads as empty content. A body or message that is not an object, or content that is not a string, raises. Non-empty content is the message's `content` string. |
| `LlmOllama.ScoreWithOllama` | app/services/llm_ollama.py:9-64 | Unscored ids get the not-scored record. For the two scored ids, a transport failure propagates, a malformed reply raises, undecodable content gives the fallback, and decoded content is returned unchanged. |
| `LlmOllama.UnscoredIgnoresReply` | app/services/llm_ollama.py:11-12 | For an unscored id the result does not depend on the reply, so no call is made. |
| `LlmOllama.MissingContentFallsBack` | app/services/llm_ollama.py:53-62 | Missing or empty content gives the fallback record. |
| `LlmOllama.ScoreIsNotClamped` | app/services/llm_ollama.py:55-64 | A decoded score of 5 out of 3 is returned as is. |
| `SessionBootstrap.CreateFirstQuestion` | app/services/session_bootstrap.py:8-22 | The step-0 prompt is looked up for the language as given. If the lookup fails, the error propagates and nothing is posted. Otherwise exactly one assistant message is appended, with the prompt's text and `/assets/` URL, and the result reports mmse_v1 with the same question and URL. The session rows are unchanged. |
| `SessionBootstrap.InitialState` | app/api/routes.py:39-40 | The initial state is mmse_v1, step 0, not completed, which is the fresh state. |
| `SessionBootstrap.CreateSession` | app/api/routes.py:31-48 | The session directory is made if missing and reused if it exists (its turns and files are kept). Either way its state reloads as the initial state: mmse_v1, step 0, not completed. A duplicate session id then fails with an integrity error and adds no row and no message. Otherwise it adds the session row and then does what `CreateFirstQuestion` does. |
| `SessionBootstrap.GreetingIsOnlyMessage` | app/services/session_bootstrap.py:15 | Reading back the messages of a new session gives exactly the greeting. |
| `DbRepo.Database.constructor` | app/models.py:41-43 | The tables start empty, and the prompt table has unique (protocol, lang, step). |
| `DbRepo.Database.AddSession` | app/repositories/db_repo.py:11-17 | It adds exactly one row with the given id and protocol. It fails with an integrity error, changing nothing, iff the id already exists. |
| `DbRepo.Database.AddMessage` | app/repositories/db_repo.py:20-26 | It appends exactly one row with the given session, role, text and audio. Its id is larger than every earlier id, so the ids keep increasing. |
| `DbRepo.NextMessageId` | app/repositories/db_repo.py:20-26 | With increasing ids, the next id exceeds every stored one. |
| `DbRepo.Appended` | app/repositories/db_repo.py:20-26 | Successive inserts keep the earlier rows, add one row per message with that message's content, and keep the ids increasing. |
| `DbRepo.AppendedTwice` | app/repositories/db_repo.py:20-26 | Two inserts in a row equal one append of both messages. |
| `DbRepo.MessagesOf` | app/repositories/db_repo.py:32-37 | It keeps exactly the rows of the session, and their ids increase. |
| `DbRepo.MessagesOfAppend` | app/repositories/db_repo.py:32-37 | After one more insert, the new row ends the session's list iff it belongs to that session. |
| `DbRepo.GetMessagesJson` | app/repositories/db_repo.py:29-56 | It returns one entry per row of the session, ordered by id. With increasing ids, that is the insertion order. |
| `DbRepo.PromptsFor` | app/repositories/db_repo.py:72-83 | It keeps exactly the rows of (protocol, lang). Under unique keys, their steps are distinct. |
| `DbRepo.ListMmsePrompts` | app/repositories/db_repo.py:72-83 | It returns exactly the rows of (protocol, lang), a permutation of them sorted by step. Under unique keys the steps strictly ascend. |
| `DbRepo.PromptsAt` | app/repositories/db_repo.py:59-69 | It keeps exactly the rows with the three key values. Under unique keys there is at most one. |
| `DbRepo.GetMmsePrompt` | app/repositories/db_repo.py:59-69 | `.one()`: it returns the matching row iff exactly one row has the three key values. No match is NoResultFound, and two or more matches are MultipleResultsFound, which cannot happen under unique keys. |
| `DbRepo.EnsureMmsePromptsExist` | app/repositories/db_repo.py:86-92 | It raises a 500 error naming protocol and language iff (protocol, lang) has no rows. |
| `Json.PyStr` | app/core/session_state.py:30 | `str()`: None gives "None", a bool "True" or "False", an integer its decimal text (which reads back as the integer), and a string itself. It fails only on a list or a dict. |
| `Json.PyInt` | app/core/session_state.py:31 | `int()`: an integer is kept, and a bool gives 1 or 0. None, a list or a dict raise. A string converts iff it is a signed decimal, and then to the value it spells. |
| `Json.Get` | app/core/session_state.py:30-32 | `dict.get(key, default)`. |
| `Decimal.IntToStringRoundTrip` | app/core/session_state.py:30-31 | `int(str(i)) == i` for every integer. |
| `Decimal.Pad2RoundTrip` | app/services/protocols.py:24 | The `:02d` text reads back as the number. |
| `Decimal.Pad2Injective` | app/services/protocols.py:24 | Distinct numbers have distinct `:02d` texts. |
| `Decimal.Pad2` | app/services/interview.py:46 | The text has at least two characters, and exactly two digits for 0 to 99. |
| `PathNames.Name` | app/services/interview.py:45 | The name is empty exactly when every component of the path is empty or ".". Otherwise it is a whole component of the path followed only by empty and "." components, so it is the last kept component. It contains no '/' and is never ".". |
| `PathNames.Suffix` | app/services/interview.py:45 | A non-empty suffix is the tail of the name from its last '.', that dot being neither the first nor the last character. Otherwise the suffix is empty. |
| `PathNames.SuffixExamples` | app/services/interview.py:45 | "risposta.WAV" has suffix ".WAV". ".hidden" has none. |
| `PathNames.NameExamples` | app/services/interview.py:45 | "dir/voice.webm" is named "voice.webm". "a/b/." is named "b". |

## Left out

- The speech recogniser, speech synthesis and the HTTP call to the language model are not
  modelled. Their results are parameters of the call, and so are the decoding of the scorer's
  reply content and the clock. The prompt wording and the request timeout are not modelled.
- The recogniser writes the transcript, segments and meta files in the step's `out/`
  directory; the model does not. It keeps only the transcript path and text the recogniser
  returns. Reading the transcript file is assumed to succeed.
- Creating the `raw/` directory and closing the upload are not modelled. The existence of
  session directories is the map `sessions` from session id to directory.
- The branches for a protocol other than mmse_v1 (app/services/interview.py:105-106, 113-116)
  are dead code and are not modelled: `get_protocol_steps` rejects every other protocol before
  a turn can run. The speech synthesis service created at app/services/interview.py:18 goes
  with them.
- Per-session locking and concurrent requests are not modelled. The source has none, and
  calls are modelled one after another.
- JSON text is not modelled: indentation, `ensure_ascii` and the `json.dumps`/`json.loads`
  round trip in `db_get_messages_json`. Files hold decoded values, so a `state.json` or
  `turns.json` that is not valid JSON text is not represented.
- JSON numbers with a fraction or an exponent are not modelled.
- Json.PyStr: the `str()` of a list or dict (its Python repr) is not modelled and gives the
  error ReprNotModelled. Python would store that repr as the protocol.
- SessionStore.FromDict: it inherits the limit of Json.PyStr, so a list or dict protocol is an
  error here.
- Decimal.ParseInt: `int()` on strings is limited to ASCII digits with an optional sign.
  Underscores and non-ASCII digits are not accepted.
- Text.DropEmpty: its own contract does not say which tokens are kept, because that clause
  slows every proof about turn records. The lemma `Text.DropEmptyFilters` states it.
- Text.Lower: only ASCII letters are lower-cased. `str.lower()` on other scripts is not
  modelled, and this affects `Interview.UploadSuffix` and `Protocols.NormalizeLang`.
- SessionStore.SessionDir.LoadTurns: the turns file is a list of turn records. A file holding
  some other JSON value is not represented.
- Interview.TurnFor: artifact paths are relative to the session directory. The source records
  them under the absolute directory `data/sessions/<id>`.
- The `created_at` timestamps are the parameter `now`. The database fills them from the clock,
  and `isoformat()` is not modelled.
- Message ids are one more than the last id in the table, which is what SQLite's
  autoincrement key gives when rows are never deleted.
- The SQL `ORDER BY` is a stable sort. SQLite does not promise an order among equal keys, but
  under the unique (protocol, lang, step) constraint no two prompt rows of one language share
  a step, and message ids never repeat.
- The uniqueness of (protocol, lang, step) is carried as an assumption on the prompt table
  (`DbRepo.Database.Valid`). The seeding scripts that fill the table are not modelled.
- The character "è" of the closing remark is modelled exactly as stored in
  app/services/interview.py:109: two characters, U+00C3 U+00A8.
- An upload with no file name is the error MissingFilename, standing for the TypeError that
  `Path(None)` raises.
- The HTTP layer is not modelled: routing, `uuid` generation, and the mapping of exceptions to
  status codes.
