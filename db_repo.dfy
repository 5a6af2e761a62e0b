// The relational tables (sessions, messages, prompt_assets) held in memory, the two inserts
// and the three queries the core issues against them.

module DbRepo {
  import opened Wrappers
  import opened Sorting

  datatype SessionRow = SessionRow(id: string, protocol: string, createdAt: string)

  datatype MessageRow = MessageRow(
    id: int, sessionId: string, role: string, text: string, audioUrl: Option<string>, createdAt: string)

  datatype PromptRow = PromptRow(
    id: int, protocol: string, lang: string, step: int, text: string, audioRelpath: string)

  function MessageId(m: MessageRow): int { m.id }

  function PromptStep(p: PromptRow): int { p.step }

  /** Messages in insertion order have strictly increasing ids (an autoincrement key). */
  predicate IdsIncreasing(ms: seq<MessageRow>) {
    StrictlySortedBy(ms, MessageId)
  }

  /** The primary key of the sessions table. */
  predicate SessionIdsUnique(ss: seq<SessionRow>) {
    forall i, j :: 0 <= i < j < |ss| ==> ss[i].id != ss[j].id
  }

  predicate SameKey(p: PromptRow, q: PromptRow) {
    p.protocol == q.protocol && p.lang == q.lang && p.step == q.step
  }

  /** The unique constraint on (protocol, lang, step) of prompt_assets. */
  predicate UniquePromptKeys(ps: seq<PromptRow>) {
    forall i, j :: 0 <= i < j < |ps| ==> !SameKey(ps[i], ps[j])
  }

  /** The id SQLite gives the next inserted message: one more than the largest id so far. */
  function NextMessageId(ms: seq<MessageRow>): (id: int)
    ensures IdsIncreasing(ms) ==> forall k :: 0 <= k < |ms| ==> ms[k].id < id
  {
    if ms == [] then 1 else ms[|ms| - 1].id + 1
  }

  class Database {
    var sessions: seq<SessionRow>
    var messages: seq<MessageRow>
    /** Seeded by the content scripts; the core only reads it. */
    const prompts: seq<PromptRow>

    ghost predicate Valid()
      reads this
    {
      SessionIdsUnique(sessions) && IdsIncreasing(messages) && UniquePromptKeys(prompts)
    }

    constructor (prompts: seq<PromptRow>)
      requires UniquePromptKeys(prompts)
      ensures Valid()
      ensures sessions == [] && messages == [] && this.prompts == prompts
    {
      this.sessions, this.messages, this.prompts := [], [], prompts;
    }

    /** db_add_session: inserts one row; a duplicate id violates the primary key. */
    method AddSession(id: string, protocol: string, now: string) returns (r: Outcome)
      requires Valid()
      modifies this
      ensures Valid()
      ensures r.Fail? <==> exists k :: 0 <= k < |old(sessions)| && old(sessions)[k].id == id
      ensures r.Fail? ==> r.error == IntegrityError && sessions == old(sessions)
      ensures r.Pass? ==> sessions == old(sessions) + [SessionRow(id, protocol, now)]
      ensures messages == old(messages)
    {
      var k := 0;
      while k < |sessions|
        invariant 0 <= k <= |sessions|
        invariant forall j :: 0 <= j < k ==> sessions[j].id != id
      {
        if sessions[k].id == id {
          return Fail(IntegrityError);
        }
        k := k + 1;
      }
      sessions := sessions + [SessionRow(id, protocol, now)];
      r := Pass;
    }

    /** db_add_message: appends one row whose id is larger than every earlier id. */
    method AddMessage(sessionId: string, role: string, text: string, audioUrl: Option<string>, now: string)
      requires Valid()
      modifies this
      ensures Valid()
      ensures messages == old(messages) + [MessageRow(NextMessageId(old(messages)), sessionId, role, text, audioUrl, now)]
      ensures messages == Appended(old(messages), sessionId, [NewMessage(role, text, audioUrl)], now)
      ensures forall k :: 0 <= k < |old(messages)| ==> old(messages)[k].id < messages[|messages| - 1].id
      ensures sessions == old(sessions)
    {
      var row := MessageRow(NextMessageId(messages), sessionId, role, text, audioUrl, now);
      assert [NewMessage(role, text, audioUrl)][1..] == [];
      messages := messages + [row];
    }
  }

  /** The rows of one session, in table order. */
  function MessagesOf(ms: seq<MessageRow>, sessionId: string): (r: seq<MessageRow>)
    ensures forall m :: m in r <==> m in ms && m.sessionId == sessionId
    ensures IdsIncreasing(ms) ==> IdsIncreasing(r)
    ensures (forall k :: 0 <= k < |ms| ==> ms[k].sessionId != sessionId) ==> r == []
  {
    if ms == [] then []
    else
      var rest := MessagesOf(ms[1..], sessionId);
      MembersOfTail(ms);
      if ms[0].sessionId == sessionId then
        assert IdsIncreasing(ms) ==> IdsIncreasing([ms[0]] + rest) by {
          if IdsIncreasing(ms) {
            forall k | 0 <= k < |rest| ensures ms[0].id < rest[k].id {
              FirstIdIsSmallest(ms, rest[k]);
            }
            ConsKeepsIdsIncreasing(ms[0], rest);
          }
        }
        [ms[0]] + rest
      else rest
  }

  /** An element of a non-empty sequence is its head or an element of its tail. */
  lemma MembersOfTail<T>(s: seq<T>)
    requires s != []
    ensures forall x :: x in s <==> x == s[0] || x in s[1..]
  {
    assert s == [s[0]] + s[1..];
  }

  lemma FirstIdIsSmallest(ms: seq<MessageRow>, m: MessageRow)
    requires IdsIncreasing(ms) && ms != [] && m in ms[1..]
    ensures ms[0].id < m.id
  {
    var j :| 0 <= j < |ms[1..]| && ms[1..][j] == m;
    assert ms[j + 1] == m;
  }

  lemma ConsKeepsIdsIncreasing(m: MessageRow, rest: seq<MessageRow>)
    requires IdsIncreasing(rest) && forall k :: 0 <= k < |rest| ==> m.id < rest[k].id
    ensures IdsIncreasing([m] + rest)
  {
    var r := [m] + rest;
    forall i, j | 0 <= i < j < |r| ensures MessageId(r[i]) < MessageId(r[j]) {
      assert r[j] == rest[j - 1];
      if i > 0 {
        assert r[i] == rest[i - 1];
      }
    }
  }

  lemma FirstKeyIsUnique(ps: seq<PromptRow>, p: PromptRow)
    requires UniquePromptKeys(ps) && ps != [] && p in ps[1..]
    ensures !SameKey(ps[0], p)
  {
    var j :| 0 <= j < |ps[1..]| && ps[1..][j] == p;
    assert ps[j + 1] == p;
  }

  /** A message the core is about to add: role, text and audio URL. */
  datatype NewMessage = NewMessage(role: string, text: string, audioUrl: Option<string>)

  /** The part of a stored row that its writer chose. */
  function Content(m: MessageRow): NewMessage {
    NewMessage(m.role, m.text, m.audioUrl)
  }

  /** The table after db_add_message has been called for each of news in turn, all for one
      session and at one clock reading. */
  function Appended(ms: seq<MessageRow>, sessionId: string, news: seq<NewMessage>, now: string): (r: seq<MessageRow>)
    ensures |r| == |ms| + |news| && r[..|ms|] == ms
    ensures forall i :: |ms| <= i < |r| ==> r[i].sessionId == sessionId && Content(r[i]) == news[i - |ms|]
    ensures IdsIncreasing(ms) ==> IdsIncreasing(r)
    decreases |news|
  {
    if news == [] then ms
    else
      var row := MessageRow(NextMessageId(ms), sessionId, news[0].role, news[0].text, news[0].audioUrl, now);
      var r := Appended(ms + [row], sessionId, news[1..], now);
      assert r[..|ms|] == (ms + [row])[..|ms|];
      assert r[|ms|] == row;
      assert forall i :: |ms| < i < |r| ==> Content(r[i]) == news[i - |ms|] by {
        forall i | |ms| < i < |r| ensures Content(r[i]) == news[i - |ms|] {
          assert news[1..][i - |ms + [row]|] == news[i - |ms|];
        }
      }
      r
  }

  /** Two inserts in a row are one Appended of both. */
  lemma AppendedTwice(ms: seq<MessageRow>, sessionId: string, a: NewMessage, b: NewMessage, now: string)
    ensures Appended(Appended(ms, sessionId, [a], now), sessionId, [b], now) == Appended(ms, sessionId, [a, b], now)
  {
    assert [a][1..] == [] && [b][1..] == [] && [a, b][1..] == [b];
  }

  /** Reading a session's messages after one more insert: the new row is at the end exactly
      when it belongs to that session. */
  lemma {:induction false} MessagesOfAppend(ms: seq<MessageRow>, sessionId: string, row: MessageRow)
    ensures MessagesOf(ms + [row], sessionId) ==
      MessagesOf(ms, sessionId) + (if row.sessionId == sessionId then [row] else [])
  {
    if ms != [] {
      assert (ms + [row])[1..] == ms[1..] + [row];
      MessagesOfAppend(ms[1..], sessionId, row);
    } else {
      assert MessagesOf([row], sessionId) == (if row.sessionId == sessionId then [row] else []) + MessagesOf([], sessionId);
    }
  }

  datatype MessageJson = MessageJson(id: int, role: string, text: string, audioUrl: Option<string>, createdAt: string)

  datatype MessagesPayload = MessagesPayload(sessionId: string, messages: seq<MessageJson>)

  function ToJson(m: MessageRow): MessageJson {
    MessageJson(m.id, m.role, m.text, m.audioUrl, m.createdAt)
  }

  function Rendered(rows: seq<MessageRow>): (r: seq<MessageJson>)
    ensures |r| == |rows| && forall i :: 0 <= i < |rows| ==> r[i] == ToJson(rows[i])
  {
    seq(|rows|, i requires 0 <= i < |rows| => ToJson(rows[i]))
  }

  /** db_get_messages_json: the session's messages ordered by ascending id. Because ids grow
      with every insert, that order is the order in which the messages were added. */
  function GetMessagesJson(ms: seq<MessageRow>, sessionId: string): (r: MessagesPayload)
    ensures r.sessionId == sessionId
    ensures |r.messages| == |MessagesOf(ms, sessionId)|
    ensures forall i, j :: 0 <= i < j < |r.messages| ==> r.messages[i].id <= r.messages[j].id
    ensures IdsIncreasing(ms) ==> r.messages == Rendered(MessagesOf(ms, sessionId))
  {
    var rows := MessagesOf(ms, sessionId);
    var sorted := SortBy(rows, MessageId);
    assert |sorted| == |multiset(sorted)| == |multiset(rows)| == |rows|;
    if IdsIncreasing(ms) then
      SortBySortedIsIdentity(rows, MessageId);
      MessagesPayload(sessionId, Rendered(sorted))
    else
      MessagesPayload(sessionId, Rendered(sorted))
  }

  /** The prompt rows of one (protocol, lang), in table order. */
  function PromptsFor(ps: seq<PromptRow>, protocol: string, lang: string): (r: seq<PromptRow>)
    ensures forall p :: p in r <==> p in ps && p.protocol == protocol && p.lang == lang
    ensures UniquePromptKeys(ps) ==> DistinctKeys(r, PromptStep)
  {
    if ps == [] then []
    else
      var rest := PromptsFor(ps[1..], protocol, lang);
      MembersOfTail(ps);
      if ps[0].protocol == protocol && ps[0].lang == lang then
        assert UniquePromptKeys(ps) ==> forall k :: 0 <= k < |rest| ==> ps[0].step != rest[k].step by {
          if UniquePromptKeys(ps) {
            forall k | 0 <= k < |rest| ensures ps[0].step != rest[k].step {
              FirstKeyIsUnique(ps, rest[k]);
            }
          }
        }
        [ps[0]] + rest
      else rest
  }

  /** db_list_mmse_prompts: exactly the rows of (protocol, lang), by ascending step. */
  function ListMmsePrompts(ps: seq<PromptRow>, protocol: string, lang: string): (r: seq<PromptRow>)
    ensures forall p :: p in r <==> p in ps && p.protocol == protocol && p.lang == lang
    ensures SortedBy(r, PromptStep)
    ensures multiset(r) == multiset(PromptsFor(ps, protocol, lang))
    ensures UniquePromptKeys(ps) ==> StrictlySortedBy(r, PromptStep)
  {
    var rows := PromptsFor(ps, protocol, lang);
    var r := SortBy(rows, PromptStep);
    assert forall p :: p in r <==> p in rows by {
      forall p ensures p in r <==> p in rows {
        assert p in r <==> p in multiset(r);
        assert p in rows <==> p in multiset(rows);
      }
    }
    if UniquePromptKeys(ps) then
      SortedDistinctIsStrict(r, PromptStep);
      r
    else r
  }

  /** The rows matching all three key columns, in table order. */
  function PromptsAt(ps: seq<PromptRow>, protocol: string, lang: string, step: int): (r: seq<PromptRow>)
    ensures forall p :: p in r <==> p in ps && p.protocol == protocol && p.lang == lang && p.step == step
    ensures (forall p :: p in ps ==> !(p.protocol == protocol && p.lang == lang && p.step == step)) ==> r == []
    ensures UniquePromptKeys(ps) ==> |r| <= 1
  {
    if ps == [] then []
    else
      var rest := PromptsAt(ps[1..], protocol, lang, step);
      MembersOfTail(ps);
      if ps[0].protocol == protocol && ps[0].lang == lang && ps[0].step == step then
        assert UniquePromptKeys(ps) ==> rest == [] by {
          if UniquePromptKeys(ps) {
            forall p | p in ps[1..] ensures !(p.protocol == protocol && p.lang == lang && p.step == step) {
              var j :| 0 <= j < |ps[1..]| && ps[1..][j] == p;
              assert ps[j + 1] == p;
              assert !SameKey(ps[0], ps[j + 1]);
            }
          }
        }
        [ps[0]] + rest
      else rest
  }

  /** db_get_mmse_prompt: Query.one() on (protocol, lang, step). */
  function GetMmsePrompt(ps: seq<PromptRow>, protocol: string, lang: string, step: int): (r: Result<PromptRow>)
    ensures r.Ok? ==> r.value in ps && r.value.protocol == protocol && r.value.lang == lang && r.value.step == step
    ensures r == Err(NoResultFound) <==>
      forall p :: p in ps ==> !(p.protocol == protocol && p.lang == lang && p.step == step)
    ensures r.Err? ==> r.error == NoResultFound || r.error == MultipleResultsFound
    ensures UniquePromptKeys(ps) ==> r != Err(MultipleResultsFound)
    ensures r == Err(MultipleResultsFound) <==> |PromptsAt(ps, protocol, lang, step)| > 1
    ensures r.Ok? <==> |PromptsAt(ps, protocol, lang, step)| == 1
  {
    var rows := PromptsAt(ps, protocol, lang, step);
    if |rows| == 0 then Err(NoResultFound)
    else if |rows| > 1 then Err(MultipleResultsFound)
    else
      assert rows[0] in rows;
      Ok(rows[0])
  }

  /** ensure_mmse_prompts_exist: raises a server error exactly when (protocol, lang) has no rows. */
  function EnsureMmsePromptsExist(ps: seq<PromptRow>, protocol: string, lang: string): (r: Outcome)
    ensures r.Fail? <==> forall p :: p in ps ==> !(p.protocol == protocol && p.lang == lang)
    ensures r.Fail? ==> r.error == HttpError(500, NoPromptsDetail(protocol, lang))
  {
    var rows := ListMmsePrompts(ps, protocol, lang);
    if rows == [] then Fail(HttpError(500, NoPromptsDetail(protocol, lang)))
    else
      assert rows[0] in rows;
      Pass
  }

  function NoPromptsDetail(protocol: string, lang: string): string {
    "Nessun prompt MMSE trovato nel DB: protocol=" + protocol + " lang=" + lang
  }
}
