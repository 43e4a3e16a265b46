/** The server actions behind the coach chat: asking the coach (`askCoach`),
    which records the session, the question and the answer; listing a user's
    sessions (`getChatSessions`) and one session's messages
    (`getChatMessages`); and deleting a session with its messages
    (`deleteChatSession`). */
module ChatActions {
  import opened Wrappers
  import opened Strings
  import opened Seqs
  import opened Store
  import opened Auth
  import opened Backend

  const MsgUnauthenticated := "Usuario no autenticado."
  const MsgEmptyPrompt := "Por favor, introduce una pregunta."
  const MsgCoachFailed := "Ocurri\U{00F3} un error al comunicarse con el coach de IA."
  const MsgNoAnswer := "No se recibi\U{00F3} una respuesta del coach."
  const MsgSessionsFailed := "No se pudieron cargar las conversaciones"
  const MsgMessagesFailed := "No se pudieron cargar los mensajes"
  const MsgDeleteFailed := "No se pudo eliminar la conversaci\U{00F3}n"
  const Untitled := "Conversaci\U{00F3}n sin t\U{00ED}tulo"

  const SessionPrefix := "CHAT_SESSION#"
  const MessagePrefixBase := "CHAT_MESSAGE#"
  /** The client marks the id of a session it has not saved yet with this prefix. */
  const NewPrefix := "new-"

  function SessionKey(id: string): string {
    SessionPrefix + id
  }

  /** The sort-key prefix shared by every message of session `id`. */
  function MessagePrefix(id: string): string {
    MessagePrefixBase + id + "#"
  }

  function MessageKey(id: string, t: int, role: string): string {
    MessagePrefix(id) + IntString(t) + "-" + role
  }

  /** The title stored for a new session: the first 50 characters of the
      question, with "..." when it was longer. */
  function SessionTitle(prompt: string): (t: string)
    ensures |prompt| <= 50 ==> t == prompt
    ensures |prompt| > 50 ==> |t| == 53 && t[..50] == prompt[..50] && t[50..] == "..."
  {
    Prefix(prompt, 50) + (if |prompt| > 50 then "..." else "")
  }

  function SessionItem(userId: string, id: string, prompt: string, now: int): Item {
    NewItem(UserKey(userId), SessionKey(id), userId, "CHAT_SESSION", now)
      .(timestamp := Some(now), title := Some(SessionTitle(prompt)))
  }

  function MessageItem(userId: string, id: string, role: string, content: string, now: int): Item {
    NewItem(UserKey(userId), MessageKey(id, now, role), userId, "CHAT_MESSAGE", now)
      .(timestamp := Some(now), sessionId := Some(id), messageRole := Some(role), messageContent := Some(content))
  }

  /** The session id the messages are stored under: a `new-` id loses its prefix. */
  function CurrentSessionId(sessionId: string): string {
    if StartsWith(sessionId, NewPrefix) then sessionId[|NewPrefix|..] else sessionId
  }

  /** `result.data ?? fallback`: only a null answer is replaced. */
  function Answer(coach: (string, string) -> Option<string>, prompt: string, id: string): string {
    coach(prompt, id).GetOr(MsgNoAnswer)
  }

  /** The calls `askCoach` makes when none of them fails: the session record
      for a new session, the question, the mutation, the answer. `now` is
      the time of the question, `later` the time of the answer. */
  function AskCoachPlan(userId: string, prompt: string, sessionId: string, now: int, later: int,
                        coach: (string, string) -> Option<string>): seq<Call>
  {
    var id := CurrentSessionId(sessionId);
    (if StartsWith(sessionId, NewPrefix) then [WriteCall(Create(SessionItem(userId, id, prompt, now)))] else [])
    + [WriteCall(Create(MessageItem(userId, id, "user", prompt, now))),
       MutationCall(prompt, id),
       WriteCall(Create(MessageItem(userId, id, "assistant", Answer(coach, prompt, id), later)))]
  }

  /** A reply that makes `askCoach` give up: a thrown call, or a mutation
      that came back without data. */
  predicate Stops(e: (Call, Reply)) {
    e.1.Threw? || (e.0.MutationCall? && !e.1.Done?)
  }

  /** `made` is a run of the planned calls that has not given up: each call
      is the planned one and none of them stopped the run. */
  predicate Running(made: seq<(Call, Reply)>, plan: seq<Call>) {
    CallsOf(made) <= plan && forall i :: 0 <= i < |made| ==> !Stops(made[i])
  }

  /** `made` is a whole run of `plan`: the planned calls up to the one that
      stopped it (`failed`), or all of them. */
  predicate RunOf(made: seq<(Call, Reply)>, plan: seq<Call>, failed: bool) {
    && 0 < |made|
    && CallsOf(made) <= plan
    && (forall i :: 0 <= i < |made| - 1 ==> !Stops(made[i]))
    && (failed <==> Stops(made[|made| - 1]))
    && (!failed ==> CallsOf(made) == plan)
  }

  lemma RunStep(made: seq<(Call, Reply)>, e: (Call, Reply), plan: seq<Call>)
    requires Running(made, plan) && |made| < |plan| && e.0 == plan[|made|]
    ensures !Stops(e) ==> Running(made + [e], plan)
    ensures |made + [e]| == |plan| || Stops(e) ==> RunOf(made + [e], plan, Stops(e))
  {
    var m := made + [e];
    assert CallsOf(m) == CallsOf(made) + [e.0];
    assert plan[..|m|] == plan[..|made|] + [plan[|made|]];
    assert forall i :: 0 <= i < |m| - 1 ==> m[i] == made[i];
    if |m| == |plan| {
      assert plan[..|m|] == plan;
    }
  }

  /** One planned write of a run: send it and record it. */
  method WriteStep(db: DataClient, w: Write, ghost log0: seq<(Call, Reply)>, ghost plan: seq<Call>,
                   ghost made0: seq<(Call, Reply)>)
    returns (reply: Reply, ghost made: seq<(Call, Reply)>)
    requires db.Valid() && db.log == log0 + made0
    requires Running(made0, plan) && |made0| < |plan| && plan[|made0|] == WriteCall(w)
    modifies db
    ensures db.Valid() && db.log == log0 + made && made == made0 + [(WriteCall(w), reply)]
    ensures !reply.Threw? ==> Running(made, plan)
    ensures |made| == |plan| || reply.Threw? ==> RunOf(made, plan, reply.Threw?)
  {
    reply := db.Send(w);
    RunStep(made0, (WriteCall(w), reply), plan);
    made := made0 + [(WriteCall(w), reply)];
    assert log0 + made0 + [(WriteCall(w), reply)] == log0 + made;
  }

  /** The planned `askCoach` mutation of a run: call it and record it. */
  method MutationStep(db: DataClient, prompt: string, id: string, ghost log0: seq<(Call, Reply)>,
                      ghost plan: seq<Call>, ghost made0: seq<(Call, Reply)>)
    returns (result: MutationReply, ghost made: seq<(Call, Reply)>)
    requires db.Valid() && db.log == log0 + made0
    requires Running(made0, plan) && |made0| < |plan| && plan[|made0|] == MutationCall(prompt, id)
    modifies db
    ensures db.Valid() && db.log == log0 + made && |made| == |made0| + 1
    ensures result.Answered? ==> Running(made, plan) && result.data == db.coach(prompt, id)
    ensures !result.Answered? ==> RunOf(made, plan, true)
  {
    ghost var reply := db.NextReply();
    result := db.AskCoachMutation(prompt, id);
    RunStep(made0, (MutationCall(prompt, id), reply), plan);
    made := made0 + [(MutationCall(prompt, id), reply)];
    assert log0 + made0 + [(MutationCall(prompt, id), reply)] == log0 + made;
  }

  /** What `askCoach` returns: the answer, and the saved id of a session that was new. */
  datatype AskReply = AskReply(response: string, newSessionId: Option<string>)

  /** `askCoach(prompt, sessionId)`; `made` is the calls it made, with their replies. */
  method AskCoach(db: DataClient, user: Option<User>, prompt: string, sessionId: string, now: int, later: int)
    returns (r: Result<AskReply, string>, ghost made: seq<(Call, Reply)>)
    requires db.Valid()
    modifies db
    ensures db.Valid()
    ensures db.log == old(db.log) + made
    ensures user.None? ==> r == Err(MsgUnauthenticated) && made == []
    ensures user.Some? && Trim(prompt) == "" ==> r == Ok(AskReply(MsgEmptyPrompt, None)) && made == []
    ensures user.Some? && Trim(prompt) != "" ==>
              RunOf(made, AskCoachPlan(user.value.userId, prompt, sessionId, now, later, db.coach), r.Err?)
    ensures user.Some? && Trim(prompt) != "" && r.Err? ==> r.error == MsgCoachFailed
    ensures user.Some? && r.Ok? && Trim(prompt) != "" ==>
              r.value == AskReply(Answer(db.coach, prompt, CurrentSessionId(sessionId)),
                                  if StartsWith(sessionId, NewPrefix) then Some(CurrentSessionId(sessionId)) else None)
  {
    made := [];
    if user.None? {
      return Err(MsgUnauthenticated), made;
    }
    if prompt == "" || |Trim(prompt)| == 0 {
      return Ok(AskReply(MsgEmptyPrompt, None)), made;
    }
    r, made := Converse(db, user.value.userId, prompt, sessionId, now, later);
  }

  /** The part of `askCoach` after its guards: the writes and the mutation of
      one exchange, in order, until the first one that fails. */
  method Converse(db: DataClient, userId: string, prompt: string, sessionId: string, now: int, later: int)
    returns (r: Result<AskReply, string>, ghost made: seq<(Call, Reply)>)
    requires db.Valid()
    modifies db
    ensures db.Valid()
    ensures db.log == old(db.log) + made
    ensures RunOf(made, AskCoachPlan(userId, prompt, sessionId, now, later, db.coach), r.Err?)
    ensures r.Err? ==> r.error == MsgCoachFailed
    ensures r.Ok? ==>
              r.value == AskReply(Answer(db.coach, prompt, CurrentSessionId(sessionId)),
                                  if StartsWith(sessionId, NewPrefix) then Some(CurrentSessionId(sessionId)) else None)
  {
    made := [];
    ghost var log0 := db.log;
    ghost var plan := AskCoachPlan(userId, prompt, sessionId, now, later, db.coach);
    var currentSessionId := sessionId;
    var isNewSession := false;
    var reply: Reply;
    if StartsWith(sessionId, NewPrefix) {
      currentSessionId := sessionId[|NewPrefix|..];
      isNewSession := true;
      reply, made := WriteStep(db, Create(SessionItem(userId, currentSessionId, prompt, now)), log0, plan, made);
      if reply.Threw? {
        return Err(MsgCoachFailed), made;
      }
    }
    assert |made| == if isNewSession then 1 else 0;
    reply, made := WriteStep(db, Create(MessageItem(userId, currentSessionId, "user", prompt, now)), log0, plan, made);
    if reply.Threw? {
      return Err(MsgCoachFailed), made;
    }
    var result;
    result, made := MutationStep(db, prompt, currentSessionId, log0, plan, made);
    if !result.Answered? {
      return Err(MsgCoachFailed), made;
    }
    var answer := result.data.GetOr(MsgNoAnswer);
    reply, made := WriteStep(db, Create(MessageItem(userId, currentSessionId, "assistant", answer, later)), log0, plan, made);
    if reply.Threw? {
      return Err(MsgCoachFailed), made;
    }
    r := Ok(AskReply(answer, if isNewSession then Some(currentSessionId) else None));
  }

  /** A session as `getChatSessions` shows it. */
  datatype SessionSummary = SessionSummary(id: string, title: string, timestamp: int)

  /** A message as `getChatMessages` shows it. */
  datatype ChatMessage = ChatMessage(id: string, role: Option<string>, content: string, timestamp: int)

  /** `timestamp || createdAt`: when the item was written. */
  function WrittenAt(it: Item): int {
    it.timestamp.GetOr(it.createdAt)
  }

  function SessionView(it: Item): SessionSummary {
    SessionSummary(ReplaceFirst(it.sk, SessionPrefix, ""),
                   if it.title.Some? && it.title.value != "" then it.title.value else Untitled,
                   WrittenAt(it))
  }

  function MessageView(it: Item): ChatMessage {
    ChatMessage(it.sk, it.messageRole, it.messageContent.GetOr(""), WrittenAt(it))
  }

  function SummaryTime(s: SessionSummary): int {
    s.timestamp
  }

  function MessageTime(m: ChatMessage): int {
    m.timestamp
  }

  /** `getChatSessions()`: the user's sessions, newest first. */
  function GetChatSessions(user: Option<User>, table: seq<Item>, listFails: bool): (r: Result<seq<SessionSummary>, string>)
    ensures user.None? ==> r == Err(MsgUnauthenticated)
    ensures user.Some? ==> (r.Err? <==> listFails) && (r.Err? ==> r.error == MsgSessionsFailed)
    ensures r.Ok? ==>
              && SortedBy(r.value, SummaryTime, true)
              && multiset(r.value) ==
                   multiset(Map(ListWhere(table, UserKey(user.value.userId), BeginsWith(SessionPrefix)), SessionView))
  {
    if user.None? then Err(MsgUnauthenticated)
    else if listFails then Err(MsgSessionsFailed)
    else Ok(SortBy(Map(ListWhere(table, UserKey(user.value.userId), BeginsWith(SessionPrefix)), SessionView),
                   SummaryTime, true))
  }

  /** `getChatMessages(sessionId)`: the session's messages, oldest first. */
  function GetChatMessages(user: Option<User>, sessionId: string, table: seq<Item>, listFails: bool)
    : (r: Result<seq<ChatMessage>, string>)
    ensures user.None? ==> r == Err(MsgUnauthenticated)
    ensures user.Some? ==> (r.Err? <==> listFails) && (r.Err? ==> r.error == MsgMessagesFailed)
    ensures r.Ok? ==>
              && SortedBy(r.value, MessageTime, false)
              && multiset(r.value) ==
                   multiset(Map(ListWhere(table, UserKey(user.value.userId), BeginsWith(MessagePrefix(sessionId))),
                                MessageView))
  {
    if user.None? then Err(MsgUnauthenticated)
    else if listFails then Err(MsgMessagesFailed)
    else Ok(SortBy(Map(ListWhere(table, UserKey(user.value.userId), BeginsWith(MessagePrefix(sessionId))),
                       MessageView), MessageTime, false))
  }

  /** An item of the table that passes the filter shows up, as `view` makes it,
      in the sorted listing. */
  lemma ListedView<U>(table: seq<Item>, pk: string, f: SortKeyFilter, it: Item, view: Item -> U, r: seq<U>)
    requires it in table && it.pk == pk && SortKeyMatches(it.sk, f)
    requires multiset(r) == multiset(Map(ListWhere(table, pk, f), view))
    ensures view(it) in r
  {
    var listed := ListWhere(table, pk, f);
    var i :| 0 <= i < |table| && table[i] == it;
    assert it in listed;
    var j :| 0 <= j < |listed| && listed[j] == it;
    assert Map(listed, view)[j] == view(it);
    assert view(it) in multiset(Map(listed, view));
  }

  lemma ListedAt<U>(table: seq<Item>, pk: string, f: SortKeyFilter, it: Item, view: Item -> U, r: seq<U>)
    returns (i: nat)
    requires it in table && it.pk == pk && SortKeyMatches(it.sk, f)
    requires multiset(r) == multiset(Map(ListWhere(table, pk, f), view))
    ensures i < |r| && r[i] == view(it)
  {
    ListedView(table, pk, f, it, view, r);
    i :| 0 <= i < |r| && r[i] == view(it);
  }

  lemma MessageViewOf(userId: string, id: string, role: string, content: string, t: int)
    ensures MessageView(MessageItem(userId, id, role, content, t)) == ChatMessage(MessageKey(id, t, role), Some(role), content, t)
    ensures MessageItem(userId, id, role, content, t).pk == UserKey(userId)
    ensures StartsWith(MessageItem(userId, id, role, content, t).sk, MessagePrefix(id))
  {
  }

  /** In a list sorted oldest first, an earlier message stands before a later one. */
  lemma EarlierFirst(ms: seq<ChatMessage>, i: nat, j: nat)
    requires SortedBy(ms, MessageTime, false)
    requires i < |ms| && j < |ms| && MessageTime(ms[i]) < MessageTime(ms[j])
    ensures i < j
  {
  }

  /** The session record `askCoach` stores for a new session is listed by
      `getChatSessions` under the id the client gets back, with its title. */
  lemma CreatedSessionIsListed(user: User, sessionId: string, prompt: string, now: int, table: seq<Item>)
    requires prompt != ""
    requires StartsWith(sessionId, NewPrefix)
    requires SessionItem(user.userId, CurrentSessionId(sessionId), prompt, now) in table
    ensures GetChatSessions(Some(user), table, false).Ok?
    ensures SessionSummary(CurrentSessionId(sessionId), SessionTitle(prompt), now)
              in GetChatSessions(Some(user), table, false).value
  {
    var id := CurrentSessionId(sessionId);
    var it := SessionItem(user.userId, id, prompt, now);
    assert SessionTitle(prompt) != "" by { assert |SessionTitle(prompt)| > 0; }
    ReplacePrefixWithEmpty(SessionPrefix, id);
    assert SessionView(it) == SessionSummary(id, SessionTitle(prompt), now);
    ListedView(table, UserKey(user.userId), BeginsWith(SessionPrefix), it, SessionView,
               GetChatSessions(Some(user), table, false).value);
  }

  /** A question and its answer stored by `askCoach` are both listed by
      `getChatMessages`, the question first. */
  lemma ExchangeIsListed(user: User, id: string, prompt: string, answer: string, now: int, later: int,
                         table: seq<Item>)
    requires now < later
    requires MessageItem(user.userId, id, "user", prompt, now) in table
    requires MessageItem(user.userId, id, "assistant", answer, later) in table
    ensures GetChatMessages(Some(user), id, table, false).Ok?
    ensures var ms := GetChatMessages(Some(user), id, table, false).value;
            exists i, j :: 0 <= i < j < |ms|
              && ms[i] == ChatMessage(MessageKey(id, now, "user"), Some("user"), prompt, now)
              && ms[j] == ChatMessage(MessageKey(id, later, "assistant"), Some("assistant"), answer, later)
  {
    var ms := GetChatMessages(Some(user), id, table, false).value;
    var q := MessageItem(user.userId, id, "user", prompt, now);
    var a := MessageItem(user.userId, id, "assistant", answer, later);
    var f := BeginsWith(MessagePrefix(id));
    MessageViewOf(user.userId, id, "user", prompt, now);
    MessageViewOf(user.userId, id, "assistant", answer, later);
    var i := ListedAt(table, UserKey(user.userId), f, q, MessageView, ms);
    var j := ListedAt(table, UserKey(user.userId), f, a, MessageView, ms);
    EarlierFirst(ms, i, j);
    assert ms[i] == ChatMessage(MessageKey(id, now, "user"), Some("user"), prompt, now);
    assert ms[j] == ChatMessage(MessageKey(id, later, "assistant"), Some("assistant"), answer, later);
  }

  /** Message keys and session keys never match each other's filters, so
      `getChatSessions` lists no message and a message list holds no session. */
  lemma KeysDisjoint(id: string, other: string, t: int, role: string)
    ensures !StartsWith(MessageKey(id, t, role), SessionPrefix)
    ensures !StartsWith(SessionKey(other), MessagePrefix(id))
  {
    assert MessageKey(id, t, role)[5] == 'M';
    assert SessionKey(other)[5] == 'S';
  }

  /** With session ids free of '#' (the client makes them from UUIDs), the
      messages listed for one session never include another session's. */
  lemma SessionsIsolated(id: string, other: string, t: int, role: string)
    requires '#' !in id && '#' !in other && id != other
    ensures !StartsWith(MessageKey(other, t, role), MessagePrefix(id))
  {
    var k := MessageKey(other, t, role);
    var p := MessagePrefix(id);
    var n := |MessagePrefixBase|;
    assert k[..n + |other|] == MessagePrefixBase + other;
    assert k[n + |other|] == '#';
    assert p[n + |id|] == '#';
    if |id| < |other| {
      assert k[n + |id|] == other[|id|];
    } else if |id| > |other| {
      assert p[n + |other|] == id[|other|];
    } else {
      assert p[n..n + |id|] == id;
      assert k[n..n + |other|] == other;
    }
  }

  /** The item belongs to session `id` of the user with partition key `pk`:
      it is one of its messages or the session record. */
  predicate InSession(it: Item, pk: string, id: string) {
    it.pk == pk && (StartsWith(it.sk, MessagePrefix(id)) || it.sk == SessionKey(id))
  }

  /** A reply that makes `deleteChatSession` give up: a thrown call, or a
      list that came back without data. A delete answered with GraphQL
      errors goes unnoticed. */
  predicate Fails(e: (Call, Reply)) {
    e.1.Threw? || (e.0.ListCall? && !e.1.Done?)
  }

  predicate AllDone(made: seq<(Call, Reply)>) {
    forall i :: 0 <= i < |made| ==> made[i].1 == Done
  }

  /** What deleting one item of the session keeps: the table only loses
      items, keeps every item outside the session, and no deleted key comes back. */
  lemma DeleteOne(before: seq<Item>, t0: seq<Item>, pk: string, id: string, m: Item, reply: Reply)
    requires InSession(m, pk, id)
    requires forall k :: 0 <= k < |before| ==> before[k] in t0
    requires forall k :: 0 <= k < |t0| && !InSession(t0[k], pk, id) ==> t0[k] in before
    ensures var after := Apply(before, Delete(m.pk, m.sk), reply);
            && (forall k :: 0 <= k < |after| ==> after[k] in t0)
            && (forall k :: 0 <= k < |t0| && !InSession(t0[k], pk, id) ==> t0[k] in after)
            && (forall pk2, sk2 :: Lookup(before, pk2, sk2).None? ==> Lookup(after, pk2, sk2).None?)
            && (reply.Done? ==> Lookup(after, m.pk, m.sk).None?)
  {
    if reply.Done? {
      var after := Without(before, m.pk, m.sk);
      LookupWithout(before, m.pk, m.sk);
      forall k | 0 <= k < |after| ensures after[k] in t0 {
        var j :| 0 <= j < |before| && before[j] == after[k];
      }
      forall k | 0 <= k < |t0| && !InSession(t0[k], pk, id) ensures t0[k] in after {
        WithoutKeeps(before, m.pk, m.sk, t0[k]);
      }
    }
  }

  /** Once every item a listing returned is gone, and nothing was added, the
      same listing comes back empty. */
  lemma NoneLeft(t0: seq<Item>, t1: seq<Item>, pk: string, f: SortKeyFilter)
    requires forall k :: 0 <= k < |t1| ==> t1[k] in t0
    requires forall k :: 0 <= k < |ListWhere(t0, pk, f)| ==>
               Lookup(t1, ListWhere(t0, pk, f)[k].pk, ListWhere(t0, pk, f)[k].sk).None?
    ensures ListWhere(t1, pk, f) == []
  {
    var l0 := ListWhere(t0, pk, f);
    forall k | 0 <= k < |t1| ensures !(t1[k].pk == pk && SortKeyMatches(t1[k].sk, f)) {
      assert Lookup(t1, t1[k].pk, t1[k].sk).Some?;
      var j :| 0 <= j < |t0| && t0[j] == t1[k];
      assert t1[k] !in l0;
    }
  }

  lemma AllDonePrefix(made: seq<(Call, Reply)>, n: nat)
    requires n <= |made| && AllDone(made)
    ensures AllDone(made[..n])
  {
  }

  predicate NoFails(made: seq<(Call, Reply)>) {
    forall i :: 0 <= i < |made| ==> !Fails(made[i])
  }

  /** A log that grows by one entry keeps its prefix, and is all `Done`
      only when the prefix was and the new reply is. */
  lemma LogExtends(made0: seq<(Call, Reply)>, before: seq<(Call, Reply)>, e: (Call, Reply), made: seq<(Call, Reply)>)
    requires made == before + [e] && |made0| <= |before| && before[..|made0|] == made0 && NoFails(before)
    ensures |made0| < |made| && made[..|made0|] == made0 && made[..|made| - 1] == before
    ensures made[|made| - 1] == e && NoFails(made[..|made| - 1])
    ensures !Fails(e) ==> NoFails(made)
    ensures AllDone(made) ==> AllDone(before) && e.1 == Done
  {
    assert made[..|made0|] == before[..|made0|];
    assert made[..|made| - 1] == before;
    if AllDone(made) {
      forall j | 0 <= j < |before| ensures before[j].1 == Done {
        assert made[j] == before[j];
      }
    }
  }

  /** One delete of that loop: `made` grows by the call and its reply. */
  method DeleteStep(db: DataClient, m: Item, ghost pk: string, ghost id: string,
                    ghost t0: seq<Item>, ghost log0: seq<(Call, Reply)>, ghost made0: seq<(Call, Reply)>)
    returns (reply: Reply, ghost made: seq<(Call, Reply)>)
    requires db.Valid() && db.log == log0 + made0
    requires InSession(m, pk, id)
    requires forall k :: 0 <= k < |db.table| ==> db.table[k] in t0
    requires forall k :: 0 <= k < |t0| && !InSession(t0[k], pk, id) ==> t0[k] in db.table
    modifies db
    ensures db.Valid() && made == made0 + [(WriteCall(Delete(m.pk, m.sk)), reply)] && db.log == log0 + made
    ensures forall k :: 0 <= k < |db.table| ==> db.table[k] in t0
    ensures forall k :: 0 <= k < |t0| && !InSession(t0[k], pk, id) ==> t0[k] in db.table
    ensures forall pk2, sk2 :: Lookup(old(db.table), pk2, sk2).None? ==> Lookup(db.table, pk2, sk2).None?
    ensures reply.Done? ==> Lookup(db.table, m.pk, m.sk).None?
  {
    ghost var before := db.table;
    reply := db.Send(Delete(m.pk, m.sk));
    made := made0 + [(WriteCall(Delete(m.pk, m.sk)), reply)];
    DeleteOne(before, t0, pk, id, m, reply);
  }

  /** The loop of `deleteChatSession` over the listed messages: delete each
      one that has a key, and give up when a delete throws. */
  method DeleteMessages(db: DataClient, messages: seq<Item>, ghost pk: string, ghost id: string,
                        ghost t0: seq<Item>, ghost log0: seq<(Call, Reply)>, ghost made0: seq<(Call, Reply)>)
    returns (threw: bool, ghost made: seq<(Call, Reply)>)
    requires db.Valid() && db.log == log0 + made0 && NoFails(made0)
    requires forall k :: 0 <= k < |messages| ==> InSession(messages[k], pk, id)
    requires forall k :: 0 <= k < |db.table| ==> db.table[k] in t0
    requires forall k :: 0 <= k < |t0| && !InSession(t0[k], pk, id) ==> t0[k] in db.table
    modifies db
    ensures db.Valid() && db.log == log0 + made && |made0| <= |made| && made[..|made0|] == made0
    ensures !threw ==> NoFails(made)
    ensures threw ==> |made0| < |made| && Fails(made[|made| - 1]) && NoFails(made[..|made| - 1])
    ensures forall k :: 0 <= k < |db.table| ==> db.table[k] in t0
    ensures forall k :: 0 <= k < |t0| && !InSession(t0[k], pk, id) ==> t0[k] in db.table
    ensures !threw && AllDone(made) ==>
              forall k :: 0 <= k < |messages| && messages[k].pk != "" && messages[k].sk != "" ==>
                Lookup(db.table, messages[k].pk, messages[k].sk).None?
  {
    made := made0;
    var i := 0;
    while i < |messages|
      invariant 0 <= i <= |messages|
      invariant db.Valid() && db.log == log0 + made && |made0| <= |made| && made[..|made0|] == made0
      invariant NoFails(made)
      invariant forall k :: 0 <= k < |db.table| ==> db.table[k] in t0
      invariant forall k :: 0 <= k < |t0| && !InSession(t0[k], pk, id) ==> t0[k] in db.table
      invariant AllDone(made) ==>
                  forall k :: 0 <= k < i && messages[k].pk != "" && messages[k].sk != "" ==>
                    Lookup(db.table, messages[k].pk, messages[k].sk).None?
    {
      var m := messages[i];
      if m.pk != "" && m.sk != "" {
        ghost var madeBefore := made;
        var reply;
        reply, made := DeleteStep(db, m, pk, id, t0, log0, made);
        LogExtends(made0, madeBefore, (WriteCall(Delete(m.pk, m.sk)), reply), made);
        if reply.Threw? {
          return true, made;
        }
      }
      i := i + 1;
    }
    threw := false;
  }

  /** The end of `deleteChatSession`: look the session record up and delete
      it; `failed` when the lookup has no data or the delete throws. */
  method DeleteSessionRecord(db: DataClient, pk: string, id: string,
                             ghost t0: seq<Item>, ghost log0: seq<(Call, Reply)>, ghost made0: seq<(Call, Reply)>)
    returns (failed: bool, ghost made: seq<(Call, Reply)>)
    requires db.Valid() && db.log == log0 + made0 && NoFails(made0) && pk != ""
    requires forall k :: 0 <= k < |db.table| ==> db.table[k] in t0
    requires forall k :: 0 <= k < |t0| && !InSession(t0[k], pk, id) ==> t0[k] in db.table
    modifies db
    ensures db.Valid() && db.log == log0 + made && |made0| < |made| && made[..|made0|] == made0
    ensures NoFails(made[..|made| - 1]) && (failed <==> Fails(made[|made| - 1]))
    ensures forall k :: 0 <= k < |db.table| ==> db.table[k] in t0
    ensures forall k :: 0 <= k < |t0| && !InSession(t0[k], pk, id) ==> t0[k] in db.table
    ensures forall pk2, sk2 :: Lookup(old(db.table), pk2, sk2).None? ==> Lookup(db.table, pk2, sk2).None?
    ensures !failed && AllDone(made) ==> Lookup(db.table, pk, SessionKey(id)).None?
  {
    ghost var t1 := db.table;
    var byKey := Equals(SessionKey(id));
    ghost var reply1 := db.NextReply();
    var sessions := db.List(pk, byKey);
    made := made0 + [(ListCall(pk, byKey), reply1)];
    assert db.log == log0 + made;
    assert made[..|made0|] == made0;
    assert made[..|made| - 1] == made0;
    if sessions.Err? {
      return true, made;
    }
    ghost var madeList := made;
    if |sessions.value| > 0 && sessions.value[0].pk != "" && sessions.value[0].sk != "" {
      var s0 := sessions.value[0];
      var reply := db.Send(Delete(s0.pk, s0.sk));
      made := made + [(WriteCall(Delete(s0.pk, s0.sk)), reply)];
      assert db.log == log0 + made;
      assert made[..|made0|] == made0;
      assert made[..|made| - 1] == madeList;
      DeleteOne(t1, t0, pk, id, s0, reply);
      failed := reply.Threw?;
    } else {
      failed := false;
      UnlistedKeyAbsent(t1, pk, SessionKey(id));
    }
  }

  /** `deleteChatSession(sessionId)`; `made` is the calls it made, with their replies. */
  method DeleteChatSession(db: DataClient, user: Option<User>, sessionId: string)
    returns (r: Result<bool, string>, ghost made: seq<(Call, Reply)>)
    requires db.Valid()
    modifies db
    ensures db.Valid() && db.log == old(db.log) + made
    ensures user.None? ==> r == Err(MsgUnauthenticated) && made == []
    ensures user.Some? ==> 0 < |made| && NoFails(made[..|made| - 1])
    ensures user.Some? ==> (r == Ok(true) <==> !Fails(made[|made| - 1])) && (r.Err? ==> r.error == MsgDeleteFailed)
    ensures forall i :: 0 <= i < |db.table| ==> db.table[i] in old(db.table)
    ensures user.Some? ==>
              forall i :: 0 <= i < |old(db.table)| && !InSession(old(db.table)[i], UserKey(user.value.userId), sessionId)
                ==> old(db.table)[i] in db.table
    ensures user.Some? && AllDone(made) ==>
              && r == Ok(true)
              && ListWhere(db.table, UserKey(user.value.userId), BeginsWith(MessagePrefix(sessionId))) == []
              && Lookup(db.table, UserKey(user.value.userId), SessionKey(sessionId)).None?
  {
    made := [];
    if user.None? {
      return Err(MsgUnauthenticated), made;
    }
    var pk := UserKey(user.value.userId);
    assert pk[0] == 'U';
    ghost var t0 := db.table;
    ghost var log0 := db.log;
    var byPrefix := BeginsWith(MessagePrefix(sessionId));
    ghost var reply0 := db.NextReply();
    var listed := db.List(pk, byPrefix);
    made := [(ListCall(pk, byPrefix), reply0)];
    if listed.Err? {
      return Err(MsgDeleteFailed), made;
    }
    var messages := listed.value;
    var threw;
    threw, made := DeleteMessages(db, messages, pk, sessionId, t0, log0, made);
    if threw {
      return Err(MsgDeleteFailed), made;
    }
    ghost var madeMessages := made;
    ghost var t1 := db.table;
    var failed;
    failed, made := DeleteSessionRecord(db, pk, sessionId, t0, log0, made);
    if failed {
      return Err(MsgDeleteFailed), made;
    }
    r := Ok(true);
    if AllDone(made) {
      AllDonePrefix(made, |madeMessages|);
      MessagesCleared(t0, t1, db.table, pk, sessionId);
    }
  }

  /** When every listed message of the session was deleted and the next step
      only removed items, the session's message listing comes back empty. */
  lemma MessagesCleared(t0: seq<Item>, t1: seq<Item>, t2: seq<Item>, pk: string, sessionId: string)
    requires forall k :: 0 <= k < |t2| ==> t2[k] in t0
    requires var listed := ListWhere(t0, pk, BeginsWith(MessagePrefix(sessionId)));
             forall k :: 0 <= k < |listed| && listed[k].pk != "" && listed[k].sk != "" ==>
               Lookup(t1, listed[k].pk, listed[k].sk).None?
    requires forall pk2, sk2 :: Lookup(t1, pk2, sk2).None? ==> Lookup(t2, pk2, sk2).None?
    requires pk != ""
    ensures ListWhere(t2, pk, BeginsWith(MessagePrefix(sessionId))) == []
  {
    var byPrefix := BeginsWith(MessagePrefix(sessionId));
    var messages := ListWhere(t0, pk, byPrefix);
    forall k | 0 <= k < |messages| ensures Lookup(t2, messages[k].pk, messages[k].sk).None? {
      assert messages[k].pk != "" && messages[k].sk != "" by {
        assert StartsWith(messages[k].sk, MessagePrefix(sessionId));
      }
      assert Lookup(t1, messages[k].pk, messages[k].sk).None?;
    }
    NoneLeft(t0, t2, pk, byPrefix);
  }
}
