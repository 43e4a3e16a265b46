/** The `askCoach` resolver: it works out who is asking, retrieves the five
    logs closest to the question from the asker's namespace of the vector
    index, reads the asker's profile and, inside a conversation, its recent
    messages, composes one prompt from all of it and returns the chat model's
    answer. */
module AskCoachHandler {
  import opened Wrappers
  import opened Strings
  import opened Seqs
  import opened Store
  import opened Forms
  import opened Backend
  import ChatActions

  const Unauthenticated := "Usuario no autenticado."
  const EmbedModel := "text-embedding-3-small"
  const EmbedDimensions := 512
  const TopK := 5
  const ChatModel := "gpt-4o-mini"
  const MaxTokens := 1000
  const HistoryLimit := 10
  const ProfileSortKey := "PROFILE"
  const NoProfile := "No se encontr\U{00F3} el perfil del usuario."
  const NoActivities := "No hay actividades recientes relevantes."
  const FirstQuestion := "Esta es la primera pregunta en esta sesi\U{00F3}n."
  const NoAnswer := "No pude generar una respuesta."
  const ErrorPrefix := "Ocurri\U{00F3} un error al procesar tu pregunta: "
  const QuestionLabel := "Pregunta del Usuario: "

  /** The identity AppSync passes: each field is the string it holds, or None
      when it is absent or not a string. */
  datatype Identity = Identity(sub: Option<string>, username: Option<string>, issuer: Option<string>)

  /** The user id the resolver settles on: `sub`, else `username`, else `issuer`. */
  function UserIdOf(identity: Option<Identity>): Option<string> {
    match identity
    case None => None
    case Some(id) =>
      if id.sub.Some? then id.sub
      else if id.username.Some? then id.username
      else id.issuer
  }

  /** The first field that is present, in order of preference. */
  function FirstPresent(fields: seq<Option<string>>): Option<string>
    decreases |fields|
  {
    if |fields| == 0 then None
    else if fields[0].Some? then fields[0]
    else FirstPresent(fields[1..])
  }

  /** The resolver prefers `sub`, then `username`, then `issuer`. */
  lemma UserIdIsFirstPresent(id: Identity)
    ensures UserIdOf(Some(id)) == FirstPresent([id.sub, id.username, id.issuer])
  {
    var fs := [id.sub, id.username, id.issuer];
    assert fs[1..] == [id.username, id.issuer];
    assert fs[1..][1..] == [id.issuer];
    assert fs[1..][1..][1..] == [];
    assert FirstPresent(fs[1..][1..]) == id.issuer;
    assert FirstPresent(fs[1..]) == if id.username.Some? then id.username else id.issuer;
  }

  /** An empty `sub` is chosen and then refused: a later field never stands in for it. */
  lemma EmptySubIsRefused(id: Identity)
    requires id.sub == Some("")
    ensures !Truthy(UserIdOf(Some(id)))
  {
  }

  type Embedding = seq<int>

  /** One match of the index: the `originalNotes` of its metadata, if it is there. */
  datatype Match = Match(originalNotes: Option<string>)

  /** What the prompt template is filled in with; the text the chat model
      receives is `AugmentedPrompt` of its four fields. */
  datatype Prompt = Prompt(profileContext: string, logsContext: string, historyContext: string, question: string)

  /** A call to the embedding API, the vector index or the chat API. */
  datatype AiCall =
    | EmbedPromptCall(model: string, input: string, dimensions: nat)
    | QueryCall(namespace: string, topK: nat, vector: Embedding, includeMetadata: bool)
    | CompletionCall(model: string, prompt: Prompt, maxTokens: nat)

  /** The OpenAI and Pinecone clients as the resolver sees them. */
  class CoachAi {
    /** Every call made, in order, with whether it succeeded. */
    var log: seq<(AiCall, bool)>
    /** The message of the error call number n throws, for the calls that throw. */
    const failing: map<nat, string>
    /** The embedding the API returns for an input. */
    const embedder: string -> Embedding
    /** All matches of a vector in a namespace, best first. */
    const ranking: (string, Embedding) -> seq<Match>
    /** The content of the model's first choice for the prompt text that p
        fills in (null as None). */
    const completer: Prompt -> Option<string>

    constructor (fails: map<nat, string>, embeds: string -> Embedding,
                 ranks: (string, Embedding) -> seq<Match>, completes: Prompt -> Option<string>)
      ensures log == [] && failing == fails && embedder == embeds
      ensures ranking == ranks && completer == completes
    {
      log := [];
      failing := fails;
      embedder := embeds;
      ranking := ranks;
      completer := completes;
    }

    /** `openai.embeddings.create(...)` of the prompt. */
    method EmbedPrompt(input: string) returns (r: Result<Embedding, string>)
      modifies this
      ensures log == old(log) + [(EmbedPromptCall(EmbedModel, input, EmbedDimensions), |old(log)| !in failing)]
      ensures r == if |old(log)| in failing then Err(failing[|old(log)|]) else Ok(embedder(input))
    {
      var n := |log|;
      log := log + [(EmbedPromptCall(EmbedModel, input, EmbedDimensions), n !in failing)];
      r := if n in failing then Err(failing[n]) else Ok(embedder(input));
    }

    /** `index.namespace(ns).query({ topK, vector, includeMetadata: true })`:
        the topK best matches. */
    method Query(namespace: string, topK: nat, vector: Embedding) returns (r: Result<seq<Match>, string>)
      modifies this
      ensures log == old(log) + [(QueryCall(namespace, topK, vector, true), |old(log)| !in failing)]
      ensures r == if |old(log)| in failing then Err(failing[|old(log)|]) else Ok(Take(ranking(namespace, vector), topK))
    {
      var n := |log|;
      log := log + [(QueryCall(namespace, topK, vector, true), n !in failing)];
      r := if n in failing then Err(failing[n]) else Ok(Take(ranking(namespace, vector), topK));
    }

    /** `openai.chat.completions.create(...)` with one user message. */
    method Complete(prompt: Prompt) returns (r: Result<Option<string>, string>)
      modifies this
      ensures log == old(log) + [(CompletionCall(ChatModel, prompt, MaxTokens), |old(log)| !in failing)]
      ensures r == if |old(log)| in failing then Err(failing[|old(log)|]) else Ok(completer(prompt))
    {
      var n := |log|;
      log := log + [(CompletionCall(ChatModel, prompt, MaxTokens), n !in failing)];
      r := if n in failing then Err(failing[n]) else Ok(completer(prompt));
    }
  }

  predicate HasNotes(m: Match) {
    Truthy(m.originalNotes)
  }

  function NoteOf(m: Match): string {
    m.originalNotes.GetOr("")
  }

  /** The notes of the matches, in match order, missing and empty ones dropped,
      joined with a new bullet. */
  function RetrievedContext(matches: seq<Match>): string {
    Join(Map(Filter(matches, HasNotes), NoteOf), "\n- ")
  }

  /** The context is empty exactly when no match carries notes. */
  lemma ContextEmptyIffNoNotes(matches: seq<Match>)
    ensures RetrievedContext(matches) == "" <==> forall i :: 0 <= i < |matches| ==> !HasNotes(matches[i])
  {
    var kept := Filter(matches, HasNotes);
    var notes := Map(kept, NoteOf);
    JoinEmpty(notes, "\n- ");
    if exists i :: 0 <= i < |matches| && HasNotes(matches[i]) {
      var i :| 0 <= i < |matches| && HasNotes(matches[i]);
      assert matches[i] in kept;
    }
  }

  /** Every note a match carries reaches the context. */
  lemma ContextListsEveryNote(matches: seq<Match>, i: nat)
    requires i < |matches| && HasNotes(matches[i])
    ensures Includes(RetrievedContext(matches), matches[i].originalNotes.value)
  {
    var kept := Filter(matches, HasNotes);
    assert matches[i] in kept;
    var j :| 0 <= j < |kept| && kept[j] == matches[i];
    JoinIncludesPart(Map(kept, NoteOf), "\n- ", j);
  }

  /** How a template literal writes a string field that may be null. */
  function TextOf(v: Option<string>): string {
    match v
    case Some(s) => s
    case None => "null"
  }

  /** How a template literal writes a number field that may be null. */
  function NumberOf(v: Option<int>): string {
    match v
    case Some(n) => IntString(n)
    case None => "null"
  }

  /** The profile sentence with the goals, weight and age, as the source writes
      it: with a stray closing brace after the final period. This is the
      sentence the prompt carries. */
  function ProfileContextAsWritten(profile: Option<Item>): string {
    match profile
    case None => NoProfile
    case Some(p) =>
      "Objetivos: " + TextOf(p.fitnessGoals) + ", Peso: " + NumberOf(p.weight) + "kg, Edad: "
      + NumberOf(p.age) + " a\U{00F1}os.}"
  }

  /** The brace ends every profile sentence the source builds. */
  lemma StrayBraceInProfile(p: Item)
    ensures ProfileContextAsWritten(Some(p))[|ProfileContextAsWritten(Some(p))| - 2..] == ".}"
  {
  }

  /** The end of the profile sentence. */
  const YearsEnd := " a\U{00F1}os."

  /** The profile sentence without the stray brace, as it is evidently meant:
      the corrected counterpart of `ProfileContextAsWritten`. */
  function ProfileContext(profile: Option<Item>): string {
    match profile
    case None => NoProfile
    case Some(p) =>
      "Objetivos: " + TextOf(p.fitnessGoals) + ", Peso: " + NumberOf(p.weight) + "kg, Edad: "
      + NumberOf(p.age) + YearsEnd
  }

  /** A stored profile shows its goals, then its weight and age, and ends the
      sentence cleanly; without one the fixed sentence stands in. */
  lemma ProfileContextStates(profile: Option<Item>)
    ensures profile.None? ==> ProfileContext(profile) == NoProfile
    ensures profile.Some? ==> Includes(ProfileContext(profile), "Objetivos: " + TextOf(profile.value.fitnessGoals))
    ensures profile.Some? ==>
              Includes(ProfileContext(profile), ", Peso: " + NumberOf(profile.value.weight) + "kg, Edad: " + NumberOf(profile.value.age))
    ensures profile.Some? ==> |ProfileContext(profile)| >= |YearsEnd| &&
                              ProfileContext(profile)[|ProfileContext(profile)| - |YearsEnd|..] == YearsEnd
  {
    if profile.Some? {
      var p := profile.value;
      var goals := "Objetivos: " + TextOf(p.fitnessGoals);
      var middle := ", Peso: " + NumberOf(p.weight) + "kg, Edad: " + NumberOf(p.age);
      assert ProfileContext(profile) == goals + middle + YearsEnd;
      SentenceParts(goals, middle, YearsEnd);
    }
  }

  /** The three parts of a sentence occur in it, and the last ends it. */
  lemma SentenceParts(first: string, middle: string, last: string)
    ensures Includes(first + middle + last, first)
    ensures Includes(first + middle + last, middle)
    ensures (first + middle + last)[|first + middle + last| - |last|..] == last
  {
    assert first + middle + last == "" + first + (middle + last);
    IncludesMiddle("", first, middle + last);
    IncludesMiddle(first, middle, last);
  }

  /** The sentence as written is the corrected one with the brace appended;
      without a profile the two agree. */
  lemma BraceIsTheOnlyDifference(profile: Option<Item>)
    ensures profile.None? ==> ProfileContextAsWritten(profile) == ProfileContext(profile)
    ensures profile.Some? ==> ProfileContextAsWritten(profile) == ProfileContext(profile) + "}"
  {
    if profile.Some? {
      var p := profile.value;
      var middle := "Objetivos: " + TextOf(p.fitnessGoals) + ", Peso: " + NumberOf(p.weight) + "kg, Edad: " + NumberOf(p.age);
      assert ProfileContext(profile) == middle + YearsEnd;
      assert ProfileContextAsWritten(profile) == middle + " a\U{00F1}os.}";
      assert " a\U{00F1}os.}" == YearsEnd + "}";
    }
  }

  /** What the message list comes back as: the messages in ascending order,
      the first ten of them. */
  function ServiceHistory(items: seq<Item>): (r: seq<Item>)
    ensures |r| <= HistoryLimit
    ensures SortedBy(r, ChatActions.WrittenAt, false)
    ensures forall i :: 0 <= i < |r| ==> r[i] in items
    ensures |items| <= HistoryLimit ==> multiset(r) == multiset(items)
  {
    var sorted := SortBy(items, ChatActions.WrittenAt, false);
    var r := Take(sorted, HistoryLimit);
    forall i | 0 <= i < |r| ensures r[i] in items {
      assert r[i] == sorted[i];
      assert r[i] in multiset(sorted);
    }
    r
  }

  /** One line of the history: `role: content`. */
  function HistoryLine(it: Item): string {
    TextOf(it.messageRole) + ": " + TextOf(it.messageContent)
  }

  /** The conversation so far, one line per message; a response without data
      gives nothing. */
  function HistoryContext(data: Option<seq<Item>>): string {
    match data
    case None => ""
    case Some(items) => Join(Map(ServiceHistory(items), HistoryLine), "\n")
  }

  /** Each line of the history is one of the session's messages, oldest
      first, and there are at most ten. */
  lemma HistoryShape(items: seq<Item>)
    ensures HistoryContext(Some(items)) == "" <==> |ServiceHistory(items)| == 0
    ensures |Map(ServiceHistory(items), HistoryLine)| <= HistoryLimit
    ensures forall i :: 0 <= i < |ServiceHistory(items)| ==>
              Includes(HistoryContext(Some(items)), HistoryLine(ServiceHistory(items)[i]))
  {
    var lines := Map(ServiceHistory(items), HistoryLine);
    forall i | 0 <= i < |lines| ensures lines[i] != "" {
      assert |HistoryLine(ServiceHistory(items)[i])| >= 2;
    }
    JoinEmpty(lines, "\n");
    forall i | 0 <= i < |ServiceHistory(items)|
      ensures Includes(HistoryContext(Some(items)), HistoryLine(ServiceHistory(items)[i]))
    {
      JoinIncludesPart(lines, "\n", i);
    }
  }

  /** The fixed text of the prompt template, part by part: the introduction
      down to the profile heading, the headings of the logs and of the
      history, the separator before the question and the closing request. */
  datatype TemplatePart = Intro | LogsHeading | HistoryHeading | QuestionHeading | Closing

  function TemplateText(part: TemplatePart): string {
    match part
    case Intro =>
      "\n      Eres un coach de fitness y nutrici\U{00F3}n experto y amigable.\n"
      + "      Analiza la siguiente informaci\U{00F3}n sobre el usuario y responde a su pregunta de forma concisa y \U{00FA}til.\n\n"
      + "      ---\n      Contexto del Perfil del Usuario:\n      "
    case LogsHeading =>
      "\n      ---\n      Contexto de sus Actividades Recientes (las m\U{00E1}s relevantes a su pregunta):\n      - "
    case HistoryHeading =>
      "\n      ---\n      Historial de la Conversaci\U{00F3}n Actual:\n      "
    case QuestionHeading =>
      "\n      ---\n\n      "
    case Closing =>
      "\n\n      Responde en el idioma de la pregunta del usuario de manera clara y concisa, "
      + "proporcionando recomendaciones pr\U{00E1}cticas y motivadoras.\n      Respuesta:\n    "
  }

  /** A context, or the fixed sentence that stands in when it is empty. */
  function OrElse(context: string, fallback: string): string {
    if |context| > 0 then context else fallback
  }

  /** A nine-part template: fixed texts t0..t4 around the filled-in parts. */
  function Fill(t0: string, p: string, t1: string, l: string, t2: string, h: string, t3: string, q: string, t4: string): string {
    t0 + p + t1 + l + t2 + h + t3 + q + t4
  }

  /** The prompt sent to the chat model: the template literal. */
  function AugmentedPrompt(profileContext: string, logsContext: string, historyContext: string, question: string): string {
    Fill(TemplateText(Intro), profileContext, TemplateText(LogsHeading), OrElse(logsContext, NoActivities),
         TemplateText(HistoryHeading), OrElse(historyContext, FirstQuestion), TemplateText(QuestionHeading),
         QuestionLabel + "\"" + question + "\"", TemplateText(Closing))
  }

  /** Each filled-in part of a nine-part template occurs in the text. */
  lemma FilledInParts(t0: string, p: string, t1: string, l: string, t2: string, h: string, t3: string, q: string, t4: string)
    ensures Includes(Fill(t0, p, t1, l, t2, h, t3, q, t4), p)
    ensures Includes(Fill(t0, p, t1, l, t2, h, t3, q, t4), l)
    ensures Includes(Fill(t0, p, t1, l, t2, h, t3, q, t4), h)
    ensures Includes(Fill(t0, p, t1, l, t2, h, t3, q, t4), q)
  {
    var s := Fill(t0, p, t1, l, t2, h, t3, q, t4);
    assert s == t0 + p + (t1 + l + t2 + h + t3 + q + t4);
    IncludesMiddle(t0, p, t1 + l + t2 + h + t3 + q + t4);
    assert s == (t0 + p + t1) + l + (t2 + h + t3 + q + t4);
    IncludesMiddle(t0 + p + t1, l, t2 + h + t3 + q + t4);
    assert s == (t0 + p + t1 + l + t2) + h + (t3 + q + t4);
    IncludesMiddle(t0 + p + t1 + l + t2, h, t3 + q + t4);
    IncludesMiddle(t0 + p + t1 + l + t2 + h + t3, q, t4);
  }

  /** The prompt carries the profile sentence, the retrieved logs (or the
      fixed sentence when there are none), the history (or the fixed sentence
      when there is none) and the question, quoted after its label. */
  lemma PromptParts(profileContext: string, logsContext: string, historyContext: string, question: string)
    ensures Includes(AugmentedPrompt(profileContext, logsContext, historyContext, question), profileContext)
    ensures Includes(AugmentedPrompt(profileContext, logsContext, historyContext, question), OrElse(logsContext, NoActivities))
    ensures Includes(AugmentedPrompt(profileContext, logsContext, historyContext, question), OrElse(historyContext, FirstQuestion))
    ensures Includes(AugmentedPrompt(profileContext, logsContext, historyContext, question), QuestionLabel + "\"" + question + "\"")
  {
    FilledInParts(TemplateText(Intro), profileContext, TemplateText(LogsHeading), OrElse(logsContext, NoActivities),
                  TemplateText(HistoryHeading), OrElse(historyContext, FirstQuestion), TemplateText(QuestionHeading),
                  QuestionLabel + "\"" + question + "\"", TemplateText(Closing));
  }

  /** The message the resolver re-throws a failure with. */
  function Rethrown(message: string): (r: string)
    ensures StartsWith(r, ErrorPrefix) && r[|ErrorPrefix|..] == message
    ensures r != Unauthenticated
  {
    var r := ErrorPrefix + message;
    assert r[0] == ErrorPrefix[0];
    r
  }

  /** The profile the resolver gets from a reply to its read. */
  function ProfileSeen(table: seq<Item>, reply: Reply, userId: string): Option<Item> {
    if reply.Done? then Lookup(table, UserKey(userId), ProfileSortKey) else None
  }

  /** The history context the resolver builds: none outside a conversation,
      none when the list came back without data. */
  function HistorySeen(table: seq<Item>, reply: Reply, userId: string, sessionId: Option<string>): string {
    if !Truthy(sessionId) || !reply.Done? then ""
    else HistoryContext(Some(ListWhere(table, UserKey(userId), BeginsWith(ChatActions.MessagePrefix(sessionId.value)))))
  }

  /** Steps 1 and 2: embed the question and query the asker's namespace for
      the closest logs; the context they give, or the message of the call that threw. */
  method RetrieveLogs(ai: CoachAi, userId: string, prompt: string) returns (r: Result<string, string>)
    modifies ai
    ensures var n := |old(ai.log)|;
            if n in ai.failing then
              ai.log == old(ai.log) + [(EmbedPromptCall(EmbedModel, prompt, EmbedDimensions), false)]
              && r == Err(ai.failing[n])
            else
              ai.log == old(ai.log) + [(EmbedPromptCall(EmbedModel, prompt, EmbedDimensions), true),
                                       (QueryCall(userId, TopK, ai.embedder(prompt), true), n + 1 !in ai.failing)]
              && r == if n + 1 in ai.failing then Err(ai.failing[n + 1])
                      else Ok(RetrievedContext(Take(ai.ranking(userId, ai.embedder(prompt)), TopK)))
  {
    var embedding := ai.EmbedPrompt(prompt);
    if embedding.Err? {
      return Err(embedding.error);
    }
    var matches := ai.Query(userId, TopK, embedding.value);
    if matches.Err? {
      return Err(matches.error);
    }
    r := Ok(RetrievedContext(matches.value));
  }

  /** Step 3: the profile sentence, or the message of the throw. */
  method ReadProfile(db: DataClient, userId: string) returns (r: Result<string, string>)
    requires db.Valid()
    modifies db
    ensures db.Valid() && db.table == old(db.table)
    ensures db.log == old(db.log) + [(GetCall(UserKey(userId), ProfileSortKey), old(db.NextReply()))]
    ensures r == if old(db.NextReply()).Threw? then Err(old(db.NextReply()).message)
                 else Ok(ProfileContextAsWritten(ProfileSeen(db.table, old(db.NextReply()), userId)))
  {
    var profileData := db.Get(UserKey(userId), ProfileSortKey);
    if profileData.Err? {
      return Err(profileData.error);
    }
    r := Ok(ProfileContextAsWritten(profileData.value));
  }

  /** Step 4: the history of the conversation, read only when there is one;
      `chatHistoryContext` starts empty and is replaced by what the list gave. */
  method ReadHistory(db: DataClient, userId: string, sessionId: Option<string>) returns (r: Result<string, string>)
    requires db.Valid()
    modifies db
    ensures db.Valid() && db.table == old(db.table)
    ensures !Truthy(sessionId) ==> db.log == old(db.log) && r == Ok("")
    ensures Truthy(sessionId) ==>
              && db.log == old(db.log) + [(ListCall(UserKey(userId), BeginsWith(ChatActions.MessagePrefix(sessionId.value))),
                                           old(db.NextReply()))]
              && r == if old(db.NextReply()).Threw? then Err(old(db.NextReply()).message)
                      else Ok(HistorySeen(db.table, old(db.NextReply()), userId, sessionId))
  {
    var chatHistoryContext := "";
    if Truthy(sessionId) {
      var chatMessages := db.ListData(UserKey(userId), BeginsWith(ChatActions.MessagePrefix(sessionId.value)));
      if chatMessages.Err? {
        return Err(chatMessages.error);
      }
      chatHistoryContext := HistoryContext(chatMessages.value);
    }
    r := Ok(chatHistoryContext);
  }

  lemma AppendOneMore<T>(s: seq<T>, a: T, b: T, c: T)
    ensures s + [a, b] + [c] == s + [a, b, c]
  {
  }

  /** The prompt the resolver fills in when the first embed call is number n
      and the profile read is data call number k. */
  function AskedPrompt(ai: CoachAi, plan: map<nat, Reply>, table: seq<Item>, k: nat,
                       userId: string, prompt: string, sessionId: Option<string>): Prompt
  {
    Prompt(ProfileContextAsWritten(ProfileSeen(table, ReplyTo(plan, k), userId)),
           RetrievedContext(Take(ai.ranking(userId, ai.embedder(prompt)), TopK)),
           HistorySeen(table, ReplyTo(plan, k + 1), userId, sessionId),
           prompt)
  }

  /** What the body of the resolver's `try` ends with: the message of the
      first of its calls that throws (embed, query, profile read, history
      read, completion), or the model's answer. */
  function AnswerOutcome(ai: CoachAi, n: nat, plan: map<nat, Reply>, table: seq<Item>, k: nat,
                         userId: string, prompt: string, sessionId: Option<string>): Result<string, string>
  {
    if n in ai.failing then Err(ai.failing[n])
    else if n + 1 in ai.failing then Err(ai.failing[n + 1])
    else if ReplyTo(plan, k).Threw? then Err(ReplyTo(plan, k).message)
    else if Truthy(sessionId) && ReplyTo(plan, k + 1).Threw? then Err(ReplyTo(plan, k + 1).message)
    else if n + 2 in ai.failing then Err(ai.failing[n + 2])
    else Ok(ai.completer(AskedPrompt(ai, plan, table, k, userId, prompt, sessionId)).GetOr(NoAnswer))
  }

  /** The chat model's answer to the prompt built from the logs, the profile
      and the history: the body of the resolver's `try`, with the message of
      the first call that threw as its error. */
  method Answer(ai: CoachAi, db: DataClient, userId: string, prompt: string, sessionId: Option<string>)
    returns (r: Result<string, string>)
    requires db.Valid()
    modifies ai, db
    ensures db.Valid() && db.table == old(db.table)
    ensures |ai.log| > |old(ai.log)| && ai.log[|old(ai.log)|].0 == EmbedPromptCall(EmbedModel, prompt, EmbedDimensions)
    ensures r == AnswerOutcome(ai, |old(ai.log)|, db.plan, db.table, |old(db.log)|, userId, prompt, sessionId)
    ensures r.Ok? ==>
              var k := |old(db.log)|;
              var vector := ai.embedder(prompt);
              var question := AskedPrompt(ai, db.plan, db.table, k, userId, prompt, sessionId);
              && ai.log == old(ai.log) + [(EmbedPromptCall(EmbedModel, prompt, EmbedDimensions), true),
                                          (QueryCall(userId, TopK, vector, true), true),
                                          (CompletionCall(ChatModel, question, MaxTokens), true)]
              && |db.log| > k && db.log[k].0 == GetCall(UserKey(userId), ProfileSortKey)
              && (Truthy(sessionId) <==> |db.log| == k + 2)
              && (Truthy(sessionId) ==>
                    db.log[k + 1].0 == ListCall(UserKey(userId), BeginsWith(ChatActions.MessagePrefix(sessionId.value))))
              && r.value == ai.completer(question).GetOr(NoAnswer)
  {
    var k := |db.log|;
    var contextFromLogs := RetrieveLogs(ai, userId, prompt);
    if contextFromLogs.Err? {
      return contextFromLogs;
    }
    ghost var logs := RetrievedContext(Take(ai.ranking(userId, ai.embedder(prompt)), TopK));
    assert contextFromLogs.value == logs;
    ghost var afterQuery := ai.log;
    var profileContext := ReadProfile(db, userId);
    if profileContext.Err? {
      return profileContext;
    }
    ghost var profile := ProfileContextAsWritten(ProfileSeen(db.table, ReplyTo(db.plan, k), userId));
    assert profileContext.value == profile;
    var chatHistoryContext := ReadHistory(db, userId, sessionId);
    if chatHistoryContext.Err? {
      return chatHistoryContext;
    }
    ghost var history := HistorySeen(db.table, ReplyTo(db.plan, k + 1), userId, sessionId);
    assert chatHistoryContext.value == history;
    var augmentedPrompt := Prompt(profileContext.value, contextFromLogs.value, chatHistoryContext.value, prompt);
    var chatResponse := ai.Complete(augmentedPrompt);
    if chatResponse.Err? {
      return Err(chatResponse.error);
    }
    AppendOneMore(old(ai.log), (EmbedPromptCall(EmbedModel, prompt, EmbedDimensions), true),
                  (QueryCall(userId, TopK, ai.embedder(prompt), true), true),
                  (CompletionCall(ChatModel, augmentedPrompt, MaxTokens), true));
    r := Ok(chatResponse.value.GetOr(NoAnswer));
  }

  /** `handler(event)`. */
  method Handler(ai: CoachAi, db: DataClient, identity: Option<Identity>, prompt: string, sessionId: Option<string>)
    returns (r: Result<string, string>)
    requires db.Valid()
    modifies ai, db
    ensures db.Valid() && db.table == old(db.table)
    ensures r == Err(Unauthenticated) <==> !Truthy(UserIdOf(identity))
    ensures !Truthy(UserIdOf(identity)) ==> ai.log == old(ai.log) && db.log == old(db.log)
    ensures Truthy(UserIdOf(identity)) && r.Err? ==> StartsWith(r.error, ErrorPrefix)
    ensures Truthy(UserIdOf(identity)) ==>
              r == match AnswerOutcome(ai, |old(ai.log)|, db.plan, db.table, |old(db.log)|,
                                       UserIdOf(identity).value, prompt, sessionId)
                   case Ok(answer) => Ok(answer)
                   case Err(message) => Err(Rethrown(message))
    ensures Truthy(UserIdOf(identity)) ==>
              |ai.log| > |old(ai.log)| && ai.log[|old(ai.log)|].0 == EmbedPromptCall(EmbedModel, prompt, EmbedDimensions)
  {
    var userId: Option<string> := None;
    if identity.Some? {
      var id := identity.value;
      if id.sub.Some? {
        userId := id.sub;
      } else if id.username.Some? {
        userId := id.username;
      } else if id.issuer.Some? {
        userId := id.issuer;
      }
    }
    if !Truthy(userId) {
      return Err(Unauthenticated);
    }
    r := Answer(ai, db, userId.value, prompt, sessionId);
    if r.Err? {
      r := Err(Rethrown(r.error));
    }
  }
}
