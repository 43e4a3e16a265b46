/** The stream handler that turns every newly inserted log into a vector:
    for each change record of the table it embeds the log's notes and
    upserts the vector, with the log's type, time, calories and notes as
    metadata, into the owner's namespace of the vector index. */
module CreateEmbedding {
  import opened Wrappers
  import opened Strings
  import opened Seqs
  import opened Store
  import opened Forms
  import LogActions
  import Json

  const EmbeddingModel := "text-embedding-ada-002"

  /** One change record: its event name and the new image of the item, if any. */
  datatype StreamRecord = StreamRecord(eventName: string, newImage: Option<Item>)

  /** The numbers of an embedding; their values are the embedding service's business. */
  type Embedding = seq<int>

  datatype Metadata = Metadata(dataType: string, timestamp: Option<int>, calories: Option<int>, originalNotes: string)

  datatype Vector = Vector(id: string, values: Embedding, metadata: Metadata)

  /** A call to an outside service: the embedding API or the vector index. */
  datatype ServiceCall =
    | EmbedCall(model: string, input: string)
    | UpsertCall(namespace: Option<string>, vectors: seq<Vector>)

  /** The calls made so far, each with whether it succeeded (a failed call throws). */
  type CallLog = seq<(ServiceCall, bool)>

  /** The embedding API and the vector index as the handler sees them. */
  class Services {
    var log: CallLog
    /** The numbers of the calls that throw. */
    const failing: set<nat>
    /** The embedding the API returns for an input. */
    const embedder: string -> Embedding

    constructor (fails: set<nat>, embeds: string -> Embedding)
      ensures log == [] && failing == fails && embedder == embeds
    {
      log := [];
      failing := fails;
      embedder := embeds;
    }

    /** `openai.embeddings.create({ model, input })`: the embedding, or None when it throws. */
    method Embed(input: string) returns (r: Option<Embedding>)
      modifies this
      ensures log == old(log) + [(EmbedCall(EmbeddingModel, input), |old(log)| !in failing)]
      ensures r == if |old(log)| in failing then None else Some(embedder(input))
    {
      var ok := |log| !in failing;
      log := log + [(EmbedCall(EmbeddingModel, input), ok)];
      r := if ok then Some(embedder(input)) else None;
    }

    /** `index.namespace(ns).upsert(vectors)`: whether it succeeded. */
    method Upsert(namespace: Option<string>, vectors: seq<Vector>) returns (ok: bool)
      modifies this
      ensures log == old(log) + [(UpsertCall(namespace, vectors), ok)]
      ensures ok == (|old(log)| !in failing)
    {
      ok := |log| !in failing;
      log := log + [(UpsertCall(namespace, vectors), ok)];
    }
  }

  /** The record is an insert of a log item that has notes to embed. */
  predicate Embeddable(r: StreamRecord) {
    && r.eventName == "INSERT" && r.newImage.Some?
    && StartsWith(r.newImage.value.pk, "USER#") && StartsWith(r.newImage.value.sk, "LOG#")
    && Truthy(r.newImage.value.notes)
  }

  /** A log's sort key has at least two '#'-separated segments. */
  lemma {:induction false} LogKeySegments(rest: string)
    ensures |Split("LOG#" + rest, '#')| >= 2
    ensures Split("LOG#" + rest, '#')[1] == Split(rest, '#')[0]
  {
    var s := "LOG#" + rest;
    assert OccursAt(s, "#", 3);
    forall k: nat | k < 3 ensures !OccursAt(s, "#", k) {
      assert s[k..k + 1] == [s[k]];
    }
    IndexOfIsLeast(s, "#", 3);
    assert s[4..] == rest;
  }

  /** `logSK.split('#')[1]`: the vector id of a log. */
  function VectorId(sk: string): string
    requires StartsWith(sk, "LOG#")
  {
    assert sk == "LOG#" + sk[4..];
    LogKeySegments(sk[4..]);
    Split(sk, '#')[1]
  }

  /** The vector `handler` upserts for an embeddable log of a known type. */
  function VectorOf(it: Item, values: Embedding): (v: Vector)
    requires StartsWith(it.sk, "LOG#") && it.notes.Some? && it.kind.Some?
    ensures v.values == values
    ensures v.metadata.timestamp == it.timestamp && v.metadata.calories == it.calories
    ensures v.metadata.originalNotes == it.notes.value
  {
    Vector(VectorId(it.sk), values,
           Metadata(Lower(it.kind.value), it.timestamp, it.calories, it.notes.value))
  }

  /** The calls `handler` makes for one record when the service has already
      answered n calls: none for a record it skips; the embedding; then,
      when that succeeded and the item has a type to lower-case, the upsert.
      A failure ends the record's work and nothing else. */
  function RecordCalls(r: StreamRecord, n: nat, failing: set<nat>, embedder: string -> Embedding): (c: CallLog)
    ensures |c| <= 2
    ensures |c| > 0 <==> Embeddable(r)
    ensures |c| > 0 ==> c[0].0 == EmbedCall(EmbeddingModel, r.newImage.value.notes.value)
    ensures |c| > 0 ==> c[0].1 == (n !in failing)
    ensures |c| == 2 <==> Embeddable(r) && n !in failing && r.newImage.value.kind.Some?
    ensures |c| == 2 ==>
              var it := r.newImage.value;
              && c[1].0 == UpsertCall(it.userId, [VectorOf(it, embedder(it.notes.value))])
              && c[1].1 == (n + 1 !in failing)
  {
    if !Embeddable(r) then []
    else
      var it := r.newImage.value;
      var embedded := n !in failing;
      var embed := (EmbedCall(EmbeddingModel, it.notes.value), embedded);
      if !embedded || it.kind.None? then [embed]
      else [embed, (UpsertCall(it.userId, [VectorOf(it, embedder(it.notes.value))]), n + 1 !in failing)]
  }

  /** The calls made for a batch of records, starting at call n, when the
      calls for one record are given by `calls`. */
  function IngestWith(rs: seq<StreamRecord>, n: nat, calls: (StreamRecord, nat) -> CallLog): CallLog
    decreases |rs|
  {
    if |rs| == 0 then []
    else
      var before := IngestWith(rs[..|rs| - 1], n, calls);
      before + calls(rs[|rs| - 1], n + |before|)
  }

  /** The calls of one record, as a function of the record and the call count. */
  function RecordStep(failing: set<nat>, embedder: string -> Embedding): (StreamRecord, nat) -> CallLog {
    (r: StreamRecord, k: nat) => RecordCalls(r, k, failing, embedder)
  }

  /** The calls `handler` makes for a batch of records, starting at call n. */
  function Ingest(rs: seq<StreamRecord>, n: nat, failing: set<nat>, embedder: string -> Embedding): CallLog {
    IngestWith(rs, n, RecordStep(failing, embedder))
  }

  /** One turn of the loop of `handler`. */
  method HandleRecord(svc: Services, r: StreamRecord)
    modifies svc
    ensures svc.log == old(svc.log) + RecordCalls(r, |old(svc.log)|, svc.failing, svc.embedder)
  {
    if r.eventName == "INSERT" && r.newImage.Some? {
      var it := r.newImage.value;
      if StartsWith(it.pk, "USER#") && StartsWith(it.sk, "LOG#") {
        if !Truthy(it.notes) {
          return;
        }
        var embedding := svc.Embed(it.notes.value);
        if embedding.None? {
          return;
        }
        if it.kind.None? {
          return;
        }
        var vector := VectorOf(it, embedding.value);
        var _ := svc.Upsert(it.userId, [vector]);
      }
    }
  }

  /** `handler(event)`: every record in turn, whatever happened to the ones before. */
  method Handler(svc: Services, records: seq<StreamRecord>)
    modifies svc
    ensures svc.log == old(svc.log) + Ingest(records, |old(svc.log)|, svc.failing, svc.embedder)
  {
    var i := 0;
    while i < |records|
      invariant 0 <= i <= |records|
      invariant svc.log == old(svc.log) + Ingest(records[..i], |old(svc.log)|, svc.failing, svc.embedder)
    {
      HandleRecord(svc, records[i]);
      assert records[..i + 1][..i] == records[..i];
      assert records[..i + 1][i] == records[i];
      IngestLast(records[..i + 1], |old(svc.log)|, svc.failing, svc.embedder);
      i := i + 1;
    }
    assert records[..i] == records;
  }

  /** The calls of a log that satisfy p, in order. */
  function Picked<T>(log: seq<(T, bool)>, p: T -> bool): seq<T>
    decreases |log|
  {
    if |log| == 0 then []
    else (if p(log[0].0) then [log[0].0] else []) + Picked(log[1..], p)
  }

  lemma {:induction false} PickedAppend<T>(a: seq<(T, bool)>, b: seq<(T, bool)>, p: T -> bool)
    ensures Picked(a + b, p) == Picked(a, p) + Picked(b, p)
    decreases |a|
  {
    if |a| == 0 {
      assert a + b == b;
    } else {
      var head := if p(a[0].0) then [a[0].0] else [];
      assert (a + b)[0] == a[0];
      assert (a + b)[1..] == a[1..] + b;
      PickedAppend(a[1..], b, p);
      calc {
        Picked(a + b, p);
        head + Picked(a[1..] + b, p);
        head + (Picked(a[1..], p) + Picked(b, p));
        (head + Picked(a[1..], p)) + Picked(b, p);
        Picked(a, p) + Picked(b, p);
      }
    }
  }

  predicate IsEmbed(c: ServiceCall) {
    c.EmbedCall?
  }

  predicate IsUpsert(c: ServiceCall) {
    c.UpsertCall?
  }

  /** The notes of a record's new image, "" when there are none. */
  function NotesOf(r: StreamRecord): string {
    if r.newImage.Some? && r.newImage.value.notes.Some? then r.newImage.value.notes.value else ""
  }

  function EmbedOf(r: StreamRecord): ServiceCall {
    EmbedCall(EmbeddingModel, NotesOf(r))
  }

  /** The embedding and upsert calls one record makes. */
  lemma RecordPicks(r: StreamRecord, n: nat, failing: set<nat>, embedder: string -> Embedding)
    ensures Embeddable(r) ==> Picked(RecordCalls(r, n, failing, embedder), IsEmbed) == [EmbedOf(r)]
    ensures !Embeddable(r) ==> Picked(RecordCalls(r, n, failing, embedder), IsEmbed) == []
    ensures Embeddable(r) ==> |Picked(RecordCalls(r, n, failing, embedder), IsUpsert)| <= 1
    ensures !Embeddable(r) ==> |Picked(RecordCalls(r, n, failing, embedder), IsUpsert)| == 0
  {
    var c := RecordCalls(r, n, failing, embedder);
    if |c| == 2 {
      var tail := c[1..];
      assert tail[0] == c[1] && tail[1..] == [];
      assert Picked(tail, IsEmbed) == [];
      assert Picked(c, IsEmbed) == [c[0].0] + Picked(tail, IsEmbed);
      assert Picked(tail, IsUpsert) == [c[1].0];
      assert Picked(c, IsUpsert) == Picked(tail, IsUpsert);
    } else if |c| == 1 {
      assert c[1..] == [];
      assert Picked(c, IsEmbed) == [c[0].0];
      assert Picked(c, IsUpsert) == [];
    }
  }

  /** The calls of a batch are those of all but its last record, then those of the last. */
  lemma IngestLast(rs: seq<StreamRecord>, n: nat, failing: set<nat>, embedder: string -> Embedding)
    requires |rs| > 0
    ensures Ingest(rs, n, failing, embedder)
         == Ingest(rs[..|rs| - 1], n, failing, embedder)
            + RecordCalls(rs[|rs| - 1], n + |Ingest(rs[..|rs| - 1], n, failing, embedder)|, failing, embedder)
  {
  }

  /** The embedding calls of a batch, from those of all but its last record
      and those of the last one. */
  lemma EmbedsCombine<R>(rs: seq<R>, whole: CallLog, before: CallLog, c: CallLog, p: R -> bool, f: R -> ServiceCall)
    requires |rs| > 0 && whole == before + c
    requires Picked(before, IsEmbed) == Map(Filter(rs[..|rs| - 1], p), f)
    requires p(rs[|rs| - 1]) ==> Picked(c, IsEmbed) == [f(rs[|rs| - 1])]
    requires !p(rs[|rs| - 1]) ==> Picked(c, IsEmbed) == []
    ensures Picked(whole, IsEmbed) == Map(Filter(rs, p), f)
  {
    PickedAppend(before, c, IsEmbed);
    FilterMapLast(rs, p, f);
  }

  /** When each record makes one embedding call of its own exactly when it
      satisfies p, a batch makes those calls in record order. */
  lemma {:induction false} EmbedsOfBatch(rs: seq<StreamRecord>, n: nat, calls: (StreamRecord, nat) -> CallLog,
                                         p: StreamRecord -> bool, f: StreamRecord -> ServiceCall)
    requires forall r, k: nat :: p(r) ==> Picked(calls(r, k), IsEmbed) == [f(r)]
    requires forall r, k: nat :: !p(r) ==> Picked(calls(r, k), IsEmbed) == []
    ensures Picked(IngestWith(rs, n, calls), IsEmbed) == Map(Filter(rs, p), f)
    decreases |rs|
  {
    if |rs| > 0 {
      var before := IngestWith(rs[..|rs| - 1], n, calls);
      EmbedsOfBatch(rs[..|rs| - 1], n, calls, p, f);
      EmbedsCombine(rs, IngestWith(rs, n, calls), before, calls(rs[|rs| - 1], n + |before|), p, f);
    } else {
      assert Filter(rs, p) == [];
    }
  }

  /** Every embeddable record gets its embedding call, in record order, and
      no other record does: a failure on one record never keeps a later
      record from being processed. */
  lemma EveryLogEmbedded(rs: seq<StreamRecord>, n: nat, failing: set<nat>, embedder: string -> Embedding)
    ensures Picked(Ingest(rs, n, failing, embedder), IsEmbed) == Map(Filter(rs, Embeddable), EmbedOf)
  {
    var step := RecordStep(failing, embedder);
    forall r, k: nat ensures Embeddable(r) ==> Picked(step(r, k), IsEmbed) == [EmbedOf(r)]
                     ensures !Embeddable(r) ==> Picked(step(r, k), IsEmbed) == []
    {
      RecordPicks(r, k, failing, embedder);
    }
    EmbedsOfBatch(rs, n, step, Embeddable, EmbedOf);
  }

  /** The upserts of a batch, from those of all but its last record and
      those of the last one. */
  lemma UpsertsCombine<R>(rs: seq<R>, whole: CallLog, before: CallLog, c: CallLog, p: R -> bool)
    requires |rs| > 0 && whole == before + c
    requires |Picked(before, IsUpsert)| <= |Filter(rs[..|rs| - 1], p)|
    requires p(rs[|rs| - 1]) ==> |Picked(c, IsUpsert)| <= 1
    requires !p(rs[|rs| - 1]) ==> |Picked(c, IsUpsert)| == 0
    ensures |Picked(whole, IsUpsert)| <= |Filter(rs, p)|
  {
    PickedAppend(before, c, IsUpsert);
    FilterLast(rs, p);
  }

  /** When each record makes at most one upsert, and none unless it satisfies
      p, a batch makes at most one upsert per record satisfying p. */
  lemma {:induction false} UpsertsOfBatch(rs: seq<StreamRecord>, n: nat, calls: (StreamRecord, nat) -> CallLog,
                                          p: StreamRecord -> bool)
    requires forall r, k: nat :: p(r) ==> |Picked(calls(r, k), IsUpsert)| <= 1
    requires forall r, k: nat :: !p(r) ==> |Picked(calls(r, k), IsUpsert)| == 0
    ensures |Picked(IngestWith(rs, n, calls), IsUpsert)| <= |Filter(rs, p)|
    decreases |rs|
  {
    if |rs| > 0 {
      var before := IngestWith(rs[..|rs| - 1], n, calls);
      UpsertsOfBatch(rs[..|rs| - 1], n, calls, p);
      UpsertsCombine(rs, IngestWith(rs, n, calls), before, calls(rs[|rs| - 1], n + |before|), p);
    }
  }

  /** At most one upsert per embeddable record. */
  lemma AtMostOneUpsertEach(rs: seq<StreamRecord>, n: nat, failing: set<nat>, embedder: string -> Embedding)
    ensures |Picked(Ingest(rs, n, failing, embedder), IsUpsert)| <= |Filter(rs, Embeddable)|
  {
    var step := RecordStep(failing, embedder);
    forall r, k: nat ensures Embeddable(r) ==> |Picked(step(r, k), IsUpsert)| <= 1
                     ensures !Embeddable(r) ==> |Picked(step(r, k), IsUpsert)| == 0
    {
      RecordPicks(r, k, failing, embedder);
    }
    UpsertsOfBatch(rs, n, step, Embeddable);
  }

  /** The vector of a log whose id holds no '#' is stored under that id. */
  lemma VectorIdOfLog(logId: string)
    requires '#' !in logId
    ensures VectorId("LOG#" + logId) == logId
  {
    LogKeySegments(logId);
    assert Join([logId], "#") == logId;
    SplitJoin([logId], '#');
  }

  /** A log written by `createLog` is embedded, and, when neither call
      throws, upserted into its owner's namespace under its own log id, with
      the type it was logged under lower-cased back, its time, its calories
      and its notes as metadata. */
  lemma CreatedLogVector(userId: string, logType: string, form: Entries, now: int, random: string, calories: int,
                         n: nat, failing: set<nat>, embedder: string -> Embedding)
    requires '#' !in random
    requires forall i :: 0 <= i < |logType| ==> 'a' <= logType[i] <= 'z'
    requires n !in failing && n + 1 !in failing
    ensures var notes := Json.Stringify(LogActions.StructuredData(form));
            var it := LogActions.LogItem(userId, logType, form, now, random, calories);
            RecordCalls(StreamRecord("INSERT", Some(it)), n, failing, embedder)
              == [(EmbedCall(EmbeddingModel, notes), true),
                  (UpsertCall(Some(userId),
                              [Vector(LogActions.LogId(now, random), embedder(notes),
                                      Metadata(logType, Some(now), Some(calories), notes))]), true)]
  {
    var notes := Json.Stringify(LogActions.StructuredData(form));
    var it := LogActions.LogItem(userId, logType, form, now, random, calories);
    LogIdHasNoHash(now, random);
    assert notes[0] == '{';
    LogVector(it, userId, LogActions.LogId(now, random), logType, notes, now, calories, n, failing, embedder);
  }

  /** The calls for the insert of a log item with the given key, owner, type,
      time, calories and notes, when neither call throws. */
  lemma LogVector(it: Item, userId: string, id: string, logType: string, notes: string, now: int, calories: int,
                  n: nat, failing: set<nat>, embedder: string -> Embedding)
    requires it.pk == UserKey(userId) && it.sk == "LOG#" + id && '#' !in id && it.userId == Some(userId)
    requires it.kind == Some(Upper(logType)) && forall i :: 0 <= i < |logType| ==> 'a' <= logType[i] <= 'z'
    requires it.timestamp == Some(now) && it.calories == Some(calories) && it.notes == Some(notes) && notes != ""
    requires n !in failing && n + 1 !in failing
    ensures RecordCalls(StreamRecord("INSERT", Some(it)), n, failing, embedder)
              == [(EmbedCall(EmbeddingModel, notes), true),
                  (UpsertCall(Some(userId), [Vector(id, embedder(notes), Metadata(logType, Some(now), Some(calories), notes))]), true)]
  {
    assert VectorOf(it, embedder(notes)) == Vector(id, embedder(notes), Metadata(logType, Some(now), Some(calories), notes)) by {
      VectorIdOfLog(id);
      assert Lower(Upper(logType)) == logType;
    }
    assert Embeddable(StreamRecord("INSERT", Some(it))) by {
      assert it.pk == "USER#" + userId;
    }
    UpsertOfLog(it, n, failing, embedder);
  }

  /** A log id holds a '#' only when its random part does. */
  lemma LogIdHasNoHash(now: int, random: string)
    requires '#' !in random
    ensures '#' !in LogActions.LogId(now, random)
  {
    assert '#' !in IntString(now) by {
      if now < 0 {
        assert IntString(now) == ['-'] + DecimalString(-now);
      }
    }
  }

  /** An inserted log of a known type whose embed and upsert succeed makes
      exactly those two calls. */
  lemma UpsertOfLog(it: Item, n: nat, failing: set<nat>, embedder: string -> Embedding)
    requires Embeddable(StreamRecord("INSERT", Some(it))) && it.kind.Some?
    requires n !in failing && n + 1 !in failing
    ensures RecordCalls(StreamRecord("INSERT", Some(it)), n, failing, embedder)
              == [(EmbedCall(EmbeddingModel, it.notes.value), true),
                  (UpsertCall(it.userId, [VectorOf(it, embedder(it.notes.value))]), true)]
  {
  }
}
