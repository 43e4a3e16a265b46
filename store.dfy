/** The single DynamoDB table behind the Amplify `Item` model. Every entity of
    the application is one item keyed by a partition key (`USER#<userId>`)
    and a sort key (`LOG#…`, `PROFILE`, `CHAT_SESSION#…`, `CHAT_MESSAGE#…`).
    The table is a sequence of items in the order a scan returns them. */
module Store {
  import opened Wrappers
  import opened Strings

  /** One item. Optional attributes are Option; `timestamp` and `createdAt`
      are the milliseconds their ISO texts denote. */
  datatype Item = Item(
    pk: string,
    sk: string,
    userId: Option<string>,
    kind: Option<string>,
    timestamp: Option<int>,
    createdAt: int,
    notes: Option<string>,
    calories: Option<int>,
    email: Option<string>,
    age: Option<int>,
    height: Option<int>,
    weight: Option<int>,
    fitnessGoals: Option<string>,
    title: Option<string>,
    sessionId: Option<string>,
    messageRole: Option<string>,
    messageContent: Option<string>)

  /** An item with only its key, its owner and its type set, created at `now`. */
  function NewItem(pk: string, sk: string, userId: string, kind: string, now: int): (it: Item)
    ensures it.pk == pk && it.sk == sk && it.userId == Some(userId) && it.kind == Some(kind)
    ensures it.createdAt == now
  {
    Item(pk, sk, Some(userId), Some(kind), None, now, None, None, None, None, None, None, None, None, None, None, None)
  }

  /** How the data client answers a call: it did it; it answered with GraphQL
      errors in the response (which it does not throw); or the call threw. */
  datatype Reply = Done | Refused | Threw(message: string)

  /** The partition key of everything a user owns. */
  function UserKey(userId: string): string {
    "USER#" + userId
  }

  /** The two filters the application passes to `list`: `beginsWith` and `eq` on the sort key. */
  datatype SortKeyFilter = BeginsWith(prefix: string) | Equals(key: string)

  predicate SortKeyMatches(sk: string, f: SortKeyFilter) {
    match f
    case BeginsWith(p) => StartsWith(sk, p)
    case Equals(k) => sk == k
  }

  /** `list({ filter: { PK: { eq: pk }, SK: f } })` on a table, in scan order. */
  function ListWhere(table: seq<Item>, pk: string, f: SortKeyFilter): (r: seq<Item>)
    ensures |r| <= |table|
    ensures forall i :: 0 <= i < |r| ==> r[i].pk == pk && SortKeyMatches(r[i].sk, f) && r[i] in table
    ensures forall i :: 0 <= i < |table| && table[i].pk == pk && SortKeyMatches(table[i].sk, f) ==> table[i] in r
  {
    if |table| == 0 then []
    else
      var rest := ListWhere(table[1..], pk, f);
      if table[0].pk == pk && SortKeyMatches(table[0].sk, f) then [table[0]] + rest else rest
  }

  /** At most one item per key, as DynamoDB guarantees. */
  predicate UniqueKeys(table: seq<Item>) {
    forall i, j :: 0 <= i < j < |table| ==> (table[i].pk, table[i].sk) != (table[j].pk, table[j].sk)
  }

  /** `get({ PK, SK })` */
  function Lookup(table: seq<Item>, pk: string, sk: string): (r: Option<Item>)
    ensures r.Some? ==> r.value in table && r.value.pk == pk && r.value.sk == sk
    ensures r.None? <==> forall i :: 0 <= i < |table| ==> (table[i].pk, table[i].sk) != (pk, sk)
  {
    if |table| == 0 then None
    else if table[0].pk == pk && table[0].sk == sk then Some(table[0])
    else Lookup(table[1..], pk, sk)
  }

  /** The table without the item under (pk, sk), everything else in its place. */
  function Without(table: seq<Item>, pk: string, sk: string): (r: seq<Item>)
    ensures |r| <= |table|
    ensures forall i :: 0 <= i < |r| ==> (r[i].pk, r[i].sk) != (pk, sk) && r[i] in table
    ensures forall i :: 0 <= i < |table| && (table[i].pk, table[i].sk) != (pk, sk) ==> table[i] in r
  {
    if |table| == 0 then []
    else
      var rest := Without(table[1..], pk, sk);
      if table[0].pk == pk && table[0].sk == sk then rest else [table[0]] + rest
  }

  /** The table with the item under `it`'s key replaced by `it`. */
  function Replace(table: seq<Item>, it: Item): (r: seq<Item>)
    ensures |r| == |table|
    ensures forall i :: 0 <= i < |table| ==>
              r[i] == if (table[i].pk, table[i].sk) == (it.pk, it.sk) then it else table[i]
  {
    seq(|table|, i requires 0 <= i < |table| =>
      if (table[i].pk, table[i].sk) == (it.pk, it.sk) then it else table[i])
  }

  lemma {:induction false} WithoutKeepsUnique(table: seq<Item>, pk: string, sk: string)
    requires UniqueKeys(table)
    ensures UniqueKeys(Without(table, pk, sk))
    ensures Lookup(Without(table, pk, sk), pk, sk) == None
    decreases |table|
  {
    if |table| > 0 {
      var rest := Without(table[1..], pk, sk);
      WithoutKeepsUnique(table[1..], pk, sk);
      if (table[0].pk, table[0].sk) != (pk, sk) {
        var r := [table[0]] + rest;
        forall i, j | 0 <= i < j < |r| ensures (r[i].pk, r[i].sk) != (r[j].pk, r[j].sk) {
          if i == 0 {
            var m :| 0 <= m < |table[1..]| && table[1..][m] == r[j];
            assert table[m + 1] == r[j];
          }
        }
      }
    }
  }

  function MergeOpt<T>(given: Option<T>, current: Option<T>): Option<T> {
    if given.Some? then given else current
  }

  /** What `update` leaves under a key: every attribute the update gives, and
      the current value of every other one. */
  function Merge(current: Item, update: Item): (it: Item)
    ensures it.pk == current.pk && it.sk == current.sk && it.createdAt == current.createdAt
  {
    current.(userId := MergeOpt(update.userId, current.userId),
             kind := MergeOpt(update.kind, current.kind),
             timestamp := MergeOpt(update.timestamp, current.timestamp),
             notes := MergeOpt(update.notes, current.notes),
             calories := MergeOpt(update.calories, current.calories),
             email := MergeOpt(update.email, current.email),
             age := MergeOpt(update.age, current.age),
             height := MergeOpt(update.height, current.height),
             weight := MergeOpt(update.weight, current.weight),
             fitnessGoals := MergeOpt(update.fitnessGoals, current.fitnessGoals),
             title := MergeOpt(update.title, current.title),
             sessionId := MergeOpt(update.sessionId, current.sessionId),
             messageRole := MergeOpt(update.messageRole, current.messageRole),
             messageContent := MergeOpt(update.messageContent, current.messageContent))
  }

  /** The three writes of the data client. */
  datatype Write = Create(item: Item) | Update(item: Item) | Delete(pk: string, sk: string)

  /** The table after a write the client answered with `reply`. A create of a
      key that exists, and an update of one that does not, fail their
      condition and change nothing. */
  function Apply(table: seq<Item>, w: Write, reply: Reply): seq<Item> {
    if !reply.Done? then table
    else match w
      case Create(it) => if Lookup(table, it.pk, it.sk).None? then table + [it] else table
      case Update(it) =>
        (match Lookup(table, it.pk, it.sk)
         case None => table
         case Some(current) => Replace(table, Merge(current, it)))
      case Delete(pk, sk) => Without(table, pk, sk)
  }

  lemma {:induction false} LookupAppend(table: seq<Item>, it: Item)
    requires Lookup(table, it.pk, it.sk).None?
    ensures Lookup(table + [it], it.pk, it.sk) == Some(it)
    decreases |table|
  {
    if |table| > 0 {
      assert (table + [it])[1..] == table[1..] + [it];
      LookupAppend(table[1..], it);
    } else {
      assert table + [it] == [it];
    }
  }

  lemma {:induction false} LookupReplace(table: seq<Item>, it: Item)
    requires Lookup(table, it.pk, it.sk).Some?
    ensures Lookup(Replace(table, it), it.pk, it.sk) == Some(it)
    decreases |table|
  {
    if (table[0].pk, table[0].sk) != (it.pk, it.sk) {
      assert Replace(table, it)[1..] == Replace(table[1..], it);
      LookupReplace(table[1..], it);
    }
  }

  /** After a successful create or update the item can be read back under its key. */
  lemma WriteThenLookup(table: seq<Item>, w: Write)
    requires w.Create? ==> Lookup(table, w.item.pk, w.item.sk).None?
    requires w.Update? ==> Lookup(table, w.item.pk, w.item.sk).Some?
    requires !w.Delete?
    ensures w.Create? ==> Lookup(Apply(table, w, Done), w.item.pk, w.item.sk) == Some(w.item)
    ensures w.Update? ==>
              Lookup(Apply(table, w, Done), w.item.pk, w.item.sk) ==
                Some(Merge(Lookup(table, w.item.pk, w.item.sk).value, w.item))
  {
    if w.Create? {
      LookupAppend(table, w.item);
    } else {
      var current := Lookup(table, w.item.pk, w.item.sk).value;
      var merged := Merge(current, w.item);
      LookupReplace(table, merged);
    }
  }

  /** Deleting one key leaves every other item in the table. */
  lemma WithoutKeeps(table: seq<Item>, pk: string, sk: string, it: Item)
    requires it in table && (it.pk, it.sk) != (pk, sk)
    ensures it in Without(table, pk, sk)
  {
    var i :| 0 <= i < |table| && table[i] == it;
  }

  /** Deleting a key never brings back a key that was absent, and leaves its own key absent. */
  lemma LookupWithout(table: seq<Item>, pk: string, sk: string)
    ensures Lookup(Without(table, pk, sk), pk, sk).None?
    ensures forall pk2, sk2 :: Lookup(table, pk2, sk2).None? ==> Lookup(Without(table, pk, sk), pk2, sk2).None?
  {
    var r := Without(table, pk, sk);
    forall pk2, sk2 | Lookup(table, pk2, sk2).None? ensures Lookup(r, pk2, sk2).None? {
      forall i | 0 <= i < |r| ensures (r[i].pk, r[i].sk) != (pk2, sk2) {
        var j :| 0 <= j < |table| && table[j] == r[i];
      }
    }
  }

  /** A key that an `eq` listing does not return is not in the table. */
  lemma {:induction false} UnlistedKeyAbsent(table: seq<Item>, pk: string, sk: string)
    ensures ListWhere(table, pk, Equals(sk)) == [] ==> Lookup(table, pk, sk).None?
    decreases |table|
  {
    if |table| > 0 {
      UnlistedKeyAbsent(table[1..], pk, sk);
    }
  }
}
