/** The Amplify data client as the server actions use it: a table, every call
    made so far with the reply it got, the replies the service will give to
    calls still to come, and the answer of the `askCoach` mutation. */
module Backend {
  import opened Wrappers
  import opened Store

  datatype Call =
    | WriteCall(w: Write)
    | GetCall(pk: string, sk: string)
    | ListCall(pk: string, filter: SortKeyFilter)
    | MutationCall(prompt: string, sessionId: string)

  /** What the `askCoach` mutation returns: its data (null as None), GraphQL
      errors, or a thrown error. */
  datatype MutationReply = Answered(data: Option<string>) | Errors | MutationThrew(message: string)

  /** The change a logged call made to the table: only writes change it. */
  function Effect(table: seq<Item>, entry: (Call, Reply)): seq<Item> {
    if entry.0.WriteCall? then Apply(table, entry.0.w, entry.1) else table
  }

  /** The table after the logged calls, starting from `table`. */
  function Replay(table: seq<Item>, log: seq<(Call, Reply)>): seq<Item>
    decreases |log|
  {
    if |log| == 0 then table else Effect(Replay(table, log[..|log| - 1]), log[|log| - 1])
  }

  function CallsOf(log: seq<(Call, Reply)>): (r: seq<Call>)
    ensures |r| == |log| && forall i :: 0 <= i < |log| ==> r[i] == log[i].0
  {
    seq(|log|, i requires 0 <= i < |log| => log[i].0)
  }

  /** The reply call number n gets under a plan of replies. */
  function ReplyTo(plan: map<nat, Reply>, n: nat): Reply {
    if n in plan then plan[n] else Done
  }

  class DataClient {
    /** The items the service holds now. */
    var table: seq<Item>
    /** Every call made, in order, with the reply it got. */
    var log: seq<(Call, Reply)>
    /** The table before the first call. */
    ghost const initial: seq<Item>
    /** The reply to call number n when it is not `Done`. */
    const plan: map<nat, Reply>
    /** The answer the `askCoach` mutation gives for a prompt and session id. */
    const coach: (string, string) -> Option<string>

    /** The table is what the logged calls made of the initial one. */
    ghost predicate Valid()
      reads this
    {
      table == Replay(initial, log)
    }

    /** The reply the next call will get. */
    function NextReply(): Reply
      reads this
    {
      ReplyTo(plan, |log|)
    }

    constructor (contents: seq<Item>, replies: map<nat, Reply>, answers: (string, string) -> Option<string>)
      ensures Valid() && log == [] && table == contents
      ensures plan == replies && coach == answers
    {
      table := contents;
      log := [];
      initial := contents;
      plan := replies;
      coach := answers;
    }

    method Record(c: Call, reply: Reply)
      requires Valid()
      modifies this
      ensures log == old(log) + [(c, reply)]
      ensures table == Effect(old(table), (c, reply))
      ensures Valid()
    {
      log := log + [(c, reply)];
      table := Effect(table, (c, reply));
      assert log[..|log| - 1] == old(log);
    }

    /** `create`, `update` or `delete`. */
    method Send(w: Write) returns (reply: Reply)
      requires Valid()
      modifies this
      ensures reply == old(NextReply())
      ensures log == old(log) + [(WriteCall(w), reply)]
      ensures table == Apply(old(table), w, reply)
      ensures Valid()
    {
      reply := NextReply();
      Record(WriteCall(w), reply);
    }

    /** `list({ filter })`: the matching items, or the message of the error;
      a response with GraphQL errors has no data, which fails like a throw. */
    method List(pk: string, f: SortKeyFilter) returns (r: Result<seq<Item>, string>)
      requires Valid()
      modifies this
      ensures log == old(log) + [(ListCall(pk, f), old(NextReply()))]
      ensures table == old(table)
      ensures r == match old(NextReply())
                   case Done => Ok(ListWhere(table, pk, f))
                   case Refused => Err("no data")
                   case Threw(m) => Err(m)
      ensures Valid()
    {
      var reply := NextReply();
      Record(ListCall(pk, f), reply);
      match reply
      case Done => r := Ok(ListWhere(table, pk, f));
      case Refused => r := Err("no data");
      case Threw(m) => r := Err(m);
    }

    /** `get({ PK, SK })` read for its data: the item, None when there is none or
        the response carries errors (its data is then null), or the message of a throw. */
    method Get(pk: string, sk: string) returns (r: Result<Option<Item>, string>)
      requires Valid()
      modifies this
      ensures log == old(log) + [(GetCall(pk, sk), old(NextReply()))]
      ensures table == old(table)
      ensures r == match old(NextReply())
                   case Done => Ok(Lookup(table, pk, sk))
                   case Refused => Ok(None)
                   case Threw(m) => Err(m)
      ensures Valid()
    {
      var reply := NextReply();
      Record(GetCall(pk, sk), reply);
      match reply
      case Done => r := Ok(Lookup(table, pk, sk));
      case Refused => r := Ok(None);
      case Threw(m) => r := Err(m);
    }

    /** `list({ filter })` read for its data: the matching items, None when the
        response carries errors, or the message of a throw. */
    method ListData(pk: string, f: SortKeyFilter) returns (r: Result<Option<seq<Item>>, string>)
      requires Valid()
      modifies this
      ensures log == old(log) + [(ListCall(pk, f), old(NextReply()))]
      ensures table == old(table)
      ensures r == match old(NextReply())
                   case Done => Ok(Some(ListWhere(table, pk, f)))
                   case Refused => Ok(None)
                   case Threw(m) => Err(m)
      ensures Valid()
    {
      var reply := NextReply();
      Record(ListCall(pk, f), reply);
      match reply
      case Done => r := Ok(Some(ListWhere(table, pk, f)));
      case Refused => r := Ok(None);
      case Threw(m) => r := Err(m);
    }

    /** The `askCoach` mutation. */
    method AskCoachMutation(prompt: string, sessionId: string) returns (r: MutationReply)
      requires Valid()
      modifies this
      ensures log == old(log) + [(MutationCall(prompt, sessionId), old(NextReply()))]
      ensures table == old(table)
      ensures r == match old(NextReply())
                   case Done => Answered(coach(prompt, sessionId))
                   case Refused => Errors
                   case Threw(m) => MutationThrew(m)
      ensures Valid()
    {
      var reply := NextReply();
      Record(MutationCall(prompt, sessionId), reply);
      match reply
      case Done => r := Answered(coach(prompt, sessionId));
      case Refused => r := Errors;
      case Threw(m) => r := MutationThrew(m);
    }
  }
}
