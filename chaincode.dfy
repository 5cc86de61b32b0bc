/** The insurance chaincode's handlers as functions from the world state and
    the positional arguments to the response and the new world state. Each
    handler indexes its arguments without checking how many there are, so
    a short argument list is excluded by a precondition. */
module Chaincode {
  import opened Records
  import opened Strconv

  /** The payload of shim.Success: nothing, the stored bytes of one record, or
      the JSON text queryByPersonId builds. */
  datatype Payload = NoPayload | Stored(record: Record) | Json(text: string)

  datatype Response = Success(payload: Payload) | Error(message: string)

  /** The response together with the world state the handler leaves behind,
      including any write it made before returning an error. */
  datatype Outcome = Outcome(response: Response, store: Store)

  /** The only key an invocation can change is its first argument. */
  ghost predicate OnlyKeyChanged(s: Store, s': Store, key: string)
  {
    forall k :: k != key ==> Get(s', k) == Get(s, k)
  }

  // ---------------------------------------------------------------- creation

  /** createPerson always succeeds and overwrites whatever args[0] held. */
  function CreatePerson(s: Store, args: seq<string>): (o: Outcome)
    requires |args| >= 3
    ensures o.response.Success? && OnlyKeyChanged(s, o.store, args[0])
    ensures Get(o.store, args[0]) == Some(PersonRecord(Person(args[0], args[1], args[2])))
  {
    Outcome(Success(NoPayload), s[args[0] := PersonRecord(Person(args[0], args[1], args[2]))])
  }

  /** The policy is put before the parse error of insuredAmt is tested, so an
      unparsable amount still leaves the policy (with the int Atoi returned)
      in the state the handler hands back with its error. */
  function CreatePolicy(s: Store, args: seq<string>): (o: Outcome)
    requires |args| >= 5
    ensures OnlyKeyChanged(s, o.store, args[0])
    ensures o.response.Success? ==> args[4] in s && Atoi(args[3]).Ok?
    ensures args[4] !in s ==> o.store == s
    ensures args[4] in s ==> args[0] in o.store && o.store[args[0]].PolicyRecord?
  {
    if args[4] !in s then Outcome(Error("Could not find person "), s)
    else
      var j := Atoi(args[3]);
      var s' := s[args[0] := PolicyRecord(Policy(args[0], args[1], args[2], j.Value(), args[4]))];
      if !j.Ok? then Outcome(Error("Failed to record policy catch: " + args[0]), s')
      else Outcome(Success(NoPayload), s')
  }

  /** The claim createClaim writes; the parse error of claimAmt is dropped. */
  function NewClaim(args: seq<string>): (c: Claim)
    requires |args| >= 5
    ensures c.status == Open && c.claimedAmt == 0 && c.claimId == args[0]
    ensures MinInt64 <= c.claimAmt <= MaxInt64
  {
    Claim(args[0], Atoi(args[1]).Value(), 0, args[3], args[4], args[2], Open, " ")
  }

  function CreateClaim(s: Store, args: seq<string>): (o: Outcome)
    requires |args| >= 5
    ensures OnlyKeyChanged(s, o.store, args[0])
    ensures o.response.Error? ==> o.store == s
    ensures o.response.Success? <==> args[4] in s && args[3] in s
    ensures o.response.Success? ==> Get(o.store, args[0]) == Some(ClaimRecord(NewClaim(args)))
  {
    if args[4] !in s then Outcome(Error("Could not find policy "), s)
    else if args[3] !in s then Outcome(Error("Could not find person "), s)
    else Outcome(Success(NoPayload), s[args[0] := ClaimRecord(NewClaim(args))])
  }

  // ---------------------------------------------------------- point queries

  /** The three point queries differ only in their message: none of them
      looks at the kind of the record it returns. */
  function Lookup(s: Store, key: string, missing: string): (o: Outcome)
    ensures o.store == s
    ensures o.response.Success? <==> key in s
    ensures o.response.Error? ==> o.response.message == missing
    ensures o.response.Success? ==> o.response.payload == Stored(s[key])
  {
    if key !in s then Outcome(Error(missing), s) else Outcome(Success(Stored(s[key])), s)
  }

  function QueryPerson(s: Store, args: seq<string>): (o: Outcome)
    requires |args| >= 1
    ensures o.store == s && (o.response.Success? <==> args[0] in s)
  {
    Lookup(s, args[0], "Could not find people")
  }

  function QueryPolicy(s: Store, args: seq<string>): (o: Outcome)
    requires |args| >= 1
    ensures o.store == s && (o.response.Success? <==> args[0] in s)
  {
    Lookup(s, args[0], "Could not locate policy")
  }

  function QueryClaim(s: Store, args: seq<string>): (o: Outcome)
    requires |args| >= 1
    ensures o.store == s && (o.response.Success? <==> args[0] in s)
  {
    Lookup(s, args[0], "Could not locate claim")
  }

  // ------------------------------------------------------- claim lifecycle

  /** confirmClaim decides an open claim: it writes only on success, and
      then only a claim whose status moved from open to claimed. */
  function ConfirmClaim(s: Store, args: seq<string>): (o: Outcome)
    requires |args| >= 3
    ensures OnlyKeyChanged(s, o.store, args[0])
    ensures o.response.Error? ==> o.store == s
    ensures o.response.Success? ==>
      && args[0] in s && AsClaim(s[args[0]]).status == Open
      && args[0] in o.store && AsClaim(o.store[args[0]]).status == Claimed
  {
    if args[0] !in s then Outcome(Error("Could not locate Claim "), s)
    else
      var claim := AsClaim(s[args[0]]);
      var j := Atoi(args[1]);
      if !j.Ok? then Outcome(Error("ClaimedAmt is not numeric: " + args[0]), s)
      else if claim.status != Open then Outcome(Error("Claim already processed " + args[0]), s)
      else
        var decided := claim.(claimedAmt := j.n, status := Claimed, remarks := args[2]);
        Outcome(Success(NoPayload), s[args[0] := ClaimRecord(decided)])
  }

  /** rejectClaim likewise, from open to rejected. */
  function RejectClaim(s: Store, args: seq<string>): (o: Outcome)
    requires |args| >= 2
    ensures OnlyKeyChanged(s, o.store, args[0])
    ensures o.response.Error? ==> o.store == s
    ensures o.response.Success? ==>
      && args[0] in s && AsClaim(s[args[0]]).status == Open
      && args[0] in o.store && AsClaim(o.store[args[0]]).status == Rejected
  {
    if args[0] !in s then Outcome(Error("Could not locate Claim "), s)
    else
      var claim := AsClaim(s[args[0]]);
      if claim.status != Open then Outcome(Error("Claim already processed " + args[0]), s)
      else
        var decided := claim.(status := Rejected, remarks := args[1]);
        Outcome(Success(NoPayload), s[args[0] := ClaimRecord(decided)])
  }

  // ------------------------------------------------------------ query index

  /** The CouchDB selector queryByPersonId sends for holder. */
  function Selector(holder: string): (q: string)
    ensures |q| == |holder| + 28 && q[25..25 + |holder|] == holder
  {
    "{\"selector\":{\"personId\":\"" + holder + "\"}}"
  }

  /** One (key, value) pair of a rich query; the value is the stored JSON
      text, written into the answer as it is. */
  datatype Row = Row(key: string, value: string)

  /** One call of the result iterator's Next. */
  datatype Step = Next(row: Row) | NextFailed(message: string)

  /** What GetQueryResult gives back: an error, or the iterator's steps in
      the order the store delivers them. */
  datatype QueryAnswer = QueryFailed(message: string) | Steps(steps: seq<Step>)

  /** The store's rich-query engine: the answer it gives to a selector. */
  type RichQuery = string -> QueryAnswer

  /** The iterator drained: every row, or the first Next error. */
  datatype Drained = Drained(rows: seq<Row>) | Failed(message: string)

  /** No call of Next in steps fails. */
  predicate NeverFails(steps: seq<Step>)
  {
    forall i :: 0 <= i < |steps| ==> steps[i].Next?
  }

  function Drain(steps: seq<Step>): (d: Drained)
    ensures d.Drained? <==> NeverFails(steps)
    ensures d.Drained? ==> |d.rows| == |steps|
  {
    if steps == [] then Drained([])
    else
      match steps[0]
      case NextFailed(m) => Failed(m)
      case Next(row) =>
        match Drain(steps[1..])
        case Failed(m) => Failed(m)
        case Drained(rows) => Drained([row] + rows)
  }

  /** The array member written for one row. */
  function Entry(row: Row): (e: string)
    ensures |e| == |row.key| + |row.value| + 21 && e[0] == '{' && e[|e| - 1] == '}'
  {
    "{\"Key\":\"" + row.key + "\", \"Record\":" + row.value + "}"
  }

  /** The members, separated by single commas. */
  function Join(rows: seq<Row>): (j: string)
    ensures j == "" <==> rows == []
  {
    if rows == [] then ""
    else if |rows| == 1 then Entry(rows[0])
    else Entry(rows[0]) + "," + Join(rows[1..])
  }

  function JsonArray(rows: seq<Row>): (a: string)
    ensures |a| >= 2 && a[0] == '[' && a[|a| - 1] == ']'
    ensures a == "[]" <==> rows == []
  {
    "[" + Join(rows) + "]"
  }

  function QueryByPersonId(s: Store, args: seq<string>, richQuery: RichQuery): (o: Outcome)
    requires |args| >= 1
    ensures o.store == s
    ensures var answer := richQuery(Selector(args[0]));
      o.response.Success? <==> answer.Steps? && NeverFails(answer.steps)
    ensures o.response.Success? ==>
      o.response.payload.Json? && |o.response.payload.text| >= 2 && o.response.payload.text[0] == '['
  {
    match richQuery(Selector(args[0]))
    case QueryFailed(m) => Outcome(Error(m), s)
    case Steps(steps) =>
      match Drain(steps)
      case Failed(m) => Outcome(Error(m), s)
      case Drained(rows) => Outcome(Success(Json(JsonArray(rows))), s)
  }

  // ------------------------------------------------------------- dispatcher

  /** How many arguments each operation indexes. */
  function Arity(fn: string): nat
  {
    if fn == "createPerson" then 3
    else if fn == "createPolicy" then 5
    else if fn == "createClaim" then 5
    else if fn == "queryPerson" then 1
    else if fn == "queryPolicy" then 1
    else if fn == "queryClaim" then 1
    else if fn == "confirmClaim" then 3
    else if fn == "rejectClaim" then 2
    else if fn == "queryByPersonId" then 1
    else 0
  }

  predicate IsOperation(fn: string)
  {
    fn in {"createPerson", "createPolicy", "createClaim", "queryPerson", "queryPolicy",
           "queryClaim", "confirmClaim", "rejectClaim", "queryByPersonId"}
  }

  function Invoke(s: Store, fn: string, args: seq<string>, richQuery: RichQuery): (o: Outcome)
    requires |args| >= Arity(fn)
    ensures !IsOperation(fn) ==> o == Outcome(Error("Invalid Smart Contract function name."), s)
  {
    if fn == "createPerson" then CreatePerson(s, args)
    else if fn == "createPolicy" then CreatePolicy(s, args)
    else if fn == "createClaim" then CreateClaim(s, args)
    else if fn == "queryPerson" then QueryPerson(s, args)
    else if fn == "queryPolicy" then QueryPolicy(s, args)
    else if fn == "queryClaim" then QueryClaim(s, args)
    else if fn == "confirmClaim" then ConfirmClaim(s, args)
    else if fn == "rejectClaim" then RejectClaim(s, args)
    else if fn == "queryByPersonId" then QueryByPersonId(s, args, richQuery)
    else Outcome(Error("Invalid Smart Contract function name."), s)
  }

  /** The state Fabric commits after an invocation: a transaction whose
      chaincode answered with an error is not endorsed, so its writes are
      discarded. */
  function Commit(s: Store, o: Outcome): (t: Store)
    ensures o.response.Error? ==> t == s
    ensures o.response.Success? ==> t == o.store
  {
    if o.response.Error? then s else o.store
  }
}
