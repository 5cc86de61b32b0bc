/** The handlers as the chaincode runs them: each reads the world state,
    decodes and changes a local record field by field, and puts it back.
    Every method is proved to do exactly what its function in Chaincode
    says. */
module Contract {
  import opened Records
  import opened Strconv
  import opened Chaincode

  class SmartContract {
    /** The world state this invocation reads and writes. */
    var ledger: Store

    constructor (initial: Store)
      ensures ledger == initial
    {
      ledger := initial;
    }

    function GetState(key: string): (r: Option<Record>)
      reads this
    {
      Get(ledger, key)
    }

    method PutState(key: string, value: Record)
      modifies this
      ensures ledger == old(ledger)[key := value]
    {
      ledger := ledger[key := value];
    }

    method CreatePerson(args: seq<string>) returns (r: Response)
      requires |args| >= 3
      modifies this
      ensures Outcome(r, ledger) == Chaincode.CreatePerson(old(ledger), args)
    {
      var person := Person(args[0], args[1], args[2]);
      PutState(args[0], PersonRecord(person));
      r := Success(NoPayload);
    }

    method CreatePolicy(args: seq<string>) returns (r: Response)
      requires |args| >= 5
      modifies this
      ensures Outcome(r, ledger) == Chaincode.CreatePolicy(old(ledger), args)
    {
      var personAsBytes := GetState(args[4]);
      if personAsBytes.None? {
        return Error("Could not find person ");
      }
      var j := Atoi(args[3]);
      var policy := Policy(args[0], args[1], args[2], j.Value(), args[4]);
      PutState(args[0], PolicyRecord(policy));
      if !j.Ok? {
        return Error("Failed to record policy catch: " + args[0]);
      }
      r := Success(NoPayload);
    }

    method CreateClaim(args: seq<string>) returns (r: Response)
      requires |args| >= 5
      modifies this
      ensures Outcome(r, ledger) == Chaincode.CreateClaim(old(ledger), args)
    {
      var policyAsBytes := GetState(args[4]);
      if policyAsBytes.None? {
        return Error("Could not find policy ");
      }
      var personAsBytes := GetState(args[3]);
      if personAsBytes.None? {
        return Error("Could not find person ");
      }
      var i := Atoi(args[1]).Value();
      var claim := Claim(args[0], i, 0, args[3], args[4], args[2], Open, " ");
      PutState(args[0], ClaimRecord(claim));
      r := Success(NoPayload);
    }

    method QueryPerson(args: seq<string>) returns (r: Response)
      requires |args| >= 1
      ensures Outcome(r, ledger) == Chaincode.QueryPerson(ledger, args)
    {
      var asBytes := GetState(args[0]);
      if asBytes.None? {
        return Error("Could not find people");
      }
      r := Success(Stored(asBytes.value));
    }

    method QueryPolicy(args: seq<string>) returns (r: Response)
      requires |args| >= 1
      ensures Outcome(r, ledger) == Chaincode.QueryPolicy(ledger, args)
    {
      var asBytes := GetState(args[0]);
      if asBytes.None? {
        return Error("Could not locate policy");
      }
      r := Success(Stored(asBytes.value));
    }

    method QueryClaim(args: seq<string>) returns (r: Response)
      requires |args| >= 1
      ensures Outcome(r, ledger) == Chaincode.QueryClaim(ledger, args)
    {
      var asBytes := GetState(args[0]);
      if asBytes.None? {
        return Error("Could not locate claim");
      }
      r := Success(Stored(asBytes.value));
    }

    method ConfirmClaim(args: seq<string>) returns (r: Response)
      requires |args| >= 3
      modifies this
      ensures Outcome(r, ledger) == Chaincode.ConfirmClaim(old(ledger), args)
    {
      var claimAsBytes := GetState(args[0]);
      if claimAsBytes.None? {
        return Error("Could not locate Claim ");
      }
      var claim := AsClaim(claimAsBytes.value);
      var j := Atoi(args[1]);
      if !j.Ok? {
        return Error("ClaimedAmt is not numeric: " + args[0]);
      }
      if claim.status != Open {
        return Error("Claim already processed " + args[0]);
      }
      claim := claim.(claimedAmt := j.n);
      claim := claim.(status := Claimed);
      claim := claim.(remarks := args[2]);
      PutState(args[0], ClaimRecord(claim));
      r := Success(NoPayload);
    }

    method RejectClaim(args: seq<string>) returns (r: Response)
      requires |args| >= 2
      modifies this
      ensures Outcome(r, ledger) == Chaincode.RejectClaim(old(ledger), args)
    {
      var claimAsBytes := GetState(args[0]);
      if claimAsBytes.None? {
        return Error("Could not locate Claim ");
      }
      var claim := AsClaim(claimAsBytes.value);
      if claim.status != Open {
        return Error("Claim already processed " + args[0]);
      }
      claim := claim.(status := Rejected);
      claim := claim.(remarks := args[1]);
      PutState(args[0], ClaimRecord(claim));
      r := Success(NoPayload);
    }

    /** Drains the query iterator into a JSON array, writing a comma before
        every member but the first. */
    method QueryByPersonId(args: seq<string>, richQuery: RichQuery) returns (r: Response)
      requires |args| >= 1
      ensures Outcome(r, ledger) == Chaincode.QueryByPersonId(ledger, args, richQuery)
    {
      var holder := args[0];
      var queryString := Selector(holder);
      var queryResults := richQuery(queryString);
      if queryResults.QueryFailed? {
        return Error(queryResults.message);
      }
      var steps := queryResults.steps;
      var buffer := "[";
      var memberAlreadyWritten := false;
      ghost var rows: seq<Row> := [];
      var i := 0;
      while i < |steps|
        invariant 0 <= i <= |steps|
        invariant Drain(steps[..i]) == Drained(rows)
        invariant buffer == "[" + Join(rows)
        invariant memberAlreadyWritten == (rows != [])
      {
        DrainSnoc(steps[..i], steps[i]);
        assert steps[..i + 1] == steps[..i] + [steps[i]];
        if steps[i].NextFailed? {
          DrainAfterFailure(steps[..i + 1], steps[i + 1..]);
          assert steps[..i + 1] + steps[i + 1..] == steps;
          return Error(steps[i].message);
        }
        var queryResponse := steps[i].row;
        JoinSnoc(rows, queryResponse);
        ghost var before := buffer;
        if memberAlreadyWritten {
          buffer := buffer + ",";
        }
        buffer := buffer + "{\"Key\":";
        buffer := buffer + "\"";
        buffer := buffer + queryResponse.key;
        buffer := buffer + "\"";
        buffer := buffer + ", \"Record\":";
        buffer := buffer + queryResponse.value;
        buffer := buffer + "}";
        EntryWritten(before + (if rows == [] then "" else ","), queryResponse);
        memberAlreadyWritten := true;
        rows := rows + [queryResponse];
        i := i + 1;
      }
      assert steps[..i] == steps;
      buffer := buffer + "]";
      r := Success(Json(buffer));
    }

    /** The if-chain over the nine operation names. */
    method Invoke(fn: string, args: seq<string>, richQuery: RichQuery) returns (r: Response)
      requires |args| >= Arity(fn)
      modifies this
      ensures Outcome(r, ledger) == Chaincode.Invoke(old(ledger), fn, args, richQuery)
    {
      if fn == "createPerson" {
        r := CreatePerson(args);
      } else if fn == "createPolicy" {
        r := CreatePolicy(args);
      } else if fn == "createClaim" {
        r := CreateClaim(args);
      } else if fn == "queryPerson" {
        r := QueryPerson(args);
      } else if fn == "queryPolicy" {
        r := QueryPolicy(args);
      } else if fn == "queryClaim" {
        r := QueryClaim(args);
      } else if fn == "confirmClaim" {
        r := ConfirmClaim(args);
      } else if fn == "rejectClaim" {
        r := RejectClaim(args);
      } else if fn == "queryByPersonId" {
        r := QueryByPersonId(args, richQuery);
      } else {
        r := Error("Invalid Smart Contract function name.");
      }
    }
  }

  /** Appending one step to a drained prefix: a failure is kept, a new
      failure ends the drain, a row is appended. */
  lemma {:induction false} DrainSnoc(steps: seq<Step>, last: Step)
    ensures Drain(steps + [last]) ==
      match Drain(steps)
      case Failed(m) => Failed(m)
      case Drained(rows) =>
        match last
        case NextFailed(m) => Failed(m)
        case Next(row) => Drained(rows + [row])
    decreases |steps|
  {
    if steps == [] {
      assert [] + [last] == [last];
      assert [last][1..] == [];
    } else {
      assert (steps + [last])[0] == steps[0];
      assert (steps + [last])[1..] == steps[1..] + [last];
      DrainSnoc(steps[1..], last);
      if steps[0].Next? && Drain(steps[1..]).Drained? && last.Next? {
        var rows := Drain(steps[1..]).rows;
        assert [steps[0].row] + (rows + [last.row]) == ([steps[0].row] + rows) + [last.row];
      }
    }
  }

  /** Nothing after the first failure is looked at. */
  lemma {:induction false} DrainAfterFailure(steps: seq<Step>, rest: seq<Step>)
    requires Drain(steps).Failed?
    ensures Drain(steps + rest) == Drain(steps)
    decreases |steps|
  {
    assert steps != [];
    assert (steps + rest)[0] == steps[0];
    if steps[0].Next? {
      assert (steps + rest)[1..] == steps[1..] + rest;
      DrainAfterFailure(steps[1..], rest);
    }
  }

  /** The seven writes of one member add up to its entry. */
  lemma EntryWritten(prefix: string, row: Row)
    ensures prefix + "{\"Key\":" + "\"" + row.key + "\"" + ", \"Record\":" + row.value + "}"
         == prefix + Entry(row)
  {
  }

  /** Appending a member to the joined text writes a comma exactly when
      members were already written. */
  lemma {:induction false} JoinSnoc(rows: seq<Row>, row: Row)
    ensures Join(rows + [row]) == Join(rows) + (if rows == [] then "" else ",") + Entry(row)
    decreases |rows|
  {
    if rows == [] {
      assert [] + [row] == [row];
    } else if |rows| == 1 {
      assert rows + [row] == [rows[0], row];
      assert [rows[0], row][1..] == [row];
    } else {
      var rest := rows[1..];
      assert (rows + [row])[0] == rows[0];
      assert (rows + [row])[1..] == rest + [row];
      JoinSnoc(rest, row);
      assert Join(rest + [row]) == Join(rest) + "," + Entry(row);
      assert Join(rows) == Entry(rows[0]) + "," + Join(rest);
    }
  }
}
