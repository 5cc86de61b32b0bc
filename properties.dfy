/** What the handlers promise, stated over the functions of Chaincode. */
module Properties {
  import opened Records
  import opened Strconv
  import opened Chaincode

  // ---------------------------------------------------------------- creation

  /** A person just created is found by queryPerson with exactly the three
      fields given, and nothing else in the state changed. */
  lemma QueryAfterCreatePerson(s: Store, args: seq<string>)
    requires |args| >= 3
    ensures CreatePerson(s, args).response == Success(NoPayload)
    ensures OnlyKeyChanged(s, CreatePerson(s, args).store, args[0])
    ensures QueryPerson(CreatePerson(s, args).store, [args[0]]).response
         == Success(Stored(PersonRecord(Person(args[0], args[1], args[2]))))
  {
  }

  /** createPolicy for a person not in the state fails and writes nothing. */
  lemma CreatePolicyNeedsPerson(s: Store, args: seq<string>)
    requires |args| >= 5 && args[4] !in s
    ensures CreatePolicy(s, args) == Outcome(Error("Could not find person "), s)
  {
  }

  /** With the person present, createPolicy writes the policy under
      args[0], whether or not insuredAmt parses; it reports success exactly
      when it parses, and the amount stored is the int Atoi returned. Where
      the error aborts the transaction the committed state is unchanged. */
  lemma CreatePolicyWrites(s: Store, args: seq<string>)
    requires |args| >= 5 && args[4] in s
    ensures var o := CreatePolicy(s, args);
      && OnlyKeyChanged(s, o.store, args[0])
      && Get(o.store, args[0]) == Some(PolicyRecord(Policy(args[0], args[1], args[2], Atoi(args[3]).Value(), args[4])))
      && (o.response.Success? <==> Atoi(args[3]).Ok?)
      && (o.response.Error? ==> o.response.message == "Failed to record policy catch: " + args[0] && Commit(s, o) == s)
      && (Atoi(args[3]).SyntaxError? ==> o.store[args[0]].policy.insuredAmt == 0)
  {
  }

  /** createClaim looks for the policy first and the person second, and
      writes nothing when either is missing. */
  lemma CreateClaimChecksReferences(s: Store, args: seq<string>)
    requires |args| >= 5
    ensures args[4] !in s ==> CreateClaim(s, args) == Outcome(Error("Could not find policy "), s)
    ensures args[4] in s && args[3] !in s ==>
      CreateClaim(s, args) == Outcome(Error("Could not find person "), s)
    ensures CreateClaim(s, args).response.Success? <==> args[4] in s && args[3] in s
  {
  }

  /** The claim createClaim writes: open, nothing approved yet, blank
      remarks, the amount Atoi made of args[1] (0 when it does not parse,
      the nearest 64-bit bound when it is out of range),
      under key args[0] and nowhere else. */
  lemma CreateClaimWrites(s: Store, args: seq<string>)
    requires |args| >= 5 && args[4] in s && args[3] in s
    ensures var o := CreateClaim(s, args);
      && o.response == Success(NoPayload)
      && OnlyKeyChanged(s, o.store, args[0])
      && args[0] in o.store && o.store[args[0]].ClaimRecord?
      && var c := o.store[args[0]].claim;
      && c.status == Open && c.claimedAmt == 0 && c.remarks == " "
      && c.claimId == args[0] && c.createTime == args[2]
      && c.personId == args[3] && c.policyNum == args[4]
      && (Atoi(args[1]).Ok? ==> c.claimAmt == Atoi(args[1]).n)
      && (Atoi(args[1]).SyntaxError? ==> c.claimAmt == 0)
      && (Atoi(args[1]).RangeError? ==> c.claimAmt == Atoi(args[1]).clamped)
  {
  }

  /** The three point queries return the stored record whatever its kind;
      they differ only in the message for a missing key, and none of them
      changes the state. */
  lemma PointQueriesIgnoreKind(s: Store, key: string)
    ensures QueryPerson(s, [key]).store == s && QueryPolicy(s, [key]).store == s && QueryClaim(s, [key]).store == s
    ensures key in s ==>
      && QueryPerson(s, [key]).response == Success(Stored(s[key]))
      && QueryPolicy(s, [key]).response == Success(Stored(s[key]))
      && QueryClaim(s, [key]).response == Success(Stored(s[key]))
    ensures key !in s ==>
      && QueryPerson(s, [key]).response == Error("Could not find people")
      && QueryPolicy(s, [key]).response == Error("Could not locate policy")
      && QueryClaim(s, [key]).response == Error("Could not locate claim")
  {
  }

  // ------------------------------------------------------- claim lifecycle

  /** True when the value under key decodes to a claim in status open. */
  predicate IsOpen(s: Store, key: string)
  {
    key in s && AsClaim(s[key]).status == Open
  }

  /** confirmClaim's errors, in the order it tests them; none writes. */
  lemma ConfirmClaimErrors(s: Store, args: seq<string>)
    requires |args| >= 3
    ensures args[0] !in s ==> ConfirmClaim(s, args) == Outcome(Error("Could not locate Claim "), s)
    ensures args[0] in s && !Atoi(args[1]).Ok? ==>
      ConfirmClaim(s, args) == Outcome(Error("ClaimedAmt is not numeric: " + args[0]), s)
    ensures args[0] in s && Atoi(args[1]).Ok? && !IsOpen(s, args[0]) ==>
      ConfirmClaim(s, args) == Outcome(Error("Claim already processed " + args[0]), s)
    ensures ConfirmClaim(s, args).response.Success? <==> IsOpen(s, args[0]) && Atoi(args[1]).Ok?
  {
  }

  /** Confirming an open claim sets the approved amount, the status and the
      remarks and keeps the other fields; the amount is not bounded by the
      claimed amount or by the policy. */
  lemma ConfirmClaimOpen(s: Store, args: seq<string>)
    requires |args| >= 3 && IsOpen(s, args[0]) && Atoi(args[1]).Ok?
    ensures var o := ConfirmClaim(s, args);
      && o.response == Success(NoPayload)
      && OnlyKeyChanged(s, o.store, args[0])
      && o.store[args[0]] == ClaimRecord(AsClaim(s[args[0]]).(
           claimedAmt := Atoi(args[1]).n, status := Claimed, remarks := args[2]))
  {
  }

  /** rejectClaim's errors, in the order it tests them; none writes. */
  lemma RejectClaimErrors(s: Store, args: seq<string>)
    requires |args| >= 2
    ensures args[0] !in s ==> RejectClaim(s, args) == Outcome(Error("Could not locate Claim "), s)
    ensures args[0] in s && !IsOpen(s, args[0]) ==>
      RejectClaim(s, args) == Outcome(Error("Claim already processed " + args[0]), s)
    ensures RejectClaim(s, args).response.Success? <==> IsOpen(s, args[0])
  {
  }

  /** Rejecting an open claim sets the status and the remarks and keeps the
      approved amount and every other field. */
  lemma RejectClaimOpen(s: Store, args: seq<string>)
    requires |args| >= 2 && IsOpen(s, args[0])
    ensures var o := RejectClaim(s, args);
      && o.response == Success(NoPayload)
      && OnlyKeyChanged(s, o.store, args[0])
      && o.store[args[0]] == ClaimRecord(AsClaim(s[args[0]]).(status := Rejected, remarks := args[1]))
      && o.store[args[0]].claim.claimedAmt == AsClaim(s[args[0]]).claimedAmt
  {
  }

  /** A claim that has been decided, and any key holding a person or a
      policy (whose decoded status is empty), refuses both decisions. */
  lemma DecidedIsTerminal(s: Store, key: string, amount: string, remarks: string)
    requires key in s && !IsOpen(s, key)
    ensures RejectClaim(s, [key, remarks]) == Outcome(Error("Claim already processed " + key), s)
    ensures Atoi(amount).Ok? ==>
      ConfirmClaim(s, [key, amount, remarks]) == Outcome(Error("Claim already processed " + key), s)
    ensures ConfirmClaim(s, [key, amount, remarks]).response.Error?
    ensures ConfirmClaim(s, [key, amount, remarks]).store == s
    ensures !s[key].ClaimRecord? ==> AsClaim(s[key]).status == ""
  {
  }

  /** Once an open claim is confirmed, every later decision on it fails and
      writes nothing; with a numeric amount, a later confirmation fails with
      Claim already processed. */
  lemma ConfirmThenAnyFails(s: Store, first: seq<string>, amount: string, remarks: string)
    requires |first| >= 3 && IsOpen(s, first[0]) && Atoi(first[1]).Ok?
    ensures var key := first[0];
      var t := ConfirmClaim(s, first).store;
      && RejectClaim(t, [key, remarks]) == Outcome(Error("Claim already processed " + key), t)
      && ConfirmClaim(t, [key, amount, remarks]).response.Error?
      && ConfirmClaim(t, [key, amount, remarks]).store == t
      && (Atoi(amount).Ok? ==>
            ConfirmClaim(t, [key, amount, remarks]) == Outcome(Error("Claim already processed " + key), t))
  {
    ConfirmClaimOpen(s, first);
    DecidedIsTerminal(ConfirmClaim(s, first).store, first[0], amount, remarks);
  }

  /** Once an open claim is rejected, every later decision on it fails and
      writes nothing, likewise. */
  lemma RejectThenAnyFails(s: Store, first: seq<string>, amount: string, remarks: string)
    requires |first| >= 2 && IsOpen(s, first[0])
    ensures var key := first[0];
      var t := RejectClaim(s, first).store;
      && RejectClaim(t, [key, remarks]) == Outcome(Error("Claim already processed " + key), t)
      && ConfirmClaim(t, [key, amount, remarks]).response.Error?
      && ConfirmClaim(t, [key, amount, remarks]).store == t
      && (Atoi(amount).Ok? ==>
            ConfirmClaim(t, [key, amount, remarks]) == Outcome(Error("Claim already processed " + key), t))
  {
    RejectClaimOpen(s, first);
    DecidedIsTerminal(RejectClaim(s, first).store, first[0], amount, remarks);
  }

  /** The one way back out of a decided claim: keys are not checked for
      duplicates, so createClaim under the same key replaces it with a
      fresh open claim. */
  lemma RecreateReopens(s: Store, key: string, args: seq<string>)
    requires key in s && (AsClaim(s[key]).status == Claimed || AsClaim(s[key]).status == Rejected)
    requires |args| >= 5 && args[0] == key && args[3] in s && args[4] in s
    ensures IsOpen(CreateClaim(s, args).store, key)
  {
  }

  // --------------------------------------------------------- dispatcher

  predicate IsCreate(fn: string)
  {
    fn == "createPerson" || fn == "createPolicy" || fn == "createClaim"
  }

  /** Every invocation writes at most the key args[0]; queries and unknown
      names write nothing; a failure writes nothing except in createPolicy,
      whose failed write Fabric does not commit. */
  lemma InvokeFrame(s: Store, fn: string, args: seq<string>, richQuery: RichQuery)
    requires |args| >= Arity(fn)
    ensures var o := Invoke(s, fn, args, richQuery);
      && (|args| > 0 ==> OnlyKeyChanged(s, o.store, args[0]))
      && (!IsCreate(fn) && fn != "confirmClaim" && fn != "rejectClaim" ==> o.store == s)
      && (o.response.Error? && fn != "createPolicy" ==> o.store == s)
      && (o.response.Error? ==> Commit(s, o) == s)
  {
  }

  /** How the value under any key can change in one invocation: only at
      args[0], and then either by a create, which overwrites whatever was
      there, or by the decision taken on an open claim. A decided claim
      therefore stays decided until a create reuses its key. */
  lemma StatusTransitions(s: Store, fn: string, args: seq<string>, richQuery: RichQuery, key: string)
    requires |args| >= Arity(fn)
    requires Get(Invoke(s, fn, args, richQuery).store, key) != Get(s, key)
    ensures |args| > 0 && key == args[0]
    ensures IsCreate(fn)
         || (fn == "confirmClaim" && IsOpen(s, key)
             && Invoke(s, fn, args, richQuery).store[key].claim.status == Claimed)
         || (fn == "rejectClaim" && IsOpen(s, key)
             && Invoke(s, fn, args, richQuery).store[key].claim.status == Rejected)
  {
    InvokeFrame(s, fn, args, richQuery);
  }

  // ------------------------------------------------------------ query index

  /** The selector text determines the holder it was built for. */
  lemma {:induction false} SelectorInjective(a: string, b: string)
    requires Selector(a) == Selector(b)
    ensures a == b
  {
    var pre := "{\"selector\":{\"personId\":\"";
    var post := "\"}}";
    assert Selector(a) == pre + a + post && Selector(b) == pre + b + post;
    assert |a| == |b|;
    assert a == Selector(a)[|pre|..|pre| + |a|];
    assert b == Selector(b)[|pre|..|pre| + |b|];
  }

  /** Draining an iterator that never fails delivers every row in order. */
  lemma {:induction false} DrainRows(steps: seq<Step>)
    requires NeverFails(steps)
    ensures Drain(steps) == Drained(seq(|steps|, i requires 0 <= i < |steps| => steps[i].row))
    decreases |steps|
  {
    if steps != [] {
      DrainRows(steps[1..]);
      var all := seq(|steps|, i requires 0 <= i < |steps| => steps[i].row);
      var tail := seq(|steps[1..]|, i requires 0 <= i < |steps[1..]| => steps[1..][i].row);
      assert all == [steps[0].row] + tail;
    }
  }

  /** The key of every row of the answer. */
  function Keys(rows: seq<Row>): (ks: seq<string>)
    ensures |ks| == |rows|
    ensures forall i :: 0 <= i < |rows| ==> ks[i] == rows[i].key
  {
    seq(|rows|, i requires 0 <= i < |rows| => rows[i].key)
  }

  /** The keys whose record carries personId == holder: what the selector
      matches in a state. All three kinds of record carry that field. */
  function MatchingKeys(s: Store, holder: string): set<string>
  {
    set k | k in s && s[k].PersonId() == holder
  }

  predicate Distinct(ks: seq<string>)
  {
    forall i, j :: 0 <= i < j < |ks| ==> ks[i] != ks[j]
  }

  lemma {:induction false} DistinctCard(ks: seq<string>)
    requires Distinct(ks)
    ensures |set k | k in ks| == |ks|
    decreases |ks|
  {
    if ks != [] {
      DistinctCard(ks[1..]);
      assert (set k | k in ks) == {ks[0]} + (set k | k in ks[1..]);
      assert ks[0] !in ks[1..];
    }
  }

  /** When the store answers the selector with the records it holds for
      holder, each once, the answer has exactly one member per matching key. */
  lemma QueryByPersonIdFromStore(s: Store, args: seq<string>, richQuery: RichQuery, rows: seq<Row>)
    requires |args| >= 1
    requires richQuery(Selector(args[0])) == Steps(seq(|rows|, i requires 0 <= i < |rows| => Next(rows[i])))
    requires Distinct(Keys(rows)) && (set k | k in Keys(rows)) == MatchingKeys(s, args[0])
    ensures QueryByPersonId(s, args, richQuery) == Outcome(Success(Json(JsonArray(rows))), s)
    ensures |rows| == |MatchingKeys(s, args[0])|
    ensures MatchingKeys(s, args[0]) == {} <==> JsonArray(rows) == "[]"
  {
    var steps := seq(|rows|, i requires 0 <= i < |rows| => Next(rows[i]));
    DrainRows(steps);
    assert seq(|steps|, i requires 0 <= i < |steps| => steps[i].row) == rows;
    DistinctCard(Keys(rows));
  }

  // ----------------------------------------------------------- worked example

  /** A person, a policy and a claim created in turn on an empty state; the
      claim is confirmed, a later rejection fails, and the selector for the
      person matches the three keys. */
  lemma WorkedExample(richQuery: RichQuery)
    ensures var s0: Store := map[];
      var s1 := CreatePerson(s0, ["P1", "Alice", "F"]).store;
      var s2 := CreatePolicy(s1, ["POL1", "Health", "2024-01-01", "10000", "P1"]).store;
      var o3 := CreateClaim(s2, ["C1", "5000", "2024-02-01", "P1", "POL1"]);
      var o4 := ConfirmClaim(o3.store, ["C1", "3000", "approved"]);
      && o3.response == Success(NoPayload)
      && o3.store["C1"] == ClaimRecord(Claim("C1", 5000, 0, "P1", "POL1", "2024-02-01", Open, " "))
      && o4.response == Success(NoPayload)
      && o4.store["C1"] == ClaimRecord(Claim("C1", 5000, 3000, "P1", "POL1", "2024-02-01", Claimed, "approved"))
      && RejectClaim(o4.store, ["C1", "too late"]).response == Error("Claim already processed C1")
      && MatchingKeys(o4.store, "P1") == {"P1", "POL1", "C1"}
  {
    AtoiItoa(10000);
    AtoiItoa(5000);
    AtoiItoa(3000);
    assert Itoa(10000) == "10000";
    assert Itoa(5000) == "5000";
    assert Itoa(3000) == "3000";
  }
}
