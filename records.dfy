/** The three entities the chaincode stores, and how its handlers read a
    stored value back. */
module Records {

  datatype Option<T> = None | Some(value: T)

  /** Field names follow the JSON tags of the Go structs. */
  datatype Person = Person(personId: string, name: string, gender: string)

  datatype Policy = Policy(
    policyNum: string,
    plan: string,
    createTime: string,
    insuredAmt: int,
    personId: string)

  datatype Claim = Claim(
    claimId: string,
    claimAmt: int,
    claimedAmt: int,
    personId: string,
    policyNum: string,
    createTime: string,
    status: string,
    remarks: string)

  /** A stored value. Nothing in the key says which kind it is. */
  datatype Record =
    | PersonRecord(person: Person)
    | PolicyRecord(policy: Policy)
    | ClaimRecord(claim: Claim)
  {
    /** The `personId` field, which all three kinds carry. */
    function PersonId(): string
    {
      match this
      case PersonRecord(p) => p.personId
      case PolicyRecord(q) => q.personId
      case ClaimRecord(c) => c.personId
    }
  }

  /** The world state: one flat key space. The value under a key is the
      record whose JSON encoding was last put there. */
  type Store = map<string, Record>

  const Open: string := "open"
  const Claimed: string := "claimed"
  const Rejected: string := "rejected"

  /** What json.Unmarshal leaves in a zero Claim when it decodes a stored
      record: the fields whose JSON names the record shares, and the zero
      value everywhere else. A Person or a Policy therefore decodes to a
      claim whose status is empty. */
  function AsClaim(r: Record): (c: Claim)
    ensures r.ClaimRecord? ==> c == r.claim
    ensures c.personId == r.PersonId()
    ensures !r.ClaimRecord? ==> c.status == "" && c.claimId == "" && c.claimedAmt == 0
  {
    match r
    case ClaimRecord(c) => c
    case PersonRecord(p) => Claim("", 0, 0, p.personId, "", "", "", "")
    case PolicyRecord(q) => Claim("", 0, 0, q.personId, q.policyNum, q.createTime, "", "")
  }

  /** GetState: the record under key, or None where GetState returns nil. */
  function Get(s: Store, key: string): Option<Record>
  {
    if key in s then Some(s[key]) else None
  }
}
