/**
 * The `POST /api/wallet` key-provisioning handler.
 *
 * The user table is a map from user id to row, owned by a `UserTable` object whose
 * `Post` method answers one request and updates the table in place. The pure function
 * `Provision` states the same step on values so that sequences of requests can be
 * reasoned about; `Post` is proved to agree with it.
 */
module WalletRoute {
  import opened Js

  type UserId = string

  /** A row of the user table (only the fields the handler can observe or change). */
  datatype UserRecord = UserRecord(
    id: UserId,
    email: string,
    password: string,
    ethereumPrivKey: Option<string>,
    ethereumAddress: Option<string>)

  /** The value a JSON body gives one key: absent (undefined), `null`, or a string. */
  datatype Field = Missing | Null | Text(s: string)

  datatype Body = Body(ethereumPrivKey: Field, ethereumAddress: Field)

  /** The outcome of `req.json()`: a body, or the message of the error it threw. */
  datatype ParsedBody = Parsed(body: Body) | Malformed(message: string)

  /** A request: its parsed body and the `Authorization` header, used as the user id. */
  datatype Request = Request(body: ParsedBody, authorization: UserId)

  /**
   * What the database does on this request: for each of the two calls, either it
   * answers, or it throws an error with the given message.
   */
  datatype Faults = Faults(lookup: Option<string>, update: Option<string>)

  const NoFaults := Faults(None, None)

  datatype Payload =
    | Failed(message: string)
    | Updated(message: string, user: UserRecord)

  datatype Response = Response(status: int, payload: Payload)

  const UserNotFound := "User Not Found"
  const AlreadyProvisioned := "User already has ethereumPrivKey and ethereumBalance"
  const UpdatedSuccessfully := "User updated successfully"

  /** The guard of the handler: both key fields are truthy. */
  predicate HoldsKeyPair(privKey: Option<string>, address: Option<string>)
  {
    Truthy(privKey) && Truthy(address)
  }

  predicate Provisioned(u: UserRecord)
  {
    HoldsKeyPair(u.ethereumPrivKey, u.ethereumAddress)
  }

  /** What an update writes to one column: an undefined value leaves it as it was. */
  function Assign(current: Option<string>, f: Field): (r: Option<string>)
  {
    match f
    case Missing => current
    case Null => None
    case Text(s) => Some(s)
  }

  /** The row after the single update of both key fields; nothing else of it changes. */
  function WithKeys(u: UserRecord, b: Body): (r: UserRecord)
    ensures r.id == u.id && r.email == u.email && r.password == u.password
    ensures b.ethereumPrivKey.Text? ==> r.ethereumPrivKey == Some(b.ethereumPrivKey.s)
    ensures b.ethereumAddress.Text? ==> r.ethereumAddress == Some(b.ethereumAddress.s)
  {
    u.(ethereumPrivKey := Assign(u.ethereumPrivKey, b.ethereumPrivKey),
       ethereumAddress := Assign(u.ethereumAddress, b.ethereumAddress))
  }

  datatype Outcome = Outcome(response: Response, users: map<UserId, UserRecord>)

  /**
   * One request against the table: the response and the table afterwards.
   * Whatever happens, no row is added or removed, and only the addressed row's two
   * key fields can change.
   */
  function Provision(users: map<UserId, UserRecord>, req: Request, faults: Faults): (r: Outcome)
    ensures r.users.Keys == users.Keys
    ensures forall id :: id in users && id != req.authorization ==> r.users[id] == users[id]
    ensures req.authorization in users ==>
      var before, after := users[req.authorization], r.users[req.authorization];
      after.id == before.id && after.email == before.email && after.password == before.password
    ensures r.response.status != 200 ==> r.users == users
  {
    if req.body.Malformed? then
      Outcome(Response(500, Failed(req.body.message)), users)
    else if faults.lookup.Some? then
      Outcome(Response(500, Failed(faults.lookup.value)), users)
    else if req.authorization !in users then
      Outcome(Response(400, Failed(UserNotFound)), users)
    else if Provisioned(users[req.authorization]) then
      Outcome(Response(400, Failed(AlreadyProvisioned)), users)
    else if faults.update.Some? then
      Outcome(Response(500, Failed(faults.update.value)), users)
    else
      var updated := WithKeys(users[req.authorization], req.body.body);
      Outcome(Response(200, Updated(UpdatedSuccessfully, updated)), users[req.authorization := updated])
  }

  /** The persisted user table, updated in place by the handler. */
  class UserTable {
    var users: map<UserId, UserRecord>

    constructor (initial: map<UserId, UserRecord>)
      ensures users == initial
    {
      users := initial;
    }

    /**
     * `POST /api/wallet`. Every thrown error (unparsable body, a failing lookup or
     * update) is caught and answered with 500 and its message.
     */
    method Post(req: Request, faults: Faults) returns (resp: Response)
      modifies this
      ensures Outcome(resp, users) == Provision(old(users), req, faults)
      ensures resp.status != 200 ==> users == old(users)
      ensures resp.status == 200 ==>
        && req.authorization in old(users)
        && !Provisioned(old(users)[req.authorization])
        && users == old(users)[req.authorization := WithKeys(old(users)[req.authorization], req.body.body)]
        && resp.payload == Updated(UpdatedSuccessfully, users[req.authorization])
    {
      if req.body.Malformed? {
        return Response(500, Failed(req.body.message));
      }
      var body := req.body.body;
      if faults.lookup.Some? {
        return Response(500, Failed(faults.lookup.value));
      }
      if req.authorization !in users {
        return Response(400, Failed(UserNotFound));
      }
      var user := users[req.authorization];
      if Truthy(user.ethereumPrivKey) && Truthy(user.ethereumAddress) {
        return Response(400, Failed(AlreadyProvisioned));
      }
      if faults.update.Some? {
        return Response(500, Failed(faults.update.value));
      }
      var updated := WithKeys(user, body);
      users := users[req.authorization := updated];
      resp := Response(200, Updated(UpdatedSuccessfully, updated));
    }
  }

  // ---------------------------------------------------------------------------
  // Properties of the handler
  // ---------------------------------------------------------------------------

  /** An id no row has is answered with 400 "User Not Found", and nothing is written. */
  lemma UnknownUserRejected(users: map<UserId, UserRecord>, body: Body, id: UserId, update: Option<string>)
    requires id !in users
    ensures Provision(users, Request(Parsed(body), id), Faults(None, update))
      == Outcome(Response(400, Failed(UserNotFound)), users)
  {
  }

  /** A fully provisioned user is answered with 400, and nothing is written. */
  lemma ProvisionedUserRejected(users: map<UserId, UserRecord>, body: Body, id: UserId, update: Option<string>)
    requires id in users && Provisioned(users[id])
    ensures Provision(users, Request(Parsed(body), id), Faults(None, update))
      == Outcome(Response(400, Failed(AlreadyProvisioned)), users)
  {
  }

  /** Every thrown error gives 500 with the error's message, and nothing is written. */
  lemma FaultsAnswer500(users: map<UserId, UserRecord>, req: Request, faults: Faults)
    ensures req.body.Malformed? ==>
      Provision(users, req, faults) == Outcome(Response(500, Failed(req.body.message)), users)
    ensures req.body.Parsed? && faults.lookup.Some? ==>
      Provision(users, req, faults) == Outcome(Response(500, Failed(faults.lookup.value)), users)
    ensures (req.body.Parsed? && faults.lookup.None? && faults.update.Some? &&
             req.authorization in users && !Provisioned(users[req.authorization])) ==>
      Provision(users, req, faults) == Outcome(Response(500, Failed(faults.update.value)), users)
  {
  }

  /**
   * A user without a key pair, given two strings, gets both written in one update
   * and the response carries the updated row.
   */
  lemma ProvisionWritesBoth(users: map<UserId, UserRecord>, id: UserId, privKey: string, address: string)
    requires id in users && !Provisioned(users[id])
    ensures var r := Provision(users, Request(Parsed(Body(Text(privKey), Text(address))), id), NoFaults);
      && r.response.status == 200
      && r.users[id] == users[id].(ethereumPrivKey := Some(privKey), ethereumAddress := Some(address))
      && r.response.payload == Updated(UpdatedSuccessfully, r.users[id])
  {
  }

  /**
   * The guard protects only users holding BOTH fields: a user holding only one of
   * them has both overwritten by the next request.
   */
  lemma HalfProvisionedOverwritten(users: map<UserId, UserRecord>, id: UserId, privKey: string, address: string)
    requires id in users
    requires Truthy(users[id].ethereumPrivKey) != Truthy(users[id].ethereumAddress)
    ensures var r := Provision(users, Request(Parsed(Body(Text(privKey), Text(address))), id), NoFaults);
      r.response.status == 200 && r.users[id].ethereumPrivKey == Some(privKey)
      && r.users[id].ethereumAddress == Some(address)
  {
  }

  /** Answer a sequence of requests in order; the table threads through. */
  function Replay(users: map<UserId, UserRecord>, reqs: seq<(Request, Faults)>): (r: seq<Response>)
    ensures |r| == |reqs|
  {
    if reqs == [] then []
    else
      var o := Provision(users, reqs[0].0, reqs[0].1);
      [o.response] + Replay(o.users, reqs[1..])
  }

  /** The table after answering a sequence of requests. */
  function FinalTable(users: map<UserId, UserRecord>, reqs: seq<(Request, Faults)>): (r: map<UserId, UserRecord>)
  {
    if reqs == [] then users
    else FinalTable(Provision(users, reqs[0].0, reqs[0].1).users, reqs[1..])
  }

  /**
   * Once a user is provisioned, every later request for that user, however many and
   * whatever they carry, and whatever requests for other users arrive in between, is
   * refused (400, or 500 on a thrown error); that user's row stays as it is, and no
   * row is ever added or removed.
   */
  lemma {:induction false} ProvisionedStaysProvisioned(users: map<UserId, UserRecord>, id: UserId,
                                                       reqs: seq<(Request, Faults)>)
    requires id in users && Provisioned(users[id])
    ensures FinalTable(users, reqs).Keys == users.Keys
    ensures FinalTable(users, reqs)[id] == users[id]
    ensures forall k :: 0 <= k < |reqs| && reqs[k].0.authorization == id ==>
      Replay(users, reqs)[k].status in {400, 500}
  {
    if reqs != [] {
      var o := Provision(users, reqs[0].0, reqs[0].1);
      assert o.users[id] == users[id];
      ProvisionedStaysProvisioned(o.users, id, reqs[1..]);
      var rest := Replay(o.users, reqs[1..]);
      assert Replay(users, reqs) == [o.response] + rest;
      forall k | 0 <= k < |reqs| && reqs[k].0.authorization == id
        ensures Replay(users, reqs)[k].status in {400, 500}
      {
        if k > 0 {
          assert reqs[1..][k - 1] == reqs[k];
        }
      }
    }
  }

  /**
   * Idempotence: after a successful request with two non-empty strings, every later
   * request for that user, interleaved with any requests for other users, is refused
   * and that user's row does not change again.
   */
  lemma SecondProvisionRefused(users: map<UserId, UserRecord>, id: UserId, privKey: string, address: string,
                               later: seq<(Request, Faults)>)
    requires id in users && !Provisioned(users[id])
    requires privKey != "" && address != ""
    ensures var first := Provision(users, Request(Parsed(Body(Text(privKey), Text(address))), id), NoFaults);
      && first.response.status == 200
      && id in FinalTable(first.users, later)
      && FinalTable(first.users, later)[id] == first.users[id]
      && forall k :: 0 <= k < |later| && later[k].0.authorization == id ==>
           Replay(first.users, later)[k].status in {400, 500}
  {
    var first := Provision(users, Request(Parsed(Body(Text(privKey), Text(address))), id), NoFaults);
    assert Provisioned(first.users[id]);
    ProvisionedStaysProvisioned(first.users, id, later);
  }

  /**
   * The guard tests truthiness, so idempotence fails for empty strings: a request
   * writing two empty strings succeeds, and so does the next one.
   */
  lemma EmptyKeysNotIdempotent(users: map<UserId, UserRecord>, id: UserId, privKey: string, address: string)
    requires id in users && !Provisioned(users[id])
    ensures var empty := Request(Parsed(Body(Text(""), Text(""))), id);
      var first := Provision(users, empty, NoFaults);
      var second := Provision(first.users, Request(Parsed(Body(Text(privKey), Text(address))), id), NoFaults);
      first.response.status == 200 && second.response.status == 200
      && second.users[id].ethereumPrivKey == Some(privKey)
  {
  }
}
