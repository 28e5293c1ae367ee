/** app/services/oauth.py: authorization requests, and the pairs of access and refresh tokens
    that follow from them. */
module OAuth {
  import opened Base

  type Id = nat
  type User = nat
  type Client = nat
  type Moment = int

  /** A token hash. generate_token's outputs are fresh, so a hash is the number it was made as. */
  type Hash = nat

  const CODE_TTL := 120
  const REQUEST_TTL := 600
  const ACCESS_TTL := 3600
  const REFRESH_TTL := 7776000

  datatype Request = Request(client: Client, user: Option<User>, code: Option<Hash>, expires: Moment, consumed: bool)

  datatype Access = Access(user: User, hash: Hash, expires: Moment, revoked: bool)

  datatype Refresh = Refresh(hash: Hash, client: Client, user: User, access: Id, expires: Moment, revoked: bool)

  /** The tables. `made` numbers every id and token so far; `chain` remembers which request each
      refresh token goes back to. */
  datatype State = State(
    users: set<User>, clients: set<Client>, requests: map<Id, Request>,
    accesses: map<Id, Access>, refreshes: map<Id, Refresh>, made: nat, chain: map<Id, Id>)

  // ---------------------------------------------------------------- specification

  predicate Open(s: State, id: Id, now: Moment) {
    id in s.requests && !s.requests[id].consumed && s.requests[id].expires >= now
  }

  function Create(s: State, client: Client, now: Moment): State {
    s.(requests := s.requests[s.made := Request(client, None, None, now + REQUEST_TTL, false)], made := s.made + 1)
  }

  predicate MayApprove(s: State, id: Id, now: Moment) {
    Open(s, id, now) && s.requests[id].user.None?
  }

  function Approve(s: State, id: Id, user: User, now: Moment): State {
    if !MayApprove(s, id, now) then s
    else s.(requests := s.requests[id := s.requests[id].(user := Some(user), code := Some(s.made), expires := now + CODE_TTL)],
            made := s.made + 1)
  }

  function Deny(s: State, id: Id, now: Moment): State {
    if !Open(s, id, now) then s else s.(requests := s.requests[id := s.requests[id].(consumed := true)])
  }

  /** _mint_access_token and _mint_refresh_token. */
  function Mint(s: State, user: User, client: Client, root: Id, now: Moment): State {
    var a, r := s.made, s.made + 1;
    s.(accesses := s.accesses[a := Access(user, a, now + ACCESS_TTL, false)],
       refreshes := s.refreshes[r := Refresh(r, client, user, a, now + REFRESH_TTL, false)],
       chain := s.chain[r := root], made := s.made + 2)
  }

  predicate MayExchangeCode(s: State, id: Id, now: Moment) {
    Open(s, id, now) && s.requests[id].user.Some? && s.requests[id].user.value in s.users
  }

  function ExchangeCode(s: State, id: Id, client: Client, now: Moment): State {
    if !MayExchangeCode(s, id, now) then s
    else
      var s1 := s.(requests := s.requests[id := s.requests[id].(consumed := true)]);
      Mint(s1, s.requests[id].user.value, client, id, now)
  }

  predicate MayExchangeRefresh(s: State, r: Id, client: Client, now: Moment) {
    && r in s.refreshes && !s.refreshes[r].revoked && s.refreshes[r].client == client
    && s.refreshes[r].expires >= now && s.refreshes[r].user in s.users && client in s.clients
  }

  /** Revoke a pair: the refresh token, and its access token when there is one. */
  function RevokePair(s: State, r: Id): State
    requires r in s.refreshes
  {
    var a := s.refreshes[r].access;
    s.(refreshes := s.refreshes[r := s.refreshes[r].(revoked := true)],
       accesses := if a in s.accesses then s.accesses[a := s.accesses[a].(revoked := true)] else s.accesses)
  }

  function RootOf(s: State, r: Id): Id {
    if r in s.chain then s.chain[r] else r
  }

  function ExchangeRefresh(s: State, r: Id, client: Client, now: Moment): State {
    if !MayExchangeRefresh(s, r, client, now) then s
    else Mint(RevokePair(s, r), s.refreshes[r].user, client, RootOf(s, r), now)
  }

  /** Revoke an access token, and the refresh token paired with it. */
  function RevokeAccess(s: State, a: Id): State
    requires a in s.accesses
  {
    s.(accesses := s.accesses[a := s.accesses[a].(revoked := true)],
       refreshes := map r | r in s.refreshes :: if s.refreshes[r].access == a then s.refreshes[r].(revoked := true) else s.refreshes[r])
  }

  /** revoke_oauth_token: one kind of token is tried first, then the other. */
  function Revoke(s: State, hash: Hash, refreshFirst: bool): State {
    if refreshFirst then
      if hash in s.refreshes then RevokePair(s, hash) else if hash in s.accesses then RevokeAccess(s, hash) else s
    else
      if hash in s.accesses then RevokeAccess(s, hash) else if hash in s.refreshes then RevokePair(s, hash) else s
  }

  datatype Op =
    | DoCreate(client: Client, now: Moment)
    | DoApprove(id: Id, user: User, now: Moment)
    | DoDeny(id: Id, now: Moment)
    | DoExchangeCode(id: Id, client: Client, now: Moment)
    | DoExchangeRefresh(token: Id, client: Client, now: Moment)
    | DoRevoke(hash: Hash, refreshFirst: bool)

  function Apply(s: State, op: Op): State {
    match op
    case DoCreate(client, now) => Create(s, client, now)
    case DoApprove(id, user, now) => Approve(s, id, user, now)
    case DoDeny(id, now) => Deny(s, id, now)
    case DoExchangeCode(id, client, now) => ExchangeCode(s, id, client, now)
    case DoExchangeRefresh(token, client, now) => ExchangeRefresh(s, token, client, now)
    case DoRevoke(hash, refreshFirst) => Revoke(s, hash, refreshFirst)
  }

  function Run(s: State, ops: seq<Op>): State {
    if ops == [] then s else Apply(Run(s, ops[..|ops| - 1]), ops[|ops| - 1])
  }

  // ---------------------------------------------------------------- the module

  class Server {
    const users: set<User>
    const clients: set<Client>
    var requests: map<Id, Request>
    var accesses: map<Id, Access>
    var refreshes: map<Id, Refresh>
    var made: nat
    ghost var chain: map<Id, Id>

    ghost function S(): State
      reads this
    {
      State(users, clients, requests, accesses, refreshes, made, chain)
    }

    constructor (users: set<User>, clients: set<Client>)
      ensures S() == State(users, clients, map[], map[], map[], 0, map[])
    {
      this.users, this.clients := users, clients;
      requests, accesses, refreshes, made, chain := map[], map[], map[], 0, map[];
    }

    method CreateAuthorizationRequest(client: Client, now: Moment) returns (id: Id)
      modifies this
      ensures S() == Create(old(S()), client, now) && id == old(made)
    {
      id := made;
      requests := requests[id := Request(client, None, None, now + REQUEST_TTL, false)];
      made := made + 1;
    }

    method GetAuthorizationRequest(id: Id, now: Moment) returns (r: Option<Request>)
      ensures r == if Open(S(), id, now) then Some(requests[id]) else None
    {
      if id !in requests || requests[id].consumed || requests[id].expires < now {
        return None;
      }
      return Some(requests[id]);
    }

    method ApproveAuthorizationRequest(id: Id, user: User, now: Moment) returns (code: Option<Hash>)
      modifies this
      ensures S() == Approve(old(S()), id, user, now)
      ensures code == if MayApprove(old(S()), id, now) then Some(old(made)) else None
    {
      var r := GetAuthorizationRequest(id, now);
      if r.None? || r.value.user.Some? {
        return None;
      }
      requests := requests[id := r.value.(user := Some(user), code := Some(made), expires := now + CODE_TTL)];
      code := Some(made);
      made := made + 1;
    }

    method DenyAuthorizationRequest(id: Id, now: Moment) returns (ok: bool)
      modifies this
      ensures S() == Deny(old(S()), id, now) && ok == Open(old(S()), id, now)
    {
      var r := GetAuthorizationRequest(id, now);
      if r.None? {
        return false;
      }
      requests := requests[id := r.value.(consumed := true)];
      return true;
    }

    method MintPair(user: User, client: Client, ghost root: Id, now: Moment) returns (pair: (Hash, Hash))
      modifies this
      ensures S() == Mint(old(S()), user, client, root, now) && pair == (old(made), old(made) + 1)
    {
      accesses := accesses[made := Access(user, made, now + ACCESS_TTL, false)];
      refreshes := refreshes[made + 1 := Refresh(made + 1, client, user, made, now + REFRESH_TTL, false)];
      chain := chain[made + 1 := root];
      pair := (made, made + 1);
      made := made + 2;
    }

    method ExchangeAuthorizationCode(id: Id, client: Client, now: Moment) returns (pair: Option<(Hash, Hash)>)
      requires id in requests
      modifies this
      ensures S() == ExchangeCode(old(S()), id, client, now)
      ensures pair.Some? <==> MayExchangeCode(old(S()), id, now)
    {
      var r := requests[id];
      if r.consumed || r.expires < now {
        return None;
      }
      if r.user.None? || r.user.value !in users {
        return None;
      }
      requests := requests[id := r.(consumed := true)];
      var p := MintPair(r.user.value, client, id, now);
      return Some(p);
    }

    method ExchangeRefreshToken(hash: Hash, client: Client, now: Moment) returns (pair: Option<(Hash, Hash)>)
      modifies this
      ensures S() == ExchangeRefresh(old(S()), hash, client, now)
      ensures pair.Some? <==> MayExchangeRefresh(old(S()), hash, client, now)
    {
      if hash !in refreshes || refreshes[hash].revoked || refreshes[hash].client != client || refreshes[hash].expires < now {
        return None;
      }
      var t := refreshes[hash];
      if t.user !in users || client !in clients {
        return None;
      }
      ghost var root := RootOf(S(), hash);
      refreshes := refreshes[hash := t.(revoked := true)];
      if t.access in accesses {
        accesses := accesses[t.access := accesses[t.access].(revoked := true)];
      }
      var p := MintPair(t.user, client, root, now);
      return Some(p);
    }

    method RevokeAccessByHash(hash: Hash) returns (found: bool)
      modifies this
      ensures found <==> hash in old(accesses)
      ensures S() == if found then RevokeAccess(old(S()), hash) else old(S())
    {
      if hash !in accesses {
        return false;
      }
      accesses := accesses[hash := accesses[hash].(revoked := true)];
      refreshes := map r | r in refreshes ::
        if refreshes[r].access == hash then refreshes[r].(revoked := true) else refreshes[r];
      return true;
    }

    method RevokeRefreshByHash(hash: Hash) returns (found: bool)
      modifies this
      ensures found <==> hash in old(refreshes)
      ensures S() == if found then RevokePair(old(S()), hash) else old(S())
    {
      if hash !in refreshes {
        return false;
      }
      var t := refreshes[hash];
      refreshes := refreshes[hash := t.(revoked := true)];
      if t.access in accesses {
        accesses := accesses[t.access := accesses[t.access].(revoked := true)];
      }
      return true;
    }

    method RevokeOAuthToken(hash: Hash, hintIsAccess: bool)
      modifies this
      ensures S() == Revoke(old(S()), hash, !hintIsAccess)
    {
      var done;
      if hintIsAccess {
        done := RevokeAccessByHash(hash);
        if !done {
          done := RevokeRefreshByHash(hash);
        }
      } else {
        done := RevokeRefreshByHash(hash);
        if !done {
          done := RevokeAccessByHash(hash);
        }
      }
    }
  }

  // ---------------------------------------------------------------- lineages

  ghost predicate Sound(s: State) {
    && (forall id :: id in s.requests || id in s.accesses || id in s.refreshes ==> id < s.made)
    && (forall id :: id in s.accesses ==> id !in s.refreshes && id !in s.requests && s.accesses[id].hash == id)
    && (forall r :: r in s.refreshes ==>
          && s.refreshes[r].hash == r && s.refreshes[r].access in s.accesses
          && s.refreshes[r].user == s.accesses[s.refreshes[r].access].user
          && r in s.chain && s.chain[r] in s.requests && s.requests[s.chain[r]].consumed
          && s.requests[s.chain[r]].user == Some(s.refreshes[r].user))
  }

  /** Access and refresh tokens pair off one to one. */
  ghost predicate Paired(s: State) {
    forall r, q :: r in s.refreshes && q in s.refreshes && s.refreshes[r].access == s.refreshes[q].access ==> r == q
  }

  /** The two tokens of a pair are revoked together. */
  ghost predicate Together(s: State) {
    forall r :: r in s.refreshes && s.refreshes[r].access in s.accesses ==>
                  s.refreshes[r].revoked == s.accesses[s.refreshes[r].access].revoked
  }

  /** At most one pair of a chain is live, and a chain keeps its client. */
  ghost predicate OneLive(s: State) {
    forall r, q :: r in s.refreshes && q in s.refreshes && r in s.chain && q in s.chain && s.chain[r] == s.chain[q] ==>
                     && s.refreshes[r].client == s.refreshes[q].client
                     && (!s.refreshes[r].revoked && !s.refreshes[q].revoked ==> r == q)
  }

  ghost predicate Inv(s: State) {
    Sound(s) && Paired(s) && Together(s) && OneLive(s)
  }

  lemma {:induction false} MintSound(s: State, user: User, client: Client, root: Id, now: Moment)
    requires Sound(s) && root in s.requests && s.requests[root].consumed && s.requests[root].user == Some(user)
    ensures Sound(Mint(s, user, client, root, now))
  {
  }

  lemma {:induction false} MintPaired(s: State, user: User, client: Client, root: Id, now: Moment)
    requires Sound(s) && Paired(s) && Together(s)
    ensures Paired(Mint(s, user, client, root, now)) && Together(Mint(s, user, client, root, now))
  {
    var s' := Mint(s, user, client, root, now);
    forall r | r in s'.refreshes && r != s.made + 1
      ensures r in s.refreshes && s'.refreshes[r] == s.refreshes[r] && s.refreshes[r].access < s.made
    {
    }
  }

  lemma {:induction false} MintOneLive(s: State, user: User, client: Client, root: Id, now: Moment)
    requires Sound(s) && OneLive(s)
    requires forall r :: r in s.refreshes && s.chain[r] == root ==> s.refreshes[r].revoked && s.refreshes[r].client == client
    ensures OneLive(Mint(s, user, client, root, now))
  {
    var s' := Mint(s, user, client, root, now);
    forall r | r in s'.refreshes && r != s.made + 1
      ensures r in s.refreshes && s'.refreshes[r] == s.refreshes[r] && s'.chain[r] == s.chain[r]
    {
    }
  }

  lemma {:induction false} MintInv(s: State, user: User, client: Client, root: Id, now: Moment)
    requires Inv(s) && root in s.requests && s.requests[root].consumed && s.requests[root].user == Some(user)
    requires forall r :: r in s.refreshes && s.chain[r] == root ==> s.refreshes[r].revoked && s.refreshes[r].client == client
    ensures Inv(Mint(s, user, client, root, now))
  {
    MintSound(s, user, client, root, now);
    MintPaired(s, user, client, root, now);
    MintOneLive(s, user, client, root, now);
  }

  lemma {:induction false} RevokePairInv(s: State, r: Id)
    requires Inv(s) && r in s.refreshes
    ensures Inv(RevokePair(s, r))
  {
    var s' := RevokePair(s, r);
    assert Sound(s');
    assert Paired(s');
    assert Together(s');
    assert OneLive(s');
  }

  lemma {:induction false} RevokeAccessInv(s: State, a: Id)
    requires Inv(s) && a in s.accesses
    ensures Inv(RevokeAccess(s, a))
  {
    var s' := RevokeAccess(s, a);
    assert Sound(s');
    assert Paired(s');
    assert Together(s');
    assert OneLive(s');
  }

  lemma {:induction false} ExchangeCodeInv(s: State, id: Id, client: Client, now: Moment)
    requires Inv(s) && MayExchangeCode(s, id, now)
    ensures Inv(ExchangeCode(s, id, client, now))
  {
    var s1 := s.(requests := s.requests[id := s.requests[id].(consumed := true)]);
    assert Inv(s1);
    forall r | r in s1.refreshes
      ensures s1.chain[r] != id
    {
      assert s.requests[s.chain[r]].consumed;
    }
    MintInv(s1, s.requests[id].user.value, client, id, now);
  }

  lemma {:induction false} ExchangeRefreshInv(s: State, r: Id, client: Client, now: Moment)
    requires Inv(s) && MayExchangeRefresh(s, r, client, now)
    ensures Inv(ExchangeRefresh(s, r, client, now))
  {
    RevokePairInv(s, r);
    var s1 := RevokePair(s, r);
    forall q | q in s1.refreshes && s1.chain[q] == s.chain[r]
      ensures s1.refreshes[q].revoked && s1.refreshes[q].client == client
    {
      assert q in s.refreshes && s.chain[q] == s.chain[r];
    }
    MintInv(s1, s.refreshes[r].user, client, s.chain[r], now);
  }

  lemma {:induction false} RequestsInv(s: State, op: Op)
    requires Inv(s) && (op.DoCreate? || op.DoApprove? || op.DoDeny?)
    ensures Inv(Apply(s, op))
  {
    var s' := Apply(s, op);
    assert Sound(s') by {
      assert forall r :: r in s.refreshes ==> s.chain[r] < s.made;
    }
  }

  lemma {:induction false} RevokeInv(s: State, hash: Hash, refreshFirst: bool)
    requires Inv(s)
    ensures Inv(Revoke(s, hash, refreshFirst))
  {
    if hash in s.refreshes {
      RevokePairInv(s, hash);
    }
    if hash in s.accesses {
      RevokeAccessInv(s, hash);
    }
  }

  lemma {:induction false} ApplyInv(s: State, op: Op)
    requires Inv(s)
    ensures Inv(Apply(s, op))
  {
    match op
    case DoCreate(_, _) => RequestsInv(s, op);
    case DoApprove(_, _, _) => RequestsInv(s, op);
    case DoDeny(_, _) => RequestsInv(s, op);
    case DoExchangeCode(id, client, now) =>
      if MayExchangeCode(s, id, now) {
        ExchangeCodeInv(s, id, client, now);
      }
    case DoExchangeRefresh(t, client, now) =>
      if MayExchangeRefresh(s, t, client, now) {
        ExchangeRefreshInv(s, t, client, now);
      }
    case DoRevoke(hash, refreshFirst) => RevokeInv(s, hash, refreshFirst);
  }

  function Start(users: set<User>, clients: set<Client>): State {
    State(users, clients, map[], map[], map[], 0, map[])
  }

  /** Over any sequence of calls: pairs are one to one, each is revoked as one, at most one pair of
      the chain a request started is live, and every pair in it has the request's user and the
      same client. */
  lemma {:induction false} LineageHolds(users: set<User>, clients: set<Client>, ops: seq<Op>)
    ensures Inv(Run(Start(users, clients), ops))
  {
    if ops != [] {
      LineageHolds(users, clients, ops[..|ops| - 1]);
      ApplyInv(Run(Start(users, clients), ops[..|ops| - 1]), ops[|ops| - 1]);
    }
  }

  /** How many times a request's code was exchanged for a first pair. */
  function Exchanges(s: State, ops: seq<Op>, id: Id): nat {
    if ops == [] then 0
    else
      var n := |ops| - 1;
      var op := ops[n];
      Exchanges(s, ops[..n], id)
      + if op.DoExchangeCode? && op.id == id && MayExchangeCode(Run(s, ops[..n]), id, op.now) then 1 else 0
  }

  /** A request that is decided against, or already redeemed, stays closed. */
  lemma {:induction false} ConsumedStays(s: State, op: Op, id: Id, now: Moment)
    requires Inv(s) && id in s.requests && s.requests[id].consumed
    ensures id in Apply(s, op).requests && Apply(s, op).requests[id].consumed
    ensures !MayExchangeCode(Apply(s, op), id, now) && !MayApprove(Apply(s, op), id, now)
  {
  }

  /** Each request starts at most one chain. */
  lemma {:induction false} OneChainPerRequest(users: set<User>, clients: set<Client>, ops: seq<Op>, id: Id)
    ensures Exchanges(Start(users, clients), ops, id) <= 1
    ensures var s := Run(Start(users, clients), ops);
            Exchanges(Start(users, clients), ops, id) == 1 ==> id in s.requests && s.requests[id].consumed
  {
    if ops != [] {
      var n := |ops| - 1;
      var s := Run(Start(users, clients), ops[..n]);
      OneChainPerRequest(users, clients, ops[..n], id);
      LineageHolds(users, clients, ops[..n]);
      if Exchanges(Start(users, clients), ops[..n], id) == 1 {
        ConsumedStays(s, ops[n], id, 0);
      }
    }
  }

  /** A denied request never leads to tokens, even one approved before. */
  lemma {:induction false} DeniedNeverRedeemed(s: State, id: Id, denied: Moment, ops: seq<Op>, now: Moment)
    requires Inv(s) && Open(s, id, denied)
    ensures Inv(Run(Deny(s, id, denied), ops))
    ensures id in Run(Deny(s, id, denied), ops).requests && Run(Deny(s, id, denied), ops).requests[id].consumed
    ensures !MayExchangeCode(Run(Deny(s, id, denied), ops), id, now)
  {
    var s0 := Deny(s, id, denied);
    ApplyInv(s, DoDeny(id, denied));
    if ops != [] {
      var before := Run(s0, ops[..|ops| - 1]);
      DeniedNeverRedeemed(s, id, denied, ops[..|ops| - 1], now);
      ApplyInv(before, ops[|ops| - 1]);
      ConsumedStays(before, ops[|ops| - 1], id, now);
    }
  }

  /** Which kind of token is tried first makes no difference: revoking either of a pair revokes
      both, and an unknown token changes nothing. */
  lemma {:induction false} HintDoesNotMatter(s: State, hash: Hash)
    requires Inv(s)
    ensures Revoke(s, hash, true) == Revoke(s, hash, false)
    ensures hash in s.refreshes ==> Revoke(s, hash, true) == RevokeAccess(s, s.refreshes[hash].access)
    ensures hash !in s.refreshes && hash !in s.accesses ==> Revoke(s, hash, true) == s
  {
    if hash in s.refreshes {
      var a := s.refreshes[hash].access;
      assert RevokePair(s, hash).refreshes == RevokeAccess(s, a).refreshes;
    }
  }

  // ---------------------------------------------------------------- where a request and a token come from

  /** A request keeps its client over any calls, and its user, code and expiry once it is approved. */
  lemma {:induction false} ApprovedStays(s: State, ops: seq<Op>, id: Id)
    requires Inv(s) && id in s.requests
    ensures Inv(Run(s, ops)) && id in Run(s, ops).requests
    ensures var r, r' := s.requests[id], Run(s, ops).requests[id];
            && r'.client == r.client && (r.consumed ==> r'.consumed)
            && (r.user.Some? ==> r'.user == r.user && r'.code == r.code && r'.expires == r.expires)
  {
    if ops != [] {
      var n := |ops| - 1;
      var before := Run(s, ops[..n]);
      ApprovedStays(s, ops[..n], id);
      ApplyInv(before, ops[n]);
      RequestLasts(before, ops[n], id);
      RequestStep(before, ops[n], id);
    }
  }

  lemma {:induction false} RequestLasts(s: State, op: Op, id: Id)
    requires id in s.requests
    ensures id in Apply(s, op).requests
  {
  }

  /** What one call does to one request's columns. */
  lemma {:induction false} RequestStep(s: State, op: Op, id: Id)
    requires Inv(s) && id in Apply(s, op).requests
    ensures var r' := Apply(s, op).requests[id];
            if id !in s.requests then
              op.DoCreate? && id == s.made && r' == Request(op.client, None, None, op.now + 600, false)
            else
              var r := s.requests[id];
              && r'.client == r.client && (r.consumed ==> r'.consumed)
              && ((r'.user == r.user && r'.code == r.code && r'.expires == r.expires)
                  || (&& op.DoApprove? && op.id == id && r.user.None? && op.now <= r.expires
                      && r'.user == Some(op.user) && r'.code == Some(s.made) && r'.expires == op.now + 120))
  {
  }

  /** The same tokens, with the same clients and expiries. */
  ghost predicate SameTokens(s: State, s': State) {
    && s'.made == s.made && s'.refreshes.Keys == s.refreshes.Keys && s'.accesses.Keys == s.accesses.Keys
    && (forall r :: r in s.refreshes ==>
          && s'.refreshes[r].client == s.refreshes[r].client && s'.refreshes[r].expires == s.refreshes[r].expires
          && s'.refreshes[r].access == s.refreshes[r].access)
    && (forall a :: a in s.accesses ==> s'.accesses[a].expires == s.accesses[a].expires)
  }

  lemma {:induction false} RevokingKeeps(s: State, id: Id)
    ensures id in s.refreshes ==> SameTokens(s, RevokePair(s, id))
    ensures id in s.accesses ==> SameTokens(s, RevokeAccess(s, id))
  {
  }

  /** A pair's columns when all that was minted since s is one pair for a client. */
  ghost predicate PairReads(s: State, s': State, r: Id, client: Client, now: Moment)
    requires r in s'.refreshes
  {
    var t := s'.refreshes[r];
    && t.access in s'.accesses
    && if r in s.refreshes then
         && t.client == s.refreshes[r].client && t.expires == s.refreshes[r].expires && t.access == s.refreshes[r].access
         && t.access in s.accesses && s'.accesses[t.access].expires == s.accesses[t.access].expires
       else
         && r == s.made + 1 && t.client == client && t.expires == now + 7_776_000
         && s'.accesses[t.access].expires == now + 3_600
  }

  lemma {:induction false} MintReads(s: State, s1: State, user: User, client: Client, root: Id, now: Moment, r: Id)
    requires Sound(s) && SameTokens(s, s1) && r in Mint(s1, user, client, root, now).refreshes
    ensures PairReads(s, Mint(s1, user, client, root, now), r, client, now)
  {
  }

  /** What one call does to one pair's columns. */
  lemma {:induction false} RefreshStep(s: State, op: Op, r: Id)
    requires Inv(s) && r in Apply(s, op).refreshes
    ensures var s' := Apply(s, op); var t := s'.refreshes[r];
            && t.access in s'.accesses
            && if r in s.refreshes then
                 && t.client == s.refreshes[r].client && t.expires == s.refreshes[r].expires && t.access == s.refreshes[r].access
                 && t.access in s.accesses && s'.accesses[t.access].expires == s.accesses[t.access].expires
               else
                 && (op.DoExchangeCode? || op.DoExchangeRefresh?) && r == s.made + 1
                 && t.client == op.client && t.expires == op.now + 7_776_000
                 && s'.accesses[t.access].expires == op.now + 3_600
  {
    match op
    case DoExchangeCode(id, client, now) =>
      if MayExchangeCode(s, id, now) {
        var s1 := s.(requests := s.requests[id := s.requests[id].(consumed := true)]);
        MintReads(s, s1, s.requests[id].user.value, client, id, now, r);
      }
    case DoExchangeRefresh(t, client, now) =>
      if MayExchangeRefresh(s, t, client, now) {
        RevokingKeeps(s, t);
        MintReads(s, RevokePair(s, t), s.refreshes[t].user, client, RootOf(s, t), now, r);
      }
    case DoRevoke(hash, _) => RevokingKeeps(s, hash);
    case _ =>
  }

  /** A request no one has approved was asked for by its client 600 seconds before its expiry. */
  lemma {:induction false} Requested(users: set<User>, clients: set<Client>, ops: seq<Op>, id: Id) returns (j: nat)
    requires id in Run(Start(users, clients), ops).requests && Run(Start(users, clients), ops).requests[id].user.None?
    ensures j < |ops| && ops[j].DoCreate? && Run(Start(users, clients), ops[..j]).made == id
    ensures var r := Run(Start(users, clients), ops).requests[id]; r.client == ops[j].client && r.expires == ops[j].now + 600
  {
    var n := |ops| - 1;
    var s := Run(Start(users, clients), ops[..n]);
    LineageHolds(users, clients, ops[..n]);
    RequestStep(s, ops[n], id);
    if id in s.requests {
      j := Requested(users, clients, ops[..n], id);
      assert ops[..n][..j] == ops[..j];
    } else {
      j := n;
    }
  }

  /** An approved request was asked for, and approved within 600 seconds by the user it carries; its
      code is the one made then, good for 120 seconds. */
  lemma {:induction false} Approved(users: set<User>, clients: set<Client>, ops: seq<Op>, id: Id) returns (j: nat, k: nat)
    requires id in Run(Start(users, clients), ops).requests && Run(Start(users, clients), ops).requests[id].user.Some?
    ensures j < k < |ops| && ops[j].DoCreate? && Run(Start(users, clients), ops[..j]).made == id
    ensures var r := Run(Start(users, clients), ops).requests[id];
            && r.client == ops[j].client
            && ops[k].DoApprove? && ops[k].id == id && ops[k].user == r.user.value && ops[k].now <= ops[j].now + 600
            && r.code == Some(Run(Start(users, clients), ops[..k]).made) && r.expires == ops[k].now + 120
  {
    var n := |ops| - 1;
    var s := Run(Start(users, clients), ops[..n]);
    LineageHolds(users, clients, ops[..n]);
    RequestStep(s, ops[n], id);
    if s.requests[id].user.Some? {
      j, k := Approved(users, clients, ops[..n], id);
      assert ops[..n][..j] == ops[..j] && ops[..n][..k] == ops[..k];
    } else {
      j := Requested(users, clients, ops[..n], id);
      k := n;
      assert ops[..n][..j] == ops[..j];
    }
  }

  /** The n-th call mints a pair: its refresh token is new. */
  ghost predicate Mints(s0: State, ops: seq<Op>, n: nat) {
    n < |ops| && Run(s0, ops[..n + 1]).refreshes.Keys != Run(s0, ops[..n]).refreshes.Keys
  }

  /** Whatever code is redeemed, in any sequence of calls: the request was asked for at most 600
      seconds before a user approved it, and redeemed at most 120 seconds after; it had not been
      decided against, and the pair it gives is that user's, good for an hour and for 90 days. */
  lemma {:induction false} RedeemedInTime(users: set<User>, clients: set<Client>, ops: seq<Op>, n: nat) returns (j: nat, k: nat)
    requires Mints(Start(users, clients), ops, n) && ops[n].DoExchangeCode?
    ensures j < k < n && ops[j].DoCreate? && ops[k].DoApprove? && ops[k].id == ops[n].id
    ensures Run(Start(users, clients), ops[..j]).made == ops[n].id
    ensures ops[k].now <= ops[j].now + 600 && ops[n].now <= ops[k].now + 120
    ensures var s, s' := Run(Start(users, clients), ops[..n]), Run(Start(users, clients), ops[..n + 1]);
            && ops[k].user in users
            && ops[n].id in s.requests && !s.requests[ops[n].id].consumed
            && ops[n].id in s'.requests && s'.requests[ops[n].id].consumed
            && s'.accesses == s.accesses[s.made := Access(ops[k].user, s.made, ops[n].now + 3_600, false)]
            && s'.refreshes == s.refreshes[s.made + 1 :=
                 Refresh(s.made + 1, ops[n].client, ops[k].user, s.made, ops[n].now + 7_776_000, false)]
  {
    var s := Run(Start(users, clients), ops[..n]);
    assert ops[..n + 1][..n] == ops[..n];
    UsersStay(users, clients, ops[..n]);
    assert MayExchangeCode(s, ops[n].id, ops[n].now);
    j, k := Approved(users, clients, ops[..n], ops[n].id);
    assert ops[..n][..j] == ops[..j];
  }

  lemma {:induction false} UsersStay(users: set<User>, clients: set<Client>, ops: seq<Op>)
    ensures Run(Start(users, clients), ops).users == users && Run(Start(users, clients), ops).clients == clients
  {
    if ops != [] {
      UsersStay(users, clients, ops[..|ops| - 1]);
    }
  }

  /** Every refresh token was minted by one exchange, for the client of that call, good for 90 days
      from it, with an access token good for an hour. */
  lemma {:induction false} Minted(users: set<User>, clients: set<Client>, ops: seq<Op>, r: Id) returns (n: nat)
    requires r in Run(Start(users, clients), ops).refreshes
    ensures n < |ops| && (ops[n].DoExchangeCode? || ops[n].DoExchangeRefresh?)
    ensures var s := Run(Start(users, clients), ops);
            && r == Run(Start(users, clients), ops[..n]).made + 1
            && s.refreshes[r].client == ops[n].client && s.refreshes[r].expires == ops[n].now + 7_776_000
            && s.refreshes[r].access in s.accesses && s.accesses[s.refreshes[r].access].expires == ops[n].now + 3_600
  {
    var m := |ops| - 1;
    var s := Run(Start(users, clients), ops[..m]);
    LineageHolds(users, clients, ops[..m]);
    RefreshStep(s, ops[m], r);
    if r in s.refreshes {
      n := Minted(users, clients, ops[..m], r);
      assert ops[..m][..n] == ops[..n];
    } else {
      n := m;
    }
  }

  /** Whatever is refreshed: a token not revoked until then, presented by its own client at most 90
      days after it was minted; the old pair is revoked, and the new one is the same user's. */
  lemma {:induction false} RefreshedInTime(users: set<User>, clients: set<Client>, ops: seq<Op>, n: nat) returns (k: nat)
    requires Mints(Start(users, clients), ops, n) && ops[n].DoExchangeRefresh?
    ensures k < n && (ops[k].DoExchangeCode? || ops[k].DoExchangeRefresh?)
    ensures Run(Start(users, clients), ops[..k]).made + 1 == ops[n].token
    ensures ops[k].client == ops[n].client && ops[n].now <= ops[k].now + 7_776_000
    ensures Run(Start(users, clients), ops[..n]).users == users && ops[n].client in clients
    ensures Refreshed(Run(Start(users, clients), ops[..n]), Run(Start(users, clients), ops[..n + 1]),
                      ops[n].token, ops[n].client, ops[n].now)
  {
    var s := Run(Start(users, clients), ops[..n]);
    assert ops[..n + 1][..n] == ops[..n];
    UsersStay(users, clients, ops[..n]);
    LineageHolds(users, clients, ops[..n]);
    assert MayExchangeRefresh(s, ops[n].token, ops[n].client, ops[n].now);
    k := Minted(users, clients, ops[..n], ops[n].token);
    assert ops[..n][..k] == ops[..k];
    RefreshedReads(s, ops[n].token, ops[n].client, ops[n].now);
  }

  /** A pair that was good is revoked, and a new one of the same user's, for the same client, is there. */
  ghost predicate Refreshed(s: State, s': State, t: Id, client: Client, now: Moment) {
    && t in s.refreshes && !s.refreshes[t].revoked && s.refreshes[t].client == client && s.refreshes[t].user in s.users
    && t in s'.refreshes && s'.refreshes[t].revoked
    && s.refreshes[t].access in s'.accesses && s'.accesses[s.refreshes[t].access].revoked
    && s.made + 1 in s'.refreshes && s'.refreshes[s.made + 1] ==
         Refresh(s.made + 1, client, s.refreshes[t].user, s.made, now + 7_776_000, false)
    && s.made in s'.accesses && s'.accesses[s.made] == Access(s.refreshes[t].user, s.made, now + 3_600, false)
  }

  lemma {:induction false} RefreshedReads(s: State, t: Id, client: Client, now: Moment)
    requires Inv(s) && MayExchangeRefresh(s, t, client, now)
    ensures Refreshed(s, ExchangeRefresh(s, t, client, now), t, client, now)
  {
  }
}
