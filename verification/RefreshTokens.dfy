/** Refresh-token rotation: what login, refresh, logout, password change and expiry do to the token table. */
module RefreshTokens {
  import opened Wrappers

  const TTL := 7 * 24 * 60 * 60 * 1000

  /** A stored token; it is presented by its hash, which names it as uniquely as its id does. */
  datatype Token = Token(user: Id, family: Id, expiresAt: nat, revoked: bool, replacedBy: Option<Id>)

  type Tokens = map<Id, Token>

  /** Ids below `nextId` and families below `nextFamily` have been handed out. */
  datatype Store = Store(tokens: Tokens, nextId: Id, nextFamily: Id, now: nat)

  datatype Call =
    | Login(user: Id)
    | Refresh(presented: Id, userMayLogIn: bool)
    | Logout(presented: Id)
    | ChangePassword(user: Id)
    | DeleteExpired
    | Tick(ms: nat)

  predicate Expired(t: Token, now: nat) { t.expiresAt <= now }

  function Issue(user: Id, family: Id, now: nat): Token
  {
    Token(user, family, now + TTL, false, None)
  }

  function RevokeFamily(tokens: Tokens, family: Id): Tokens
  {
    map id | id in tokens ::
      if tokens[id].family == family then tokens[id].(revoked := true) else tokens[id]
  }

  function RevokeAllForUser(tokens: Tokens, user: Id): Tokens
  {
    map id | id in tokens ::
      if tokens[id].user == user then tokens[id].(revoked := true) else tokens[id]
  }

  function WithoutExpired(tokens: Tokens, now: nat): Tokens
  {
    map id | id in tokens && tokens[id].expiresAt >= now :: tokens[id]
  }

  /** The presented token is exchanged for a new one. */
  predicate Exchanged(s: Store, call: Call)
  {
    call.Refresh? && call.presented in s.tokens && call.userMayLogIn &&
    !s.tokens[call.presented].revoked && !Expired(s.tokens[call.presented], s.now)
  }

  function Rotate(s: Store, t: Id): Store
    requires t in s.tokens
  {
    var spent := s.tokens[t].(revoked := true, replacedBy := Some(s.nextId));
    var issued := Issue(s.tokens[t].user, s.tokens[t].family, s.now);
    s.(tokens := s.tokens[t := spent][s.nextId := issued], nextId := s.nextId + 1)
  }

  function Step(s: Store, call: Call): Store
  {
    match call
    case Login(user) =>
      s.(tokens := s.tokens[s.nextId := Issue(user, s.nextFamily, s.now)],
         nextId := s.nextId + 1, nextFamily := s.nextFamily + 1)
    case Refresh(t, _) =>
      if t !in s.tokens then s
      else if s.tokens[t].revoked then s.(tokens := RevokeFamily(s.tokens, s.tokens[t].family))
      else if Exchanged(s, call) then Rotate(s, t)
      else s
    case Logout(t) =>
      if t in s.tokens && !s.tokens[t].revoked
      then s.(tokens := RevokeFamily(s.tokens, s.tokens[t].family)) else s
    case ChangePassword(user) => s.(tokens := RevokeAllForUser(s.tokens, user))
    case DeleteExpired => s.(tokens := WithoutExpired(s.tokens, s.now))
    case Tick(ms) => s.(now := s.now + ms)
  }

  function Run(s: Store, calls: seq<Call>): Store
    decreases |calls|
  {
    if calls == [] then s else Run(Step(s, calls[0]), calls[1..])
  }

  predicate Initial(s: Store) { s.tokens == map[] }

  // ---- the invariant

  predicate Kin(tokens: Tokens, a: Id, b: Id)
  {
    a in tokens && b in tokens && tokens[a].family == tokens[b].family
  }

  /** An unreplaced token is its family's latest; a replaced one is revoked and linked to the next. */
  ghost predicate Linked(tokens: Tokens, t: Id)
    requires t in tokens
  {
    match tokens[t].replacedBy
    case None => forall u: Id | Kin(tokens, t, u) :: u <= t
    case Some(n) =>
      tokens[t].revoked && t < n && Kin(tokens, t, n) &&
      forall u: Id | Kin(tokens, t, u) :: u <= t || n <= u
  }

  ghost predicate Bounded(s: Store)
  {
    forall t | t in s.tokens ::
      t < s.nextId && s.tokens[t].family < s.nextFamily && s.tokens[t].expiresAt <= s.now + TTL
  }

  ghost predicate ExpireInOrder(tokens: Tokens)
  {
    forall a, b | a in tokens && b in tokens && a < b :: tokens[a].expiresAt <= tokens[b].expiresAt
  }

  ghost predicate OneOwner(tokens: Tokens)
  {
    forall a: Id, b: Id | Kin(tokens, a, b) :: tokens[a].user == tokens[b].user
  }

  ghost predicate AllLinked(tokens: Tokens)
  {
    forall t | t in tokens :: Linked(tokens, t)
  }

  ghost predicate Inv(s: Store)
  {
    Bounded(s) && ExpireInOrder(s.tokens) && OneOwner(s.tokens) && AllLinked(s.tokens)
  }

  /** `after` is `before` with some tokens revoked. */
  ghost predicate OnlyRevoked(before: Tokens, after: Tokens)
  {
    before.Keys == after.Keys &&
    forall t | t in before :: after[t] == before[t] || after[t] == before[t].(revoked := true)
  }

  lemma RevokingKeepsInv(s: Store, after: Tokens)
    requires Inv(s) && OnlyRevoked(s.tokens, after)
    ensures Inv(s.(tokens := after))
  {
    forall a: Id, b: Id
      ensures Kin(after, a, b) <==> Kin(s.tokens, a, b)
    {
    }
    forall t | t in after
      ensures Linked(after, t)
    {
      assert Linked(s.tokens, t);
      assert after[t].replacedBy == s.tokens[t].replacedBy;
    }
  }

  lemma DeletingKeepsInv(s: Store)
    requires Inv(s)
    ensures Inv(s.(tokens := WithoutExpired(s.tokens, s.now)))
  {
    var after := WithoutExpired(s.tokens, s.now);
    forall a: Id, b: Id | Kin(after, a, b)
      ensures Kin(s.tokens, a, b)
    {
    }
    forall t | t in after
      ensures Linked(after, t)
    {
      assert Linked(s.tokens, t);
      if s.tokens[t].replacedBy.Some? {
        var n := s.tokens[t].replacedBy.value;
        assert s.tokens[t].expiresAt <= s.tokens[n].expiresAt;
      }
    }
  }

  lemma LoginKeepsInv(s: Store, user: Id)
    requires Inv(s)
    ensures Inv(Step(s, Login(user)))
  {
    var after := Step(s, Login(user)).tokens;
    forall t: Id, u: Id | Kin(after, t, u)
      ensures t == u == s.nextId || Kin(s.tokens, t, u)
    {
    }
    forall t | t in after
      ensures Linked(after, t)
    {
      if t != s.nextId { assert Linked(s.tokens, t); }
    }
  }

  lemma RotateKeepsLinks(s: Store, t: Id, u: Id)
    requires Inv(s) && t in s.tokens && !s.tokens[t].revoked && u in Rotate(s, t).tokens
    ensures Linked(Rotate(s, t).tokens, u)
  {
    var after := Rotate(s, t).tokens;
    assert Linked(s.tokens, t);
    forall a: Id, b: Id | Kin(after, a, b)
      ensures a == s.nextId || b == s.nextId || Kin(s.tokens, a, b)
      ensures a == s.nextId ==> b == s.nextId || Kin(s.tokens, t, b)
    {
    }
    if u != s.nextId && u != t {
      assert Linked(s.tokens, u);
      assert Kin(s.tokens, u, t) ==> Kin(s.tokens, t, u);
    }
  }

  lemma RotateKeepsInv(s: Store, t: Id)
    requires Inv(s) && t in s.tokens && !s.tokens[t].revoked
    ensures Inv(Rotate(s, t))
  {
    forall u: Id | u in Rotate(s, t).tokens
      ensures Linked(Rotate(s, t).tokens, u)
    {
      RotateKeepsLinks(s, t, u);
    }
    var after := Rotate(s, t).tokens;
    forall a: Id, b: Id | Kin(after, a, b)
      ensures after[a].user == after[b].user
    {
      assert Kin(s.tokens, if a == s.nextId then t else a, if b == s.nextId then t else b);
    }
  }

  lemma StepKeepsInv(s: Store, call: Call)
    requires Inv(s)
    ensures Inv(Step(s, call))
  {
    match call
    case Login(user) => LoginKeepsInv(s, user);
    case Refresh(t, _) =>
      if t in s.tokens && s.tokens[t].revoked {
        RevokingKeepsInv(s, RevokeFamily(s.tokens, s.tokens[t].family));
      } else if Exchanged(s, call) {
        RotateKeepsInv(s, t);
      }
    case Logout(t) =>
      if t in s.tokens { RevokingKeepsInv(s, RevokeFamily(s.tokens, s.tokens[t].family)); }
    case ChangePassword(user) => RevokingKeepsInv(s, RevokeAllForUser(s.tokens, user));
    case DeleteExpired => DeletingKeepsInv(s);
    case Tick(_) =>
  }

  lemma {:induction false} RunKeepsInv(s: Store, calls: seq<Call>)
    requires Inv(s)
    ensures Inv(Run(s, calls))
    decreases |calls|
  {
    if calls != [] {
      StepKeepsInv(s, calls[0]);
      RunKeepsInv(Step(s, calls[0]), calls[1..]);
    }
  }

  // ---- the shape of a family

  predicate Active(tokens: Tokens, t: Id) { t in tokens && !tokens[t].revoked }

  lemma {:induction false} AtMostOneActive(start: Store, calls: seq<Call>, a: Id, b: Id)
    requires Initial(start)
    requires var tokens := Run(start, calls).tokens;
             Kin(tokens, a, b) && Active(tokens, a) && Active(tokens, b)
    ensures a == b
  {
    RunKeepsInv(start, calls);
    var tokens := Run(start, calls).tokens;
    assert Linked(tokens, a) && Linked(tokens, b) && Kin(tokens, b, a);
  }

  /** The tokens reached from `t` by following replacement links. */
  ghost function Chain(s: Store, t: Id): (c: seq<Id>)
    requires Inv(s) && t in s.tokens
    ensures c != [] && c[0] == t
    decreases s.nextId - t
  {
    assert Linked(s.tokens, t);
    match s.tokens[t].replacedBy
    case None => [t]
    case Some(n) => [t] + Chain(s, n)
  }

  /** A chain ascends, so it has no cycle, and it holds every later token of the family. */
  lemma {:induction false} ChainIsFamilyTail(s: Store, t: Id)
    requires Inv(s) && t in s.tokens
    ensures forall u: Id :: u in Chain(s, t) <==> Kin(s.tokens, t, u) && t <= u
    ensures forall i, j :: 0 <= i < j < |Chain(s, t)| ==> Chain(s, t)[i] < Chain(s, t)[j]
    ensures var last := Chain(s, t)[|Chain(s, t)| - 1];
            last in s.tokens && s.tokens[last].replacedBy == None
    decreases s.nextId - t
  {
    assert Linked(s.tokens, t);
    match s.tokens[t].replacedBy
    case None =>
    case Some(n) =>
      ChainIsFamilyTail(s, n);
      var rest := Chain(s, n);
      assert Chain(s, t) == [t] + rest;
      forall i | 0 <= i < |rest| ensures t < rest[i] { assert rest[i] in rest; }
  }

  /** From any stored token the links lead, without cycle, through every later token of its family to
      the family's active token when it has one. */
  lemma {:induction false} FamilyIsOneChain(start: Store, calls: seq<Call>, t: Id)
    requires Initial(start) && t in Run(start, calls).tokens
    ensures var s := Run(start, calls);
            Inv(s) &&
            (forall u: Id :: u in Chain(s, t) <==> Kin(s.tokens, t, u) && t <= u) &&
            (forall i, j :: 0 <= i < j < |Chain(s, t)| ==> Chain(s, t)[i] < Chain(s, t)[j]) &&
            (forall u: Id | Kin(s.tokens, t, u) && Active(s.tokens, u) :: Chain(s, t)[|Chain(s, t)| - 1] == u)
  {
    RunKeepsInv(start, calls);
    var s := Run(start, calls);
    ChainIsFamilyTail(s, t);
    var last := Chain(s, t)[|Chain(s, t)| - 1];
    assert last in Chain(s, t);
    assert Linked(s.tokens, last);
    forall u: Id | Kin(s.tokens, t, u) && Active(s.tokens, u)
      ensures last == u
    {
      assert Linked(s.tokens, u);
      assert Kin(s.tokens, u, last) && Kin(s.tokens, last, u);
    }
  }

  /** No token replaces two others. */
  lemma {:induction false} LinksDoNotBranch(start: Store, calls: seq<Call>, a: Id, b: Id)
    requires Initial(start)
    requires var tokens := Run(start, calls).tokens;
             a in tokens && b in tokens &&
             tokens[a].replacedBy == tokens[b].replacedBy != None
    ensures a == b
  {
    RunKeepsInv(start, calls);
    var tokens := Run(start, calls).tokens;
    assert Linked(tokens, a) && Linked(tokens, b);
    assert Kin(tokens, a, b) && Kin(tokens, b, a);
  }

  // ---- what ends a family, and a token's single use

  predicate Dead(s: Store, family: Id)
  {
    family < s.nextFamily && forall t | t in s.tokens :: s.tokens[t].family == family ==> s.tokens[t].revoked
  }

  lemma {:induction false} DeadStaysDead(s: Store, calls: seq<Call>, family: Id)
    requires Dead(s, family)
    ensures Dead(Run(s, calls), family)
    decreases |calls|
  {
    if calls != [] { DeadStaysDead(Step(s, calls[0]), calls[1..], family); }
  }

  /** Presenting a revoked token, logging out, or changing the password ends the family of `t`. */
  predicate Ends(s: Store, call: Call, t: Id)
    requires t in s.tokens
  {
    match call
    case Refresh(p, _) => Kin(s.tokens, p, t) && s.tokens[p].revoked
    case Logout(p) => Kin(s.tokens, p, t) && !s.tokens[p].revoked
    case ChangePassword(user) => s.tokens[t].user == user
    case _ => false
  }

  /** After that, nothing anyone does gets a token of the family exchanged again. */
  lemma {:induction false} EndedFamilyNeverExchanges(start: Store, calls: seq<Call>, end: Call, later: seq<Call>,
      t: Id, next: Call)
    requires Initial(start) && t in Run(start, calls).tokens && Ends(Run(start, calls), end, t)
    requires var s := Run(Step(Run(start, calls), end), later);
             next.Refresh? && next.presented in s.tokens &&
             s.tokens[next.presented].family == Run(start, calls).tokens[t].family
    ensures !Exchanged(Run(Step(Run(start, calls), end), later), next)
  {
    var s := Run(start, calls);
    RunKeepsInv(start, calls);
    var family := s.tokens[t].family;
    forall u: Id | u in s.tokens && s.tokens[u].family == family
      ensures s.tokens[u].user == s.tokens[t].user
    {
      assert Kin(s.tokens, u, t);
    }
    assert Dead(Step(s, end), family);
    DeadStaysDead(Step(s, end), later, family);
  }

  predicate Spent(s: Store, t: Id)
  {
    t < s.nextId && (t in s.tokens ==> s.tokens[t].revoked)
  }

  function Exchanges(s: Store, calls: seq<Call>, t: Id): nat
    decreases |calls|
  {
    if calls == [] then 0
    else (if Exchanged(s, calls[0]) && calls[0].presented == t then 1 else 0) +
         Exchanges(Step(s, calls[0]), calls[1..], t)
  }

  lemma {:induction false} SpentNeverExchanges(s: Store, calls: seq<Call>, t: Id)
    requires Spent(s, t)
    ensures Exchanges(s, calls, t) == 0
    decreases |calls|
  {
    if calls != [] { SpentNeverExchanges(Step(s, calls[0]), calls[1..], t); }
  }

  lemma {:induction false} ExchangedOnceFrom(s: Store, calls: seq<Call>, t: Id)
    requires Inv(s)
    ensures Exchanges(s, calls, t) <= 1
    decreases |calls|
  {
    if calls != [] {
      StepKeepsInv(s, calls[0]);
      if Exchanged(s, calls[0]) && calls[0].presented == t {
        SpentNeverExchanges(Step(s, calls[0]), calls[1..], t);
      } else {
        ExchangedOnceFrom(Step(s, calls[0]), calls[1..], t);
      }
    }
  }

  /** A token is good for one exchange in the whole life of the system. */
  lemma {:induction false} ExchangedAtMostOnce(start: Store, calls: seq<Call>, t: Id)
    requires Initial(start)
    ensures Exchanges(start, calls, t) <= 1
  {
    ExchangedOnceFrom(start, calls, t);
  }

  // ---- exactly when a token is exchanged

  /** A call after which token `t` is no longer good: it is exchanged, or its family is ended. */
  predicate Spoils(s: Store, call: Call, t: Id)
  {
    call == Refresh(t, true) || (t in s.tokens && Ends(s, call, t))
  }

  predicate Unspoilt(s: Store, calls: seq<Call>, t: Id)
    decreases |calls|
  {
    calls == [] || (!Spoils(s, calls[0], t) && Unspoilt(Step(s, calls[0]), calls[1..], t))
  }

  lemma {:induction false} TimePasses(s: Store, calls: seq<Call>)
    ensures s.now <= Run(s, calls).now
    decreases |calls|
  {
    if calls != [] { TimePasses(Step(s, calls[0]), calls[1..]); }
  }

  /** Past its expiry, or spent, a token is never good again. */
  lemma {:induction false} BadStaysBad(s: Store, calls: seq<Call>, t: Id, ok: bool)
    requires t < s.nextId && (t in s.tokens ==> s.tokens[t].revoked || Expired(s.tokens[t], s.now))
    ensures !Exchanged(Run(s, calls), Refresh(t, ok))
    decreases |calls|
  {
    if calls != [] { BadStaysBad(Step(s, calls[0]), calls[1..], t, ok); }
  }

  /** An active token stays as it is until a call spoils it or deletes it after its expiry. */
  lemma OneCallOn(s: Store, call: Call, t: Id)
    requires Inv(s) && Active(s.tokens, t)
    ensures var after := Step(s, call).tokens;
            t < s.nextId <= Step(s, call).nextId
            && (Spoils(s, call, t) ==> (t in after ==> after[t].revoked || Expired(s.tokens[t], s.now)))
            && (!Spoils(s, call, t) ==>
                  if t in after then after[t] == s.tokens[t] else s.tokens[t].expiresAt < s.now)
  {
    assert Kin(s.tokens, t, t);
    match call
    case Refresh(p, _) =>
      if p in s.tokens { assert Kin(s.tokens, p, t) <==> s.tokens[p].family == s.tokens[t].family; }
      if p in s.tokens && p != t && !s.tokens[p].revoked && Kin(s.tokens, p, t) {
        assert Linked(s.tokens, p) && Linked(s.tokens, t) && Kin(s.tokens, t, p);
      }
    case Logout(p) =>
      if p in s.tokens { assert Kin(s.tokens, p, t) <==> s.tokens[p].family == s.tokens[t].family; }
    case _ =>
  }

  lemma {:induction false} ExchangedIffFrom(s: Store, calls: seq<Call>, t: Id, ok: bool)
    requires Inv(s) && Active(s.tokens, t)
    ensures Exchanged(Run(s, calls), Refresh(t, ok))
        <==> ok && Run(s, calls).now < s.tokens[t].expiresAt && Unspoilt(s, calls, t)
    decreases |calls|
  {
    if calls != [] {
      var s', rest := Step(s, calls[0]), calls[1..];
      OneCallOn(s, calls[0], t);
      StepKeepsInv(s, calls[0]);
      TimePasses(s', rest);
      if !Spoils(s, calls[0], t) && t in s'.tokens {
        ExchangedIffFrom(s', rest, t, ok);
      } else {
        BadStaysBad(s', rest, t, ok);
      }
    }
  }

  /** Whatever happens, a token handed out by a login or an exchange is exchanged when presented exactly
      if the user may log in, seven days are not over, and since then it was not exchanged, no revoked
      token of its family was presented, nobody logged out with it and the password was not changed. */
  lemma {:induction false} ExchangedIff(start: Store, calls: seq<Call>, issue: Call, later: seq<Call>, ok: bool)
    requires Initial(start) && (issue.Login? || Exchanged(Run(start, calls), issue))
    ensures var s := Run(start, calls);
            var issued := Step(s, issue);
            (Exchanged(Run(issued, later), Refresh(s.nextId, ok))
             <==> ok && Run(issued, later).now < s.now + 604800000 && Unspoilt(issued, later, s.nextId))
  {
    var s := Run(start, calls);
    RunKeepsInv(start, calls);
    StepKeepsInv(s, issue);
    ExchangedIffFrom(Step(s, issue), later, s.nextId, ok);
  }

  // ---- without atomic handlers

  /** Two refreshes that both read the token before either writes leave two active tokens in its family. */
  lemma OverlappingRefreshesFork(s: Store, t: Id)
    requires Inv(s) && Exchanged(s, Refresh(t, true))
    ensures var first := Rotate(s, t);
            var second := Rotate(s.(tokens := first.tokens, nextId := first.nextId), t).tokens;
            exists a: Id, b: Id :: a != b && Kin(second, a, b) && Active(second, a) && Active(second, b)
  {
    var first := Rotate(s, t);
    var second := Rotate(s.(tokens := first.tokens, nextId := first.nextId), t).tokens;
    assert Kin(second, s.nextId, s.nextId + 1);
  }
}
