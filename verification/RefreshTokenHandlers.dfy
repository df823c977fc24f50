/** The refresh-token entity, its repository and the handlers that use them, each handler run on its own. */
module RefreshTokenHandlers {
  import opened Wrappers
  import opened RefreshTokens

  class RefreshToken {
    const id: Id
    const user: Id
    const family: Id
    const expiresAt: nat
    var revoked: bool
    var replacedBy: Option<Id>

    function Props(): Token
      reads this
    {
      Token(user, family, expiresAt, revoked, replacedBy)
    }

    constructor Issue(id: Id, user: Id, family: Id, expiresAt: nat)
      ensures this.id == id && Props() == Token(user, family, expiresAt, false, None)
    {
      this.id, this.user, this.family, this.expiresAt := id, user, family, expiresAt;
      revoked, replacedBy := false, None;
    }

    constructor Reconstitute(id: Id, props: Token)
      ensures this.id == id && Props() == props
    {
      this.id, user, family, expiresAt := id, props.user, props.family, props.expiresAt;
      revoked, replacedBy := props.revoked, props.replacedBy;
    }

    method IsExpired(now: nat) returns (expired: bool)
      ensures expired <==> Expired(Props(), now)
    {
      expired := expiresAt <= now;
    }

    method Revoke(replacedById: Option<Id>)
      modifies this
      ensures Props() == old(Props()).(
        revoked := true,
        replacedBy := if replacedById.Some? then replacedById else old(replacedBy))
    {
      revoked := true;
      if replacedById.Some? { replacedBy := replacedById; }
    }
  }

  class RefreshTokenRepository {
    var tokens: Tokens

    constructor ()
      ensures tokens == map[]
    {
      tokens := map[];
    }

    method Find(presented: Id) returns (token: RefreshToken?)
      ensures token == null <==> presented !in tokens
      ensures token != null ==> fresh(token) && token.id == presented && token.Props() == tokens[presented]
    {
      if presented !in tokens { return null; }
      token := new RefreshToken.Reconstitute(presented, tokens[presented]);
    }

    method Save(token: RefreshToken)
      modifies this
      ensures tokens == old(tokens)[token.id := token.Props()]
    {
      tokens := tokens[token.id := token.Props()];
    }

    method RevokeFamily(family: Id)
      modifies this
      ensures tokens == RefreshTokens.RevokeFamily(old(tokens), family)
    {
      tokens := map id | id in tokens ::
        if tokens[id].family == family && !tokens[id].revoked then tokens[id].(revoked := true) else tokens[id];
    }

    method RevokeAllForUser(user: Id)
      modifies this
      ensures tokens == RefreshTokens.RevokeAllForUser(old(tokens), user)
    {
      tokens := map id | id in tokens ::
        if tokens[id].user == user && !tokens[id].revoked then tokens[id].(revoked := true) else tokens[id];
    }

    method DeleteExpired(now: nat) returns (count: nat)
      modifies this
      ensures tokens == WithoutExpired(old(tokens), now)
      ensures forall id :: id in tokens <==> id in old(tokens) && now <= old(tokens)[id].expiresAt
      ensures forall id | id in tokens :: tokens[id] == old(tokens)[id]
      ensures count == |old(tokens)| - |tokens|
    {
      var expired := set id | id in tokens && tokens[id].expiresAt < now;
      var kept := tokens - expired;
      assert kept == WithoutExpired(tokens, now);
      assert tokens.Keys == kept.Keys + expired;
      count := |expired|;
      tokens := kept;
    }
  }

  /** The handlers, over one repository and a clock; ids and families come out fresh. */
  class Sessions {
    const repository: RefreshTokenRepository
    var nextId: Id
    var nextFamily: Id
    var now: nat

    constructor ()
      ensures Initial(State()) && fresh(repository)
    {
      repository := new RefreshTokenRepository();
      nextId, nextFamily, now := 0, 0, 0;
    }

    function State(): Store
      reads this, repository
    {
      Store(repository.tokens, nextId, nextFamily, now)
    }

    /** The part of login that follows a matching password. */
    method Login(user: Id) returns (refreshToken: Id)
      modifies this, repository
      ensures State() == Step(old(State()), Call.Login(user)) && refreshToken == old(nextId)
    {
      var token := new RefreshToken.Issue(nextId, user, nextFamily, now + TTL);
      nextId, nextFamily := nextId + 1, nextFamily + 1;
      repository.Save(token);
      refreshToken := token.id;
    }

    method Refresh(presented: Id, userMayLogIn: bool) returns (refreshToken: Option<Id>)
      modifies this, repository
      ensures State() == Step(old(State()), Call.Refresh(presented, userMayLogIn))
      ensures refreshToken ==
        if Exchanged(old(State()), Call.Refresh(presented, userMayLogIn)) then Some(old(nextId)) else None
    {
      var existing := repository.Find(presented);
      if existing == null { return None; }
      if existing.revoked {
        repository.RevokeFamily(existing.family);
        return None;
      }
      var expired := existing.IsExpired(now);
      if expired || !userMayLogIn { return None; }
      var replacement := new RefreshToken.Issue(nextId, existing.user, existing.family, now + TTL);
      nextId := nextId + 1;
      existing.Revoke(Some(replacement.id));
      repository.Save(existing);
      repository.Save(replacement);
      refreshToken := Some(replacement.id);
    }

    method Logout(presented: Id)
      modifies repository
      ensures State() == Step(old(State()), Call.Logout(presented))
    {
      var existing := repository.Find(presented);
      if existing != null && !existing.revoked {
        repository.RevokeFamily(existing.family);
      }
    }

    /** The part of a password change that follows the saved new password. */
    method ChangePassword(user: Id)
      modifies repository
      ensures State() == Step(old(State()), Call.ChangePassword(user))
    {
      repository.RevokeAllForUser(user);
    }
  }
}
