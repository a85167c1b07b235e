/** The identity store (client/src/contexts/AuthContext.tsx): two
    independent slots, one per provider, mirrored to localStorage under
    "authState" after every change, and the two login flows. */
module Auth {
  import opened Wrappers
  import opened Types
  import opened Storage
  import opened TebexApi

  const SignedOut: AuthState := AuthState(None, None)

  /** The state restored on load: the saved record, or both slots empty. */
  function SavedAuthState(entries: map<string, Value>): AuthState
  {
    if AuthStateKey in entries && entries[AuthStateKey].Identities? then entries[AuthStateKey].state else SignedOut
  }

  /** What the saved value must be for the initial JSON.parse not to throw. */
  predicate AuthLoadable(entries: map<string, Value>)
  {
    !Present(entries, AuthStateKey) || entries[AuthStateKey].Identities?
  }

  /** isAuthenticated: at least one provider is signed in. */
  predicate IsAuthenticated(s: AuthState)
  {
    s.discord.Some? || s.cfx.Some?
  }

  /** A CFX identity: the username doubles as the id. */
  function CfxUser(username: string, avatar: Option<string>): (u: User)
    ensures u.id == u.username == username && u.provider == Cfx && u.avatar == avatar
  {
    User(username, username, avatar, Cfx)
  }

  /** The Discord authorisation request the browser is sent to; the client
      id and redirect URI come from the build configuration. */
  datatype DiscordAuthorize = DiscordAuthorize(clientId: Option<string>, redirectUri: Option<string>, scope: string, state: string)

  const DiscordScope: string := "identify email guilds.join"

  /** How a CFX login attempt ends: at the platform's sign-in page, or with an alert. */
  datatype CfxLoginOutcome = CfxRedirect(url: string) | CfxAlert(message: string)

  const CfxLoginAlert: string := "Failed to initiate CFX authentication. Please try again."

  class AuthStore {
    var state: AuthState
    const storage: LocalStorage

    /** The stored record mirrors the state. */
    ghost predicate Valid()
      reads this, storage
    {
      AuthStateKey in storage.entries && storage.entries[AuthStateKey] == Identities(state)
    }

    /** Restore the saved identities, then persist them. */
    constructor (storage: LocalStorage)
      requires AuthLoadable(storage.entries)
      modifies storage
      ensures this.storage == storage
      ensures state == SavedAuthState(old(storage.entries))
      ensures storage.entries == old(storage.entries)[AuthStateKey := Identities(state)]
      ensures Valid()
    {
      this.storage := storage;
      var saved := SavedAuthState(storage.entries);
      state := saved;
      storage.SetItem(AuthStateKey, Identities(saved));
    }

    method Persist()
      modifies storage
      ensures storage.entries == old(storage.entries)[AuthStateKey := Identities(state)]
      ensures Valid()
    {
      storage.SetItem(AuthStateKey, Identities(state));
    }

    /** Fill the CFX slot; the Discord slot is untouched. */
    method SetCfxUser(username: string, avatar: Option<string>)
      modifies this, storage
      ensures state == AuthState(old(state).discord, Some(CfxUser(username, avatar)))
      ensures storage.entries == old(storage.entries)[AuthStateKey := Identities(state)]
      ensures Valid() && IsAuthenticated(state)
    {
      state := state.(cfx := Some(CfxUser(username, avatar)));
      Persist();
    }

    /** Fill the Discord slot; the CFX slot is untouched. */
    method SetDiscordUser(user: User)
      modifies this, storage
      ensures state == AuthState(Some(user), old(state).cfx)
      ensures storage.entries == old(storage.entries)[AuthStateKey := Identities(state)]
      ensures Valid() && IsAuthenticated(state)
    {
      state := state.(discord := Some(user));
      Persist();
    }

    /** Clear the Discord slot and forget the Discord token. */
    method LogoutDiscord()
      modifies this, storage
      ensures state == AuthState(None, old(state).cfx)
      ensures storage.entries == (old(storage.entries) - {DiscordTokenKey})[AuthStateKey := Identities(state)]
      ensures Valid()
      ensures IsAuthenticated(state) <==> old(state).cfx.Some?
    {
      state := state.(discord := None);
      storage.RemoveItem(DiscordTokenKey);
      Persist();
    }

    /** Clear the CFX slot. */
    method LogoutCfx()
      modifies this, storage
      ensures state == AuthState(old(state).discord, None)
      ensures storage.entries == old(storage.entries)[AuthStateKey := Identities(state)]
      ensures Valid()
      ensures IsAuthenticated(state) <==> old(state).discord.Some?
    {
      state := state.(cfx := None);
      Persist();
    }

    /** login("discord"): remember where to come back to and the random
        `state` nonce, then send the browser to Discord. */
    method LoginDiscord(pathname: string, nonce: string, clientId: Option<string>, redirectUri: Option<string>)
      returns (request: DiscordAuthorize)
      modifies storage
      ensures storage.entries ==
        old(storage.entries)[ReturnUrlKey := Text(pathname)][OAuthStateKey := Text(nonce)][OAuthProviderKey := Text("discord")]
      ensures request == DiscordAuthorize(clientId, redirectUri, DiscordScope, nonce)
    {
      storage.SetItem(ReturnUrlKey, Text(pathname));
      storage.SetItem(OAuthStateKey, Text(nonce));
      storage.SetItem(OAuthProviderKey, Text("discord"));
      request := DiscordAuthorize(clientId, redirectUri, DiscordScope, nonce);
    }

    /** login("cfx"): create a basket, remember it and the return path, ask
        for the basket's sign-in links and follow the first one. `created` is
        the new basket's ident (`None`: the request failed); `links` is the
        answer to the auth-link request (`None`: it failed). */
    method LoginCfx(origin: string, pathname: string, created: Option<string>, links: Option<seq<AuthLink>>)
      returns (outcome: CfxLoginOutcome, calls: seq<ApiCall>)
      modifies storage
      ensures created.None? ==>
        calls == [CreateBasket(origin + "/auth/cfx/complete", origin)] &&
        outcome == CfxAlert(CfxLoginAlert) && storage.entries == old(storage.entries)
      ensures created.Some? ==>
        calls == [CreateBasket(origin + "/auth/cfx/complete", origin),
                  GetBasketAuthUrl(created.value, origin + "/auth/cfx/callback")] &&
        storage.entries == old(storage.entries)[CfxBasketKey := Text(created.value)][ReturnUrlKey := Text(pathname)]
      ensures outcome.CfxRedirect? <==> created.Some? && links.Some? && HasAuthUrl(links.value)
      ensures outcome.CfxRedirect? ==> outcome.url == links.value[0].url
      ensures outcome.CfxAlert? ==> outcome.message == CfxLoginAlert
    {
      calls := [CreateBasket(origin + "/auth/cfx/complete", origin)];
      if created.None? {
        return CfxAlert(CfxLoginAlert), calls;
      }
      var ident := created.value;
      storage.SetItem(CfxBasketKey, Text(ident));
      storage.SetItem(ReturnUrlKey, Text(pathname));
      calls := calls + [GetBasketAuthUrl(ident, origin + "/auth/cfx/callback")];
      if links.Some? && HasAuthUrl(links.value) {
        outcome := CfxRedirect(links.value[0].url);
      } else {
        outcome := CfxAlert(CfxLoginAlert);
      }
    }
  }
}
