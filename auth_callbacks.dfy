/** The two sign-in return pages (client/src/pages/auth/DiscordCallback.tsx
    and CFXCallback.tsx). Each runs its handler once per mount (the
    `hasProcessed` ref), completes the sign-in through the identity store
    and goes back where the visitor came from, or shows an error and goes
    home after three seconds. Network answers are inputs. */
module AuthCallbacks {
  import opened Wrappers
  import opened Types
  import opened Storage
  import opened Avatars
  import opened TebexApi
  import opened Auth

  /** How a run of a return page ends. `ShowError` also schedules the move
      to the home page. */
  datatype Outcome = AlreadyHandled | NavigateTo(path: string) | ShowError(message: string)

  const HomePath: string := "/"

  /** `getItem("auth_return_url") || "/"`. */
  function ReturnPath(entries: map<string, Value>): string
  {
    TextOr(entries, ReturnUrlKey, HomePath)
  }

  // ---------------------------------------------------------------------
  // Discord

  const InvalidState: string := "Invalid OAuth state"
  const DiscordFailed: string := "Failed to authenticate with Discord"

  /** The Discord profile fields the page reads; `avatar` is `None` when null. */
  datatype DiscordProfile = DiscordProfile(id: string, username: string, avatar: Option<string>, discriminator: string)

  /** The calls the Discord page makes: the code exchange through the
      proxy, then the profile fetch with the access token. */
  datatype DiscordCall = ExchangeCode(code: string) | FetchProfile(accessToken: string)

  /** The identity stored for a Discord profile. */
  function DiscordUser(p: DiscordProfile): (u: User)
    ensures u.id == p.id && u.username == p.username && u.provider == Discord
    ensures u.avatar.Some?
  {
    User(p.id, p.username, Some(DiscordAvatarUrl(p.id, p.avatar, p.discriminator)), Discord)
  }

  /** The query's `code` and `state` are present and `state` is the nonce saved at login. */
  predicate StateMatches(entries: map<string, Value>, code: Option<string>, state: Option<string>)
  {
    code.Some? && code.value != "" && state.Some? && state.value != "" &&
    TextItem(entries, OAuthStateKey) == Some(state.value)
  }

  class DiscordCallbackPage {
    var hasProcessed: bool
    var error: Option<string>

    constructor ()
      ensures !hasProcessed && error.None?
    {
      hasProcessed := false;
      error := None;
    }

    /** The effect. `token` is the access token of a successful exchange
        (`None`: the exchange failed); `profile` the profile fetched with it
        (`None`: the fetch failed). */
    method HandleCallback(auth: AuthStore, code: Option<string>, state: Option<string>,
                          token: Option<string>, profile: Option<DiscordProfile>)
      returns (outcome: Outcome, calls: seq<DiscordCall>)
      modifies this, auth, auth.storage
      ensures hasProcessed
      ensures old(hasProcessed) ==>
        outcome == AlreadyHandled && calls == [] && error == old(error) &&
        auth.state == old(auth.state) && auth.storage.entries == old(auth.storage.entries)
      ensures !old(hasProcessed) && !StateMatches(old(auth.storage.entries), code, state) ==>
        outcome == ShowError(InvalidState) && calls == [] &&
        auth.state == old(auth.state) && auth.storage.entries == old(auth.storage.entries)
      ensures !old(hasProcessed) && StateMatches(old(auth.storage.entries), code, state) ==>
        |calls| >= 1 && calls[0] == ExchangeCode(code.value) &&
        (token.None? ==> |calls| == 1) &&
        (token.Some? ==> calls == [ExchangeCode(code.value), FetchProfile(token.value)])
      ensures !old(hasProcessed) && StateMatches(old(auth.storage.entries), code, state) &&
              (token.None? || profile.None?) ==>
        outcome == ShowError(DiscordFailed) && auth.state == old(auth.state) &&
        auth.storage.entries == old(auth.storage.entries) - {OAuthStateKey}
      ensures !old(hasProcessed) && StateMatches(old(auth.storage.entries), code, state) &&
              token.Some? && profile.Some? ==>
        outcome == NavigateTo(ReturnPath(old(auth.storage.entries))) &&
        auth.state == AuthState(Some(DiscordUser(profile.value)), old(auth.state).cfx) &&
        auth.storage.entries ==
          ((old(auth.storage.entries) - {OAuthStateKey})[AuthStateKey := Identities(auth.state)]
             [DiscordTokenKey := Text(token.value)]) - {ReturnUrlKey}
      ensures outcome.ShowError? ==> error == Some(outcome.message)
      ensures outcome.NavigateTo? ==> error == old(error)
    {
      if hasProcessed {
        return AlreadyHandled, [];
      }
      hasProcessed := true;
      var storage := auth.storage;
      if !StateMatches(storage.entries, code, state) {
        error := Some(InvalidState);
        return ShowError(InvalidState), [];
      }
      storage.RemoveItem(OAuthStateKey);
      calls := [ExchangeCode(code.value)];
      if token.None? {
        error := Some(DiscordFailed);
        return ShowError(DiscordFailed), calls;
      }
      calls := calls + [FetchProfile(token.value)];
      if profile.None? {
        error := Some(DiscordFailed);
        return ShowError(DiscordFailed), calls;
      }
      auth.SetDiscordUser(DiscordUser(profile.value));
      storage.SetItem(DiscordTokenKey, Text(token.value));
      var back := ReturnPath(storage.entries);
      storage.RemoveItem(ReturnUrlKey);
      outcome := NavigateTo(back);
    }
  }

  // ---------------------------------------------------------------------
  // CFX

  const CfxFailed: string := "Failed to complete CFX authentication"

  /** The signed-in account a fetched basket carries; an empty string
      stands for a missing or falsy field. */
  datatype BasketAccount = BasketAccount(usernameId: string, username: string)

  class CfxCallbackPage {
    var hasProcessed: bool
    var error: Option<string>

    constructor ()
      ensures !hasProcessed && error.None?
    {
      hasProcessed := false;
      error := None;
    }

    /** The effect. `fetched` is the account of the basket remembered at
        login (`None`: the fetch failed). */
    method HandleCallback(auth: AuthStore, fetched: Option<BasketAccount>)
      returns (outcome: Outcome, calls: seq<ApiCall>)
      modifies this, auth, auth.storage
      ensures hasProcessed
      ensures old(hasProcessed) ==>
        outcome == AlreadyHandled && calls == [] && error == old(error) &&
        auth.state == old(auth.state) && auth.storage.entries == old(auth.storage.entries)
      ensures !old(hasProcessed) && TextItem(old(auth.storage.entries), CfxBasketKey).None? ==>
        outcome == ShowError(CfxFailed) && calls == [] &&
        auth.state == old(auth.state) && auth.storage.entries == old(auth.storage.entries)
      ensures !old(hasProcessed) && TextItem(old(auth.storage.entries), CfxBasketKey).Some? ==>
        calls == [GetBasket(TextItem(old(auth.storage.entries), CfxBasketKey).value)]
      ensures !old(hasProcessed) && TextItem(old(auth.storage.entries), CfxBasketKey).Some? &&
              (fetched.None? || fetched.value.usernameId == "" || fetched.value.username == "") ==>
        outcome == ShowError(CfxFailed) &&
        auth.state == old(auth.state) && auth.storage.entries == old(auth.storage.entries)
      ensures !old(hasProcessed) && TextItem(old(auth.storage.entries), CfxBasketKey).Some? &&
              fetched.Some? && fetched.value.usernameId != "" && fetched.value.username != "" ==>
        outcome == NavigateTo(ReturnPath(old(auth.storage.entries))) &&
        auth.state == AuthState(old(auth.state).discord,
          Some(CfxUser(fetched.value.username, Some(CfxAvatarUrl(fetched.value.username, fetched.value.usernameId))))) &&
        auth.storage.entries ==
          ((old(auth.storage.entries)[AuthStateKey := Identities(auth.state)]) - {CfxBasketKey}) - {ReturnUrlKey}
      ensures outcome.ShowError? ==> error == Some(outcome.message)
      ensures outcome.NavigateTo? ==> error == old(error)
    {
      if hasProcessed {
        return AlreadyHandled, [];
      }
      hasProcessed := true;
      var storage := auth.storage;
      var ident := TextItem(storage.entries, CfxBasketKey);
      if ident.None? {
        error := Some(CfxFailed);
        return ShowError(CfxFailed), [];
      }
      calls := [GetBasket(ident.value)];
      if fetched.None? || fetched.value.usernameId == "" || fetched.value.username == "" {
        error := Some(CfxFailed);
        return ShowError(CfxFailed), calls;
      }
      var account := fetched.value;
      auth.SetCfxUser(account.username, Some(CfxAvatarUrl(account.username, account.usernameId)));
      storage.RemoveItem(CfxBasketKey);
      var back := ReturnPath(storage.entries);
      storage.RemoveItem(ReturnUrlKey);
      outcome := NavigateTo(back);
    }
  }
}
