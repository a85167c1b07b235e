/** The browser's localStorage: a string-keyed store updated in place by
    several components. Values written with JSON.stringify are kept in
    decoded form (the cart lines, the identity record); a `Text` value
    stored under one of those keys stands for a string that is not the JSON
    of that shape. */
module Storage {
  import opened Wrappers
  import opened Types

  datatype Value = Text(s: string) | CartItems(items: seq<CartItem>) | Identities(state: AuthState)

  const CartKey: string := "cart"
  const AuthStateKey: string := "authState"
  const DiscordTokenKey: string := "discord_token"
  const OAuthStateKey: string := "oauth_state"
  const OAuthProviderKey: string := "oauth_provider"
  const ReturnUrlKey: string := "auth_return_url"
  const CfxBasketKey: string := "cfx_auth_basket"
  const BasketIdentKey: string := "tebex_basket_ident"
  const PendingItemsKey: string := "tebex_pending_items"
  const ProcessingKey: string := "auth_complete_processing"

  /** `getItem(k)` is non-null and not the empty string (a truthy string). */
  predicate Present(entries: map<string, Value>, k: string)
  {
    k in entries && entries[k] != Text("")
  }

  /** `getItem(k)` as a truthy plain string. */
  function TextItem(entries: map<string, Value>, k: string): Option<string>
  {
    if k in entries && entries[k].Text? && entries[k].s != "" then Some(entries[k].s) else None
  }

  /** `getItem(k) || fallback` for a key holding plain text. */
  function TextOr(entries: map<string, Value>, k: string, fallback: string): string
  {
    TextItem(entries, k).GetOr(fallback)
  }

  class LocalStorage {
    var entries: map<string, Value>

    constructor (initial: map<string, Value>)
      ensures entries == initial
    {
      entries := initial;
    }

    method SetItem(key: string, value: Value)
      modifies this
      ensures entries == old(entries)[key := value]
    {
      entries := entries[key := value];
    }

    method RemoveItem(key: string)
      modifies this
      ensures entries == old(entries) - {key}
    {
      entries := entries - {key};
    }
  }
}
