/** The resumed checkout (client/src/pages/CheckoutAuthComplete.tsx): the
    page the platform's sign-in returns to. Guarded by a processing flag in
    localStorage, it attaches the remembered cart lines to the remembered
    basket, tolerating lines already in the basket, and goes to checkout;
    on failure it shows the error and, after a delay, clears the flag and
    returns to the catalogue. */
module CheckoutAuthComplete {
  import opened Wrappers
  import opened Types
  import opened Storage
  import opened TebexApi
  import opened Checkout

  datatype Status = Processing | Succeeded | Failed

  /** How a run of the page's effect ends. */
  datatype Outcome = Skipped | ToCheckout(url: string) | ShowError(message: string)

  const FlagOn: Value := Text("true")
  const NoBasket: string := "No basket found"
  const NoBasketStatus: string := "No basket found. Redirecting..."
  const Redirecting: string := "Redirecting to checkout..."
  const ProductsPath: string := "/products"

  /** The remembered cart lines, when they are stored as a list. */
  function PendingItems(entries: map<string, Value>): seq<CartItem>
  {
    if PendingItemsKey in entries && entries[PendingItemsKey].CartItems? then entries[PendingItemsKey].items else []
  }

  /** One of the two JSON.parse calls would throw: the remembered lines, or
      a non-empty saved identity record, are not JSON of their shape. */
  predicate Unparsable(entries: map<string, Value>)
  {
    (PendingItemsKey in entries && !entries[PendingItemsKey].CartItems?) ||
    (Present(entries, AuthStateKey) && !entries[AuthStateKey].Identities?)
  }

  /** The Discord identity in the saved record, if any. */
  function SavedDiscord(entries: map<string, Value>): Option<User>
  {
    if AuthStateKey in entries && entries[AuthStateKey].Identities? then entries[AuthStateKey].state.discord else None
  }

  class CheckoutAuthCompletePage {
    var status: Status
    var message: string

    constructor ()
      ensures status == Processing && message == "Processing authentication..."
    {
      status := Processing;
      message := "Processing authentication...";
    }

    /** The effect. `replies[k]` answers the attach call for the k-th
        remembered line, `basket` the final basket fetch, and `parseError`
        is the message JSON.parse throws on malformed stored text. */
    method HandleAuthComplete(storage: LocalStorage, replies: seq<AttachReply>, basket: BasketReply, parseError: string)
      returns (outcome: Outcome, calls: seq<ApiCall>)
      requires |replies| == |PendingItems(storage.entries)|
      modifies this, storage
      ensures var e0 := old(storage.entries);
        e0.Keys >= {ProcessingKey} && e0[ProcessingKey] == FlagOn ==>
          outcome == Skipped && calls == [] && storage.entries == e0 &&
          status == old(status) && message == old(message)
      ensures var e0 := old(storage.entries);
        var e1 := e0[ProcessingKey := FlagOn];
        !(ProcessingKey in e0 && e0[ProcessingKey] == FlagOn) ==>
          if TextItem(e0, BasketIdentKey).None? || !Present(e0, PendingItemsKey) then
            outcome == ShowError(NoBasket) && calls == [] && storage.entries == e1 &&
            status == Failed && message == NoBasketStatus
          else if Unparsable(e0) then
            outcome == ShowError(parseError) && calls == [] && storage.entries == e1 &&
            status == Failed && message == parseError
          else
            var ident := TextItem(e0, BasketIdentKey).value;
            var run := AttachAll(ident, PendingItems(e0), DiscordIdOf(SavedDiscord(e0)), replies, Resume);
            calls == run.calls + (if run.abort.None? then [GetBasket(ident)] else []) &&
            if run.abort.Some? then
              outcome == ShowError(run.abort.value) && storage.entries == e1 &&
              status == Failed && message == run.abort.value
            else if basket.BasketFailed? then
              outcome == ShowError(BasketFetchFailed) && storage.entries == e1 &&
              status == Failed && message == BasketFetchFailed
            else if basket.checkout.GetOr("") == "" then
              outcome == ShowError(CheckoutUrlMissing) && storage.entries == e1 &&
              status == Failed && message == CheckoutUrlMissing
            else
              outcome == ToCheckout(basket.checkout.value) &&
              storage.entries == e1 - {PendingItemsKey} - {BasketIdentKey} - {ProcessingKey} &&
              status == Succeeded && message == Redirecting
    {
      if ProcessingKey in storage.entries && storage.entries[ProcessingKey] == FlagOn {
        return Skipped, [];
      }
      storage.SetItem(ProcessingKey, FlagOn);
      var identItem := TextItem(storage.entries, BasketIdentKey);
      var pending := Present(storage.entries, PendingItemsKey);
      if identItem.None? || !pending {
        status, message := Failed, NoBasketStatus;
        return ShowError(NoBasket), [];
      }
      if Unparsable(storage.entries) {
        status, message := Failed, parseError;
        return ShowError(parseError), [];
      }
      var ident := identItem.value;
      var items := PendingItems(storage.entries);
      var discordId := DiscordIdOf(SavedDiscord(storage.entries));
      var abort;
      calls, abort := AttachLoop(ident, items, discordId, replies, Resume);
      if abort.Some? {
        status, message := Failed, abort.value;
        return ShowError(abort.value), calls;
      }
      calls := calls + [GetBasket(ident)];
      if basket.BasketFailed? {
        status, message := Failed, BasketFetchFailed;
        return ShowError(BasketFetchFailed), calls;
      }
      if basket.checkout.GetOr("") == "" {
        status, message := Failed, CheckoutUrlMissing;
        return ShowError(CheckoutUrlMissing), calls;
      }
      storage.RemoveItem(PendingItemsKey);
      storage.RemoveItem(BasketIdentKey);
      storage.RemoveItem(ProcessingKey);
      status, message := Succeeded, Redirecting;
      outcome := ToCheckout(basket.checkout.value);
    }

    /** The delayed step after an error: clear the flag and go to the catalogue. */
    method AfterErrorDelay(storage: LocalStorage) returns (path: string)
      modifies storage
      ensures storage.entries == old(storage.entries) - {ProcessingKey}
      ensures path == ProductsPath
    {
      storage.RemoveItem(ProcessingKey);
      path := ProductsPath;
    }
  }
}
