/** The cart drawer's checkout (client/src/components/CartDrawer.tsx):
    create a basket, remember it and the cart for the resumed checkout, send
    the visitor to the platform's sign-in when it offers one, otherwise
    attach every line and go to the basket's checkout page, emptying the
    cart. Any failure ends in an error notification. */
module CartDrawer {
  import opened Wrappers
  import opened Types
  import opened Storage
  import opened TebexApi
  import opened Checkout
  import opened Cart

  /** How a checkout attempt ends. */
  datatype DrawerOutcome = ToSignIn(url: string) | ToCheckout(url: string) | ErrorToast(message: string)

  function BasketCall(origin: string): ApiCall
  {
    CreateBasket(origin + "/checkout/complete", origin + "/products")
  }

  function SignInCall(ident: string, origin: string): ApiCall
  {
    GetBasketAuthUrl(ident, origin + "/checkout/auth-complete")
  }

  /** The storage after the basket and the cart are remembered. */
  function Remembered(entries: map<string, Value>, ident: string, items: seq<CartItem>): map<string, Value>
  {
    entries[BasketIdentKey := Text(ident)][PendingItemsKey := CartItems(items)]
  }

  class CartDrawerView {
    var isProcessing: bool

    constructor ()
      ensures !isProcessing
    {
      isProcessing := false;
    }

    /** handleCheckout. `created` is the new basket's ident (`None`: creation
        failed), `links` the sign-in links (`None`: the request failed),
        `replies[k]` the answer to attaching the k-th line, and `basket` the
        final basket fetch; `discord` is the signed-in Discord identity. */
    method HandleCheckout(cart: CartStore, discord: Option<User>, origin: string,
                          created: Option<string>, links: Option<seq<AuthLink>>,
                          replies: seq<AttachReply>, basket: BasketReply)
      returns (outcome: DrawerOutcome, calls: seq<ApiCall>)
      requires |replies| == |cart.items|
      modifies this, cart, cart.storage
      ensures |calls| >= 1 && calls[0] == BasketCall(origin)
      ensures created.None? ==>
        outcome == ErrorToast(CreateBasketFailed) && calls == [BasketCall(origin)] &&
        cart.items == old(cart.items) && cart.storage.entries == old(cart.storage.entries)
      ensures created.Some? ==>
        |calls| >= 2 && calls[1] == SignInCall(created.value, origin)
      ensures created.Some? && !outcome.ToCheckout? ==>
        cart.items == old(cart.items) &&
        cart.storage.entries == Remembered(old(cart.storage.entries), created.value, old(cart.items))
      ensures created.Some? && links.None? ==> outcome == ErrorToast(AuthUrlFailed) && |calls| == 2
      ensures created.Some? && links.Some? && HasAuthUrl(links.value) ==>
        outcome == ToSignIn(links.value[0].url) && |calls| == 2
      ensures created.Some? && links.Some? && !HasAuthUrl(links.value) ==>
        var run := AttachAll(created.value, old(cart.items), DiscordIdOf(discord), replies, Strict);
        calls[2..] == run.calls + (if run.abort.None? then [GetBasket(created.value)] else []) &&
        (run.abort.Some? ==> outcome == ErrorToast(run.abort.value)) &&
        (run.abort.None? && basket.BasketFailed? ==> outcome == ErrorToast(BasketFetchFailed)) &&
        (run.abort.None? && basket.BasketFetched? && basket.checkout.GetOr("") == "" ==>
           outcome == ErrorToast(CheckoutUrlMissing)) &&
        (run.abort.None? && basket.BasketFetched? && basket.checkout.GetOr("") != "" ==>
           outcome == ToCheckout(basket.checkout.value))
      ensures outcome.ToCheckout? ==>
        cart.items == [] &&
        cart.storage.entries ==
          Remembered(old(cart.storage.entries), created.value, old(cart.items))[CartKey := CartItems([])]
      ensures outcome.ToCheckout? ==> forall k :: 0 <= k < |replies| ==> replies[k].Attached?
      ensures isProcessing <==> !outcome.ErrorToast?
    {
      isProcessing := true;
      calls := [BasketCall(origin)];
      if created.None? {
        isProcessing := false;
        return ErrorToast(CreateBasketFailed), calls;
      }
      var ident := created.value;
      var items := cart.items;
      var storage := cart.storage;
      storage.SetItem(BasketIdentKey, Text(ident));
      storage.SetItem(PendingItemsKey, CartItems(items));
      calls := calls + [SignInCall(ident, origin)];
      if links.None? {
        isProcessing := false;
        return ErrorToast(AuthUrlFailed), calls;
      }
      if HasAuthUrl(links.value) {
        return ToSignIn(links.value[0].url), calls;
      }
      var attached, abort := AttachLoop(ident, items, DiscordIdOf(discord), replies, Strict);
      calls := calls + attached;
      if abort.Some? {
        isProcessing := false;
        return ErrorToast(abort.value), calls;
      }
      calls := calls + [GetBasket(ident)];
      if basket.BasketFailed? {
        isProcessing := false;
        return ErrorToast(BasketFetchFailed), calls;
      }
      if basket.checkout.GetOr("") == "" {
        isProcessing := false;
        return ErrorToast(CheckoutUrlMissing), calls;
      }
      StrictCompletesIffAllAttached(ident, items, DiscordIdOf(discord), replies);
      cart.ClearCart();
      outcome := ToCheckout(basket.checkout.value);
    }
  }
}
