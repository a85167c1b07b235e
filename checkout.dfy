/** The attach loop both checkout paths run (CartDrawer.tsx and
    CheckoutAuthComplete.tsx): one add-package call per cart line, in cart
    order, carrying the Discord id when there is one. The paths differ only
    in what a rejected call does, given here as `onError`: `None` carries
    on with the next line, `Some(m)` stops the loop with the error `m`. */
module Checkout {
  import opened Wrappers
  import opened Text
  import opened Types
  import opened TebexApi

  /** The Discord id sent as `variable_data.discord_id`: present when the
      visitor is signed in with Discord under a non-empty id. */
  function DiscordIdOf(discord: Option<User>): (r: Option<string>)
    ensures r.Some? <==> discord.Some? && discord.value.id != ""
    ensures r.Some? ==> r.value == discord.value.id
  {
    if discord.Some? && discord.value.id != "" then Some(discord.value.id) else None
  }

  function Payload(item: CartItem, discordId: Option<string>): AttachPayload
  {
    AttachPayload(item.pkg.id, item.quantity, discordId)
  }

  const CheckoutUrlMissing: string := "Checkout URL not found"

  /** The calls a run made and the error it stopped with, if any. */
  datatype AttachRun = AttachRun(calls: seq<ApiCall>, abort: Option<string>)

  /** `calls` made first, then the run `r`. */
  function After(calls: seq<ApiCall>, r: AttachRun): AttachRun
  {
    AttachRun(calls + r.calls, r.abort)
  }

  /** The calls made for `items`; `replies[k]` is the answer to the k-th call. */
  function AttachAll(ident: string, items: seq<CartItem>, discordId: Option<string>,
                     replies: seq<AttachReply>, onError: string -> Option<string>): AttachRun
    requires |replies| == |items|
    decreases |items|
  {
    if items == [] then AttachRun([], None)
    else
      var call := AddPackage(ident, Payload(items[0], discordId));
      var rest := AttachAll(ident, items[1..], discordId, replies[1..], onError);
      if replies[0].AttachRejected? && onError(AttachErrorMessage(replies[0].body)).Some? then
        AttachRun([call], onError(AttachErrorMessage(replies[0].body)))
      else
        After([call], rest)
  }

  /** The cart drawer's policy: every rejection stops the checkout with its message. */
  function Strict(m: string): Option<string>
  {
    Some(m)
  }

  const AlreadyInBasket: string := "already in your basket"
  const DiscordWord: string := "Discord"
  const DiscordRequired: string := "This package requires Discord login. Please login with Discord first."

  /** The resumed checkout's policy: a package already in the basket is
      skipped, a rejection mentioning Discord becomes the Discord-login
      message, and any other rejection stops with its own message. */
  function Resume(m: string): (r: Option<string>)
    ensures r.None? <==> Contains(m, AlreadyInBasket)
    ensures r == Some(DiscordRequired) <== !Contains(m, AlreadyInBasket) && Contains(m, DiscordWord)
    ensures !Contains(m, AlreadyInBasket) && !Contains(m, DiscordWord) ==> r == Some(m)
  {
    if Contains(m, AlreadyInBasket) then None
    else if Contains(m, DiscordWord) then Some(DiscordRequired)
    else Some(m)
  }

  /** The loop itself. */
  method AttachLoop(ident: string, items: seq<CartItem>, discordId: Option<string>,
                    replies: seq<AttachReply>, onError: string -> Option<string>)
    returns (calls: seq<ApiCall>, abort: Option<string>)
    requires |replies| == |items|
    ensures AttachRun(calls, abort) == AttachAll(ident, items, discordId, replies, onError)
  {
    calls := [];
    abort := None;
    var i := 0;
    while i < |items|
      invariant 0 <= i <= |items|
      invariant After(calls, AttachAll(ident, items[i..], discordId, replies[i..], onError))
        == AttachAll(ident, items, discordId, replies, onError)
    {
      assert items[i..][1..] == items[i + 1..] && replies[i..][1..] == replies[i + 1..];
      var call := AddPackage(ident, Payload(items[i], discordId));
      calls := calls + [call];
      if replies[i].AttachRejected? {
        var verdict := onError(AttachErrorMessage(replies[i].body));
        if verdict.Some? {
          abort := verdict;
          return;
        }
      }
      i := i + 1;
    }
  }

  // ---------------------------------------------------------------------
  // Properties of a run

  /** A run that is not stopped attaches every line, once, in cart order. */
  lemma {:induction false} CompleteRunCalls(ident: string, items: seq<CartItem>, discordId: Option<string>,
                                            replies: seq<AttachReply>, onError: string -> Option<string>)
    requires |replies| == |items|
    requires AttachAll(ident, items, discordId, replies, onError).abort.None?
    ensures |AttachAll(ident, items, discordId, replies, onError).calls| == |items|
    ensures forall k :: 0 <= k < |items| ==>
      AttachAll(ident, items, discordId, replies, onError).calls[k] == AddPackage(ident, Payload(items[k], discordId))
    decreases |items|
  {
    if items != [] {
      CompleteRunCalls(ident, items[1..], discordId, replies[1..], onError);
    }
  }

  /** The first line whose rejection the policy does not tolerate. */
  predicate StopsAt(items: seq<CartItem>, replies: seq<AttachReply>, onError: string -> Option<string>, k: int)
    requires |replies| == |items|
  {
    0 <= k < |items| && replies[k].AttachRejected? && onError(AttachErrorMessage(replies[k].body)).Some? &&
    forall j :: 0 <= j < k ==> replies[j].Attached? || onError(AttachErrorMessage(replies[j].body)).None?
  }

  /** A run stops at the first rejection its policy does not tolerate, with
      the policy's error; the lines up to it were sent in order, and nothing
      after it is sent. */
  lemma {:induction false} StoppedRunCalls(ident: string, items: seq<CartItem>, discordId: Option<string>,
                                           replies: seq<AttachReply>, onError: string -> Option<string>)
    returns (k: int)
    requires |replies| == |items|
    requires AttachAll(ident, items, discordId, replies, onError).abort.Some?
    ensures StopsAt(items, replies, onError, k)
    ensures AttachAll(ident, items, discordId, replies, onError).abort == onError(AttachErrorMessage(replies[k].body))
    ensures |AttachAll(ident, items, discordId, replies, onError).calls| == k + 1
    ensures forall j :: 0 <= j <= k ==>
      AttachAll(ident, items, discordId, replies, onError).calls[j] == AddPackage(ident, Payload(items[j], discordId))
    decreases |items|
  {
    var call := AddPackage(ident, Payload(items[0], discordId));
    if replies[0].AttachRejected? && onError(AttachErrorMessage(replies[0].body)).Some? {
      k := 0;
    } else {
      var k' := StoppedRunCalls(ident, items[1..], discordId, replies[1..], onError);
      k := k' + 1;
      var rest := AttachAll(ident, items[1..], discordId, replies[1..], onError);
      var r := AttachAll(ident, items, discordId, replies, onError);
      assert r.calls == [call] + rest.calls;
      assert forall j :: 0 < j <= k ==> r.calls[j] == rest.calls[j - 1] && items[j] == items[1..][j - 1];
      assert forall j :: 0 < j <= k ==> replies[j] == replies[1..][j - 1];
    }
  }

  /** The cart drawer's run completes exactly when every call is accepted. */
  lemma {:induction false} StrictCompletesIffAllAttached(ident: string, items: seq<CartItem>, discordId: Option<string>,
                                                         replies: seq<AttachReply>)
    requires |replies| == |items|
    ensures AttachAll(ident, items, discordId, replies, Strict).abort.None? <==>
      forall k :: 0 <= k < |replies| ==> replies[k].Attached?
    decreases |items|
  {
    if items != [] {
      StrictCompletesIffAllAttached(ident, items[1..], discordId, replies[1..]);
      assert forall k :: 0 < k < |replies| ==> replies[k] == replies[1..][k - 1];
    }
  }

  /** When every call is accepted, the policy plays no part: both paths
      make the same calls and complete. */
  lemma {:induction false} AllAttachedAnyPolicy(ident: string, items: seq<CartItem>, discordId: Option<string>,
                                                replies: seq<AttachReply>, f: string -> Option<string>, g: string -> Option<string>)
    requires |replies| == |items|
    requires forall k :: 0 <= k < |replies| ==> replies[k].Attached?
    ensures AttachAll(ident, items, discordId, replies, f) == AttachAll(ident, items, discordId, replies, g)
    ensures AttachAll(ident, items, discordId, replies, f).abort.None?
    decreases |items|
  {
    if items != [] {
      assert forall k :: 0 <= k < |replies[1..]| ==> replies[1..][k] == replies[k + 1];
      AllAttachedAnyPolicy(ident, items[1..], discordId, replies[1..], f, g);
    }
  }

  /** The resumed checkout skips a line already in the basket and carries on. */
  lemma ResumeSkipsDuplicates(ident: string, items: seq<CartItem>, discordId: Option<string>,
                              replies: seq<AttachReply>)
    requires |replies| == |items| && |items| > 0
    requires replies[0].AttachRejected? && Contains(AttachErrorMessage(replies[0].body), AlreadyInBasket)
    ensures AttachAll(ident, items, discordId, replies, Resume) ==
      After([AddPackage(ident, Payload(items[0], discordId))], AttachAll(ident, items[1..], discordId, replies[1..], Resume))
  {
  }
}
