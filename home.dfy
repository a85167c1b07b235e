/** The home page's purchase feed (client/src/pages/HomePage.tsx): which
    avatar each payment card shows, the record of avatars that failed to
    load, and the text fallbacks of a card. Relative times are in the
    TimeAgo module. */
module Home {
  import opened Wrappers
  import opened Avatars

  datatype Player = Player(name: Option<string>, id: Option<string>)

  /** A recent payment as the feed receives it; `packageNames` lists the
      names of the packages bought (an empty string for a package without
      a name). Amount, currency and date are not part of this model. */
  datatype Payment = Payment(id: int, player: Option<Player>, packageNames: Option<seq<string>>)

  /** A string member is set and non-empty (JavaScript truthiness). */
  predicate Filled(s: Option<string>)
  {
    s.Some? && s.value != ""
  }

  /** The card asks for the forum avatar when the player has both an id and
      a name and no load failure was recorded for this payment. */
  predicate UseRemoteAvatar(p: Payment, avatarErrors: map<int, bool>)
  {
    p.player.Some? && Filled(p.player.value.id) && Filled(p.player.value.name) &&
    !(p.id in avatarErrors && avatarErrors[p.id])
  }

  /** The avatar shown: the forum image, or the placeholder icon. */
  function AvatarSource(p: Payment, avatarErrors: map<int, bool>): (src: Option<string>)
    ensures src.Some? <==> UseRemoteAvatar(p, avatarErrors)
    ensures src.Some? ==> src.value == CfxAvatarUrl(p.player.value.name.value, p.player.value.id.value)
  {
    if UseRemoteAvatar(p, avatarErrors) then
      Some(CfxAvatarUrl(p.player.value.name.value, p.player.value.id.value))
    else None
  }

  const Anonymous: string := "Anonymous"
  const UnknownPackage: string := "Unknown Package"

  /** The buyer's name, or "Anonymous". */
  function PlayerLabel(p: Payment): (s: string)
    ensures s != ""
    ensures p.player.Some? && Filled(p.player.value.name) ==> s == p.player.value.name.value
    ensures !(p.player.Some? && Filled(p.player.value.name)) ==> s == Anonymous
  {
    if p.player.Some? && Filled(p.player.value.name) then p.player.value.name.value else Anonymous
  }

  /** The first package's name, or "Unknown Package". */
  function PackageLabel(p: Payment): (s: string)
    ensures s != ""
    ensures p.packageNames.Some? && |p.packageNames.value| > 0 && p.packageNames.value[0] != "" ==>
      s == p.packageNames.value[0]
    ensures !(p.packageNames.Some? && |p.packageNames.value| > 0 && p.packageNames.value[0] != "") ==>
      s == UnknownPackage
  {
    if p.packageNames.Some? && |p.packageNames.value| > 0 && p.packageNames.value[0] != "" then
      p.packageNames.value[0]
    else UnknownPackage
  }

  class HomePageState {
    var payments: seq<Payment>
    var avatarErrors: map<int, bool>

    constructor ()
      ensures payments == [] && avatarErrors == map[]
    {
      payments := [];
      avatarErrors := map[];
    }

    /** The feed load: the list received, or an empty feed when the request
        fails or the answer is null. */
    method LoadPayments(received: Option<seq<Payment>>)
      modifies this
      ensures payments == received.GetOr([])
      ensures avatarErrors == old(avatarErrors)
    {
      payments := received.GetOr([]);
    }

    /** handleAvatarError: record the failure for this payment only. */
    method HandleAvatarError(paymentId: int)
      modifies this
      ensures avatarErrors == old(avatarErrors)[paymentId := true]
      ensures payments == old(payments)
    {
      avatarErrors := avatarErrors[paymentId := true];
    }
  }

  /** After a failure is recorded for one payment, that payment's card
      falls back to the placeholder and every other card is unaffected. */
  lemma AvatarErrorIsLocal(errors: map<int, bool>, failed: int, p: Payment)
    ensures UseRemoteAvatar(p, errors[failed := true]) <==> p.id != failed && UseRemoteAvatar(p, errors)
    ensures p.id != failed ==> AvatarSource(p, errors[failed := true]) == AvatarSource(p, errors)
  {
  }

  /** A recorded failure is never forgotten by later ones. */
  lemma AvatarErrorsAccumulate(errors: map<int, bool>, a: int, b: int, p: Payment)
    requires !UseRemoteAvatar(p, errors[a := true])
    ensures !UseRemoteAvatar(p, errors[a := true][b := true])
  {
  }
}
