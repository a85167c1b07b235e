/** Avatar addresses. The CFX forum avatar is built the same way by the
    home page and the CFX sign-in callback; the Discord avatar falls back to
    one of five default images chosen from the legacy discriminator. */
module Avatars {
  import opened Wrappers
  import opened Text

  const CfxAvatarPrefix: string := "https://forum.cfx.re/user_avatar/forum.cfx.re/"
  const DiscordAvatarPrefix: string := "https://cdn.discordapp.com/avatars/"
  const DiscordEmbedPrefix: string := "https://cdn.discordapp.com/embed/avatars/"

  /** The forum avatar of a CFX account: lowercased name, then the numeric id. */
  function CfxAvatarUrl(username: string, cfxId: string): string
  {
    CfxAvatarPrefix + ToLower(username) + "/256/" + cfxId + "_2.png"
  }

  /** The forum avatar depends on the name only through its lowercase form. */
  lemma CfxAvatarUrlIgnoresCase(a: string, b: string, cfxId: string)
    requires ToLower(a) == ToLower(b)
    ensures CfxAvatarUrl(a, cfxId) == CfxAvatarUrl(b, cfxId)
  {
  }

  /** For one account name, different ids give different addresses. */
  lemma CfxAvatarUrlDistinguishesIds(username: string, i: string, j: string)
    requires CfxAvatarUrl(username, i) == CfxAvatarUrl(username, j)
    ensures i == j
  {
    var head := CfxAvatarPrefix + ToLower(username) + "/256/";
    var u := CfxAvatarUrl(username, i);
    assert u == head + i + "_2.png";
    assert u[|head|..|u| - 6] == i;
    assert CfxAvatarUrl(username, j) == head + j + "_2.png";
    assert u[|head|..|u| - 6] == j;
  }

  /** The longest prefix of decimal digits. */
  function LeadingDigits(s: string): (d: string)
    ensures d <= s && AllDigits(d)
    ensures |d| < |s| ==> !IsDigit(s[|d|])
    decreases |s|
  {
    if s != [] && IsDigit(s[0]) then [s[0]] + LeadingDigits(s[1..]) else []
  }

  /** parseInt with no radix on a string without leading blanks or a
      hexadecimal prefix: an optional sign, then the leading digits; `None`
      stands for NaN. */
  function ParseInt(s: string): Option<int>
  {
    var negative := |s| > 0 && s[0] == '-';
    var body := if |s| > 0 && (s[0] == '-' || s[0] == '+') then s[1..] else s;
    var digits := LeadingDigits(body);
    if digits == [] then None
    else if negative then Some(-(DigitsValue(digits) as int))
    else Some(DigitsValue(digits))
  }

  /** JavaScript's `%`: the remainder of division truncated toward zero, so
      it takes the sign of the dividend. */
  function JsRem(a: int, b: int): (r: int)
    requires b > 0
    ensures -b < r < b
    ensures a >= 0 ==> r == a % b
    ensures a < 0 ==> r <= 0 && -r == (-a) % b
  {
    if a >= 0 then a % b else -((-a) % b)
  }

  /** `${parseInt(d) % 5}`: a digit for a decimal discriminator, "NaN" when none parses. */
  function EmbedIndexText(discriminator: string): string
  {
    match ParseInt(discriminator)
    case None => "NaN"
    case Some(n) => IntToString(JsRem(n, 5))
  }

  /** The avatar of a Discord profile: its own image when it has one, the
      default image picked by the discriminator otherwise. */
  function DiscordAvatarUrl(userId: string, avatar: Option<string>, discriminator: string): string
  {
    if avatar.Some? && avatar.value != "" then DiscordAvatarPrefix + userId + "/" + avatar.value + ".png"
    else DiscordEmbedPrefix + EmbedIndexText(discriminator) + ".png"
  }

  lemma {:induction false} LeadingDigitsAll(s: string)
    requires AllDigits(s)
    ensures LeadingDigits(s) == s
    decreases |s|
  {
    if s != [] {
      LeadingDigitsAll(s[1..]);
    }
  }

  /** A discriminator made of digits parses to its value. */
  lemma ParseIntDigits(d: string)
    requires AllDigits(d) && |d| > 0
    ensures ParseInt(d) == Some(DigitsValue(d))
  {
    LeadingDigitsAll(d);
  }

  /** Rendering a number and parsing it back gives the number. */
  lemma ParseIntRoundTrip(n: nat)
    ensures ParseInt(NatToString(n)) == Some(n)
  {
    NatToStringRoundTrip(n);
    ParseIntDigits(NatToString(n));
  }

  /** A profile without its own image gets one of the five default images
      0.png to 4.png (a decimal discriminator reduced modulo 5). */
  lemma DefaultAvatarInRange(userId: string, discriminator: string)
    requires AllDigits(discriminator) && |discriminator| > 0
    ensures DiscordAvatarUrl(userId, None, discriminator) ==
      DiscordEmbedPrefix + [DigitChar(DigitsValue(discriminator) % 5)] + ".png"
  {
    EmbedIndexDigits(discriminator);
  }

  /** A decimal discriminator picks the image numbered by its value modulo 5. */
  lemma EmbedIndexDigits(d: string)
    requires AllDigits(d) && |d| > 0
    ensures EmbedIndexText(d) == [DigitChar(DigitsValue(d) % 5)]
  {
    ParseIntDigits(d);
    var n := DigitsValue(d);
    var r := n % 5;
    assert JsRem(n, 5) == r;
    assert EmbedIndexText(d) == IntToString(r);
    assert NatToString(r) == [DigitChar(r)];
  }

  /** Which default image a profile gets does not depend on padding zeros:
      the legacy "0042" and "42" pick the same image. */
  lemma DefaultAvatarIgnoresLeadingZeros(userId: string, discriminator: string)
    requires AllDigits(discriminator) && |discriminator| > 0
    ensures DiscordAvatarUrl(userId, None, "0" + discriminator) == DiscordAvatarUrl(userId, None, discriminator)
  {
    ParseIntDigits(discriminator);
    ParseIntDigits("0" + discriminator);
    DigitsValueLeadingZero(discriminator);
  }

  lemma {:induction false} DigitsValueLeadingZero(d: string)
    requires AllDigits(d)
    ensures AllDigits("0" + d) && DigitsValue("0" + d) == DigitsValue(d)
    decreases |d|
  {
    if d != [] {
      DigitsValueLeadingZero(d[..|d| - 1]);
      assert ("0" + d)[..|"0" + d| - 1] == "0" + d[..|d| - 1];
    }
  }
}
