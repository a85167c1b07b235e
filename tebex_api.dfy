/** The browser's view of the proxy API (client/src/services/api.ts): the
    attach payload, the outcomes of the calls the checkout flows make, the
    error message an attach failure carries, and a trace of calls made. */
module TebexApi {
  import opened Wrappers
  import opened JsonData

  datatype AuthLink = AuthLink(name: string, url: string)

  /** `{package_id, quantity}` plus `variable_data.discord_id` when present. */
  datatype AttachPayload = AttachPayload(packageId: int, quantity: int, discordId: Option<string>)

  /** The proxy's answer to one attach call; a rejection carries the response
      body, `None` when it is not JSON. */
  datatype AttachReply = Attached | AttachRejected(body: Option<Json>)

  /** The answer to a basket fetch: `links.checkout` when the fetch succeeded. */
  datatype BasketReply = BasketFailed | BasketFetched(checkout: Option<string>)

  /** One call made to the proxy. */
  datatype ApiCall =
    | CreateBasket(completeUrl: string, cancelUrl: string)
    | GetBasketAuthUrl(ident: string, returnUrl: string)
    | AddPackage(ident: string, payload: AttachPayload)
    | GetBasket(ident: string)

  /** The first link is usable: present with a non-empty url. */
  predicate HasAuthUrl(links: seq<AuthLink>)
  {
    |links| > 0 && links[0].url != ""
  }

  const CreateBasketFailed: string := "Failed to create basket"
  const AuthUrlFailed: string := "Failed to get auth URL"
  const BasketFetchFailed: string := "Failed to get basket"
  const AttachFailedDefault: string := "Failed to add package"

  /** The text of a JSON string value; other values count as absent. */
  function StringOf(j: Option<Json>): string
  {
    if j.Some? && j.value.JStr? then j.value.s else ""
  }

  /** `details.detail` of a response body. */
  function DetailOf(data: Json): Option<Json>
  {
    if Member(data, "details").Some? then Member(Member(data, "details").value, "detail") else None
  }

  /** The TypeError a `null` error body raises when its `details` member is
      read, as V8 words it. */
  const NullDetailsError: string := "Cannot read properties of null (reading 'details')"

  /** The message of the error addPackageToBasket throws:
      `details.detail || error || "Failed to add package"`, where an
      unparsable body reads as `{}` and a `null` body throws on the first
      member access. */
  function AttachErrorMessage(body: Option<Json>): (m: string)
    ensures m != ""
    ensures body.None? ==> m == AttachFailedDefault
    ensures body == Some(JNull) ==> m == NullDetailsError
    ensures body.Some? && body.value != JNull && StringOf(DetailOf(body.value)) != "" ==> m == StringOf(DetailOf(body.value))
    ensures body.Some? && body.value != JNull && StringOf(DetailOf(body.value)) == "" && StringOf(Member(body.value, "error")) != "" ==>
              m == StringOf(Member(body.value, "error"))
    ensures m == AttachFailedDefault || m == NullDetailsError ||
            (body.Some? && (m == StringOf(DetailOf(body.value)) || m == StringOf(Member(body.value, "error"))))
  {
    var data := body.GetOr(JObj(map[]));
    if data.JNull? then NullDetailsError
    else
      var detail := StringOf(DetailOf(data));
      var error := StringOf(Member(data, "error"));
      if detail != "" then detail else if error != "" then error else AttachFailedDefault
  }
}
