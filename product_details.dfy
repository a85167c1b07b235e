/** The product page (client/src/pages/ProductDetailsPage.tsx): the tags and
    tabs looked up in the product-tab data, the tag colours, which body a
    tab shows, whether the product needs a Discord identity, and the
    add-to-cart gate. */
module ProductDetails {
  import opened Wrappers
  import opened Types
  import opened Text
  import opened Cart

  // ---------------------------------------------------------------------
  // Product-tab data

  /** The tags of a package: the listed ones, or none. */
  function ProductTags(data: TabData, id: int): (tags: seq<Tag>)
    ensures id !in data || data[id].tags.None? ==> tags == []
    ensures id in data && data[id].tags.Some? ==> tags == data[id].tags.value
  {
    if id in data then data[id].tags.GetOr([]) else []
  }

  /** The tab shown when a package lists none: the description. */
  const DefaultTab: Tab := Tab("description", "Description", "content", Html("default"), None)

  /** The tabs of a package: the listed ones when there is at least one,
      else the description tab alone; so there is always a tab to show. */
  function ProductTabs(data: TabData, id: int): (tabs: seq<Tab>)
    ensures |tabs| > 0
    ensures id in data && data[id].tabs.Some? && |data[id].tabs.value| > 0 ==> tabs == data[id].tabs.value
    ensures !(id in data && data[id].tabs.Some? && |data[id].tabs.value| > 0) ==> tabs == [DefaultTab]
  {
    if id !in data || data[id].tabs.None? || |data[id].tabs.value| == 0 then [DefaultTab]
    else data[id].tabs.value
  }

  // ---------------------------------------------------------------------
  // Tag colours

  datatype TagStyle = TagStyle(name: string, bg: string, text: string)

  const DefaultBg: string := "#6b7280"

  /** Background and text colour of a bare tag, by its upper-cased name. */
  function NamedColours(upper: string): (string, string)
  {
    if upper == "ESCROW" || upper == "ESCROW PROTECTED" then ("#22c55e", "#fff")
    else if upper == "ESX" then ("#eab308", "#000")
    else if upper == "QBCORE" then ("#dc2626", "#fff")
    else if upper == "QBOX" then ("#d97706", "#fff")
    else if upper == "VRP" then ("#6366f1", "#fff")
    else if upper == "STANDALONE" then ("#8b5cf6", "#fff")
    else (DefaultBg, "#fff")
  }

  /** getTagColor: a styled tag keeps its own colours; a bare tag is
      coloured by its upper-cased name; the name shown is always the tag's
      own, in its original case. */
  function TagColor(t: Tag): (c: TagStyle)
    ensures c.name == TagName(t)
    ensures t.StyledTag? ==> c.bg == t.bg && c.text == t.text
    ensures t.NamedTag? ==> (c.bg, c.text) == NamedColours(ToUpper(t.word))
  {
    match t
    case StyledTag(name, bg, text) => TagStyle(name, bg, text)
    case NamedTag(word) =>
      var (bg, text) := NamedColours(ToUpper(word));
      TagStyle(word, bg, text)
  }

  /** Bare tags are matched without regard to case: two spellings that
      differ only in case get the same colours, while each keeps its own
      spelling as the name. */
  lemma TagColorIgnoresCase(a: string, b: string)
    requires ToUpper(a) == ToUpper(b)
    ensures TagColor(NamedTag(a)).bg == TagColor(NamedTag(b)).bg
    ensures TagColor(NamedTag(a)).text == TagColor(NamedTag(b)).text
    ensures TagColor(NamedTag(a)).name == a && TagColor(NamedTag(b)).name == b
  {
  }

  lemma TagColorExamples()
    ensures TagColor(NamedTag("esx")) == TagStyle("esx", "#eab308", "#000")
    ensures TagColor(NamedTag("Escrow Protected")) == TagStyle("Escrow Protected", "#22c55e", "#fff")
    ensures TagColor(NamedTag("ox")) == TagStyle("ox", DefaultBg, "#fff")
    ensures TagColor(StyledTag("NEW", "#000", "#BAF329")) == TagStyle("NEW", "#000", "#BAF329")
  {
    assert ToUpper("esx") == "ESX";
    assert ToUpper("Escrow Protected") == "ESCROW PROTECTED";
    assert ToUpper("ox") == "OX";
  }

  // ---------------------------------------------------------------------
  // Tab bodies

  /** What a tab shows: a grid of images, or HTML handed to the sanitiser. */
  datatype TabBody = ImageGrid(images: seq<Image>) | HtmlBody(html: string)

  /** renderTabContent: an image tab with a list of images shows them; the
      "default" content shows the loaded product's description; a list of
      fragments is joined with no separator; anything else shows the
      content, or nothing when there is none. */
  function TabContentOf(tab: Tab, product: Option<Package>): (b: TabBody)
    ensures b.ImageGrid? <==> tab.kind == "images" && tab.images.Some?
    ensures b.ImageGrid? ==> b.images == tab.images.value
    ensures !b.ImageGrid? && tab.content == Html("default") && product.Some? ==>
      b == HtmlBody(product.value.description)
    ensures !b.ImageGrid? && tab.content.HtmlParts? ==> b == HtmlBody(Join(tab.content.parts))
    ensures !b.ImageGrid? && tab.content.NoContent? ==> b == HtmlBody("")
    ensures !b.ImageGrid? && tab.content.Html? && !(tab.content.html == "default" && product.Some?) ==>
      b == HtmlBody(tab.content.html)
  {
    if tab.kind == "images" && tab.images.Some? then ImageGrid(tab.images.value)
    else if tab.content == Html("default") && product.Some? then HtmlBody(product.value.description)
    else
      match tab.content
      case HtmlParts(parts) => HtmlBody(Join(parts))
      case Html(html) => HtmlBody(html)
      case NoContent => HtmlBody("")
  }

  /** A package with no tabs of its own shows its description, once loaded. */
  lemma DefaultTabShowsDescription(data: TabData, p: Package)
    requires p.id !in data || data[p.id].tabs.None? || |data[p.id].tabs.value| == 0
    ensures ProductTabs(data, p.id) == [DefaultTab]
    ensures TabContentOf(ProductTabs(data, p.id)[0], Some(p)) == HtmlBody(p.description)
  {
  }

  // ---------------------------------------------------------------------
  // Discord requirement and the add-to-cart gate

  /** requiresDiscord: a product is loaded and its description, lowercased,
      mentions "discord" or "role". */
  predicate RequiresDiscord(product: Option<Package>)
  {
    product.Some? &&
    (Contains(ToLower(product.value.description), "discord") || Contains(ToLower(product.value.description), "role"))
  }

  /** The test as an occurrence at some position of the lowercased text. */
  lemma RequiresDiscordIffOccurs(p: Package)
    ensures RequiresDiscord(Some(p)) <==>
      (exists i :: OccursAt(ToLower(p.description), "discord", i)) ||
      (exists i :: OccursAt(ToLower(p.description), "role", i))
  {
    ContainsIffOccurs(ToLower(p.description), "discord");
    ContainsIffOccurs(ToLower(p.description), "role");
  }

  /** The match ignores case: a description mentioning the word in any
      capitalisation ("Discord", "ROLE") needs a Discord identity. */
  lemma RequiresDiscordAnyCase(p: Package, word: string)
    requires Contains(p.description, word)
    requires ToLower(word) == "discord" || ToLower(word) == "role"
    ensures RequiresDiscord(Some(p))
  {
    ContainsToLower(p.description, word);
  }

  /** isInCart: a product is loaded and some cart line is for it. */
  predicate InCart(product: Option<Package>, items: seq<CartItem>)
  {
    product.Some? && HasPackage(items, product.value.id)
  }

  class ProductDetailsState {
    var showAuthModal: bool
    var authStep: int
    var activeTab: string

    constructor ()
      ensures !showAuthModal && authStep == 0 && activeTab == "description"
    {
      showAuthModal := false;
      authStep := 0;
      activeTab := "description";
    }

    /** The tab strip's change handler: a cleared selection falls back to the description. */
    method SelectTab(value: Option<string>)
      modifies this
      ensures activeTab == (if value.Some? && value.value != "" then value.value else "description")
      ensures showAuthModal == old(showAuthModal) && authStep == old(authStep)
    {
      activeTab := if value.Some? && value.value != "" then value.value else "description";
    }

    /** handleAddToCart: nothing happens without a product or when it is
        already in the cart; without a CFX identity the dialog opens at the
        CFX step; when the product needs Discord and there is no Discord
        identity it opens at the Discord step; otherwise one unit is added. */
    method HandleAddToCart(product: Option<Package>, auth: AuthState, cart: CartStore)
      modifies this, cart, cart.storage
      ensures var adds := !InCart(product, old(cart.items)) && product.Some? && auth.cfx.Some? &&
                          !(RequiresDiscord(product) && auth.discord.None?);
        (adds ==>
          cart.items == AddLine(old(cart.items), product.value, 1) &&
          cart.storage.entries == old(cart.storage.entries)[Storage.CartKey := Storage.CartItems(cart.items)] &&
          InCart(product, cart.items) &&
          showAuthModal == old(showAuthModal) && authStep == old(authStep)) &&
        (!adds ==>
          cart.items == old(cart.items) && cart.storage.entries == old(cart.storage.entries))
      ensures product.None? || InCart(product, old(cart.items)) ==>
        showAuthModal == old(showAuthModal) && authStep == old(authStep)
      ensures product.Some? && !InCart(product, old(cart.items)) && auth.cfx.None? ==>
        showAuthModal && authStep == 0
      ensures product.Some? && !InCart(product, old(cart.items)) && auth.cfx.Some? &&
              RequiresDiscord(product) && auth.discord.None? ==>
        showAuthModal && authStep == 1
      ensures activeTab == old(activeTab)
    {
      if product.None? || HasPackage(cart.items, product.value.id) {
        return;
      }
      if auth.cfx.None? {
        authStep := 0;
        showAuthModal := true;
        return;
      }
      if RequiresDiscord(product) && auth.discord.None? {
        authStep := 1;
        showAuthModal := true;
        return;
      }
      cart.AddItem(product.value, 1);
      AddLineContains(old(cart.items), product.value, 1);
    }
  }
}
