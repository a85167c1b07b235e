/** Entity shapes shared by the pages and contexts (client/src/types/index.ts)
    and the shapes of the product-tab data file (data/productTabs.json). */
module Types {
  import opened Wrappers

  /** A commerce-platform package. Prices are integer cents; `discount` is the
      platform's discount figure. Image, currency, sale data and dates play
      no part in the modelled behaviour. */
  datatype Package = Package(id: int, name: string, description: string, totalPrice: int, discount: int)

  datatype CartItem = CartItem(pkg: Package, quantity: int)

  datatype Provider = Discord | Cfx

  datatype User = User(id: string, username: string, avatar: Option<string>, provider: Provider)

  /** The two independent identity slots. */
  datatype AuthState = AuthState(discord: Option<User>, cfx: Option<User>)

  // Product-tab data, keyed by package id

  /** A tag is either a bare name or a name with explicit colours. */
  datatype Tag = NamedTag(word: string) | StyledTag(name: string, bg: string, text: string)

  datatype Image = Image(url: string, alt: string)

  /** A tab's `content`: absent, one HTML string, or a list of HTML fragments. */
  datatype TabContent = NoContent | Html(html: string) | HtmlParts(parts: seq<string>)

  datatype Tab = Tab(id: string, name: string, kind: string, content: TabContent, images: Option<seq<Image>>)

  /** One entry of the product-tab file. `None` stands for a missing (or
      non-array) `tags` / `tabs` member. */
  datatype ProductData = ProductData(tags: Option<seq<Tag>>, tabs: Option<seq<Tab>>)

  type TabData = map<int, ProductData>

  /** The name shown for a tag. */
  function TagName(t: Tag): string
  {
    match t
    case NamedTag(word) => word
    case StyledTag(name, _, _) => name
  }
}
