/** The catalogue page's own state (client/src/pages/ProductsPage.tsx):
    the category choice feeding the filters, the page number and its clamp,
    and the add-to-cart gate that asks for both identities first. */
module ProductsPage {
  import opened Wrappers
  import opened Types
  import opened Cart
  import opened CategoryTree
  import opened CatalogView
  import ProductDetails

  /** The category selector: everything, or one category id. */
  datatype Choice = AllCategories | OneCategory(id: int)

  /** The packages of the chosen view, before filtering. */
  function ViewPackages(tree: Tree, choice: Choice): seq<Package>
  {
    match choice
    case AllCategories => GroupsOf(tree, tree.top)
    case OneCategory(id) => CategoryView(tree, id)
  }

  /** isInCart: some cart line is for the package. */
  predicate IsInCart(items: seq<CartItem>, id: int)
  {
    HasPackage(items, id)
  }

  /** Colours of a tag badge on a catalogue card. */
  datatype Colours = Colours(bg: string, text: string)

  const NeutralColours: Colours := Colours("#2a2a2a", "#FFFFFF")

  /** getTagColor of the catalogue: a styled tag with both colours set keeps
      them; every other tag, bare names included, gets the neutral pair. */
  function CardTagColours(t: Tag): (c: Colours)
    ensures t.StyledTag? && t.bg != "" && t.text != "" ==> c == Colours(t.bg, t.text)
    ensures !(t.StyledTag? && t.bg != "" && t.text != "") ==> c == NeutralColours
  {
    match t
    case StyledTag(_, bg, text) => if bg != "" && text != "" then Colours(bg, text) else NeutralColours
    case NamedTag(_) => NeutralColours
  }

  /** The catalogue card and the product page colour a fully styled tag
      alike; a bare tag is coloured by name only on the product page. */
  lemma CardAndPageColours(t: Tag)
    ensures t.StyledTag? && t.bg != "" && t.text != "" ==>
      CardTagColours(t) == Colours(ProductDetails.TagColor(t).bg, ProductDetails.TagColor(t).text)
    ensures t.NamedTag? ==> CardTagColours(t) == NeutralColours
  {
  }

  class ProductsPageState {
    var currentPage: int
    var showAuthModal: bool
    var authStep: int
    var pendingPackage: Option<Package>

    constructor ()
      ensures currentPage == 1 && !showAuthModal && authStep == 0 && pendingPackage.None?
    {
      currentPage := 1;
      showAuthModal := false;
      authStep := 0;
      pendingPackage := None;
    }

    /** The effect run when the page count changes. */
    method ClampPage(totalPages: nat)
      modifies this
      ensures currentPage == Clamp(old(currentPage), totalPages)
      ensures showAuthModal == old(showAuthModal) && authStep == old(authStep) && pendingPackage == old(pendingPackage)
    {
      if currentPage > totalPages && totalPages > 0 {
        currentPage := totalPages;
      }
    }

    /** handleAddToCart: with both identities, add one unit; otherwise keep
        the package aside and open the sign-in dialog at the first missing
        step (CFX first). */
    method HandleAddToCart(pkg: Package, auth: AuthState, cart: CartStore)
      modifies this, cart, cart.storage
      ensures auth.cfx.Some? && auth.discord.Some? ==>
        cart.items == AddLine(old(cart.items), pkg, 1) &&
        cart.storage.entries == old(cart.storage.entries)[Storage.CartKey := Storage.CartItems(cart.items)] &&
        IsInCart(cart.items, pkg.id) &&
        showAuthModal == old(showAuthModal) && authStep == old(authStep) && pendingPackage == old(pendingPackage)
      ensures !(auth.cfx.Some? && auth.discord.Some?) ==>
        cart.items == old(cart.items) && cart.storage.entries == old(cart.storage.entries) &&
        pendingPackage == Some(pkg) && showAuthModal &&
        authStep == (if auth.cfx.None? then 0 else 1)
      ensures currentPage == old(currentPage)
    {
      if auth.cfx.None? || auth.discord.None? {
        pendingPackage := Some(pkg);
        authStep := if auth.cfx.None? then 0 else 1;
        showAuthModal := true;
        return;
      }
      cart.AddItem(pkg, 1);
      AddLineContains(old(cart.items), pkg, 1);
    }
  }

  /** The page shown after the clamp is a real page whenever there is one,
      so it is never empty while the filtered list is not. */
  lemma ClampedPageNotEmpty(ps: seq<Package>, current: int)
    requires current >= 1 && |ps| > 0
    ensures 0 < |Page(ps, Clamp(current, TotalPages(|ps|)))| <= PageSize
  {
    PageContents(ps, Clamp(current, TotalPages(|ps|)));
  }
}
