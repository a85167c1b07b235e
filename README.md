# ULOG Shop storefront — a verified model

This project models the logic of a small game-server storefront. It has two halves.

The browser half:
- a shopping cart persisted in `localStorage`;
- the catalogue page with its category tree, filters, price sort and paging;
- the product and home pages' helpers;
- a two-slot identity record (Discord and CFX.re) with its login return pages;
- the two checkout paths, which create a basket on the commerce platform and attach the cart's lines to it.

The server half is an Express proxy:
- its Joi input validators;
- its reviews store on MySQL;
- the decision logic of each route.

Modules follow the source's concerns rather than its files:
- ProductsPage.tsx is split over `CategoryTree` (the category loops and the "all" view), `CatalogView` (tags, filters, sort, paging) and `ProductsPage` (the page state);
- DiscordCallback.tsx and CFXCallback.tsx share `AuthCallbacks`, with the avatar addresses in `Avatars`;
- the two `formatTimeAgo` functions of HomePage.tsx and ProductDetailsPage.tsx both live in `TimeAgo`;
- the attach loops of CartDrawer.tsx and CheckoutAuthComplete.tsx share `Checkout`, and each page's state has its own module (`CartDrawer`, `CheckoutAuthComplete`).

Shared pieces:
- `Wrappers`: `Option` and `Result`;
- `Text`: ASCII case mapping, substring search, decimal text;
- `Seqs`: `filter` and `slice`;
- `Sorting`: a stable sort by an integer key, as `Array.prototype.sort` with a numeric comparator;
- `JsonData`: JSON values and JavaScript truthiness;
- `Types`: the record shapes;
- `Storage`: `localStorage` as a class over a `map`.

State that the source updates in place is a class whose methods carry `modifies` clauses:
- the cart;
- the identity store;
- `localStorage`;
- the page states;
- the database pool.

Those methods state their whole new state in terms of specification functions. Lemmas about those functions carry the promises: uniqueness of cart lines, totals, permutation and sortedness, page coverage, and the orders of the checkout's attach calls.

Conventions used throughout:
- **Network calls** are inputs: each answer is an `Option`, a `Result` or a reply datatype. The models return the trace of calls they make.
- **Prices** are integer cents.
- **Times** are integer milliseconds elapsed.

## Model

| member | source | states |
|---|---|---|
| Cart.Find | client/src/contexts/CartContext.tsx:24 | definition of `prev.find` on the package id: the first line for that package, or none; its meaning is proved in `Cart.FindSpec` |
| Cart.AddLine | client/src/contexts/CartContext.tsx:22-29 | definition of `addItem`'s update: when some line is for the package, every such line's quantity grows by `quantity`; otherwise one line is appended; see `Cart.AddLineExisting`, `Cart.AddLineNew`, `Cart.AddLineUnique`, `Cart.AddLineTotals` |
| Cart.RemoveLine | client/src/contexts/CartContext.tsx:31-33 | definition of `removeItem`'s update: the lines for other packages, in order; see `Cart.RemoveLineKeeps`, `Cart.RemoveLineAt` |
| Cart.SetQuantity | client/src/contexts/CartContext.tsx:39-41 | definition of the positive branch of `updateQuantity`: every line for the package takes the new quantity; see `Cart.SetQuantityAt` |
| Cart.UpdateLine | client/src/contexts/CartContext.tsx:34-42 | definition of `updateQuantity`: a quantity of 0 or less is `removeItem`, otherwise `SetQuantity`; see `Cart.UpdateLineAbsent`, `Cart.UpdateLineAt` |
| Cart.TotalItems | client/src/contexts/CartContext.tsx:47 | definition of `totalItems`: the sum of the quantities; see `Cart.TotalsAppend`, `Cart.TotalsReplace` |
| Cart.TotalPrice | client/src/contexts/CartContext.tsx:46 | definition of `totalPrice`: the sum of unit price times quantity, in cents; see `Cart.TotalsAppend`, `Cart.TotalsReplace` |
| Cart.FindSpec | client/src/contexts/CartContext.tsx:24 | `find` succeeds exactly when some line is for the package, and then returns the first such line |
| Cart.AddLineExisting | client/src/contexts/CartContext.tsx:24-27 | adding a package already in a cart with distinct lines raises that line's quantity by `quantity` and changes nothing else |
| Cart.AddLineNew | client/src/contexts/CartContext.tsx:22-28 | adding a package not in the cart appends exactly one line, at the end, with the given quantity |
| Cart.AddLineContains | client/src/contexts/CartContext.tsx:22-29 | after `addItem` the package is in the cart |
| Cart.AddLineUnique | client/src/contexts/CartContext.tsx:22-29 | `addItem` keeps package ids distinct; the cart grows by one line only for a new package |
| Cart.TotalsAppend | client/src/contexts/CartContext.tsx:46-47 | both totals are additive over concatenation of line lists |
| Cart.TotalsReplace | client/src/contexts/CartContext.tsx:46-47 | replacing one line changes each total by that line's difference |
| Cart.AddLineTotals | client/src/contexts/CartContext.tsx:22-29 | `addItem` raises the item total by `quantity` and the price total by `quantity` units of the package's price |
| Cart.AddLineTotalsAt | client/src/contexts/CartContext.tsx:24-27 | raising an existing line adds `quantity` items at that line's price |
| Cart.TotalsReplaceQuantity | client/src/contexts/CartContext.tsx:46-47 | raising one line's quantity by d raises the item total by d and the price total by d units of that line's price |
| Cart.RemoveLineKeeps | client/src/contexts/CartContext.tsx:31-33 | `removeItem` keeps every other line with its multiplicity, in order (a subsequence), and no line for the removed id |
| Cart.RemoveLineAbsent | client/src/contexts/CartContext.tsx:31-33 | removing an absent id changes nothing |
| Cart.RemoveLineAt | client/src/contexts/CartContext.tsx:31-33 | in a cart with distinct lines, removing line k's package deletes exactly position k |
| Cart.RemoveLineTotals | client/src/contexts/CartContext.tsx:31-33 | removing a package's line lowers both totals by exactly that line |
| Cart.RemoveLineUnique | client/src/contexts/CartContext.tsx:31-33 | `removeItem` keeps package ids distinct |
| Cart.RemoveLineMember | client/src/contexts/CartContext.tsx:31-33 | every line `removeItem` keeps was in the cart |
| Cart.SetQuantityAt | client/src/contexts/CartContext.tsx:39-41 | a positive quantity overwrites exactly the matching line's quantity |
| Cart.UpdateLineAbsent | client/src/contexts/CartContext.tsx:34-42 | `updateQuantity` on an absent id changes nothing, whatever the quantity |
| Cart.UpdateLineAt | client/src/contexts/CartContext.tsx:34-42 | `updateQuantity` keeps ids distinct; a quantity of 0 or less drops the line from the totals, a positive one replaces its quantity in them |
| Cart.TotalsExample | client/src/contexts/CartContext.tsx:46-47 | example (one instance of the lemmas above): 2 × 10.00 plus 1 × 5.00 totals 25.00 over 3 items |
| Cart.CartStore.constructor | client/src/contexts/CartContext.tsx:17-21 | the saved `"cart"`, or the empty list; the store then mirrors it |
| Cart.CartStore.Persist | client/src/contexts/CartContext.tsx:21 | writes the items to `"cart"` and changes no other key |
| Cart.CartStore.AddItem | client/src/contexts/CartContext.tsx:22-30 | the items become `AddLine` of the old items (quantity defaults to 1); the stored cart mirrors them |
| Cart.CartStore.RemoveItem | client/src/contexts/CartContext.tsx:31-33 | the items become `RemoveLine` of the old items; the stored cart mirrors them |
| Cart.CartStore.UpdateQuantity | client/src/contexts/CartContext.tsx:34-42 | a quantity of 0 or less is exactly `removeItem`; otherwise the matching line takes the quantity; the stored cart mirrors the result |
| Cart.CartStore.ClearCart | client/src/contexts/CartContext.tsx:43-45 | the items and the stored cart become empty |
| Auth.IsAuthenticated | client/src/contexts/AuthContext.tsx:89 | definition of `isAuthenticated`: at least one of the two slots holds an identity; used by the logout methods' contracts |
| Auth.CfxUser | client/src/contexts/AuthContext.tsx:76 | a CFX identity uses the username as its id, with provider "cfx" and the given avatar |
| Auth.AuthStore.constructor | client/src/contexts/AuthContext.tsx:33-40 | the saved `"authState"`, or both slots empty; the store then mirrors it |
| Auth.AuthStore.Persist | client/src/contexts/AuthContext.tsx:38-40 | writes the record to `"authState"` and changes no other key |
| Auth.AuthStore.SetCfxUser | client/src/contexts/AuthContext.tsx:75-78 | fills only the CFX slot with `{id: u, username: u, avatar, provider: "cfx"}`; the user is then authenticated |
| Auth.AuthStore.SetDiscordUser | client/src/contexts/AuthContext.tsx:79-81 | replaces only the Discord slot |
| Auth.AuthStore.LogoutDiscord | client/src/contexts/AuthContext.tsx:82-85 | clears only the Discord slot and removes `"discord_token"`; still authenticated iff a CFX identity remains |
| Auth.AuthStore.LogoutCfx | client/src/contexts/AuthContext.tsx:86-88 | clears only the CFX slot and removes no key; still authenticated iff a Discord identity remains |
| Auth.AuthStore.LoginDiscord | client/src/contexts/AuthContext.tsx:43-49 | stores the return path, the nonce and provider "discord", then redirects with that nonce and the fixed scope |
| Auth.AuthStore.LoginCfx | client/src/contexts/AuthContext.tsx:50-73 | remembers the basket and return path only when a basket was created; redirects iff the first auth link has a URL, otherwise alerts |
| AuthCallbacks.ReturnPath | client/src/pages/auth/DiscordCallback.tsx:52 | definition of `getItem("auth_return_url") || "/"`, shared by both callback pages (CFXCallback.tsx:33); used by both `HandleCallback` contracts |
| AuthCallbacks.StateMatches | client/src/pages/auth/DiscordCallback.tsx:19-22 | definition of the state check: code and state present and non-empty, and state equal to the saved `oauth_state`; used by `DiscordCallbackPage.HandleCallback`'s contract |
| AuthCallbacks.DiscordUser | client/src/pages/auth/DiscordCallback.tsx:45-49 | the identity keeps the profile's id and username, has provider "discord" and always has an avatar address |
| AuthCallbacks.DiscordCallbackPage.constructor | client/src/pages/auth/DiscordCallback.tsx:10-11 | unprocessed, no error |
| AuthCallbacks.DiscordCallbackPage.HandleCallback | client/src/pages/auth/DiscordCallback.tsx:14-61 | runs at most once; a missing code or state, or a state other than the saved nonce, rejects with no call and no storage change; otherwise the nonce is removed before the exchange; success sets the Discord slot, stores the token, and consumes the return path (default "/"); a failure leaves the slot alone |
| AuthCallbacks.CfxCallbackPage.constructor | client/src/pages/auth/CFXCallback.tsx:10-11 | unprocessed, no error |
| AuthCallbacks.CfxCallbackPage.HandleCallback | client/src/pages/auth/CFXCallback.tsx:14-45 | runs at most once; no remembered basket means an error with no fetch; the CFX slot is set only when the basket has both an account id and a name, with the forum avatar; success removes the basket key and consumes the return path; a failure keeps the basket key |
| Avatars.CfxAvatarUrl | client/src/pages/HomePage.tsx:66-69 | definition of the forum avatar address from the lowercased name and the account id (also CFXCallback.tsx:30); see `Avatars.CfxAvatarUrlIgnoresCase`, `Avatars.CfxAvatarUrlDistinguishesIds` |
| Avatars.ParseInt | client/src/pages/auth/DiscordCallback.tsx:48 | definition of `parseInt` on the discriminator: an optional `-` or `+`, then the value of the leading digits, none when there are none; see `Avatars.ParseIntDigits`, `Avatars.ParseIntRoundTrip` |
| Avatars.EmbedIndexText | client/src/pages/auth/DiscordCallback.tsx:48 | definition of `${parseInt(d) % 5}`: "NaN" when nothing parses; see `Avatars.EmbedIndexDigits` |
| Avatars.DiscordAvatarUrl | client/src/pages/auth/DiscordCallback.tsx:48 | definition of the Discord avatar address: the profile's own image when it has a hash, the default image otherwise; see `Avatars.DefaultAvatarInRange`, `Avatars.DefaultAvatarIgnoresLeadingZeros` |
| Avatars.CfxAvatarUrlIgnoresCase | client/src/pages/HomePage.tsx:66-69 | the forum avatar depends on the name only through its lowercase form |
| Avatars.CfxAvatarUrlDistinguishesIds | client/src/pages/auth/CFXCallback.tsx:30 | for one name, equal addresses mean equal account ids |
| Avatars.LeadingDigits | client/src/pages/auth/DiscordCallback.tsx:48 | the longest digit prefix that `parseInt` reads |
| Avatars.JsRem | client/src/pages/auth/DiscordCallback.tsx:48 | JavaScript's `%`: the sign follows the dividend, and the magnitude is Euclidean on the absolute value |
| Avatars.LeadingDigitsAll | client/src/pages/auth/DiscordCallback.tsx:48 | an all-digit discriminator is read whole |
| Avatars.ParseIntDigits | client/src/pages/auth/DiscordCallback.tsx:48 | `parseInt` of a digit string is its decimal value |
| Avatars.ParseIntRoundTrip | client/src/pages/auth/DiscordCallback.tsx:48 | parsing a rendered number gives the number back |
| Avatars.DefaultAvatarInRange | client/src/pages/auth/DiscordCallback.tsx:48 | without an avatar hash a numeric discriminator selects default image `value % 5`, one of 0..4 |
| Avatars.EmbedIndexDigits | client/src/pages/auth/DiscordCallback.tsx:48 | a decimal discriminator names the image numbered by its value modulo 5 |
| Avatars.DefaultAvatarIgnoresLeadingZeros | client/src/pages/auth/DiscordCallback.tsx:48 | padding zeros do not change the default image |
| Avatars.DigitsValueLeadingZero | client/src/pages/auth/DiscordCallback.tsx:48 | a leading zero does not change a digit string's value |
| TebexApi.AttachErrorMessage | client/src/services/api.ts:26-29 | the thrown message is `details.detail`, else `error`, else "Failed to add package"; a `null` body throws the TypeError of reading `details` of null; never empty |
| Checkout.AttachAll | client/src/components/CartDrawer.tsx:32-47 | definition of the attach run shared by both checkout paths (also CheckoutAuthComplete.tsx:37-58): one call per line in order, stopping at the first rejection the error policy does not skip; see `Checkout.AttachLoop`, `Checkout.CompleteRunCalls`, `Checkout.StoppedRunCalls` |
| Checkout.DiscordIdOf | client/src/components/CartDrawer.tsx:37-41 | `discord_id` is sent iff a Discord user with a non-empty id is present, and it is that id |
| Checkout.Resume | client/src/pages/CheckoutAuthComplete.tsx:49-57 | "already in your basket" skips the item; otherwise a message mentioning "Discord" becomes the fixed Discord-login message; any other message aborts unchanged |
| Checkout.AttachLoop | client/src/components/CartDrawer.tsx:32-47 | the loop makes exactly the calls, and stops with exactly the error, given by `AttachAll` |
| Checkout.CompleteRunCalls | client/src/components/CartDrawer.tsx:32-47 | a run that is not stopped attaches every line exactly once, in cart order, with `{package_id, quantity, discord_id}` |
| Checkout.StoppedRunCalls | client/src/pages/CheckoutAuthComplete.tsx:37-58 | a stopped run stops at the first rejection its policy does not tolerate, with the policy's message; it makes exactly k+1 calls, in order, and none after |
| Checkout.StrictCompletesIffAllAttached | client/src/components/CartDrawer.tsx:42-46 | the cart drawer has no skip rule: its run completes iff every attach call is accepted |
| Checkout.AllAttachedAnyPolicy | client/src/pages/CheckoutAuthComplete.tsx:37-58 | when every call is accepted, the error policy plays no part |
| Checkout.ResumeSkipsDuplicates | client/src/pages/CheckoutAuthComplete.tsx:49-52 | a first line already in the basket is skipped, and the run continues with the rest |
| CartDrawer.CartDrawerView.constructor | client/src/components/CartDrawer.tsx:17 | not processing |
| CartDrawer.CartDrawerView.HandleCheckout | client/src/components/CartDrawer.tsx:18-61 | the basket is created first; ident and cart snapshot are stored before the auth-link request; a usable auth link redirects with no attach and no clear; otherwise the lines are attached in order; an error aborts without clearing; a missing checkout link aborts; success clears the cart and leaves the stored keys; processing ends only on error |
| CheckoutAuthComplete.CheckoutAuthCompletePage.constructor | client/src/pages/CheckoutAuthComplete.tsx:8-9 | status processing with the initial message |
| CheckoutAuthComplete.CheckoutAuthCompletePage.HandleAuthComplete | client/src/pages/CheckoutAuthComplete.tsx:15-84 | a set processing flag means nothing happens; otherwise the flag is set first; a missing ident or missing pending items fail with no call; pending items are replayed in order with the saved Discord id and the resume policy; success removes exactly the three keys; an error removes nothing |
| CheckoutAuthComplete.CheckoutAuthCompletePage.AfterErrorDelay | client/src/pages/CheckoutAuthComplete.tsx:77-80 | the delayed step removes only the processing flag and goes to /products |
| CategoryTree.HasParent | client/src/pages/ProductsPage.tsx:52 | definition of `cat.parent && cat.parent.id`: a parent with a non-zero id |
| CategoryTree.LastById | client/src/pages/ProductsPage.tsx:46-49 | definition of the map after the first loop: each id bound to the last category listed with it; see `CategoryTree.LastByIdKeys`, `CategoryTree.LastByIdAt` |
| CategoryTree.PackagesOf | client/src/pages/ProductsPage.tsx:95-97 | definition of `cat.packages \|\| []` for the category stored under an id |
| CategoryTree.CategoryView | client/src/pages/ProductsPage.tsx:100-102 | definition of the one-category view: the packages of a top-level category or direct subcategory with that id, nothing for any other id; see `CategoryTree.AllViewMembers` |
| CategoryTree.BuildTree | client/src/pages/ProductsPage.tsx:45-61 | the two loops: the map is the last category per id; the top level is the parentless categories in list order; each id's children are the categories naming it as parent, in list order |
| CategoryTree.IndexCategories | client/src/pages/ProductsPage.tsx:46-49 | the first loop: the map is the last category per id, its keys are exactly the listed ids, and every id starts with no children |
| CategoryTree.LinkCategories | client/src/pages/ProductsPage.tsx:50-61 | the second loop: the top level is the parentless categories in list order, and each listed id's children are the categories naming it as parent, in list order |
| CategoryTree.LastByIdKeys | client/src/pages/ProductsPage.tsx:46-49 | the map holds exactly the listed ids |
| CategoryTree.LastByIdAt | client/src/pages/ProductsPage.tsx:46-49 | an id is bound to the last category listed with it |
| CategoryTree.TopLevelMembers | client/src/pages/ProductsPage.tsx:58-60 | an id is top-level iff some category with it has no (or a zero) parent id |
| CategoryTree.ChildMembers | client/src/pages/ProductsPage.tsx:52-57 | an id is a child of p iff some category with it names p as parent and p is listed |
| CategoryTree.Placement | client/src/pages/ProductsPage.tsx:45-61 | with distinct ids: a parentless category is top-level and nobody's child; one with a listed parent is a child of that parent only; one whose parent is absent is dropped |
| CategoryTree.GatherAll | client/src/pages/ProductsPage.tsx:93-99 | the "all" loop concatenates each top category's packages, then its subcategories' packages |
| CategoryTree.AppendGroup | client/src/pages/ProductsPage.tsx:94-98 | one pass of the outer loop appends a top category's packages, then each subcategory's packages |
| CategoryTree.PackagesOfIdsAppend | client/src/pages/ProductsPage.tsx:93-99 | gathered packages are additive over concatenated id lists |
| CategoryTree.PackagesOfGroupIds | client/src/pages/ProductsPage.tsx:94-98 | gathering a top category's group of ids gives that category's packages followed by its subcategories' |
| CategoryTree.GroupsAreViewOrder | client/src/pages/ProductsPage.tsx:93-99 | the "all" view is the concatenation over the offered category order |
| CategoryTree.PackagesOfIdsMembers | client/src/pages/ProductsPage.tsx:93-99 | a package is gathered iff it belongs to one of the listed categories |
| CategoryTree.AllViewMembers | client/src/pages/ProductsPage.tsx:93-103 | a package is in the "all" view iff it is in the view of some offered category |
| CatalogView.MatchesSearch | client/src/pages/ProductsPage.tsx:104-107 | definition of the search test: the lowercased query occurs in the lowercased name or description |
| CatalogView.HasAllTags | client/src/pages/ProductsPage.tsx:108-118 | definition of the tag test: the package has tag data, and it names every selected tag |
| CatalogView.IsFree | client/src/pages/ProductsPage.tsx:119-121 | definition of the free test: a total price of zero |
| CatalogView.IsDiscounted | client/src/pages/ProductsPage.tsx:122-124 | definition of the discount test: a positive discount |
| CatalogView.Filtered | client/src/pages/ProductsPage.tsx:104-124 | definition of the four filter stages in the page's order; see `CatalogView.FilteredIsFilter` |
| CatalogView.SortStage | client/src/pages/ProductsPage.tsx:125-131 | definition of the price sort: unchanged, or a stable sort by price or by negated price; see `CatalogView.DisplayedOrder` |
| CatalogView.Displayed | client/src/pages/ProductsPage.tsx:104-132 | definition of `displayedPackages` after the view is chosen: the filters, then the sort; see `CatalogView.DisplayedCounts`, `CatalogView.DisplayedOrder` |
| CatalogView.Page | client/src/pages/ProductsPage.tsx:135-139 | definition of `paginatedPackages`: `slice((p-1)·10, (p-1)·10 + 10)` with JavaScript's slice bounds; see `CatalogView.PageContents` |
| CatalogView.Pages | client/src/pages/ProductsPage.tsx:135-141 | definition of the first k pages concatenated; see `CatalogView.PagesPrefix`, `CatalogView.PagesCoverAll` |
| CatalogView.Elems | client/src/pages/ProductsPage.tsx:71-77 | the set of a list's names |
| CatalogView.InsertSortedSpec | client/src/pages/ProductsPage.tsx:77-81 | insertion keeps the list strictly sorted and adds exactly the new name |
| CatalogView.AddNames | client/src/pages/ProductsPage.tsx:75-78 | the inner loop adds exactly one entry's tag names to the set |
| CatalogView.CollectTags | client/src/pages/ProductsPage.tsx:71-80 | the first loop collects exactly the tag names of all entries |
| CatalogView.AllTags | client/src/pages/ProductsPage.tsx:70-82 | exactly the tag names (strings or tag objects' names) of all entries, sorted, with no duplicates |
| CatalogView.FilterFilter | client/src/pages/ProductsPage.tsx:104-124 | two filters in a row are one filter by both tests |
| CatalogView.StageAfterFilter | client/src/pages/ProductsPage.tsx:108-124 | a switchable stage after a filter is again a filter |
| CatalogView.FilteredIsFilter | client/src/pages/ProductsPage.tsx:104-124 | the four stages keep, in order, exactly the packages passing every active filter (search, tags, free, discounted) |
| CatalogView.DisplayedCounts | client/src/pages/ProductsPage.tsx:104-131 | the displayed list holds each passing package as often as the view does, and no other |
| CatalogView.DisplayedOrder | client/src/pages/ProductsPage.tsx:125-131 | "none" keeps view order; "asc" gives non-decreasing prices; "desc" gives non-increasing prices; equal prices keep their order |
| CatalogView.TotalPages | client/src/pages/ProductsPage.tsx:141 | `ceil(n / 10)`: enough pages for n, no spare page, zero only for no packages |
| CatalogView.Clamp | client/src/pages/ProductsPage.tsx:143-147 | a page past the end moves to the last page; otherwise it is left alone |
| CatalogView.ClampIdempotent | client/src/pages/ProductsPage.tsx:143-147 | clamping twice equals clamping once |
| CatalogView.PageContents | client/src/pages/ProductsPage.tsx:135-139 | page p holds elements `[(p-1)·10, p·10)` clipped to the list; pages past the end are empty |
| CatalogView.PagesPrefix | client/src/pages/ProductsPage.tsx:135-141 | the first k pages form the list's prefix of length `min(10k, n)` |
| CatalogView.PagesCoverAll | client/src/pages/ProductsPage.tsx:135-141 | pages 1..totalPages, concatenated, are exactly the displayed list |
| ProductsPage.ViewPackages | client/src/pages/ProductsPage.tsx:93-103 | definition of the chosen view before filtering: the "all" gathering or one category's packages; see `CategoryTree.GroupsAreViewOrder`, `CategoryTree.AllViewMembers` |
| ProductsPage.IsInCart | client/src/pages/ProductsPage.tsx:160-162 | definition of `isInCart`: some cart line is for the package |
| ProductsPage.CardTagColours | client/src/pages/ProductsPage.tsx:193-198 | a tag object with both colours keeps them; anything else is neutral `#2a2a2a`/`#FFFFFF` |
| ProductsPage.CardAndPageColours | client/src/pages/ProductsPage.tsx:193-198 | the card and the product page agree on fully styled tags; the card greys every bare tag |
| ProductsPage.ProductsPageState.constructor | client/src/pages/ProductsPage.tsx:29-32 | page 1, dialog closed at step 0, nothing pending |
| ProductsPage.ProductsPageState.ClampPage | client/src/pages/ProductsPage.tsx:143-147 | the current page becomes its clamp; nothing else changes |
| ProductsPage.ProductsPageState.HandleAddToCart | client/src/pages/ProductsPage.tsx:149-158 | with both identities, one unit is added; otherwise the package is pending and the dialog opens at step 0 without CFX, else at step 1; the cart is unchanged |
| ProductsPage.ClampedPageNotEmpty | client/src/pages/ProductsPage.tsx:135-147 | after the clamp, a non-empty list always shows a page of 1 to 10 packages |
| TimeAgo.Label | client/src/pages/ProductDetailsPage.tsx:95-107 | definition of the template strings: the page's "just now" text, or the count and its unit followed by " ago"; see `TimeAgo.LabelShape`, `TimeAgo.LabelInjective` |
| TimeAgo.DetailTimeAgo | client/src/pages/ProductDetailsPage.tsx:92-107 | definition of the product page's `formatTimeAgo`: the label of its bucket; see `TimeAgo.DetailAge`, `TimeAgo.LabelInjective` |
| TimeAgo.HomeTimeAgo | client/src/pages/HomePage.tsx:53-64 | definition of the home page's `formatTimeAgo`: the label of its bucket; see `TimeAgo.HomeAge`, `TimeAgo.FormattersAgree` |
| TimeAgo.DetailAge | client/src/pages/ProductDetailsPage.tsx:92-107 | each bucket covers exactly its interval (under a minute, including negative, is "just now"; 30-day months; 12-month years); each count is the elapsed time floored at its unit |
| TimeAgo.HomeAge | client/src/pages/HomePage.tsx:53-64 | the same buckets up to days, with no month or year; each count is floored |
| TimeAgo.FormattersAgree | client/src/pages/HomePage.tsx:53-64 | the two formatters bucket alike below 30 days; from then on the home page still counts days, 30 or more |
| TimeAgo.LabelShape | client/src/pages/ProductDetailsPage.tsx:96-106 | every label other than "just now" is the count followed by its unit and " ago" |
| TimeAgo.LabelInjective | client/src/pages/ProductDetailsPage.tsx:96-106 | different buckets or counts never print the same label |
| TimeAgo.TimeAgoExamples | client/src/pages/ProductDetailsPage.tsx:92-107 | example (one instance of the lemmas above): 59.999 s is "just now"; 90 minutes is "1h ago"; 45 days is "1mo ago" on the product page but "45d ago" on the home page |
| ProductDetails.InCart | client/src/pages/ProductDetailsPage.tsx:109-112 | definition of `isInCart`: a product is loaded and some cart line is for it; used by `ProductDetailsState.HandleAddToCart`'s contract |
| ProductDetails.RequiresDiscord | client/src/pages/ProductDetailsPage.tsx:114-118 | definition of `requiresDiscord`: a product is loaded and its lowercased description includes "discord" or "role"; see `ProductDetails.RequiresDiscordIffOccurs`, `ProductDetails.RequiresDiscordAnyCase` |
| ProductDetails.ProductTags | client/src/pages/ProductDetailsPage.tsx:125-128 | the entry's tags, or none when the entry or its list is missing |
| ProductDetails.ProductTabs | client/src/pages/ProductDetailsPage.tsx:130-136 | never empty: the entry's own tabs when it lists some, else the single description tab with "default" content |
| ProductDetails.TagColor | client/src/pages/ProductDetailsPage.tsx:138-159 | a tag object passes its colours through; a bare tag takes the colours of its upper-cased word from the fixed list, else grey `#6b7280`; the name keeps its original case |
| ProductDetails.TagColorIgnoresCase | client/src/pages/ProductDetailsPage.tsx:142 | spellings differing only in case get the same colours and each keeps its own name |
| ProductDetails.TagColorExamples | client/src/pages/ProductDetailsPage.tsx:142-158 | example (one instance of the lemmas above): "esx", "Escrow Protected", an unknown word and a styled tag, coloured as listed |
| ProductDetails.TabContentOf | client/src/pages/ProductDetailsPage.tsx:177-205 | an image tab with images shows the grid; "default" shows the loaded product's description; a fragment list is joined with ""; missing content is ""; any other content is shown as is |
| ProductDetails.DefaultTabShowsDescription | client/src/pages/ProductDetailsPage.tsx:130-136 | a package without tabs shows its description, once loaded |
| ProductDetails.RequiresDiscordIffOccurs | client/src/pages/ProductDetailsPage.tsx:114-118 | a Discord identity is needed iff "discord" or "role" occurs at some position of the lowercased description |
| ProductDetails.RequiresDiscordAnyCase | client/src/pages/ProductDetailsPage.tsx:114-118 | a description mentioning either word in any capitalisation needs a Discord identity |
| ProductDetails.ProductDetailsState.constructor | client/src/pages/ProductDetailsPage.tsx:53-55 | dialog closed at step 0, description tab |
| ProductDetails.ProductDetailsState.SelectTab | client/src/pages/ProductDetailsPage.tsx:332 | the chosen tab, or "description" when cleared |
| ProductDetails.ProductDetailsState.HandleAddToCart | client/src/pages/ProductDetailsPage.tsx:211-225 | no product or already in the cart does nothing; no CFX identity opens step 0; Discord needed but absent opens step 1; otherwise exactly one unit is added and the product is then in the cart |
| Home.AvatarSource | client/src/pages/HomePage.tsx:143-144 | the forum avatar is used iff the player has an id and a name and no failure is recorded for the payment, and then it is that player's address |
| Home.PlayerLabel | client/src/pages/HomePage.tsx:156 | the player's name, or "Anonymous" when it is missing or empty |
| Home.PackageLabel | client/src/pages/HomePage.tsx:169 | the first package's name, or "Unknown Package" |
| Home.HomePageState.constructor | client/src/pages/HomePage.tsx:28-30 | no payments, no recorded failures |
| Home.HomePageState.LoadPayments | client/src/pages/HomePage.tsx:33-51 | the list received, or empty when the request failed or the answer was null |
| Home.HomePageState.HandleAvatarError | client/src/pages/HomePage.tsx:71-73 | records a failure for that payment id only |
| Home.AvatarErrorIsLocal | client/src/pages/HomePage.tsx:71-73 | after the failure, that payment's card uses the placeholder, and every other card's avatar is unchanged |
| Home.AvatarErrorsAccumulate | client/src/pages/HomePage.tsx:71-73 | a recorded failure is never undone by later ones |
| Validators.ValidatePackage | server/validators.js:8-11 | definition of `validatePackage` with `abortEarly`: the declared keys' checks in order, then undeclared keys, then the value with its defaults; see `Validators.ValidatePackageAccepts`, `Validators.ValidatePackageValue`, `Validators.ValidatePackageOrder` |
| Validators.ValidateBasket | server/validators.js:3-6 | definition of `validateBasket`'s first error, none for a missing body; see `Validators.ValidateBasketAccepts` |
| Validators.BasketIdentIssue | server/validators.js:18-21 | definition of `validateBasketIdent`'s first failing rule: empty, pattern, minimum 10, maximum 100; see `Validators.BasketIdentAccepts` |
| Validators.CheckPositiveInteger | server/validators.js:9 | `number().integer().positive().required()`: passes iff a safe integer above 0; a missing key is "is required", a non-number "must be a number" |
| Validators.CheckIntegerBetween | server/validators.js:9 | `number().integer().min(1).max(100)`, optional: passes iff absent or a safe integer within the bounds; a non-number is "must be a number" |
| Validators.CheckPurchaseType | server/validators.js:9 | `string().valid("single", "subscription")`, optional: passes iff absent or one of the two; any other value fails with "must be one of" |
| Validators.CheckObject | server/validators.js:3-11 | `object().optional()`: passes iff absent or an object; otherwise "must be of type object" |
| Validators.CheckUri | server/validators.js:4 | `string().uri().required()`: passes iff a non-empty string the URI grammar accepts; a missing key is "is required", a non-string "must be a string" |
| Validators.CheckObjectSchema | server/validators.js:3-11 | `Joi.object({...})` with `abortEarly`: passes iff an object whose declared checks all pass and which has no undeclared key; a non-object fails first, then the first failing check, then the least undeclared key |
| Validators.LeastKeyExists | server/validators.js:9 | every non-empty key set has a least key |
| Validators.LeastKeyUnique | server/validators.js:9 | the least key is unique |
| Validators.LeastKey | server/validators.js:9 | the undeclared key reported is the least one |
| Validators.FirstFailure | server/validators.js:9 | the result is a failure iff some check fails, and then it is the first failing check's message |
| Validators.ValidatePackageAccepts | server/validators.js:8-11 | accepted iff an object with no undeclared key, a positive `package_id`, any `quantity` an integer in [1, 100], any `type` "single" or "subscription", and any `variable_data` an object |
| Validators.ValidatePackageValue | server/validators.js:9 | the accepted value keeps every given member and adds `quantity` 1 and `type` "single" when absent |
| Validators.ValidatePackageOrder | server/validators.js:9 | a missing `package_id` reports "is required"; the first declared failing key is reported; undeclared keys only once all declared keys pass |
| Validators.ValidatePackageDefaultsExample | server/validators.js:9 | example (one instance of the lemmas above): a body with only a package id gets quantity 1 and type "single" |
| Validators.ValidatePackageAboveMaxExample | server/validators.js:9 | example (one instance of the lemmas above): a quantity of 101 is refused with the maximum 100 |
| Validators.ValidatePackageFractionExample | server/validators.js:9 | example (one instance of the lemmas above): a fractional package id is refused as not an integer, before the quantity is looked at |
| Validators.ValidateBasketAccepts | server/validators.js:3-6 | accepted iff `complete_url` and `cancel_url` are non-empty URI strings, `custom` is absent or an object, and there is no other key |
| Validators.ValidateReturnUrl | server/validators.js:23-26 | no error iff a non-empty URI string |
| Validators.ValidateProductName | server/validators.js:13-16 | no error iff a string of 1 to 500 characters |
| Validators.MatchesIdentPattern | server/validators.js:19 | true iff a non-empty string of ASCII letters, digits and '-' |
| Validators.BasketIdentAccepts | server/validators.js:18-21 | valid iff 10 to 100 characters, each a letter, digit or '-' |
| ReviewsDb.Matching | server/database.js:27-41 | definition of the query's rows: the rows whose name the column's collation equates with the one asked for, stably sorted newest first; see `ReviewsDb.MatchingCounts`, `ReviewsDb.MatchingNames`, `ReviewsDb.MatchingNewestFirst` |
| ReviewsDb.MatchingCounts | server/database.js:27-41 | the answer holds exactly the rows whose name equals the one asked for under the collation, each as often as in the table |
| ReviewsDb.MatchingNames | server/database.js:27-41 | every row answered has a name the collation equates with the one asked for; under an exact (binary) collation, that very name |
| ReviewsDb.CaseFoldingExample | server/database.js:37 | example (one instance of the lemmas above): under a case-folding collation a query for "kit" answers the review of "Kit" |
| ReviewsDb.MatchingNewestFirst | server/database.js:27-41 | the rows answered are ordered by `created_at` non-increasing |
| ReviewsDb.MeanTenths | server/database.js:67 | the mean in tenths rounded half up: `T - 1/2 <= 10·sum/count < T + 1/2` |
| ReviewsDb.ComputedStats | server/database.js:57-68 | `total` counts the rows; the average is a one-decimal text, "0.0" for no rows |
| ReviewsDb.SumBounds | server/database.js:60 | with ratings in [lo, hi], the sum lies within `n·lo` and `n·hi` |
| ReviewsDb.MeanTenthsBounds | server/database.js:67 | rounding keeps the mean within [lo, hi] |
| ReviewsDb.AverageWithinRatings | server/database.js:57-68 | with ratings in [lo, hi], the printed average lies in [lo, hi] |
| ReviewsDb.StatsExample | server/database.js:57-68 | example (one instance of the lemmas above): ratings 5, 4, 3 give total 3 and "4.0" |
| ReviewsDb.ReviewDatabase.constructor | server/database.js:3 | no pool |
| ReviewsDb.ReviewDatabase.InitDatabase | server/database.js:5-15 | a created pool stays assigned even when the connection test fails; the answer is a pool iff creation and the test succeed |
| ReviewsDb.ReviewDatabase.ReviewsByProductName | server/database.js:22-45 | with no pool or a failing query, no rows; otherwise `Matching` under the column's collation |
| ReviewsDb.ReviewDatabase.ProductReviewStats | server/database.js:52-72 | with no pool or a failing query, `{total: 0, averageRating: 0}`; otherwise the stats of the rows the collation matches |
| ReviewsDb.StatsCountListed | server/database.js:22-72 | the count reported equals the number of reviews listed |
| Routes.Relay | server/index.js:74-81 | a throw gives 500; a non-2xx gives the same status with `{error, details}` (an unparsable body as `{}`); a 2xx with JSON is passed through |
| Routes.RelayStatus | server/index.js:74-81 | every relayed response is the upstream's failing status, 200, or 500 |
| Routes.Categories | server/index.js:68-83 | no public token: 500 and no call; else one categories call, relayed |
| Routes.Packages | server/index.js:85-100 | no public token: 500 and no call; else one packages call, relayed |
| Routes.Package | server/index.js:102-118 | no public token: 500 and no call; else one call for that id, relayed |
| Routes.PaymentsLimit | server/index.js:125 | definition of `req.query.limit || 10` |
| Routes.RecentPayments | server/index.js:120-137 | no server secret: 500 and no call; the limit defaults to 10; a successful answer is always a list, and a non-list body becomes `[]` |
| Routes.BasketPayload | server/index.js:144-145 | exactly four keys; `complete_auto_redirect` is false; the caller's addresses, or `FRONTEND_URL`-based defaults; `custom` or `{}` |
| Routes.CreateBasket | server/index.js:139-156 | no public token: 500 and no call; else one basket call with that payload, relayed |
| Routes.AttachPackage | server/index.js:158-179 | an invalid ident is 400 before the body is read; an invalid body is 400 with the first message; otherwise the validated value, defaults included, is forwarded |
| Routes.AttachPackageForwards | server/index.js:160-169 | the upstream is called iff the ident is valid and the body acceptable |
| Routes.BasketAuth | server/index.js:181-198 | no public token: 500 and no call; else one auth-link call with the return URL, relayed |
| Routes.GetBasket | server/index.js:200-216 | no public token: 500 and no call; else one basket fetch, relayed |
| Routes.NoTokenNoCalls | server/index.js:70-72 | without the public token every route that uses it answers 500 and calls nothing |
| Routes.DiscordToken | server/index.js:218-278 | a missing code is 400 before the credentials check; missing client id or secret is 500; a failed exchange is relayed; an accepted code is answered 200 with the token data, except that a `null` token body with both guild settings present throws at `access_token` and is answered 500 |
| Routes.JoinGuildCalls | server/index.js:238-268 | the lookup is always made; the member-add call follows iff the lookup answered 2xx with a non-null JSON profile, and it carries the guild, the profile's `id`, the bot token and the access token |
| Routes.DiscordLookupNeverMatters | server/index.js:237-270 | the response never depends on how the profile lookup or the member add goes |
| Routes.DiscordNullTokenData | server/index.js:234-274 | a 2xx `null` token body is answered 200 `null` when a guild setting is missing, and 500 once both are set; only the exchange call is made |
| Routes.DiscordJoinNeverMatters | server/index.js:236-274 | for any token answer other than a 2xx `null`, the response does not depend on the bot token or the guild id; the join is attempted iff both are set and an access token came back; the member is added iff the profile could also be read |
| Routes.ReviewsRoute | server/index.js:280-288 | a name that cannot be decoded gives 500 with empty reviews and zero stats; otherwise 200 with the product name, its stats and its reviews |
| Routes.ReviewsRouteContents | server/index.js:280-288 | a listed answer carries exactly the store's reviews and stats for that name |
| Storage.LocalStorage.SetItem | client/src/contexts/CartContext.tsx:21 | `setItem`: the key takes the value and no other key changes |
| Storage.LocalStorage.RemoveItem | client/src/contexts/AuthContext.tsx:84 | `removeItem`: the key is gone and no other key changes |
| Seqs.JsSlice | client/src/pages/ProductsPage.tsx:138 | `slice`: in-range bounds give that window, bounds past the end stop at the end, negative bounds count from the end, crossed bounds give nothing, and the result is never longer than the input |
| Seqs.FilterIsSubsequence | client/src/pages/ProductsPage.tsx:104-124 | `filter` yields a subsequence of its input |
| Seqs.FilterCounts | client/src/pages/ProductsPage.tsx:104-124 | `filter` keeps each passing element as often as it occurs, and no other |
| Sorting.SortBy | client/src/pages/ProductsPage.tsx:125-131 | definition of the stable sort by an integer key, used for the price sort and for `ORDER BY created_at DESC`; see `Sorting.SortByPermutation`, `Sorting.SortBySorted`, `Sorting.SortByStable` |
| Sorting.SortByPermutation | client/src/pages/ProductsPage.tsx:125-131 | the sort is a permutation |
| Sorting.SortBySorted | client/src/pages/ProductsPage.tsx:125-131 | the sort is non-decreasing by its key |
| Sorting.SortByStable | client/src/pages/ProductsPage.tsx:125-131 | elements with equal keys keep their relative order, as in the stable `Array.prototype.sort` |
| Sorting.WithNegatedKey | client/src/pages/ProductsPage.tsx:129 | elements with equal negated keys are the elements with equal keys |
| Text.ToLower | client/src/pages/ProductsPage.tsx:105-106 | `toLowerCase`: same length, each ASCII capital becomes its small letter, every other character is kept, and no capital is left |
| Text.ToUpper | client/src/pages/ProductDetailsPage.tsx:142 | `toUpperCase`: same length, each ASCII small letter becomes its capital, every other character is kept, and no small letter is left |
| Text.Contains | client/src/pages/ProductDetailsPage.tsx:117 | definition of `includes`: a prefix of the text or of one of its suffixes; see `Text.ContainsIffOccurs`, `Text.ContainsToLower` |
| Text.ContainsIffOccurs | client/src/pages/ProductDetailsPage.tsx:117 | `includes` holds iff the word occurs at some position |
| Text.ContainsToLower | client/src/pages/ProductsPage.tsx:105-106 | an occurrence survives lowercasing both texts |

## Left out

- Network calls, `window.location` redirects, `setTimeout` delays, `alert` and the notification toasts. Every upstream answer is an input, and the model returns the calls made and the outcome (for example, where to go).
- Health route (server/index.js:64-66): it only reports the clock.
- URL construction: the upstream URLs, query strings and `encodeURIComponent` are not written out. Each `Call` constructor carries the data that goes into its URL.
- Express middleware, rate limiters, CORS, dotenv, signal handlers, the mysql2 pool options and `closeDatabase`.
- Concurrency: multi-tab races on the processing flag and React StrictMode double effects. Effects are modelled as sequential runs.
- React rendering, the login dialog's glue handlers (`handleAuthComplete`, `handleCFXAuth`, `handleDiscordAuth`), loading flags and the product, reviews and categories fetches of the pages. The category list reaches `CategoryTree.BuildTree` as an input.
- HTML sanitising: `TabBody` holds the HTML that is handed to the sanitiser, not its output.
- Floating point:
  - prices are integer cents and totals are exact;
  - `Intl.NumberFormat` in `formatPrice` is not modelled;
  - `parseFloat` of the payment amount on the home page is not modelled;
  - `isRecentProduct` and the "now" clock are replaced by elapsed milliseconds as an input.
- ReviewsDb.MeanTenths: rounds the exact mean half up. MySQL rounds `AVG` to four decimals and `toFixed(1)` rounds a double, so ties such as x.x5 can differ.
- ReviewsDb.Matching: the column's collation is the parameter `coll`, a sort key; which collation the table uses, and the case and trailing-space folding tables of MySQL's collations, are not written out. `ReviewsDb.CaseFoldingExample` takes ASCII lowercasing as an instance.
- ReviewsDb.Matching: MySQL leaves the order of equal `created_at` values open. The model keeps table order among them, which is one of the allowed orders.
- Validators.LeastKey: Joi reports the first undeclared key in property order. Objects here are maps, so the model reports the least undeclared key instead. Validators.ValidatePackage inherits this for bodies with several undeclared keys.
- Validators.CheckPositiveInteger: a `JNum` stands for the double that `express.json` produced. Rounding at parse time (`100.000000000000001` reads as 100) and overflow to `Infinity`, with Joi's "cannot be infinity" error, are not modelled; the same holds for Validators.CheckIntegerBetween. Joi's type conversion is not modelled either: a numeric string such as "5" is refused as not a number, where Joi would accept it as 5.
- Validators.CheckIntegerBetween: see the line above; numerals are taken at their exact value, and a numeric string is refused as not a number instead of converted.
- Validators.CheckObject: Joi's conversion of a JSON text string into an object is not modelled; a string is refused as not an object.
- Validators.ValidatePackage: inherits the three lines above for `package_id`, `quantity` and `variable_data`.
- TebexApi.AttachErrorMessage: a truthy `details.detail` or `error` that is not a string (a number, an object) becomes the message through JavaScript's string conversion; the model treats such values as absent.
- Validators.CheckUri: Joi's URI grammar is the parameter `isUri`.
- Text.ToLower: case mapping covers ASCII letters only. Strings are sequences of `char`, not UTF-16 code units.
- Avatars.ParseInt: leading blanks are not skipped and a `0x` prefix is not read as hexadecimal. So " 7" reads as NaN where `parseInt` gives 7, and "0x1f" reads as 0 where `parseInt` gives 31. The optional sign is read.
- Stored JSON: storage values are decoded values, not JSON text. A plain text at a key that holds JSON stands for text that `JSON.parse` rejects. The stores' `CartLoadable`/`AuthLoadable` preconditions say the saved value parses, because the page throws on load otherwise.
- CheckoutAuthComplete.CheckoutAuthCompletePage.HandleAuthComplete: the exception's message when the remembered lines do not parse is the input `parseError`. A `details.detail` that is not a string counts as absent.
- Routes.ReviewsRoute: an exception from `decodeURIComponent` is the input `decoded: None`. The two store functions swallow their own errors, so that is the route's only failure.
- Timing: auth callbacks and checkout pages schedule their delayed redirects, and the model returns the target without modelling the timer.
- Discord authorisation nonce: `Math.random().toString(36)` is an input.
- services/api.ts: only the attach error's message precedence is modelled. The other wrappers are fetch calls.
