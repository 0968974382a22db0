# Storefront cart and catalog filter, modelled in Dafny

This project models the two pieces of logic in a small React storefront that hold state
and rules: the **cart store** with the totals derived from it, and the **catalog filter**
of the home page.

- **Cart store** (`CartContext`). The store holds an ordered list of cart lines in one state
  cell (`CartContext.CartStore.cartItems`). Three actions replace that list wholesale:
  - `addToCart` looks the product up by id. If a line has that id, it raises that line's
    quantity by one. Otherwise it appends a line with quantity one.
  - `removeFromCart` lowers the quantity of every line with the id by one, then drops every
    line whose quantity is no longer positive.
  - `clearCart` empties the list.

  The pure updaters are the functions `Add` and `Remove`. The class methods are proved to
  set the cell to exactly their results. The store never checks two invariants, but it keeps
  both: ids are unique and every quantity is at least one (`WellFormed`).
- **Cart page** (`CartPage`). It models the early return for an empty cart, the per-line
  subtotal, the `reduce` that computes the total, and which store action each button calls.
- **Navigation bar** (`Navbar`). It models the `reduce` that counts items and the condition
  for showing the count badge.
- **Home page** (`Home`). It models the state cells for products, visible products,
  categories, category filter and search text, and the effect that derives the visible list.
  The effect narrows by exact category when one is chosen, then by case-insensitive title
  search when search text is entered. The page also capitalises category labels for the
  dropdown.

Prices are whole cents (`int`). Case mapping is ASCII only. Each `reduce` is modelled as a
left fold from 0, as JavaScript evaluates it, and is proved equal to an order-independent
sum (`Sums.Sum`).

Behaviour a storefront of this kind might have, which this code does not implement:
- Choosing a category clears the search text, and the reverse.
- A query-string synchroniser with a reset signal.
- A tag telling the page why the visible list is empty (no products fetched, or no product
  matching), and last-issued-wins ordering of fetches, so that a slow older fetch cannot
  overwrite a newer one.

None of these is in the code. The filter and search cells are independent, and both filters
apply together when both are set. The model follows the code. `Home.SampleCatalogFilters`
shows the difference: with the search "red" kept, choosing "clothes" leaves only the red
shirt, not both clothes items.

## Model

| member | source | states |
|---|---|---|
| `CartContext.Find` | src/context/CartContext.jsx:25 | finds a line exactly when some line has the id; the line found has that id and no earlier line does (first match) |
| `CartContext.IncrementMatching` | src/context/CartContext.jsx:30-34 | the map step of adding keeps the length and every line's product, raises the quantity of every line with the id by exactly 1, leaves every other line exactly as it was, and keeps distinct ids distinct |
| `CartContext.DecrementMatching` | src/context/CartContext.jsx:51-53 | the map step of removing keeps the length and every line's product, lowers the quantity of every line with the id by exactly 1, and leaves every line with another id exactly as it was |
| `CartContext.Add` | src/context/CartContext.jsx:20-41 | after adding, the cart holds the product's id and exactly the ids it held before besides; it grows by one line exactly when the id was absent, otherwise its length is unchanged |
| `CartContext.Remove` | src/context/CartContext.jsx:45-57 | after removing, every quantity is at least 1, the cart is no longer than before, and it holds no id it did not hold before |
| `CartContext.AddExisting` | src/context/CartContext.jsx:25-34 | adding a product whose id is in the cart raises that one line's quantity by exactly 1; length, order and every other line are unchanged |
| `CartContext.AddNew` | src/context/CartContext.jsx:35-38 | adding a product whose id is absent appends exactly one line (the product, quantity 1) at the end; earlier lines are unchanged |
| `CartContext.AddToEmpty` | src/context/CartContext.jsx:35-38 | adding to the empty cart gives exactly one line: the product with quantity 1 |
| `CartContext.AddPreservesWellFormed` | src/context/CartContext.jsx:20-41 | adding keeps ids unique and every quantity at least 1 |
| `CartContext.KeepPositive` | src/context/CartContext.jsx:55 | the filter step leaves only lines with quantity at least 1, never lengthens the list, and a line is kept exactly when it is in the list with a positive quantity |
| `CartContext.KeepPositiveCounts` | src/context/CartContext.jsx:55 | the filter step keeps every copy of each line with a positive quantity and no copy of any other line |
| `CartContext.KeepPositiveConcat` | src/context/CartContext.jsx:55 | the filter step works line by line: filtering two lists joined equals joining the two filtered lists, so the order is kept |
| `CartContext.RemoveLowers` | src/context/CartContext.jsx:51-53 | removing from a line of quantity above 1 lowers it by exactly 1 and keeps its position; the rest of the cart is unchanged |
| `CartContext.RemoveDeletes` | src/context/CartContext.jsx:51-55 | removing from a line of quantity 1 deletes that line; the remaining lines keep their relative order |
| `CartContext.RemoveAbsent` | src/context/CartContext.jsx:45-57 | removing an id no line has returns the cart unchanged, provided every quantity is at least 1 |
| `CartContext.RemovePreservesWellFormed` | src/context/CartContext.jsx:45-57 | removing keeps ids unique and every quantity at least 1 |
| `CartContext.RemoveAfterAddExisting` | src/context/CartContext.jsx:20-57 | when the product's id is already in a well-formed cart, removing it right after adding it gives back the original cart |
| `CartContext.RemoveAfterAddNew` | src/context/CartContext.jsx:20-57 | when the product's id is absent from a well-formed cart, removing it right after adding it deletes the appended line and gives back the original cart |
| `CartContext.RemoveAfterAdd` | src/context/CartContext.jsx:20-57 | removing a product's id right after adding that product gives back the original cart |
| `CartContext.CartStore.constructor` | src/context/CartContext.jsx:16 | the cart starts empty, which satisfies the invariant |
| `CartContext.CartStore.AddToCart` | src/context/CartContext.jsx:20-41 | the cell becomes the result of adding the product, and the invariant is kept |
| `CartContext.CartStore.RemoveFromCart` | src/context/CartContext.jsx:45-57 | the cell becomes the result of removing one unit of the id, and the invariant is kept |
| `CartContext.CartStore.ClearCart` | src/context/CartContext.jsx:60 | the cell becomes the empty cart from any state |
| `CartPage.Subtotal` | src/components/Cart.jsx:62 | one unit of a line costs its price, and any positive quantity of a non-negative price costs at least the price |
| `CartPage.TotalAmount` | src/components/Cart.jsx:14-17 | the left fold from 0 equals the sum of price × quantity over all lines, i.e. the sum of the per-line subtotals shown |
| `CartPage.Render` | src/components/Cart.jsx:9-17 | an empty cart shows only the empty message and computes no total; otherwise every line is listed with its subtotal price × quantity, and the total equals the sum of those subtotals |
| `CartPage.Press` | src/components/Cart.jsx:39-84 | "–" and "Remove" give exactly the result of removeFromCart with the line's id, "+" exactly the result of addToCart with the line's product, and "Clear Cart" the empty cart; no button breaks the cart invariant, and "+" leaves the line's product in the cart |
| `CartPage.TotalAmountUpdate` | src/components/Cart.jsx:14-17 | replacing one line moves the total by exactly the change in that line's subtotal |
| `CartPage.TotalAmountStep` | src/components/Cart.jsx:14-17 | one unit more or less on a line moves the total by exactly that line's price |
| `CartPage.IncreaseRaisesTotal` | src/components/Cart.jsx:49-54 | "+" calls addToCart with the line, so that line's quantity rises by 1 in place and the total rises by its price |
| `CartPage.RemoveButtonDecrements` | src/components/Cart.jsx:66-71 | "Remove" calls removeFromCart like "–", so on a line of quantity above 1 it lowers the quantity by 1 and keeps the line, and the total falls by its price |
| `CartPage.TotalAmountDelete` | src/components/Cart.jsx:14-17 | deleting one line lowers the total by exactly that line's subtotal |
| `CartPage.DecreaseDeletesLastUnit` | src/components/Cart.jsx:38-43 | "–" on a line of quantity 1 deletes that line, keeps the order of the others, and lowers the total by the line's price |
| `CartPage.ClearShowsEmpty` | src/components/Cart.jsx:83-88 | after "Clear Cart" the page takes the empty branch, and the fold over no lines is 0 |
| `CartPage.TotalAmountSingle` | src/components/Cart.jsx:14-17 | the total of a one-line cart is that line's subtotal |
| `CartPage.HatAddedTwice` | src/context/CartContext.jsx:20-41 | adding the same product twice to the empty cart gives one line of quantity 2 |
| `CartPage.HatRemovedOnce` | src/context/CartContext.jsx:20-57 | adding the same product twice to the empty cart and removing it once leaves one line of quantity 1 |
| `CartPage.HatScenario` | src/context/CartContext.jsx:20-57 | adding the same product twice and removing it once leaves one line of quantity 1 whose total is the product's price; clearing then shows the empty cart |
| `Navbar.TotalCount` | src/components/Navbar.jsx:13 | the left fold from 0 equals the sum of all line quantities |
| `Navbar.BadgeShown` | src/components/Navbar.jsx:44 | the badge, shown when the count is positive, never shows on an empty cart |
| `Navbar.CountBounds` | src/components/Navbar.jsx:44-51 | when every quantity is at least 1, the count is at least the number of lines, and the badge (shown iff the count is positive) shows exactly when the cart has a line |
| `Navbar.CountAfterAdd` | src/components/Navbar.jsx:13 | adding any product raises the count by exactly 1 |
| `Navbar.CountAfterQuantityChange` | src/components/Navbar.jsx:13 | setting one line's quantity moves the count by exactly the change in that quantity |
| `Navbar.CountAfterDelete` | src/components/Navbar.jsx:13 | deleting one line lowers the count by exactly that line's quantity |
| `Navbar.CountAfterRemoveAt` | src/components/Navbar.jsx:13 | removing the id of the line at a given position of a well-formed cart lowers the count by exactly 1 |
| `Navbar.CountAfterRemove` | src/components/Navbar.jsx:13 | removing an id in the cart lowers the count by exactly 1; an absent id leaves it unchanged |
| `Home.ToLower` | src/pages/Home.jsx:55 | lower-casing keeps the length, leaves no upper-case letter, keeps each character's letter up to case, and leaves every character that is not an upper-case letter unchanged |
| `Home.Includes` | src/pages/Home.jsx:55 | the empty needle is in every text, and a needle longer than the text is in none |
| `Home.MatchesSearch` | src/pages/Home.jsx:55 | an empty search matches every product, and a search longer than the title matches none |
| `Home.IncludesIffOccurs` | src/pages/Home.jsx:55 | the left-to-right `includes` scan succeeds exactly when the needle occurs at some position of the text |
| `Home.MissingFirstCharNotIncluded` | src/pages/Home.jsx:55 | a text lacking the needle's first character does not include the needle |
| `Home.Keep` | src/pages/Home.jsx:49 | `Array.filter` keeps exactly the elements satisfying the predicate (each kept element satisfies it, none satisfying it is dropped) as an order-preserving subsequence |
| `Home.KeepCounts` | src/pages/Home.jsx:49 | `Array.filter` keeps every copy of each element satisfying the predicate and no copy of any other |
| `Home.KeepCons` | src/pages/Home.jsx:49 | filtering a list given head first keeps the head exactly when it satisfies the predicate, then filters the rest |
| `Home.Visible` | src/pages/Home.jsx:44-60 | every visible product is in the catalog and passes every active criterion |
| `Home.VisibleWithoutCriteria` | src/pages/Home.jsx:44-60 | with filter and search both empty, the visible list is the product list itself, the same list line 30 shows after a fetch |
| `Home.VisibleIsConjunction` | src/pages/Home.jsx:44-60 | the two filter steps in a row equal one filter pass with the conjunction of the active criteria |
| `Home.VisibleExactlyMatching` | src/pages/Home.jsx:48-57 | a product is visible iff it is in the catalog and passes every active criterion; with a category every visible product has exactly that category; with search text every visible lower-cased title contains the lower-cased search; the visible list is an order-preserving subsequence of the catalog that keeps every copy of each matching product |
| `Home.VisibleIdempotent` | src/pages/Home.jsx:44-60 | filtering the visible list again with the same criteria returns it unchanged |
| `Home.VisibleIgnoresSearchCase` | src/pages/Home.jsx:55 | two search texts with the same lower-case form give the same visible list |
| `Home.SampleSearchRed` | src/pages/Home.jsx:53-57 | on the sample catalog, "Red Shirt" and "Red Mug" match the search "red" and "Blue Hat" does not |
| `Home.SampleSearchOnly` | src/pages/Home.jsx:53-57 | on the sample catalog, search "red" alone shows the shirt and the mug, in catalog order |
| `Home.SampleCategoryOnly` | src/pages/Home.jsx:48-50 | on the sample catalog, category "clothes" alone shows the shirt and the hat, in catalog order |
| `Home.SampleCatalogFilters` | src/pages/Home.jsx:44-60 | on the sample catalog, search "red" shows the shirt and the mug, category "clothes" shows the shirt and the hat, and both together show only the shirt |
| `Home.Capitalize` | src/pages/Home.jsx:89 | the label has the category's length and differs from it only in letter case (the same lower-case form) |
| `Home.CapitalizeLabel` | src/pages/Home.jsx:89 | the label has the category's length and tail, its first character upper-cased, the same lower-case form as the category, and capitalising again changes nothing |
| `Home.HomePage.constructor` | src/pages/Home.jsx:10-22 | every state cell starts empty, and the visible list agrees with the criteria |
| `Home.HomePage.ApplyFilters` | src/pages/Home.jsx:44-60 | the effect sets the visible list to the list derived from products, filter and search |
| `Home.HomePage.ReceiveProducts` | src/pages/Home.jsx:28-31 | a fetched list becomes the products and, once the effect re-runs, the visible list is derived from it; with no criteria it is the whole list; filter and search are untouched |
| `Home.HomePage.ReceiveCategories` | src/pages/Home.jsx:39 | a fetched category list replaces the categories and nothing else |
| `Home.HomePage.SetSearch` | src/pages/Home.jsx:75 | typing sets the search text and re-derives the visible list; the category filter is kept |
| `Home.HomePage.SetFilter` | src/pages/Home.jsx:82 | choosing a category sets the filter and re-derives the visible list; the search text is kept |
| `Home.HomePage.CategoryLabels` | src/pages/Home.jsx:85-91 | after the fixed first option "All Categories" (value "", which `SetFilter("")` models), the dropdown has one label per category, in order, and each label is that category capitalised |

## Left out

- The fetches of products, categories and single products, with their error logging, are network I/O. Only their result enters the model, as the argument of `ReceiveProducts` and `ReceiveCategories`. A failed fetch leaves the state unchanged, which is a call the model simply does not make.
- The product detail page is a fetch, a loading branch and a call to `addToCart`, which `CartStore.AddToCart` models.
- The routing table, the links and `useNavigate`: these are wiring with no logic. `App.jsx` renders the navigation bar without an `onHomeClick` handler, so the home links only navigate.
- The product card and all other JSX markup and styling.
- Floating-point prices and the `toFixed(2)` display rounding. Prices are integer cents.
- Unicode case mapping. `toLowerCase` and `toUpperCase` are modelled on ASCII letters only.
- React scheduling. Each handler, together with the effect it triggers, is one atomic step. So `SetSearch`, `SetFilter` and `ReceiveProducts` re-derive the visible list before they return.
- `CartPage.IncreaseRaisesTotal`: "+" is modelled as adding the line's product. The source passes the line object itself. Only its id is read, because the line is always in the cart.
- `CartContext.AddExisting`, `CartContext.RemoveLowers`, `CartContext.RemoveDeletes`, `CartContext.RemoveAfterAdd`, `CartContext.RemoveAfterAddExisting`, `CartContext.RemoveAfterAddNew`, `CartPage.IncreaseRaisesTotal`, `CartPage.RemoveButtonDecrements`, `Navbar.CountBounds`, `Navbar.CountAfterAdd`, `Navbar.CountAfterRemoveAt` and `Navbar.CountAfterRemove` require that ids are unique, that quantities are positive, or both (`UniqueIds`, `AllPositive`, `WellFormed`). The functions themselves model the source's update of every matching line. The precondition holds in every reachable cart, because the constructor sets it up and every action keeps it.
- Query-string synchronisation, the reset signal, mutually exclusive criteria, a tag saying why the visible list is empty, and last-issued-wins fetch ordering. The code implements none of them.
