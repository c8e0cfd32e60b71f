# YummiChef carts, dishes and favourites in Dafny

This project models the logic beneath the YummiChef food-ordering app, a
React Native client of a hosted database, and proves properties of that model:

- **The cart reducer** (`CartReducer`, `App.js`). Its actions are add, remove,
  update quantity, set tip, clear, and any unknown action. It runs inside a
  `Store` whose `Dispatch` applies it. The proofs show that the cart invariant
  (unique ids, every quantity at least 1) holds from the initial state
  through any run of actions.
- **The bills** (`Bill`, `CartScreen`, `DeliveryAddressScreen`). A bill is the
  food total, 3% tax, a 2.00 delivery fee and the tip. Money is exact `real`.
  The cart screen has quantity buttons, the tip field with its apply button,
  and place-order. The delivery-address screen has a form edited one field
  at a time, and confirmation, which clears the cart.
- **The tab app's cart provider** (`CartContext`, `contexts/CartContext.tsx`).
  It is a class whose methods replace its lines and its tip. Its food cost,
  tax, total (with no delivery fee) and item count come from pure functions.
- **The home page** (`HomePage`). It maps dish rows to cards, with a
  truthiness filter and defaults. It filters by the panel, the
  ingredient-exclusion box and the search box. It sorts stably by rating,
  price, cooking time or spice level. It toggles a favourite after the
  remote write, and it formats reviews. The list the page shows
  (`FilterDishes`, `Process`, `HomePage.Processed`) uses the exclusion test
  as written, under which a blank entry drops every dish that lists an
  ingredient (see "## Findings"). The corrected test and list
  (`KeepDish`, `FilterDishesCorrected`, `ProcessCorrected`) sit beside it,
  and the two agree whenever the box is empty or holds no blank entry.
- **The favourites provider** (`FavoritesContext`). It holds the signed-in
  user and the ids of their favourite dishes, and keeps them in step with
  add, remove, refresh and sign-in/sign-out.
- **The two favourites screens.**
  - `FavoritesPage` (`Favorites.tsx`) has the defensive chef extractors and
    closes an open details view when its dish is removed.
  - `FavoritesTab` (`favorites.tsx`) shows cards without chefs.
  - Both share the joined-row mapping in `Dishes`.
- **The sign-up form** (`SignUp`). Its three checks run in a fixed order, and
  it calls the service only when all pass. The `loading` flag is on during
  the call and off afterwards.

Every remote read or write (database queries, inserts, deletes, `getUser`,
the auth listener, `signUp`) is a parameter of the method that makes it. A
write's parameter is a `Common.Outcome`; a read's is a `Common.Result` or an
`Option` of the rows. The time-stamped id of a new cart line is a `freshId`
parameter. The text of the tip field is held as what `parseFloat` makes of
it: `None` for NaN.

JavaScript semantics are written out:

- truthiness of strings, numbers and joined values;
- `||` and `??` defaults;
- `Array.isArray(j) ? j[0] : j` on joins (`Dishes.Join.First`);
- `toLowerCase` over ASCII;
- `includes`, `trim` over the ECMAScript white-space set, and `split`;
- `String.prototype.repeat`, whose count is truncated toward zero and which
  throws (`None`) on a negative count;
- `length` in UTF-16 code units.

The two favourites screens spell their chili glyph as seven mis-decoded
characters (`Dishes.FavoritesChili`). The home page uses U+1F336 U+FE0F.

## Model

| member | source | states |
|---|---|---|
| CartReducer.AddExisting | App.js:13-23 | ADD_TO_CART on a present id raises each line of that id by one and leaves the length, the order and every other line unchanged |
| CartReducer.AddNew | App.js:25-28 | ADD_TO_CART on an absent id appends one line of quantity 1 for that product; the old lines are a prefix |
| CartReducer.Remove | App.js:30-34 | REMOVE_FROM_CART keeps an order-preserving subsequence with no line of the id, and keeps every other line |
| CartReducer.UpdatePositive | App.js:36-44 | after UPDATE_QUANTITY every quantity is positive; every other positive line survives |
| CartReducer.UpdateSets | App.js:36-44 | on a valid cart a positive quantity is set on the matching line only, nothing dropped |
| CartReducer.UpdateNonPositiveRemoves | App.js:36-44 | on a valid cart UPDATE_QUANTITY to zero or less gives exactly the lines REMOVE_FROM_CART gives |
| CartReducer.SetTipOnly | App.js:46-50 | SET_TIP replaces the tip and leaves the items identical |
| CartReducer.ClearResets | App.js:52-57 | CLEAR_CART gives the initial state (no items, tip 0) from any state |
| CartReducer.UnknownUnchanged | App.js:59-60 | an unknown action returns the state unchanged |
| CartReducer.ReducePreservesValid | App.js:11-62 | every action keeps ids unique and quantities at least 1 |
| CartReducer.RunPreservesValid | App.js:11-62 | any sequence of actions from a valid state ends in a valid state |
| CartReducer.InitialValid | App.js:65-68 | the initial state satisfies the cart invariant |
| CartReducer.Store.constructor | App.js:65-68 | the store starts at `{items: [], tip: 0}`, which satisfies the cart invariant |
| CartReducer.Store.Dispatch | App.js:64-68 | dispatching replaces the state by the reducer's result and keeps the cart invariant |
| Bill.TaxAmount | screens/CartScreen.js:20 | the tax on a non-negative food total lies between 0 and that total |
| Bill.GrandTotalIs | screens/CartScreen.js:19-23 | the bill is 1.03 times the food total plus 2.00 plus the tip |
| Bill.EmptyBill | screens/CartScreen.js:19-23 | an empty cart's food total is 0 and its bill is 2.00 plus the tip |
| Bill.FoodTotalNonNegative | screens/CartScreen.js:19 | non-negative prices and quantities give a non-negative food total |
| Bill.FoodTotalSplits | screens/CartScreen.js:19 | for two complementary tests, the lines one keeps and the lines the other keeps together make up the whole food total |
| Bill.FoodTotalAppend | screens/CartScreen.js:19 | appending a line adds its price times quantity to the food total |
| Bill.AddNewRaisesFoodTotal | screens/CartScreen.js:19 | adding a new product raises the food total by its price |
| Bill.AddExistingRaisesFoodTotal | screens/CartScreen.js:19 | on a valid cart, adding a product already in it raises the food total by that line's price |
| Bill.AddRaisesUnits | App.js:13-28 | on a valid cart, adding a product raises the number of units by exactly one |
| CartScreen.QuantityAction | screens/CartScreen.js:25-31 | always one of the two actions: a requested quantity of zero or less dispatches REMOVE_FROM_CART for the id, a positive one UPDATE_QUANTITY with that quantity |
| CartScreen.MinusOnOneRemoves | screens/CartScreen.js:62 | the minus button on a line of quantity 1 removes that line |
| CartScreen.MinusLowers | screens/CartScreen.js:62 | the minus button above quantity 1 lowers only that line by one |
| CartScreen.PlusRaises | screens/CartScreen.js:69 | the plus button raises only that line by one |
| CartScreen.TipEditedAfterApply | screens/CartScreen.js:22 | as written, after applying a tip of 5 and then typing -3, the total shown differs from the one the store charges |
| CartScreen.CorrectedTotalChargesAcceptedTip | screens/CartScreen.js:22-23 | with tips only from the apply button, the store's tip is never negative and the corrected total never falls below 1.03 times the food total plus 2.00; it equals what the delivery screen charges |
| CartScreen.CartScreen.constructor | screens/CartScreen.js:16-17 | the tip field starts empty and not applied |
| CartScreen.CartScreen.EditTip | screens/CartScreen.js:16 | typing replaces the field and leaves the applied flag |
| CartScreen.CartScreen.UpdateQuantity | screens/CartScreen.js:25-31 | the store's state becomes the reducer's result for the dispatched quantity action |
| CartScreen.CartScreen.ApplyTip | screens/CartScreen.js:33-42 | a negative tip is refused with nothing dispatched or marked; otherwise SET_TIP with the parsed tip is dispatched and the tip marked applied |
| CartScreen.CartScreen.PlaceOrder | screens/CartScreen.js:44-50 | the screen moves on to the address form exactly when the cart has items |
| DeliveryAddressScreen.With | screens/DeliveryAddressScreen.js:51-53 | the edited field takes the value and every other field keeps its own |
| DeliveryAddressScreen.RequiredFields | screens/DeliveryAddressScreen.js:31-34 | an order goes through exactly when every field except the instructions is non-empty |
| DeliveryAddressScreen.InstructionsNeverRequired | screens/DeliveryAddressScreen.js:31 | editing the instructions never changes whether an order goes through |
| DeliveryAddressScreen.GrandTotal | screens/DeliveryAddressScreen.js:24-28 | the bill is 1.03 times the food total plus 2.00 plus the stored tip |
| DeliveryAddressScreen.DeliveryAddressScreen.constructor | screens/DeliveryAddressScreen.js:15-22 | the form starts with every field empty |
| DeliveryAddressScreen.DeliveryAddressScreen.UpdateAddress | screens/DeliveryAddressScreen.js:51-53 | the form becomes the old form with that one field replaced |
| DeliveryAddressScreen.DeliveryAddressScreen.ConfirmOrder | screens/DeliveryAddressScreen.js:30-49 | a missing required field refuses the order and leaves the cart; otherwise it confirms the old total and CLEAR_CART leaves no items and tip 0 |
| CartContext.AddExisting | contexts/CartContext.tsx:45-53 | adding a dish in the cart raises its line by one and leaves every other line alone |
| CartContext.AddNew | contexts/CartContext.tsx:55-67 | adding a new dish appends one line with the dish id, the price, quantity 1 and the fresh id |
| CartContext.Remove | contexts/CartContext.tsx:72-74 | removing drops exactly the lines of that id and keeps the others in order |
| CartContext.UpdateNonZero | contexts/CartContext.tsx:76-87 | any nonzero quantity, negative included, is stored on the matching lines only |
| CartContext.AddValid | contexts/CartContext.tsx:43-70 | with a fresh id, adding keeps one line per dish and unique line ids |
| CartContext.UpdateValid | contexts/CartContext.tsx:76-87 | updating keeps one line per dish and unique line ids |
| CartContext.ButtonsKeepPositive | contexts/CartContext.tsx:76-87 | quantity changes of plus or minus one keep every quantity at least 1 |
| CartContext.EmptyCost | contexts/CartContext.tsx:94-96 | an empty cart costs 0 and counts 0 items |
| CartContext.TotalIs | contexts/CartContext.tsx:98-108 | tax is 3% of the food cost; the total is 1.03 times the food cost plus the tip, with no delivery fee |
| CartContext.AddRaisesCount | contexts/CartContext.tsx:110-112 | on a valid cart adding a dish raises the item count by exactly 1 |
| CartContext.AddNewCost | contexts/CartContext.tsx:94-96 | adding a new dish raises the food cost by its price |
| CartContext.AddExistingCost | contexts/CartContext.tsx:94-96 | on a valid cart adding a dish already present raises the food cost by that line's price |
| CartContext.CountAppend | contexts/CartContext.tsx:94-112 | appending a line adds its quantity to the count and its price times quantity to the cost |
| CartContext.CartProvider.constructor | contexts/CartContext.tsx:40-41 | the provider starts with no lines and tip 0 |
| CartContext.CartProvider.AddToCart | contexts/CartContext.tsx:43-70 | the lines become the add result; the tip is kept |
| CartContext.CartProvider.RemoveFromCart | contexts/CartContext.tsx:72-74 | the lines become the removal result; the tip is kept |
| CartContext.CartProvider.UpdateQuantity | contexts/CartContext.tsx:76-87 | zero removes the line, any other value is stored; the tip is kept |
| CartContext.CartProvider.ClearCart | contexts/CartContext.tsx:89-92 | no lines and tip 0 |
| CartContext.CartProvider.SetTipAmount | contexts/CartContext.tsx:41 | the tip is replaced and the lines kept |
| Text.Lower | HomePage.tsx:361 | same length, each character lower-cased, no ASCII capital left |
| Text.Includes | HomePage.tsx:367 | holds exactly when the needle is a prefix of some suffix of the string |
| Text.IncludesEmpty | HomePage.tsx:367 | every string includes the empty string, so an empty search matches every dish |
| Text.Trim | HomePage.tsx:363 | empty exactly for a blank string; otherwise it starts and ends with a non-space |
| Text.Split | HomePage.tsx:361 | one more piece than there are separators |
| Text.SplitPieces | HomePage.tsx:361 | no piece holds the separator |
| Text.SplitTrailing | HomePage.tsx:361 | a word without the separator, followed by one, splits into the word and an empty piece |
| Text.JoinSplit | HomePage.tsx:361 | joining the pieces with the separator gives the string back |
| Text.Utf16Length | app/auth/signup.tsx:40 | between one and two units per character, one per character when all lie in the Basic Multilingual Plane |
| Dishes.AuthorName | HomePage.tsx:186 | the first joined user's name when non-empty, otherwise 'Anonymous'; never empty |
| Dishes.FormatReviews | HomePage.tsx:181-190 | one review per row, in order, each with a non-empty name |
| Dishes.SpiceEmojis | HomePage.tsx:348-350 | fails exactly for a negative count; otherwise the glyph repeated min(count, 5) times |
| Dishes.Truncate | HomePage.tsx:349 | the repeat count has the sign of the level and is below it by less than one in magnitude: the level truncated toward zero |
| Dishes.SpiceTextBounds | HomePage.tsx:348-350 | the indicator fails only for a level of -1 or below, shows at most five glyphs, five from level 5 up, none for a missing level |
| Dishes.Compact | favorites.tsx:116 | the non-null entries, each kept, nothing added |
| Dishes.CompactSpec | favorites.tsx:116 | the non-null entries in their order, each as often as it occurs: index by index the entries that pass the null test |
| Dishes.JoinedDishes | favorites.tsx:96-116 | every joined dish comes from a favourite row whose join (first of an array) is present, and every such row gives its dish; none for null data |
| Dishes.JoinedDishesSpec | favorites.tsx:96-116 | exactly one dish per row with a joined dish, in row order |
| Dishes.JoinedSource | favorites.tsx:96-116 | names the favourite row whose joined dish is the i-th joined dish |
| Dishes.JoinedTarget | favorites.tsx:96-116 | names the position among the joined dishes of a row's joined dish |
| Dishes.WithoutDish | Favorites.tsx:285 | an order-preserving subsequence with no dish of that id, keeping every other dish |
| Dishes.FavoriteDish | favorites.tsx:100-115 | the id, and name, description and image from their columns; numbers from their columns or 0; service type, cuisine, diet and spice are the column when truthy and the default otherwise; ingredients the column or `[]`; allergens the column when truthy, else `''`; marked favourite; no chef or reviews |
| HomePage.AnyEntry | HomePage.tsx:363 | true exactly when the ingredient includes some trimmed entry |
| HomePage.AnyIngredient | HomePage.tsx:362-364 | true exactly when some lower-cased ingredient includes some trimmed entry |
| HomePage.KeepDishAsWrittenMeans | HomePage.tsx:352-369 | as written, a dish is kept exactly when it passes cuisine, bounds, service, diet and search, and no ingredient includes any trimmed entry |
| HomePage.BlankEntryExcludesEveryListedDish | HomePage.tsx:360-366 | as written, one blank entry drops every dish with an ingredient |
| HomePage.TrailingCommaLeavesBlankEntry | HomePage.tsx:361 | 'nuts,' splits into 'nuts' and a blank entry |
| HomePage.KeepDishMeans | HomePage.tsx:352-369 | corrected, a dish is kept exactly when it passes the panel and search and no ingredient includes a non-blank entry |
| HomePage.BlankEntriesExcludeNothing | HomePage.tsx:360-366 | corrected, an exclusion box of blank entries filters exactly like an empty one |
| HomePage.DefaultFiltersKeep | HomePage.tsx:99-107 | on the initial panel with an empty search, the test as written (the one the page applies) and the corrected test both keep a dish exactly when price is at most 1000, time at most 60 and rating at least 0 |
| HomePage.FilterDishesSpec | HomePage.tsx:352-369 | as written, an order-preserving subsequence holding exactly the dishes that pass the panel and search and have no ingredient including any trimmed entry, blank ones included |
| HomePage.FilterDishesCorrectedSpec | HomePage.tsx:352-369 | corrected, an order-preserving subsequence holding exactly the dishes that pass the panel and search and have no ingredient including a non-blank entry |
| HomePage.KeepDishAgrees | HomePage.tsx:352-369 | with an empty box or one with no blank entry, the test as written and the corrected test agree on every dish |
| HomePage.FilterDishesAgree | HomePage.tsx:352-369 | with an empty box or one with no blank entry, the filtered list as written is the corrected one |
| HomePage.SortDishes | HomePage.tsx:371-385 | a permutation of the input, ordered by the comparator's key |
| HomePage.SortStable | HomePage.tsx:371-385 | dishes with equal keys keep their input order |
| HomePage.SortOrders | HomePage.tsx:371-385 | ascending price or cooking time; descending rating or spice level, a missing level as 0 |
| HomePage.ProcessSpec | HomePage.tsx:388-391 | as written, the shown list is sorted and holds each dish the filter as written keeps, as often as it keeps it, and nothing else |
| HomePage.BlankEntryEmptiesShownList | HomePage.tsx:360-391 | as written, a blank entry leaves on the shown list only dishes that list no ingredient |
| HomePage.ProcessCorrectedSpec | HomePage.tsx:388-391 | corrected, the shown list is sorted and holds each passing dish as often as the corrected filter keeps it, and nothing else |
| HomePage.ProcessAgrees | HomePage.tsx:352-391 | with an empty box or one with no blank entry, the page shows the corrected list |
| HomePage.ToDishDefaults | HomePage.tsx:260-283 | a card's id, name, description, image, price, cooking time and rating are the row's (all truthy); service type, cuisine, diet and spice are the column when truthy and the default otherwise; ingredients the column or `[]`; allergens the column when truthy, else `''`; favourite iff the id is among the user's; no reviews; a chef only with a joined user, named after that user and rated by the average rating or 0 |
| HomePage.MapDishesSpec | HomePage.tsx:258-285 | every complete row has its card and every card comes from a complete row; the favourite flag is membership of the id |
| HomePage.MapDishesRows | HomePage.tsx:258-285 | exactly one card per complete row, in row order: the complete rows form an order-preserving subsequence keeping each row's multiplicity, and card i is built from the i-th of them |
| HomePage.FindDish | HomePage.tsx:307 | none when no dish has the id; otherwise the first dish with it |
| HomePage.ToggleFlips | HomePage.tsx:337-341 | only the dishes of that id flip their flag; no other field or dish changes |
| HomePage.ToggleTwice | HomePage.tsx:337-341 | toggling twice restores dishes whose flag is set |
| HomePage.HomePage.constructor | HomePage.tsx:88-107 | no dishes, loading, the initial panel, empty search, sorted by rating, no details |
| HomePage.HomePage.LoadDishes | HomePage.tsx:199-294 | an error keeps the dishes; no data gives none; otherwise the complete rows, marked with the user's favourites |
| HomePage.HomePage.ToggleFavorite | HomePage.tsx:299-346 | nothing without a user; delete for a dish now marked favourite, insert otherwise; the local flip only on success |
| HomePage.HomePage.OpenDishDetails | HomePage.tsx:109-115 | the details show that dish |
| HomePage.HomePage.CloseDishDetails | HomePage.tsx:117-120 | the details close and the selection is cleared |
| HomePage.HomePage.ShowReviews | HomePage.tsx:181-190 | on success the open dish takes the formatted reviews, and with no dish open the selection stays empty; an error changes nothing |
| FavoritesContext.Contains | FavoritesContext.tsx:123-125 | exactly list membership |
| FavoritesContext.Removed | FavoritesContext.tsx:116 | the id is gone; the other ids stay, in order |
| FavoritesContext.AddedHolds | FavoritesContext.tsx:92 | after adding, the dish is a favourite, one more copy is stored, other dishes are unaffected |
| FavoritesContext.RemovedHolds | FavoritesContext.tsx:116 | after removing, the dish is not a favourite and every other favourite still is |
| FavoritesContext.RemoveUndoesAdd | FavoritesContext.tsx:92-116 | removing after adding gives what removing alone gives |
| FavoritesContext.RemoveAbsent | FavoritesContext.tsx:116 | removing an id not stored changes nothing |
| FavoritesContext.FavoritesProvider.constructor | FavoritesContext.tsx:27-28 | no ids and no user |
| FavoritesContext.FavoritesProvider.FetchFavorites | FavoritesContext.tsx:58-75 | an error keeps the list; otherwise the ids read |
| FavoritesContext.FavoritesProvider.Initialize | FavoritesContext.tsx:32-38 | a signed-in user is kept and the ids read for that user's id; no user reads nothing and changes nothing |
| FavoritesContext.FavoritesProvider.OnAuthStateChange | FavoritesContext.tsx:43-51 | sign-in keeps the user and reads the ids for that user's id; sign-out reads nothing and clears the user and the list |
| FavoritesContext.FavoritesProvider.AddFavorite | FavoritesContext.tsx:77-97 | fails without a user before any write; else inserts, appending only on success, and passes a failure on |
| FavoritesContext.FavoritesProvider.RemoveFavorite | FavoritesContext.tsx:99-121 | fails without a user before any write; else deletes, dropping every copy only on success |
| FavoritesContext.FavoritesProvider.RefreshFavorites | FavoritesContext.tsx:127-131 | without a user nothing is read or changed; otherwise as a fetch for that user |
| FavoritesPage.GetChefName | Favorites.tsx:57-74 | the first chef's first user's name when that chef has a truthy user; undefined otherwise |
| FavoritesPage.GetChefRating | Favorites.tsx:77-87 | the first chef's average rating, 0 when no chef or no rating |
| FavoritesPage.ChefOf | Favorites.tsx:249-254 | a chef exactly when a non-empty name is found, with that name and the chef rating |
| FavoritesPage.MapFavoritesSpec | Favorites.tsx:230-257 | every card is a favourite with no reviews, a chef only with a name; no more cards than rows; none for null data |
| FavoritesPage.MapFavoritesSources | Favorites.tsx:230-257 | every card is the card of a row with a dish |
| FavoritesPage.MapFavoritesCovers | Favorites.tsx:230-257 | every row with a dish has its card among the cards |
| FavoritesPage.MapFavoritesRows | Favorites.tsx:230-257 | exactly one card per row with a dish, in row order: those rows form an order-preserving subsequence keeping each row's multiplicity, and card i is built from the i-th of them |
| FavoritesPage.FavoritesPage.constructor | Favorites.tsx:49-54 | no favourites, loading, no user, no details |
| FavoritesPage.FavoritesPage.FetchFavorites | Favorites.tsx:182-266 | no user reads nothing; an error keeps the list; otherwise the mapped cards; loading ends |
| FavoritesPage.FavoritesPage.RemoveFavorite | Favorites.tsx:268-295 | nothing without a user or on error; on success the dish leaves the list and its open details close |
| FavoritesPage.FavoritesPage.OpenDishDetails | Favorites.tsx:93-99 | the details show that dish |
| FavoritesPage.FavoritesPage.CloseDishDetails | Favorites.tsx:101-104 | the details close and the selection is cleared |
| FavoritesPage.FavoritesPage.ShowReviews | Favorites.tsx:165-174 | on success the open dish takes the formatted reviews; an error changes nothing |
| FavoritesTab.MapFavoritesSpec | favorites.tsx:96-116 | every card is a favourite without chef or reviews; no more cards than rows; none for null data |
| FavoritesTab.MapFavoritesSources | favorites.tsx:96-116 | every card is the card of a row whose dish is present |
| FavoritesTab.MapFavoritesCovers | favorites.tsx:96-116 | every row whose dish is present has its card among the cards |
| FavoritesTab.MapFavoritesRows | favorites.tsx:96-116 | exactly one card per row with a dish, in row order: those rows form an order-preserving subsequence keeping each row's multiplicity, and card i is built from the i-th of them |
| FavoritesTab.FavoritesTab.constructor | favorites.tsx:44-49 | no favourites, loading, no user, no details |
| FavoritesTab.FavoritesTab.FetchFavorites | favorites.tsx:55-125 | no user reads nothing; an error keeps the list; otherwise the mapped cards; loading ends |
| FavoritesTab.FavoritesTab.RemoveFavorite | favorites.tsx:127-149 | nothing without a user or on error; on success the dish leaves the list in order |
| FavoritesTab.FavoritesTab.OpenDishDetails | favorites.tsx:151-157 | the details show that dish |
| FavoritesTab.FavoritesTab.CloseDishDetails | favorites.tsx:159-162 | the details close and the selection is cleared |
| FavoritesTab.FavoritesTab.ShowReviews | favorites.tsx:223-232 | on success the open dish takes the formatted reviews; an error changes nothing |
| SignUp.Validate | app/auth/signup.tsx:30-43 | the first failing check in order: an empty field, then mismatched passwords, then a password under six UTF-16 units; passed exactly when none fails |
| SignUp.FiveCharactersTooShort | app/auth/signup.tsx:40-43 | five ordinary characters are too short |
| SignUp.ThreeEmojiLongEnough | app/auth/signup.tsx:40 | three emoji count as six units and pass |
| SignUp.CheckAlert | app/auth/signup.tsx:30-43 | each failed check shows an Error alert with a message |
| SignUp.ResponseAlert | app/auth/signup.tsx:49-61 | success, the service's message or its default, or the unexpected-error alert |
| SignUp.SignUpScreen.constructor | app/auth/signup.tsx:24 | not loading |
| SignUp.SignUpScreen.HandleSignUp | app/auth/signup.tsx:29-65 | the service is called, with the form's email, password and name, exactly when every check passes; loading goes on then off around the call; only success leads to the login screen |

Functions that only compute carry no row of their own; the lemmas and
methods named here state their properties:

- `CartReducer.Reduce`, `CartReducer.Run`: the `CartReducer` action rows,
  `ReducePreservesValid` and `RunPreservesValid`.
- `Bill.FoodTotal`, `Bill.GrandTotal`, `Bill.Units`: the `Bill` rows.
- `CartContext.AddItem`, `RemoveItem`, `UpdateItems`, `FoodCost`,
  `TaxAmount`, `TotalAmount`, `ItemCount`: the `CartContext` lemma rows.
- `CartScreen.ParsedTip`: `CartScreen.CartScreen.ApplyTip`;
  `CartScreen.GrandTotalAsWritten`, `CartScreen.GrandTotal`:
  `TipEditedAfterApply` and `CorrectedTotalChargesAcceptedTip`.
- `Dishes.StringOr`, `Dishes.NumberOf`: `HomePage.ToDishDefaults` and
  `Dishes.FavoriteDish`; `Dishes.FormatReview`: `Dishes.FormatReviews` and
  `Dishes.AuthorName`; `Dishes.DishIds`:
  `FavoritesContext.FavoritesProvider.FetchFavorites`.
- `Dishes.SpiceText` and the three `SpiceIndicator` functions:
  `Dishes.SpiceTextBounds` and `Dishes.SpiceEmojis`.
- `HomePage.KeepDishAsWritten`: `KeepDishAsWrittenMeans`; `HomePage.KeepDish`:
  `KeepDishMeans`; `HomePage.FilterDishes`, `Process` and
  `HomePage.Processed`: `FilterDishesSpec` and `ProcessSpec`;
  `FilterDishesCorrected` and `ProcessCorrected`: their `Spec` rows.
- `HomePage.Key`, `HomePage.Insert`: `SortDishes`, `SortStable`,
  `SortOrders`.
- `HomePage.MapDishes`, `HomePage.ToDish`: `MapDishesSpec`, `MapDishesRows`,
  `ToDishDefaults`.
- `HomePage.ToggleLocal`: `ToggleFlips`, `ToggleTwice`.
- `FavoritesContext.Added`: `AddedHolds`;
  `FavoritesContext.FavoritesProvider.IsFavorite`: `Contains`.
- `FavoritesPage.UserName`: `GetChefName`; `FavoritesPage.ToDish` and both
  `MapFavorites` functions: their `MapFavoritesSpec`, `MapFavoritesSources`,
  `MapFavoritesCovers` and `MapFavoritesRows` rows, with `Dishes.FavoriteDish`
  and `FavoritesPage.ChefOf`; both `CardOfRow` predicates: the
  `MapFavoritesSources` rows.

## Left out

- Every database and auth call. The screens' `supabase` reads, writes and
  listener subscriptions are replaced by their outcomes, passed in. Error
  objects are reduced to a message.
- Floating point. Money, ratings and levels are exact reals, so `toFixed(2)`
  rounding and display formatting are not modelled. NaN results of
  `Number(...)` on non-numeric columns are not modelled either.
- `parseFloat` string parsing. The tip field holds its parsed value.
- `Date.now()`. A new cart line's id is the `freshId` parameter.
  `CartContext.AddValid` assumes it is fresh.
- The manual review join fallback after a missing-relationship error, and the
  `loadingReviews` flag. The reviews' joined user is an array. An object-valued
  join, for which the source reads no name, is not modelled.
- Alerts, navigation, JSX, and the sort, filter and grid view state of the
  home page. Its panel, search and sort choice are fields, with no setter
  methods. The catch blocks only show alerts. A thrown remote write counts as
  a failed write.
- Concurrency. Each handler runs to completion on the state it starts from.
  The functional `setState(prev => ...)` updates are therefore serial.
- `String(id)` conversions. All ids are strings already. The App.js cart
  uses integer ids as the menu does.
- `screens/MenuScreen.js` and the other UI and layout files. The tab cart
  screen, the tab delivery screen and `lib/supabase.ts` are not part of this
  model.
- Text.Lower: only ASCII letters are lowered, as opposed to full Unicode case
  mapping.
- Text.Trim: its contract does not state that the result is exactly the middle
  slice of the input. It states only blankness, non-space ends and length.
- Dishes.FavoriteDish: a null name, description or image column reads as
  the empty string. The source leaves `null` in the card.
- CartContext.CartProvider.GetFoodCost, GetTaxAmount, GetTipAmount,
  GetTotalAmount and GetItemCount carry no contract of their own. They read
  the fields through the pure functions, whose properties are the
  `CartContext` lemmas.

## Findings

| source | as written | input that shows it | evidently intended | confidence | as-written member | corrected member |
|---|---|---|---|---|---|---|
| HomePage.tsx:360-366 | every comma-separated entry is trimmed and matched with `includes`, blank entries too | exclusion box "nuts," and a dish with ingredients ["rice"]: the blank entry after the comma matches "rice", so the dish is dropped | blank entries are skipped, so "nuts," excludes only dishes with nuts | not executed | HomePage.BlankEntryExcludesEveryListedDish | HomePage.BlankEntriesExcludeNothing |
| screens/CartScreen.js:22 | once a tip is applied, the total shown uses the live text of the tip field, not the tip the store holds | apply a tip of 5, then type -3 without applying: the cart shows the total with -3 (a negative tip the apply button refuses), while the delivery screen charges 5 | the shown total uses the applied tip in the store, as the delivery screen does | not executed | CartScreen.TipEditedAfterApply | CartScreen.CorrectedTotalChargesAcceptedTip |

For the first row, `HomePage.Process` and `HomePage.HomePage.Processed` keep
the list the page computes as written, and `HomePage.BlankEntryEmptiesShownList`
states the effect on that list. `HomePage.ProcessCorrected` is the list under
the corrected test, with `ProcessCorrectedSpec` proved about it, and
`HomePage.ProcessAgrees` shows the two lists coincide whenever the box is
empty or no entry of it is blank.
