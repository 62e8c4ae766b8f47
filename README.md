# Inventory admin console: state slices in Dafny

This project models the four state slices of a single-page inventory admin
console: products, categories, sub-categories and users with roles. Each
slice owns an ordered in-memory table of records and some scratch fields that
the views use (a loading flag, an error message, a selected record). Actions
change a slice synchronously. The user slice also holds the session: the
current user and the `isAuthenticated` flag that the router's auth gate reads.

Layout:

- `table.dfy` (module `Table`) holds the table operations that all slices
  share. Records are looked up through a key projection, and ids are not
  assumed to be unique.
  - `FirstIndex` is `findIndex`/`find`: it returns the first match.
  - `RemoveAll` is `filter`: it removes every match.
  - `UpdateFirst` changes the first match in place.
  - `ReplaceFirst` assigns a new record at the first match.
- `products.dfy`, `categories.dfy`, `sub_categories.dfy` and `users.dfy` hold
  one module per slice. Each module has:
  - the record datatype(s);
  - the state datatype and `InitialState`;
  - an `Action` datatype with one variant per reducer;
  - `Reduce`, the slice's reducer on state values;
  - a class (`ProductSlice`, ...) whose fields are the state's fields. It has
    one `modifies this` method per reducer. Each method does the update in
    place, as the source does, and is proved to leave exactly the state that
    `Reduce` computes.

  The lemmas state the properties about `Reduce`.

Modelling choices:

- The reducers stamp `updatedAt` with the current wall-clock time. The model
  takes that time as a `now: string` field of the stamping actions.
- Stock quantities are unbounded `int`s.
- `price` and `cost` are `real`s that are carried along but never computed on.
- `T | null` becomes `Option<T>`, and the optional `imageUrl` becomes
  `Option<string>`.
- One would expect stock never to be negative and ids to be unique. The
  reducers enforce neither, and this model follows the reducers:
  - `addX` appends even when the id is already present. Lookups then still
    stop at the earlier record (`AddProductAppends` and its siblings).
  - `increaseStock` with a negative quantity, and `setProducts`, `addProduct`
    or `updateProduct` with negative stock, can all make a stock negative.
    `Products.StockStaysNonNegative` states a sufficient condition on the
    action under which a non-negative stock stays non-negative. The condition
    is not necessary: a small decrease through `increaseStock`, or a negative
    record in `updateProduct` for an absent id, also leaves the stock
    non-negative.
- The round trip "increase then decrease by the same quantity" restores the
  stock exactly when the original stock is non-negative. This holds for any
  quantity, negative ones included (`Products.StockRoundTrip`).

## Model

| member | source | states |
|---|---|---|
| `Table.FirstIndex` | src/store/slices/productSlice.ts:48 | None exactly when no record has the id; otherwise the position of a record with the id, before which no record has it |
| `Table.RemoveAll` | src/store/slices/productSlice.ts:54 | no record with the id is left; every kept record comes from the input; every input record with another id is kept; never longer than the input |
| `Table.UpdateFirst` | src/store/slices/productSlice.ts:57-61 | same length; the first record with the id becomes `f` of it; every other position is unchanged |
| `Table.ReplaceFirst` | src/store/slices/productSlice.ts:48-51 | same length; the first record with the payload's id becomes the payload; every other position is unchanged |
| `Table.FirstIndexAppend` | src/store/slices/productSlice.ts:44-46 | after appending, an id already present is still first found at the same position; the appended record is found first only if its id was absent |
| `Table.RemoveAllConcat` | src/store/slices/productSlice.ts:53-55 | filtering a concatenation is the concatenation of the filtered parts, so the kept records keep their relative order |
| `Table.RemoveAllUnchanged` | src/store/slices/productSlice.ts:53-55 | filtering leaves the table unchanged if and only if no record has the id |
| `Table.RemoveAllIdempotent` | src/store/slices/productSlice.ts:53-55 | filtering twice by the same id equals filtering once |
| `Table.UpdateFirstKeepsLookups` | src/store/slices/productSlice.ts:56-76 | an in-place change that keeps the id keeps the first-match position of every id |
| `Table.UpdateFirstTwice` | src/store/slices/productSlice.ts:56-76 | two in-place changes of the same id, the first keeping the id, compose on the same record; with the id absent nothing changes |
| `Products.Max` | src/store/slices/productSlice.ts:66 | `Math.max`: the result is at least each argument and equals one of them |
| `Products.Restock` | src/store/slices/productSlice.ts:59-60 | the change `increaseStock` makes: the stock grows by exactly the quantity, with no upper bound, and `updatedAt` becomes the time stamp |
| `Products.Destock` | src/store/slices/productSlice.ts:66-67 | the change `decreaseStock` makes: the stock is never negative afterwards; it drops by exactly the quantity when it covers the quantity, and becomes zero otherwise; `updatedAt` becomes the time stamp |
| `Products.Toggle` | src/store/slices/productSlice.ts:73-74 | the change `toggleProductStatus` makes: `isActive` flips and `updatedAt` becomes the time stamp |
| `Products.Reduce` | src/store/slices/productSlice.ts:40-86 | the reducer on state values, one case per action. `loading`, `error` and `selectedProduct` each change only through their own setter; those three setters leave the table alone; every action other than `setProducts`, `addProduct` and `deleteProduct` keeps the table's length and the id at every position |
| `Products.ProductSlice.constructor` | src/store/slices/productSlice.ts:30-35 | the state is the initial state: empty table, not loading, no error, nothing selected |
| `Products.ProductSlice.SetProducts` | src/store/slices/productSlice.ts:41-43 | the new state is what the reducer gives for `setProducts` |
| `Products.ProductSlice.AddProduct` | src/store/slices/productSlice.ts:44-46 | the new state is what the reducer gives for `addProduct`: the payload is pushed |
| `Products.ProductSlice.UpdateProduct` | src/store/slices/productSlice.ts:47-52 | the new state is what the reducer gives for `updateProduct`: index lookup, then assignment at that index if found |
| `Products.ProductSlice.DeleteProduct` | src/store/slices/productSlice.ts:53-55 | the new state is what the reducer gives for `deleteProduct` |
| `Products.ProductSlice.IncreaseStock` | src/store/slices/productSlice.ts:56-62 | the new state is what the reducer gives for `increaseStock`: the found product is updated in place |
| `Products.ProductSlice.DecreaseStock` | src/store/slices/productSlice.ts:63-69 | the new state is what the reducer gives for `decreaseStock`: the found product is updated in place |
| `Products.ProductSlice.ToggleProductStatus` | src/store/slices/productSlice.ts:70-76 | the new state is what the reducer gives for `toggleProductStatus` |
| `Products.ProductSlice.SetSelectedProduct` | src/store/slices/productSlice.ts:77-79 | the new state is what the reducer gives for `setSelectedProduct` |
| `Products.ProductSlice.SetLoading` | src/store/slices/productSlice.ts:80-82 | the new state is what the reducer gives for `setLoading` |
| `Products.ProductSlice.SetError` | src/store/slices/productSlice.ts:83-85 | the new state is what the reducer gives for `setError` |
| `Products.SetProductsReplaces` | src/store/slices/productSlice.ts:41-43 | the table becomes the given list verbatim; loading, error and selection are unchanged |
| `Products.AddProductAppends` | src/store/slices/productSlice.ts:44-46 | length grows by one; the earlier records are unchanged; the last record is the payload, even for an id already present, whose lookups still stop at the earlier record |
| `Products.UpdateProductReplacesFirst` | src/store/slices/productSlice.ts:47-52 | only the first record with the payload's id becomes the payload and no other position changes; with the id absent the state is unchanged |
| `Products.DeleteProductFilters` | src/store/slices/productSlice.ts:53-55 | the table becomes the order-preserving filter, and no record with the id remains; the state is unchanged if and only if the id is absent; deleting is idempotent |
| `Products.IncreaseStockFirstOnly` | src/store/slices/productSlice.ts:56-62 | the first matching product's stock grows by the quantity, with no cap at `maxStockLevel`; its `updatedAt` becomes `now`; nothing else changes; with the id absent the state is unchanged |
| `Products.DecreaseStockFirstOnly` | src/store/slices/productSlice.ts:63-69 | the first matching product's stock becomes stock minus quantity, or 0 when that is negative, so it is never negative for any quantity; it is stamped; nothing else changes; with the id absent the state is unchanged |
| `Products.StockRoundTrip` | src/store/slices/productSlice.ts:56-69 | increase then decrease by the same quantity gives back the stock if and only if it was non-negative (otherwise 0); the only other change is the second stamp |
| `Products.ToggleProductStatusFirstOnly` | src/store/slices/productSlice.ts:70-76 | `isActive` of the first match is flipped and stamped; no other record changes; with the id absent the state is unchanged |
| `Products.ToggleProductStatusTwice` | src/store/slices/productSlice.ts:70-76 | toggling twice restores `isActive`; the only trace is the second stamp on the first match; with the id absent the state is unchanged |
| `Products.StockStaysNonNegative` | src/store/slices/productSlice.ts:41-76 | a table with no negative stock keeps none after any action that brings in no negative stock, and after every `decreaseStock` whatever its quantity |
| `Products.ScratchSettersTouchOneField` | src/store/slices/productSlice.ts:77-85 | `setSelectedProduct`, `setLoading` and `setError` each assign their own field and leave the other three |
| `Categories.Toggle` | src/store/slices/categorySlice.ts:49-50 | the change `toggleCategoryStatus` makes: `isActive` flips and `updatedAt` becomes the time stamp |
| `Categories.Reduce` | src/store/slices/categorySlice.ts:30-62 | the reducer on state values, one case per action. Each scratch field changes only through its own setter; the scratch setters leave the table alone; every action other than set, add and delete keeps the table's length and the id at every position |
| `Categories.CategorySlice.constructor` | src/store/slices/categorySlice.ts:20-25 | the state is the initial state: empty table, not loading, no error, nothing selected |
| `Categories.CategorySlice.SetCategories` | src/store/slices/categorySlice.ts:31-33 | the new state is what the reducer gives for `setCategories` |
| `Categories.CategorySlice.AddCategory` | src/store/slices/categorySlice.ts:34-36 | the new state is what the reducer gives for `addCategory` |
| `Categories.CategorySlice.UpdateCategory` | src/store/slices/categorySlice.ts:37-42 | the new state is what the reducer gives for `updateCategory` |
| `Categories.CategorySlice.DeleteCategory` | src/store/slices/categorySlice.ts:43-45 | the new state is what the reducer gives for `deleteCategory` |
| `Categories.CategorySlice.ToggleCategoryStatus` | src/store/slices/categorySlice.ts:46-52 | the new state is what the reducer gives for `toggleCategoryStatus` |
| `Categories.CategorySlice.SetSelectedCategory` | src/store/slices/categorySlice.ts:53-55 | the new state is what the reducer gives for `setSelectedCategory` |
| `Categories.CategorySlice.SetLoading` | src/store/slices/categorySlice.ts:56-58 | the new state is what the reducer gives for `setLoading` |
| `Categories.CategorySlice.SetError` | src/store/slices/categorySlice.ts:59-61 | the new state is what the reducer gives for `setError` |
| `Categories.SetCategoriesReplaces` | src/store/slices/categorySlice.ts:31-33 | the table becomes the given list verbatim; loading, error and selection are unchanged |
| `Categories.AddCategoryAppends` | src/store/slices/categorySlice.ts:34-36 | appends the payload at the end with no duplicate-id check; earlier records are unchanged and an id already present is still found at its earlier position |
| `Categories.UpdateCategoryReplacesFirst` | src/store/slices/categorySlice.ts:37-42 | only the first record with the id is replaced; with the id absent the state is unchanged |
| `Categories.DeleteCategoryFilters` | src/store/slices/categorySlice.ts:43-45 | removes every record with the id and keeps the order of the rest; the state is unchanged if and only if the id is absent; idempotent |
| `Categories.ToggleCategoryStatusFirstOnly` | src/store/slices/categorySlice.ts:46-52 | flips `isActive` and stamps `updatedAt` on the first match only; with the id absent the state is unchanged |
| `Categories.ToggleCategoryStatusTwice` | src/store/slices/categorySlice.ts:46-52 | toggling twice restores `isActive`; the only trace is the second stamp |
| `Categories.DuplicateIds` | src/store/slices/categorySlice.ts:37-52 | with a duplicated id, update and toggle leave the later occurrence unchanged, while delete removes every occurrence |
| `Categories.ScratchSettersTouchOneField` | src/store/slices/categorySlice.ts:53-61 | each scratch setter assigns its own field only |
| `SubCategories.Toggle` | src/store/slices/subCategorySlice.ts:50-51 | the change `toggleSubCategoryStatus` makes: `isActive` flips and `updatedAt` becomes the time stamp |
| `SubCategories.Reduce` | src/store/slices/subCategorySlice.ts:31-63 | the reducer on state values, one case per action. Each scratch field changes only through its own setter; the scratch setters leave the table alone; every action other than set, add and delete keeps the table's length and the id at every position |
| `SubCategories.SubCategorySlice.constructor` | src/store/slices/subCategorySlice.ts:21-26 | the state is the initial state: empty table, not loading, no error, nothing selected |
| `SubCategories.SubCategorySlice.SetSubCategories` | src/store/slices/subCategorySlice.ts:32-34 | the new state is what the reducer gives for `setSubCategories` |
| `SubCategories.SubCategorySlice.AddSubCategory` | src/store/slices/subCategorySlice.ts:35-37 | the new state is what the reducer gives for `addSubCategory` |
| `SubCategories.SubCategorySlice.UpdateSubCategory` | src/store/slices/subCategorySlice.ts:38-43 | the new state is what the reducer gives for `updateSubCategory` |
| `SubCategories.SubCategorySlice.DeleteSubCategory` | src/store/slices/subCategorySlice.ts:44-46 | the new state is what the reducer gives for `deleteSubCategory` |
| `SubCategories.SubCategorySlice.ToggleSubCategoryStatus` | src/store/slices/subCategorySlice.ts:47-53 | the new state is what the reducer gives for `toggleSubCategoryStatus` |
| `SubCategories.SubCategorySlice.SetSelectedSubCategory` | src/store/slices/subCategorySlice.ts:54-56 | the new state is what the reducer gives for `setSelectedSubCategory` |
| `SubCategories.SubCategorySlice.SetLoading` | src/store/slices/subCategorySlice.ts:57-59 | the new state is what the reducer gives for `setLoading` |
| `SubCategories.SubCategorySlice.SetError` | src/store/slices/subCategorySlice.ts:60-62 | the new state is what the reducer gives for `setError` |
| `SubCategories.SetSubCategoriesReplaces` | src/store/slices/subCategorySlice.ts:32-34 | the table becomes the given list verbatim; the other fields are unchanged |
| `SubCategories.AddSubCategoryAppends` | src/store/slices/subCategorySlice.ts:35-37 | appends the payload unchanged, `categoryId` included and unchecked, with no duplicate-id check |
| `SubCategories.UpdateSubCategoryReplacesFirst` | src/store/slices/subCategorySlice.ts:38-43 | the first record with the id becomes the payload, whose `categoryId` may differ; no other position changes; with the id absent the state is unchanged |
| `SubCategories.DeleteSubCategoryFilters` | src/store/slices/subCategorySlice.ts:44-46 | order-preserving filter of the records with another id; the state is unchanged if and only if the id is absent; idempotent |
| `SubCategories.ToggleSubCategoryStatusFirstOnly` | src/store/slices/subCategorySlice.ts:47-53 | flips `isActive` and stamps `updatedAt` on the first match; other records are unchanged |
| `SubCategories.ToggleSubCategoryStatusTwice` | src/store/slices/subCategorySlice.ts:47-53 | toggling twice restores `isActive`; the only trace is the second stamp |
| `SubCategories.DuplicateIds` | src/store/slices/subCategorySlice.ts:38-53 | with a duplicated id, update and toggle leave the later occurrence unchanged, while delete removes every occurrence |
| `SubCategories.ScratchSettersTouchOneField` | src/store/slices/subCategorySlice.ts:54-62 | `setSelectedSubCategory`, `setLoading` and `setError` each assign their own field only |
| `Users.Reduce` | src/store/slices/userSlice.ts:44-77 | the reducer on state values, one case per action. `loading` and `error` change only through their own setters, and `roles` only through `setRoles`; only the four user actions touch the user table; every action other than `setUsers`, `addUser` and `deleteUser` keeps the table's length and the id at every position |
| `Users.Run` | src/store/slices/userSlice.ts:44-77 | dispatching actions one after another; a run in which no action signs in or out leaves `currentUser` and `isAuthenticated` as they were |
| `Users.UserSlice.constructor` | src/store/slices/userSlice.ts:32-39 | the state is the initial state (signed out, empty tables), and the session invariant holds |
| `Users.UserSlice.SetCurrentUser` | src/store/slices/userSlice.ts:45-48 | the new state is what the reducer gives for `setCurrentUser`, and the session invariant holds afterwards |
| `Users.UserSlice.ClearCurrentUser` | src/store/slices/userSlice.ts:49-52 | the new state is what the reducer gives for `clearCurrentUser`, and the session invariant holds afterwards |
| `Users.UserSlice.SetUsers` | src/store/slices/userSlice.ts:53-55 | the new state is what the reducer gives for `setUsers`; the session invariant is preserved |
| `Users.UserSlice.AddUser` | src/store/slices/userSlice.ts:56-58 | the new state is what the reducer gives for `addUser`; the session invariant is preserved |
| `Users.UserSlice.UpdateUser` | src/store/slices/userSlice.ts:59-64 | the new state is what the reducer gives for `updateUser`; the session invariant is preserved |
| `Users.UserSlice.DeleteUser` | src/store/slices/userSlice.ts:65-67 | the new state is what the reducer gives for `deleteUser`; the session invariant is preserved |
| `Users.UserSlice.SetRoles` | src/store/slices/userSlice.ts:68-70 | the new state is what the reducer gives for `setRoles`; the session invariant is preserved |
| `Users.UserSlice.SetLoading` | src/store/slices/userSlice.ts:71-73 | the new state is what the reducer gives for `setLoading`; the session invariant is preserved |
| `Users.UserSlice.SetError` | src/store/slices/userSlice.ts:74-76 | the new state is what the reducer gives for `setError`; the session invariant is preserved |
| `Users.SetCurrentUserSignsIn` | src/store/slices/userSlice.ts:45-48 | sets `currentUser` to the user and `isAuthenticated` to true whatever the state before; nothing else changes |
| `Users.ClearCurrentUserSignsOut` | src/store/slices/userSlice.ts:49-52 | sets `currentUser` to null and `isAuthenticated` to false; nothing else changes |
| `Users.ReducePreservesSession` | src/store/slices/userSlice.ts:45-76 | every reducer keeps `isAuthenticated <==> currentUser != null` |
| `Users.RunPreservesSession` | src/store/slices/userSlice.ts:45-76 | any sequence of dispatched actions from a consistent state ends in a consistent state |
| `Users.ReachableSessionConsistent` | src/store/slices/userSlice.ts:32-39 | the invariant holds in the initial state and in every state reachable from it |
| `Users.OnlySessionActionsMoveSession` | src/store/slices/userSlice.ts:53-76 | every action other than `setCurrentUser` and `clearCurrentUser` leaves `currentUser` and `isAuthenticated` unchanged |
| `Users.SessionOutlivesUserRecord` | src/store/slices/userSlice.ts:59-67 | deleting or replacing the signed-in user's record leaves the session unchanged, even though the record is then gone |
| `Users.SetUsersAndRolesReplace` | src/store/slices/userSlice.ts:53-70 | `setUsers` replaces the users verbatim and leaves roles and the session; `setRoles` replaces the roles verbatim and leaves users and the session |
| `Users.AddUserAppends` | src/store/slices/userSlice.ts:56-58 | appends with no duplicate-id check; earlier records, roles, session, `loading` and `error` are unchanged |
| `Users.UpdateUserReplacesFirst` | src/store/slices/userSlice.ts:59-64 | replaces the first record with the id and no other position, or does nothing when the id is absent; roles, session, `loading` and `error` are unchanged |
| `Users.DeleteUserFilters` | src/store/slices/userSlice.ts:65-67 | filters out every record with the id, preserving order; roles, session, `loading` and `error` are unchanged; the state is unchanged if and only if the id is absent; idempotent |
| `Users.ScratchSettersTouchOneField` | src/store/slices/userSlice.ts:71-76 | `setLoading` and `setError` each assign their own field only |

## Left out

- The wall clock. `new Date().toISOString()` is the `now` argument of the
  stamping actions. The claim that each toggle strictly increases `updatedAt`
  depends on the clock and is not modelled.
- JavaScript `number` semantics. Stock arithmetic is on unbounded integers,
  with no floating point, overflow or NaN. `price` and `cost` are never
  computed on.
- Immer's copy-on-write drafts, the Redux store wiring (`src/store/index.ts`),
  subscriptions and re-rendering. Each slice is modelled on its own. No action
  spans two slices, so deleting a category leaves sub-categories and products
  that name it untouched.
- The page components. This covers the "Unknown" label fallback, the
  low-stock test with its fixed threshold of 10, the dashboard's stock value
  (a floating-point product with locale formatting) and form handling. All of
  this is view code.
- The login page's placeholder credential check and navigation. It is an
  asynchronous demo stub that ends in `setCurrentUser`, which is modelled.
- The router's auth gate. It only branches on `isAuthenticated`, which the
  session invariant covers.
- The date-picker widget, whose behaviour is all JavaScript `Date` and
  time-zone semantics.
