# Product and user console: client state and mock backend, in Dafny

This project models the state logic of a small browser console for two record
types, products and users. It covers five parts:

- **Slices.** The products and users slices are Redux stores. Each holds
  `items`, `loading` and `error`. The products slice also holds a list of
  favorite ids. The slices react to the life-cycle actions (`pending`,
  `fulfilled`, `rejected`) of four async thunks: fetch, add, update and remove.
  The products slice also has a local `toggleFavorite` reducer.
- **Thunks.** A thunk catches what the API call threw and turns it into a
  rejection message.
- **Mock backend.** Two module-level tables, `mockProducts` and `mockUsers`,
  stand in for a server. Their GET-by-id, POST, PUT and DELETE handlers answer
  with a status code. Each handler takes the record id from the last
  `/`-separated segment of the request URL.
- **Validation.** The product form schema has four field rules.
- **List selectors.** The product list computes its `categories` and
  `filteredItems`, and it fetches the products on mount only while the list is
  empty.

Module layout, one file each:

- `common.dfy` (`Common`): the array operations the source uses, as sequence
  functions. These are `filter`, `findIndex`, `splice(i, 1)` and
  `Array.from(new Set(...))`. The file also holds the subsequence and
  no-duplicates facts about them.
- `thunks.dfy` (`Thunks`): a thunk's outcome is an input value. It is either
  the resolved value or what was thrown, and it becomes the action phase.
- `entities.dfy` (`Entities`): the `Product` and `User` records, the request
  bodies, and the object spreads `{ ...stored, ...patch }` and
  `{ id: newId, ...body }`.
- `products_slice.dfy` and `users_slice.dfy`: each slice is a class whose
  fields are the state. Each reducer case is a method that edits those fields
  in place. `Reduce` routes an action to its case. Actions that have no case
  leave the state unchanged.
- `mock_api.dfy` (`MockApi`): `split('/')`, the last segment and the request
  id. It also holds one class per table; each handler is a method on the
  table's `rows`.
- `product_validation.dfy` (`ProductValidation`): the yup rule chains, checked
  against plainly stated rules.
- `products_list.dfy` (`ProductsList`): the two selectors and the
  fetch-if-empty mount effect.

The class invariant of the products state is that `favorites` never holds the
same id twice. The constructor establishes it and every case keeps it.

Nothing in the slices keeps ids unique: a fetch payload or an added record is
stored as given, so `items` may hold two records with the same id. The model
follows the code. It proves that an update leaves the id at every index
unchanged, and that a remove keeps every other record with its multiplicity and
in order.

## Model

| member | source | states |
|---|---|---|
| Common.Filter | src/modules/products/store/productsSlice.ts:141 | every kept element passes the test and comes from the input; every element that passes is kept; the kept ones keep their original relative order (a subsequence); it is never longer; when every element passes it is the input |
| Common.FilterCounts | src/modules/products/store/productsSlice.ts:141 | `filter` keeps multiplicity: an element that passes occurs in the result exactly as often as in the input, one that fails occurs zero times |
| Common.FindIndex | src/modules/products/store/productsSlice.ts:134 | -1 exactly when no element matches; otherwise the index of a matching element with no match before it |
| Common.RemoveAt | src/mock/mockApi.ts:57 | `splice(i, 1)` drops exactly the element at i: one shorter, the elements before i are unchanged and the ones after shift down by one |
| Common.Distinct | src/modules/products/components/ProductsList.tsx:35 | no duplicates, the same members as the input, listed in first-occurrence order (the iteration order of a `Set`) |
| Common.FilterConcat | src/modules/products/store/productsSlice.ts:107 | filtering a concatenation is the concatenation of the filtered parts |
| Common.SubsequenceReflexive | src/mock/mockApi.ts:49 | a table that a failed DELETE leaves as it is counts as a subsequence of itself |
| Common.RemoveAtIsSubsequence | src/mock/mockApi.ts:57 | splicing out one element keeps the rest in order |
| Common.SubsequencePreservesNoDuplicates | src/modules/products/store/productsSlice.ts:107 | deleting elements from a list without duplicates cannot create one |
| Common.SubsequenceMembers | src/modules/products/store/productsSlice.ts:141 | every element of a subsequence was in the original list |
| Thunks.RejectMessage | src/modules/users/store/usersSlice.ts:38-43 | an `Error` rejects with its own message; any other thrown value rejects with exactly "An unknown error occurred" |
| Thunks.Settle | src/modules/products/store/productsSlice.ts:34-47 | a resolved API call fulfils with its value; a throw rejects with the mapped message; a settled thunk is never pending |
| Thunks.SettleRemoval | src/modules/products/store/productsSlice.ts:79-92 | a successful delete fulfils with the requested id, not with the API's value; a throw rejects with the mapped message |
| Entities.MergeProduct | src/mock/mockApi.ts:46 | `{ ...stored, ...updatedData }`: every field the body sets comes from the body, every other field from the stored product |
| Entities.MergeUser | src/mock/mockApi.ts:92 | the same spread for users, field by field |
| Entities.NewProduct | src/mock/mockApi.ts:35 | the created product takes every field from the body; its id is the body's id when the body has one, else the generated id |
| Entities.NewUser | src/mock/mockApi.ts:81 | the same for users: an id in the body overrides the generated one |
| Entities.MergeProductLaws | src/mock/mockApi.ts:46 | merging an empty body changes nothing; merging a full product yields that product; merging the same body twice equals merging it once |
| Entities.MergeUserLaws | src/mock/mockApi.ts:92 | the same three laws for the user spread |
| Entities.ProductIndex | src/mock/mockApi.ts:44 | -1 iff no product has the id; otherwise the first index holding that id |
| Entities.UserIndex | src/modules/users/store/usersSlice.ts:120 | -1 iff no user has the id; otherwise the first index holding that id |
| Entities.ProductsWithout | src/modules/products/store/productsSlice.ts:141 | no kept product has the id, every product with another id is kept with its full multiplicity, order is preserved, length never grows |
| Entities.UsersWithout | src/modules/users/store/usersSlice.ts:127 | no kept user has the id, every other user is kept with its full multiplicity, order is preserved, length never grows |
| ProductsSlice.FavoritesWithout | src/modules/products/store/productsSlice.ts:142 | the id is gone, every other favorite stays as many times as it occurred, order is kept; an absent id leaves the list as it is |
| ProductsSlice.Toggled | src/modules/products/store/productsSlice.ts:104-111 | a present id loses every occurrence and nothing else changes membership; an absent id is appended at the end |
| ProductsSlice.ToggleTwice | src/modules/products/store/productsSlice.ts:104-111 | toggling twice restores membership; when the id was absent it restores the exact list |
| ProductsSlice.FavoritesWithoutKeepsNoDuplicates | src/modules/products/store/productsSlice.ts:142 | removing an id from a duplicate-free favorites list keeps it duplicate-free |
| ProductsSlice.ToggleKeepsNoDuplicates | src/modules/products/store/productsSlice.ts:106-110 | a toggle never introduces a duplicate favorite |
| ProductsSlice.ProductsState.constructor | src/modules/products/store/productsSlice.ts:25-30 | the initial state has no items, `loading` false, no error and no favorites |
| ProductsSlice.ProductsState.ToggleFavorite | src/modules/products/store/productsSlice.ts:104-111 | favorites become the toggled list; items, loading and error are untouched; no duplicates |
| ProductsSlice.ProductsState.FetchPending | src/modules/products/store/productsSlice.ts:116-119 | `loading` is set and `error` cleared; items and favorites are untouched |
| ProductsSlice.ProductsState.FetchFulfilled | src/modules/products/store/productsSlice.ts:120-123 | items become the payload wholesale and `loading` is cleared; `error` and favorites are untouched |
| ProductsSlice.ProductsState.FetchRejected | src/modules/products/store/productsSlice.ts:124-127 | `loading` is cleared and `error` holds the message; the items from before the attempt are kept |
| ProductsSlice.ProductsState.AddFulfilled | src/modules/products/store/productsSlice.ts:129-131 | exactly one element, the payload, is appended at the end; the earlier items and the other fields are unchanged |
| ProductsSlice.ProductsState.UpdateFulfilled | src/modules/products/store/productsSlice.ts:133-138 | length is kept; only the first item with the payload's id is replaced; with no such item nothing changes and nothing is inserted; the id at every index is kept |
| ProductsSlice.ProductsState.RemoveFulfilled | src/modules/products/store/productsSlice.ts:140-143 | every item and every favorite with the id is dropped, the rest keep their order, and neither list grows |
| ProductsSlice.ProductsState.Reduce | src/modules/products/store/productsSlice.ts:113-144 | each action has the effect of its case, including the no-op update of an absent id; the pending and rejected actions of add, update and remove leave the whole state unchanged, so a failed mutation stores nothing |
| UsersSlice.UsersState.constructor | src/modules/users/store/usersSlice.ts:24-28 | the initial state has no items, `loading` false and no error |
| UsersSlice.UsersState.FetchPending | src/modules/users/store/usersSlice.ts:102-105 | `loading` is set and `error` cleared; items are untouched |
| UsersSlice.UsersState.FetchFulfilled | src/modules/users/store/usersSlice.ts:106-109 | items become the payload and `loading` is cleared; `error` is untouched |
| UsersSlice.UsersState.FetchRejected | src/modules/users/store/usersSlice.ts:110-113 | items are kept, `loading` is cleared and `error` holds the message |
| UsersSlice.UsersState.AddFulfilled | src/modules/users/store/usersSlice.ts:115-117 | length grows by exactly one and the new last element is the payload |
| UsersSlice.UsersState.UpdateFulfilled | src/modules/users/store/usersSlice.ts:119-124 | length is kept and at most one index changes, the first with the payload's id; no-op when the id is absent |
| UsersSlice.UsersState.RemoveFulfilled | src/modules/users/store/usersSlice.ts:126-128 | no user with the id remains, and the others keep their order |
| UsersSlice.UsersState.Reduce | src/modules/users/store/usersSlice.ts:99-129 | each action has the effect of its case, including the no-op update of an absent id; actions without a case leave the state unchanged |
| MockApi.Split | src/mock/mockApi.ts:26 | `split('/')` yields at least one piece, no piece contains `/`, one piece means no separator, and the last piece is the last segment |
| MockApi.JoinSplit | src/mock/mockApi.ts:26 | joining the pieces of a split with `/` gives back the URL |
| MockApi.LastSegment | src/mock/mockApi.ts:26 | `pop()` gives the suffix without `/` that is either the whole URL or preceded by `/` |
| MockApi.LastSegmentUnique | src/mock/mockApi.ts:26 | that suffix is unique |
| MockApi.RequestId | src/mock/mockApi.ts:26 | the id is never empty: `'0'` when the URL is missing or its last segment is empty, the last segment otherwise |
| MockApi.ProductTable.constructor | src/mock/products.ts:7 | the table starts as the given fixture rows |
| MockApi.ProductTable.List | src/mock/mockApi.ts:20-22 | GET /products answers 200 with the whole table |
| MockApi.ProductTable.GetById | src/mock/mockApi.ts:25-29 | 200 with the first product whose id is the URL's id, 404 with "Product not found" when there is none; the table is only read |
| MockApi.ProductTable.Post | src/mock/mockApi.ts:32-38 | exactly one record, `{ id: newId, ...body }`, is appended and returned with 201 |
| MockApi.ProductTable.Put | src/mock/mockApi.ts:41-50 | on a match the body is merged over the first matching product at the same index, with 200 and the merged record; length and every other index are kept; with no match, 404 and the table unchanged |
| MockApi.ProductTable.Delete | src/mock/mockApi.ts:53-61 | on a match only the first matching product is spliced out (one shorter, order kept) and 204 is returned; with no match, 404 and the table unchanged |
| MockApi.UserTable.constructor | src/mock/users.ts:7 | the table starts as the given fixture rows |
| MockApi.UserTable.List | src/mock/mockApi.ts:66-68 | GET /users answers 200 with the whole table |
| MockApi.UserTable.GetById | src/mock/mockApi.ts:71-75 | 200 with the first matching user, 404 with "User not found" otherwise; the table is only read |
| MockApi.UserTable.Post | src/mock/mockApi.ts:78-84 | exactly one record, `{ id: newId, ...body }`, is appended and returned with 201 |
| MockApi.UserTable.Put | src/mock/mockApi.ts:87-96 | merge at the first matching index with 200, or 404 with the table unchanged; length always kept |
| MockApi.UserTable.Delete | src/mock/mockApi.ts:99-107 | splice of the first match with 204, or 404 with the table unchanged; the result is a subsequence |
| ProductValidation.Utf16Length | src/modules/products/validation/productValidationSchema.ts:9 | the `length` that `min` tests, in UTF-16 code units: between the number of characters and twice it; exactly the number of characters when all of them lie in the Basic Multilingual Plane, twice it when none does |
| ProductValidation.OneEmojiNameIsLongEnough | src/modules/products/validation/productValidationSchema.ts:6-9 | a name made of one emoji is two code units long and passes `min(2)` |
| ProductValidation.StringViolation | src/modules/products/validation/productValidationSchema.ts:6-9 | a string field passes iff it is present, non-empty and at least `min` UTF-16 code units long; a missing or empty value fails `required` |
| ProductValidation.PriceViolation | src/modules/products/validation/productValidationSchema.ts:10-14 | the price passes iff it is a number strictly above 0; a non-number fails with the type error; 0 and below fail `positive` |
| ProductValidation.FieldViolation | src/modules/products/validation/productValidationSchema.ts:5-20 | each field passes exactly when its stated rule holds: name present with 2 or more UTF-16 code units, price a positive number, description present with 5 or more code units, category present |
| ProductValidation.Errors | src/modules/products/validation/productValidationSchema.ts:5-20 | a field has an error iff its rule chain fails; the form has no errors iff all four rules hold |
| ProductValidation.IsValid | src/modules/products/validation/productValidationSchema.ts:5-20 | the schema accepts the form iff the name, price, description and category rules all hold |
| ProductValidation.OneFailingFieldBlocks | src/modules/products/validation/productValidationSchema.ts:5-20 | any single failing field makes the whole form invalid |
| ProductsList.ToLower | src/modules/products/components/ProductsList.tsx:42 | `toLowerCase` on ASCII text: same length, no upper-case ASCII letter left, each A to Z mapped to its lower-case letter, every other character unchanged |
| ProductsList.ToLowerIdempotent | src/modules/products/components/ProductsList.tsx:42 | lower-casing an already lower-cased string changes nothing |
| ProductsList.Contains | src/modules/products/components/ProductsList.tsx:42 | `includes`: a contained part is never longer than the text; the empty string, the text itself and every prefix of it are contained |
| ProductsList.FilteredItems | src/modules/products/components/ProductsList.tsx:40-46 | for any lower-casing function: an order-preserving subsequence of the items; each kept item's lower-cased name contains the lower-cased search; with a category, each kept item has exactly that category; every item that passes both tests is kept as many times as it occurs, and every other item occurs zero times |
| ProductsList.EmptyFilterKeepsAll | src/modules/products/components/ProductsList.tsx:41-44 | with an empty search and no category, all items are kept in order, for any lower-casing that maps the empty string to itself |
| ProductsList.CategoryColumn | src/modules/products/components/ProductsList.tsx:35 | `items.map((item) => item.category)`: one entry per item, in order |
| ProductsList.Categories | src/modules/products/components/ProductsList.tsx:34-37 | no duplicates; a category is listed iff some item has it; listed in first-occurrence order |
| ProductsList.FetchIfEmpty | src/modules/products/components/ProductsList.tsx:27-31 | a fetch is dispatched iff the items are empty; then `loading` ends false, a success stores the payload with no error, and a failure keeps the items and stores the message; otherwise nothing changes |

## Left out

- Rendering, routing, the Ant Design widgets, the detail pages and the form
  components are left out. So are the i18n setup, the axios instance with its
  logging interceptors, and the store composition. Only the two selectors and
  the mount guard of the product list are kept.
- The axios API wrappers (`productsApi.ts`, `usersApi.ts`) are not part of this
  model. Each call's outcome is an `ApiResult` input: the resolved value, or a
  thrown `Error` or non-Error value. The HTTP link between a wrapper and a mock
  handler is not modelled.
- Asynchrony is left out. This covers thunk scheduling, the 500 ms mock delay
  and the order in which overlapping requests settle. Each reducer case is one
  atomic step with its payload as a parameter.
- The generated ids (`new Date().getTime()`, `Date.now()`) are parameters,
  because a clock is not modelled.
- Prices are `real`, not IEEE doubles. The only numeric rule is `> 0`.
- JSON parsing of request bodies is not modelled. A PUT body is a partial
  record with optional fields. A POST body always has the four non-id fields,
  as `Omit<Product, 'id'>` and `Omit<User, 'id'>` require, plus an optional
  `id`.
- ProductsList.ToLower: only the ASCII letters A to Z are lower-cased. Full
  Unicode case mapping of `toLowerCase` is not modelled, for example the
  Turkish dotted capital I. `FilteredItems` and `EmptyFilterKeepsAll` take the
  lowering function as a parameter, so their contracts hold for the real
  `toLowerCase` as well.
- ProductValidation.StringViolation: yup type coercion of non-string values
  into strings is not modelled. Where a chain has more than one failing rule,
  the model reports the first failing rule in declaration order. The
  translated message texts are not modelled.
- `UsersList.tsx` imports a `getUsers` action that the users slice does not
  export. That file is UI and is not part of this model.
