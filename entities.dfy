/**
 * The two record types, the request bodies the mock backend receives for them,
 * and the object spreads the backend applies to those bodies.
 */
module Entities {
  import opened Common

  /** A product; prices are JavaScript numbers, modelled as reals. */
  datatype Product = Product(id: string, name: string, price: real, description: string, category: string)

  /** User roles: `'admin'` and `'user'` (here `Standard`). */
  datatype Role = Admin | Standard

  /** User statuses: `'active'` and `'inactive'`. */
  datatype Status = Active | Inactive

  datatype User = User(id: string, name: string, email: string, role: Role, status: Status)

  /** A `Partial<Product>` request body: any field may be absent. */
  datatype ProductPatch = ProductPatch(
    id: Option<string>, name: Option<string>, price: Option<real>,
    description: Option<string>, category: Option<string>)

  /** A `Partial<User>` request body. */
  datatype UserPatch = UserPatch(
    id: Option<string>, name: Option<string>, email: Option<string>,
    role: Option<Role>, status: Option<Status>)

  /**
   * A POST body for products: typed `Omit<Product, 'id'>`, so the four fields
   * are always sent, but the client may send an `id` as well (the product form
   * does, with a timestamp).
   */
  datatype ProductBody = ProductBody(
    id: Option<string>, name: string, price: real, description: string, category: string)

  /** A POST body for users, likewise. */
  datatype UserBody = UserBody(
    id: Option<string>, name: string, email: string, role: Role, status: Status)

  /** `{ ...stored, ...patch }` */
  function MergeProduct(stored: Product, patch: ProductPatch): (r: Product)
    ensures r.id == if patch.id.Some? then patch.id.value else stored.id
    ensures r.name == if patch.name.Some? then patch.name.value else stored.name
    ensures r.price == if patch.price.Some? then patch.price.value else stored.price
    ensures r.description == if patch.description.Some? then patch.description.value else stored.description
    ensures r.category == if patch.category.Some? then patch.category.value else stored.category
  {
    Product(
      patch.id.GetOr(stored.id), patch.name.GetOr(stored.name), patch.price.GetOr(stored.price),
      patch.description.GetOr(stored.description), patch.category.GetOr(stored.category))
  }

  /** `{ ...stored, ...patch }` */
  function MergeUser(stored: User, patch: UserPatch): (r: User)
    ensures r.id == if patch.id.Some? then patch.id.value else stored.id
    ensures r.name == if patch.name.Some? then patch.name.value else stored.name
    ensures r.email == if patch.email.Some? then patch.email.value else stored.email
    ensures r.role == if patch.role.Some? then patch.role.value else stored.role
    ensures r.status == if patch.status.Some? then patch.status.value else stored.status
  {
    User(
      patch.id.GetOr(stored.id), patch.name.GetOr(stored.name), patch.email.GetOr(stored.email),
      patch.role.GetOr(stored.role), patch.status.GetOr(stored.status))
  }

  /** The whole record sent as a body, as the update thunk does. */
  function ProductAsPatch(p: Product): ProductPatch {
    ProductPatch(Some(p.id), Some(p.name), Some(p.price), Some(p.description), Some(p.category))
  }

  function UserAsPatch(u: User): UserPatch {
    UserPatch(Some(u.id), Some(u.name), Some(u.email), Some(u.role), Some(u.status))
  }

  /**
   * `{ id: newId, ...body }`: the body is spread after the generated id, so an
   * id in the body wins.
   */
  function NewProduct(newId: string, body: ProductBody): (p: Product)
    ensures p.id == if body.id.Some? then body.id.value else newId
    ensures p.name == body.name && p.price == body.price
    ensures p.description == body.description && p.category == body.category
  {
    Product(body.id.GetOr(newId), body.name, body.price, body.description, body.category)
  }

  /** `{ id: newId, ...body }` for users. */
  function NewUser(newId: string, body: UserBody): (u: User)
    ensures u.id == if body.id.Some? then body.id.value else newId
    ensures u.name == body.name && u.email == body.email
    ensures u.role == body.role && u.status == body.status
  {
    User(body.id.GetOr(newId), body.name, body.email, body.role, body.status)
  }

  /** An empty body changes nothing; a full body replaces the stored record; merging is idempotent. */
  lemma MergeProductLaws(stored: Product, patch: ProductPatch, q: Product)
    ensures MergeProduct(stored, ProductPatch(None, None, None, None, None)) == stored
    ensures MergeProduct(stored, ProductAsPatch(q)) == q
    ensures MergeProduct(MergeProduct(stored, patch), patch) == MergeProduct(stored, patch)
  {
  }

  lemma MergeUserLaws(stored: User, patch: UserPatch, q: User)
    ensures MergeUser(stored, UserPatch(None, None, None, None, None)) == stored
    ensures MergeUser(stored, UserAsPatch(q)) == q
    ensures MergeUser(MergeUser(stored, patch), patch) == MergeUser(stored, patch)
  {
  }

  // Look-ups and edits by id, shared by the reducers and the mock backend.

  /** i is the first index of items whose id is id. */
  predicate FirstProductWithId(items: seq<Product>, i: int, id: string) {
    0 <= i < |items| && items[i].id == id && forall j :: 0 <= j < i ==> items[j].id != id
  }

  /** i is the first index of items whose id is id. */
  predicate FirstUserWithId(items: seq<User>, i: int, id: string) {
    0 <= i < |items| && items[i].id == id && forall j :: 0 <= j < i ==> items[j].id != id
  }

  /** `items.findIndex((p) => p.id === id)` */
  function ProductIndex(items: seq<Product>, id: string): (i: int)
    ensures -1 <= i < |items|
    ensures i == -1 <==> forall j :: 0 <= j < |items| ==> items[j].id != id
    ensures 0 <= i ==> FirstProductWithId(items, i, id)
  {
    FindIndex(items, (p: Product) => p.id == id)
  }

  /** `items.findIndex((u) => u.id === id)` */
  function UserIndex(items: seq<User>, id: string): (i: int)
    ensures -1 <= i < |items|
    ensures i == -1 <==> forall j :: 0 <= j < |items| ==> items[j].id != id
    ensures 0 <= i ==> FirstUserWithId(items, i, id)
  {
    FindIndex(items, (u: User) => u.id == id)
  }

  /** `items.filter((p) => p.id !== id)` */
  function ProductsWithout(items: seq<Product>, id: string): (r: seq<Product>)
    ensures |r| <= |items|
    ensures forall i :: 0 <= i < |r| ==> r[i].id != id && r[i] in items
    ensures forall i :: 0 <= i < |items| && items[i].id != id ==> items[i] in r
    ensures forall i :: 0 <= i < |items| ==>
              multiset(r)[items[i]] == if items[i].id != id then multiset(items)[items[i]] else 0
    ensures IsSubsequence(r, items)
  {
    FilterCounts(items, (p: Product) => p.id != id);
    Filter(items, (p: Product) => p.id != id)
  }

  /** `items.filter((u) => u.id !== id)` */
  function UsersWithout(items: seq<User>, id: string): (r: seq<User>)
    ensures |r| <= |items|
    ensures forall i :: 0 <= i < |r| ==> r[i].id != id && r[i] in items
    ensures forall i :: 0 <= i < |items| && items[i].id != id ==> items[i] in r
    ensures forall i :: 0 <= i < |items| ==>
              multiset(r)[items[i]] == if items[i].id != id then multiset(items)[items[i]] else 0
    ensures IsSubsequence(r, items)
  {
    FilterCounts(items, (u: User) => u.id != id);
    Filter(items, (u: User) => u.id != id)
  }
}
