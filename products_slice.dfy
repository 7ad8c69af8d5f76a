/**
 * The products slice: its state, the local `toggleFavorite` reducer and the
 * reducer cases for the fetch, add, update and remove thunks. Each case is one
 * synchronous step that edits the state in place; the thunk's outcome arrives
 * as the action's phase.
 */
module ProductsSlice {
  import opened Common
  import opened Thunks
  import opened Entities

  /** The actions the slice receives: the local toggle and the lifecycle actions of the four thunks. */
  datatype ProductsAction =
    | Toggle(id: string)
    | Fetch(fetched: Phase<seq<Product>>)
    | Add(added: Phase<Product>)
    | Update(updated: Phase<Product>)
    | Remove(removed: Phase<string>)

  /** The slice has no case for these actions, so they leave the state as it is. */
  predicate Ignored(action: ProductsAction) {
    match action
    case Add(phase) => !phase.Fulfilled?
    case Update(phase) => !phase.Fulfilled?
    case Remove(phase) => !phase.Fulfilled?
    case _ => false
  }

  /** `favorites.filter((favId) => favId !== id)` */
  function FavoritesWithout(favorites: seq<string>, id: string): (r: seq<string>)
    ensures id !in r
    ensures forall f :: f in r <==> f in favorites && f != id
    ensures forall f :: f != id ==> multiset(r)[f] == multiset(favorites)[f]
    ensures IsSubsequence(r, favorites)
    ensures id !in favorites ==> r == favorites
  {
    FilterCounts(favorites, (f: string) => f != id);
    Filter(favorites, (f: string) => f != id)
  }

  /** The favorites after `toggleFavorite(id)`. */
  function Toggled(favorites: seq<string>, id: string): (r: seq<string>)
    ensures id in favorites ==> forall f :: f in r <==> f in favorites && f != id
    ensures id !in favorites ==> r == favorites + [id]
  {
    if id in favorites then FavoritesWithout(favorites, id) else favorites + [id]
  }

  /** Toggling twice restores membership, and restores the exact list when the id was absent. */
  lemma {:induction false} ToggleTwice(favorites: seq<string>, id: string)
    ensures forall f :: f in Toggled(Toggled(favorites, id), id) <==> f in favorites
    ensures id !in favorites ==> Toggled(Toggled(favorites, id), id) == favorites
  {
    if id !in favorites {
      var once := favorites + [id];
      FilterConcat(favorites, [id], (f: string) => f != id);
      assert Filter([id], (f: string) => f != id) == [];
      assert Toggled(once, id) == favorites;
    }
  }

  /** Dropping an id keeps a duplicate-free list duplicate-free. */
  lemma FavoritesWithoutKeepsNoDuplicates(favorites: seq<string>, id: string)
    requires NoDuplicates(favorites)
    ensures NoDuplicates(FavoritesWithout(favorites, id))
  {
    SubsequencePreservesNoDuplicates(FavoritesWithout(favorites, id), favorites);
  }

  /** `toggleFavorite` never introduces a duplicate favorite. */
  lemma ToggleKeepsNoDuplicates(favorites: seq<string>, id: string)
    requires NoDuplicates(favorites)
    ensures NoDuplicates(Toggled(favorites, id))
  {
    if id in favorites {
      FavoritesWithoutKeepsNoDuplicates(favorites, id);
    }
  }

  class ProductsState {
    var items: seq<Product>
    var loading: bool
    var error: Option<string>
    /** Favorite product ids. */
    var favorites: seq<string>

    /** Every step keeps the favorites free of duplicates. */
    ghost predicate Valid()
      reads this
    {
      NoDuplicates(favorites)
    }

    /** `initialState` */
    constructor ()
      ensures Valid()
      ensures items == [] && !loading && error == None && favorites == []
    {
      items, loading, error, favorites := [], false, None, [];
    }

    /** `toggleFavorite`: remove every occurrence of a favorite id, or append an absent one. */
    method ToggleFavorite(id: string)
      requires Valid()
      modifies this
      ensures Valid()
      ensures favorites == Toggled(old(favorites), id)
      ensures items == old(items) && loading == old(loading) && error == old(error)
    {
      ToggleKeepsNoDuplicates(favorites, id);
      if id in favorites {
        favorites := FavoritesWithout(favorites, id);
      } else {
        favorites := favorites + [id];
      }
    }

    /** `fetchProducts.pending` */
    method FetchPending()
      requires Valid()
      modifies this
      ensures Valid()
      ensures loading && error == None
      ensures items == old(items) && favorites == old(favorites)
    {
      loading := true;
      error := None;
    }

    /** `fetchProducts.fulfilled`: the payload replaces the items wholesale; `error` is not touched. */
    method FetchFulfilled(payload: seq<Product>)
      requires Valid()
      modifies this
      ensures Valid()
      ensures items == payload && !loading
      ensures error == old(error) && favorites == old(favorites)
    {
      items := payload;
      loading := false;
    }

    /** `fetchProducts.rejected`: the items from before the attempt are kept. */
    method FetchRejected(message: string)
      requires Valid()
      modifies this
      ensures Valid()
      ensures !loading && error == Some(message)
      ensures items == old(items) && favorites == old(favorites)
    {
      loading := false;
      error := Some(message);
    }

    /** `addProduct.fulfilled`: one element appended at the end. */
    method AddFulfilled(product: Product)
      requires Valid()
      modifies this
      ensures Valid()
      ensures |items| == |old(items)| + 1
      ensures items[..|old(items)|] == old(items) && items[|old(items)|] == product
      ensures loading == old(loading) && error == old(error) && favorites == old(favorites)
    {
      items := items + [product];
    }

    /**
     * `updateProduct.fulfilled`: the first item with the payload's id is
     * replaced; with no such item nothing changes and nothing is inserted.
     */
    method UpdateFulfilled(product: Product)
      requires Valid()
      modifies this
      ensures Valid()
      ensures |items| == |old(items)|
      ensures (forall j :: 0 <= j < |old(items)| ==> old(items)[j].id != product.id) ==> items == old(items)
      ensures forall i :: FirstProductWithId(old(items), i, product.id) ==> items == old(items)[i := product]
      ensures forall j :: 0 <= j < |items| ==> items[j].id == old(items)[j].id
      ensures loading == old(loading) && error == old(error) && favorites == old(favorites)
    {
      var index := ProductIndex(items, product.id);
      if index != -1 {
        items := items[index := product];
      }
    }

    /** `removeProduct.fulfilled`: the id leaves both the items and the favorites. */
    method RemoveFulfilled(id: string)
      requires Valid()
      modifies this
      ensures Valid()
      ensures items == ProductsWithout(old(items), id)
      ensures favorites == FavoritesWithout(old(favorites), id)
      ensures loading == old(loading) && error == old(error)
    {
      FavoritesWithoutKeepsNoDuplicates(favorites, id);
      items := ProductsWithout(items, id);
      favorites := FavoritesWithout(favorites, id);
    }

    /** The slice reducer: routes an action to its case; actions without a case change nothing. */
    method Reduce(action: ProductsAction)
      requires Valid()
      modifies this
      ensures Valid()
      ensures action.Toggle? ==>
                favorites == Toggled(old(favorites), action.id) &&
                items == old(items) && loading == old(loading) && error == old(error)
      ensures action == Fetch(Pending) ==>
                loading && error == None && items == old(items) && favorites == old(favorites)
      ensures action.Fetch? && action.fetched.Fulfilled? ==>
                items == action.fetched.payload && !loading &&
                error == old(error) && favorites == old(favorites)
      ensures action.Fetch? && action.fetched.Rejected? ==>
                !loading && error == Some(action.fetched.message) &&
                items == old(items) && favorites == old(favorites)
      ensures action.Add? && action.added.Fulfilled? ==>
                items == old(items) + [action.added.payload] &&
                loading == old(loading) && error == old(error) && favorites == old(favorites)
      ensures action.Update? && action.updated.Fulfilled? &&
              (forall j :: 0 <= j < |old(items)| ==> old(items)[j].id != action.updated.payload.id) ==>
                items == old(items)
      ensures action.Update? && action.updated.Fulfilled? ==>
                |items| == |old(items)| &&
                (forall j :: 0 <= j < |items| ==> items[j].id == old(items)[j].id) &&
                (forall i :: FirstProductWithId(old(items), i, action.updated.payload.id) ==>
                   items == old(items)[i := action.updated.payload]) &&
                loading == old(loading) && error == old(error) && favorites == old(favorites)
      ensures action.Remove? && action.removed.Fulfilled? ==>
                items == ProductsWithout(old(items), action.removed.payload) &&
                favorites == FavoritesWithout(old(favorites), action.removed.payload) &&
                loading == old(loading) && error == old(error)
      ensures Ignored(action) ==>
                items == old(items) && loading == old(loading) && error == old(error) && favorites == old(favorites)
    {
      match action
      case Toggle(id) => ToggleFavorite(id);
      case Fetch(Pending) => FetchPending();
      case Fetch(Fulfilled(payload)) => FetchFulfilled(payload);
      case Fetch(Rejected(message)) => FetchRejected(message);
      case Add(Fulfilled(product)) =>
        AddFulfilled(product);
        assert items == old(items) + [product];
      case Update(Fulfilled(product)) => UpdateFulfilled(product);
      case Remove(Fulfilled(id)) => RemoveFulfilled(id);
      case _ =>
    }
  }

  /**
   * Two walkthroughs: adding to an empty list gives one item; removing the
   * only item, which is also a favorite, empties both lists.
   */
  method Walkthrough(mug: Product)
    requires mug.id != ""
  {
    var state := new ProductsState();
    state.Reduce(Add(Fulfilled(mug)));
    assert |state.items| == 1 && state.items[0].id != "";

    state.Reduce(Toggle(mug.id));
    assert state.favorites == [mug.id];
    state.Reduce(Remove(Rejected("Network Error")));
    assert state.items == [mug];
    state.Reduce(Remove(Fulfilled(mug.id)));
    assert mug.id !in state.favorites;
    assert state.items == [];
  }
}
