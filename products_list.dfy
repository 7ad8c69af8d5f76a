/**
 * What the product list computes from the store: the categories offered in
 * the filter, the items that match the search text and the chosen category,
 * and the mount effect that fetches the products while the list is empty.
 */
module ProductsList {
  import opened Common
  import opened Thunks
  import opened Entities
  import ProductsSlice

  /** Lower-cases the ASCII letters A to Z and leaves every other character alone. */
  function LowerChar(c: char): char {
    if 'A' <= c <= 'Z' then (c as int - 'A' as int + 'a' as int) as char else c
  }

  /** `s.toLowerCase()` for ASCII text: no upper-case ASCII letter survives, every other character stays. */
  function ToLower(s: string): (r: string)
    ensures |r| == |s|
    ensures forall i :: 0 <= i < |r| ==> !('A' <= r[i] <= 'Z')
    ensures forall i :: 0 <= i < |s| && !('A' <= s[i] <= 'Z') ==> r[i] == s[i]
    ensures forall i :: 0 <= i < |s| && 'A' <= s[i] <= 'Z' ==> r[i] as int == s[i] as int + 32
  {
    seq(|s|, i requires 0 <= i < |s| => LowerChar(s[i]))
  }

  /** Lower-casing twice is lower-casing once. */
  lemma ToLowerIdempotent(s: string)
    ensures ToLower(ToLower(s)) == ToLower(s)
  {
    var once := ToLower(s);
    assert forall i :: 0 <= i < |once| ==> ToLower(once)[i] == once[i];
  }

  /** part occurs in text starting at index i. */
  predicate OccursAt(text: string, part: string, i: int) {
    0 <= i <= |text| - |part| && text[i..i + |part|] == part
  }

  /** `text.includes(part)` */
  function Contains(text: string, part: string): (r: bool)
    ensures r ==> |part| <= |text|
    ensures part == [] ==> r
    ensures part == text ==> r
    ensures forall k :: 0 <= k <= |text| && part == text[..k] ==> r
  {
    assert OccursAt(text, [], 0);
    assert OccursAt(text, text, 0);
    assert forall k :: 0 <= k <= |text| && part == text[..k] ==> OccursAt(text, part, 0);
    exists i :: 0 <= i <= |text| - |part| && OccursAt(text, part, i)
  }

  /**
   * The filter test of one product, with `lower` standing for `toLowerCase`.
   * An empty category imposes nothing.
   */
  predicate Matches(p: Product, search: string, category: string, lower: string -> string) {
    Contains(lower(p.name), lower(search)) && (category != "" ==> p.category == category)
  }

  /** `filteredItems`, with `lower` standing for `toLowerCase`. */
  function FilteredItems(items: seq<Product>, search: string, category: string, lower: string -> string): (r: seq<Product>)
    ensures IsSubsequence(r, items)
    ensures forall i :: 0 <= i < |r| ==> Contains(lower(r[i].name), lower(search))
    ensures category != "" ==> forall i :: 0 <= i < |r| ==> r[i].category == category
    ensures forall i ::
              (0 <= i < |items| && Contains(lower(items[i].name), lower(search)) &&
               (category == "" || items[i].category == category)) ==> items[i] in r
    ensures forall i :: 0 <= i < |items| ==>
              multiset(r)[items[i]] == if Matches(items[i], search, category, lower) then multiset(items)[items[i]] else 0
  {
    FilterCounts(items, (p: Product) => Matches(p, search, category, lower));
    Filter(items, (p: Product) => Matches(p, search, category, lower))
  }

  /** With an empty search and no category every product is shown, in order. */
  lemma EmptyFilterKeepsAll(items: seq<Product>, lower: string -> string)
    requires lower("") == ""
    ensures FilteredItems(items, "", "", lower) == items
  {
    forall i | 0 <= i < |items| ensures Matches(items[i], "", "", lower) {
      assert OccursAt(lower(items[i].name), lower(""), 0);
    }
  }

  /** The category column of the items, in order. */
  function CategoryColumn(items: seq<Product>): (cs: seq<string>)
    ensures |cs| == |items|
    ensures forall i :: 0 <= i < |items| ==> cs[i] == items[i].category
  {
    seq(|items|, i requires 0 <= i < |items| => items[i].category)
  }

  /** `Array.from(new Set(items.map((item) => item.category)))` */
  function Categories(items: seq<Product>): (r: seq<string>)
    ensures NoDuplicates(r)
    ensures forall c :: c in r <==> exists i :: 0 <= i < |items| && items[i].category == c
    ensures FirstOccurrenceOrder(r, CategoryColumn(items))
  {
    var column := CategoryColumn(items);
    var r := Distinct(column);
    assert forall c :: c in column <==> exists i :: 0 <= i < |items| && items[i].category == c;
    r
  }

  /**
   * The mount effect: fetch the products only while the list is empty. A
   * dispatched fetch runs `pending` and then whatever the API call settles to.
   */
  method FetchIfEmpty(state: ProductsSlice.ProductsState, result: ApiResult<seq<Product>>) returns (dispatched: bool)
    requires state.Valid()
    modifies state
    ensures state.Valid()
    ensures dispatched <==> old(state.items) == []
    ensures !dispatched ==>
              state.items == old(state.items) && state.loading == old(state.loading) &&
              state.error == old(state.error) && state.favorites == old(state.favorites)
    ensures dispatched ==> !state.loading && state.favorites == old(state.favorites)
    ensures dispatched && result.Resolved? ==> state.items == result.value && state.error == None
    ensures dispatched && result.Threw? ==>
              state.items == old(state.items) && state.error == Some(RejectMessage(result.thrown))
  {
    dispatched := |state.items| == 0;
    if dispatched {
      state.Reduce(ProductsSlice.Fetch(Pending));
      state.Reduce(ProductsSlice.Fetch(Settle(result)));
    }
  }
}
