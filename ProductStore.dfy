/**
 * The product store: the canonical product list last handed over by a page
 * loader (`allProducts`), the list on display (`products`, `null` until first
 * set) and a loading flag. The displayed list is recomputed by running the
 * filtering, searching and sorting collaborators, in that order, over the
 * canonical list.
 */
module ProductStore {
  import opened Wrappers

  /**
   * One collaborator: whether it is active, and its transform. The transform
   * yields `None` when it throws.
   */
  datatype Stage<!P> = Stage(active: bool, apply: seq<P> -> Option<seq<P>>)

  /** The filtering, searching and sorting collaborators. */
  datatype Pipeline<!P> = Pipeline(filtering: Stage<P>, searching: Stage<P>, sorting: Stage<P>)
  {
    predicate AnyActive() {
      filtering.active || searching.active || sorting.active
    }
  }

  /** What a page loader passes to `setProducts`: an array, or some other value. */
  datatype Incoming<P> = ProductArray(items: seq<P>) | NotAnArray

  /**
   * `applyProductFilters`: each active stage in turn replaces the working list;
   * a stage that throws ends the whole run with `None`.
   */
  function ApplyProductFilters<P>(pl: Pipeline<P>, products: seq<P>): (r: Option<seq<P>>)
    ensures !pl.AnyActive() ==> r == Some(products)
    ensures pl.filtering.active && pl.filtering.apply(products).None? ==> r.None?
    ensures !pl.filtering.active && pl.searching.active && pl.searching.apply(products).None? ==> r.None?
    ensures pl.sorting.active && !pl.filtering.active && !pl.searching.active ==> r == pl.sorting.apply(products)
  {
    var afterFilter := if pl.filtering.active then pl.filtering.apply(products) else Some(products);
    if afterFilter.None? then None
    else
      var afterSearch := if pl.searching.active then pl.searching.apply(afterFilter.value) else afterFilter;
      if afterSearch.None? then None
      else if pl.sorting.active then pl.sorting.apply(afterSearch.value)
      else afterSearch
  }

  /** Reference definition: run a list of stages, front to back, stopping at the first failure. */
  function RunStages<P>(stages: seq<Stage<P>>, xs: seq<P>): Option<seq<P>> {
    if stages == [] then Some(xs)
    else
      var first := if stages[0].active then stages[0].apply(xs) else Some(xs);
      match first
      case None => None
      case Some(ys) => RunStages(stages[1..], ys)
  }

  /** `applyProductFilters` is exactly filter, then search, then sort. */
  lemma ApplyRunsFilterSearchSort<P>(pl: Pipeline<P>, xs: seq<P>)
    ensures ApplyProductFilters(pl, xs) == RunStages([pl.filtering, pl.searching, pl.sorting], xs)
  {
    var stages := [pl.filtering, pl.searching, pl.sorting];
    assert stages[1..] == [pl.searching, pl.sorting];
    assert stages[1..][1..] == [pl.sorting];
    assert stages[1..][1..][1..] == [];
    var afterFilter := if pl.filtering.active then pl.filtering.apply(xs) else Some(xs);
    if afterFilter.Some? {
      var afterSearch := if pl.searching.active then pl.searching.apply(afterFilter.value) else afterFilter;
      assert RunStages(stages, xs) == RunStages(stages[1..], afterFilter.value);
      if afterSearch.Some? {
        assert RunStages(stages[1..], afterFilter.value) == RunStages([pl.sorting], afterSearch.value);
        var sorted := if pl.sorting.active then pl.sorting.apply(afterSearch.value) else afterSearch;
        if sorted.Some? {
          assert RunStages([pl.sorting], afterSearch.value) == RunStages([], sorted.value);
        }
      }
    }
  }

  /** Running two lists of stages one after the other is running their concatenation. */
  lemma {:induction false} RunStagesAppend<P>(s1: seq<Stage<P>>, s2: seq<Stage<P>>, xs: seq<P>)
    ensures RunStages(s1 + s2, xs) ==
      match RunStages(s1, xs)
      case None => None
      case Some(ys) => RunStages(s2, ys)
  {
    if s1 != [] {
      assert (s1 + s2)[0] == s1[0];
      assert (s1 + s2)[1..] == s1[1..] + s2;
      var first := if s1[0].active then s1[0].apply(xs) else Some(xs);
      if first.Some? {
        RunStagesAppend(s1[1..], s2, first.value);
      }
    } else {
      assert s1 + s2 == s2;
    }
  }

  /** Stages that are all inactive hand the list through unchanged. */
  lemma {:induction false} RunInactiveStages<P>(stages: seq<Stage<P>>, xs: seq<P>)
    requires forall i :: 0 <= i < |stages| ==> !stages[i].active
    ensures RunStages(stages, xs) == Some(xs)
  {
    if stages != [] {
      RunInactiveStages(stages[1..], xs);
    }
  }

  /** An active stage that throws on the list it receives makes the whole run fail. */
  lemma FailingStageFailsRun<P>(before: seq<Stage<P>>, s: Stage<P>, after: seq<Stage<P>>, xs: seq<P>, ys: seq<P>)
    requires RunStages(before, xs) == Some(ys)
    requires s.active && s.apply(ys) == None
    ensures RunStages(before + [s] + after, xs) == None
  {
    RunStagesAppend(before, [s] + after, xs);
    assert before + [s] + after == before + ([s] + after);
    assert ([s] + after)[0] == s;
  }

  /** The shared state behind `useProducts`. */
  class Products<P> {
    var allProducts: seq<P>
    var products: Option<seq<P>>
    var isProductsLoading: bool
    /** How many times the page was scrolled to the top. */
    var scrollsToTop: nat

    /** The state before any page loader ran: no products yet, not loading. */
    constructor ()
      ensures allProducts == [] && products == None && !isProductsLoading && scrollsToTop == 0
    {
      allProducts := [];
      products := None;
      isProductsLoading := false;
      scrollsToTop := 0;
    }

    /**
     * `setProducts(newProducts)`: an array replaces both lists by its value;
     * anything else empties both. Either way loading ends.
     */
    method SetProducts(newProducts: Incoming<P>)
      modifies this`allProducts, this`products, this`isProductsLoading
      ensures newProducts.NotAnArray? ==> allProducts == [] && products == Some([])
      ensures newProducts.ProductArray? ==>
        allProducts == newProducts.items && products == Some(newProducts.items)
      ensures !isProductsLoading
    {
      if newProducts.NotAnArray? {
        products := Some([]);
        allProducts := [];
        isProductsLoading := false;
        return;
      }
      products := Some(newProducts.items);
      allProducts := newProducts.items;
      isProductsLoading := false;
    }

    /** `setProductsLoading(loading)`: only the flag changes. */
    method SetProductsLoading(loading: bool)
      modifies this`isProductsLoading
      ensures isProductsLoading == loading
    {
      isProductsLoading := loading;
    }

    /**
     * `updateProductList()`: scrolls to the top, then shows the canonical list
     * when no stage is active, the pipeline's result when it succeeds, and keeps
     * the displayed list when a stage throws. The canonical list never changes.
     */
    method UpdateProductList(pl: Pipeline<P>)
      modifies this`products, this`scrollsToTop
      ensures scrollsToTop == old(scrollsToTop) + 1
      ensures !pl.AnyActive() ==> products == Some(allProducts)
      ensures pl.AnyActive() ==>
        products == match ApplyProductFilters(pl, allProducts)
                    case Some(shown) => Some(shown)
                    case None => old(products)
    {
      scrollsToTop := scrollsToTop + 1;
      if !pl.AnyActive() {
        products := Some(allProducts);
        return;
      }
      var result := ApplyProductFilters(pl, allProducts);
      if result.Some? {
        products := result;
      }
    }
  }

  /**
   * With only filtering active and a filter that drops the first of two products,
   * the display shows the second while the canonical list keeps both.
   */
  method FilterDropsFirst<P>(p1: P, p2: P, pl: Pipeline<P>) returns (shown: Option<seq<P>>, canonical: seq<P>)
    requires pl.filtering.active && !pl.searching.active && !pl.sorting.active
    requires pl.filtering.apply([p1, p2]) == Some([p2])
    ensures shown == Some([p2]) && canonical == [p1, p2]
  {
    var store := new Products();
    store.SetProducts(ProductArray([p1, p2]));
    store.UpdateProductList(pl);
    shown, canonical := store.products, store.allProducts;
  }

  /**
   * After any run of list recomputations, each with its own collaborators, the
   * canonical list is still the one last set, and the display shows either it or
   * a list that some successful pipeline computed from it.
   */
  method RecomputeKeepsCanonical<P>(xs: seq<P>, pipelines: seq<Pipeline<P>>)
    returns (shown: Option<seq<P>>, canonical: seq<P>)
    ensures canonical == xs
    ensures shown.Some?
    ensures shown == Some(xs) || exists i :: 0 <= i < |pipelines| && ApplyProductFilters(pipelines[i], xs) == shown
  {
    var store := new Products();
    store.SetProducts(ProductArray(xs));
    var n := 0;
    while n < |pipelines|
      invariant 0 <= n <= |pipelines|
      invariant store.allProducts == xs
      invariant store.products.Some?
      invariant store.products == Some(xs) ||
        exists i :: 0 <= i < n && ApplyProductFilters(pipelines[i], xs) == store.products
    {
      store.UpdateProductList(pipelines[n]);
      n := n + 1;
    }
    shown, canonical := store.products, store.allProducts;
  }
}
