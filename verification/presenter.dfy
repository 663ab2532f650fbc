/**
 * The presenter of the products screen (`ProductsPresenter`, the copy under
 * Modules/ProductsTab). It keeps the fetched product list and the current
 * search result and talks to three collaborators: the view, the toast
 * service and the coordinator. Each collaborator is represented by the log
 * of calls the presenter has made to it. The outcome of the network fetch
 * is a parameter of the operations that await it.
 */
module Presenter {
  import opened Wrappers
  import opened ProductsModel
  import opened Search
  import opened ToastStyles

  /** What `apiClient.getProducts()` delivered: a list, or a thrown error. */
  datatype FetchResult = Fetched(products: seq<Product>) | FetchFailed

  /** A call the presenter makes on its view (`ProductsViewOutput`). */
  datatype ViewCall =
    | SetupInitialState
    | ApplySnapshot(model: seq<Product>, animatingDifferences: bool)
    | EndRefreshing

  /** The localization keys of the presenter's three toasts, as written in the app. */
  const LoadFailedMessage := "Failed to load productsailed to load productsailed to load products"
  const RefreshedMessage := "Products updated. Failed to refresh products. Failed to refresh products"
  const RefreshFailedMessage := "Failed to refresh products"

  /** The list most recently handed to the view, if any. */
  function LastSnapshot(calls: seq<ViewCall>): Option<seq<Product>>
    decreases |calls|
  {
    if calls == [] then None
    else match calls[|calls| - 1]
      case ApplySnapshot(model, _) => Some(model)
      case _ => LastSnapshot(calls[..|calls| - 1])
  }

  /** How many times the view was told to end refreshing. */
  function EndRefreshingCount(calls: seq<ViewCall>): nat
    decreases |calls|
  {
    if calls == [] then 0
    else EndRefreshingCount(calls[..|calls| - 1]) + (if calls[|calls| - 1] == EndRefreshing then 1 else 0)
  }

  lemma {:induction false} EndRefreshingCountAppend(calls: seq<ViewCall>, more: seq<ViewCall>)
    ensures EndRefreshingCount(calls + more) == EndRefreshingCount(calls) + EndRefreshingCount(more)
    decreases |more|
  {
    if more != [] {
      var last := |more| - 1;
      assert (calls + more)[..|calls + more| - 1] == calls + more[..last];
      EndRefreshingCountAppend(calls, more[..last]);
    } else {
      assert calls + more == calls;
    }
  }

  /** A snapshot shows its list; ending the refresh leaves what is shown alone. */
  lemma LastSnapshotAfter(calls: seq<ViewCall>, model: seq<Product>, animating: bool)
    ensures LastSnapshot(calls + [ApplySnapshot(model, animating)]) == Some(model)
    ensures LastSnapshot(calls + [ApplySnapshot(model, animating), EndRefreshing]) == Some(model)
    ensures LastSnapshot(calls + [EndRefreshing]) == LastSnapshot(calls)
  {
  }

  /** `calls` as they reach the view: all of them, or none when no view is attached. */
  function ToView(viewAttached: bool, calls: seq<ViewCall>): seq<ViewCall> {
    if viewAttached then calls else []
  }

  class ProductsPresenter {
    /** Whether the weak `view` reference is set; calls on a nil view are dropped. */
    var viewAttached: bool
    var products: seq<Product>
    var filteredProducts: seq<Product>
    /** Calls made on the view, oldest first. */
    var viewCalls: seq<ViewCall>
    /** Calls made on the toast service, oldest first. */
    var toasts: seq<Toast>
    /** Product ids passed to the coordinator's `showDetails(for:)`, oldest first. */
    var detailsRequests: seq<int>

    constructor ()
      ensures !viewAttached
      ensures products == [] && filteredProducts == []
      ensures viewCalls == [] && toasts == [] && detailsRequests == []
    {
      viewAttached := false;
      products := [];
      filteredProducts := [];
      viewCalls := [];
      toasts := [];
      detailsRequests := [];
    }

    /** The initial load: a fetched list replaces the products and is shown; a failure only toasts. */
    method GetData(fetch: FetchResult)
      modifies this`products, this`viewCalls, this`toasts
      ensures fetch.Fetched? ==>
        && products == fetch.products
        && viewCalls == old(viewCalls) + ToView(viewAttached, [ApplySnapshot(fetch.products, true)])
        && toasts == old(toasts)
      ensures fetch.FetchFailed? ==>
        && products == old(products)
        && viewCalls == old(viewCalls)
        && toasts == old(toasts) + [Toast(Positive, LoadFailedMessage)]
    {
      match fetch {
        case Fetched(fetched) =>
          products := fetched;
          viewCalls := viewCalls + ToView(viewAttached, [ApplySnapshot(fetched, true)]);
        case FetchFailed =>
          toasts := toasts + [Toast(Positive, LoadFailedMessage)];
      }
    }

    method ViewDidLoad(fetch: FetchResult)
      modifies this`products, this`viewCalls, this`toasts
      ensures products == (if fetch.Fetched? then fetch.products else old(products))
      ensures viewCalls == old(viewCalls) + ToView(viewAttached, [SetupInitialState] +
        (if fetch.Fetched? then [ApplySnapshot(fetch.products, true)] else []))
      ensures toasts == old(toasts) + (if fetch.Fetched? then [] else [Toast(Positive, LoadFailedMessage)])
    {
      viewCalls := viewCalls + ToView(viewAttached, [SetupInitialState]);
      GetData(fetch);
    }

    /** Filters the products by the query and shows exactly the result. */
    method SearchProducts(query: string)
      modifies this`filteredProducts, this`viewCalls
      ensures filteredProducts == SearchResult(products, query)
      ensures viewCalls == old(viewCalls) + ToView(viewAttached, [ApplySnapshot(filteredProducts, true)])
      ensures viewAttached ==> LastSnapshot(viewCalls) == Some(filteredProducts)
    {
      var loweredQuery := Text.Lowercased(query);
      filteredProducts := Filter(products, loweredQuery);
      viewCalls := viewCalls + ToView(viewAttached, [ApplySnapshot(filteredProducts, true)]);
      LastSnapshotAfter(old(viewCalls), filteredProducts, true);
    }

    /** Shows the full product list again; no presenter state changes. */
    method ResetSearch()
      modifies this`viewCalls
      ensures viewCalls == old(viewCalls) + ToView(viewAttached, [ApplySnapshot(products, true)])
      ensures viewAttached ==> LastSnapshot(viewCalls) == Some(products)
    {
      viewCalls := viewCalls + ToView(viewAttached, [ApplySnapshot(products, true)]);
      LastSnapshotAfter(old(viewCalls), products, true);
    }

    /**
     * Pull to refresh: a fetched list replaces the products and is shown,
     * a failure keeps them; either way the refresh control is ended once
     * and a toast reports the outcome.
     */
    method RefreshData(fetch: FetchResult)
      modifies this`products, this`viewCalls, this`toasts
      ensures EndRefreshingCount(viewCalls) == EndRefreshingCount(old(viewCalls)) + (if viewAttached then 1 else 0)
      ensures fetch.Fetched? ==>
        && products == fetch.products
        && viewCalls == old(viewCalls) + ToView(viewAttached, [ApplySnapshot(fetch.products, true), EndRefreshing])
        && toasts == old(toasts) + [Toast(Positive, RefreshedMessage)]
      ensures fetch.FetchFailed? ==>
        && products == old(products)
        && viewCalls == old(viewCalls) + ToView(viewAttached, [EndRefreshing])
        && toasts == old(toasts) + [Toast(Negative, RefreshFailedMessage)]
    {
      var sent: seq<ViewCall>;
      match fetch {
        case Fetched(fetched) =>
          products := fetched;
          sent := ToView(viewAttached, [ApplySnapshot(fetched, true), EndRefreshing]);
          toasts := toasts + [Toast(Positive, RefreshedMessage)];
          assert [ApplySnapshot(fetched, true), EndRefreshing][..1] == [ApplySnapshot(fetched, true)];
          assert [ApplySnapshot(fetched, true)][..0] == [];
          assert EndRefreshingCount([ApplySnapshot(fetched, true)]) == 0;
          assert EndRefreshingCount([ApplySnapshot(fetched, true), EndRefreshing]) == 1;
        case FetchFailed =>
          sent := ToView(viewAttached, [EndRefreshing]);
          assert [EndRefreshing][..0] == [];
          assert EndRefreshingCount([EndRefreshing]) == 1;
          toasts := toasts + [Toast(Negative, RefreshFailedMessage)];
      }
      viewCalls := viewCalls + sent;
      EndRefreshingCountAppend(old(viewCalls), sent);
    }

    /** Hands the selected product's id to the coordinator. */
    method DidSelectProduct(productId: int)
      modifies this`detailsRequests
      ensures detailsRequests == old(detailsRequests) + [productId]
    {
      detailsRequests := detailsRequests + [productId];
    }
  }

  /** A search followed by a reset shows the original, unfiltered list. */
  method SearchThenReset(presenter: ProductsPresenter, query: string)
    requires presenter.viewAttached
    modifies presenter
    ensures presenter.products == old(presenter.products)
    ensures LastSnapshot(presenter.viewCalls) == Some(old(presenter.products))
  {
    presenter.SearchProducts(query);
    presenter.ResetSearch();
  }
}
