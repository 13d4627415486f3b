/**
 * The products page: a fixed product list filtered by a case-insensitive
 * name search and a status selector, the status badge text and colour, and
 * the hint shown when nothing matches.
 */
module Products {
  import opened Text
  import opened ListFilter

  /** A product; its `status` is one of 'active', 'inactive', 'low_stock'. */
  datatype Product = Product(
    id: string,
    name: string,
    description: string,
    price: real,
    stock: int,
    status: string,
    image: string,
    lastUpdated: string)

  /** The status selector's value that disables status filtering. */
  const AllStatuses: string := "all"

  const TryAdjusting: string := "Try adjusting your search or filter criteria"
  const GetStarted: string := "Get started by adding your first product"

  const ActiveColor: string := "bg-green-100 text-green-800 dark:bg-green-900/20 dark:text-green-400"
  const LowStockColor: string := "bg-yellow-100 text-yellow-800 dark:bg-yellow-900/20 dark:text-yellow-400"
  const InactiveColor: string := "bg-red-100 text-red-800 dark:bg-red-900/20 dark:text-red-400"
  const DefaultColor: string := "bg-gray-100 text-gray-800 dark:bg-gray-900/20 dark:text-gray-400"

  /** `name.toLowerCase().includes(searchTerm.toLowerCase())` */
  predicate NameMatches(name: string, searchTerm: string)
  {
    Includes(Lower(name), Lower(searchTerm))
  }

  /** The predicate `filteredProducts` keeps a product by. */
  predicate Keep(p: Product, searchTerm: string, selectedStatus: string)
  {
    NameMatches(p.name, searchTerm) && (selectedStatus == AllStatuses || p.status == selectedStatus)
  }

  /** `filteredProducts` */
  function FilteredProducts(products: seq<Product>, searchTerm: string, selectedStatus: string): (shown: seq<Product>)
    ensures |shown| <= |products|
    ensures forall i :: 0 <= i < |shown| ==>
      NameMatches(shown[i].name, searchTerm) && (selectedStatus == AllStatuses || shown[i].status == selectedStatus)
  {
    Filter(products, p => Keep(p, searchTerm, selectedStatus))
  }

  /** A product is shown iff it is listed, its name contains the search term (ignoring case) and its status is selected. */
  lemma FilteredProductsMembership(products: seq<Product>, searchTerm: string, selectedStatus: string, p: Product)
    ensures p in FilteredProducts(products, searchTerm, selectedStatus) <==>
      p in products && (exists i :: OccursAt(Lower(p.name), Lower(searchTerm), i))
      && (selectedStatus == AllStatuses || p.status == selectedStatus)
  {
    FilterMembership(products, p' => Keep(p', searchTerm, selectedStatus), p);
    IncludesIff(Lower(p.name), Lower(searchTerm));
  }

  /** A product that passes the filter is shown as many times as it is listed; any other product not at all. */
  lemma FilteredProductsCount(products: seq<Product>, searchTerm: string, selectedStatus: string, p: Product)
    ensures multiset(FilteredProducts(products, searchTerm, selectedStatus))[p] ==
      if Keep(p, searchTerm, selectedStatus) then multiset(products)[p] else 0
  {
    FilterCount(products, p' => Keep(p', searchTerm, selectedStatus), p);
  }

  /** The products shown keep the order of the product list. */
  lemma FilteredProductsOrdered(products: seq<Product>, searchTerm: string, selectedStatus: string)
    ensures IsSubsequence(FilteredProducts(products, searchTerm, selectedStatus), products)
  {
    FilterIsSubsequence(products, p => Keep(p, searchTerm, selectedStatus));
  }

  /** With an empty search and 'all' selected every product is shown. */
  lemma NoCriteriaShowsAll(products: seq<Product>)
    ensures FilteredProducts(products, "", AllStatuses) == products
  {
    forall p | p in products ensures Keep(p, "", AllStatuses) {
      IncludesEmpty(Lower(p.name));
    }
    FilterKeepsAll(products, p => Keep(p, "", AllStatuses));
  }

  /** A specific status shows only products with that status, drawn in order from the 'all' result. */
  lemma StatusNarrows(products: seq<Product>, searchTerm: string, selectedStatus: string)
    requires selectedStatus != AllStatuses
    ensures forall p :: p in FilteredProducts(products, searchTerm, selectedStatus) ==> p.status == selectedStatus
    ensures IsSubsequence(FilteredProducts(products, searchTerm, selectedStatus),
                          FilteredProducts(products, searchTerm, AllStatuses))
  {
    forall p | p in FilteredProducts(products, searchTerm, selectedStatus) ensures p.status == selectedStatus {
      FilterMembership(products, p' => Keep(p', searchTerm, selectedStatus), p);
    }
    FilterMonotone(products, p => Keep(p, searchTerm, selectedStatus), p => Keep(p, searchTerm, AllStatuses));
  }

  /** The search ignores case: a lower-cased search term shows the same products. */
  lemma SearchIgnoresCase(products: seq<Product>, searchTerm: string, selectedStatus: string)
    ensures FilteredProducts(products, Lower(searchTerm), selectedStatus)
         == FilteredProducts(products, searchTerm, selectedStatus)
  {
    LowerIdempotent(searchTerm);
    FilterCongruent(products, p => Keep(p, Lower(searchTerm), selectedStatus), p => Keep(p, searchTerm, selectedStatus));
  }

  /** The hint under "No products found". */
  function EmptyStateHint(searchTerm: string, selectedStatus: string): (hint: string)
    ensures hint == TryAdjusting || hint == GetStarted
    ensures hint == GetStarted ==> searchTerm == "" && selectedStatus == AllStatuses
  {
    if searchTerm != "" || selectedStatus != AllStatuses then TryAdjusting else GetStarted
  }

  /**
   * The hint asks to adjust the criteria iff a search term or a status is set;
   * when it invites adding a first product with nothing shown, the list really is empty.
   */
  lemma EmptyStateHintTruthful(products: seq<Product>, searchTerm: string, selectedStatus: string)
    ensures EmptyStateHint(searchTerm, selectedStatus) == TryAdjusting <==>
      searchTerm != "" || selectedStatus != AllStatuses
    ensures (FilteredProducts(products, searchTerm, selectedStatus) == []
             && EmptyStateHint(searchTerm, selectedStatus) == GetStarted) ==> products == []
  {
    if EmptyStateHint(searchTerm, selectedStatus) == GetStarted {
      assert searchTerm == "" && selectedStatus == AllStatuses;
      NoCriteriaShowsAll(products);
    }
  }

  /** The badge text: `status.replace('_', ' ')`, which replaces the first underscore only. */
  function StatusLabel(status: string): (shownText: string)
    ensures |shownText| == |status|
    ensures '_' !in status ==> shownText == status
  {
    ReplaceFirstSpec(status, '_', ' ');
    ReplaceFirst(status, '_', ' ')
  }

  /** 'low_stock' reads 'low stock'. */
  lemma StatusLabelLowStock(status: string)
    requires status == "low_stock"
    ensures StatusLabel(status) == "low stock"
  {
    assert status == "low" + ['_'] + "stock";
    ReplaceFirstAt("low", "stock", '_', ' ');
  }

  /** Only the first underscore becomes a space; any later ones stay, so 'a_b_c' reads 'a b_c'. */
  lemma StatusLabelFirstOnly(a: string, b: string)
    requires '_' !in a
    ensures StatusLabel(a + "_" + b) == a + " " + b
  {
    assert a + "_" + b == a + ['_'] + b;
    assert a + " " + b == a + [' '] + b;
    ReplaceFirstAt(a, b, '_', ' ');
  }

  /** `getStatusColor` */
  function StatusColor(status: string): (color: string)
    ensures color == DefaultColor <==> status !in {"active", "low_stock", "inactive"}
  {
    match status
    case "active" => ActiveColor
    case "low_stock" => LowStockColor
    case "inactive" => InactiveColor
    case _ => DefaultColor
  }

  /** The icons `getStatusIcon` chooses between. */
  datatype Icon = TrendingUp | AlertCircle | Package

  /** `getStatusIcon` */
  function StatusIcon(status: string): (icon: Icon)
    ensures icon == TrendingUp <==> status == "active"
    ensures icon == AlertCircle <==> status == "low_stock"
  {
    match status
    case "active" => TrendingUp
    case "low_stock" => AlertCircle
    case "inactive" => Package
    case _ => Package
  }
}
