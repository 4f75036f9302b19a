/** The public menu: category tabs over the fetched product list and the
    empty-state message. */
module MenuPage {
  import opened Wrappers
  import opened Schema
  import opened Seqs

  const ALL := "ALL"
  const CATEGORY_TABS: seq<string> := [ALL, "HOT", "COLD", "DESSERT"]

  /** filteredProducts: everything under ALL, else exactly the products of
      the active category, in menu order. */
  function ByCategory(products: seq<Product>, active: string): (r: seq<Product>)
    ensures active == ALL ==> r == products
    ensures IsSubsequence(r, products) && |r| <= |products|
    ensures active != ALL ==> forall i | 0 <= i < |r| :: r[i] in products && r[i].category == active
    ensures active != ALL ==> forall i | 0 <= i < |products| && products[i].category == active :: products[i] in r
  {
    if active == ALL then
      assert IsSubsequence(products, products) by { SubsequenceOfItself(products); }
      products
    else Filter(products, (p: Product) => p.category == active)
  }

  lemma {:induction false} SubsequenceOfItself<T>(xs: seq<T>)
    ensures IsSubsequence(xs, xs)
    decreases |xs|
  {
    if xs != [] {
      SubsequenceOfItself(xs[1..]);
    }
  }

  /** On a menu whose every product is HOT, COLD or DESSERT, the three tabs
      between them show every product exactly once. */
  lemma {:induction false} TabsPartitionMenu(products: seq<Product>)
    requires forall i | 0 <= i < |products| :: products[i].category in {"HOT", "COLD", "DESSERT"}
    ensures |ByCategory(products, "HOT")| + |ByCategory(products, "COLD")| + |ByCategory(products, "DESSERT")|
      == |products|
    decreases |products|
  {
    if products != [] {
      var rest := products[1..];
      forall i | 0 <= i < |rest| ensures rest[i].category in {"HOT", "COLD", "DESSERT"} {
        assert rest[i] == products[i + 1];
      }
      TabsPartitionMenu(rest);
      assert products[0].category in {"HOT", "COLD", "DESSERT"};
    }
  }

  class MenuPage {
    var products: seq<Product>
    var activeCategory: string
    var loading: bool

    constructor ()
      ensures products == [] && activeCategory == ALL && loading
    {
      products := [];
      activeCategory := ALL;
      loading := true;
    }

    function Filtered(): (r: seq<Product>)
      reads this
      ensures activeCategory == ALL ==> r == products
      ensures |r| <= |products|
    {
      ByCategory(products, activeCategory)
    }

    /** "No items" shows when the tab's list is empty and the fetch is
        over: under ALL only for an empty menu, under a category only when
        no product of the menu has it. */
    function EmptyStateShown(): bool
      reads this
      ensures EmptyStateShown() ==> !loading
      ensures EmptyStateShown() && activeCategory == ALL ==> products == []
      ensures EmptyStateShown() ==> forall i | 0 <= i < |products| :: products[i].category != activeCategory
      ensures !loading && activeCategory == ALL && products == [] ==> EmptyStateShown()
      ensures !loading && activeCategory != ALL ==>
        ((forall i | 0 <= i < |products| :: products[i].category != activeCategory) ==> EmptyStateShown())
    {
      |Filtered()| == 0 && !loading
    }

    /** The product fetch: success replaces the list, failure keeps it;
        loading ends in both cases. */
    method Loaded(reply: Option<seq<Product>>)
      modifies this
      ensures !loading && activeCategory == old(activeCategory)
      ensures products == (if reply.Some? then reply.value else old(products))
    {
      if reply.Some? {
        products := reply.value;
      }
      loading := false;
    }

    method SelectCategory(category: string)
      modifies this
      ensures activeCategory == category && products == old(products) && loading == old(loading)
    {
      activeCategory := category;
    }

    /** "Reset Filter" brings every product back. */
    method ResetFilter()
      modifies this
      ensures activeCategory == ALL && Filtered() == products
      ensures products == old(products) && loading == old(loading)
      ensures !loading && products != [] ==> !EmptyStateShown()
    {
      activeCategory := ALL;
    }
  }
}
