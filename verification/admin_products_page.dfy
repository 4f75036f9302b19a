/** Menu management for staff: the product search, the add/edit form and
    the request it submits, and the low-stock badge. */
module AdminProductsPage {
  import opened Wrappers
  import opened Schema
  import opened Text
  import opened Seqs

  const API_URL := "http://localhost:3001"

  /** A product passes the search when its lower-cased name or category
      contains the lower-cased query. */
  predicate ProductMatches(p: Product, query: string) {
    Contains(Lower(p.name), Lower(query)) || Contains(Lower(p.category), Lower(query))
  }

  /** filteredProducts. */
  function FilterProducts(products: seq<Product>, query: string): (r: seq<Product>)
    ensures IsSubsequence(r, products)
    ensures forall i | 0 <= i < |r| :: r[i] in products && ProductMatches(r[i], query)
    ensures forall i | 0 <= i < |products| && ProductMatches(products[i], query) :: products[i] in r
  {
    Filter(products, (p: Product) => ProductMatches(p, query))
  }

  lemma EmptyProductSearchKeepsAll(products: seq<Product>)
    ensures FilterProducts(products, "") == products
  {
    forall p | p in products ensures ProductMatches(p, "") {
      ContainsEmpty(Lower(p.name));
    }
    FilterKeepsAll(products, (p: Product) => ProductMatches(p, ""));
  }

  /** The search ignores the case of the query. */
  lemma ProductSearchIgnoresQueryCase(p: Product, query: string)
    ensures ProductMatches(p, Lower(query)) <==> ProductMatches(p, query)
  {
    LowerOfLowerCase(Lower(query));
  }

  /** The form's text fields. */
  datatype ProductForm = ProductForm(name: string, price: string, category: string, inventory: string, image: string)

  const NEW_PRODUCT_FORM := ProductForm("", "", "", "100", "")

  /** handleOpenModal's form: blank with a stock of 100 for a new item;
      otherwise the product's fields, numbers written out, a missing image
      as "". */
  function FormFor(product: Option<Product>): (f: ProductForm)
    ensures product.None? ==> f == NEW_PRODUCT_FORM
    ensures product.Some? ==>
      && f.name == product.value.name && f.category == product.value.category
      && ParseInt(f.price) == Some(product.value.price)
      && ParseInt(f.inventory) == Some(product.value.inventory)
      && f.image == (if product.value.image.Some? then product.value.image.value else "")
  {
    match product
    case None => NEW_PRODUCT_FORM
    case Some(p) =>
      ParseIntToString(p.price);
      ParseIntToString(p.inventory);
      ProductForm(p.name, IntToString(p.price), p.category, IntToString(p.inventory),
                  if p.image.Some? then p.image.value else "")
  }

  /** The JSON body: the form with price and stock read as numbers; a text
      that is not a number gives NaN, sent as null (None here). */
  datatype ProductPayload = ProductPayload(
    name: string, price: Option<int>, category: string, inventory: Option<int>, image: string)

  function Payload(f: ProductForm): (body: ProductPayload)
    ensures body.name == f.name && body.category == f.category && body.image == f.image
    ensures forall n: int | f.price == IntToString(n) :: body.price == Some(n)
    ensures forall n: int | f.inventory == IntToString(n) :: body.inventory == Some(n)
  {
    forall n: int | f.price == IntToString(n) || f.inventory == IntToString(n) {
      ParseIntToString(n);
    }
    ProductPayload(f.name, ParseInt(f.price), f.category, ParseInt(f.inventory), f.image)
  }

  /** Saving an untouched edit form sends the product's own values back. */
  lemma UntouchedEditRoundTrip(p: Product)
    ensures
      var body := Payload(FormFor(Some(p)));
      && body.name == p.name && body.category == p.category
      && body.price == Some(p.price) && body.inventory == Some(p.inventory)
      && (p.image.Some? ==> body.image == p.image.value)
  {
  }

  datatype Request = Request(verb: string, url: string, body: ProductPayload)

  /** handleSubmit's request: PATCH on the product's own URL when editing,
      POST on the collection when adding. */
  function SubmitRequest(selected: Option<Product>, f: ProductForm): (r: Request)
    ensures r.verb == (if selected.Some? then "PATCH" else "POST")
    ensures selected.None? ==> r.url == API_URL + "/products"
    ensures selected.Some? ==> StartsWith(r.url, API_URL + "/products/")
    ensures selected.Some? ==>
      |r.url| >= |API_URL + "/products/"| && ParseInt(r.url[|API_URL + "/products/"|..]) == Some(selected.value.id)
    ensures r.body == Payload(f)
  {
    match selected
    case None => Request("POST", API_URL + "/products", Payload(f))
    case Some(p) =>
      var base := API_URL + "/products/";
      var url := base + IntToString(p.id);
      assert url[..|base|] == base && url[|base|..] == IntToString(p.id);
      ParseIntToString(p.id);
      Request("PATCH", url, Payload(f))
  }

  /** The stock badge turns to the warning style below 20 units, the same
      threshold the dashboard counts. */
  function StockBadgeIsLow(inventory: int): (low: bool)
    ensures low <==> IsLowStock(inventory)
  {
    inventory < 20
  }

  class AdminProductsPage {
    var products: seq<Product>
    var loading: bool
    var modalOpen: bool
    var selected: Option<Product>
    var form: ProductForm
    var searchQuery: string

    constructor ()
      ensures products == [] && loading && !modalOpen && selected.None?
      ensures form == ProductForm("", "", "", "", "") && searchQuery == ""
    {
      products := [];
      loading := true;
      modalOpen := false;
      selected := None;
      form := ProductForm("", "", "", "", "");
      searchQuery := "";
    }

    /** fetchProducts: the reply replaces the list; loading ends either way. */
    method FetchProducts(reply: Option<seq<Product>>)
      modifies this
      ensures !loading && products == (if reply.Some? then reply.value else old(products))
      ensures modalOpen == old(modalOpen) && selected == old(selected) && form == old(form)
      ensures searchQuery == old(searchQuery)
    {
      if reply.Some? {
        products := reply.value;
      }
      loading := false;
    }

    /** handleOpenModal: "Add Item" passes no product, the edit button its
        product. */
    method OpenModal(product: Option<Product>)
      modifies this
      ensures modalOpen && selected == product && form == FormFor(product)
      ensures products == old(products) && loading == old(loading) && searchQuery == old(searchQuery)
    {
      selected := product;
      form := FormFor(product);
      modalOpen := true;
    }

    /** handleFileUpload: an OK upload puts the returned URL in the image
        field and touches nothing else. */
    method ImageUploaded(url: Option<string>)
      modifies this
      ensures url.Some? ==> form == old(form).(image := url.value)
      ensures url.None? ==> form == old(form)
      ensures products == old(products) && modalOpen == old(modalOpen) && selected == old(selected)
      ensures loading == old(loading) && searchQuery == old(searchQuery)
    {
      if url.Some? {
        form := form.(image := url.value);
      }
    }

    /** handleSubmit: sends the request; only an OK response closes the
        modal and refetches the list. */
    method Submit(ok: bool, refetch: Option<seq<Product>>) returns (sent: Request)
      modifies this
      ensures sent == SubmitRequest(old(selected), old(form))
      ensures ok ==> !modalOpen && !loading
      ensures ok ==> products == (if refetch.Some? then refetch.value else old(products))
      ensures !ok ==> modalOpen == old(modalOpen) && products == old(products) && loading == old(loading)
      ensures selected == old(selected) && form == old(form) && searchQuery == old(searchQuery)
    {
      sent := SubmitRequest(selected, form);
      if ok {
        FetchProducts(refetch);
        modalOpen := false;
      }
    }

    /** handleDelete: nothing is sent unless the confirmation is accepted;
        the DELETE goes to the product's own URL, and only an OK response
        refetches the list. */
    method Delete(id: int, confirmed: bool, ok: bool, refetch: Option<seq<Product>>) returns (sent: Option<string>)
      modifies this
      ensures !confirmed ==> sent.None? && products == old(products) && loading == old(loading)
      ensures confirmed ==> sent == Some(API_URL + "/products/" + IntToString(id))
      ensures confirmed && ok ==> !loading && products == (if refetch.Some? then refetch.value else old(products))
      ensures confirmed && !ok ==> products == old(products) && loading == old(loading)
      ensures modalOpen == old(modalOpen) && selected == old(selected) && form == old(form)
      ensures searchQuery == old(searchQuery)
    {
      if !confirmed {
        return None;
      }
      sent := Some(API_URL + "/products/" + IntToString(id));
      if ok {
        FetchProducts(refetch);
      }
    }
  }
}
