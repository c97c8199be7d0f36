/** The admin products page: the catalogue search, the create/edit form and the payload it
    sends, deletion, and the colour of the stock figure. */
module AdminProducts {
  import opened Types
  import opened Text
  import opened Lists

  // ===========================================================================
  // Search

  /** A product is listed when the search occurs, ignoring case, in its name or in its category;
      a product without a category can match by name only. */
  predicate ProductMatches(p: Product, search: string) {
    MatchesSearch(p.name, search) || (p.category.Some? && MatchesSearch(p.category.value, search))
  }

  /** `filteredProducts`. */
  function FilteredProducts(products: seq<Product>, search: string): seq<Product> {
    Filter(products, (p: Product) => ProductMatches(p, search))
  }

  /** The listed products are exactly the matching ones, each as often as the catalogue lists
      it, in catalogue order, and an empty search lists the whole catalogue. */
  lemma FilteredProductsSpec(products: seq<Product>, search: string)
    ensures var r := FilteredProducts(products, search);
            && (forall i :: 0 <= i < |r| ==> r[i] in products && ProductMatches(r[i], search))
            && (forall i :: 0 <= i < |products| && ProductMatches(products[i], search) ==> products[i] in r)
            && IsSubsequence(r, products)
    ensures forall x :: multiset(FilteredProducts(products, search))[x]
                        == if ProductMatches(x, search) then multiset(products)[x] else 0
    ensures search == [] ==> FilteredProducts(products, search) == products
  {
    FilterIsSubsequence(products, (p: Product) => ProductMatches(p, search));
    if search == [] {
      forall i | 0 <= i < |products|
        ensures ProductMatches(products[i], search)
      {
        EmptySearchMatches(products[i].name);
      }
      FilterKeepsAll(products, (p: Product) => ProductMatches(p, search));
    }
  }

  /** A product without a category is listed exactly when its name matches. */
  lemma UncategorisedMatchesByName(p: Product, search: string)
    requires p.category.None?
    ensures ProductMatches(p, search) <==> MatchesSearch(p.name, search)
  {
  }

  // ===========================================================================
  // Stock colour

  datatype Tone = Red | Amber | Emerald | Muted

  /** The colour classes of the stock figure: red when out of stock, amber for one to nine,
      emerald from ten up. */
  function StockTones(stock: int): set<Tone> {
    (if stock == 0 then {Red} else {}) + (if 0 < stock < 10 then {Amber} else {})
    + (if stock >= 10 then {Emerald} else {})
  }

  /** Exactly one colour applies to a stock that is not negative, and none to a negative one. */
  lemma StockToneUnique(stock: int)
    ensures stock >= 0 <==> |StockTones(stock)| == 1
    ensures stock < 0 ==> StockTones(stock) == {}
    ensures stock == 0 <==> StockTones(stock) == {Red}
    ensures 0 < stock < 10 <==> StockTones(stock) == {Amber}
    ensures stock >= 10 <==> StockTones(stock) == {Emerald}
  {
    if stock == 0 {
      assert StockTones(stock) == {Red};
    } else if 0 < stock < 10 {
      assert StockTones(stock) == {Amber};
    } else if stock >= 10 {
      assert StockTones(stock) == {Emerald};
    } else {
      assert StockTones(stock) == {};
    }
  }

  // ===========================================================================
  // Form and payload

  /** The modal form: every field is the text of its input. */
  datatype ProductForm = ProductForm(
    name: string,
    description: string,
    price: string,
    stock: string,
    category: string,
    image: string)

  const InitialForm := ProductForm("", "", "", "", "", "")

  datatype FormField = NameField | DescriptionField | PriceField | StockField | CategoryField | ImageField

  /** The form with one input changed, as each input's `onChange` does. */
  function WithFormField(f: ProductForm, field: FormField, value: string): (r: ProductForm)
    ensures field == NameField ==> r == f.(name := value)
    ensures field == DescriptionField ==> r == f.(description := value)
    ensures field == PriceField ==> r == f.(price := value)
    ensures field == StockField ==> r == f.(stock := value)
    ensures field == CategoryField ==> r == f.(category := value)
    ensures field == ImageField ==> r == f.(image := value)
  {
    match field
    case NameField => f.(name := value)
    case DescriptionField => f.(description := value)
    case PriceField => f.(price := value)
    case StockField => f.(stock := value)
    case CategoryField => f.(category := value)
    case ImageField => f.(image := value)
  }

  /** The form `openEditModal` fills from a product: absent text becomes empty, numbers are
      printed. */
  function FormOf(p: Product): ProductForm {
    ProductForm(p.name, OrElse(p.description, ""), CentsText(p.priceCents), IntToString(p.stock),
                OrElse(p.category, ""), OrElse(p.image, ""))
  }

  /** The body of the create and update requests; a `None` price or stock is a NaN. */
  datatype ProductPayload = ProductPayload(
    name: string,
    description: Option<string>,
    priceCents: Option<int>,
    stock: Option<int>,
    category: Option<string>,
    image: Option<string>)

  /** `s || null`. */
  function NullIfEmpty(s: string): (r: Option<string>)
    ensures r.None? <==> s == ""
    ensures r.Some? ==> r.value == s
  {
    if s == "" then None else Some(s)
  }

  /** The payload `handleSubmit` builds from the form. */
  function PayloadOf(f: ProductForm): ProductPayload {
    ProductPayload(f.name, NullIfEmpty(f.description), ParseCents(f.price), ParseInt(f.stock),
                   NullIfEmpty(f.category), NullIfEmpty(f.image))
  }

  /** An absent or empty optional text is sent as null, any other as itself. */
  function Normalised(o: Option<string>): (r: Option<string>)
    ensures r.None? <==> o.None? || o.value == ""
    ensures r.Some? ==> r == o
  {
    if o.Some? && o.value != "" then o else None
  }

  /** Opening a product for editing and saving it unchanged sends the product's own values:
      name, price and stock exactly, and each optional text unchanged except that an empty one
      goes back as null. */
  lemma EditRoundTrip(p: Product)
    ensures PayloadOf(FormOf(p)) ==
      ProductPayload(p.name, Normalised(p.description), Some(p.priceCents), Some(p.stock),
                     Normalised(p.category), Normalised(p.image))
  {
    CentsTextRoundTrip(p.priceCents);
    ParseIntToString(p.stock);
  }

  /** An optional text field keeps its value through the form when it is present and non-empty,
      and is null in the payload otherwise. */
  lemma OptionalTextRoundTrip(o: Option<string>)
    ensures NullIfEmpty(OrElse(o, "")) == Normalised(o)
    ensures o.Some? && o.value != "" ==> NullIfEmpty(OrElse(o, "")) == o
    ensures o.None? ==> OrElse(o, "") == "" && NullIfEmpty(OrElse(o, "")).None?
  {
  }

  /** The request a submit sends: an update of the product being edited, or a creation. */
  datatype SaveRequest = CreateProduct(payload: ProductPayload) | UpdateProduct(id: string, payload: ProductPayload)

  function SaveRequestOf(editing: Option<Product>, f: ProductForm): (r: SaveRequest)
    ensures r.payload == PayloadOf(f)
    ensures r.UpdateProduct? <==> editing.Some?
    ensures r.UpdateProduct? ==> r.id == editing.value.id
  {
    if editing.Some? then UpdateProduct(editing.value.id, PayloadOf(f)) else CreateProduct(PayloadOf(f))
  }

  // ===========================================================================
  // The page

  class ProductsPage {
    var products: seq<Product>
    var loading: bool
    var search: string
    var showModal: bool
    var editingProduct: Option<Product>
    var formData: ProductForm
    var saving: bool
    var deleting: Option<string>

    constructor ()
      ensures products == [] && loading && search == "" && !showModal
      ensures editingProduct == None && formData == InitialForm && !saving && deleting == None
    {
      products := [];
      loading := true;
      search := "";
      showModal := false;
      editingProduct := None;
      formData := InitialForm;
      saving := false;
      deleting := None;
    }

    /** The rows the table shows. */
    function Listed(): seq<Product>
      reads this
    {
      FilteredProducts(products, search)
    }

    /** `loadProducts` settles: a fetched catalogue replaces the list, a failed fetch keeps it,
        and the spinner stops either way. */
    method ProductsLoaded(fetched: Option<seq<Product>>)
      modifies this`products, this`loading
      ensures !loading
      ensures fetched.Some? ==> products == fetched.value
      ensures fetched.None? ==> products == old(products)
    {
      if fetched.Some? {
        products := fetched.value;
      }
      loading := false;
    }

    method SearchChanged(value: string)
      modifies this`search
      ensures search == value
    {
      search := value;
    }

    /** `openCreateModal`: nothing is being edited and the form is the all-empty one. */
    method OpenCreateModal()
      modifies this`editingProduct, this`formData, this`showModal
      ensures editingProduct == None && formData == InitialForm && showModal
    {
      editingProduct := None;
      formData := InitialForm;
      showModal := true;
    }

    /** `openEditModal`: the product is being edited and the form holds its values. */
    method OpenEditModal(p: Product)
      modifies this`editingProduct, this`formData, this`showModal
      ensures editingProduct == Some(p) && formData == FormOf(p) && showModal
    {
      editingProduct := Some(p);
      formData := FormOf(p);
      showModal := true;
    }

    /** Typing into one input of the form. */
    method FormChanged(field: FormField, value: string)
      requires showModal
      modifies this`formData
      ensures formData == WithFormField(old(formData), field, value)
    {
      formData := WithFormField(formData, field, value);
    }

    /** The close and Cancel buttons. */
    method CloseModal()
      modifies this`showModal
      ensures !showModal
    {
      showModal := false;
    }

    /** `handleSubmit` up to the request: saving starts and the request is the update of the
        product being edited, or a creation, with the payload built from the form. */
    method SubmitStart() returns (request: SaveRequest)
      requires showModal && !saving
      modifies this`saving
      ensures saving
      ensures request == SaveRequestOf(editingProduct, formData)
    {
      saving := true;
      var payload := PayloadOf(formData);
      if editingProduct.Some? {
        request := UpdateProduct(editingProduct.value.id, payload);
      } else {
        request := CreateProduct(payload);
      }
    }

    /** The save request settles: on success the modal closes and the catalogue is reloaded; on
        failure the modal stays as it is; saving ends on both paths. */
    method SubmitSettled(ok: bool) returns (reload: bool)
      requires saving
      modifies this`showModal, this`saving
      ensures !saving
      ensures reload == ok
      ensures ok ==> !showModal
      ensures !ok ==> showModal == old(showModal)
    {
      if ok {
        showModal := false;
      }
      reload := ok;
      saving := false;
    }

    /** `handleDelete` up to the request: a declined confirmation changes nothing and sends
        nothing; otherwise the product is marked as being deleted and its deletion requested. */
    method DeleteStart(id: string, confirmed: bool) returns (request: Option<string>)
      modifies this`deleting
      ensures !confirmed ==> request == None && deleting == old(deleting)
      ensures confirmed ==> request == Some(id) && deleting == Some(id)
    {
      if !confirmed {
        return None;
      }
      deleting := Some(id);
      request := Some(id);
    }

    /** The deletion settles: the catalogue is reloaded after a success, and no product is
        marked as being deleted on either path. */
    method DeleteSettled(ok: bool) returns (reload: bool)
      modifies this`deleting
      ensures deleting == None
      ensures reload == ok
    {
      reload := ok;
      deleting := None;
    }
  }
}
