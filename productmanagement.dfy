/** The admin product list: a table of products with a stock indicator,
    deletion after a confirmation, and one form for editing a product or
    adding a new one, with image uploads. */
module ProductManagement {
  import opened Common

  const DeleteFailedAlert := "Failed to delete product"
  const SaveFailedAlert := "Failed to save product. "
  const Uncategorized := "Uncategorized"

  datatype ImageRef = ImageRef(url: string)

  /** A file chosen in the upload input; its contents are not modelled. */
  datatype FileRef = FileRef(name: string)

  /** A product as the admin list receives it; `images` is None when the
      backend leaves the field out. */
  datatype AdminProduct = AdminProduct(
    id: string, name: string, description: string, price: int,
    categoryId: Option<string>, categoryName: Option<string>,
    countInStock: int, images: Option<seq<ImageRef>>)

  /** The form. The two numeric inputs are held as the text they show: a
      number put into one shows as its decimal text. */
  datatype ProductForm = ProductForm(
    name: string, description: string, price: string, category: string,
    countInStock: string, images: seq<ImageRef>, newImages: seq<FileRef>)

  /** The form `handleAddNew` opens: every field blank. */
  const BlankForm := ProductForm("", "", "", "", "", [], [])

  /** `handleEdit`'s form: the product's own values, its category's id or
      "", its images or none, and no new files. */
  function EditFormOf(p: AdminProduct): (f: ProductForm)
    ensures f.name == p.name && f.description == p.description
    ensures NumberValue(f.price) == Some(p.price) && NumberValue(f.countInStock) == Some(p.countInStock)
    ensures f.category == (if p.categoryId.Some? then p.categoryId.value else "")
    ensures f.images == (if p.images.Some? then p.images.value else [])
    ensures f.newImages == []
  {
    NumberValueOfIntText(p.price);
    NumberValueOfIntText(p.countInStock);
    ProductForm(
      p.name, p.description, IntText(p.price),
      if p.categoryId.Some? then OrElse(p.categoryId.value, "") else "",
      IntText(p.countInStock),
      if p.images.Some? then p.images.value else [],
      [])
  }

  /** The browser's validation of the form, run before `handleFormSubmit`:
      name, category (whose placeholder option is "") and description are
      `required`, and price and stock are required numbers of at least 0. */
  predicate ProductFormAccepted(f: ProductForm)
  {
    && f.name != "" && f.category != "" && f.description != ""
    && NumberFieldAccepts(f.price, 0, true) && NumberFieldAccepts(f.countInStock, 0, true)
  }

  /** Opening a product and saving it untouched gets past the browser
      exactly when the product has a name, a description and a category,
      and its price and stock are not negative; the blank form of a new
      product never does. */
  lemma EditedFormAccepted(p: AdminProduct)
    ensures ProductFormAccepted(EditFormOf(p)) <==>
      && p.name != "" && p.description != "" && p.categoryId.Some? && p.categoryId.value != ""
      && p.price >= 0 && p.countInStock >= 0
    ensures !ProductFormAccepted(BlankForm)
  {
    NumberFieldAcceptsIntText(p.price, 0, true);
    NumberFieldAcceptsIntText(p.countInStock, 0, true);
  }

  /** The JSON part of a save: the numbers read with `Number` (None for
      text that is not a number) and the stock under the key `stock`. */
  datatype ProductPayload = ProductPayload(
    name: string, description: string, price: Option<int>, category: string, stock: Option<int>)

  function PayloadOf(form: ProductForm): (p: ProductPayload)
    ensures p.name == form.name && p.description == form.description && p.category == form.category
    ensures p.price == NumberValue(form.price) && p.stock == NumberValue(form.countInStock)
  {
    ProductPayload(form.name, form.description, NumberValue(form.price), form.category,
                   NumberValue(form.countInStock))
  }

  /** A save: an update of the product being edited, or a creation. */
  datatype SaveRequest =
    | UpdateProduct(id: string, payload: ProductPayload, files: seq<FileRef>)
    | CreateProduct(payload: ProductPayload, files: seq<FileRef>)

  function SaveRequestOf(editing: Option<AdminProduct>, form: ProductForm): (r: SaveRequest)
    ensures editing.Some? <==> r.UpdateProduct?
    ensures r.UpdateProduct? ==> r.id == editing.value.id
    ensures r.payload == PayloadOf(form) && r.files == form.newImages
  {
    if editing.Some? then UpdateProduct(editing.value.id, PayloadOf(form), form.newImages)
    else CreateProduct(PayloadOf(form), form.newImages)
  }

  /** Opening a product and saving it untouched sends back its name,
      description, price and stock, as an update of that product. */
  lemma EditThenSaveKeepsValues(p: AdminProduct)
    ensures var r := SaveRequestOf(Some(p), EditFormOf(p));
      && r == UpdateProduct(p.id, r.payload, [])
      && r.payload.name == p.name && r.payload.description == p.description
      && r.payload.price == Some(p.price) && r.payload.stock == Some(p.countInStock)
  {
  }

  /** The payload reads an empty price or stock field as 0, as
      `Number("")` does. (The browser never lets the blank form itself be
      submitted: see `EditedFormAccepted`.) */
  lemma BlankFormSendsZero()
    ensures PayloadOf(BlankForm).price == Some(0) && PayloadOf(BlankForm).stock == Some(0)
  {
  }

  /** The existing images play no part in a save: removing one in the form
      leaves the request as it was. */
  lemma ExistingImagesNotSent(editing: Option<AdminProduct>, form: ProductForm, images: seq<ImageRef>)
    ensures SaveRequestOf(editing, form.(images := images)) == SaveRequestOf(editing, form)
  {
  }

  // ------------------------------------------------------------- images

  /** `s.filter((_, i) => i !== idx)`: every element but the one at `idx`. */
  function DropIndex<T>(s: seq<T>, idx: int): (r: seq<T>)
    ensures 0 <= idx < |s| ==> r == s[..idx] + s[idx + 1..]
    ensures !(0 <= idx < |s|) ==> r == s
    decreases |s|
  {
    if s == [] then []
    else
      var rest := DropIndex(s[1..], idx - 1);
      var r := (if idx == 0 then [] else [s[0]]) + rest;
      assert 0 < idx < |s| ==> r == s[..idx] + s[idx + 1..] by {
        if 0 < idx < |s| {
          assert s[1..][..idx - 1] == s[1..idx];
          assert s[1..][idx..] == s[idx + 1..];
          assert [s[0]] + s[1..idx] == s[..idx];
        }
      }
      assert idx == 0 ==> r == s[..idx] + s[idx + 1..];
      assert !(0 <= idx < |s|) ==> r == s by {
        if !(0 <= idx < |s|) {
          assert [s[0]] + s[1..] == s;
        }
      }
      r
  }

  /** Dropping one preview removes exactly one image and keeps the others
      in order. */
  lemma DropIndexCount<T>(s: seq<T>, idx: int)
    requires 0 <= idx < |s|
    ensures |DropIndex(s, idx)| == |s| - 1
    ensures forall i :: 0 <= i < idx ==> DropIndex(s, idx)[i] == s[i]
    ensures forall i :: idx <= i < |s| - 1 ==> DropIndex(s, idx)[i] == s[i + 1]
  {
  }

  // ---------------------------------------------------------------- rows

  datatype StockDot = Green | Yellow | Red

  /** The stock column's dot: green above ten units, yellow for a few,
      red for none. */
  function StockDotOf(count: int): StockDot
  {
    if count > 10 then Green else if count > 0 then Yellow else Red
  }

  function Rank(d: StockDot): nat
  {
    match d
    case Red => 0
    case Yellow => 1
    case Green => 2
  }

  /** More stock never shows a worse dot, and the bands are exactly
      (,0], [1,10] and [11,). */
  lemma StockDotBands(a: int, b: int)
    ensures a <= b ==> Rank(StockDotOf(a)) <= Rank(StockDotOf(b))
    ensures StockDotOf(a) == Red <==> a <= 0
    ensures StockDotOf(a) == Yellow <==> 1 <= a <= 10
    ensures StockDotOf(a) == Green <==> a >= 11
  {
  }

  /** The id column: the last six characters. */
  function ShortId(p: AdminProduct): (s: string)
    ensures |s| == Min(6, |p.id|) && s == p.id[|p.id| - |s|..]
  {
    Last(p.id, 6)
  }

  /** The category column: the category's name, or "Uncategorized". */
  function CategoryLabel(p: AdminProduct): (s: string)
    ensures s != ""
    ensures p.categoryName.Some? && p.categoryName.value != "" ==> s == p.categoryName.value
  {
    if p.categoryName.Some? then OrElse(p.categoryName.value, Uncategorized) else Uncategorized
  }

  // ---------------------------------------------------------------- page

  /** The products left after deleting `id`: all the others, in order. */
  function WithoutProduct(products: seq<AdminProduct>, id: string): (r: seq<AdminProduct>)
    ensures forall p :: p in r <==> p in products && p.id != id
    ensures |r| <= |products|
  {
    Filter(products, (p: AdminProduct) => p.id != id)
  }

  datatype Category = Category(id: string, name: string)

  datatype ProductCall = ListProducts | ListCategories | DeleteProduct(id: string) | Save(request: SaveRequest)

  /** A deletion on its way: the product's id and the list as it stood
      when the delete button was pressed. */
  datatype PendingDelete = PendingDelete(id: string, listed: seq<AdminProduct>)

  class ProductManagementPage {
    var products: seq<AdminProduct>
    var categories: seq<Category>
    var loading: bool
    var isModalOpen: bool
    var editing: Option<AdminProduct>
    var form: ProductForm
    var calls: seq<ProductCall>
    var alerts: seq<string>
    /** Deletions sent and not yet answered, each with the list its handler
        captured at the click. */
    var pendingDeletes: seq<PendingDelete>

    /** The page opens fetching the products and the categories. */
    constructor ()
      ensures products == [] && categories == [] && loading && !isModalOpen
      ensures editing == None && form == BlankForm
      ensures calls == [ListProducts, ListCategories] && alerts == [] && pendingDeletes == []
    {
      products := [];
      categories := [];
      loading := true;
      isModalOpen := false;
      editing := None;
      form := BlankForm;
      calls := [ListProducts, ListCategories];
      alerts := [];
      pendingDeletes := [];
    }

    /** The loader replaces the table while loading with the form shut. */
    predicate ShowsLoader()
      reads this
    {
      loading && !isModalOpen
    }

    /** The answer to the product list request: a success replaces the
        list, a failure keeps it silently; loading ends either way. */
    method FinishFetchProducts(reply: Reply<seq<AdminProduct>>)
      modifies this
      ensures pendingDeletes == old(pendingDeletes)
      ensures !loading
      ensures reply.Ok? ==> products == reply.payload
      ensures reply.Err? ==> products == old(products)
      ensures categories == old(categories) && isModalOpen == old(isModalOpen) && editing == old(editing)
      ensures form == old(form) && calls == old(calls) && alerts == old(alerts)
    {
      if reply.Ok? {
        products := reply.payload;
      }
      loading := false;
    }

    method FinishFetchCategories(reply: Reply<seq<Category>>)
      modifies this
      ensures pendingDeletes == old(pendingDeletes)
      ensures reply.Ok? ==> categories == reply.payload
      ensures reply.Err? ==> categories == old(categories)
      ensures products == old(products) && loading == old(loading) && isModalOpen == old(isModalOpen)
      ensures editing == old(editing) && form == old(form) && calls == old(calls) && alerts == old(alerts)
    {
      if reply.Ok? {
        categories := reply.payload;
      }
    }

    /** The delete button, leading to `handleDelete`: nothing without the
        admin's confirmation; otherwise the deletion goes out, and the
        handler keeps the list as it stood at the click for when the reply
        comes. */
    method BeginDelete(id: string, confirmed: bool)
      modifies this
      ensures confirmed ==>
        calls == old(calls) + [DeleteProduct(id)]
        && pendingDeletes == old(pendingDeletes) + [PendingDelete(id, old(products))]
      ensures !confirmed ==> calls == old(calls) && pendingDeletes == old(pendingDeletes)
      ensures products == old(products) && alerts == old(alerts)
      ensures categories == old(categories) && loading == old(loading) && isModalOpen == old(isModalOpen)
      ensures editing == old(editing) && form == old(form)
    {
      if confirmed {
        calls := calls + [DeleteProduct(id)];
        pendingDeletes := pendingDeletes + [PendingDelete(id, products)];
      }
    }

    /** The reply to the deletion sent as `pendingDeletes[k]`: a success
        shows the list remembered at its click without that product (so a
        product another deletion removed meanwhile shows up again), a
        failure keeps the list and alerts. */
    method FinishDelete(k: nat, reply: Reply<()>)
      requires k < |pendingDeletes|
      modifies this
      ensures var d := old(pendingDeletes[k]);
        && (reply.Ok? ==> products == WithoutProduct(d.listed, d.id) && alerts == old(alerts))
        && (reply.Err? ==> products == old(products) && alerts == old(alerts) + [DeleteFailedAlert])
      ensures pendingDeletes == old(pendingDeletes[..k] + pendingDeletes[k + 1..])
      ensures calls == old(calls)
      ensures categories == old(categories) && loading == old(loading) && isModalOpen == old(isModalOpen)
      ensures editing == old(editing) && form == old(form)
    {
      var d := pendingDeletes[k];
      if reply.Ok? {
        products := WithoutProduct(d.listed, d.id);
      } else {
        alerts := alerts + [DeleteFailedAlert];
      }
      pendingDeletes := pendingDeletes[..k] + pendingDeletes[k + 1..];
    }

    /** `handleEdit`: the form takes the product's values and opens. */
    method Edit(p: AdminProduct)
      modifies this
      ensures pendingDeletes == old(pendingDeletes)
      ensures editing == Some(p) && form == EditFormOf(p) && isModalOpen
      ensures products == old(products) && categories == old(categories) && loading == old(loading)
      ensures calls == old(calls) && alerts == old(alerts)
    {
      editing := Some(p);
      form := EditFormOf(p);
      isModalOpen := true;
    }

    /** `handleAddNew`: no product is being edited and the form opens
        blank. */
    method AddNew()
      modifies this
      ensures pendingDeletes == old(pendingDeletes)
      ensures editing == None && form == BlankForm && isModalOpen
      ensures products == old(products) && categories == old(categories) && loading == old(loading)
      ensures calls == old(calls) && alerts == old(alerts)
    {
      editing := None;
      form := BlankForm;
      isModalOpen := true;
    }

    /** Typing into the form or closing it. */
    method EditForm(value: ProductForm, open: bool)
      modifies this
      ensures pendingDeletes == old(pendingDeletes)
      ensures form == value && isModalOpen == open
      ensures products == old(products) && categories == old(categories) && loading == old(loading)
      ensures editing == old(editing) && calls == old(calls) && alerts == old(alerts)
    {
      form := value;
      isModalOpen := open;
    }

    /** `handleImageChange`: chosen files go after the ones already
        chosen, in order; no selection changes nothing. */
    method AddImages(files: Option<seq<FileRef>>)
      modifies this
      ensures pendingDeletes == old(pendingDeletes)
      ensures files.Some? ==> form == old(form).(newImages := old(form).newImages + files.value)
      ensures files.None? ==> form == old(form)
      ensures products == old(products) && categories == old(categories) && loading == old(loading)
      ensures isModalOpen == old(isModalOpen) && editing == old(editing)
      ensures calls == old(calls) && alerts == old(alerts)
    {
      if files.Some? {
        form := form.(newImages := form.newImages + files.value);
      }
    }

    /** The remove button on an existing image's preview. */
    method RemoveImage(idx: int)
      modifies this
      ensures pendingDeletes == old(pendingDeletes)
      ensures form == old(form).(images := DropIndex(old(form).images, idx))
      ensures 0 <= idx < |old(form).images| ==> |form.images| == |old(form).images| - 1
      ensures products == old(products) && categories == old(categories) && loading == old(loading)
      ensures isModalOpen == old(isModalOpen) && editing == old(editing)
      ensures calls == old(calls) && alerts == old(alerts)
    {
      form := form.(images := DropIndex(form.images, idx));
    }

    /** The save button, leading to the first half of `handleFormSubmit`.
        The button is disabled while `loading`, and the browser refuses a
        form that fails its field constraints; in either case nothing
        happens. Otherwise loading turns on, which disables both footer
        buttons, and the update of the product being edited, or the
        creation, goes out with the payload and the new files; nothing else
        changes until the reply. */
    method BeginSubmit() returns (started: bool)
      modifies this
      ensures pendingDeletes == old(pendingDeletes)
      ensures started <==> !old(loading) && ProductFormAccepted(old(form))
      ensures loading == (old(loading) || started)
      ensures started ==> calls == old(calls) + [Save(SaveRequestOf(old(editing), old(form)))]
      ensures !started ==> calls == old(calls)
      ensures isModalOpen == old(isModalOpen) && alerts == old(alerts)
      ensures products == old(products) && categories == old(categories)
      ensures editing == old(editing) && form == old(form)
    {
      started := !loading && ProductFormAccepted(form);
      if started {
        loading := true;
        calls := calls + [Save(SaveRequestOf(editing, form))];
      }
    }

    /** The second half: a success closes the form and refetches the list,
        a failure alerts with the backend's message; loading ends either
        way. */
    method FinishSubmit(reply: Reply<()>)
      modifies this
      ensures pendingDeletes == old(pendingDeletes)
      ensures !loading
      ensures reply.Ok? ==>
        !isModalOpen && alerts == old(alerts) && calls == old(calls) + [ListProducts]
      ensures reply.Err? ==>
        isModalOpen == old(isModalOpen) && alerts == old(alerts) + [SaveFailedAlert + reply.message]
        && calls == old(calls)
      ensures products == old(products) && categories == old(categories)
      ensures editing == old(editing) && form == old(form)
    {
      if reply.Ok? {
        isModalOpen := false;
        calls := calls + [ListProducts];
      } else {
        alerts := alerts + [SaveFailedAlert + reply.message];
      }
      loading := false;
    }
  }
}
