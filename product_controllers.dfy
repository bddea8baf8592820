/** The product handlers over the `products` collection and the checkout
    handler that charges a cart and records the order. slugify, the photo
    file read and the payment gateway's sale call are parameters. */
module ProductControllers {
  import opened Common
  import opened UserModel
  import opened Orders
  import CategoryController

  type CategoryId = CategoryController.CategoryId

  /** A stored photo: the bytes read from the upload and its MIME type. */
  datatype Photo = Photo(data: seq<int>, contentType: string)

  /** A file sent with the form: its size in bytes, its content as read
      from disk and its MIME type. */
  datatype Upload = Upload(size: nat, data: seq<int>, contentType: string)

  function PhotoOf(u: Upload): Photo {
    Photo(u.data, u.contentType)
  }

  /** A stored product; `shipping` is None when the form never gave it. */
  datatype Product = Product(
    id: ProductId,
    name: string,
    slug: string,
    description: string,
    price: int,
    category: CategoryId,
    quantity: int,
    shipping: Option<bool>,
    photo: Option<Photo>)

  /** The fields of a create or update form. The multipart parser delivers
      every field as a string, so a field is truthy exactly when it is sent
      non-empty, whatever number it spells: None stands for a field absent
      or empty, Some for one sent non-empty, read as the value it stores. */
  datatype ProductForm = ProductForm(
    name: Option<string>,
    description: Option<string>,
    price: Option<int>,
    category: Option<CategoryId>,
    quantity: Option<int>,
    shipping: Option<bool>)

  ghost predicate DistinctProductIds(products: seq<Product>) {
    forall i, j :: 0 <= i < j < |products| ==> products[i].id != products[j].id
  }

  /** `findById(pid)`. */
  function FindProduct(products: seq<Product>, id: ProductId): (r: Option<nat>)
    ensures r.Some? ==> r.value < |products| && products[r.value].id == id
    ensures r.None? ==> forall j :: 0 <= j < |products| ==> products[j].id != id
  {
    if products == [] then None
    else if products[0].id == id then Some(0)
    else match FindProduct(products[1..], id)
      case None => None
      case Some(k) => Some(k + 1)
  }

  /** The `products` collection in insertion (creation) order. */
  class ProductCollection {
    var products: seq<Product>

    ghost predicate Valid()
      reads this
    {
      DistinctProductIds(products)
    }

    constructor ()
      ensures Valid() && products == []
    {
      products := [];
    }
  }

  // ----------------------------------------------------------------- create

  /** The form has every field the create handler insists on. */
  predicate CompleteForm(f: ProductForm) {
    Truthy(f.name) && Truthy(f.description) && f.category.Some?
    && f.price.Some? && f.quantity.Some?
  }

  /** The validation `switch (true)` of createProductController: the first
      missing field in the order name, description, category, price,
      quantity answers 400. The photo case tests `!photo && photo.size >
      1000000`: with no photo it reads `size` of `undefined` and the handler
      answers 500; with a photo it is false whatever the size. None: the
      product is created. */
  function CreateCheck(f: ProductForm, photo: Option<Upload>): (r: Option<Response>)
    ensures r.None? <==> CompleteForm(f) && photo.Some?
    ensures !Truthy(f.name) ==> r == Some(Failure(400, "name is required"))
    ensures Truthy(f.name) && !Truthy(f.description) ==>
      r == Some(Failure(400, "description is required"))
    ensures Truthy(f.name) && Truthy(f.description) && f.category.None? ==>
      r == Some(Failure(400, "category is required"))
    ensures Truthy(f.name) && Truthy(f.description) && f.category.Some?
            && f.price.None? ==>
      r == Some(Failure(400, "price is required"))
    ensures Truthy(f.name) && Truthy(f.description) && f.category.Some?
            && f.price.Some? && f.quantity.None? ==>
      r == Some(Failure(400, "quantity is required"))
    ensures CompleteForm(f) && photo.None? ==>
      r == Some(Failure(500, "error in creating product"))
  {
    if !Truthy(f.name) then Some(Failure(400, "name is required"))
    else if !Truthy(f.description) then Some(Failure(400, "description is required"))
    else if f.category.None? then Some(Failure(400, "category is required"))
    else if f.price.None? then Some(Failure(400, "price is required"))
    else if f.quantity.None? then Some(Failure(400, "quantity is required"))
    else if photo.None? then Some(Failure(500, "error in creating product"))
    else None
  }

  /** The size guard never rejects: a complete form with a photo of any size,
      however far over 1000000 bytes, is accepted. */
  lemma OversizedPhotoAccepted(f: ProductForm, u: Upload)
    requires CompleteForm(f) && u.size > 1000000
    ensures CreateCheck(f, Some(u)).None?
  {
  }

  /** The product a create stores: the form's fields, the slug of the name
      and the uploaded photo. */
  function NewProduct(id: ProductId, f: ProductForm, u: Upload, slugify: string -> string): (p: Product)
    requires CompleteForm(f)
    ensures p.id == id && p.name == f.name.value && p.slug == slugify(f.name.value)
    ensures p.description == f.description.value && p.category == f.category.value
    ensures p.price == f.price.value && p.quantity == f.quantity.value
    ensures p.shipping == f.shipping && p.photo == Some(PhotoOf(u))
  {
    Product(id, f.name.value, slugify(f.name.value), f.description.value, f.price.value,
            f.category.value, f.quantity.value, f.shipping, Some(PhotoOf(u)))
  }

  /** createProductController. `id` is the identifier the store gives the
      new document. */
  method CreateProduct(db: ProductCollection, f: ProductForm, photo: Option<Upload>,
                       slugify: string -> string, id: ProductId)
    returns (resp: Response, created: Option<Product>)
    requires db.Valid()
    requires forall p :: p in db.products ==> p.id != id
    modifies db
    ensures db.Valid()
    ensures CreateCheck(f, photo).Some? ==>
      resp == CreateCheck(f, photo).value && created.None? && db.products == old(db.products)
    ensures CreateCheck(f, photo).None? ==>
      resp == Success(201, "product created successfully")
      && created == Some(NewProduct(id, f, photo.value, slugify))
      && db.products == old(db.products) + [created.value]
  {
    var rejected := CreateCheck(f, photo);
    if rejected.Some? {
      return rejected.value, None;
    }
    var p := NewProduct(id, f, photo.value, slugify);
    db.products := db.products + [p];
    resp, created := Success(201, "product created successfully"), Some(p);
  }

  // ----------------------------------------------------------------- update

  /** `updatedFields`: the fields an update changes. */
  datatype Changes = Changes(
    name: Option<string>,
    description: Option<string>,
    price: Option<int>,
    category: Option<CategoryId>,
    quantity: Option<int>,
    shipping: Option<bool>,
    photo: Option<Photo>)

  const NoChanges: Changes := Changes(None, None, None, None, None, None, None)

  /** updatedFields as updateProductController builds it: a field is taken
      when the form's value is truthy and differs from the stored one; a new
      photo is taken whenever one is uploaded. */
  function ChangedFields(e: Product, f: ProductForm, upload: Option<Upload>): (c: Changes)
    ensures c.name.Some? <==> Truthy(f.name) && f.name.value != e.name
    ensures c.description.Some? <==> Truthy(f.description) && f.description.value != e.description
    ensures c.price.Some? <==> f.price.Some? && f.price.value != e.price
    ensures c.category.Some? <==> f.category.Some? && f.category.value != e.category
    ensures c.quantity.Some? <==> f.quantity.Some? && f.quantity.value != e.quantity
    ensures c.shipping.Some? <==> f.shipping.Some? && f.shipping != e.shipping
    ensures c.photo.Some? <==> upload.Some?
    ensures c.name.Some? ==> c.name == f.name
    ensures c.description.Some? ==> c.description == f.description
    ensures c.price.Some? ==> c.price == f.price
    ensures c.category.Some? ==> c.category == f.category
    ensures c.quantity.Some? ==> c.quantity == f.quantity
    ensures c.shipping.Some? ==> c.shipping == f.shipping
    ensures c.photo.Some? ==> c.photo.value == PhotoOf(upload.value)
  {
    Changes(
      if Truthy(f.name) && f.name.value != e.name then f.name else None,
      if Truthy(f.description) && f.description.value != e.description then f.description else None,
      if f.price.Some? && f.price.value != e.price then f.price else None,
      if f.category.Some? && f.category.value != e.category then f.category else None,
      if f.quantity.Some? && f.quantity.value != e.quantity then f.quantity else None,
      if f.shipping.Some? && f.shipping != e.shipping then f.shipping else None,
      if upload.Some? then Some(PhotoOf(upload.value)) else None)
  }

  function Pick<T>(change: Option<T>, stored: T): T {
    if change.Some? then change.value else stored
  }

  /** `{ ...existing, ...updatedFields }`: every changed field overrides the
      stored one; identifier and slug stay, so a renamed product keeps its
      old slug. */
  function Merge(e: Product, c: Changes): (p: Product)
    ensures p.id == e.id && p.slug == e.slug
    ensures c.name.Some? ==> p.name == c.name.value
    ensures c.name.None? ==> p.name == e.name
    ensures c.description.Some? ==> p.description == c.description.value
    ensures c.description.None? ==> p.description == e.description
    ensures c.price.Some? ==> p.price == c.price.value
    ensures c.price.None? ==> p.price == e.price
    ensures c.category.Some? ==> p.category == c.category.value
    ensures c.category.None? ==> p.category == e.category
    ensures c.quantity.Some? ==> p.quantity == c.quantity.value
    ensures c.quantity.None? ==> p.quantity == e.quantity
    ensures c.shipping.Some? ==> p.shipping == c.shipping
    ensures c.shipping.None? ==> p.shipping == e.shipping
    ensures c.photo.Some? ==> p.photo == c.photo
    ensures c.photo.None? ==> p.photo == e.photo
  {
    Product(e.id, Pick(c.name, e.name), e.slug, Pick(c.description, e.description),
            Pick(c.price, e.price), Pick(c.category, e.category), Pick(c.quantity, e.quantity),
            if c.shipping.Some? then c.shipping else e.shipping,
            if c.photo.Some? then c.photo else e.photo)
  }

  /** Merging no changes gives back the stored product. */
  lemma MergeNothing(e: Product)
    ensures Merge(e, NoChanges) == e
  {
  }

  /** Sending the same form again, without a photo, after it was applied
      finds nothing left to change. */
  lemma {:induction false} UpdateSettles(e: Product, f: ProductForm, upload: Option<Upload>)
    ensures ChangedFields(Merge(e, ChangedFields(e, f, upload)), f, None) == NoChanges
  {
    var c := ChangedFields(e, f, upload);
    var m := Merge(e, c);
    var again := ChangedFields(m, f, None);
    assert again.name.None? && again.description.None? && again.price.None?;
    assert again.category.None? && again.quantity.None? && again.shipping.None?;
    assert again.photo.None?;
  }

  /** updateProductController. */
  method UpdateProduct(db: ProductCollection, pid: ProductId, f: ProductForm, upload: Option<Upload>)
    returns (resp: Response, product: Option<Product>)
    requires db.Valid()
    modifies db
    ensures db.Valid()
    ensures FindProduct(old(db.products), pid).None? ==>
      resp == Failure(404, "Product not found") && product.None?
      && db.products == old(db.products)
    ensures FindProduct(old(db.products), pid).Some? ==>
      var k := FindProduct(old(db.products), pid).value;
      var c := ChangedFields(old(db.products)[k], f, upload);
      if c == NoChanges then
        resp == Success(200, "No changes detected. Product remains unchanged.")
        && product == Some(old(db.products)[k]) && db.products == old(db.products)
      else
        resp == Success(200, "Product updated successfully")
        && product == Some(Merge(old(db.products)[k], c))
        && db.products == old(db.products)[k := product.value]
  {
    var found := FindProduct(db.products, pid);
    if found.None? {
      return Failure(404, "Product not found"), None;
    }
    var k := found.value;
    var existing := db.products[k];
    var c := ChangedFields(existing, f, upload);
    if c == NoChanges {
      return Success(200, "No changes detected. Product remains unchanged."), Some(existing);
    }
    var p := Merge(existing, c);
    db.products := db.products[k := p];
    resp, product := Success(200, "Product updated successfully"), Some(p);
  }

  // ------------------------------------------------------- delete and reads

  /** deleteProductController: removes the product `pid` if there is one and
      answers success either way. */
  method DeleteProduct(db: ProductCollection, pid: ProductId) returns (resp: Response)
    requires db.Valid()
    modifies db
    ensures db.Valid()
    ensures resp == Success(200, "product deleted successfully")
    ensures match FindProduct(old(db.products), pid)
      case None => db.products == old(db.products)
      case Some(k) => db.products == old(db.products)[..k] + old(db.products)[k + 1..]
    ensures forall p :: p in db.products <==> p in old(db.products) && p.id != pid
  {
    var found := FindProduct(db.products, pid);
    if found.Some? {
      var k := found.value;
      db.products := db.products[..k] + db.products[k + 1..];
      assert forall p :: p in old(db.products) && p.id != pid ==> p in db.products by {
        forall p | p in old(db.products) && p.id != pid
          ensures p in db.products
        {
          var j :| 0 <= j < |old(db.products)| && old(db.products)[j] == p;
          if j < k { assert db.products[j] == p; } else { assert db.products[j - 1] == p; }
        }
      }
    }
    resp := Success(200, "product deleted successfully");
  }

  /** getAllProductsController: the twelve newest products. */
  function AllProducts(products: seq<Product>): (r: (Response, seq<Product>))
    ensures r.0 == Success(200, "all products")
    ensures |r.1| == if |products| < 12 then |products| else 12
    ensures forall i :: 0 <= i < |r.1| ==> r.1[i] == products[|products| - 1 - i]
  {
    (Success(200, "all products"), Window(NewestFirst(products), 0, 12))
  }

  /** getSingleProductController: the first product with that slug, or 400. */
  function SingleProduct(products: seq<Product>, slug: string): (r: (Response, Option<Product>))
    ensures r.1.Some? <==> exists j :: 0 <= j < |products| && products[j].slug == slug
    ensures r.1.Some? ==>
      r.1.value in products && r.1.value.slug == slug
      && r.0 == Success(200, "single product found successfully")
    ensures r.1.None? ==> r.0 == Failure(400, "product not found")
  {
    if products == [] then (Failure(400, "product not found"), None)
    else if products[0].slug == slug then
      (Success(200, "single product found successfully"), Some(products[0]))
    else SingleProduct(products[1..], slug)
  }

  /** productCountController: the number of stored products. */
  function ProductCount(products: seq<Product>): (r: (Response, nat))
    ensures r.0 == Success(200, "Total product count")
    ensures r.1 == |products|
  {
    (Success(200, "Total product count"), |products|)
  }

  // ------------------------------------------------------------------ filter

  /** The query document `args` of productFilterController. */
  datatype FilterArgs = FilterArgs(category: Option<seq<CategoryId>>, price: Option<(int, int)>)

  /** What `find(args)` keeps: a category among the checked ones, a price in
      the inclusive range. */
  predicate Matches(p: Product, args: FilterArgs) {
    && (args.category.Some? ==> p.category in args.category.value)
    && (args.price.Some? ==> args.price.value.0 <= p.price <= args.price.value.1)
  }

  /** A product the checkboxes `checked` and the price range `radio` select:
      its category among the checked ones when any is checked, its price in
      `[radio[0], radio[1]]` when a range is given. */
  predicate Selected(p: Product, checked: seq<CategoryId>, radio: seq<int>)
    requires |radio| != 1
  {
    && (|checked| > 0 ==> p.category in checked)
    && (|radio| > 0 ==> radio[0] <= p.price <= radio[1])
  }

  /** Fills `args` as productFilterController does: the category only for a
      non-empty `checked`, the price range only for a non-empty `radio`.
      Reading `length` of a missing `checked` or `radio` throws: None. */
  method BuildFilterArgs(checked: Option<seq<CategoryId>>, radio: Option<seq<int>>)
    returns (args: Option<FilterArgs>)
    requires radio.Some? ==> |radio.value| != 1
    ensures args.None? <==> checked.None? || radio.None?
    ensures args.Some? ==>
      forall p :: Matches(p, args.value) <==> Selected(p, checked.value, radio.value)
  {
    if checked.None? {
      return None;
    }
    var query := FilterArgs(None, None);
    if |checked.value| > 0 {
      query := query.(category := Some(checked.value));
    }
    if radio.None? {
      return None;
    }
    if |radio.value| > 0 {
      query := query.(price := Some((radio.value[0], radio.value[1])));
    }
    args := Some(query);
  }

  /** `productModel.find(args)`, in store order. */
  function FilterProducts(products: seq<Product>, args: FilterArgs): (r: seq<Product>)
    ensures |r| <= |products|
    ensures forall p :: p in r <==> p in products && Matches(p, args)
  {
    if products == [] then []
    else (if Matches(products[0], args) then [products[0]] else []) + FilterProducts(products[1..], args)
  }

  /** productFilterController: the selected products in store order, or 400
      when the body lacks `checked` or `radio`. */
  method ProductFilter(products: seq<Product>, checked: Option<seq<CategoryId>>,
                       radio: Option<seq<int>>)
    returns (resp: Response, found: seq<Product>)
    requires radio.Some? ==> |radio.value| != 1
    ensures checked.None? || radio.None? ==>
      resp == Failure(400, "Error in filtering product") && found == []
    ensures checked.Some? && radio.Some? ==>
      && resp == Success(200, "Filtered products")
      && |found| <= |products|
      && forall p :: p in found <==> p in products && Selected(p, checked.value, radio.value)
  {
    var args := BuildFilterArgs(checked, radio);
    if args.None? {
      return Failure(400, "Error in filtering product"), [];
    }
    found := FilterProducts(products, args.value);
    resp := Success(200, "Filtered products");
  }

  /** With neither checkbox nor price range selected, every product passes. */
  lemma {:induction false} EmptyFilterKeepsAll(products: seq<Product>)
    ensures FilterProducts(products, FilterArgs(None, None)) == products
  {
    if products != [] {
      EmptyFilterKeepsAll(products[1..]);
      assert products == [products[0]] + products[1..];
    }
  }

  // -------------------------------------------------------------- pagination

  const PerPage: nat := 2

  /** The page a `page` parameter asks for: 1 when it is absent. */
  function PageNumber(page: Option<int>): int {
    if page.Some? then page.value else 1
  }

  /** productListController: page `page` (1 when absent) of the products,
      newest first, two per page, so page p starts at the ((p-1)*2)-th
      newest product; a page below 1 gives a negative skip, which the query
      rejects. */
  function ProductList(products: seq<Product>, page: Option<int>): (r: (Response, seq<Product>))
    ensures PageNumber(page) < 1 ==>
      r == (Failure(400, "Error in getting product list per page"), [])
    ensures PageNumber(page) >= 1 ==>
      var skip := (PageNumber(page) - 1) * PerPage;
      && r.0 == Success(200, "Product list per page")
      && |r.1| <= PerPage
      && (forall j :: 0 <= j < |r.1| ==>
            skip + j < |products| && r.1[j] == NewestFirst(products)[skip + j])
      && (forall i :: skip <= i < skip + PerPage && i < |products| ==>
            NewestFirst(products)[i] in r.1)
  {
    var p := PageNumber(page);
    if p < 1 then (Failure(400, "Error in getting product list per page"), [])
    else
      var skip := (p - 1) * PerPage;
      (Success(200, "Product list per page"), Window(NewestFirst(products), skip, PerPage))
  }

  /** Every product is listed on one page: the `n`-th newest (from 0) on page
      n / 2 + 1. */
  lemma ProductOnItsPage(products: seq<Product>, n: nat)
    requires n < |products|
    ensures NewestFirst(products)[n] in ProductList(products, Some(n / PerPage + 1)).1
  {
    var q := n / 2;
    assert q * 2 <= n < q * 2 + 2;
    assert (PageNumber(Some(q + 1)) - 1) * PerPage == q * 2;
  }

  // --------------------------------------------------------------- related

  /** The products of category `cid` other than `pid`, in store order. */
  function SameCategory(products: seq<Product>, pid: ProductId, cid: CategoryId): (r: seq<Product>)
    ensures |r| <= |products|
    ensures forall p :: p in r <==> p in products && p.category == cid && p.id != pid
  {
    if products == [] then []
    else
      var p := products[0];
      (if p.category == cid && p.id != pid then [p] else []) + SameCategory(products[1..], pid, cid)
  }

  /** relatedProductsController: up to three products of category `cid`,
      never `pid` itself. */
  function RelatedProducts(products: seq<Product>, pid: ProductId, cid: CategoryId): (r: seq<Product>)
    ensures |r| <= 3
    ensures forall p :: p in r ==> p in products && p.category == cid && p.id != pid
    ensures |r| < 3 ==>
      forall p :: p in products && p.category == cid && p.id != pid ==> p in r
  {
    var all := SameCategory(products, pid, cid);
    if |all| <= 3 then all else all[..3]
  }

  // --------------------------------------------------------------- checkout

  /** The sum of the cart's prices. */
  function SumPrices(cart: seq<CartItem>): int {
    if cart == [] then 0 else SumPrices(cart[..|cart| - 1]) + cart[|cart| - 1].price
  }

  /** The total of two carts put together is the sum of their totals. */
  lemma {:induction false} SumPricesAppend(a: seq<CartItem>, b: seq<CartItem>)
    ensures SumPrices(a + b) == SumPrices(a) + SumPrices(b)
    decreases |b|
  {
    if b == [] {
      assert a + b == a;
    } else {
      var b' := b[..|b| - 1];
      assert (a + b)[..|a + b| - 1] == a + b';
      assert (a + b)[|a + b| - 1] == b[|b| - 1];
      SumPricesAppend(a, b');
    }
  }

  /** A cart of non-negative prices never totals below zero, nor below any
      one of its prices. */
  lemma {:induction false} SumPricesBounds(cart: seq<CartItem>)
    requires forall i :: 0 <= i < |cart| ==> cart[i].price >= 0
    ensures SumPrices(cart) >= 0
    ensures forall i :: 0 <= i < |cart| ==> SumPrices(cart) >= cart[i].price
  {
    if cart != [] {
      SumPricesBounds(cart[..|cart| - 1]);
      assert forall i :: 0 <= i < |cart| - 1 ==> cart[..|cart| - 1][i] == cart[i];
    }
  }

  /** The loop of braintreePaymentController: `total = total + item.price`
      for every item of the cart, from 0. */
  method CheckoutTotal(cart: seq<CartItem>) returns (total: int)
    ensures total == SumPrices(cart)
  {
    total := 0;
    var i := 0;
    while i < |cart|
      invariant 0 <= i <= |cart|
      invariant total == SumPrices(cart[..i])
    {
      assert cart[..i + 1][..i] == cart[..i];
      total := total + cart[i].price;
      i := i + 1;
    }
    assert cart[..|cart|] == cart;
  }

  /** What the gateway passes to the sale callback: `(error, result)`. */
  datatype SaleOutcome = SaleOutcome(error: Option<string>, result: Option<PaymentResult>)

  const PaymentFailed: string :=
    "Payment failed, try again. If the amount was deducted from your account let us know."

  /** braintreePaymentController for the signed-in `buyer` (`req.user._id`).
      `sale(amount, nonce)` is the gateway's answer; `id` is the identifier
      the store gives a new order. */
  method BraintreePayment(db: OrderCollection, cart: seq<CartItem>, nonce: string, buyer: UserId,
                          sale: (int, string) -> SaleOutcome, id: OrderId)
    returns (resp: Response, charged: int)
    requires db.Valid()
    requires forall o :: o in db.orders ==> o.id != id
    modifies db
    ensures db.Valid()
    ensures charged == SumPrices(cart)
    ensures sale(charged, nonce).result.Some? ==>
      resp == Success(200, "Payment Completed Successfully")
      && db.orders == old(db.orders) + [Order(id, cart, sale(charged, nonce).result.value, buyer, None)]
    ensures sale(charged, nonce).result.None? ==>
      resp == Failure(500, PaymentFailed) && db.orders == old(db.orders)
  {
    charged := CheckoutTotal(cart);
    var outcome := sale(charged, nonce);
    if outcome.result.Some? {
      db.orders := db.orders + [Order(id, cart, outcome.result.value, buyer, None)];
      resp := Success(200, "Payment Completed Successfully");
    } else {
      resp := Failure(500, PaymentFailed);
    }
  }
}
