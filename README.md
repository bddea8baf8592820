# ShopBazaar backend core in Dafny

This project models the request handlers of the ShopBazaar e-commerce
backend (Express with MongoDB, Braintree and JWT) as steps from a request
and the stored collections to a response and new collections. It covers the
following parts:

- **User schema** (`UserModel`): the `User` record, required fields,
  `trim` on name and email, the unique email and the default role 0. The
  `users` collection is a class whose `Valid()` keeps identifiers and
  emails unique and names and emails trimmed.
- **Auth handlers** (`AuthController`):
  - register, with its validation order and duplicate-email check;
  - the login decision chain and the token it issues;
  - forgot-password, with the lookup by email and answer;
  - the profile update, with the "new value if truthy, else old" merge;
  - the buyer's orders and all orders, newest first;
  - the admin's order-status update.
- **Category handlers** (`CategoryController`): create, update, list,
  single and delete over the `categories` collection.
- **Product handlers** (`ProductControllers`):
  - create-product validation and insert;
  - the update diff (`updatedFields`) and the conditional merge-write;
  - delete, get-all (twelve newest), single, count;
  - the filter query, two-per-page listing and related products;
  - the checkout: a loop sums the cart and an order is recorded when the
    gateway answers with a result.
- **Guards** (`AuthMiddleware`): `requireSignIn`, `isAdmin`, and a route's
  middleware chain run in order.
- **Routers** (`Routes`): the product and auth route tables, each route
  with its guard chain, and what the chains guarantee.

Collections are sequences in insertion order. `findOne` is the first
match and `.sort({ createdAt: -1 })` is the reverse (`NewestFirst`). The
collections the handlers write are classes (`UserCollection`,
`OrderCollection`, `CategoryCollection`, `ProductCollection`). The handlers
that write them are methods with `modifies` clauses. Read-only handlers are
functions, except the filter handler, which fills its query document step by
step as the source does and is a method that changes nothing. Outside services are function parameters:
- JWT verification (`verify`) and signing (`sign`);
- bcrypt hashing (`hash`) and comparison (`matches`);
- `slugify`;
- the Braintree sale (`sale`).

A response is a status, the `success` field and the `message`, which is a
fixed text, a caught error (`Raised`) or absent. A property read on `null`
or `undefined` inside a `try` is modelled as the `TypeError` it throws,
answered with status 500.

Behaviour of the code that the model keeps as written:
- In createProductController the photo case `!photo && photo.size > 1000000`
  reads `size` of `undefined` when no photo is sent, so a form without a
  photo is answered 500 "error in creating product". A photo that is sent
  is never size-checked (`OversizedPhotoAccepted`).
- The payment callback records the order whenever the gateway passes a
  result object, also when that result reports a declined transaction.
- Renaming a product keeps its old slug: the update never recomputes it.
- The profile update hashes the new password and stores a user's old
  values for the falsy fields. It runs no schema validators, so a name or
  email of only white space is stored as "" after the trim. With no stored
  user, the update throws a TypeError at the first falsy field.
- The security answer is stored as sent, not hashed, and forgot-password
  compares it as sent.
- A regular user who calls an admin route gets status 200 with
  `success: false`. A token that does not verify gets status 500, not 401.

## Model

| member | source | states |
|---|---|---|
| Common.OrElse | controllers/authController.js:172-176 | `name`, or `user.name` when `name` is falsy (and the same for the other fields): the incoming string when it is truthy, else the stored one |
| Common.Trim | models/userModel.js:5-6 | the `trim` setter: the result has no white space at either end and is the part of the input between its leading and trailing white space |
| Common.TrimOfTrimmed | models/userModel.js:5-6 | a string with no white space at either end is its own trim |
| Common.TrimIdempotent | models/userModel.js:5-6 | trimming a stored, already trimmed value again changes nothing |
| Common.NewestFirst | controllers/authController.js:197 | `.sort({ createdAt: -1 })`: the same elements, the most recently inserted first |
| Common.NewestFirstAppend | controllers/authController.js:197 | an element inserted after all others comes first in the sorted read |
| Common.Utf16Length | controllers/authController.js:163 | JavaScript's `length`: UTF-16 code units, between the number of characters and twice it, equal to it when no character is above U+FFFF; additive over concatenation by Common.Utf16LengthAppend |
| Common.Utf16LengthAppend | controllers/authController.js:163 | the length of a concatenation is the sum of the lengths, so each character adds one code unit, or two above U+FFFF |
| Common.Window | controllers/productControllers.js:356-357 | `.skip(k).limit(n)`: at most n elements, element i being element k+i of the input, and every element from position k to k+n-1 of the input included |
| UserModel.FindByEmail | controllers/authController.js:31 | `findOne({ email })`: the first user with that email, or None when no user has it |
| UserModel.FindById | middlewares/authMiddleware.js:23 | `findById`: the user with that identifier, or None when there is none |
| UserModel.FindByEmailOfStored | models/userModel.js:6 | with unique emails, looking up a stored user's email finds exactly that user |
| UserModel.AppendKeepsKeys | models/userModel.js:5-6 | appending a trimmed user whose id and email nobody has keeps ids and emails unique and every name and email trimmed |
| UserModel.UserCollection.constructor | models/userModel.js:3-14 | an empty `users` collection satisfies the schema invariant (unique ids and emails, trimmed name and email) |
| Orders.FindOrder | controllers/authController.js:225 | `findByIdAndUpdate(orderId)` lookup: the order with that identifier, or None |
| Orders.OfBuyer | controllers/authController.js:194 | `find({ buyer })`: exactly the orders of that buyer, in store order (OfBuyerAppend) |
| Orders.OfBuyerAppend | controllers/authController.js:194 | selecting by buyer keeps store order: the buyer's orders of a prefix come before those of the rest |
| Orders.OrderCollection.constructor | controllers/productControllers.js:494-498 | an empty `orders` collection has unique identifiers |
| AuthController.MissingField | controllers/authController.js:10-28 | the message of the first falsy field in the order name, email, password, phone, address, answer; None exactly when all six are truthy |
| AuthController.NewUser | controllers/authController.js:42-52 | the stored record: trimmed name and email, `hash(password)` as password, the other fields as sent, role 0 |
| AuthController.Register | controllers/authController.js:5-60 | a missing field answers its message and adds nothing; an email already stored answers "User already exists. Please Login" and adds nothing; otherwise exactly the new user is appended, or the save fails validation with 500; the collection stays keyed and trimmed |
| AuthController.Login | controllers/authController.js:62-114 | falsy email or password gives 404 "Invalid email or password"; an unknown email "Email is not registered"; a wrong password "Invalid Credentials"; only success carries a token, signed for the user's `_id` with a 7-day lifetime, and the user without password or answer |
| AuthController.LoginIssuesTokenOnlyToOwner | controllers/authController.js:74-108 | any issued token belongs to a stored user with the given email whose password matches |
| AuthController.FindByEmailAndAnswer | controllers/authController.js:128 | `findOne({ email, answer })`: the first user with both, or None when no user has both |
| AuthController.ForgotPassword | controllers/authController.js:117-145 | any missing field answers "All fields are required"; no user with that email and answer answers "Invalid email or answer"; otherwise only that user's password changes, to `hash(newPassword)` |
| AuthController.Revised | controllers/authController.js:168-177 | each of name, email, password, phone, address takes the new value if truthy, else keeps the old one; name and email are trimmed, the password hashed; id, answer and role are untouched |
| AuthController.NullUserFault | controllers/authController.js:172-176 | with no stored user, building the update throws a TypeError exactly when some field is falsy |
| AuthController.ReviseKeepsKeys | models/userModel.js:5-6 | replacing a user by a trimmed record with the same id and an email nobody else has keeps emails unique |
| AuthController.AstralPasswordLongEnough | controllers/authController.js:163 | a password of three characters above U+FFFF has length 6 and is not refused |
| AuthController.UpdateProfile | controllers/authController.js:158-189 | a present password shorter than 6 UTF-16 code units changes nothing; otherwise the caller's record becomes its revision unless the email belongs to another user (duplicate key, 500, nothing changes); answer and role never change; a missing caller changes nothing |
| AuthController.BuyerOrders | controllers/authController.js:191-203 | exactly the orders whose buyer is the caller |
| AuthController.AllOrders | controllers/authController.js:206-218 | every order, each as often as it is stored |
| AuthController.BuyerOrdersNewestFirst | controllers/authController.js:193-197 | a newly recorded order heads its buyer's list and no other buyer's list changes |
| AuthController.AllOrdersNewestFirst | controllers/authController.js:208-212 | a newly recorded order heads the list of all orders |
| AuthController.OrderStatus | controllers/authController.js:221-235 | only the status of the given order changes; an unknown id changes nothing and still answers success with a null order |
| AuthMiddleware.RequireSignIn | middlewares/authMiddleware.js:6-18 | continues exactly when the token verifies, with `req.user` set to the decoded payload; otherwise 500 with the verification error and no continuation |
| AuthMiddleware.IsAdmin | middlewares/authMiddleware.js:21-36 | continues, with the request unchanged, exactly when the stored user of `req.user._id` has role 1; a regular user gets 200 "Admin resource. Access denied"; a missing `req.user` or user is a TypeError answered 500 |
| AuthMiddleware.ChainGuards | middlewares/authMiddleware.js:8-30 | a chain that reaches its handler leaves `req.user` set when it holds requireSignIn, and set to a stored admin when it holds isAdmin |
| AuthMiddleware.ChainKeepsUser | middlewares/authMiddleware.js:8-13 | once `req.user` is set from the request's own token, the rest of the chain leaves the request as it is |
| AuthMiddleware.RejectedTokenStops | middlewares/authMiddleware.js:14-17 | a token that does not verify never reaches a handler behind requireSignIn |
| AuthMiddleware.NoAnonymousAdminCheck | middlewares/authMiddleware.js:23 | where requireSignIn precedes every isAdmin, isAdmin never reads `_id` of a missing `req.user` |
| Routes.Lookup | routes/productRoutes.js:23-80 | lookup by verb and registered path pattern (compared as a string): the first registration with both, or None; it is Express dispatch here because no two patterns of the same verb overlap in either router |
| Routes.ProductRouteGuards | routes/productRoutes.js:23-80 | create, delete and update run requireSignIn then isAdmin (form parser after both); payment runs requireSignIn only; every other product route has no guard |
| Routes.AuthRouteGuards | routes/authRoute.js:20-58 | register, login and forgot-password have no guard; user-auth, profile and orders run requireSignIn only; test, admin-auth, all-orders and order-status run requireSignIn then isAdmin |
| Routes.SignInPrecedesAdmin | routes/authRoute.js:29-58 | in every chain of both routers requireSignIn comes before isAdmin |
| Routes.RoutesDistinct | routes/productRoutes.js:23-80 | no two registrations of a router share verb and path |
| Routes.DispatchReachesEveryRoute | routes/authRoute.js:20-58 | every registration of both routers is the one its verb and path pattern look up to |
| Routes.LookupFindsFirst | routes/productRoutes.js:23-80 | a registration with no earlier one of the same verb and path is what the lookup finds |
| Routes.AdminEndpointsOnlyForAdmins | routes/productRoutes.js:23-55 | a fresh request reaches an admin handler of either router only with a token that verifies for a stored user of role 1 |
| Routes.NoEndpointChecksAnonymousAdmin | routes/authRoute.js:29-58 | on no route of either router does isAdmin throw on a missing `req.user` |
| CategoryController.FindByName | controllers/categoryController.js:12 | `findOne({ name })`: a category with that name, or None when there is none |
| CategoryController.FindBySlug | controllers/categoryController.js:83 | `findOne({ slug })`: the first category with that slug, or None |
| CategoryController.FindById | controllers/categoryController.js:37 | the category with that identifier, or None |
| CategoryController.RemoveAt | controllers/categoryController.js:111 | the collection without one element, the others in their order |
| CategoryController.AllCategories | controllers/categoryController.js:63-79 | every stored category, in store order, with "All categories" |
| CategoryController.SingleCategory | controllers/categoryController.js:81-105 | a category with that slug exactly when one exists, else 404 "Category not found" |
| CategoryController.CategoryCollection.constructor | controllers/categoryController.js:17-23 | an empty `categories` collection has unique identifiers |
| CategoryController.CreateCategory | controllers/categoryController.js:4-30 | a falsy name answers 401 "Name is required"; an existing name answers "Category already exists" with `success: false`; both add nothing; otherwise exactly one category with `slug = slugify(name)` is appended, 201 |
| CategoryController.UpdateCategory | controllers/categoryController.js:33-60 | a missing name makes slugify throw (500); an unknown id answers 404; otherwise only that category's name and slug change |
| CategoryController.DeleteCategory | controllers/categoryController.js:108-130 | an unknown id answers 404 and changes nothing; otherwise exactly that category is removed |
| CategoryController.DeleteRemovesOnlyTarget | controllers/categoryController.js:110-116 | after a delete no category has the deleted id and every other category remains |
| ProductControllers.FindProduct | controllers/productControllers.js:221 | `findById(pid)`: the product with that identifier, or None |
| ProductControllers.ProductCollection.constructor | controllers/productControllers.js:64-72 | an empty `products` collection has unique identifiers |
| ProductControllers.CreateCheck | controllers/productControllers.js:25-61 | 400 for the first falsy field in the order name, description, category, price, quantity; then 500 when no photo is sent (the size guard throws); passes exactly for a complete form with a photo |
| ProductControllers.OversizedPhotoAccepted | controllers/productControllers.js:56 | a sent photo over 1000000 bytes is never rejected |
| ProductControllers.NewProduct | controllers/productControllers.js:64-71 | the stored product: the form's fields, `slug = slugify(name)` and the uploaded photo |
| ProductControllers.CreateProduct | controllers/productControllers.js:18-86 | a rejected form answers as CreateCheck says and adds nothing; otherwise exactly the new product is appended, 201 "product created successfully" |
| ProductControllers.ChangedFields | controllers/productControllers.js:230-266 | a field enters `updatedFields` exactly when the new value is truthy and differs from the stored one, with the new value; the photo exactly when one is uploaded |
| ProductControllers.Merge | controllers/productControllers.js:272 | `{ ...existing, ...updatedFields }`: each changed field overrides, every other field, the id and the slug stay |
| ProductControllers.MergeNothing | controllers/productControllers.js:272 | merging no changes gives back the stored product |
| ProductControllers.UpdateSettles | controllers/productControllers.js:235-257 | under the value comparison of ChangedFields, applying a form and diffing the same form again (no new photo) finds no change; in the source this holds only for forms that send no price, quantity, category or shipping (see Left out) |
| ProductControllers.UpdateProduct | controllers/productControllers.js:219-297 | unknown id: 404 "Product not found", nothing changes; no changes: nothing is written and the stored product is returned; otherwise only that product becomes its merge with the changes |
| ProductControllers.DeleteProduct | controllers/productControllers.js:201-217 | always answers "product deleted successfully"; an unknown id changes nothing; otherwise exactly that product is removed and the others keep their order |
| ProductControllers.AllProducts | controllers/productControllers.js:88-118 | the twelve newest products (all when fewer), newest first |
| ProductControllers.SingleProduct | controllers/productControllers.js:122-146 | a product with that slug exactly when one exists, else 400 "product not found" |
| ProductControllers.ProductCount | controllers/productControllers.js:330-346 | the number of stored products with "Total product count" |
| ProductControllers.BuildFilterArgs | controllers/productControllers.js:302-309 | no query when the body lacks `checked` or `radio` (reading `length` throws); otherwise a product matches `args` exactly when its category is among `checked` (if non-empty) and its price lies in `[radio[0], radio[1]]` (if `radio` is non-empty) |
| ProductControllers.ProductFilter | controllers/productControllers.js:300-326 | a body without `checked` or `radio` answers 400 "Error in filtering product"; otherwise "Filtered products" with exactly the selected products; a one-element `radio` is not modelled |
| ProductControllers.FilterProducts | controllers/productControllers.js:312 | `find(args)`: exactly the stored products that match |
| ProductControllers.EmptyFilterKeepsAll | controllers/productControllers.js:303-309 | with nothing checked and no price range every product is returned, in store order |
| ProductControllers.ProductList | controllers/productControllers.js:348-372 | page defaults to 1; at most 2 products, element j being the ((page-1)*2+j)-th newest, and each of the ((page-1)*2)-th and ((page-1)*2+1)-th newest that exists is on the page; a page below 1 gives a negative skip and answers 400 |
| ProductControllers.ProductOnItsPage | controllers/productControllers.js:350-358 | the n-th newest product appears on page n/2+1 |
| ProductControllers.SameCategory | controllers/productControllers.js:407 | `find({ category: cid, _id: { $ne: pid } })`: exactly the products of that category other than pid |
| ProductControllers.RelatedProducts | controllers/productControllers.js:403-425 | at most 3 products, all of category cid and none of them pid; fewer than 3 only when that is all there are |
| ProductControllers.SumPricesAppend | controllers/productControllers.js:479-482 | the total of two carts put together is the sum of their totals |
| ProductControllers.SumPricesBounds | controllers/productControllers.js:479-482 | a cart of non-negative prices totals at least 0 and at least each of its prices |
| ProductControllers.CheckoutTotal | controllers/productControllers.js:479-482 | the loop's total is the sum of the cart's prices (0 for an empty cart) |
| ProductControllers.BraintreePayment | controllers/productControllers.js:476-522 | the sale is asked for the cart's total; with a result, exactly one order `{ products: cart, payment: result, buyer }` is appended; with none, a failure is answered and no order is added |

## Left out

- config/db.js, the connection and Mongoose projections (`populate`, `select("-photo")`) are not part of this model; collections are sequences and documents are records.
- ProductControllers.ChangedFields (and UpdateProduct): ObjectId identity is not modelled; the model compares identifiers and field values as values. In the source, `price`, `quantity`, `category` and `shipping` arrive from the multipart form as strings and are compared with `!==` to a stored number, ObjectId or boolean (controllers/productControllers.js:243-256), so a truthy value is never equal to the stored one.
- ProductControllers.UpdateSettles: holds for the model's value comparison only; in the source a re-sent form that carries price, quantity, category or shipping always counts those as changed, writes again and answers "Product updated successfully".
- ProductControllers.CreateCheck: price, quantity and shipping are read as the values they store; a present field is truthy, as any non-empty form string is, and the casts Mongoose applies on save (and their failures) are not modelled.
- The product, order and category schemas (models/productModel.js, models/orderModel.js, models/categoryModel.js) are not part of this model; their validators and defaults (e.g. the order status default) are not modelled.
- ProductControllers.ProductCount: `estimatedDocumentCount` is modelled as the exact number of stored products.
- ProductControllers.ProductFilter: requires `radio` to have zero or at least two elements, as BuildFilterArgs does; the source runs the query `{ $gte: radio[0], $lte: undefined }` for a one-element `radio`, whose result depends on Mongoose's casting and is not modelled.
- ProductControllers.BuildFilterArgs: requires `radio` to have zero or at least two elements; a one-element range (`$lte: undefined`) depends on Mongoose's casting and is not modelled.
- getPhotoController, searchProductsController (regular expressions), productCategoryController and getBraintreeTokenController are left out: they are photo byte I/O with error-name mapping, regex matching, a lookup through another collection, and a call to the payment gateway.
- testController and the inline user-auth/admin-auth handlers only answer fixed bodies; the routes model their guard chains.
- The Braintree gateway, JWT signing and verification with its clock (`exp`), bcrypt and slugify are parameters; their internals are not modelled.
- The un-awaited order `save()` in the payment callback and the asynchronous callback itself are treated as one atomic step.
- Prices are integers (cents); JavaScript floating-point addition is not modelled.
- Console logging, and the `error` object sent in response bodies, are left out; a caught error is represented by its kind.
- Errors from the database itself (lost connection, timeouts) and cast errors on malformed identifiers are not modelled.
- getSingleProductController's `catch` block without a binding would itself throw; since no modelled step throws there, that path is not modelled.
- `status` in the order-status body is taken to be present.
- ProductControllers.BraintreePayment: the body's `cart` is taken to be present; a missing cart makes `cart.map` throw, answered 500 "error in getting braintree payment", which is not modelled.
- ProductControllers.ProductList: the `:page` route parameter is read as an integer; a parameter that is not a number (a NaN skip) is not modelled.
- Common.Trim: removes the white-space characters space, tab, line feed, carriage return, vertical tab, form feed, no-break space, byte-order mark, line separator and paragraph separator, not the other Unicode space separators (U+1680, U+2000-U+200A, U+202F, U+205F, U+3000) that `String.prototype.trim` also removes.
- Email uniqueness is modelled as exact string equality; collation and case are not modelled.
- Common.NewestFirst: insertion order stands for `createdAt` order; documents created in the same millisecond tie, and MongoDB returns ties in no fixed order.
- UserModel.User: `address` is a Mixed field in the schema; the model types it as a string, so a non-string address such as an object is not represented.
