# Eko Seller marketplace backend — a verified model

Eko Seller is an Express/Mongoose marketplace backend. Buyers and sellers
register, verify their email with a six-digit one-time code and log in.
Sellers list products with an uploaded image. Buyers place orders made of
order lines, each line taking a snapshot of the product's price. Categories
can hang under a parent category.

This project models the request handlers of that backend and the document
schemas they save. The MongoDB collections become maps from id to document,
held by one `Database` class (module `Tables`). Ids come from a single
counter, so an id is never handed out twice.

The modules are:

- `UserModel`, `ProductModel`, `OrderModel`: the documents and the validation
  Mongoose runs when it saves them.
- `UserChecks`: the request checks of registration. The email and phone
  regular expressions are each given as a pattern predicate and as a checker,
  with a proof that the two agree.
- `Auth`: the `auth`, `adminAuth` and `sellerAuth` middleware.
- `UsersRouter`: register, verify-otp, resend-otp, login, update-profile and
  delete, including the email-verification state machine.
- `OrdersRouter`: placing an order, with one order line saved per request
  line and then the header. Also the status update, delete, total sales, the
  order count and a user's orders.
- `CategoriesRouter`: creation with the parent lookup (as written and as
  intended), update, get and delete.
- `ProductsRouter`: the accepted upload types, the stored file name, the list
  filter, sort and paging, and product creation.
- `Strings`, `Numbers`, `Paging`: the JavaScript string operations, the
  `parseInt` function and the paging arithmetic the handlers rely on.

Most handlers are written in two parts:

- a function that decides the reply and the new document, from the old table
  and the request;
- a method that carries out that decision on the `Database`.

Each method's postcondition says its reply and the new table equal what the
function gives on the old state. The lemmas prove the properties the handlers
promise: failures in a fixed order, "nothing else changes", the order total
against the saved lines, and sums that do not depend on the order of
summation.

The current time, the generated one-time code and the password hash are
parameters. So are the upload instant, the base URL of uploaded files and,
for categories, the schema's verdict on a document (see below).

The model assumes Express 5 and Mongoose 6 or 7:

- Express 5: the catch-all route `/{*any}` (server.js:9) is Express 5 syntax.
  An async handler that throws outside its try block has its rejection passed
  to the default error handler, which answers 500.
- Mongoose 6 or 7: an update drops a field whose value is undefined, so an
  absent field keeps its value. A populate of a path that the schema lacks is
  rejected (`strictPopulate`). `findByIdAndRemove` still exists.

Where a handler's rejection escapes its try block, or a populate is refused,
the 500 reply depends on these versions.

Where the code and the evident intent differ, the model follows the code and
records the difference under "## Findings". For the three findings listed
there it also gives the corrected behaviour. Two more places where the model
follows the code:

- An unknown email in resend-otp dereferences null, so the reply is 500.
- A category update without an icon reads an undefined variable, so the
  reply is 500.

## Model

| member | source | states |
|---|---|---|
| UserModel.SellerFieldsRequiredOnlyForSellers | models/users.js:32-50 | marketLocation, description and localGovernmentArea are required of a seller and of no other role |
| UserModel.NewUserDefaults | models/users.js:27-76 | a user built from the required fields alone has role user, is unverified and has no code or expiry, and is invalid because state and country default to the empty string and are required |
| UserModel.OtpIndexAdmits | models/users.js:89-93 | the unique index on an OTP record's email admits a save under an id exactly when no other record holds that email |
| Strings.TrimStart | models/users.js:4-8 | the result is a suffix of the input that starts with no white space, and everything removed was white space |
| Strings.TrimEnd | models/users.js:4-8 | the result is a prefix of the input that ends with no white space, and everything removed was white space |
| Strings.TrimSpec | models/users.js:4-8 | a trimmed name has no white space at either end, and it is empty exactly when the input was all white space |
| Strings.Split | routers/products.js:43 | a split yields at least one piece |
| Strings.Replace | routers/products.js:27 | same length as the input, with every occurrence of one character replaced by another and nothing else changed |
| Strings.SplitPiecesLackSeparator | routers/products.js:43 | no piece of a split contains the separator |
| Strings.SplitWithoutSeparator | routers/products.js:70-71 | a string without the separator splits into itself alone |
| Strings.SplitAtFirstSeparator | routers/products.js:70-71 | splitting `x:y`, where x has no ':', gives x followed by the pieces of y |
| Strings.SplitJoinReplaces | routers/products.js:27 | `s.split(a).join(b)` equals s with every a replaced by b |
| Strings.SplitJoinRoundTrip | routers/products.js:43 | joining the pieces of a split with the same separator gives the original string back |
| Numbers.DigitRun | routers/products.js:63-64 | the longest prefix made of digits: all digits, and the next character is not one |
| Numbers.Decimal | routers/products.js:29 | the decimal text of `Date.now()`: non-empty, all digits, and it denotes the number |
| Numbers.ParseIntReadsDigits | routers/products.js:63-64 | parseInt of a run of decimal digits is the number they denote |
| Numbers.ParseIntReadsDecimal | routers/products.js:63-64 | parseInt reads back the decimal text of any natural number |
| Paging.IntOr | routers/users.js:103-104 | parseInt(q), or else the fallback: the parsed value when it is a non-zero number, otherwise the fallback |
| Paging.PageNumber | routers/products.js:63 | the page is never 0 |
| Paging.PageSize | routers/products.js:64 | the page size is never 0 |
| Paging.TotalPages | routers/products.js:88 | `Math.ceil(count / limit)`: the least number of pages of that size that holds count documents, for either sign of limit |
| Paging.PageNumberReadsQuery | routers/users.js:103-104 | a page given as a positive decimal is that page; absent or "0" gives 1 and 10 |
| Paging.PagesCoverCount | routers/users.js:105 | with a positive size, a page is within the page count exactly when its first document exists |
| Auth.Authenticate | routers/users.js:13-27 | a request passes exactly with a verified token, and carries that token's claims; otherwise 401, "Authentication required" when there is no token |
| Auth.AdminGate | routers/users.js:30-35 | only the role admin passes; any other role gets 403 |
| Auth.SellerGate | routers/orders.js:29-34 | exactly the roles seller and admin pass; any other role gets 403 |
| Auth.Guard | routers/orders.js:12-34 | auth and then a role gate: passes exactly with a verified token and an admitted role; token failures are reported before the role |
| Auth.AdminPassesSellerGate | routers/orders.js:29-34 | whoever passes the admin gate passes the seller gate |
| UserChecks.IndexOf | routers/users.js:174 | the position of the first occurrence, with no earlier occurrence |
| UserChecks.IsEmailMatchesPattern | routers/users.js:174-175 | the email checker accepts exactly the strings `^[^\s@]+@[^\s@]+\.[^\s@]+$` matches |
| UserChecks.PrefixDetermined | routers/users.js:182 | a phone number starts with at most one of the country prefixes |
| UserChecks.PhoneCheckerSound | routers/users.js:182-183 | every number the phone checker accepts matches the phone expression |
| UserChecks.PhoneCheckerComplete | routers/users.js:182-183 | every number the phone expression matches is accepted by the checker |
| UserChecks.IsNigerianPhoneMatchesPattern | routers/users.js:182-183 | the phone checker accepts exactly the strings the expression matches |
| UserChecks.RegisterPrecheck | routers/users.js:164-188 | the checks pass exactly when every required field (three more for a seller) is present, the email matches and the phone matches; a failure is 400 |
| UserChecks.RegisterPrecheckOrder | routers/users.js:164-188 | a missing field is reported first, then a malformed email, then a malformed phone |
| UsersRouter.NewUser | routers/users.js:199-227 | the new user is unverified, holds the code in both otp and verificationCode, expires 15 minutes on, and stores the hash of the password |
| UsersRouter.OtpCheck | routers/users.js:302-314 | a code is accepted exactly when it equals verificationCode and the expiry is not strictly before now; a wrong code is reported before an expired one |
| UsersRouter.MarkVerified | routers/users.js:317-320 | verified, with verificationCode and expiry cleared and otp kept; validity is preserved |
| UsersRouter.Reissued | routers/users.js:361-367 | a fresh code and expiry; email, password and verification flag kept; validity is preserved |
| UsersRouter.VerifiedCodeIsSpent | routers/users.js:302-320 | once a code has verified a user, submitting it again is refused as invalid at any time, although otp still holds it |
| UsersRouter.OnlyLatestCodeVerifies | routers/users.js:361-367 | after a resend, a code verifies exactly when it is the new code and it is submitted no later than its expiry |
| UsersRouter.ExpiryInstantIsAccepted | routers/users.js:309 | the expiry test is strict: accepted at the expiry instant, refused one millisecond later |
| UsersRouter.VerifiedUserRefusesEveryCode | routers/users.js:302-307 | a verified user cannot be verified again by any code |
| UsersRouter.ApplyProfile | routers/users.js:482-489 | each of the eight profile fields is replaced only when the request gives a non-empty value; role, password and verification fields are untouched |
| UsersRouter.EmptyProfileUpdateKeepsUser | routers/users.js:482-489 | an update with every field empty leaves the user as it was, and no update disturbs the verification state |
| UsersRouter.ByEmail | routers/users.js:294 | the user holding the email, or none exactly when nobody holds it |
| UsersRouter.FindByEmail | routers/users.js:294 | `User.findOne({email})` returns exactly that user |
| UsersRouter.RegisterOutcome | routers/users.js:161-274 | request checks first, then 409 when any user has the email or the phone, then schema validation; success exactly when all pass, and the new user then shares neither with anyone |
| UsersRouter.PasswordLengthNeverChecked | routers/users.js:205-213 | with a 60-character bcrypt hash, a password's length never matters: two requests that differ only in a non-empty password fail alike, or both succeed with documents that differ only in the stored hash |
| UsersRouter.PrecheckIgnoresPassword | routers/users.js:164-170 | the request checks look only at whether a password is given |
| UsersRouter.Register | routers/users.js:161-280 | success inserts exactly one user under a fresh id and mails its code; a failure changes nothing and sends nothing |
| UsersRouter.VerifyOutcome | routers/users.js:284-320 | missing fields (400), unknown email (404), wrong code (400), expired code (400), in that order; otherwise the verified user |
| UsersRouter.VerifyOtp | routers/users.js:284-332 | stores the verified user on success; every failure leaves the table unchanged |
| UsersRouter.ResendOutcome | routers/users.js:336-367 | missing email, malformed email, unknown email (500), already verified (400), in that order; otherwise the user with a fresh code |
| UsersRouter.ResendOtp | routers/users.js:336-405 | stores the fresh code and mails it to an unverified user; every failure changes nothing and sends nothing |
| UsersRouter.LoginOutcome | routers/users.js:409-460 | a token exactly for an existing, verified user whose hash matches, checked in that order; an unknown user and a wrong password get the same 401; the token carries id, email and role and lasts 24 hours |
| UsersRouter.Login | routers/users.js:409-468 | login leaves the store alone and answers as LoginOutcome decides |
| UsersRouter.ProfileOutcome | routers/users.js:471-489 | acts on the token's user, never the path id: 401 without a token, 404 for an absent user, 500 when the merged document cannot be saved |
| UsersRouter.UpdateProfile | routers/users.js:471-503 | replaces only the token's user with the merged document; a failure changes nothing |
| UsersRouter.DeleteUser | routers/users.js:507-528 | behind auth and the admin gate, removes exactly the named user; 404 when absent; nothing changes on any failure |
| Tables.StoreKeepsUserTableValid | models/users.js:9-13 | storing a valid user whose email no other user holds keeps the user table valid and emails unique |
| Tables.StoreUserKeepsTablesValid | models/users.js:3-78 | storing such a user keeps every table consistent |
| Tables.Database.PutUser | models/users.js:3-78 | a save admits only a valid user whose email is free; the table gains or replaces exactly that user |
| Tables.Database.PutProduct | models/products.js:3-58 | a save admits only a valid product; the table gains exactly that product |
| Tables.Database.PutOrder | models/orders.js:3-49 | a save admits only a valid header; the table gains or replaces exactly that header |
| Tables.Database.PutOrderItem | models/order-item.js:3-22 | the line table gains exactly that line |
| Tables.Mailer.Send | routers/users.js:252 | the outbox grows by exactly the message sent |
| ProductModel.ProductDefaults | models/products.js:12-22 | a product built without image, images, brand and rating has "", none, "" and 0, and leaving them out does not change whether the schema accepts it |
| Tables.StoredProductBounds | models/products.js:3-52 | every product in a consistent database has a price of at least 0, stock in 0..1000, rating in 0..5, and its required fields |
| OrderModel.OrderDefaults | models/orders.js:32-35 | a header built without a status is "Pending", any status keeps a valid header valid, and an order line built without a quantity has quantity 1 |
| OrdersRouter.ItemsFor | routers/orders.js:98-113 | one order line per request line |
| OrdersRouter.ItemsForAt | routers/orders.js:103-107 | line k stores request line k's product and quantity and the product's price at creation |
| OrdersRouter.ResolvedPrefix | routers/orders.js:98-102 | the lines handled before the first line whose product does not resolve: all before it resolve, and it does not |
| OrdersRouter.SnapshotTotal | routers/orders.js:115-121 | the total of the saved lines' price snapshots times quantities equals the sum over the request of price times quantity |
| OrdersRouter.SaveLinesKeep | routers/orders.js:98-113 | saving lines keeps every older line and uses only the ids handed out for the resolved lines |
| OrdersRouter.SaveLinesRead | routers/orders.js:103-111 | the k-th saved id holds the line built from request line k |
| OrdersRouter.Header | routers/orders.js:123-134 | the header names the line ids in request order, carries the total and the user, and has status "Pending" when the request gives none |
| OrdersRouter.UnresolvedReply | routers/orders.js:99-102 | a line whose product does not resolve ends the request with 500 |
| OrdersRouter.CreateItems | routers/orders.js:98-113 | saves one line per request line until the first unresolved one; returns their consecutive fresh ids |
| OrdersRouter.SumLines | routers/orders.js:115-121 | reading the saved lines back, the total is the sum of price times quantity over the request lines |
| OrdersRouter.PlaceSpecOrders | routers/orders.js:96-147 | 200 exactly when a header is saved; otherwise 500 with the orders unchanged; a saved header has a fresh id, is valid and names exactly the created lines |
| OrdersRouter.PlaceSpecLines | routers/orders.js:98-113 | created line ids are consecutive and fresh, earlier lines are kept, and lines saved before a failure stay |
| OrdersRouter.SavedLinesTotal | routers/orders.js:113-121 | when every line resolves, the saved lines read back through their ids total to the request's sum |
| OrdersRouter.PlacedTotalMatchesLines | routers/orders.js:115-135 | a placed order's totalPrice equals the total of its own lines read back from the line table |
| OrdersRouter.SaveHeader | routers/orders.js:115-140 | saves the header with the computed total when it passes validation (200), otherwise 500 and no header |
| OrdersRouter.PlaceOrder | routers/orders.js:96-148 | POST / does exactly what the placement specification describes, on the old tables |
| OrdersRouter.StatusOutcome | routers/orders.js:151-172 | a malformed id is 400 and an absent order 500; otherwise only the status changes, and an absent status changes nothing |
| OrdersRouter.UpdateStatus | routers/orders.js:151-179 | replaces the matching order with its status updated, and nothing else |
| OrdersRouter.DeleteOrder | routers/orders.js:182-207 | 400 for a malformed id, 500 for an absent order, otherwise removes exactly that header |
| OrdersRouter.MinimumExists | routers/orders.js:212-214 | a set of ids holding some id has a least element |
| OrdersRouter.MinKey | routers/orders.js:212-214 | the least id of a non-empty set |
| OrdersRouter.SalesSumTakeOut | routers/orders.js:212-214 | the sum of totalPrice does not depend on the order of summation: any order can be taken out first |
| OrdersRouter.SalesSumInsert | routers/orders.js:135 | placing an order adds its total to the total sales |
| OrdersRouter.SalesSumRemove | routers/orders.js:190 | deleting an order takes its total off the total sales |
| OrdersRouter.SalesSumIgnoresStatus | routers/orders.js:159-165 | a status update leaves the total sales unchanged |
| OrdersRouter.TotalSales | routers/orders.js:210-228 | behind the seller gate, the sum of totalPrice over all orders; with no orders, 500 |
| OrdersRouter.OrderCount | routers/orders.js:231-247 | behind the seller gate, the number of orders; a count of 0 is reported as 500 |
| OrdersRouter.UserOrdersAsWritten | routers/orders.js:250-283 | as written no request succeeds: behind the seller gate, 400 for a malformed id, 404 when the user has no order, and 500 with the populate rejection when the user has any order |
| OrdersRouter.UserOrdersCounterexample | routers/orders.js:260 | one order of user 5, asked for by an admin: the code as written answers 500, while the intended code answers with that order |
| OrdersRouter.UserOrders | routers/orders.js:250-271 | as intended: behind the seller gate, exactly the orders of the given user; 400 for a malformed id, 404 when there are none |
| CategoriesRouter.IdTextReadsBack | routers/categories.js:53 | helper for the corrected default parent: the decimal text that names it reads back as the requested id, so distinct ids give distinct names |
| CategoriesRouter.DefaultParent | routers/categories.js:52-56 | the default parent has icon 'default_icon', color 'default-color,' and no parent |
| CategoriesRouter.SaveChild | routers/categories.js:67-85 | 201 exactly when the schema accepts the child, which is then stored under the next id; otherwise 500 with nothing stored |
| CategoriesRouter.CreateAsWritten | routers/categories.js:45-87 | no parent, or an existing one: the child is stored under it; a parent id naming no category: 500 before any write; any failure writes nothing |
| CategoriesRouter.CreateCorrected | routers/categories.js:51-65 | a parent id naming no category creates the default parent: 400 with nothing written when it cannot be saved, otherwise the child is saved under it |
| CategoriesRouter.AsWrittenAddsConsistently | routers/categories.js:45-87 | a created category changes no stored category, is stored last, and its parent already existed |
| CategoriesRouter.CorrectedAddsConsistently | routers/categories.js:45-87 | as intended, a created category's parent exists too, whether it was found or created on the way |
| CategoriesRouter.OneCategoryWhenParentKnown | routers/categories.js:46-49 | without a parent, or with an existing one, exactly one category is added, under that parent |
| CategoriesRouter.MissingParentCounterexample | routers/categories.js:53 | for parent 7 in an empty table, the code as written answers 500 and saves nothing, while the intended code saves the parent and the child |
| CategoriesRouter.CorrectionOnlyTouchesMissingParent | routers/categories.js:45-87 | the correction changes only requests whose parent id names no category |
| CategoriesRouter.StoreChild | routers/categories.js:67-85 | stores the child exactly as SaveChild describes |
| CategoriesRouter.CreateCategory | routers/categories.js:45-87 | POST / as written, on the table |
| CategoriesRouter.CreateCategoryWithDefaultParent | routers/categories.js:45-87 | POST / as intended, on the table |
| CategoriesRouter.UpdateOutcome | routers/categories.js:90-106 | without an icon, 500 first; text that is not an id, the cast error 500; an absent id is 404; otherwise name and color are replaced when given, the icon always, and the parent is kept |
| CategoriesRouter.UpdateCategory | routers/categories.js:90-106 | replaces exactly the category the update names |
| CategoriesRouter.GetCategory | routers/categories.js:26-42 | the category itself; 404 for an absent id, 500 for text that is not an id |
| CategoriesRouter.DeleteCategory | routers/categories.js:109-125 | removes exactly the requested category; 404 when absent, 500 for text that is not an id |
| ProductsRouter.Extension | routers/products.js:10-14 | only image/png, image/jpeg and image/jpg are accepted, and the extension is the MIME subtype |
| ProductsRouter.StoredNameShape | routers/products.js:26-30 | the stored name is the original name with spaces replaced by '-', then '-', the decimal instant, '.' and the extension; it contains no space |
| ProductsRouter.UploadCheck | routers/products.js:16-25 | a file of any other type is refused with 500 'Invalid image type'; no file, or an accepted one, passes |
| ProductsRouter.PriceFilter | routers/products.js:54-60 | both bounds, min only, max only, or none, each exactly when those bounds are given |
| ProductsRouter.Given | routers/products.js:46-52 | a constraint is present exactly when the query gives the value |
| ProductsRouter.BuildFilter | routers/products.js:40-60 | a category list exactly when categories are given, brand and colour when given, and the price constraint |
| ProductsRouter.CategoryListSplitsQuery | routers/products.js:42-44 | the category list is the comma-separated pieces: none contains a comma, and joined with commas they give the query back |
| ProductsRouter.SortReadsParameter | routers/products.js:68-75 | `field:order` is descending exactly when order is "desc"; no ':' means ascending; an empty field is dateCreated; no parameter is dateCreated descending |
| ProductsRouter.ListingOf | routers/products.js:63-90 | page and limit are parsed with their defaults, skip is (page - 1) times limit, totalPages is the ceiling of count over limit, and the count is reported as is |
| ProductsRouter.ListingCoversCount | routers/products.js:63-90 | with a positive limit, a page from 1 on is within totalPages exactly when its first document exists |
| ProductsRouter.PrepareProduct | routers/products.js:102-131 | upload type first, then category (text that is not an id: 500; absent or unknown: 400), then file (400); the document has the category, the image URL base path plus stored name, the creation time and rating 0 |
| ProductsRouter.CategoryCheckedBeforeFile | routers/products.js:104-117 | without a file, 'No image provided' is reported exactly when the category is known, and a bad category is reported first |
| ProductsRouter.CreateAsWritten | routers/products.js:1 | as written every request fails, and one that passes every check gets 500 'Product is not a constructor' |
| ProductsRouter.ImportCounterexample | routers/products.js:1 | a valid request with a known category and a PNG file is refused by the code as written |
| ProductsRouter.CreateProduct | routers/products.js:102-150 | as intended: stores the prepared product under a fresh id when it is valid (201); 500 for an invalid one; a failed check stores nothing |

## Left out

- Persistence and the aggregation pipeline are left out. Tables are maps and queries are predicates and folds.
- `populate` joins are left out: a handler's reply holds ids where the code sends the joined documents. A populate of a path the schema lacks is modelled, because it changes the reply (see "## Findings").
- `mongoose.isValidObjectId` is abstract: an id parameter either is an ObjectId or is text that is not one.
- Password hashing (bcrypt) is left out. The hash is a function parameter whose only known property is bcrypt's fixed output length of 60 characters, and a password matches when its hash equals the stored one.
- The schema's 8-character minimum (models/users.js:14-18) is checked on the stored hash, not on the password, so no password is refused for its length; register accepts the password "a".
- JWT signing, verification and expiry are left out. A token is its claims plus its expiry instant, and a request's credential is absent, refused or verified.
- Email is left out except as output. The transport is an outbox of (recipient, subject, code); HTML bodies and delivery failures are not modelled.
- Random codes and the clock are parameters: the generated code, `Date.now()` and the upload instant.
- The rate limiter on resend-otp is configuration of a foreign library and is left out.
- Multer's disk writes and the protocol and host of the base URL are I/O. The base path is a parameter; the type map and the file-name rule are kept.
- Promise.all concurrency in order creation is left out; lines are handled in request order. With real concurrency every line's lookup starts before any rejection arrives and none is cancelled, so every line whose product resolves is saved, whatever its position; the model saves only those before the first unresolved line.
- The second read of each saved line (routers/orders.js:116) takes the live product price. The model reads the price once, which is what the second read gives when nothing intervenes.
- Prices and totals are JavaScript numbers (floating point). The model uses integers (the smallest currency unit), and form values are taken as already converted to numbers.
- parseInt: only the integer reading is modelled. Parameters that Express delivers as arrays (a repeated query key) are not modelled.
- String lengths are counted in characters, not UTF-16 code units.
- The filter's meaning (which products match) is not modelled, only its construction. The GET / list as written cannot run, because `Product.find` is not a function after the import on routers/products.js:1.
- The GET list routes (users, orders, categories), GET order by id, GET user by id and `/sellers` are left out. They are reads without rules beyond paging, which Paging covers.
- The orders router is not mounted in server.js. The model describes its handlers as written.
- `findByIdAndRemove` (routers/orders.js:190) exists in Mongoose 6 and 7, the versions assumed above, so the model takes it to delete.
- The `if(!order)` 400 branch of routers/orders.js:137 and the `!savedProduct` branch of routers/products.js:133 cannot be reached (a save resolves to the document or throws), so they are not modelled.
- Register admits any role the schema accepts, including admin. The model keeps this.
- UserOrders returns the set of matching order ids; the newest-first sort is not modelled.
- The populates of `parentCategory` (routers/categories.js:9, 28) assume the category schema has that path; models/category.js is not part of this model.
- CategoriesRouter.CreateCorrected names the default parent after the requested id, written as its decimal number rather than the 24-digit hex of an ObjectId.
- Error messages that interpolate a value, such as cast errors and "Product with ID ... not found", are abbreviated to fixed text.
- models/category.js is not part of this model. The category schema is unknown, so whether a category save is accepted is a parameter (`accepts`).

## Findings

| source | as written | input that shows it | evidently intended | confidence | as-written member | corrected member |
|---|---|---|---|---|---|---|
| routers/categories.js:53 | the default parent is named `parentCatergory`, an undefined identifier, so building it throws outside any try block and the request ends in 500 before anything is saved | POST / with a parentCategory id that names no category, e.g. parent 7 in an empty table | name the default parent after the requested `parentCategory`, save it, then save the child under it | not executed | CategoriesRouter.CreateAsWritten | CategoriesRouter.CreateCorrected |
| routers/products.js:1 | `Product` is bound to the module object rather than the model, so `new Product(...)` throws and every create that passes the checks ends in 500 | POST / with a known category, a PNG image and every required field | import `{ Product }` as the other routers do, and save the product | not executed | ProductsRouter.CreateAsWritten | ProductsRouter.CreateProduct |
| routers/orders.js:260 | the user-orders query populates the path `orderitems`, but the header schema's path is `orderItems` (models/orders.js:3); the query rejects whenever it finds an order, and the catch answers 500 | GET /get/userorders/5 by an admin, with one stored order of user 5 | populate `orderItems`, as routers/orders.js:42 and :74 do, and answer 200 with the user's orders | not executed | OrdersRouter.UserOrdersAsWritten | OrdersRouter.UserOrders |
