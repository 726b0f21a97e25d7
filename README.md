# Local Market API — a verified model of its core

Local Market API is an Express and MongoDB back end for a small marketplace. Sellers
list products, buyers keep a cart, and requests are authenticated with JSON Web Tokens.
This project models the parts of it that make decisions, in Dafny, and proves what
they promise:

- **The per-item cart store** (`controllers/newCartController.js`, `models/newCartSchema.js`).
  It is the class `NewCartController.CartStore`: a sequence of cart records, an id
  counter, and the product catalogue it reads.
  - Each handler is a method tied to a specification function on the old state:
    `Add`, `GetCart`, `Remove` and `Clear`.
  - Lemmas prove the store invariant and the answers. The invariant is that records
    are valid, ids are distinct and each (user, product) line occurs once.
  - They also prove the merge on a repeated add, the append on a new one, and that
    other users' records are never touched.
- **Products** (`models/ProductsSchema.js`, `controllers/productController.js`).
  - The schema's required paths and defaults.
  - `ProductController.ProductStore`, with `createProduct` and `deleteProduct`.
- **The global error handler** (`middleware/errorHandler.js`). `HandleError`
  overwrites its locals rule by rule. It is proved equal to the reference function
  `Classify`, in which the last matching rule wins. `AppError` (`utils/AppError.js`)
  gets its `status` from the first character of the decimal code.
- **Authentication and roles** (`middleware/AuthMiddleware.js`, `middleware/RoleMiddleware.js`).
  `jwt.verify` is a function parameter.
- **The keyword parser** (`services/aiService.js`). It splits the model's reply on
  commas, trims each piece and drops empty ones. It is proved to invert joining with
  commas, to be idempotent, and to distribute over a comma.
- **Request validation** (`validations/*.js`). The Joi rules it uses are in module
  `Rules`.
- **Uploads** (`middleware/upload.js`), with their answers through the error handler.
- **The startup check** (`config/validateEnv.js`).
- **The response shapes** (`resources/*.js`, `utils/apiResponse.js`).

The modelling conventions:

- Database ids are natural numbers. A request's id text is cast with
  `Text.CastObjectId`, which accepts exactly 24 hexadecimal digits. A failed cast is
  Mongoose's CastError, and each handler's `catch` answers it.
- Prices are integer cents.
- Times are the parameter `now`.
- An absent JSON key is `None`.

`controllers/cartController.js` and `models/CartSchema.js` (one cart document per user)
are not routed. The cart routes (`routes/cartRoutes.js:13-16`) use the per-item handlers
of `controllers/newCartController.js`, which keep one record per (user, product), and the
model follows them.

## Model

| member | source | states |
|---|---|---|
| AiService.Split | services/aiService.js:26 | `split(",")` yields one piece more than there are commas, and no piece holds a comma |
| AiService.SplitJoinBack | services/aiService.js:26 | joining the pieces of a split with the separator gives the text back |
| AiService.SplitJoin | services/aiService.js:26 | splitting separator-free pieces joined by the separator gives the pieces back |
| AiService.TrimAll | services/aiService.js:27 | each piece is replaced by its trimmed form, position for position |
| AiService.DropEmptyMembers | services/aiService.js:28 | `filter(Boolean)` keeps exactly the non-empty pieces: everything kept is a non-empty piece of the input, and every non-empty piece is kept |
| AiService.ParseReply | services/aiService.js:24-28 | every returned term is non-empty, comma-free and trimmed, and there are at most (commas + 1) of them |
| AiService.GenerateSearchKeywords | services/aiService.js:13-29 | the keywords are non-empty, comma-free, trimmed terms of the reply |
| AiService.ExpandSearchQuery | services/aiService.js:36-54 | the expanded terms are non-empty, comma-free, trimmed terms of the reply |
| AiService.SplitWithoutSeparator | services/aiService.js:26 | a text without the separator splits into itself alone |
| AiService.SplitConcat | services/aiService.js:26 | splitting `a + sep + b` gives the pieces of `a` followed by the pieces of `b` |
| AiService.ParseReplyEmpty | services/aiService.js:24-28 | an empty reply yields no terms |
| AiService.ParseReplyConcat | services/aiService.js:24-28 | parsing `a + "," + b` gives the terms of `a` followed by those of `b` |
| AiService.ParseReplyOfOneTerm | services/aiService.js:24-28 | a non-empty, comma-free, trimmed text parses to exactly itself |
| AiService.ParseJoinRoundTrip | services/aiService.js:24-28 | joining well-formed terms with commas and parsing gives the same terms back |
| AiService.ParseReplyIdempotent | services/aiService.js:24-28 | parsing the comma-joined output again changes nothing |
| AiService.SamePipeline | services/aiService.js:24-28 | both exported functions treat a reply text identically |
| AiService.TrailingCommaIgnored | services/aiService.js:24-28 | a trailing comma adds no term |
| Text.Trim | services/aiService.js:27 | the result of `trim()` has no ECMAScript white space at either end and is no longer than the text |
| Text.LeadingBlanks | services/aiService.js:27 | the count of leading white space: every character before it is white space, and the one at it is not |
| Text.TrimAfterBlanks | services/aiService.js:27 | `trim()` equals cutting the trailing white space after skipping the leading white space |
| Text.TrimStripsBothEnds | services/aiService.js:27 | `trim()` removes exactly the white space at both ends: the result is the infix that starts after the leading white space, and all that follows it is white space |
| Text.TrimOmits | services/aiService.js:26-27 | trimming adds no character, so a comma-free piece stays comma-free |
| Text.Utf16Length | validations/productValidation.js:4-7 | JavaScript's `length`, the one Joi's `min` and `max` use, counts two units for a code point beyond U+FFFF: it lies between the number of code points and twice that, and equals it exactly when no such code point occurs |
| Text.TrimTrimmed | services/aiService.js:27 | trimming an already trimmed text leaves it unchanged |
| Text.TrimEmptyIffBlank | services/aiService.js:27-28 | a piece trims to "" (and is then dropped) exactly when it is all white space |
| AppErrors.NewAppError | utils/AppError.js:10-15 | the error keeps its message and code, is operational, and its status is "fail" exactly when the decimal code starts with 4 |
| AppErrors.NatTextHead | utils/AppError.js:13 | the first character of `${code}` is the code's leading digit |
| AppErrors.FirstDigitBounds | utils/AppError.js:13 | a code with leading digit d and k digits lies in [d·10^(k-1), (d+1)·10^(k-1)) |
| AppErrors.FailIffFourLeading | utils/AppError.js:13 | "fail" exactly for codes in [4·10^(k-1), 5·10^(k-1)) for their digit count k |
| AppErrors.ClientErrorsFail | utils/AppError.js:13 | every code 400..499 gives "fail" |
| AppErrors.ServerErrorsAreErrors | utils/AppError.js:13 | every code 500..599 gives "error" |
| AppErrors.NegativeCodesAreErrors | utils/AppError.js:13 | a negative code (text starting with '-') gives "error" |
| ErrorHandler.HandleError | middleware/errorHandler.js:15-77 | the handler's rule-by-rule reassignment answers exactly what "the last matching rule wins" prescribes, or throws when `err.errors`/`err.keyValue` is missing |
| ErrorHandler.BodyShape | middleware/errorHandler.js:70-76 | the body always has `success: false`, and holds the stack exactly when NODE_ENV is "development" |
| ErrorHandler.NoRuleKeepsDefaults | middleware/errorHandler.js:17-19 | with no rule matching, the error's own code, message and status are used, each defaulting (500, "Internal server error", "error") when falsy |
| ErrorHandler.ValidationErrorAnswer | middleware/errorHandler.js:22-27 | ValidationError: 400, "fail", the sub-messages joined by ". " in order |
| ErrorHandler.CastErrorAnswer | middleware/errorHandler.js:30-34 | CastError: 400, "fail", "Invalid <path>: <value>" |
| ErrorHandler.DuplicateKeyAnswer | middleware/errorHandler.js:37-42 | code 11000: 409, "fail", "Duplicate value for: " and the keys joined by ", " |
| ErrorHandler.TokenErrorAnswers | middleware/errorHandler.js:45-54 | JsonWebTokenError and TokenExpiredError: 401, "fail", each with its fixed message |
| ErrorHandler.MulterErrorAnswer | middleware/errorHandler.js:57-63 | MulterError: 400, "fail"; the message is replaced only for LIMIT_FILE_SIZE |
| ErrorHandler.LaterRuleOverrides | middleware/errorHandler.js:22-63 | a later rule overrides an earlier one: a duplicate-key TokenExpiredError answers 401 |
| ErrorHandler.FromAppError | middleware/errorHandler.js:22-63 | a thrown AppError matches none of the special rules and does not make the handler throw |
| ErrorHandler.AppErrorAnswer | middleware/errorHandler.js:17-19 | an AppError reaches the client with its own code, message and computed status |
| ErrorHandler.NotFoundAppError | utils/AppError.js:13 | `new AppError("Not found", 404)` answers 404 with status "fail" |
| ProductSchema.ParseStatus | models/ProductsSchema.js:21-30 | exactly the four enum names are accepted |
| ProductSchema.StatusRoundTrip | models/ProductsSchema.js:21-30 | status names and parsing are inverse |
| ProductSchema.MissingRequiredExact | models/ProductsSchema.js:5-17 | a required path is reported missing exactly when it is absent (or an empty text) |
| ProductSchema.Create | models/ProductsSchema.js:3-35 | creation succeeds exactly when nothing required is missing; a created product carries the given fields and every default (pending statuses, empty image, tags and keywords) |
| CartSchema.Create | models/newCartSchema.js:3-23 | creation succeeds exactly when the required paths are present and the quantity (default 1) is at least 1; the record carries the given fields and timestamps |
| CartSchema.QuantityBelowOneRejected | models/newCartSchema.js:22 | a quantity below 1 is a validation error on "quantity" |
| ProductController.ProductStore.CreateProduct | controllers/productController.js:3-24 | as written: a body failing the name/price/description gate gets 400, and every other body gets 401, with the catalogue unchanged |
| ProductController.ProductStore.CreateProductCorrected | controllers/productController.js:3-24 | with the category passed on, a complete request from a known seller inserts one skeleton product owned by the caller and answers 201 |
| ProductController.ProductStore.DeleteProduct | controllers/productController.js:26-40 | a malformed id gives 400 "Error deleting Product", an unknown one 400 "Product does not exist"; otherwise exactly that product is removed and returned |
| NewCartResource.ProjectEntry | resources/newCartResource.js:1-23 | the view copies id, name, description, price, category, quantity and timestamps; productId is the populated product's id, and a missing product throws |
| NewCartResource.CartCollection | resources/newCartResource.js:25-27 | one view per entry, in order, and a result exactly when every entry's product exists |
| NewCartController.CallerId | controllers/newCartController.js:11 | there is a caller exactly when the `_id` claim is an ObjectId text, and the caller is then that claim cast to an ObjectId |
| NewCartController.SignedTokenHasNoCallerId | controllers/authController.js:17 | every token the application signs lacks `_id`, so the cart handlers see no caller |
| NewCartController.CallerIdCorrected | controllers/authController.js:17 | reading the `id` claim instead yields a caller exactly when it is an ObjectId text |
| NewCartController.SignedTokenCarriesCallerId | controllers/authController.js:17 | with the corrected read, a signed token's user id reaches the handlers |
| NewCartController.FindFirst | controllers/newCartController.js:36 | `findOne` returns the first matching record, or nothing exactly when no record matches |
| NewCartController.OfUserMembers | controllers/newCartController.js:92 | `find({ userId })` returns exactly the user's records |
| NewCartController.WithoutUserMembers | controllers/newCartController.js:155 | `deleteMany({ userId })` leaves exactly the other users' records |
| NewCartController.RemoveAt | controllers/newCartController.js:121 | deletion leaves every other record, in order |
| NewCartController.RemoveAtMembers | controllers/newCartController.js:121 | with distinct ids, deleting a record removes exactly the record with its id |
| NewCartController.Populate | controllers/newCartController.js:92 | each record is paired with its product, or with null when the product is gone |
| NewCartController.CartStore.AddToCartNew | controllers/newCartController.js:6-77 | the reply and new store are those of `Add` on the old store, and the store invariant is kept |
| NewCartController.CartStore.GetUserCart | controllers/newCartController.js:83-108 | the reply is that of `GetCart`, and nothing changes |
| NewCartController.CartStore.RemoveCartItem | controllers/newCartController.js:110-143 | the reply and new store are those of `Remove`, and the invariant is kept |
| NewCartController.CartStore.ClearUserCart | controllers/newCartController.js:146-170 | the reply and new store are those of `Clear`, and the invariant is kept |
| NewCartController.OfUserAppend | controllers/newCartController.js:92 | listing a user's records keeps store order |
| NewCartController.WithoutUserAppend | controllers/newCartController.js:155 | clearing keeps the order of the remaining records |
| NewCartController.AddKeepsWellFormed | controllers/newCartController.js:36-60 | add keeps every record valid, ids distinct and each (user, product) line unique |
| NewCartController.RemoveKeepsWellFormed | controllers/newCartController.js:121 | removal keeps the invariant |
| NewCartController.WithoutUserKeepsWellFormed | controllers/newCartController.js:155 | clearing keeps the invariant |
| NewCartController.AddRefusals | controllers/newCartController.js:11-33 | no caller gives 401, a missing or empty productId 400, an unknown product 404, and every failure leaves the store unchanged |
| NewCartController.AddMerges | controllers/newCartController.js:36-47 | an existing line gains the requested quantity (default 1) and every other field of it stays as it was, except `updatedAt`, which becomes `now` when the quantity changes; no record is created, every other record is kept, and the answer is 200 with the line |
| NewCartController.AddAppends | controllers/newCartController.js:51-65 | a new line appends exactly one record carrying the product's name, description, price, category and image and the requested quantity, and the answer is 201 |
| NewCartController.AddRejectsQuantityBelowOne | controllers/newCartController.js:36-75 | a quantity that would leave the line or the new record below 1 answers 500 and changes nothing |
| NewCartController.AddOneThenThree | controllers/newCartController.js:8-65 | adding 1 and then 3 of a product leaves one line of quantity 4 (201, then 200) |
| NewCartController.AddLeavesOthersAlone | controllers/newCartController.js:36-60 | add changes no other user's records |
| NewCartController.GetCartListsCallersRecords | controllers/newCartController.js:92-107 | the listing answers 200 exactly when all the caller's products still exist, with one view per record of the caller, in store order; otherwise 500 |
| NewCartController.RemoveDeletesOnlyTarget | controllers/newCartController.js:121-133 | 200 exactly when the caller owns a record with that id, which alone is deleted; otherwise 404 and no change |
| NewCartController.RemoveLeavesOthersAlone | controllers/newCartController.js:121 | removal changes no other user's records |
| NewCartController.ClearRemovesAllAndOnlyCallers | controllers/newCartController.js:155-160 | clearing removes all of the caller's records and keeps the others' in order |
| NewCartController.ClearIdempotent | controllers/newCartController.js:155 | clearing twice is clearing once |
| NewCartController.ClearThenListIsEmpty | controllers/newCartController.js:92-98 | after a clear, the caller's listing is an empty 200 |
| AuthMiddleware.SignedClaims | controllers/authController.js:17 | the signed payload carries `id` and `role` and no `_id` |
| AuthMiddleware.HeaderOf | middleware/AuthMiddleware.js:5 | the lower-case header is used unless it is absent or empty |
| AuthMiddleware.TokenIsAlwaysE | middleware/AuthMiddleware.js:7-8 | for every header starting "Bearer", the extracted token is "e" |
| AuthMiddleware.EveryBearerRequestRefused | middleware/AuthMiddleware.js:7-21 | when "e" does not verify (a one-segment text is no signed token), every request with a Bearer header gets exactly one reply, 400 "error verifying token", no user and no `next` |
| AuthMiddleware.VerifyToken | middleware/AuthMiddleware.js:3-25 | a non-Bearer header gets 400 "Authorization missing"; a Bearer header is judged by verifying "e", passing on with the decoded user or answering 400 "error verifying token" |
| AuthMiddleware.EmptyTokenBranchUnreachable | middleware/AuthMiddleware.js:10-12 | "Access denied, Login or register" is never written |
| AuthMiddleware.NextAtMostOnce | middleware/AuthMiddleware.js:14-21 | `next` runs at most once, exactly when a user is set and nothing was written |
| AuthMiddleware.TokenCorrectedExtracts | middleware/AuthMiddleware.js:8 | `split(" ")[1]` of "Bearer <token>" is the token |
| AuthMiddleware.VerifyTokenCorrected | middleware/AuthMiddleware.js:3-25 | corrected: at most one reply, and `next` exactly when a user is set |
| AuthMiddleware.CorrectedVerifiesTheToken | middleware/AuthMiddleware.js:8-18 | corrected: the user is what verifying the presented token gives |
| RoleMiddleware.OnlyAllow | middleware/RoleMiddleware.js:1-13 | `next` exactly when the user's role is one of the allowed; a user without one gets 400 "You are not authorized"; no user gets 400 "Please, Login" and then a throw |
| RoleMiddleware.SellerOnlyRefusesOthers | middleware/RoleMiddleware.js:7-10 | a seller-only route refuses any other role and admits "Seller" |
| Rules.RequiredMessage | validations/authValidation.js:5 | the custom `any.required` message, or Joi's `"<field>" is required` |
| Rules.TextRule | validations/productValidation.js:4-7 | a text passes exactly when its (trimmed) form is non-empty and its UTF-16 length is within the bounds, and then the trimmed form is kept |
| Rules.HexIdRule | validations/productValidation.js:26 | passes exactly for 24 hexadecimal digits |
| Rules.OneOfRule | validations/authValidation.js:10 | passes exactly for one of the listed values |
| Rules.EmailRule | validations/authValidation.js:6 | passes exactly for a non-empty text the email predicate accepts |
| Rules.NumberRule | validations/productValidation.js:22 | passes exactly within the sign and bounds; a missing value takes the default |
| Rules.TextRuleStable | validations/productValidation.js:4 | a sanitised text passes again unchanged |
| ProductValidation.NameRule | validations/productValidation.js:4 | a name passes exactly when present with a trimmed UTF-16 length of 1..200, and is then trimmed |
| ProductValidation.DescriptionRule | validations/productValidation.js:5 | a description passes exactly when present with a trimmed UTF-16 length of 1..2000, and is then trimmed |
| ProductValidation.PriceRule | validations/productValidation.js:6 | a price passes exactly when present and positive |
| ProductValidation.CategoryRule | validations/productValidation.js:7 | a category passes exactly when present with a trimmed UTF-16 length of 1..100, and is then trimmed |
| ProductValidation.TagsRule | validations/productValidation.js:8 | tags never fail, "" included |
| ProductValidation.CreateProduct | validations/productValidation.js:3-9 | accepted exactly when name (1..200), description (1..2000) and category (1..100), all trimmed, are present and the price is positive; the value is trimmed |
| ProductValidation.UpdateProduct | validations/productValidation.js:11-17 | accepted exactly when every present field meets its bound and at least one key is present |
| ProductValidation.EmptyUpdateRejected | validations/productValidation.js:17 | an empty update fails with the single "at least one key" issue |
| ProductValidation.EmptyTagsCountAsAKey | validations/productValidation.js:16-17 | an update holding only `tags: ""` passes |
| ProductValidation.CreateProductStable | validations/productValidation.js:3-9 | a sanitised create body validates to itself |
| ProductValidation.CreateBodyIsValidUpdate | validations/productValidation.js:3-17 | every valid create body is a valid update with the same values |
| ProductValidation.Search | validations/productValidation.js:19-23 | accepted exactly for a non-blank query and a limit in 1..100; the limit defaults to 10; a missing query has its custom message |
| ProductValidation.IdParam | validations/productValidation.js:25-28 | accepted exactly for 24 hexadecimal digits (which then cast); a missing id has its custom message |
| AuthValidation.Register | validations/authValidation.js:3-12 | accepted exactly for a trimmed name of 2..50 UTF-16 units, a valid email, a password of 6..128 units and the role "Seller" or "Buyer" |
| AuthValidation.RegisterRejectsOtherRoles | validations/authValidation.js:10 | any other role, "Admin" or "seller" included, is refused |
| AuthValidation.RegisterMissingMessages | validations/authValidation.js:4-11 | an empty body reports the four custom messages in schema order |
| AuthValidation.Login | validations/authValidation.js:14-19 | accepted exactly for a non-blank name and a non-empty password; missing ones get their custom messages |
| AuthValidation.RegisteredCanLogIn | validations/authValidation.js:3-19 | the name and password of an accepted registration pass login |
| CartValidation.AddToCart | validations/cartValidation.js:3-7 | accepted exactly for a 24-hex productId and a quantity (default 1) of at least 1 |
| CartValidation.UpdateCartItem | validations/cartValidation.js:9-12 | accepted exactly for a present quantity of at least 1; a missing one has the custom message |
| CartValidation.CartItemIdParam | validations/cartValidation.js:14-16 | accepted exactly for 24 hexadecimal digits, and then the id is kept as given; a missing one has Joi's own message |
| CartResources.ImageUrlOrNull | resources/cartResources.js:13 | the url when it is a non-empty text, otherwise null |
| CartResources.ItemResource | resources/cartResources.js:4-15 | id, quantity and the product's fields are copied; imageUrl follows the rule above |
| CartResources.RoundToCents | resources/cartResources.js:22 | the total is within half a cent, ties going away from zero |
| CartResources.RoundToCentsExact | resources/cartResources.js:22 | a whole number of cents is kept exactly |
| CartResources.RoundToCentsSymmetric | resources/cartResources.js:22 | rounding is symmetric in sign |
| CartResources.CartResource | resources/cartResources.js:20-24 | items are mapped one to one in order; the total is rounded and the count passed through |
| CartItemResource.ImageUrlIfImage | resources/cartItemResource.js:11-12 | null exactly when the image is absent; otherwise its url, even "", and no key when the url is absent |
| CartItemResource.ItemResource | resources/cartItemResource.js:1-16 | id, quantity and the product's fields are copied; imageUrl follows the rule above |
| CartItemResource.ProjectionsDiffer | resources/cartItemResource.js:11-12 | the two item projections agree except on imageUrl, and differ exactly for an image whose url is "" or absent |
| ProductResource.Summary | resources/productResource.js:6-11 | keeps id, name, price, category, description and image |
| ProductResource.ProductResource | resources/productResource.js:1-28 | always `success: true`; a list is summarised one to one in order, with `total` its length; a single product has no total |
| ProductResource.OneAndListAgree | resources/productResource.js:1-28 | the list form of one product carries the single form's summary |
| ProductResource.ListPreservesOrder | resources/productResource.js:5-13 | listing distributes over concatenation |
| Upload.FileFilter | middleware/upload.js:5-9 | exactly image/jpeg, image/png and image/webp pass; others get the fixed message |
| Upload.Accepting | middleware/upload.js:11-15 | parts are taken in order until the first error; success holds exactly when each part is acceptable and at most one is "file" |
| Upload.UploadSingleImage | middleware/upload.js:11-15 | the upload succeeds exactly when there is at most one part and it is an acceptable image, which is then the stored file |
| Upload.OneImageStored | middleware/upload.js:11-15 | one acceptable image under "file" is stored |
| Upload.OversizeAnswer | middleware/upload.js:14 | an allowed image over 5 242 880 bytes answers 400, "fail", "File too large. Maximum size is 5MB." |
| Upload.WrongTypeAnswer | middleware/upload.js:8 | a file of another type answers 500, status "error", with the filter's message |
| Upload.UnexpectedFieldAnswer | middleware/upload.js:15 | a file under another field name answers 400, "fail", "Unexpected field" |
| ValidateEnv.MissingFrom | config/validateEnv.js:13 | the names unset or empty, as a subsequence of the list |
| ValidateEnv.Missing | config/validateEnv.js:2-13 | exactly the required names unset or empty, in declaration order |
| ValidateEnv.MissingFromAppend | config/validateEnv.js:13 | the missing names keep the list's order |
| ValidateEnv.ReportLines | config/validateEnv.js:15-19 | the header, one `   - name` line per missing name in order, and the footer |
| ValidateEnv.ValidateEnv | config/validateEnv.js:12-21 | returns normally exactly when all seven are set; otherwise it writes a header, one line per missing name and a footer, and exits with 1 |
| ApiResponse.SuccessResponse | utils/apiResponse.js:7-11 | `success: true`; data kept iff given; message and status default to "Success" and 200 |
| ApiResponse.ErrorResponse | utils/apiResponse.js:13-17 | `success: false`; errors kept iff given; message and status default to "Something went wrong" and 500 |
| ApiResponse.Defaults | utils/apiResponse.js:7-13 | the two default payloads |
| ApiResponse.SuccessAndErrorDiffer | utils/apiResponse.js:7-16 | a success payload never equals an error payload |

## Left out

- `jwt.verify` and its secret are the function parameter `verify`. The signature and expiry checks are not modelled.
- The call to the Gemini model and its prompts are not modelled. The model's reply text is a parameter.
- MongoDB persistence, asynchrony and concurrency are not modelled. Stores are in memory and handlers run one at a time. Two concurrent adds of the same product could create two lines, which the sequential model cannot show.
- Time is the parameter `now`.
- Console output is not modelled. `process.exit` is a returned outcome.
- Floating point is not modelled. Prices are integer cents. `RoundToCents` works on exact reals, not on doubles. `toFixed`'s exponential form for totals of 10^21 and above is not modelled.
- JavaScript's dynamic typing is not modelled. Examples are `quantity += quantity` concatenating strings, and values of the wrong type in request bodies (Joi's `string.base`, `number.base` and `number.integer`). Quantities and numeric fields are integers.
- Rules.TextRule: reports only the first failing rule of a field. Joi with `abortEarly: false` may report several rules for one field. It also gives Joi's message text only for `any.required`.
- Rules.NumberRule: reports only the first failing rule of a field, as for `TextRule`.
- Rules.HexIdRule: reports only the first failing rule of a field, as for `TextRule`. Joi reports both `string.hex` and `string.length` for a text such as "xyz".
- Rules.OneOfRule: for the value "" reports only `NotAllowed` (`any.only`). Joi with `abortEarly: false` then also reports `string.empty`, so the 400 body for `role: ""` (validations/authValidation.js:10) carries two messages where the model has one. Acceptance and rejection are the same.
- NewCartController.CallerId: treats a non-empty `_id` claim that is not an ObjectId as no caller, so every handler answers 401. The source passes the truthy check at line 11. `addToCartNew` still answers 400 or 404 from lines 19-33, and fails with 500 only at the `findOne` of line 36. `getUserCart`, `removeCartItem` and `clearUserCart` fail with 500 in their first query (lines 92, 121 and 155).
- RoleMiddleware.OnlyAllow: stops at the throw after "Please, Login". What Express then does with an error raised after a response was written is not modelled.
- Upload.UploadSingleImage: ignores non-file fields, parts without a file name and Multer's other limits. It does not model the file's bytes in memory storage.
- The status transitions of a product's image and keyword processing are not modelled. No core file changes them, so only their defaults are.
- `controllers/authController.js` is not part of this model, apart from the payload it signs (line 17). It relies on bcrypt, jwt and a user schema.
- `middleware/validate.js`, `utils/asyncHandler.js`, `services/cloudinaryService.js`, `app.js`, `server.js` and `routes/*.js` are not part of this model. They are plumbing and wiring. The cart routes apply no validation middleware, so `CartValidation` is modelled on its own.
- `controllers/cartController.js` and `models/CartSchema.js` are not part of this model. They are unfinished and not routed.

## Findings

| source | as written | input that shows it | evidently intended | confidence | as-written member | corrected member |
|---|---|---|---|---|---|---|
| middleware/AuthMiddleware.js:8 | `authheaders.split("")[1]` splits into characters and takes the second | any header "Bearer <token>": the token checked is "e", which is no signed token, so every request fails verification with 400 "error verifying token" (AuthMiddleware.EveryBearerRequestRefused) | `split(" ")[1]`, the credential after "Bearer " (section 2.1 of RFC 6750) | high; not executed | AuthMiddleware.TokenIsAlwaysE | AuthMiddleware.CorrectedVerifiesTheToken |
| controllers/newCartController.js:11 | the cart handlers (and `createProduct` at controllers/productController.js:17) read `req.user._id` | a token signed as `{ id, role }` (controllers/authController.js:17): every cart request answers 401 "User authentication required" | read `req.user.id`, the claim the token carries | high; not executed | NewCartController.SignedTokenHasNoCallerId | NewCartController.SignedTokenCarriesCallerId |
| controllers/productController.js:13-18 | the document passed to `create` has no `category`, which models/ProductsSchema.js:8 requires | any body that passes the name/price/description gate: validation fails and the answer is 401 "Error creating product" | pass `category` from the body | high; not executed | ProductController.ProductStore.CreateProduct | ProductController.ProductStore.CreateProductCorrected |
