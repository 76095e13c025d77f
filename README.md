# B2B inventory exchange: a verified model of the backend core

The backend is a marketplace for manufacturing goods. Sellers register with a GST number and a phone number, log in with JWT access and refresh tokens, and list products. Each product can carry a batch of uploaded images. Each image is stored as an original plus medium and thumbnail renditions, and a product has at most one primary image. Buyers search the active listings with optional filters, sorting and paging. A buyer and the seller of a product talk in one conversation per (product, buyer, seller).

This Dafny project models that core and proves what it promises. The modules follow the program's own files:

| module | file | models |
|---|---|---|
| `Common` | common.dfy | options, results, partial-update fields, ASCII case folding, `str.split`, "first matching row" |
| `Config` | config.dfy | the settings, their defaults, and the `allowed_image_types` property |
| `Validators` | validators.dfy | `validate_gst_number`, `verify_gst_number`, `validate_phone_number` |
| `Security` | security.dfy | token claims: creation, lifetimes, verification by type |
| `UserSchema` | user_schema.dfy | the user row, the registration and profile-update requests, their field constraints |
| `AuthService` | auth_service.dfy | the user table with its unique keys, the lookups, authentication, `verify_user_gst` |
| `AuthApi` | auth_api.dfy | `register`, `login`, `refresh_token` |
| `ProductSchema` | product_schema.dfy | product and image rows, the create and update requests, the enumerations, the list item |
| `ProductSearch` | product_search.dfy | `search_products`: the WHERE clause, ORDER BY, OFFSET/LIMIT |
| `ProductService` | product_service.dfy | the product and image tables (`class Catalog`) and the service operations on them |
| `ImageProcessing` | image_processing.dfy | file naming, the directory layout, and `process_product_image` over a file system (`class FileSystem`) |
| `ProductsApi` | products_api.dfy | the list endpoints with their primary-image choice, `get_product`, `get_my_products`, and the batch upload loop |
| `ConversationService` | conversation_service.dfy | conversations and messages (`class Inbox`): find-or-create, reading, sending, marking read |

State that the source changes in place is held in classes:
- `Catalog` holds the products and images tables;
- `UserTable` holds the users table;
- `Inbox` holds the conversations and messages tables;
- `FileSystem` holds the directories and files on disk.

Each of these classes keeps a class invariant, `Valid()`:
- at most one primary image per product;
- unique user keys;
- one conversation per (product, buyer, seller), and every message belongs to a stored conversation.

Every method that changes state states its whole new state in terms of the old one, through the specification functions that the lemmas are about. The exception is the upload loop (`ProductsApi.StoreUpload`, `StoreNext`, `StoreBatch`, `UploadProductImages`): its image table and response are exact, but for the files and directories on disk it states only that they grow.

Modelling conventions:
- **Rows and ids.** Rows are values. A table is a sequence in insertion order, and a query's `.first()` is the first matching row. Ids, the uuids of new file names and the current time are parameters; a file-name uuid is the 36-character text of `uuid4()` (`ImageProcessing.UuidText`).
- **Prices.** Prices are integers in minor units.
- **Tokens.** A token is represented by its claims. On the way in, the model receives what decoding produced: `None` for a bad signature, malformed text or an expired token.
- **Password hashing.** The hash is a parameter of user creation, and the password check is a function parameter of authentication.
- **Image bytes.** Whether an upload's bytes decode as an image is a field of the upload. The extensions for which the image library has a writer are a parameter (`savable`): `save` picks the output format from the extension of the stored name, so an upload is rendered only when its stored name can be opened, its bytes decode and that extension is writable (`ImageProcessing.Renderable`).
- **Settings.** Settings are a value; reading them from the environment or a `.env` file is not modelled.

Behaviours of the code that are easy to misread, which the model follows:
- **Primary flag in a batch.** The primary flag goes to the file at position 0 of the whole batch (`is_primary and i == 0`), not to the first accepted file. If the first file has a refused content type, no image of the batch is primary (`ProductsApi.BatchPrimaryRule`).
- **Unrenderable upload.** An upload that cannot be decoded, or whose stored name has an extension without a writer (an upload named `blob` or `photo.`), leaves its original file on disk: it is written before decoding and saving are tried (`ImageProcessing.FileSystem.ProcessProductImage`). An upload whose stored name cannot be opened leaves no file at all: a `/` after the last `.` (an upload named `photo./png` is stored as `<uuid>./png`, inside a directory that does not exist), a NUL character, or a name over 255 characters makes `open` fail after the three directories are created and before anything is written (`ImageProcessing.SlashExtensionNotStorable`). Either error ends the whole request, and the images stored before it remain (`ProductsApi.StoreBatch`).
- **Deleting a product with conversations.** The product's conversations relationship does not cascade and `conversations.product_id` cannot be null, so deleting a product that a conversation names fails at the commit and deletes nothing (`ProductService.Catalog.DeleteProduct`).
- **Zero price bound.** `search_products` applies a filter only when its argument is truthy. A price bound of 0 therefore imposes nothing, and any non-zero bound excludes products without a price (`ProductSearch.SearchSound`, `ProductSearch.UnfilteredSearchMatchesActive`).
- **End-of-text anchors.** The validators match with Python's `re.match` ending in `$`, which also accepts one trailing newline. The schema patterns are anchored at the true end of the text. The two GST checks therefore agree except on a trailing newline (`UserSchema.SchemaGstAgrees`, `UserSchema.SchemaGstStricter`).

## Model

| member | source | states |
|---|---|---|
| Config.StripStart | app/config.py:20 | `lstrip` keeps a suffix of the text that does not start with whitespace, and everything it removed is whitespace (Python's `isspace` set) |
| Config.StripEnd | app/config.py:20 | `rstrip` keeps a prefix of the text that does not end with whitespace, and everything it removed is whitespace |
| Config.StripShape | app/config.py:20 | `strip` keeps the part of the text between leading and trailing whitespace; that part neither starts nor ends with whitespace |
| Config.AllowedImageTypesShape | app/config.py:18-20 | the allowed-types list has one entry per comma-separated item (number of commas plus one); each entry is that item stripped and contains no comma; empty items stay as empty entries |
| Config.DefaultSettingsValues | app/config.py:8-12 | the defaults: access tokens 15 minutes, refresh tokens 7 days, `./uploads`, 10 MiB, and the list jpg, jpeg, png, webp |
| Security.CreateAccessToken | app/utils/security.py:14-22 | an access token carries the subject and type `access`; it expires after the given delta when that is present and non-zero, otherwise after the configured minutes |
| Security.CreateRefreshToken | app/utils/security.py:24-29 | a refresh token carries the subject and type `refresh` and expires after the configured number of days |
| Security.VerifyToken | app/utils/security.py:31-41 | a subject is returned exactly when the token decoded, has the expected type and has a subject, and then it is that subject |
| Security.TokenTypesSeparate | app/utils/security.py:14-41 | each token verifies for its own type with its own subject and never for the other type |
| Security.DefaultLifetimes | app/config.py:8-9 | with the defaults, access tokens live 900 s and refresh tokens 604800 s |
| Validators.GstAccepted | app/utils/validators.py:5-8 | a GST number is accepted exactly when it has 15 characters following the pattern, or 16 of which the last is a newline |
| Validators.GstRejectsLowercase | app/utils/validators.py:5-8 | a lower-case letter anywhere rejects the number |
| Validators.GstRejectsZeroAt13 | app/utils/validators.py:5-8 | a `0` as the thirteenth character rejects the number |
| Validators.GstFixedZ | app/utils/validators.py:5-8 | every accepted number has `Z` as its fourteenth character |
| Validators.SampleGstNumbersValid | create_sample_data.py:64-86 | the GST numbers of the sample accounts are accepted |
| Validators.VerifyGstNumber | app/utils/validators.py:10-20 | the mock verification is valid exactly when the format check accepts; then it reports "Mock Company Name" and "Active", otherwise "Invalid GST format" |
| Validators.PhoneAccepted | app/utils/validators.py:22-25 | an accepted phone (without a final newline) has 10, 12 or 13 characters: a mobile number starting 6-9, with `91` or `+91` before it in the longer forms |
| Validators.SamplePhoneValid | create_sample_data.py:60 | the sample accounts' phone number is accepted |
| UserSchema.SchemaPhoneDigits | app/schemas/user.py:9 | the schema phone pattern holds exactly when the text after an optional `+` is all digits, 9 to 15 of them, or 16 starting with `1` |
| UserSchema.IndianPhoneIsSchemaPhone | app/schemas/user.py:9 | every phone number `validate_phone_number` accepts (without a final newline) also meets the schema pattern |
| UserSchema.SchemaGstAgrees | app/schemas/user.py:12 | on a text without a final newline, the schema GST pattern and `validate_gst_number` agree in both directions |
| UserSchema.SchemaGstStricter | app/schemas/user.py:12 | a well-formed number followed by a newline passes `validate_gst_number` but not the schema |
| UserSchema.DemoRegistrationNeedsLongerPassword | app/schemas/user.py:20-21 | the demo seller's details pass the registration schema, so acceptance depends on the password reaching 8 characters; "demo123" is refused |
| UserSchema.ApplyUserUpdate | app/api/__pycache__/users.py:20-22 | for each of the seven patchable fields (company name, contact person, address, city, state, pincode, user type), a supplied value is written and an omitted one keeps the old value; id, e-mail, phone, GST number, password hash, licence, flags and creation time are kept |
| UserSchema.ApplyUserUpdateLaws | app/api/__pycache__/users.py:20-22 | an update that supplies nothing changes nothing, and applying an update twice equals applying it once |
| AuthService.NewUser | app/services/auth_service.py:10-29 | the new row carries every field of the request (e-mail, phone, company, contact, GST number, licence, address, city, state, pincode, user type) and the hash in place of the password, starts unverified and active, and is stamped with the current time |
| AuthService.GetUserByEmail | app/services/auth_service.py:39-40 | returns a stored user with that e-mail, and nothing exactly when no user has it |
| AuthService.GetUserByGst | app/services/auth_service.py:43-44 | returns a stored user with that GST number, and nothing exactly when no user has it |
| AuthService.GetUserByPhone | app/services/auth_service.py:47-48 | returns a stored user with that phone, and nothing exactly when no user has it |
| AuthService.GetUserById | app/services/auth_service.py:52 | returns the stored user with that id, and nothing exactly when no user has it |
| AuthService.LookupsExact | app/models/user.py:17-23 | under the unique constraints on id, e-mail, phone and GST number, each lookup finds the one row holding that key |
| AuthService.AuthenticateUser | app/services/auth_service.py:32-36 | a user is returned exactly when a row with that e-mail exists and the password checks against its hash |
| AuthService.SchemaGstVerifies | app/schemas/user.py:12 | every GST number that passed registration verifies |
| AuthService.UserTable.constructor | app/models/user.py:14-33 | an empty users table satisfies the unique constraints |
| AuthService.UserTable.CreateUser | app/services/auth_service.py:10-29 | the new row is appended exactly when it shares no key with a stored row; otherwise the insert is refused and the table is unchanged; the unique constraints are kept |
| AuthService.UserTable.VerifyUserGst | app/services/auth_service.py:51-62 | an unknown user gives "User not found"; a user with an accepted GST number becomes verified, and only that row's flag changes; otherwise "GST verification failed" and nothing changes |
| AuthApi.RegisterCheckOrder | app/api/auth.py:12-31 | a well-formed request is refused for its e-mail, else for its GST number, else for its phone, each exactly when that is the first key already registered; it passes exactly when none is |
| AuthApi.Register | app/api/auth.py:12-35 | a refused request changes nothing; an accepted one appends the new user, unless the insert conflicts on the id, in which case nothing changes |
| AuthApi.Login | app/api/auth.py:37-54 | a login fails exactly when authentication fails; otherwise it returns a bearer access token and refresh token for that user |
| AuthApi.Refresh | app/api/auth.py:56-79 | the token is refused exactly when it is not a refresh token with a non-empty subject; a new pair is issued exactly when the user with that id exists and is active, otherwise the user is reported missing or inactive; the pair is a bearer access token and a refresh token for that id, with the configured lifetimes |
| AuthApi.RefreshThenRefresh | app/api/auth.py:56-79 | the refresh token a refresh returns is exchanged again, while its user stays active, for a new pair for the same user |
| AuthApi.LoginThenRefresh | app/api/auth.py:37-79 | the refresh token of a login, while its user stays active, is exchanged for a new pair for the same user |
| AuthApi.InactiveUserLogsInButCannotRefresh | app/api/auth.py:37-70 | a deactivated user with the right password still gets tokens from login, and refreshing them is refused as inactive |
| AuthApi.AccessTokenRefused | app/api/auth.py:58-63 | an access token is never accepted for a refresh |
| AuthApi.RefreshAsWritten | app/api/auth.py:56-70 | the handler as written fails on every request: with an invalid token exactly when the token check fails, and otherwise because the query names the response schema |
| AuthApi.RefreshAsWrittenRefusesLoginToken | app/api/auth.py:5-65 | the refresh token of a successful login, which the corrected handler accepts, is refused by the handler as written |
| ProductSchema.ParseCondition | app/models/product.py:9-14 | a parsed condition has exactly the parsed text as its name |
| ProductSchema.ConditionNamesRoundTrip | app/models/product.py:9-14 | each condition parses back from its name, and a text fails to parse exactly when it names no condition |
| ProductSchema.ParseStatus | app/models/product.py:16-20 | a parsed status has exactly the parsed text as its name |
| ProductSchema.StatusNamesRoundTrip | app/models/product.py:16-20 | each status parses back from its name, and a text fails to parse exactly when it names no status |
| ProductSchema.MinimalProductCreate | app/schemas/product.py:22-36 | the defaults of the optional fields (negotiable, condition good, no price); such a request is valid exactly when title, description and quantity meet their bounds |
| ProductSchema.NewProduct | app/services/product_service.py:12-20 | the new row carries each of the fourteen fields of the request and the seller, starts active, not featured, with no views and status active, is stamped with the current time, and a valid request gives a valid row |
| ProductSchema.ApplyProductUpdate | app/services/product_service.py:40-42 | for each of the fifteen patchable fields, a supplied value is written and an omitted one keeps the old value; id, seller, flags, views and creation time cannot change |
| ProductSchema.ApplyProductUpdateLaws | app/schemas/product.py:41-56 | a valid update keeps a valid row valid; an empty update changes nothing; applying an update twice equals applying it once |
| ProductSearch.SortCorrect | app/services/product_service.py:110-113 | sorting orders the products on the key, descending or ascending, with NULL last in ascending order, and is a permutation |
| ProductSearch.Page | app/services/product_service.py:117 | OFFSET/LIMIT returns the run that starts at `skip`, of length `min(limit, max(0, n - skip))` |
| ProductSearch.PageSorted | app/services/product_service.py:117 | a page of a sorted sequence is sorted |
| ProductSearch.Matching | app/services/product_service.py:78-107 | the matches are exactly the stored products meeting the whole WHERE clause |
| ProductSearch.Search | app/services/product_service.py:61-117 | the result is the `skip`/`limit` page of an ordering of all the matches (a permutation of them sorted by the requested key, descending exactly for "desc"); so every result is a stored product meeting the WHERE clause, the results are in order, and their number is what the page leaves of the matches |
| ProductSearch.SearchComplete | app/services/product_service.py:61-117 | with no skip and a limit covering the matches, every matching product is returned |
| ProductSearch.SearchSound | app/services/product_service.py:78-107 | a result is active and meets each supplied filter: text in title or description, category, material, city, state, price bounds, condition |
| ProductSearch.UnfilteredSearchMatchesActive | app/services/product_service.py:78-107 | with no truthy filter, a product matches exactly when it is active |
| ProductSearch.PageExample | app/services/product_service.py:117 | 25 matches with skip 20 and limit 10 give 5 results |
| ProductSearch.TextMatchExample | app/services/product_service.py:80-86 | a product titled "Steel Rods 10mm" matches the queries "steel" and "ROD" |
| ProductService.ImageRow | app/services/product_service.py:134-141 | the inserted image row takes its path, name, primary flag, size and MIME type from the image data |
| ProductService.ClearPrimary | app/services/product_service.py:129-132 | clearing makes no image of the product primary, leaves the images of other products as they were, and changes nothing but the flag |
| ProductService.AddImage | app/services/product_service.py:127-145 | adding an image appends its row at the end |
| ProductService.AddImageLaws | app/services/product_service.py:127-145 | when the new image is primary, no earlier image of the product still is; other products' images are untouched; earlier rows change at most in their flag; at most one primary image per product is kept |
| ProductService.ImagesOf | app/models/product.py:52 | a product's images are exactly the stored images with its id |
| ProductService.FilterKeepsAtMostOnePrimary | app/services/product_service.py:49-59 | deleting rows keeps at most one primary image per product |
| ProductService.OwnedIndex | app/services/product_service.py:33-35 | finds a product with that id owned by that user, and nothing exactly when there is none |
| ProductService.FindProduct | app/services/product_service.py:23-29 | finds the first product with that id, and nothing exactly when there is none |
| ProductService.Catalog.constructor | app/models/product.py:22-65 | empty product and image tables meet the primary-image invariant |
| ProductService.Catalog.CreateProduct | app/services/product_service.py:12-20 | the new product row is appended and the images are untouched |
| ProductService.Catalog.UpdateProduct | app/services/product_service.py:32-46 | only the caller's own product changes, and only in the supplied fields; otherwise nothing changes and nothing is returned |
| ProductService.Catalog.DeleteProduct | app/services/product_service.py:49-59 | a product the caller does not own gives `False` and no change; an owned product that a conversation names is refused, as the foreign key of models/conversation.py:22 with no cascade at models/product.py:53 refuses it, and nothing changes; otherwise the product is removed together with all its images |
| ProductService.Catalog.IncrementViews | app/services/product_service.py:120-124 | the first product with that id gains exactly one view; with no such product nothing changes |
| ProductService.Catalog.AddProductImage | app/services/product_service.py:127-145 | the image table becomes `AddImage` of the old one, keeping at most one primary image per product |
| ProductsApi.PrimaryImageChoice | app/api/__pycache__/products.py:49-51 | a list item shows no image exactly when the product has none; otherwise it shows the earliest primary image, or the first image when none is primary |
| ProductsApi.ListItemFields | app/api/__pycache__/products.py:53-65 | a list item copies the product's fields; its image path exists exactly when the product has an image, belongs to one of its images, and to a primary one whenever there is one |
| ProductsApi.PrimaryImageExample | app/api/__pycache__/products.py:49-51 | with a non-primary image stored before a primary one, the listing shows the primary one |
| ProductsApi.NewPrimaryIsListed | app/api/__pycache__/products.py:49-51 | after a primary image is added, listings show that image |
| ProductsApi.ProjectListItems | app/api/__pycache__/products.py:47-68 | one list item per product, in order |
| ProductsApi.ListProducts | app/api/__pycache__/products.py:25-68 | the list items of the search results, in order |
| ProductsApi.SellerProducts | app/api/__pycache__/products.py:155-157 | a seller's products are exactly the stored products with that seller |
| ProductsApi.MyProducts | app/api/__pycache__/products.py:155-157 | only the caller's products, active or not, paged; a page covering them all contains every one |
| ProductsApi.InactiveListedOnlyToSeller | app/api/__pycache__/products.py:155-157 | an inactive product never appears in a search, yet appears in its seller's own listing |
| ProductsApi.GetMyProducts | app/api/__pycache__/products.py:148-181 | the list items of the caller's page of products, in order |
| ProductsApi.GetProduct | app/api/__pycache__/products.py:70-81 | a missing product is not found and nothing changes; otherwise its view count goes up by one and the updated row is returned |
| ProductsApi.UploadData | app/api/__pycache__/products.py:138-140 | the stored data is primary exactly when primary was requested and the file is at position 0; the MIME type is the declared content type |
| ProductsApi.Accepted | app/api/__pycache__/products.py:132-135 | accepted positions are below the number of files looked at |
| ProductsApi.AcceptedShape | app/api/__pycache__/products.py:132-135 | the accepted positions are exactly those of files with an allowed content type, in increasing order |
| ProductsApi.BatchInOrder | app/api/__pycache__/products.py:131-144 | the stored data follow the accepted files in input order, the others skipped |
| ProductsApi.BatchPrimaryRule | app/api/__pycache__/products.py:139 | an image of the batch is primary exactly when it is the first, primary was requested and the file at position 0 was accepted |
| ProductsApi.AddAllLaws | app/api/__pycache__/products.py:143-144 | storing a batch appends one row per image with its path, leaves other products' images untouched, and keeps at most one primary image per product |
| ProductsApi.RowsShape | app/api/__pycache__/products.py:144-146 | the reported images are the rows of the stored data, one each, in order |
| ProductsApi.ProcessedCount | app/api/__pycache__/products.py:132-138 | the loop gets through at most all the files |
| ProductsApi.ProcessedCountShape | app/api/__pycache__/products.py:132-138 | the loop stops exactly at the first accepted file that cannot be rendered |
| ProductsApi.UploadCountExample | app/api/__pycache__/products.py:131-146 | three renderable files with the second of a refused type are all processed, and two images are stored |
| ProductsApi.StoreUpload | app/api/__pycache__/products.py:138-144 | an accepted file that can be rendered is processed and its image stored with its original on disk; one that cannot stores no image |
| ProductsApi.StoreNext | app/api/__pycache__/products.py:132-144 | one pass of the loop skips a refused file, stores an accepted one, and fails exactly at an accepted file that cannot be rendered |
| ProductsApi.StoreBatch | app/api/__pycache__/products.py:131-146 | after the loop, the image table holds the batch data of the files processed; the response counts and lists them, or the request fails at the first unrenderable file |
| ProductsApi.UploadProductImages | app/api/__pycache__/products.py:111-146 | for a product the caller does not own nothing is stored and nothing is written; otherwise the result of the upload loop |
| ImageProcessing.FileExtensionShape | app/utils/image_processing.py:17 | the extension is the lower-cased text after the last `.`, or the whole name lower-cased when it has no `.` |
| ImageProcessing.UniqueFilenameKeepsExtension | app/utils/image_processing.py:17-18 | the stored name keeps the upload's extension |
| ImageProcessing.UniqueNameIsSegment | app/utils/image_processing.py:17-18 | for a uuid and upload name without `/`, the stored name is one path component |
| ImageProcessing.RenditionLayout | app/utils/image_processing.py:21-31 | a rendition is stored at `upload_dir/products/<product id>/<rendition>/<name>` |
| ImageProcessing.DefaultRoot | app/utils/image_processing.py:21 | with the default upload directory the root is `./uploads/products` |
| ImageProcessing.RenditionPathsDistinct | app/utils/image_processing.py:31-51 | the paths of different renditions, or of different names, never coincide |
| ImageProcessing.ProcessedLayout | app/utils/image_processing.py:14-60 | the returned name, the three rendition paths under the product's directory, all different, and the size of the upload |
| ImageProcessing.FileSystem.constructor | app/utils/image_processing.py:10-12 | a file system with the given directories and files |
| ImageProcessing.FileSystem.CreateDirectory | app/utils/image_processing.py:10-12 | the directory exists afterwards; an existing one is left as it is; no file changes |
| ImageProcessing.FileSystem.ProcessProductImage | app/utils/image_processing.py:14-60 | the three rendition directories are created; a stored name that cannot be opened fails with no file written; otherwise the original is written, and when the bytes decode and the derived extension has a writer, the two renditions are written too and the metadata returned; otherwise the call fails (cannot decode, or no writer for the extension) with only the original left on disk |
| ImageProcessing.StorableNameOfUuid | app/utils/image_processing.py:18-32 | a stored name `<uuid>.<ext>` can be opened exactly when the extension has no `/`, no NUL and at most 218 characters |
| ImageProcessing.ExtensionAfterLastDot | app/utils/image_processing.py:17 | the extension of `<base>.<e>`, with no `.` in `e`, is `e` lower-cased |
| ImageProcessing.SlashExtensionNotStorable | app/utils/image_processing.py:17-32 | an upload named `photo./png` gets the extension `/png` and a stored name that cannot be opened |
| ImageProcessing.TrailingDotNotRenderable | app/utils/image_processing.py:17-46 | an upload named with a trailing `.` gets the empty extension, and without a writer for it the upload cannot be rendered, whatever its bytes |
| ConversationService.FindTriple | app/services/conversation_service.py:18-24 | finds a conversation with that product, buyer and seller, and nothing exactly when there is none |
| ConversationService.NewConversation | app/services/conversation_service.py:29-33 | the new conversation is active, between the buyer and the seller, about the product |
| ConversationService.FindOrCreate | app/services/conversation_service.py:11-37 | nothing exactly for an unknown product; otherwise the conversation of the buyer with the product's seller, the existing one if any, else a new one appended |
| ConversationService.FindOrCreateIdempotent | app/services/conversation_service.py:11-37 | asking again returns the same conversation and leaves the table as the first call left it |
| ConversationService.FindOrCreateKeepsUnique | app/services/conversation_service.py:17-37 | find-or-create never adds a second conversation with the same (product, buyer, seller) |
| ConversationService.ReferencedProducts | app/models/conversation.py:22 | exactly the product ids that some stored conversation names, the ids a product deletion is refused for |
| ConversationService.UserConversations | app/services/conversation_service.py:40-51 | exactly the conversations in which the user is buyer or seller |
| ConversationService.GetConversation | app/services/conversation_service.py:54-66 | the conversation is returned only to a participant, and nothing exactly when the user takes part in no conversation with that id |
| ConversationService.MessagesOf | app/models/conversation.py:33 | a conversation's messages are exactly the stored messages with its id |
| ConversationService.NewMessage | app/services/conversation_service.py:84-88 | the new message is unread, from the sender, in the conversation, with the request's content |
| ConversationService.MarkRead | app/services/conversation_service.py:101-107 | marking keeps every message |
| ConversationService.MarkReadLaws | app/services/conversation_service.py:101-107 | the messages others sent in the conversation become read; the user's own and other conversations' messages are unchanged; only the flag changes; marking twice equals marking once |
| ConversationService.Inbox.constructor | app/models/conversation.py:18-49 | empty tables meet the invariant |
| ConversationService.Inbox.CreateConversation | app/services/conversation_service.py:11-37 | the table and the result are those of find-or-create, keeping the key unique |
| ConversationService.Inbox.SendMessage | app/services/conversation_service.py:69-92 | a participant's message is appended; anyone else gets nothing and nothing changes |
| ConversationService.Inbox.MarkMessagesAsRead | app/services/conversation_service.py:95-108 | with no conversation of that id nothing changes; otherwise the messages are marked as `MarkRead` states |
| ConversationService.Inbox.OpenConversation | app/api/conversations.py:35-50 | a participant gets the conversation and the messages others sent become read; anyone else gets nothing and nothing changes |

## Left out

- AuthApi.RegisterCheck, AuthService.NewUser: `EmailStr` is not modelled, neither its syntax check nor the address it rewrites. Pydantic replaces the submitted address with its normalized form: surrounding spaces and a `Name <addr>` wrapper are removed and the domain is lower-cased. Registration checks for duplicates with that form (app/api/auth.py:15) and stores it (app/services/auth_service.py:13). In the model, `UserCreate.email` is the address already normalized. Login compares the text exactly as sent (app/schemas/auth.py:13, app/services/auth_service.py:33), so in the source a user registered as `Bob@Example.COM` cannot log in with that same text. `UserSchema.ValidUserCreate` covers the other constraints.
- `\d` in the patterns is taken as ASCII digits, and `lower()` and `ILIKE` as ASCII case folding. Python and PostgreSQL also fold and match non-ASCII characters.
- `ILIKE` pattern syntax inside the user's text is not modelled, for `query`, `city` and `state` alike: the wildcards `%` and `_`, and the backslash, which is LIKE's default escape character since the pattern has no `ESCAPE` clause (the query `\` becomes the pattern `%\%`, which matches a title containing `%` and not one containing `\`). Database collation is not modelled either. A text filter is a plain case-insensitive substring test, so `ProductSearch.SearchSound`'s text clauses hold for texts free of `%`, `_` and `\`.
- Prices are integers in minor units rather than `Decimal` and `float`.
- ProductSearch.Search: the sort column is one of the five numeric columns. An unknown `sort_by` name (which fails in `getattr`) and sorting on a text column are not modelled. A `condition` text that names no condition matches nothing here; in the source the database refuses the comparison, which is not modelled.
- Negative `skip` or `limit` are not modelled: they are natural numbers.
- Ties in ORDER BY: the model fixes one order; the database may order equal keys differently, and no stated property depends on it.
- Explicitly supplied nulls for fields the database requires (`company_name: null`, `title: null`) are not modelled: such a field is either omitted or given a value.
- Explicitly supplied nulls for the nullable enumeration and flag columns (`condition`, `status` and `price_negotiable` of a product update, `user_type` of a profile update) are not modelled: the model's row holds a value for each of them, so such a field is either omitted or given a value.
- ProductService.Catalog.DeleteProduct: the conversations table lives in `ConversationService.Inbox`; the catalog receives the ids it names (`ConversationService.ReferencedProducts`) as a parameter.
- Image row ids, `created_at` of images, and `updated_at` (`onupdate`) are not modelled.
- `os.makedirs` also creates missing parent directories; `CreateDirectory` only adds the named directory.
- ImageProcessing.StorableName: the 255 limit counts characters, not the UTF-8 bytes the file system counts, and the limit on the whole path's length is not modelled.
- Pixel work is not modelled: decoding, RGB conversion, resizing to 800×600 and 200×200, and JPEG quality.
- The image library's register of writers is a parameter (`savable`), not a list of its formats; a writer that exists but refuses the image's colour mode is not modelled.
- ProductsApi.UploadProductImages, ProductsApi.StoreBatch, ProductsApi.StoreNext, ProductsApi.StoreUpload: file-system effects are stated as growth only (`old(fs.dirs) <= fs.dirs && old(fs.files) <= fs.files`); the exact directories and files written per upload are stated by `ImageProcessing.FileSystem.ProcessProductImage`.
- `is_primary` sent as null in the form is not modelled: the flag is a boolean.
- JWT encoding, the signature, the algorithm, expiry checking and bcrypt hashing are not modelled; tokens are claims and decoding is an input.
- The dependencies `get_current_active_user` and `get_current_verified_user` are not part of this model; the endpoints receive the caller's id.
- The create, update and delete product endpoints only map a missing result to 404; they are modelled by the `Catalog` methods they call.
- `verify_gst_endpoint` returns `verify_gst_number` unchanged and is modelled by `Validators.VerifyGstNumber`.
- Nested relationship loading (`joinedload` of seller, category, material and messages) and response serialization are not modelled.
- Relationship order: a product's images and a conversation's messages are taken in insertion order.
- Transactions, concurrency and the commit/refresh cycle are not modelled: each call runs alone as one step.
- The `max_file_size` setting is read by nothing in the core and is only a default value here.
- ProductService.Catalog.CreateProduct, ProductService.Catalog.UpdateProduct, ConversationService.Inbox.SendMessage: the database's refusals of values the request schemas accept are not modelled; the model stores the row where the source's commit fails with an IntegrityError or DataError and stores nothing. These are a `category_id` or `material_id` that names no category or material (foreign keys, app/models/product.py:29-30), a price or `offer_price` of 10^8 or more (`Numeric(10, 2)`, app/models/product.py:33 and app/models/conversation.py:43), and a quantity above 2^31 - 1 (`Integer`, app/models/product.py:31). The categories and materials tables are not part of this model.
- AuthApi.Register: the database's unique constraints are modelled by refusing the insert; the source lets the resulting exception become a server error.

## Findings

| source | as written | input that shows it | evidently intended | confidence | as-written member | corrected member |
|---|---|---|---|---|---|---|
| app/api/auth.py:65 | the user lookup queries `User`, which the imports at line 5 bind to the Pydantic response schema, not the table; the query cannot run, so every request that passes the token check ends in a server error | the refresh token returned by a successful login of an active user | query the users table by the token's subject and issue a new pair for an active user | not executed | AuthApi.RefreshAsWritten, AuthApi.RefreshAsWrittenRefusesLoginToken | AuthApi.Refresh, AuthApi.LoginThenRefresh |
