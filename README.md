# BlockFile client core, modelled in Dafny

BlockFile is an Android marketplace for digital products. Customers browse a catalogue, buy and download files, rate and comment on products, and see rankings. Administrators manage products, categories and users. Prices, purchases, ratings and rankings are all computed by a remote server. The client's own logic lives in two layers, and this project models both:

- **The data layer** (`core/data`):
  - the repositories, which turn one backend call into a value or an error message;
  - the in-memory session cookie jar;
  - the parser that takes a download's file name from its `Content-Disposition` header.
- **The view models** (`feature/*`): one state machine per screen. Each holds a `uiState` record that every event replaces.

## How the model is built

- One Dafny module per source file. `common.dfy`, `text.dfy` and `errors.dfy` hold the shared shapes, the Kotlin string functions the core calls (`isWhitespace`, `isBlank`, `trim`, `isDigit`, `filter`, `toLongOrNull`, `toString`) and the error texts.
- A backend call is an `Outcome`. It is one of:
  - a transport failure (an `IOException`, with its optional message);
  - an HTTP error (Retrofit's `HttpException`: code, status text, optional error body);
  - a decoded reply.
- Each repository method is a function from `Outcome` to `Result`. A `Result` is either the value or the message of the exception the repository throws. Repositories without a `try`/`catch` (the admin ones) let the original exception through (`Errors.Uncaught`).
- Each view model is a `class` whose fields are the source's state flows, holding datatype records. An asynchronous operation is split in two:
  - a start method, which applies the state change made before the coroutine suspends and returns the request the backend call sends (or `None` when a guard stops it);
  - a `Complete…` method, which takes the call's `Result` and applies the success or failure branch.
- A reload that a completion launches is returned as the next request. Its start step is applied at once, as `Dispatchers.Main.immediate` does.
- A callback such as `onSuccess` is modelled as a returned value.
- Each state-changing method states the whole new state. The properties about a method are stated over the functions that specify it, and proved as lemmas: guards, clamps, validation order, "the other tabs are unchanged", round trips and idempotence.
- `AdminProfileViewModel` calls the API directly. Its screen therefore never sees `AdminProfileRepository`'s JSON error parsing: the message it shows is the exception's own text.

## Model

| member | source | states |
|---|---|---|
| NetworkModule.CookiesFor | core/data/src/main/java/com/example/blockfile/core/data/network/NetworkModule.kt:64-66 | a host never saved gets the empty list, a saved host exactly its saved list |
| NetworkModule.InMemoryCookieJar.constructor | core/data/src/main/java/com/example/blockfile/core/data/network/NetworkModule.kt:57-58 | a new jar holds no cookies for any host |
| NetworkModule.InMemoryCookieJar.SaveFromResponse | core/data/src/main/java/com/example/blockfile/core/data/network/NetworkModule.kt:60-62 | the host's list is replaced by the response's cookies, not merged; every other host keeps its list |
| NetworkModule.InMemoryCookieJar.LoadForRequest | core/data/src/main/java/com/example/blockfile/core/data/network/NetworkModule.kt:64-66 | a request gets the list saved for its host, or none; the jar is not changed |
| NetworkModule.SaveThenLoad | core/data/src/main/java/com/example/blockfile/core/data/network/NetworkModule.kt:60-66 | after a save, any URL on the same host, whatever its scheme, port or path, carries exactly the saved cookies |
| NetworkModule.SaveReplaces | core/data/src/main/java/com/example/blockfile/core/data/network/NetworkModule.kt:60-62 | of two saves for one host the second wins outright |
| NetworkModule.FreshJarEmpty | core/data/src/main/java/com/example/blockfile/core/data/network/NetworkModule.kt:58-66 | a fresh jar sends no cookie to any host |
| AdminProfileRepository.FirstPresent | core/data/src/main/java/com/example/blockfile/core/data/repository/AdminProfileRepository.kt:34-39 | reference reading of the key priority: the value of the first listed key the object has, and none exactly when no listed key is present |
| AdminProfileRepository.ParseErrorBody | core/data/src/main/java/com/example/blockfile/core/data/repository/AdminProfileRepository.kt:27-43 | no body gives "Error del servidor (code)."; a JSON object gives `error`, else `errors`, else `detail`, else the raw body; a body that is not a JSON object gives the raw body |
| AdminProfileRepository.ParseErrorBodyIsFirstPresent | core/data/src/main/java/com/example/blockfile/core/data/repository/AdminProfileRepository.kt:34-39 | the `when` chain equals the first-present-key rule over error, errors, detail with the raw body as default |
| AdminProfileRepository.BodyHidesCode | core/data/src/main/java/com/example/blockfile/core/data/repository/AdminProfileRepository.kt:27-29 | once an error body is present the status code plays no part in the message |
| AdminProfileRepository.ErrorKeyWins | core/data/src/main/java/com/example/blockfile/core/data/repository/AdminProfileRepository.kt:35 | an `error` key decides the message whatever else the object holds |
| AdminProfileRepository.UpdateProfile | core/data/src/main/java/com/example/blockfile/core/data/repository/AdminProfileRepository.kt:17-25 | success exactly on a reply, which is returned as is; an HTTP error becomes its parsed message, a transport failure the connection message |
| CatalogRepository.CatalogQueryFor | core/data/src/main/java/com/example/blockfile/core/data/repository/CatalogRepository.kt:38-43 | a filter is left out exactly when it is absent or blank; a filter that is sent is the text as typed; the page goes as requested |
| CatalogRepository.ItemToDomain | core/data/src/main/java/com/example/blockfile/core/data/repository/CatalogRepository.kt:60-69 | id, name, author, price, rating and purchase count unchanged; `imagen_1_id` becomes the image id |
| CatalogRepository.BlankFilterIsNoFilter | core/data/src/main/java/com/example/blockfile/core/data/repository/CatalogRepository.kt:40 | a name filter of only spaces searches the same as no filter |
| CatalogRepository.GetCatalogPage | core/data/src/main/java/com/example/blockfile/core/data/repository/CatalogRepository.kt:31-69 | success exactly on a reply; rows mapped one to one and in order, page counters copied; HTTP error gives "Error en servidor (code)", transport failure the connection message |
| CatalogRepository.OkFlagIgnored | core/data/src/main/java/com/example/blockfile/core/data/repository/CatalogRepository.kt:38-51 | a reply marked ok=false gives the same page as one marked ok=true |
| ProductFileRepository.IndexOf | core/data/src/main/java/com/example/blockfile/core/data/repository/ProductFileRepository.kt:62-63 | the first index at which the key occurs, or none when it occurs nowhere |
| ProductFileRepository.Unquote | core/data/src/main/java/com/example/blockfile/core/data/repository/ProductFileRepository.kt:65-67 | one pair of surrounding quotes is stripped; anything else, a lone quote included, is kept |
| ProductFileRepository.NameOrFallback | core/data/src/main/java/com/example/blockfile/core/data/repository/ProductFileRepository.kt:64-69 | the trimmed, unquoted text after the key is the name exactly when it is not blank; a blank one gives the fallback |
| ProductFileRepository.ExtractFileName | core/data/src/main/java/com/example/blockfile/core/data/repository/ProductFileRepository.kt:58-70 | no header or no `filename=` gives the fallback; otherwise the name read from the text after the first `filename=` (kept exactly when non-blank, else the fallback), never blank when the fallback is not |
| ProductFileRepository.NonBlankNameKept | core/data/src/main/java/com/example/blockfile/core/data/repository/ProductFileRepository.kt:58-70 | a header whose text after the first `filename=` trims and unquotes to a non-blank name always yields that name, whatever the fallback |
| ProductFileRepository.DownloadFallback | core/data/src/main/java/com/example/blockfile/core/data/repository/ProductFileRepository.kt:36 | "producto_", the product id (which reads back as that id), then ".bin" |
| ProductFileRepository.DownloadNameNeverBlank | core/data/src/main/java/com/example/blockfile/core/data/repository/ProductFileRepository.kt:36 | a download is always saved under a non-blank name |
| ProductFileRepository.ExtractAfterPrefix | core/data/src/main/java/com/example/blockfile/core/data/repository/ProductFileRepository.kt:61-64 | when the first `filename=` follows a prefix without `f`, the candidate is exactly what follows it |
| ProductFileRepository.AttachmentRoundTrip | core/data/src/main/java/com/example/blockfile/core/data/repository/ProductFileRepository.kt:58-70 | a non-blank name written as `attachment; filename="name"` reads back exactly |
| ProductFileRepository.BlankQuotedNameFallsBack | core/data/src/main/java/com/example/blockfile/core/data/repository/ProductFileRepository.kt:65-68 | a quoted name that is blank inside its quotes gives the fallback |
| ProductFileRepository.QuotedNameUnquoted | core/data/src/main/java/com/example/blockfile/core/data/repository/ProductFileRepository.kt:64-67 | trimming and unquoting a quoted text gives the text inside the quotes |
| ProductFileRepository.UnpairedQuoteKept | core/data/src/main/java/com/example/blockfile/core/data/repository/ProductFileRepository.kt:65-69 | a value that opens but does not close with a quote is kept whole, opening quote included |
| ProductFileRepository.TrailingParameterKept | core/data/src/main/java/com/example/blockfile/core/data/repository/ProductFileRepository.kt:64-69 | parameters after the filename are not split off and the quotes then stay in the name |
| ProfileRepository.PerfilToDomain | core/data/src/main/java/com/example/blockfile/core/data/repository/ProfileRepository.kt:92-98 | user id, user name, e-mail, balance text and purchase count unchanged |
| ProfileRepository.CompraToDomain | core/data/src/main/java/com/example/blockfile/core/data/repository/ProfileRepository.kt:100-108 | id, name, author, price, rating and purchase count unchanged; `imagen_1_id` becomes the image id |
| ProfileRepository.MappersInjective | core/data/src/main/java/com/example/blockfile/core/data/repository/ProfileRepository.kt:92-108 | the profile and purchase mappers keep every field: distinct rows stay distinct |
| ProfileRepository.ProfileOutcome | core/data/src/main/java/com/example/blockfile/core/data/repository/ProfileRepository.kt:31-46 | success exactly on an ok reply carrying a profile; otherwise the reply's error or the fallback, the raw error body for HTTP errors, the connection message for transport failures |
| ProfileRepository.GetProfile | core/data/src/main/java/com/example/blockfile/core/data/repository/ProfileRepository.kt:31-46 | the profile rule with the fallback "No se pudo obtener el perfil." |
| ProfileRepository.UpdateProfileBody | core/data/src/main/java/com/example/blockfile/core/data/repository/ProfileRepository.kt:54-58 | name and e-mail as given; the password is left out exactly when absent or blank, otherwise sent as given |
| ProfileRepository.UpdateProfile | core/data/src/main/java/com/example/blockfile/core/data/repository/ProfileRepository.kt:48-72 | the profile rule with the fallback "No se pudo actualizar el perfil." |
| ProfileRepository.OkWithoutProfileFails | core/data/src/main/java/com/example/blockfile/core/data/repository/ProfileRepository.kt:36-38 | an ok reply with no profile is a failure carrying the server's error or the fallback |
| ProfileRepository.GetCompras | core/data/src/main/java/com/example/blockfile/core/data/repository/ProfileRepository.kt:74-90 | success exactly on an ok reply, rows mapped one to one in order with the counters copied; ok=false gives a fixed message; HTTP errors the raw body |
| ProfileRepository.FailuresCarryMessage | core/data/src/main/java/com/example/blockfile/core/data/repository/ProfileRepository.kt:31-113 | every failure of the three calls carries a message, so no view-model fallback is shown for them |
| ProductDetailRepository.DetailToDomain | core/data/src/main/java/com/example/blockfile/core/data/repository/ProductDetailRepository.kt:104-120 | all fifteen fields of the product detail reach the domain value unchanged |
| ProductDetailRepository.CommentToDomain | core/data/src/main/java/com/example/blockfile/core/data/repository/ProductDetailRepository.kt:122-127 | author, rating, date and text of the comment unchanged |
| ProductDetailRepository.MappersInjective | core/data/src/main/java/com/example/blockfile/core/data/repository/ProductDetailRepository.kt:104-127 | the detail and comment mappers keep every field: distinct DTOs give distinct domain values |
| ProductDetailRepository.FailureMessage | core/data/src/main/java/com/example/blockfile/core/data/repository/ProductDetailRepository.kt:35-39 | an HTTP error reads "Error del servidor (code)", a transport failure the connection message |
| ProductDetailRepository.GetProductDetail | core/data/src/main/java/com/example/blockfile/core/data/repository/ProductDetailRepository.kt:26-56 | success exactly on an ok reply; the detail mapped and the comments kept in the server's order and number; ok=false gives "Respuesta no válida del servidor" |
| ProductDetailRepository.ActionOutcome | core/data/src/main/java/com/example/blockfile/core/data/repository/ProductDetailRepository.kt:58-85 | an action succeeds exactly on an ok reply; a rejection shows the reply's message or the action's fallback |
| ProductDetailRepository.CommentBody | core/data/src/main/java/com/example/blockfile/core/data/repository/ProductDetailRepository.kt:60 | the comment is sent as given |
| ProductDetailRepository.CommentOnProduct | core/data/src/main/java/com/example/blockfile/core/data/repository/ProductDetailRepository.kt:58-70 | the action rule with the fallback "No se pudo registrar el comentario." |
| ProductDetailRepository.RatingBody | core/data/src/main/java/com/example/blockfile/core/data/repository/ProductDetailRepository.kt:74 | the rating is sent as given |
| ProductDetailRepository.RateProduct | core/data/src/main/java/com/example/blockfile/core/data/repository/ProductDetailRepository.kt:72-85 | the action rule with the fallback "No se pudo registrar la calificación."; the average in the reply is unused |
| ProductDetailRepository.RejectionMessages | core/data/src/main/java/com/example/blockfile/core/data/repository/ProductDetailRepository.kt:62-64 | comment and rating differ only in the fallback of a silent rejection |
| ProductDetailRepository.BuyProduct | core/data/src/main/java/com/example/blockfile/core/data/repository/ProductDetailRepository.kt:87-100 | only an accepted purchase reads the detail again, and that read decides the result; a rejection shows the reply's message or "No se pudo realizar la compra." |
| ProductDetailRepository.FailedPurchaseIgnoresRefetch | core/data/src/main/java/com/example/blockfile/core/data/repository/ProductDetailRepository.kt:90-92 | a purchase that did not go through fails whatever the detail call would have returned |
| ProductDetailRepository.PurchaseSucceedsIff | core/data/src/main/java/com/example/blockfile/core/data/repository/ProductDetailRepository.kt:87-100 | a purchase succeeds exactly when it is accepted and the detail can be read again, and it returns the fresh detail |
| RankingRepository.MasCompradoToDomain | core/data/src/main/java/com/example/blockfile/core/data/repository/RankingRepository.kt:91-99 | id, rank position, name, author, category, price and purchase count all reach the entry unchanged |
| RankingRepository.CompradorToDomain | core/data/src/main/java/com/example/blockfile/core/data/repository/RankingRepository.kt:101-106 | the user id (renamed), rank position, name and purchase count reach the entry unchanged |
| RankingRepository.CalificadoToDomain | core/data/src/main/java/com/example/blockfile/core/data/repository/RankingRepository.kt:108-117 | id, rank position, name, author, category and price unchanged; the rating count and average carried under their new names |
| RankingRepository.MappersKeepFields | core/data/src/main/java/com/example/blockfile/core/data/repository/RankingRepository.kt:91-117 | the renamed fields (user id, rating count, average) carry the DTO's values |
| RankingRepository.RankingPage | core/data/src/main/java/com/example/blockfile/core/data/repository/RankingRepository.kt:37-52 | success exactly on an ok reply with rows mapped in order and counters copied; ok=false gives "Respuesta no válida del servidor", HTTP errors "Error del servidor (code)" |
| RankingRepository.GetProductosMasComprados | core/data/src/main/java/com/example/blockfile/core/data/repository/RankingRepository.kt:37-52 | the ranking page rule with the most-bought mapper |
| RankingRepository.GetMejoresCompradores | core/data/src/main/java/com/example/blockfile/core/data/repository/RankingRepository.kt:54-69 | the ranking page rule with the best-buyer mapper |
| RankingRepository.GetProductosMejorCalificados | core/data/src/main/java/com/example/blockfile/core/data/repository/RankingRepository.kt:71-86 | the ranking page rule with the best-rated mapper |
| RankingRepository.RankPositionsKept | core/data/src/main/java/com/example/blockfile/core/data/repository/RankingRepository.kt:37-86 | in all three rankings the server's positions reach the screen in its order and number |
| AdminCategoriesRepository.AdminCategoriesQueryFor | core/data/src/main/java/com/example/blockfile/core/data/repository/AdminCategoriesRepository.kt:27-32 | the id filter goes as its decimal text and is left out exactly when absent; blank name and description filters are left out, others sent as typed |
| AdminCategoriesRepository.ItemToDomain | core/data/src/main/java/com/example/blockfile/core/data/repository/AdminCategoriesRepository.kt:72-76 | id, name and description of the row unchanged |
| AdminCategoriesRepository.IdFilterReadsBack | core/data/src/main/java/com/example/blockfile/core/data/repository/AdminCategoriesRepository.kt:29 | the id text the server receives parses back to the same Long |
| AdminCategoriesRepository.GetAdminCategoriesPage | core/data/src/main/java/com/example/blockfile/core/data/repository/AdminCategoriesRepository.kt:21-45 | success exactly on an ok reply with rows mapped in order and counters copied; ok=false gives a fixed message; call failures propagate uncaught |
| AdminCategoriesRepository.SaveCategoryBody | core/data/src/main/java/com/example/blockfile/core/data/repository/AdminCategoriesRepository.kt:52-56 | an absent id creates, a present one updates; name and description as given |
| AdminCategoriesRepository.SaveCategory | core/data/src/main/java/com/example/blockfile/core/data/repository/AdminCategoriesRepository.kt:47-62 | the saved category's id exactly on an ok reply; a rejection shows the reply's message or "Error al guardar categoría" |
| AdminCategoriesRepository.DeleteCategoryBody | core/data/src/main/java/com/example/blockfile/core/data/repository/AdminCategoriesRepository.kt:65 | the request names the category to delete |
| AdminCategoriesRepository.DeleteCategory | core/data/src/main/java/com/example/blockfile/core/data/repository/AdminCategoriesRepository.kt:64-69 | success exactly on an ok reply; a rejection shows the reply's message or "Error al eliminar categoría" |
| AdminCategoriesRepository.ServerWordsFirst | core/data/src/main/java/com/example/blockfile/core/data/repository/AdminCategoriesRepository.kt:58-68 | a rejection the server explains is shown in its words; only a silent one gets the local text |
| AdminUsersRepository.ItemToDomain | core/data/src/main/java/com/example/blockfile/core/data/repository/AdminUsersRepository.kt:71-75 | id and name kept; the balance shown as its text, a missing one as the empty string |
| AdminUsersRepository.DetailToDomain | core/data/src/main/java/com/example/blockfile/core/data/repository/AdminUsersRepository.kt:77-83 | id, name, e-mail, date and balance of the detail unchanged, absent ones kept absent |
| AdminUsersRepository.AdminUsersQueryFor | core/data/src/main/java/com/example/blockfile/core/data/repository/AdminUsersRepository.kt:23-28 | the id filter goes as its decimal text and is left out exactly when absent; blank name and balance filters are left out |
| AdminUsersRepository.IdFilterReadsBack | core/data/src/main/java/com/example/blockfile/core/data/repository/AdminUsersRepository.kt:25 | the id text the server receives parses back to the same Long |
| AdminUsersRepository.GetAdminUsersPage | core/data/src/main/java/com/example/blockfile/core/data/repository/AdminUsersRepository.kt:17-41 | success exactly on an ok reply with rows mapped in order and counters copied; ok=false gives a fixed message; call failures propagate uncaught |
| AdminUsersRepository.GetUserDetail | core/data/src/main/java/com/example/blockfile/core/data/repository/AdminUsersRepository.kt:43-49 | every field of an ok reply but the flag; ok=false gives "No se pudo obtener el detalle del usuario" |
| AdminUsersRepository.SaveUserSaldoBody | core/data/src/main/java/com/example/blockfile/core/data/repository/AdminUsersRepository.kt:55 | the user's id and the balance text as given |
| AdminUsersRepository.SaveUserSaldo | core/data/src/main/java/com/example/blockfile/core/data/repository/AdminUsersRepository.kt:51-61 | the saved user's id exactly on an ok reply; a rejection shows the reply's message or "Error al guardar usuario" |
| AdminUsersRepository.DeleteUserBody | core/data/src/main/java/com/example/blockfile/core/data/repository/AdminUsersRepository.kt:64 | the request names the user to delete |
| AdminUsersRepository.DeleteUser | core/data/src/main/java/com/example/blockfile/core/data/repository/AdminUsersRepository.kt:63-68 | success exactly on an ok reply; a rejection shows the reply's message or "Error al eliminar usuario" |
| AdminUsersRepository.OnlyBareTransportHasNoMessage | core/data/src/main/java/com/example/blockfile/core/data/repository/AdminUsersRepository.kt:43-49 | a detail failure has no message exactly when it is a transport failure without one |
| AdminProductsRepository.DetailToDomain | core/data/src/main/java/com/example/blockfile/core/data/repository/AdminProductsRepository.kt:139-157 | id, name, description, version, price text, author and category ids, active and has-file flags unchanged; the images in the order and number received, each with its id, position and URL |
| AdminProductsRepository.AdminProductsQueryFor | core/data/src/main/java/com/example/blockfile/core/data/repository/AdminProductsRepository.kt:50-56 | the id as given; blank text filters left out exactly, the others as typed |
| AdminProductsRepository.ItemToDomain | core/data/src/main/java/com/example/blockfile/core/data/repository/AdminProductsRepository.kt:130-137 | id, name, author, category and average of the row unchanged |
| AdminProductsRepository.ImageToDomain | core/data/src/main/java/com/example/blockfile/core/data/repository/AdminProductsRepository.kt:150-156 | id, position and URL of the image unchanged |
| AdminProductsRepository.GetAdminProductsPage | core/data/src/main/java/com/example/blockfile/core/data/repository/AdminProductsRepository.kt:43-65 | success exactly on a reply, rows mapped in order and counters copied, the ok flag not read; a failed call propagates |
| AdminProductsRepository.GetProductDetail | core/data/src/main/java/com/example/blockfile/core/data/repository/AdminProductsRepository.kt:67-70 | the mapped detail exactly on a reply; a failed call propagates |
| AdminProductsRepository.SaveProductBody | core/data/src/main/java/com/example/blockfile/core/data/repository/AdminProductsRepository.kt:73-82 | the body carries the eight fields of the detail (id, name, description, version, price text, author and category ids, active flag) unchanged; file flag and images are not sent |
| AdminProductsRepository.SaveBodyFields | core/data/src/main/java/com/example/blockfile/core/data/repository/AdminProductsRepository.kt:73-82 | two details give the same body if and only if they agree on the eight fields sent |
| AdminProductsRepository.SaveBodyIgnoresFileAndImages | core/data/src/main/java/com/example/blockfile/core/data/repository/AdminProductsRepository.kt:73-82 | a save never sends whether a file exists nor which images there are |
| AdminProductsRepository.SaveProduct | core/data/src/main/java/com/example/blockfile/core/data/repository/AdminProductsRepository.kt:72-85 | the id the server assigned exactly on a reply; a failed call propagates |
| AdminProductsRepository.UploadFileParts | core/data/src/main/java/com/example/blockfile/core/data/repository/AdminProductsRepository.kt:87-98 | two parts: the product id as plain text and the file as an octet stream |
| AdminProductsRepository.AddImageParts | core/data/src/main/java/com/example/blockfile/core/data/repository/AdminProductsRepository.kt:100-114 | the product id first and the image last; the position part is present exactly when a position is given |
| AdminProductsRepository.OrdenPartReadsBack | core/data/src/main/java/com/example/blockfile/core/data/repository/AdminProductsRepository.kt:103-104 | the position part parses back to the number sent |
| AdminProductsRepository.IgnoreReply | core/data/src/main/java/com/example/blockfile/core/data/repository/AdminProductsRepository.kt:116-125 | any `SimpleResponseDto` reply to a reorder or delete is a success, `ok=false` included; a failed call propagates |
| AdminProductsRepository.RefusalLooksLikeSuccess | core/data/src/main/java/com/example/blockfile/core/data/repository/AdminProductsRepository.kt:116-125 | a reorder or delete the server refuses with ok=false still reads as a success |
| AdminProductsViewModel.InsertByOrden | feature/adminProducts/src/main/java/com/example/blockfile/feature/adminproducts/AdminProductsViewModel.kt:155 | inserting into a list sorted by position keeps it sorted and adds exactly the new image |
| AdminProductsViewModel.SortByOrden | feature/adminProducts/src/main/java/com/example/blockfile/feature/adminproducts/AdminProductsViewModel.kt:155 | the images sorted by position, a permutation of the images received |
| AdminProductsViewModel.SortIsStable | feature/adminProducts/src/main/java/com/example/blockfile/feature/adminproducts/AdminProductsViewModel.kt:155 | images that share a position keep the order the server sent them in |
| AdminProductsViewModel.StableSortUnique | feature/adminProducts/src/main/java/com/example/blockfile/feature/adminproducts/AdminProductsViewModel.kt:155 | two lists sorted by position with the same images at every position in the same order are equal |
| AdminProductsViewModel.FormImagesAreSortedBy | feature/adminProducts/src/main/java/com/example/blockfile/feature/adminproducts/AdminProductsViewModel.kt:155 | any sorted list that keeps each position's images in the received order is exactly the stable sort, so sortedBy is fully pinned down |
| AdminProductsViewModel.MoveUpOrden | feature/adminProducts/src/main/java/com/example/blockfile/feature/adminproducts/AdminProductsViewModel.kt:297 | one position earlier and never below 1, with the 32-bit subtraction wrapping at the bottom of the Int range |
| AdminProductsViewModel.MoveDownOrden | feature/adminProducts/src/main/java/com/example/blockfile/feature/adminproducts/AdminProductsViewModel.kt:309 | one position later, wrapping to the bottom of the Int range at the top |
| AdminProductsViewModel.MoveUpDownInverse | feature/adminProducts/src/main/java/com/example/blockfile/feature/adminproducts/AdminProductsViewModel.kt:295-317 | away from position 1 and the top of the range, moving down then up, and up then down, returns to the same position |
| AdminProductsViewModel.IdText | feature/adminProducts/src/main/java/com/example/blockfile/feature/adminproducts/AdminProductsViewModel.kt:151-152 | an absent id shows as the empty text and only then |
| AdminProductsViewModel.FormDetail | feature/adminProducts/src/main/java/com/example/blockfile/feature/adminproducts/AdminProductsViewModel.kt:198-225 | saved exactly when the trimmed name and price are both non-blank, the name checked first; name and price trimmed, ids parsed, the rest of the form as it stands |
| AdminProductsViewModel.EditForm | feature/adminProducts/src/main/java/com/example/blockfile/feature/adminproducts/AdminProductsViewModel.kt:141-157 | the edit dialog opens in edit mode with every form field taken from the detail, ids as their text and images sorted by position (same images); filters, list and error untouched |
| AdminProductsViewModel.EditThenSaveRoundTrip | feature/adminProducts/src/main/java/com/example/blockfile/feature/adminproducts/AdminProductsViewModel.kt:137-156 | opening a product and saving it untouched sends back the body that was loaded, with its images sorted |
| AdminProductsViewModel.QueryFor | feature/adminProducts/src/main/java/com/example/blockfile/feature/adminproducts/AdminProductsViewModel.kt:94-101 | the id filter parsed as a Long; blank text filters left out exactly, the others as typed |
| AdminProductsViewModel.IdFilterSent | feature/adminProducts/src/main/java/com/example/blockfile/feature/adminproducts/AdminProductsViewModel.kt:64-67 | a digits-only id filter is sent exactly when it is non-empty and fits a Long, as its numeric value |
| AdminProductsViewModel.AdminProductsViewModel.constructor | feature/adminProducts/src/main/java/com/example/blockfile/feature/adminproducts/AdminProductsViewModel.kt:55-60 | the default state with the first page requested at once |
| AdminProductsViewModel.AdminProductsViewModel.OnIdChange | feature/adminProducts/src/main/java/com/example/blockfile/feature/adminproducts/AdminProductsViewModel.kt:64-67 | the id filter keeps only the digits typed |
| AdminProductsViewModel.AdminProductsViewModel.OnNombreChange | feature/adminProducts/src/main/java/com/example/blockfile/feature/adminproducts/AdminProductsViewModel.kt:69-71 | the name filter changes and nothing else |
| AdminProductsViewModel.AdminProductsViewModel.OnAutorChange | feature/adminProducts/src/main/java/com/example/blockfile/feature/adminproducts/AdminProductsViewModel.kt:73-75 | the author filter changes and nothing else |
| AdminProductsViewModel.AdminProductsViewModel.OnCategoriaChange | feature/adminProducts/src/main/java/com/example/blockfile/feature/adminproducts/AdminProductsViewModel.kt:77-79 | the category filter changes and nothing else |
| AdminProductsViewModel.AdminProductsViewModel.LoadPage | feature/adminProducts/src/main/java/com/example/blockfile/feature/adminproducts/AdminProductsViewModel.kt:90-101 | loading with the error cleared; the query is built from the filters as they stand |
| AdminProductsViewModel.AdminProductsViewModel.CompleteLoadPage | feature/adminProducts/src/main/java/com/example/blockfile/feature/adminproducts/AdminProductsViewModel.kt:103-114 | a page replaces page, count and items; a failure keeps them and shows its message or the fallback |
| AdminProductsViewModel.AdminProductsViewModel.BuscarPrimeraPagina | feature/adminProducts/src/main/java/com/example/blockfile/feature/adminproducts/AdminProductsViewModel.kt:81-83 | a load of page 1 with the current filters |
| AdminProductsViewModel.AdminProductsViewModel.IrPagina | feature/adminProducts/src/main/java/com/example/blockfile/feature/adminproducts/AdminProductsViewModel.kt:85-88 | a load of the page requested, raised to 1 when smaller; the page count is not consulted |
| AdminProductsViewModel.AdminProductsViewModel.OnAddClick | feature/adminProducts/src/main/java/com/example/blockfile/feature/adminproducts/AdminProductsViewModel.kt:120-135 | an empty, active form for a new product, which does not validate until a name is typed |
| AdminProductsViewModel.AdminProductsViewModel.StartEditClick | feature/adminProducts/src/main/java/com/example/blockfile/feature/adminproducts/AdminProductsViewModel.kt:137-141 | loading with the error cleared; the detail of the row's id is requested |
| AdminProductsViewModel.AdminProductsViewModel.CompleteEditClick | feature/adminProducts/src/main/java/com/example/blockfile/feature/adminproducts/AdminProductsViewModel.kt:142-162 | the form shows the product in edit mode, ids as text and images sorted by position; a failure only shows its message |
| AdminProductsViewModel.AdminProductsViewModel.OnDismissDialog | feature/adminProducts/src/main/java/com/example/blockfile/feature/adminproducts/AdminProductsViewModel.kt:166-168 | the dialog closes and the form keeps its contents |
| AdminProductsViewModel.AdminProductsViewModel.OnFormNombreChange | feature/adminProducts/src/main/java/com/example/blockfile/feature/adminproducts/AdminProductsViewModel.kt:170-172 | the form's name changes and nothing else |
| AdminProductsViewModel.AdminProductsViewModel.OnFormDescripcionChange | feature/adminProducts/src/main/java/com/example/blockfile/feature/adminproducts/AdminProductsViewModel.kt:174-176 | the form's description changes and nothing else |
| AdminProductsViewModel.AdminProductsViewModel.OnFormVersionChange | feature/adminProducts/src/main/java/com/example/blockfile/feature/adminproducts/AdminProductsViewModel.kt:178-180 | the form's version changes and nothing else |
| AdminProductsViewModel.AdminProductsViewModel.OnFormPrecioChange | feature/adminProducts/src/main/java/com/example/blockfile/feature/adminproducts/AdminProductsViewModel.kt:182-184 | the form's price text changes and nothing else |
| AdminProductsViewModel.AdminProductsViewModel.OnFormAutorIdChange | feature/adminProducts/src/main/java/com/example/blockfile/feature/adminproducts/AdminProductsViewModel.kt:186-188 | the author id keeps only digits |
| AdminProductsViewModel.AdminProductsViewModel.OnFormCategoriaIdChange | feature/adminProducts/src/main/java/com/example/blockfile/feature/adminproducts/AdminProductsViewModel.kt:190-192 | the category id keeps only digits |
| AdminProductsViewModel.AdminProductsViewModel.OnFormActivoToggle | feature/adminProducts/src/main/java/com/example/blockfile/feature/adminproducts/AdminProductsViewModel.kt:194-196 | the active flag flips |
| AdminProductsViewModel.AdminProductsViewModel.SubmitForm | feature/adminProducts/src/main/java/com/example/blockfile/feature/adminproducts/AdminProductsViewModel.kt:198-228 | a form failing validation only shows the validation message and sends nothing; a valid one sends the validated product and shows loading |
| AdminProductsViewModel.AdminProductsViewModel.CompleteSubmit | feature/adminProducts/src/main/java/com/example/blockfile/feature/adminproducts/AdminProductsViewModel.kt:229-243 | success closes the dialog and reloads the page shown; a failure shows its message or the fallback |
| AdminProductsViewModel.AdminProductsViewModel.ReloadDetailInForm | feature/adminProducts/src/main/java/com/example/blockfile/feature/adminproducts/AdminProductsViewModel.kt:248-252 | the form's product id, if it has one; nothing else |
| AdminProductsViewModel.AdminProductsViewModel.CompleteReloadDetail | feature/adminProducts/src/main/java/com/example/blockfile/feature/adminproducts/AdminProductsViewModel.kt:253-257 | the file flag and the images sorted by position are refreshed; a failure is swallowed and changes nothing |
| AdminProductsViewModel.AdminProductsViewModel.UploadFileForCurrentProduct | feature/adminProducts/src/main/java/com/example/blockfile/feature/adminproducts/AdminProductsViewModel.kt:261-266 | nothing happens without a form id; otherwise loading and the two upload parts for that product |
| AdminProductsViewModel.AdminProductsViewModel.AddImageForCurrentProduct | feature/adminProducts/src/main/java/com/example/blockfile/feature/adminproducts/AdminProductsViewModel.kt:278-283 | nothing happens without a form id; otherwise loading and the image parts, the position only when given |
| AdminProductsViewModel.AdminProductsViewModel.CompleteFileAction | feature/adminProducts/src/main/java/com/example/blockfile/feature/adminproducts/AdminProductsViewModel.kt:267-274 | success ends loading and reloads the form's product; a failure shows its message or the fallback |
| AdminProductsViewModel.AdminProductsViewModel.MoveImageUp | feature/adminProducts/src/main/java/com/example/blockfile/feature/adminproducts/AdminProductsViewModel.kt:295-299 | the image's id with the earlier position, never below 1 |
| AdminProductsViewModel.AdminProductsViewModel.MoveImageDown | feature/adminProducts/src/main/java/com/example/blockfile/feature/adminproducts/AdminProductsViewModel.kt:307-311 | the image's id with the next position |
| AdminProductsViewModel.AdminProductsViewModel.DeleteImage | feature/adminProducts/src/main/java/com/example/blockfile/feature/adminproducts/AdminProductsViewModel.kt:319-322 | the image's own id |
| AdminProductsViewModel.AdminProductsViewModel.CompleteImageAction | feature/adminProducts/src/main/java/com/example/blockfile/feature/adminproducts/AdminProductsViewModel.kt:299-327 | success reloads the form's product without touching the state; a failure shows its message without any loading flag |
| AdminCategoriesViewModel.QueryFor | feature/adminCategories/src/main/java/com/example/blockfile/feature/admincategories/AdminCategoriesViewModel.kt:77-86 | the id filter is sent exactly when it parses as a Long; blank name and description filters are left out exactly, the others sent as typed |
| AdminCategoriesViewModel.IdFilterFaithful | feature/adminCategories/src/main/java/com/example/blockfile/feature/admincategories/AdminCategoriesViewModel.kt:77 | the id the server receives reads back as the number the filter parses to |
| AdminCategoriesViewModel.FormRequest | feature/adminCategories/src/main/java/com/example/blockfile/feature/admincategories/AdminCategoriesViewModel.kt:141-157 | saved exactly when the trimmed name is non-blank, with the form id and the trimmed name and description; otherwise "El nombre de la categoría es obligatorio." |
| AdminCategoriesViewModel.EditForm | feature/adminCategories/src/main/java/com/example/blockfile/feature/admincategories/AdminCategoriesViewModel.kt:116-125 | the edit dialog opens in edit mode on the row's id, name and description, clearing the error; list, filters and delete dialog untouched |
| AdminCategoriesViewModel.EditThenSubmitRoundTrip | feature/adminCategories/src/main/java/com/example/blockfile/feature/admincategories/AdminCategoriesViewModel.kt:116-157 | editing a row and submitting it untouched updates that same category with the same, already trimmed, texts |
| AdminCategoriesViewModel.AdminCategoriesViewModel.constructor | feature/adminCategories/src/main/java/com/example/blockfile/feature/admincategories/AdminCategoriesViewModel.kt:48-53 | the default state with the first page requested at once |
| AdminCategoriesViewModel.AdminCategoriesViewModel.OnIdChange | feature/adminCategories/src/main/java/com/example/blockfile/feature/admincategories/AdminCategoriesViewModel.kt:57-59 | the id filter as typed, and nothing else changes |
| AdminCategoriesViewModel.AdminCategoriesViewModel.OnNombreChange | feature/adminCategories/src/main/java/com/example/blockfile/feature/admincategories/AdminCategoriesViewModel.kt:61-63 | the name filter changes and nothing else |
| AdminCategoriesViewModel.AdminCategoriesViewModel.OnDescripcionChange | feature/adminCategories/src/main/java/com/example/blockfile/feature/admincategories/AdminCategoriesViewModel.kt:65-67 | the description filter changes and nothing else |
| AdminCategoriesViewModel.AdminCategoriesViewModel.IrPagina | feature/adminCategories/src/main/java/com/example/blockfile/feature/admincategories/AdminCategoriesViewModel.kt:73-86 | loading with the error cleared; the page goes out as requested, with no bound |
| AdminCategoriesViewModel.AdminCategoriesViewModel.BuscarPrimeraPagina | feature/adminCategories/src/main/java/com/example/blockfile/feature/admincategories/AdminCategoriesViewModel.kt:69-71 | a load of page 1 with the current filters |
| AdminCategoriesViewModel.AdminCategoriesViewModel.CompleteIrPagina | feature/adminCategories/src/main/java/com/example/blockfile/feature/admincategories/AdminCategoriesViewModel.kt:88-99 | a page replaces items, page and count; a failure shows its message or "Error al cargar categorías" |
| AdminCategoriesViewModel.AdminCategoriesViewModel.OnAddClick | feature/adminCategories/src/main/java/com/example/blockfile/feature/admincategories/AdminCategoriesViewModel.kt:105-114 | an empty create form with the error cleared, which does not validate until a name is typed |
| AdminCategoriesViewModel.AdminCategoriesViewModel.OnEditClick | feature/adminCategories/src/main/java/com/example/blockfile/feature/admincategories/AdminCategoriesViewModel.kt:116-125 | the edit form filled from the row itself, in edit mode with its id |
| AdminCategoriesViewModel.AdminCategoriesViewModel.OnDismissDialog | feature/adminCategories/src/main/java/com/example/blockfile/feature/admincategories/AdminCategoriesViewModel.kt:127-131 | the dialog closes and the form keeps its contents |
| AdminCategoriesViewModel.AdminCategoriesViewModel.OnFormNombreChange | feature/adminCategories/src/main/java/com/example/blockfile/feature/admincategories/AdminCategoriesViewModel.kt:133-135 | the form's name changes and nothing else |
| AdminCategoriesViewModel.AdminCategoriesViewModel.OnFormDescripcionChange | feature/adminCategories/src/main/java/com/example/blockfile/feature/admincategories/AdminCategoriesViewModel.kt:137-139 | the form's description changes and nothing else |
| AdminCategoriesViewModel.AdminCategoriesViewModel.SubmitForm | feature/adminCategories/src/main/java/com/example/blockfile/feature/admincategories/AdminCategoriesViewModel.kt:141-151 | an invalid form only shows the required-name message; a valid one sends the validated request and shows loading |
| AdminCategoriesViewModel.AdminCategoriesViewModel.CompleteSubmit | feature/adminCategories/src/main/java/com/example/blockfile/feature/admincategories/AdminCategoriesViewModel.kt:152-170 | success closes the dialog and reloads the page shown; a failure shows its message or the fallback |
| AdminCategoriesViewModel.AdminCategoriesViewModel.OnDeleteClick | feature/adminCategories/src/main/java/com/example/blockfile/feature/admincategories/AdminCategoriesViewModel.kt:175-181 | the confirmation opens for that row with the error cleared |
| AdminCategoriesViewModel.AdminCategoriesViewModel.OnDismissDeleteDialog | feature/adminCategories/src/main/java/com/example/blockfile/feature/admincategories/AdminCategoriesViewModel.kt:183-188 | the confirmation closes and forgets its row |
| AdminCategoriesViewModel.AdminCategoriesViewModel.OnConfirmDelete | feature/adminCategories/src/main/java/com/example/blockfile/feature/admincategories/AdminCategoriesViewModel.kt:190-196 | without a row nothing happens; otherwise loading and that row's id is sent |
| AdminCategoriesViewModel.AdminCategoriesViewModel.CompleteDelete | feature/adminCategories/src/main/java/com/example/blockfile/feature/admincategories/AdminCategoriesViewModel.kt:197-210 | success closes the confirmation, forgets the row and reloads the same page; a failure shows its message or the fallback |
| AdminUsersViewModel.ReplaceT | feature/adminUsers/src/main/java/com/example/blockfile/feature/adminusers/AdminUsersViewModel.kt:112 | same length, every T turned into a space and every other character in place |
| AdminUsersViewModel.PrettyDate | feature/adminUsers/src/main/java/com/example/blockfile/feature/adminusers/AdminUsersViewModel.kt:111-113 | an absent date shows as an em dash; a present one as its first 19 characters with no T left in them |
| AdminUsersViewModel.IsoTimestampShown | feature/adminUsers/src/main/java/com/example/blockfile/feature/adminusers/AdminUsersViewModel.kt:111-113 | an ISO timestamp date-T-time shows as the date, a space and hh:mm:ss |
| AdminUsersViewModel.QueryFor | feature/adminUsers/src/main/java/com/example/blockfile/feature/adminusers/AdminUsersViewModel.kt:78-87 | the id filter is sent exactly when it parses as a Long; blank name and balance filters are left out exactly, the others sent as typed |
| AdminUsersViewModel.EditForm | feature/adminUsers/src/main/java/com/example/blockfile/feature/adminusers/AdminUsersViewModel.kt:109-124 | the edit dialog opens on the detail's id and name; a missing e-mail or balance shows as the empty string, the date as `PrettyDate`; list, filters and delete dialog untouched |
| AdminUsersViewModel.SubmitRequest | feature/adminUsers/src/main/java/com/example/blockfile/feature/adminusers/AdminUsersViewModel.kt:141-148 | nothing without a user in the form; a blank trimmed balance gives "El saldo es obligatorio."; otherwise the form's user with the trimmed balance |
| AdminUsersViewModel.EditThenSubmit | feature/adminUsers/src/main/java/com/example/blockfile/feature/adminusers/AdminUsersViewModel.kt:105-153 | opening a user and saving at once sends back the balance the server gave, trimmed; a user without a balance cannot be saved untouched |
| AdminUsersViewModel.AdminUsersViewModel.constructor | feature/adminUsers/src/main/java/com/example/blockfile/feature/adminusers/AdminUsersViewModel.kt:50-55 | the default state with the first page requested at once |
| AdminUsersViewModel.AdminUsersViewModel.OnIdChange | feature/adminUsers/src/main/java/com/example/blockfile/feature/adminusers/AdminUsersViewModel.kt:58-60 | the id filter as typed, and nothing else changes |
| AdminUsersViewModel.AdminUsersViewModel.OnNombreChange | feature/adminUsers/src/main/java/com/example/blockfile/feature/adminusers/AdminUsersViewModel.kt:62-64 | the name filter changes and nothing else |
| AdminUsersViewModel.AdminUsersViewModel.OnSaldoChange | feature/adminUsers/src/main/java/com/example/blockfile/feature/adminusers/AdminUsersViewModel.kt:66-68 | the balance filter changes and nothing else |
| AdminUsersViewModel.AdminUsersViewModel.IrPagina | feature/adminUsers/src/main/java/com/example/blockfile/feature/adminusers/AdminUsersViewModel.kt:74-87 | loading with the error cleared; the page goes out as requested, with no bound |
| AdminUsersViewModel.AdminUsersViewModel.BuscarPrimeraPagina | feature/adminUsers/src/main/java/com/example/blockfile/feature/adminusers/AdminUsersViewModel.kt:70-72 | a load of page 1 with the current filters |
| AdminUsersViewModel.AdminUsersViewModel.CompleteIrPagina | feature/adminUsers/src/main/java/com/example/blockfile/feature/adminusers/AdminUsersViewModel.kt:89-100 | a page replaces items, page and count; a failure shows its message or "Error al cargar usuarios" |
| AdminUsersViewModel.AdminUsersViewModel.StartEditClick | feature/adminUsers/src/main/java/com/example/blockfile/feature/adminusers/AdminUsersViewModel.kt:105-109 | loading with the error cleared; the detail of the row's user is requested |
| AdminUsersViewModel.AdminUsersViewModel.CompleteEditClick | feature/adminUsers/src/main/java/com/example/blockfile/feature/adminusers/AdminUsersViewModel.kt:111-129 | the editor shows the user with absent e-mail and balance as empty text and the date prettified; a failure only shows its message |
| AdminUsersViewModel.AdminUsersViewModel.OnDismissEditDialog | feature/adminUsers/src/main/java/com/example/blockfile/feature/adminusers/AdminUsersViewModel.kt:133-135 | the editor closes and nothing else changes |
| AdminUsersViewModel.AdminUsersViewModel.OnFormSaldoChange | feature/adminUsers/src/main/java/com/example/blockfile/feature/adminusers/AdminUsersViewModel.kt:137-139 | the form's balance changes and nothing else |
| AdminUsersViewModel.AdminUsersViewModel.SubmitForm | feature/adminUsers/src/main/java/com/example/blockfile/feature/adminusers/AdminUsersViewModel.kt:141-151 | nothing without a user; a blank balance only shows the required message; otherwise the request goes out with loading shown |
| AdminUsersViewModel.AdminUsersViewModel.CompleteSubmit | feature/adminUsers/src/main/java/com/example/blockfile/feature/adminusers/AdminUsersViewModel.kt:152-165 | success closes the editor and reloads the page shown; a failure shows its message or the fallback |
| AdminUsersViewModel.AdminUsersViewModel.OnDeleteClickFromDialog | feature/adminUsers/src/main/java/com/example/blockfile/feature/adminusers/AdminUsersViewModel.kt:169-171 | the confirmation opens over the editor |
| AdminUsersViewModel.AdminUsersViewModel.OnDismissDeleteDialog | feature/adminUsers/src/main/java/com/example/blockfile/feature/adminusers/AdminUsersViewModel.kt:173-175 | the confirmation closes and the editor stays |
| AdminUsersViewModel.AdminUsersViewModel.OnConfirmDelete | feature/adminUsers/src/main/java/com/example/blockfile/feature/adminusers/AdminUsersViewModel.kt:177-183 | nothing without a user in the form; otherwise loading and that user's id is sent |
| AdminUsersViewModel.AdminUsersViewModel.CompleteDelete | feature/adminUsers/src/main/java/com/example/blockfile/feature/adminusers/AdminUsersViewModel.kt:184-196 | success closes both dialogs and reloads the page shown; a failure shows its message or the fallback |
| CatalogViewModel.TargetPage | feature/catalog/src/main/java/com/example/blockfile/feature/catalog/CatalogViewModel.kt:54-57 | the request clamped to the pages that exist: between 1 and the page count (at least 1), unchanged when already in range |
| CatalogViewModel.QueryFor | feature/catalog/src/main/java/com/example/blockfile/feature/catalog/CatalogViewModel.kt:63-68 | the page as given; each filter left out exactly when blank, and a filter that is sent is the text as typed |
| CatalogViewModel.TargetPageStable | feature/catalog/src/main/java/com/example/blockfile/feature/catalog/CatalogViewModel.kt:54-57 | clamping twice is clamping once, and with a known page count paging never leaves the existing pages |
| CatalogViewModel.SearchDependsOnlyOnFilters | feature/catalog/src/main/java/com/example/blockfile/feature/catalog/CatalogViewModel.kt:50-52 | a search loads the same request for any two states with the same filters, whatever page they show |
| CatalogViewModel.CatalogViewModel.constructor | feature/catalog/src/main/java/com/example/blockfile/feature/catalog/CatalogViewModel.kt:31-36 | the default state with the first page requested at once |
| CatalogViewModel.CatalogViewModel.OnNombreChange | feature/catalog/src/main/java/com/example/blockfile/feature/catalog/CatalogViewModel.kt:38-40 | the name filter as typed, with the error cleared |
| CatalogViewModel.CatalogViewModel.OnAutorChange | feature/catalog/src/main/java/com/example/blockfile/feature/catalog/CatalogViewModel.kt:42-44 | the author filter as typed, with the error cleared |
| CatalogViewModel.CatalogViewModel.OnCategoriaChange | feature/catalog/src/main/java/com/example/blockfile/feature/catalog/CatalogViewModel.kt:46-48 | the category filter as typed, with the error cleared |
| CatalogViewModel.CatalogViewModel.LoadPage | feature/catalog/src/main/java/com/example/blockfile/feature/catalog/CatalogViewModel.kt:59-68 | loading with the error cleared; the request from the filters as they stand |
| CatalogViewModel.CatalogViewModel.CompleteLoadPage | feature/catalog/src/main/java/com/example/blockfile/feature/catalog/CatalogViewModel.kt:69-80 | a page replaces page, count and items; a failure keeps them and shows its message or "Error desconocido" |
| CatalogViewModel.CatalogViewModel.Buscar | feature/catalog/src/main/java/com/example/blockfile/feature/catalog/CatalogViewModel.kt:50-52 | always the first page with the current filters |
| CatalogViewModel.CatalogViewModel.IrPagina | feature/catalog/src/main/java/com/example/blockfile/feature/catalog/CatalogViewModel.kt:54-57 | the requested page clamped to the existing pages |
| ProductDetailViewModel.ClampRating | feature/productdetail/src/main/java/com/example/blockfile/feature/productdetail/ProductDetailViewModel.kt:195 | the closest star count in 1..5, unchanged when already in range |
| ProductDetailViewModel.CommentToSend | feature/productdetail/src/main/java/com/example/blockfile/feature/productdetail/ProductDetailViewModel.kt:148-155 | a comment goes out exactly when its text is not blank, as the trimmed, non-empty text; otherwise "El comentario no puede estar vacío." |
| ProductDetailViewModel.CommentToSendIdempotent | feature/productdetail/src/main/java/com/example/blockfile/feature/productdetail/ProductDetailViewModel.kt:148-155 | sending the comment exactly as it was sent gives the same request: trimming is already done |
| ProductDetailViewModel.RatingToSend | feature/productdetail/src/main/java/com/example/blockfile/feature/productdetail/ProductDetailViewModel.kt:201-208 | a rating goes out exactly when it lies in 1..5, unchanged; otherwise the out-of-range message |
| ProductDetailViewModel.SelectedRatingAccepted | feature/productdetail/src/main/java/com/example/blockfile/feature/productdetail/ProductDetailViewModel.kt:193-208 | a rating chosen through the selector is always accepted; only the initial no-rating is refused |
| ProductDetailViewModel.ProductDetailViewModel.constructor | feature/productdetail/src/main/java/com/example/blockfile/feature/productdetail/ProductDetailViewModel.kt:64-84 | the view model for the route's product with every state at its default and the detail loading |
| ProductDetailViewModel.ProductDetailViewModel.Load | feature/productdetail/src/main/java/com/example/blockfile/feature/productdetail/ProductDetailViewModel.kt:86-90 | loading with the error cleared, and this product's detail requested |
| ProductDetailViewModel.ProductDetailViewModel.CompleteLoad | feature/productdetail/src/main/java/com/example/blockfile/feature/productdetail/ProductDetailViewModel.kt:91-102 | the state rebuilt from scratch: the detail on success; on failure the message and no detail at all |
| ProductDetailViewModel.ProductDetailViewModel.DownloadProduct | feature/productdetail/src/main/java/com/example/blockfile/feature/productdetail/ProductDetailViewModel.kt:106-114 | downloading with the previous file and error cleared, for this product |
| ProductDetailViewModel.ProductDetailViewModel.CompleteDownload | feature/productdetail/src/main/java/com/example/blockfile/feature/productdetail/ProductDetailViewModel.kt:115-125 | the saved file on success; a failure shows its message or "Error al descargar el archivo." |
| ProductDetailViewModel.ProductDetailViewModel.OpenCommentDialog | feature/productdetail/src/main/java/com/example/blockfile/feature/productdetail/ProductDetailViewModel.kt:132-134 | a fresh open dialog, earlier text and messages gone |
| ProductDetailViewModel.ProductDetailViewModel.DismissCommentDialog | feature/productdetail/src/main/java/com/example/blockfile/feature/productdetail/ProductDetailViewModel.kt:136-138 | the dialog closed and reset |
| ProductDetailViewModel.ProductDetailViewModel.OnCommentTextChange | feature/productdetail/src/main/java/com/example/blockfile/feature/productdetail/ProductDetailViewModel.kt:140-146 | the text as typed with error and success cleared |
| ProductDetailViewModel.ProductDetailViewModel.SendComment | feature/productdetail/src/main/java/com/example/blockfile/feature/productdetail/ProductDetailViewModel.kt:148-163 | a blank comment only shows the empty-comment message; otherwise the trimmed text goes out with sending shown |
| ProductDetailViewModel.ProductDetailViewModel.CompleteSendComment | feature/productdetail/src/main/java/com/example/blockfile/feature/productdetail/ProductDetailViewModel.kt:164-179 | success reloads the detail, empties the text and confirms; a failure shows its message or the fallback and reloads nothing |
| ProductDetailViewModel.ProductDetailViewModel.OpenRatingDialog | feature/productdetail/src/main/java/com/example/blockfile/feature/productdetail/ProductDetailViewModel.kt:185-187 | a fresh open dialog with no rating selected |
| ProductDetailViewModel.ProductDetailViewModel.DismissRatingDialog | feature/productdetail/src/main/java/com/example/blockfile/feature/productdetail/ProductDetailViewModel.kt:189-191 | the dialog closed and reset |
| ProductDetailViewModel.ProductDetailViewModel.OnRatingSelected | feature/productdetail/src/main/java/com/example/blockfile/feature/productdetail/ProductDetailViewModel.kt:193-199 | the stars clamped to 1..5 with error and success cleared |
| ProductDetailViewModel.ProductDetailViewModel.SendRating | feature/productdetail/src/main/java/com/example/blockfile/feature/productdetail/ProductDetailViewModel.kt:201-217 | with no rating selected only the range message shows; otherwise the rating goes out with sending shown |
| ProductDetailViewModel.ProductDetailViewModel.CompleteSendRating | feature/productdetail/src/main/java/com/example/blockfile/feature/productdetail/ProductDetailViewModel.kt:217-230 | success reloads the detail for the new average and confirms; a failure shows its message or the fallback |
| ProductDetailViewModel.ProductDetailViewModel.BuyProduct | feature/productdetail/src/main/java/com/example/blockfile/feature/productdetail/ProductDetailViewModel.kt:235-243 | buying with error and success cleared, for this product |
| ProductDetailViewModel.ProductDetailViewModel.CompleteBuy | feature/productdetail/src/main/java/com/example/blockfile/feature/productdetail/ProductDetailViewModel.kt:244-257 | the detail the purchase returned replaces the shown one and the purchase is confirmed; a failure leaves the page as it was |
| RankingsViewModel.Started | feature/rankings/src/main/java/com/example/blockfile/feature/rankings/RankingsViewModel.kt:56 | a tab's load starts: loading with no error, items and counters kept |
| RankingsViewModel.Finished | feature/rankings/src/main/java/com/example/blockfile/feature/rankings/RankingsViewModel.kt:57-74 | a tab's load ends not loading: a page replaces items, page and count together; a failure keeps all three and records its message or "Error desconocido" |
| RankingsViewModel.LoadCycle | feature/rankings/src/main/java/com/example/blockfile/feature/rankings/RankingsViewModel.kt:54-76 | a whole load ends not loading, showing the new page with no error on success, or the old items under an error on failure |
| RankingsViewModel.RankingsViewModel.constructor | feature/rankings/src/main/java/com/example/blockfile/feature/rankings/RankingsViewModel.kt:39-40 | the first tab selected and nothing loaded until a tab is selected |
| RankingsViewModel.RankingsViewModel.SelectTab | feature/rankings/src/main/java/com/example/blockfile/feature/rankings/RankingsViewModel.kt:42-52 | the tab becomes the selected one, and its first page is requested exactly when it has no items; only that tab starts loading |
| RankingsViewModel.RankingsViewModel.LoadPMC | feature/rankings/src/main/java/com/example/blockfile/feature/rankings/RankingsViewModel.kt:54-56 | only the most-bought tab starts loading, for the page requested |
| RankingsViewModel.RankingsViewModel.CompleteLoadPMC | feature/rankings/src/main/java/com/example/blockfile/feature/rankings/RankingsViewModel.kt:57-75 | only the most-bought tab takes the result |
| RankingsViewModel.RankingsViewModel.LoadMC | feature/rankings/src/main/java/com/example/blockfile/feature/rankings/RankingsViewModel.kt:78-80 | only the best-buyers tab starts loading, for the page requested |
| RankingsViewModel.RankingsViewModel.CompleteLoadMC | feature/rankings/src/main/java/com/example/blockfile/feature/rankings/RankingsViewModel.kt:81-99 | only the best-buyers tab takes the result |
| RankingsViewModel.RankingsViewModel.LoadPMCal | feature/rankings/src/main/java/com/example/blockfile/feature/rankings/RankingsViewModel.kt:102-104 | only the best-rated tab starts loading, for the page requested |
| RankingsViewModel.RankingsViewModel.CompleteLoadPMCal | feature/rankings/src/main/java/com/example/blockfile/feature/rankings/RankingsViewModel.kt:105-123 | only the best-rated tab takes the result |
| ProfileViewModel.SaveRequest | feature/profile/src/main/java/com/example/blockfile/feature/profile/ProfileViewModel.kt:116-120 | name and e-mail as they stand; the password is left out exactly when blank, otherwise sent as typed |
| ProfileViewModel.WithPerfil | feature/profile/src/main/java/com/example/blockfile/feature/profile/ProfileViewModel.kt:62-69 | the loaded profile is shown and its name and e-mail fill the form, with the password field emptied; the save flags are untouched |
| ProfileViewModel.SaveAfterLoadKeepsPassword | feature/profile/src/main/java/com/example/blockfile/feature/profile/ProfileViewModel.kt:63-69 | saving a freshly shown profile sends its name and e-mail back and never a password |
| ProfileViewModel.ProfileViewModel.constructor | feature/profile/src/main/java/com/example/blockfile/feature/profile/ProfileViewModel.kt:47-51 | both states at their defaults; nothing is loaded until loadInitial |
| ProfileViewModel.ProfileViewModel.LoadPerfil | feature/profile/src/main/java/com/example/blockfile/feature/profile/ProfileViewModel.kt:58-60 | loading with the load error and an earlier save confirmation cleared |
| ProfileViewModel.ProfileViewModel.CompleteLoadPerfil | feature/profile/src/main/java/com/example/blockfile/feature/profile/ProfileViewModel.kt:61-75 | the profile fills the form with the password emptied; a failure only shows its message |
| ProfileViewModel.ProfileViewModel.LoadCompras | feature/profile/src/main/java/com/example/blockfile/feature/profile/ProfileViewModel.kt:79-81 | the purchases start loading for the page requested |
| ProfileViewModel.ProfileViewModel.CompleteLoadCompras | feature/profile/src/main/java/com/example/blockfile/feature/profile/ProfileViewModel.kt:82-95 | a page replaces items, page and count; a failure keeps them and shows its message |
| ProfileViewModel.ProfileViewModel.LoadInitial | feature/profile/src/main/java/com/example/blockfile/feature/profile/ProfileViewModel.kt:53-56 | the profile and the first page of purchases both start at once |
| ProfileViewModel.ProfileViewModel.OnNombreChange | feature/profile/src/main/java/com/example/blockfile/feature/profile/ProfileViewModel.kt:99-101 | the name as typed with the save error and confirmation cleared |
| ProfileViewModel.ProfileViewModel.OnCorreoChange | feature/profile/src/main/java/com/example/blockfile/feature/profile/ProfileViewModel.kt:103-105 | the e-mail as typed with the save error and confirmation cleared |
| ProfileViewModel.ProfileViewModel.OnContrasenaChange | feature/profile/src/main/java/com/example/blockfile/feature/profile/ProfileViewModel.kt:107-109 | the password as typed with the save error and confirmation cleared |
| ProfileViewModel.ProfileViewModel.GuardarCambios | feature/profile/src/main/java/com/example/blockfile/feature/profile/ProfileViewModel.kt:111-120 | saving with the error and confirmation cleared; the request is built from the form as it stood |
| ProfileViewModel.ProfileViewModel.CompleteGuardarCambios | feature/profile/src/main/java/com/example/blockfile/feature/profile/ProfileViewModel.kt:121-135 | the server's profile fills the form with the password emptied and success flagged; a failure keeps what was typed and shows its message |
| AdminProfileViewModel.SaveBody | feature/profile/src/main/java/com/example/blockfile/feature/profile/AdminProfileViewModel.kt:69-79 | nothing while no profile is loaded; otherwise the loaded id with the fields as they stand |
| AdminProfileViewModel.ServerBodyNotShown | feature/profile/src/main/java/com/example/blockfile/feature/profile/AdminProfileViewModel.kt:80-92 | a failed save shows the HTTP client's own text, whatever message the server put in its body |
| AdminProfileViewModel.AdminProfileViewModel.constructor | feature/profile/src/main/java/com/example/blockfile/feature/profile/AdminProfileViewModel.kt:31-32 | the default state, nothing loaded |
| AdminProfileViewModel.AdminProfileViewModel.LoadProfile | feature/profile/src/main/java/com/example/blockfile/feature/profile/AdminProfileViewModel.kt:34-39 | ignored while a load is running; otherwise loading with error and confirmation cleared, and that user's profile requested |
| AdminProfileViewModel.AdminProfileViewModel.CompleteLoadProfile | feature/profile/src/main/java/com/example/blockfile/feature/profile/AdminProfileViewModel.kt:40-52 | every field from the server, its id included; a failure only shows its message or the fallback |
| AdminProfileViewModel.AdminProfileViewModel.OnNombreChange | feature/profile/src/main/java/com/example/blockfile/feature/profile/AdminProfileViewModel.kt:56-58 | the name as typed with error and confirmation cleared |
| AdminProfileViewModel.AdminProfileViewModel.OnCorreoChange | feature/profile/src/main/java/com/example/blockfile/feature/profile/AdminProfileViewModel.kt:60-62 | the e-mail as typed with error and confirmation cleared |
| AdminProfileViewModel.AdminProfileViewModel.OnContrasenaChange | feature/profile/src/main/java/com/example/blockfile/feature/profile/AdminProfileViewModel.kt:64-66 | the password as typed with error and confirmation cleared |
| AdminProfileViewModel.AdminProfileViewModel.SaveProfile | feature/profile/src/main/java/com/example/blockfile/feature/profile/AdminProfileViewModel.kt:68-80 | nothing before a profile is loaded or while a save runs; otherwise saving and the form goes out under the loaded id |
| AdminProfileViewModel.AdminProfileViewModel.CompleteSaveProfile | feature/profile/src/main/java/com/example/blockfile/feature/profile/AdminProfileViewModel.kt:81-93 | name, e-mail and password replaced by the server's reply with the id kept and a confirmation; a failure keeps what was typed |
| AuthViewModel.LoginRequestFor | feature/auth/src/main/java/com/example/blockfile/feature/auth/AuthViewModel.kt:53-58 | a login sends nothing while one is running, otherwise exactly the name and password as typed |
| AuthViewModel.RegisterRequestFor | feature/auth/src/main/java/com/example/blockfile/feature/auth/AuthViewModel.kt:88-97 | a registration sends nothing while one is running, otherwise exactly the name, e-mail and password as typed |
| AuthViewModel.OneRequestAtATime | feature/auth/src/main/java/com/example/blockfile/feature/auth/AuthViewModel.kt:53-58 | once a login or registration has started, another tap sends nothing, even after a field is edited, until the first completes |
| AuthViewModel.AuthViewModel.constructor | feature/auth/src/main/java/com/example/blockfile/feature/auth/AuthViewModel.kt:39-43 | both forms start empty, idle, with no error, no user id and no admin role |
| AuthViewModel.AuthViewModel.OnLoginNombreChange | feature/auth/src/main/java/com/example/blockfile/feature/auth/AuthViewModel.kt:45-47 | the login name as typed with the login error cleared; the registration form is untouched |
| AuthViewModel.AuthViewModel.OnLoginContrasenaChange | feature/auth/src/main/java/com/example/blockfile/feature/auth/AuthViewModel.kt:49-51 | the login password as typed with the login error cleared |
| AuthViewModel.AuthViewModel.Login | feature/auth/src/main/java/com/example/blockfile/feature/auth/AuthViewModel.kt:53-58 | ignored while a login runs; otherwise loading with the error cleared, and the typed credentials are what goes out |
| AuthViewModel.AuthViewModel.CompleteLogin | feature/auth/src/main/java/com/example/blockfile/feature/auth/AuthViewModel.kt:59-70 | success stores the user id and role and calls back with that role; failure shows the message (or the fallback) and calls nothing |
| AuthViewModel.AuthViewModel.OnRegisterNombreChange | feature/auth/src/main/java/com/example/blockfile/feature/auth/AuthViewModel.kt:76-78 | the registration name as typed with the registration error cleared; the login form is untouched |
| AuthViewModel.AuthViewModel.OnRegisterCorreoChange | feature/auth/src/main/java/com/example/blockfile/feature/auth/AuthViewModel.kt:80-82 | the registration e-mail as typed with the registration error cleared |
| AuthViewModel.AuthViewModel.OnRegisterContrasenaChange | feature/auth/src/main/java/com/example/blockfile/feature/auth/AuthViewModel.kt:84-86 | the registration password as typed with the registration error cleared |
| AuthViewModel.AuthViewModel.Register | feature/auth/src/main/java/com/example/blockfile/feature/auth/AuthViewModel.kt:88-97 | ignored while a registration runs; otherwise loading with the error cleared, and the three typed fields go out |
| AuthViewModel.AuthViewModel.CompleteRegister | feature/auth/src/main/java/com/example/blockfile/feature/auth/AuthViewModel.kt:98-105 | success is flagged and the callback runs; failure shows the message (or the fallback) and the callback does not run |
| Common.MapSeq | core/data/src/main/java/com/example/blockfile/core/data/repository/CatalogRepository.kt:45 | one mapped element per row, same length, same order |
| Common.ToPage | core/data/src/main/java/com/example/blockfile/core/data/repository/CatalogRepository.kt:45-51 | a page keeps the reply's page number and page count and maps every row in order |
| Common.CoerceAtLeast | feature/adminProducts/src/main/java/com/example/blockfile/feature/adminproducts/AdminProductsViewModel.kt:86 | the result is at least the bound and at least the input, and is one of the two |
| Common.CoerceIn | feature/catalog/src/main/java/com/example/blockfile/feature/catalog/CatalogViewModel.kt:55 | the result lies in the range, equals the input inside it and the nearer end outside it |
| Common.Wrap32 | feature/adminProducts/src/main/java/com/example/blockfile/feature/adminproducts/AdminProductsViewModel.kt:297 | the result is a 32-bit Int, equals the input when that fits, and differs from it by a multiple of 2^32 |
| Errors.UncaughtMessage | feature/adminProducts/src/main/java/com/example/blockfile/feature/adminproducts/AdminProductsViewModel.kt:109-113 | a connection failure gives its own message; an HTTP failure gives "HTTP <code> <status text>" |
| Errors.Uncaught | feature/adminProducts/src/main/java/com/example/blockfile/feature/adminproducts/AdminProductsViewModel.kt:109-113 | a reply is the value; any failure propagates with the exception's message |
| Errors.RawBodyMessage | core/data/src/main/java/com/example/blockfile/core/data/repository/ProfileRepository.kt:110-113 | the raw error body when there is one, otherwise "Error del servidor (<code>)." |
| Errors.ConnectionIsNotServerError | core/data/src/main/java/com/example/blockfile/core/data/repository/CatalogRepository.kt:52-55 | the connection message differs from every server-error message, whatever the code |
| Errors.ServerErrorDot | core/data/src/main/java/com/example/blockfile/core/data/repository/ProfileRepository.kt:112 | "Error del servidor (", then the status code, which reads back as that code, then ")." |
| Errors.ServerError | core/data/src/main/java/com/example/blockfile/core/data/repository/ProductDetailRepository.kt:36 | "Error del servidor (", the status code (which reads back), then ")" |
| Errors.ServerErrorCatalog | core/data/src/main/java/com/example/blockfile/core/data/repository/CatalogRepository.kt:53 | "Error en servidor (", the status code (which reads back), then ")" |
| Errors.HttpExceptionMessage | feature/adminProducts/src/main/java/com/example/blockfile/feature/adminproducts/AdminProductsViewModel.kt:112 | "HTTP ", the status code (which reads back), a space, then the status text unchanged |
| Text.CodeReadsBack | core/data/src/main/java/com/example/blockfile/core/data/repository/ProductFileRepository.kt:36 | a Long written between a fixed prefix and suffix parses back from the characters between them |
| Text.TrimStart | feature/adminProducts/src/main/java/com/example/blockfile/feature/adminproducts/AdminProductsViewModel.kt:199-209 | what remains is a suffix, everything dropped is whitespace, and it does not start with whitespace |
| Text.TrimEnd | feature/adminProducts/src/main/java/com/example/blockfile/feature/adminproducts/AdminProductsViewModel.kt:199-209 | what remains is a prefix, everything dropped is whitespace, and it does not end with whitespace |
| Text.Trim | feature/adminProducts/src/main/java/com/example/blockfile/feature/adminproducts/AdminProductsViewModel.kt:199-209 | the trimmed text is a slice of the input with only whitespace cut on each side, and neither starts nor ends with whitespace |
| Text.CutBothEnds | feature/adminProducts/src/main/java/com/example/blockfile/feature/adminproducts/AdminProductsViewModel.kt:199-209 | cutting whitespace off the front and then the back leaves a slice of the input with only whitespace on either side of it |
| Text.TrimEmptyIffBlank | feature/adminProducts/src/main/java/com/example/blockfile/feature/adminproducts/AdminProductsViewModel.kt:199-209 | trimming gives the empty string exactly when the input is blank |
| Text.TrimBlankIffBlank | feature/adminCategories/src/main/java/com/example/blockfile/feature/admincategories/AdminCategoriesViewModel.kt:142-143 | testing blankness after trimming decides the same as before |
| Text.TrimKeeps | feature/productdetail/src/main/java/com/example/blockfile/feature/productdetail/ProductDetailViewModel.kt:149 | text that starts and ends with a non-whitespace character is unchanged by trimming |
| Text.TakeIfNotBlank | core/data/src/main/java/com/example/blockfile/core/data/repository/CatalogRepository.kt:40-42 | absent or blank filters become absent; any other filter passes unchanged |
| Text.NullIfBlank | feature/profile/src/main/java/com/example/blockfile/feature/profile/ProfileViewModel.kt:119 | a blank string becomes null, any other string is kept as it is |
| Text.TakeIfNotBlankIdempotent | core/data/src/main/java/com/example/blockfile/core/data/repository/CatalogRepository.kt:40-42 | normalising a filter twice is the same as once |
| Text.FilterDigits | feature/adminProducts/src/main/java/com/example/blockfile/feature/adminproducts/AdminProductsViewModel.kt:65 | only digits remain, each digit as often as in the input, and all-digit input is unchanged |
| Text.FilterDigitsIdempotent | feature/adminProducts/src/main/java/com/example/blockfile/feature/adminproducts/AdminProductsViewModel.kt:187 | filtering digits twice is filtering once |
| Text.DigitChar | feature/adminProducts/src/main/java/com/example/blockfile/feature/adminproducts/AdminProductsViewModel.kt:94 | the digit character whose value is the given digit |
| Text.DecimalText | feature/adminProducts/src/main/java/com/example/blockfile/feature/adminproducts/AdminProductsViewModel.kt:94 | non-empty decimal digits without a leading zero |
| Text.DecimalTextValue | feature/adminProducts/src/main/java/com/example/blockfile/feature/adminproducts/AdminProductsViewModel.kt:94 | reading the decimal text of a number back gives that number |
| Text.LongText | feature/adminProducts/src/main/java/com/example/blockfile/feature/adminproducts/AdminProductsViewModel.kt:94 | digits for a non-negative number, a minus sign and digits for a negative one |
| Text.ToLongOrNull | feature/adminProducts/src/main/java/com/example/blockfile/feature/adminproducts/AdminProductsViewModel.kt:94 | null for empty input; any parsed value lies within the 64-bit Long range |
| Text.LongTextRoundTrip | feature/adminProducts/src/main/java/com/example/blockfile/feature/adminproducts/AdminProductsViewModel.kt:211-212 | parsing the text of any Long gives that Long back |
| Text.DigitsParse | feature/adminCategories/src/main/java/com/example/blockfile/feature/admincategories/AdminCategoriesViewModel.kt:77 | a digit string parses exactly when it is non-empty and fits a Long, and then to its decimal value |

## Left out

- Screens, theme, navigation, `MainActivity` and the build files: Compose UI with no state logic of its own.
- The use-case classes under `core/domain`: each forwards one call to a repository unchanged.
- Retrofit, OkHttp and Hilt wiring (`provideOkHttpClient`, `provideRetrofit`, `provideBlockFileApi`, `RepositoryModule`): configuration. The backend is the abstract `Outcome`.
- `AuthRepository`: its only logic is the raw-body error mapping already modelled as `Errors.RawBodyMessage`. `AuthViewModel` consumes its `Result`.
- JSON parsing: an error body carries the key/value object that org.json would read from it, or none when it is not an object. Parsing itself, and decoding replies into DTOs, is not modelled.
- Exceptions other than `HttpException` and `IOException` (for example a deserialisation failure) are not modelled. Only the failures of the call itself are.
- Coroutine interleavings: each start and its completion are applied as two steps, with nothing of that view model running in between. Interleaving of two in-flight requests is not modelled.
- Floating point: prices, balances and averages are carried as their `toString` text and never computed with.
- File and stream I/O of downloads and uploads: `saveResponseBodyToFile`, reading the picked file's bytes and the bytes of multipart parts. A `java.io.File` is modelled as its path, and a part as its name and text value. Only `extractFileName` and the choice of the file name are modelled from the download flow.
- Text.IsDigit, Text.ToLongOrNull: only the ASCII digits. Kotlin's `isDigit` also keeps the other Unicode decimal digits, and on the JVM `toLongOrNull` parses them too (through `Character.digit`), so "١٢" is read as 12. An id typed in such digits is sent by the app but dropped by the model (AdminProductsViewModel.kt:65 and 94, AdminCategoriesViewModel.kt:77, AdminUsersViewModel.kt:78).
- AdminUsersViewModel.PrettyDate: `take(19)` is taken over characters, while Kotlin counts UTF-16 code units. The two differ only for a date text holding characters outside the Basic Multilingual Plane.
- `AdminProductsViewModel.MoveUpOrden`, `AdminProductsViewModel.MoveDownOrden`, `AdminProductsViewModel.AdminProductsViewModel.MoveImageUp` and `AdminProductsViewModel.AdminProductsViewModel.MoveImageDown` require `orden` within Kotlin's `Int` range, the type of the source field. The arithmetic is wrapped as 32-bit.
- Page numbers the view models pass around are unbounded integers. `Int` overflow of a page number is not modelled, because pages come from the server.
- `ProductDetailViewModel`: the route argument `productId` is a constructor parameter. The case of the argument being absent from navigation is not modelled.
- The model has no runtime state beyond the view models' own fields. Hilt's scoping and the lifetime of the `ViewModel` are not modelled.
