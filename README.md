# TradeMaster plugin: catalog synchronisation and order export

This project is a Dafny model of the core of the TradeMaster ERP plugin of a
PHP storefront platform. It models five pieces and proves properties of each:

- **Catalog download** (`CatalogDownloadTask`), module `CatalogDownload`,
  file `download.dfy`:
  - upserts the ERP categories and products by `external_id`;
  - resolves category parents from the flat `idParent` values;
  - optionally prefixes addresses with the parent's address;
  - pages through the products 100 at a time;
  - soft-deletes everything the pass did not see (`buf` still null);
  - hands the photo list to the image task.
- **Order reservation** (`CartReserve`), module `CartReserve`, file
  `reserve.dfy`:
  - picks the endpoint;
  - chooses the retail or wholesale price;
  - sets the `nalich` stock-check flag;
  - joins a multi-part address;
  - classifies the ERP answer into a created order, an `exception` answer
    or an internal error.
- **Order export** (`SendOrderTask`), module `SendOrder`, file
  `send_order.dfy`:
  - refuses to send an order twice;
  - sends only products that have a TradeMaster id;
  - stores the ERP order number.
- **Catalog upload** (`CatalogUploadTask`), module `CatalogUpload`, file
  `upload.dfy`:
  - keeps only the recently changed products, when asked;
  - posts them in chunks of 100;
  - writes each chunk as an `<Attributes>` XML text built by concatenation.
- **Image download** (`DownloadImageTask`), module `DownloadImage`, file
  `images.dfy`:
  - replaces each entity's files with the ones fetched from the image cache;
  - collects the image uuids for a conversion task.

Two shared modules support them:

- `Gateway` (`gateway.dfy`) models the plugin's `api` request shaping and
  `getFilePath`. This includes `rawurlencode` with its percent-decoding
  round trip.
- `Php` (`php.dfy`) models the PHP semantics the code relies on:
  - arrays as ordered key/value lists;
  - truthiness and `empty`;
  - `implode`/`explode`, `trim`/`rtrim`;
  - PHP 8's reading of numeric strings by `(int)` and unary `+`;
  - `mb_strtoupper` on ASCII.

`Catalog` (`catalog.dfy`) holds the entities and the `firstWhere` lookup.

Where the source mutates state, the model does so as well:

- The download pass is the class `CatalogDownload.DownloadTask`, whose
  fields are the two collections, the uuid counter, the image list, the
  page requests, the progress marks, the status and the queued image task.
- The image task is the class `DownloadImage.ImageTask`.
- The upload task is `CatalogUpload.UploadTask`.
- A stored order is the class `SendOrder.Order`, whose `externalId` the
  export sets.

Each loop of the source is a method with a `while` loop. Each method is
proved equal to a specification function of its input state. The
properties the code promises are lemmas about those functions.

The code is followed where it disagrees with a plain reading of the design:

- The product download requests `count div 100 + 1` pages, not
  `ceil(count / 100)`. A count of 200 gives three requests.
- `SendOrderTask` accepts the order number '-1' like any other number.
  Only `CartReserve` rejects it.
- A category whose parent id is unknown is not attached anywhere. The code
  calls `->get` on null, which raises an `\Error`. That `\Error` escapes
  `CatalogDownloadTask`'s `catch (\Exception)` and ends the pass.
- An `idParent` without a leading number, the empty one included, ends the
  pass the same way. Under PHP 8, `+$model->buf` throws a `TypeError`,
  which is also an `\Error`. A fractional id such as ".5" is truthy, and its
  parent is looked up.
- The cascade of the sweep marks the products whose own uuid is among the
  child-category uuids, exactly as written. `CascadeSparesProducts` states
  what this means when product and category uuids differ.

## Model

| member | source | states |
|---|---|---|
| Catalog.FirstIndex | TradeMaster/Tasks/CatalogDownloadTask.php:133 | `firstWhere` returns the first element satisfying the test, and none when no element does |
| Gateway.RequestFor | TradeMaster/TradeMasterPlugin.php:363-397 | no request exactly when the key is unset; URL is `host/v{version}/endpoint`; GET: key in the query, every other parameter unchanged, no body, default timeout; otherwise POST with only the key in the query, the parameters as form body, timeout 60 |
| Gateway.RequestDefaults | TradeMaster/TradeMasterPlugin.php:363-369 | an empty argument array gives a GET to `host/v{version}/` with the key as the only query parameter; a lower-case 'post' is upper-cased into a POST |
| Gateway.Api | TradeMaster/TradeMasterPlugin.php:361-405 | the request sent is `RequestFor`'s; a missing key sends nothing and gives `[]`; a failed fetch or a falsy body gives `[]`; a truthy body is decoded |
| Gateway.RawUrlEncode | TradeMaster/TradeMasterPlugin.php:416 | the encoding holds only unreserved characters and '%'; a name of unreserved characters is unchanged |
| Gateway.RawUrlEncodeRoundTrip | TradeMaster/TradeMasterPlugin.php:416 | percent-decoding the encoded name gives exactly its UTF-8 bytes |
| Gateway.Utf8StringInjective | TradeMaster/TradeMasterPlugin.php:416 | distinct names have distinct UTF-8 bytes, so `rawurlencode` loses nothing |
| Gateway.FilePathInjective | TradeMaster/TradeMasterPlugin.php:414-417 | distinct image names get distinct cache paths |
| Gateway.TrimEncoded | TradeMaster/TradeMasterPlugin.php:416 | the `trim` around `rawurlencode` never removes a character |
| Gateway.FilePath | TradeMaster/TradeMasterPlugin.php:414-417 | the path is `cache_host + "/tradeMasterImages/" + cache_folder + "/"` followed by the encoded name, and the name part contains no '/' or space |
| Php.Find | TradeMaster/TradeMasterPlugin.php:382 | reading `$a[$k]` finds a value exactly when some entry has key `$k`, and the value found is that of such an entry |
| Php.Put | TradeMaster/TradeMasterPlugin.php:382 | after `$a[$k] = $x`, the key reads `$x`, every other key reads as before, and the array keeps its length or gains one entry at the end |
| Php.ToUpperGet | TradeMaster/TradeMasterPlugin.php:369 | exactly the case variants of "get" upper-case to "GET" |
| Php.Explode | TradeMaster/Tasks/DownloadImageTask.php:79 | `explode(';', $s)` gives at least one piece and no piece contains ';' |
| Php.ImplodeExplode | TradeMaster/Tasks/DownloadImageTask.php:79 | joining the pieces of `explode(';', $s)` with ';' gives back `$s`: no character of the photo list is lost |
| Php.ExplodeImplode | TradeMaster/Tasks/DownloadImageTask.php:79 | splitting a join of ';'-free names gives back the names |
| Php.TrimFacts | TradeMaster/Tasks/CatalogDownloadTask.php:202 | `trim` removes whitespace only, from both ends; the result neither starts nor ends with it; a string already without it is unchanged |
| Php.RTrimFacts | TradeMaster/Tasks/CatalogUploadTask.php:81 | `rtrim($s, $c)` removes exactly the trailing run of `$c` and is a prefix of `$s` |
| Php.ToIntIntToString | TradeMaster/Tasks/CatalogDownloadTask.php:181 | `(int)` on the decimal text of an integer gives the integer back |
| Php.ToIntExponentExample | TradeMaster/Tasks/CatalogDownloadTask.php:181 | `(int)` multiplies out an exponent: "1e3" is 1000 |
| Php.ToIntFractionExample | TradeMaster/Tasks/CatalogDownloadTask.php:181 | `(int)` truncates a fraction toward zero: "1.9" is 1 |
| Php.PlusThrows | TradeMaster/Tasks/CatalogDownloadTask.php:151 | under PHP 8, `+$s` throws exactly when `$s`, after whitespace and one sign, starts neither with a digit nor with '.' and a digit |
| Php.PlusIntToString | TradeMaster/Tasks/CatalogDownloadTask.php:151 | `+$s` on the decimal text of an integer does not throw, and is truthy exactly when the integer is not 0 |
| Php.PlusThrowsExamples | TradeMaster/Tasks/CatalogDownloadTask.php:151 | `+""`, `+"abc"` and `+" "` throw |
| Php.PlusFractionExample | TradeMaster/Tasks/CatalogDownloadTask.php:151 | `+".5"` is truthy |
| Php.PlusLeadingExamples | TradeMaster/Tasks/CatalogDownloadTask.php:151 | `+"0"` is falsy; `+"12abc"` is truthy, the leading number being read |
| CatalogDownload.UpsertCategoryFacts | TradeMaster/Tasks/CatalogDownloadTask.php:133-138 | an existing category with the id is replaced in place (same length); otherwise exactly one new WORK category is appended; every other category is untouched; the id then finds the new data; distinct ids stay distinct |
| CatalogDownload.UpsertCategoryIdempotent | TradeMaster/Tasks/CatalogDownloadTask.php:133-138 | upserting the same data twice equals upserting it once |
| CatalogDownload.CategoryUpsertsNext | TradeMaster/Tasks/CatalogDownloadTask.php:108-146 | the loop over one more item is one more turn |
| CatalogDownload.CategoryStepKeys | TradeMaster/Tasks/CatalogDownloadTask.php:130-145 | one turn only appends, keeps every earlier category's uuid, status and files, and keeps uuids below the fresh counter |
| CatalogDownload.CategoryUpsertsKeys | TradeMaster/Tasks/CatalogDownloadTask.php:108-146 | the category loop only appends, never changes an earlier category's uuid, status or files, and keeps every uuid below the fresh counter |
| CatalogDownload.CategoryUpsertsDistinct | TradeMaster/Tasks/CatalogDownloadTask.php:108-146 | accepted items with the same `idZvena` never produce two categories: distinct `external_id`s stay distinct |
| CatalogDownload.CategoryStepSaves | TradeMaster/Tasks/CatalogDownloadTask.php:130-138 | an item that passes `check` leaves its `$data` under its `idZvena` |
| CatalogDownload.CategoryStepKeepsOther | TradeMaster/Tasks/CatalogDownloadTask.php:130-145 | a turn keeps every category at its place under its id, and a turn for another id or a rejected item leaves it unchanged |
| CatalogDownload.CategoryUpsertsPresent | TradeMaster/Tasks/CatalogDownloadTask.php:108-146 | every accepted item has a category with its `idZvena` after the loop |
| CatalogDownload.CategoryUpsertsLastWins | TradeMaster/Tasks/CatalogDownloadTask.php:108-146 | the last accepted item with a given `idZvena` decides that category's data |
| CatalogDownload.CategoryUpsertsRejected | TradeMaster/Tasks/CatalogDownloadTask.php:130-145 | when `check` rejects every item the loop changes nothing: no category, no uuid, no image entry |
| CatalogDownload.ResolvedParent | TradeMaster/Tasks/CatalogDownloadTask.php:151-155 | a `+buf` that throws gives nothing; a falsy `+buf`, or a null `buf`, gives NIL; a truthy one gives the uuid of a category whose `external_id` is `buf`, and nothing exactly when there is none |
| CatalogDownload.ResolveParentsSpec | TradeMaster/Tasks/CatalogDownloadTask.php:149-156 | the loop changes parents only; it escapes with an `\Error` exactly when some category's `+buf` throws, or is truthy with no category whose `external_id` is `buf`; otherwise every category's parent is its resolved parent |
| CatalogDownload.ResolveEscapesAt | TradeMaster/Tasks/CatalogDownloadTask.php:149-156 | the loop stops at the first unresolvable category, with the parents of the categories before it already set |
| CatalogDownload.ResolveCompletes | TradeMaster/Tasks/CatalogDownloadTask.php:149-156 | when every parent resolves, the loop sets them all and does not escape |
| CatalogDownload.NonNumericParentEscapes | TradeMaster/Tasks/CatalogDownloadTask.php:149-152 | a category whose `idParent` is "" or "abc" makes the parent loop end in the `\Error` |
| CatalogDownload.WithParentsByExternal | TradeMaster/Tasks/CatalogDownloadTask.php:149-156 | setting parents keeps every `external_id` lookup |
| CatalogDownload.ResolveTurn | TradeMaster/Tasks/CatalogDownloadTask.php:152 | at turn `k` the lookup in the half-updated collection finds the parent the original collection gives |
| CatalogDownload.WithParentsNext | TradeMaster/Tasks/CatalogDownloadTask.php:149-156 | setting category `k`'s resolved parent extends the updated prefix by one |
| CatalogDownload.PrefixStep | TradeMaster/Tasks/CatalogDownloadTask.php:165-169 | one turn changes the address of category `k` only |
| CatalogDownload.PrefixAddresses | TradeMaster/Tasks/CatalogDownloadTask.php:160-170 | the loop keeps every uuid and leaves the categories after the current one untouched |
| CatalogDownload.PrefixAddressesOnlyAddresses | TradeMaster/Tasks/CatalogDownloadTask.php:160-170 | the address loop changes addresses and nothing else |
| CatalogDownload.PrefixAddressesSettled | TradeMaster/Tasks/CatalogDownloadTask.php:160-170 | a category's address is final after its own turn |
| CatalogDownload.PrefixAddressesFinal | TradeMaster/Tasks/CatalogDownloadTask.php:159-170 | a category's address becomes `parent.address + '/' + address` exactly when its parent is in the collection and the parent's address, as the loop sees it, does not start with the category's address; otherwise it is unchanged |
| CatalogDownload.PrefixTurn | TradeMaster/Tasks/CatalogDownloadTask.php:165 | at turn `k` the lookup by parent uuid finds the same index as in the input |
| CatalogDownload.UpsertProductFacts | TradeMaster/Tasks/CatalogDownloadTask.php:239-253 | an existing product with the id is replaced in place; otherwise exactly one new WORK product is appended; every other product is untouched; the id then finds the new data; distinct ids stay distinct |
| CatalogDownload.SavedData | TradeMaster/Tasks/CatalogDownloadTask.php:199-253 | a saved product carries its `idTovar`, `buf` = 1 and its date; its category is the uuid of the category whose `external_id` is `vStrukture`, or NIL; with auto-address its address is prefixed by that category's address |
| CatalogDownload.ProductStepShape | TradeMaster/Tasks/CatalogDownloadTask.php:198-261 | an accepted item upserts its saved data and takes a fresh uuid only when new; any other item leaves products and counter unchanged |
| CatalogDownload.ProductStepSkips | TradeMaster/Tasks/CatalogDownloadTask.php:222-232 | an unparsable `changeDate` throws and changes nothing else; an item `check` rejects changes nothing |
| CatalogDownload.ProductStepAccepted | TradeMaster/Tasks/CatalogDownloadTask.php:232-257 | the exact state after an accepted item, with an image entry of type 'product' for the model's uuid exactly when the photo is truthy and files are enabled |
| CatalogDownload.ProductStepSaves | TradeMaster/Tasks/CatalogDownloadTask.php:239-253 | an accepted item leaves its saved data under its `idTovar` |
| CatalogDownload.ProductStepKeepsOther | TradeMaster/Tasks/CatalogDownloadTask.php:239-253 | a turn that saves nothing under an id leaves the product with that id where and as it was |
| CatalogDownload.ProductStepKeys | TradeMaster/Tasks/CatalogDownloadTask.php:198-261 | a turn only appends, keeps earlier uuids, statuses and files, keeps uuids below the counter and keeps ids distinct |
| CatalogDownload.ProductItemsKeys | TradeMaster/Tasks/CatalogDownloadTask.php:198-261 | the same across all the items of a page |
| CatalogDownload.ProductItemsAppend | TradeMaster/Tasks/CatalogDownloadTask.php:186-265 | running the loop over two runs of items is running it over the first and then the second |
| CatalogDownload.ProductItemsNext | TradeMaster/Tasks/CatalogDownloadTask.php:198-261 | the loop over one more item is one more turn |
| CatalogDownload.ProductItemsAfterThrow | TradeMaster/Tasks/CatalogDownloadTask.php:86-90 | after the `\Exception`, no further item changes anything |
| CatalogDownload.ProductItemsThrowAt | TradeMaster/Tasks/CatalogDownloadTask.php:86-90 | an item that throws ends the loop: the later items change nothing |
| CatalogDownload.ProductItemsLastWins | TradeMaster/Tasks/CatalogDownloadTask.php:198-261 | without an exception, the last accepted item with a given `idTovar` decides that product's data |
| CatalogDownload.PageCount | TradeMaster/Tasks/CatalogDownloadTask.php:182-184 | the number of pages `n` is the least `n >= 1` with `100 * n > count` |
| CatalogDownload.PageCountGuard | TradeMaster/Tasks/CatalogDownloadTask.php:263-264 | after page `i` the condition `100 * i <= count` holds exactly when `i` is below the page count |
| CatalogDownload.PageCountExamples | TradeMaster/Tasks/CatalogDownloadTask.php:263-264 | counts 200 and 250 give three pages; 99 and 0 give one |
| CatalogDownload.PageRequests | TradeMaster/Tasks/CatalogDownloadTask.php:188-195 | page `i` is requested at offset `100 * i` with limit 100 and the storage setting |
| CatalogDownload.PageRequestsNext | TradeMaster/Tasks/CatalogDownloadTask.php:188-195 | the request for page `i` extends the first `i` requests |
| CatalogDownload.PageItemsNext | TradeMaster/Tasks/CatalogDownloadTask.php:186-265 | running the loop over one more page processes that page's items after the earlier ones |
| CatalogDownload.PageItemsAfterThrow | TradeMaster/Tasks/CatalogDownloadTask.php:86-90 | once a page has thrown, the later pages change nothing |
| CatalogDownload.PagesFromFlat | TradeMaster/Tasks/CatalogDownloadTask.php:186-265 | without an exception the page loop is the item loop over all the pages' items in order |
| CatalogDownload.PagesFromCount | TradeMaster/Tasks/CatalogDownloadTask.php:186-265 | at least one page is requested and at most the page count; fewer only when an item threw |
| CatalogDownload.ProductPhasePages | TradeMaster/Tasks/CatalogDownloadTask.php:178-266 | an empty count answer requests no page and changes nothing; otherwise the phase processes the pages' items in order and requests between one and `count div 100 + 1` pages, all of them when nothing throws |
| CatalogDownload.MarkWhere | TradeMaster/Tasks/CatalogDownloadTask.php:279-288 | on the categories and on the products: exactly the models whose uuid is listed are marked DELETE, in place; nothing else changes |
| CatalogDownload.CascadeStep | TradeMaster/Tasks/CatalogDownloadTask.php:274-291 | a turn of the cascade keeps both collection sizes |
| CatalogDownload.Cascade | TradeMaster/Tasks/CatalogDownloadTask.php:274-291 | the cascade keeps both collection sizes |
| CatalogDownload.CascadeStatus | TradeMaster/Tasks/CatalogDownloadTask.php:274-291 | the cascade changes statuses only: an unseen category visited so far, or a selected uuid, is DELETE; every other entity keeps its status |
| CatalogDownload.SweepProducts | TradeMaster/Tasks/CatalogDownloadTask.php:294-297 | the sweep keeps the product count |
| CatalogDownload.SweepOutcome | TradeMaster/Tasks/CatalogDownloadTask.php:269-298 | after `remove`: every unseen category, and every category or product whose uuid `getChildren` returned, is DELETE; every WORK product with null `buf` is DELETE; every other entity keeps its status and all its other fields |
| CatalogDownload.SelectedAreCategories | TradeMaster/Tasks/CatalogDownloadTask.php:276 | when `getChildren` returns uuids of categories, every selected uuid is a category's |
| CatalogDownload.CascadeSparesProducts | TradeMaster/Tasks/CatalogDownloadTask.php:285-288 | as written, when product and category uuids differ, the cascade marks no product and only the null-`buf` sweep deletes products |
| CatalogDownload.FinishOutcome | TradeMaster/Tasks/CatalogDownloadTask.php:73-92 | progress 66, 99, 100 in that order; the sweep; Done; the image task queued with the image list exactly when the list is non-empty |
| CatalogDownload.ActionEscapes | TradeMaster/Tasks/CatalogDownloadTask.php:62-86 | when a parent is unresolvable, the `\Error` ends the pass after progress 1 and the category phase: no product request, no status, no image task |
| CatalogDownload.ActionProceeds | TradeMaster/Tasks/CatalogDownloadTask.php:62-92 | otherwise the pass runs the product phase, then fails or finishes |
| CatalogDownload.ActionFails | TradeMaster/Tasks/CatalogDownloadTask.php:62-90 | an `\Exception` in the product phase gives Fail after progress 1 and 33, with no sweep, no rollback of the categories and no image task |
| CatalogDownload.ActionCompletes | TradeMaster/Tasks/CatalogDownloadTask.php:62-92 | a pass without exception reports progress 1, 33, 66, 99, 100 in that order, sweeps, ends Done, and queues the image task only when the image list is non-empty |
| CatalogDownload.MaxUuid | TradeMaster/Tasks/CatalogDownloadTask.php:51-59 | bounds every uuid of the category or product collection, so the download can start its fresh uuids above them |
| CatalogDownload.DownloadTask.constructor | TradeMaster/Tasks/CatalogDownloadTask.php:51-60 | the pass starts from the collections it is given, with no images, requests or progress, and fresh uuids above every stored one |
| CatalogDownload.DownloadTask.UpsertCategories | TradeMaster/Tasks/CatalogDownloadTask.php:108-146 | the loop leaves the collection, counter and image list `CategoryUpserts` gives |
| CatalogDownload.DownloadTask.SaveCategory | TradeMaster/Tasks/CatalogDownloadTask.php:133-138 | the collection becomes `UpsertCategory`'s; the uuid returned is the found model's, or the fresh one, which is then used up |
| CatalogDownload.DownloadTask.ResolveParents | TradeMaster/Tasks/CatalogDownloadTask.php:149-156 | the loop leaves the collection and the escape flag `ResolveParentsSpec` gives |
| CatalogDownload.DownloadTask.PrefixCategoryAddresses | TradeMaster/Tasks/CatalogDownloadTask.php:160-170 | the loop leaves the collection `PrefixAddresses` gives |
| CatalogDownload.DownloadTask.CategoryPhase | TradeMaster/Tasks/CatalogDownloadTask.php:95-172 | `category` leaves the state `CategoryPhaseSpec` gives |
| CatalogDownload.DownloadTask.SaveProduct | TradeMaster/Tasks/CatalogDownloadTask.php:239-243 | the collection becomes `UpsertProduct`'s; the uuid returned is the found model's or the fresh one |
| CatalogDownload.DownloadTask.PlaceProduct | TradeMaster/Tasks/CatalogDownloadTask.php:245-251 | the data is placed under the `vStrukture` category as `Placed` states |
| CatalogDownload.DownloadTask.UpsertProductItem | TradeMaster/Tasks/CatalogDownloadTask.php:198-261 | one turn leaves the state `ProductStep` gives |
| CatalogDownload.DownloadTask.UpsertPage | TradeMaster/Tasks/CatalogDownloadTask.php:198-261 | the page loop leaves the state `ProductItems` gives, stopping at the first exception |
| CatalogDownload.DownloadTask.FetchPage | TradeMaster/Tasks/CatalogDownloadTask.php:188-261 | the request at offset `100 * i` is recorded and its items are processed |
| CatalogDownload.DownloadTask.PageLoop | TradeMaster/Tasks/CatalogDownloadTask.php:182-265 | the `while ($go)` loop leaves the state and the request list `PagesFrom` gives |
| CatalogDownload.DownloadTask.ProductPhase | TradeMaster/Tasks/CatalogDownloadTask.php:174-267 | `product` leaves the state and requests `ProductPhaseSpec` gives |
| CatalogDownload.DownloadTask.MarkCategoriesIn | TradeMaster/Tasks/CatalogDownloadTask.php:279-282 | the categories become `MarkCategories`' |
| CatalogDownload.DownloadTask.MarkProductsIn | TradeMaster/Tasks/CatalogDownloadTask.php:285-288 | the products become `MarkProducts`' |
| CatalogDownload.DownloadTask.CascadeDeletes | TradeMaster/Tasks/CatalogDownloadTask.php:274-291 | the loop leaves the collections `Cascade` gives |
| CatalogDownload.DownloadTask.SweepUnseenProducts | TradeMaster/Tasks/CatalogDownloadTask.php:294-297 | the loop leaves the products `SweepProducts` gives |
| CatalogDownload.DownloadTask.RemovePhase | TradeMaster/Tasks/CatalogDownloadTask.php:269-298 | `remove` leaves the collections `Sweep` gives |
| CatalogDownload.DownloadTask.ProductsAndSweep | TradeMaster/Tasks/CatalogDownloadTask.php:68-92 | the rest of the pass after the category phase leaves the state `AfterCategories` gives |
| CatalogDownload.DownloadTask.SweepAndFinish | TradeMaster/Tasks/CatalogDownloadTask.php:73-92 | the end of the pass leaves the state `Finish` gives |
| CatalogDownload.DownloadTask.Action | TradeMaster/Tasks/CatalogDownloadTask.php:45-93 | the whole pass leaves the state and escape flag `ActionSpec` gives, about which the Action lemmas above state the outcome |
| CartReserve.EndpointTable | TradeMaster/Actions/CartReserve.php:56-75 | 'rezervTel'/'reserve' go to `custom/addRezervTovarTblKontaktSite` exactly when `numberDoc` is non-empty and to `order/cart/rezervTel` otherwise; 'kpTel'/'order' to `order/cart/kpTel`; anything else to `order/cart/anonym` |
| CartReserve.EndpointZeroDocument | TradeMaster/Actions/CartReserve.php:57-63 | a `numberDoc` of "0" counts as empty, "00" does not, and the type test is case-sensitive |
| CartReserve.LineFor | TradeMaster/Actions/CartReserve.php:88-99 | a line carries the product's id and title, quantity `count` (0 when absent), and price `unit × count` with the wholesale unit price exactly when wholesale applies |
| CartReserve.LinesAllFound | TradeMaster/Actions/CartReserve.php:80-103 | when every product is found, line `i` is the line of entry `i`: one line per entry, in input order |
| CartReserve.LinesNoneFound | TradeMaster/Actions/CartReserve.php:100-102 | products that are not found add nothing |
| CartReserve.LinesAppend | TradeMaster/Actions/CartReserve.php:80-103 | the lines of two runs of entries follow each other: input order is kept |
| CartReserve.LinesCount | TradeMaster/Actions/CartReserve.php:80-103 | there is exactly one line per product found |
| CartReserve.BuildLines | TradeMaster/Actions/CartReserve.php:80-103 | the `foreach` builds `Lines` of the entries, none when `products` is not an array |
| CartReserve.NalichTable | TradeMaster/Actions/CartReserve.php:106-117 | `nalich` is 0 or 1; it is 1 exactly for 'on', for 'user-only' with a user, and for any setting other than 'off' and 'user-only' |
| CartReserve.KSortSortedPermutation | TradeMaster/Actions/CartReserve.php:50 | `ksort` leaves the entries sorted by key, with none lost or added |
| CartReserve.KSortExample | TradeMaster/Actions/CartReserve.php:50 | integer keys are ordered numerically, whatever the form order |
| CartReserve.JoinAddressFacts | TradeMaster/Actions/CartReserve.php:48-53 | an array address becomes the ", "-join of its parts' texts, key-sorted when `catalog_order_address` is 'on' and in form order otherwise; every other delivery field is unchanged |
| CartReserve.OrderRequestShape | TradeMaster/Actions/CartReserve.php:119-144 | with a key the order is a POST with timeout 60 to the chosen endpoint, whose body carries the order fields, the encoded lines and the `nalich` flag |
| CartReserve.ClassifyEmpty | TradeMaster/Actions/CartReserve.php:146-209 | the answer is an internal error exactly when it is empty |
| CartReserve.ClassifyNoNumber | TradeMaster/Actions/CartReserve.php:147-206 | a non-empty answer with no order number is shown back unchanged as `exception` |
| CartReserve.ClassifySingleton | TradeMaster/Actions/CartReserve.php:149-155 | a one-element list is unwrapped: its number creates the order unless it is loosely '-1', in which case the element alone is shown |
| CartReserve.ClassifyObject | TradeMaster/Actions/CartReserve.php:150-155 | an object with a non-empty number and no `[0]` is accepted exactly when the number is not loosely '-1', with that number |
| CartReserve.ClassifyAccepted | TradeMaster/Actions/CartReserve.php:146-156 | an accepted answer is non-empty and passes the number test; the number is read after the unwrap and is never loosely '-1' |
| CartReserve.ClassifyNullNumber | TradeMaster/Actions/CartReserve.php:150-156 | an answer with a top-level number and a non-array `[0]` is unwrapped to that element and accepted with a null number, as written |
| CartReserve.LooseMinusOneExamples | TradeMaster/Actions/CartReserve.php:155 | `!= '-1'` fails for "-1", "-01", " -1", -1 and `true`; it holds for "1", "-1a", null and 1 |
| CartReserve.RespondCreated | TradeMaster/Actions/CartReserve.php:155-202 | an order is created exactly when the number is accepted; it carries that number; the administrators are notified first and the user second when notifications are 'yes'; a mail exists exactly when a template is set, with a blind copy exactly when the order has an email |
| CartReserve.Reserve | TradeMaster/Actions/CartReserve.php:24-213 | without reCAPTCHA: refused and nothing sent; otherwise the request is `RequestFor` of the prepared form and its lines; the answer is `[]` with no key and the decoded reply otherwise; the response is `Respond` of that answer |
| SendOrder.Order.constructor | TradeMaster/Tasks/SendOrderTask.php:43 | an order holds the fields the repository returns |
| SendOrder.Quantity | TradeMaster/Tasks/SendOrderTask.php:54 | a listed product's quantity is the quantity of an entry of the order list for its uuid |
| SendOrder.FindBy | TradeMaster/Tasks/SendOrderTask.php:52 | exactly the repository's products whose uuid is on the order list |
| SendOrder.LinesExact | TradeMaster/Tasks/SendOrderTask.php:52-62 | every line is the line of a product with a TradeMaster id, and every such product has its line |
| SendOrder.LinesHaveIds | TradeMaster/Tasks/SendOrderTask.php:53 | no line goes out without a TradeMaster id |
| SendOrder.LinesAppend | TradeMaster/Tasks/SendOrderTask.php:52-62 | the lines keep the repository order |
| SendOrder.LineFor | TradeMaster/Tasks/SendOrderTask.php:54-60 | a line carries the product's id and title, the listed quantity, and price × quantity |
| SendOrder.BuildLines | TradeMaster/Tasks/SendOrderTask.php:52-62 | the `foreach` builds `Lines` of the found products |
| SendOrder.SendRequestShape | TradeMaster/Tasks/SendOrderTask.php:64-83 | whatever the order, it is a POST to `order/cart/anonym` with the order fields as form body |
| SendOrder.MailFor | TradeMaster/Tasks/SendOrderTask.php:91-102 | a mail is set up exactly when the order has an email and a template is configured, and it goes to that email |
| SendOrder.AcceptedNumber | TradeMaster/Tasks/SendOrderTask.php:85-86 | an accepted answer carries a non-empty number; '-1' is accepted; "0", `[]` and a non-array are not |
| SendOrder.Send | TradeMaster/Tasks/SendOrderTask.php:36-109 | no order: Fail, nothing sent; an order with an `external_id`: Cancel, nothing sent, nothing changed; otherwise the request is sent; an accepted answer stores its number, sets up the mail and ends Done; any other answer ends Fail with `external_id` unchanged and no mail |
| CatalogUpload.RecentExact | TradeMaster/Tasks/CatalogUploadTask.php:51-55 | a product is kept exactly when it is in the input and its date is after now − 5 minutes |
| CatalogUpload.RecentAppend | TradeMaster/Tasks/CatalogUploadTask.php:51-55 | the filter keeps the original order |
| CatalogUpload.KeepRecent | TradeMaster/Tasks/CatalogUploadTask.php:51-55 | the loop builds `Recent` of the products |
| CatalogUpload.ChunksFlatten | TradeMaster/Tasks/CatalogUploadTask.php:62 | the chunks, in order, are the products: none is lost, repeated or moved |
| CatalogUpload.ChunksSizes | TradeMaster/Tasks/CatalogUploadTask.php:61-62 | `ceil(n / 100)` chunks, each of 1 to 100 products, all but the last full |
| CatalogUpload.ChunksExample | TradeMaster/Tasks/CatalogUploadTask.php:61-62 | 250 products give 3 chunks, 100 give 1, none give none |
| CatalogUpload.Host | TradeMaster/Tasks/CatalogUploadTask.php:81 | the host is the homepage without its trailing '/' run and never ends with '/' |
| CatalogUpload.FotoUrls | TradeMaster/Tasks/CatalogUploadTask.php:87-89 | one URL per file, in order, each the host followed by the public path |
| CatalogUpload.FotoList | TradeMaster/Tasks/CatalogUploadTask.php:87-89 | the inner loop builds `FotoUrls` |
| CatalogUpload.BlockTags | TradeMaster/Tasks/CatalogUploadTask.php:92-118 | a block opens with `<ProductAttribute idTovar="` + `external_id` + `">` and closes with `</ProductAttributeValue>` and `</ProductAttribute>` |
| CatalogUpload.BlocksStep | TradeMaster/Tasks/CatalogUploadTask.php:84-119 | one more product appends its block |
| CatalogUpload.BlockAt | TradeMaster/Tasks/CatalogUploadTask.php:84-119 | the block of product `k` sits between the blocks before and after it: one block per product, in chunk order |
| CatalogUpload.XmlEnds | TradeMaster/Tasks/CatalogUploadTask.php:79-121 | the document starts with `<Attributes>` and ends with `</Attributes>`, and is just the two tags for no products |
| CatalogUpload.XmlTrimmed | TradeMaster/Tasks/CatalogUploadTask.php:123 | the final `trim` removes nothing |
| CatalogUpload.ProductXml | TradeMaster/Tasks/CatalogUploadTask.php:77-124 | `getPruductXML` returns `Xml` of the products under the trimmed homepage |
| CatalogUpload.Marks | TradeMaster/Tasks/CatalogUploadTask.php:63 | one progress mark per chunk, chunk `i` reporting index `i` with the product count |
| CatalogUpload.UploadRequests | TradeMaster/Tasks/CatalogUploadTask.php:61-72 | one request per chunk, `ceil(n / 100)` in all, none exactly when there are no products; request `k` posts the XML of chunk `k` |
| CatalogUpload.UploadRequestShape | TradeMaster/Tasks/CatalogUploadTask.php:64-70 | no request without a key; with one, a POST to `item/updateTovarSite` whose only body field `tovarxml` is the document |
| CatalogUpload.UploadTask.constructor | TradeMaster/Tasks/CatalogUploadTask.php:35-36 | an upload starts with no progress and nothing sent |
| CatalogUpload.UploadTask.SendChunk | TradeMaster/Tasks/CatalogUploadTask.php:64-70 | the request sent for a chunk is its `RequestOf` |
| CatalogUpload.UploadTask.UploadChunks | TradeMaster/Tasks/CatalogUploadTask.php:61-72 | the loop adds one progress mark and one request per chunk, in order |
| CatalogUpload.UploadTask.Action | TradeMaster/Tasks/CatalogUploadTask.php:35-75 | the requests and marks are those of the chunks of the selected products (filtered only when `only_updated` is `true`), and the status is Done whatever the answers |
| DownloadImage.WithFiles | TradeMaster/Tasks/DownloadImageTask.php:74-93 | setting an entity's files keeps both store sizes and gives it exactly the new files |
| DownloadImage.WithFilesOthers | TradeMaster/Tasks/DownloadImageTask.php:74-93 | only that entity's files change: every other entity, and every other field, is unchanged |
| DownloadImage.WithFilesTwice | TradeMaster/Tasks/DownloadImageTask.php:75-83 | setting files twice keeps only the second: what was there before the clear does not survive |
| DownloadImage.WithFilesSame | TradeMaster/Tasks/DownloadImageTask.php:75-77 | setting an entity's own files changes nothing |
| DownloadImage.FetchedStep | TradeMaster/Tasks/DownloadImageTask.php:79-92 | one more name adds its file when the fetch at its cache path succeeds, and nothing otherwise |
| DownloadImage.FetchedAppend | TradeMaster/Tasks/DownloadImageTask.php:79-92 | the files of consecutive names follow each other: split order is kept |
| DownloadImage.FetchedFrom | TradeMaster/Tasks/DownloadImageTask.php:79-85 | there are no more files than names, and every file was fetched at the `getFilePath` of one of the names |
| DownloadImage.FetchedNone | TradeMaster/Tasks/DownloadImageTask.php:82-92 | when every fetch fails nothing is attached |
| DownloadImage.ImageUuidsExact | TradeMaster/Tasks/DownloadImageTask.php:87-89 | a uuid is collected exactly when it is the uuid of a fetched image file |
| DownloadImage.Resolve | TradeMaster/Tasks/DownloadImageTask.php:65-72 | 'category' and 'product' look the uuid up in their store; any other type leaves `$entity` as the previous item set it |
| DownloadImage.ItemStepKeeps | TradeMaster/Tasks/DownloadImageTask.php:60-103 | an item keeps the store sizes and leaves `$entity` on a stored entity or unset |
| DownloadImage.ItemsStep | TradeMaster/Tasks/DownloadImageTask.php:60-103 | the loop over one more item is one more turn at that item's index |
| DownloadImage.ItemSkipped | TradeMaster/Tasks/DownloadImageTask.php:61-102 | an item with an empty photo changes nothing but the progress |
| DownloadImage.ItemReplaces | TradeMaster/Tasks/DownloadImageTask.php:74-102 | the found entity's files become exactly the fetched files, in split order; its earlier files are gone; the image uuids are appended; one progress mark |
| DownloadImage.ItemNotFound | TradeMaster/Tasks/DownloadImageTask.php:74-102 | an entity that is not found changes nothing but the progress |
| DownloadImage.ItemOtherKind | TradeMaster/Tasks/DownloadImageTask.php:65-72 | as written, a photo of another type replaces the files of the entity the previous item found |
| DownloadImage.ItemsFacts | TradeMaster/Tasks/DownloadImageTask.php:60-103 | the loop keeps the store sizes, only appends to the convert list, and reports `(k, count)` for item `k` |
| DownloadImage.ActionDisabled | TradeMaster/Tasks/DownloadImageTask.php:59 | with `file_is_enabled` other than 'yes', nothing is processed |
| DownloadImage.ActionConvert | TradeMaster/Tasks/DownloadImageTask.php:106-110 | a convert task is queued exactly when the convert list is non-empty, with that list |
| DownloadImage.ImageTask.constructor | TradeMaster/Tasks/DownloadImageTask.php:50 | an image download starts with an empty convert list and no convert task |
| DownloadImage.ImageTask.ClearFiles | TradeMaster/Tasks/DownloadImageTask.php:75-77 | the entity's files become empty and nothing else changes |
| DownloadImage.ImageTask.AddFile | TradeMaster/Tasks/DownloadImageTask.php:83 | the file is appended to the entity's files and nothing else changes |
| DownloadImage.ImageTask.Attach | TradeMaster/Tasks/DownloadImageTask.php:82-89 | the file is appended, and its uuid joins the convert list exactly when it is an image |
| DownloadImage.ImageTask.AddFiles | TradeMaster/Tasks/DownloadImageTask.php:79-93 | the inner loop appends the fetched files and their image uuids, in order |
| DownloadImage.ImageTask.FindEntity | TradeMaster/Tasks/DownloadImageTask.php:65-72 | the entity chosen is `Resolve`'s |
| DownloadImage.ImageTask.ReplaceFiles | TradeMaster/Tasks/DownloadImageTask.php:74-93 | the entity's files become exactly the fetched ones, and their image uuids are appended |
| DownloadImage.ImageTask.ProcessItem | TradeMaster/Tasks/DownloadImageTask.php:60-103 | one turn leaves the state `ItemStep` gives |
| DownloadImage.ImageTask.Action | TradeMaster/Tasks/DownloadImageTask.php:52-113 | the image download leaves the state and convert task `ActionSpec` gives, and ends Done |

## Left out

- Network and library calls are function parameters:
  - the transport (`file_get_contents`, the stream context);
  - `json_decode`, `json_encode`;
  - `File::getFromPath`;
  - the product service `read`;
  - the order repository lookup;
  - the `check` filters;
  - `Category::getChildren`;
  - the `DateTime` parser.
- `http_build_query` is not modelled. The query and the form body are kept as key/value lists.
- Doctrine `persist`/`flush`, the logger and the profiler are left out: they do not change the modelled state.
- Floating-point values (prices, quantities, stock, volume, `(float)` casts) are integers.
- `(int)` and unary `+` on a string read its leading number as PHP 8 does. `(int)` on a non-numeric string is 0; `+` on one throws a `TypeError`. A `TypeError` from a non-scalar is not modelled.
- Php.ToInt: integers are unbounded. PHP's saturation at the 64-bit limits, and an overflow to infinity reading as 0, are not modelled. A decimal or exponent text is truncated exactly, not after rounding to a float.
- Php.PlusTruthy: a number is taken as truthy exactly when one of its digits is nonzero. An exponent text that underflows to 0.0, such as "1e-400", reads as truthy here and as falsy in PHP.
- Dates are integer timestamps. In the upload filter, "now minus 5 minutes" is `now - 300`. An unparsable `changeDate` is the `\Exception` that fails the download pass.
- The shipping date formatting `format('Y-m-d H:i:s')` is left out. The order holds the formatted text.
- `urldecode` and `strip_tags` on descriptions, the category and product `meta` and `template` fields, `children`, `pagination` and `export` are left out. The stored data holds the raw texts of the modelled fields.
- `Collection::where('buf', null)` and `firstWhere` use strict comparison on the fields' values. PHP's loose comparison of mixed types is not modelled.
- `replace($data)` is modelled as overwriting the modelled fields. `new Category()` gets the next fresh uuid.
- `ksort` is modelled for integer keys, compared numerically, and string keys, compared by code point, with integers first. PHP 8's mixed numeric-string ordering is not modelled.
- `CartReserve.LooseMinusOne` models `!= '-1'` under PHP 8 for integer-form numeric strings only. Decimal and exponent forms such as "-1.0" and "-1e0" are not modelled.
- `CartReserve.Classify` reads `$result['nomerZakaza']` on a non-array as null. The PHP warning is not modelled.
- Notification and mail bodies, template rendering, `SendMailTask`, the worker and the `$_SERVER` redirect header are left out. The model records which notifications and mail tasks are created.
- The queued `DownloadImageTask` and `ConvertImageTask` are recorded as the list they receive. They are not run.
- `CatalogUpload.Marks`: `setProgress($index, $count / 100)` has a float denominator; it is recorded as the pair (index, product count).
- `getPruductXML` is called a second time for the log line at line 71. That call is left out together with the logger.
- The product queries (`export = 'trademaster'`, status WORK) are not modelled. The tasks receive the query result as their input.
- Settings come in with their defaults applied:
  - `getParameter('common_homepage', false)` is taken as a string, `rtrim(false)` being "";
  - `file_is_enabled` defaults to 'no' in the image task and is compared with 'yes' strictly.
- `DownloadImage.IsImage`: `Str::start('image/', $type)` belongs to a library that is not part of this model. It is modelled as "the MIME type starts with `image/`", which is what the code's comment says.
- `hasFiles()`/`clearFiles()` and `addFile()` are modelled as setting the files to empty and appending one file. Doctrine's collection semantics, such as duplicate detection, are not part of this model.
- The routes, the settings-field construction, `after()` and the thin wrappers are not modelled: `ConfigLoader`, `APIProxy`, `TradeMasterPluginTwigExt` and `CartConfirm` only forward to `api`.
