# Product quotation tool: a verified model of its front-end logic

The tool is a Next.js front end for a product catalog kept in a spreadsheet. A
salesperson searches the catalog, builds a cart, and asks a backend for a quotation
document. Products are added one at a time through a form, or in bulk from a folder
of images. Product cards (400 x 600 images with the photo, name, category,
description and a price button) are rendered on a canvas, then downloaded or shared.

This project models the deterministic logic of those screens in Dafny and proves
what the code promises. The model covers:

- the cart handlers of the home page;
- the search tab's instant filter, with its 50-result cap;
- the catalog tab's category list, filter, selection toggle and card selection;
- the single-product form: name normalisation, the uniqueness status, and the submit pipeline;
- the bulk upload queue and its sequential run with a stop flag;
- the card customisation dialog;
- the greedy word wrap and the vertical layout cursor of the card renderer;
- the Google Drive link rewriting;
- the file names, stagger delays and share fallbacks of the generated-cards view;
- the quotation form's payload, validity and answer handling.

The external services are oracles passed in as parameters: the name-uniqueness
check, the image host, the catalog `addProduct` and the quotation backend. So are
the browser facilities: text measurement, image loading and the share sheet.
Forms that send requests keep a log of the requests they sent. The proofs state
what is sent, in what order, and what the form shows afterwards.

Modules, one per file: `Wrappers`, `Strings` (the JavaScript string built-ins
used), `Seqs`, `Products`, `Services`, `Cart`, `ProductSearch`, `ProductCatalog`,
`AddProductForm`, `BulkUpload`, `CardGenerator`, `CardGenerationModal`,
`ImageUrl`, `GeneratedCards` and `QuotationForm`.

## Model

| member | source | states |
|---|---|---|
| Strings.BlankIffAllSpace | frontend/components/ProductSearch.jsx:55-57 | `trim()` leaves the empty string exactly when every character is white space |
| Strings.JoinSplit | frontend/lib/cardGenerator.js:166-177 | splitting on a character and joining on it again gives back the string |
| Strings.ReplaceFirst | frontend/lib/utils.js:23 | `replace` with a string pattern changes nothing when the pattern is absent, and otherwise swaps one occurrence for the replacement |
| Strings.ReplaceFirstLeftmost | frontend/lib/utils.js:23 | the occurrence `replace` swaps is the leftmost one |
| Products.NormalizedQuery | frontend/components/ProductSearch.jsx:55-57 | the lower-cased, trimmed query is empty exactly when the query is all white space |
| Cart.AddToCart | frontend/app/page.js:11-22 | a product already in the cart gets one more unit and every other item is untouched; a new product is appended with quantity 1; afterwards the product is in the cart |
| Cart.AddToCartValid | frontend/app/page.js:11-22 | adding keeps ids distinct and quantities at least 1, and raises the product's quantity by exactly one |
| Cart.AddToCartOthers | frontend/app/page.js:13-21 | adding a product leaves every other product's quantity unchanged |
| Cart.UpdateQuantity | frontend/app/page.js:25-32 | a quantity below 1 is refused and the cart is unchanged; otherwise only the items with that id get the new quantity |
| Cart.UpdateQuantityValid | frontend/app/page.js:25-32 | a quantity change keeps the cart valid and, when accepted, sets that product's quantity |
| Cart.UpdatePrice | frontend/app/page.js:34-40 | any new price replaces the price of the items with that id; nothing else changes |
| Cart.UpdatePriceValid | frontend/app/page.js:34-40 | a price change keeps the cart valid and every quantity as it was |
| Cart.RemoveItem | frontend/app/page.js:42-44 | no item with the id is left, every other item stays, and the order is kept |
| Cart.RemoveItemValid | frontend/app/page.js:42-44 | removal keeps the cart valid; it deletes exactly one item when the id is present and changes nothing when it is absent |
| Cart.RemoveAt | frontend/app/page.js:43 | removing the id held at position k yields the cart without position k |
| Cart.RemoveAfterAdd | frontend/app/page.js:11-23 | adding a product and then removing it gives the same cart as removing it |
| Cart.QuantityOfMap | frontend/app/page.js:13-21 | raising the matching item's quantity by d raises that product's total by d when it is in the cart, and leaves every other product's total unchanged |
| Cart.RemoveAppend | frontend/app/page.js:11-44 | removing a product also removes a copy of it that was just appended |
| Cart.RemoveMapped | frontend/app/page.js:25-44 | edits made only to the items holding the removed id are forgotten: removing the id from the edited cart gives the same cart as removing it from the original |
| Cart.SubsequenceValid | frontend/app/page.js:42-44 | any cart obtained by dropping items from a valid cart is valid |
| ProductSearch.AllMatches | frontend/components/ProductSearch.jsx:63-68 | the matches are the catalog products matching the query by name, id or category, in catalog order |
| ProductSearch.Search | frontend/components/ProductSearch.jsx:54-72 | at most 50 results; none for a blank query; every result is a matching catalog product; catalog order is kept |
| ProductSearch.SearchIsFirstMatches | frontend/components/ProductSearch.jsx:71 | the results are the first min(50, matches) matches, and all of them when there are at most 50 |
| ProductSearch.SearchDropsOnlyAtCap | frontend/components/ProductSearch.jsx:71 | a matching product is missing from the results only when all 50 slots are taken |
| ProductSearch.IsAdded | frontend/components/ProductSearch.jsx:118 | a result is marked added exactly when the cart holds an item with its product id |
| ProductSearch.AddedMarkFollowsCart | frontend/components/ProductSearch.jsx:118 | after adding a product it shows as added; after removing it, it does not |
| ProductCatalog.Insert | frontend/components/ProductCatalog.jsx:38-42 | inserting into the set of names adds exactly that name |
| ProductCatalog.InsertSorted | frontend/components/ProductCatalog.jsx:38-42 | inserting keeps a list strictly sorted |
| ProductCatalog.SortedUnique | frontend/components/ProductCatalog.jsx:38-42 | the deduplicated list holds exactly the input's strings |
| ProductCatalog.SortedUniqueSorted | frontend/components/ProductCatalog.jsx:42 | the deduplicated list is strictly sorted character by character, which is the default `sort()` order outside surrogate pairs |
| ProductCatalog.StrictlySortedUnique | frontend/components/ProductCatalog.jsx:38-42 | two strictly sorted lists of the same strings are equal |
| ProductCatalog.StrLessTransitive | frontend/components/ProductCatalog.jsx:42 | the sort order is transitive |
| ProductCatalog.StrLessTotal | frontend/components/ProductCatalog.jsx:42 | any two different strings are ordered one way or the other |
| ProductCatalog.TrimmedCategories | frontend/components/ProductCatalog.jsx:40 | one trimmed category per product, in order |
| ProductCatalog.Entries | frontend/components/ProductCatalog.jsx:44-47 | each name is paired with the number of products filed under it |
| ProductCatalog.CategoryNameMember | frontend/components/ProductCatalog.jsx:38-42 | a name is listed exactly when it is non-empty and some product's trimmed category equals it |
| ProductCatalog.CategoryNamesMembers | frontend/components/ProductCatalog.jsx:38-42 | the same, for every name at once |
| ProductCatalog.EntriesPositive | frontend/components/ProductCatalog.jsx:47 | every listed name has at least one product, so the count filter drops nothing |
| ProductCatalog.CategoryListShape | frontend/components/ProductCatalog.jsx:44-52 | the list is "All Products" with the total, then each name with its count |
| ProductCatalog.CategoryList | frontend/components/ProductCatalog.jsx:38-52 | "All Products" with the total comes first, followed by at most one entry per category name |
| ProductCatalog.CategoryListSorted | frontend/components/ProductCatalog.jsx:42 | the categories after "All Products" are in ascending order with no repeats |
| ProductCatalog.CategoryListMembers | frontend/components/ProductCatalog.jsx:38-47 | exactly the non-empty trimmed categories of the products are listed |
| ProductCatalog.CategoryListCounts | frontend/components/ProductCatalog.jsx:44-47 | each listed category carries its product count, which is never zero |
| ProductCatalog.CategoryListSpec | frontend/components/ProductCatalog.jsx:38-52 | all of the above together: the first entry, order, membership and counts |
| ProductCatalog.CategoryNamesCharacterized | frontend/components/ProductCatalog.jsx:38-42 | any strictly sorted list of exactly those categories is the list the code builds |
| ProductCatalog.CategoryFiltered | frontend/components/ProductCatalog.jsx:75-80 | "All Products" keeps everything; otherwise exactly the products whose trimmed category is the selection, in order |
| ProductCatalog.FilterProducts | frontend/components/ProductCatalog.jsx:72-95 | a blank query shows the category's products; otherwise exactly those that also match the query, in catalog order |
| ProductCatalog.Toggle | frontend/components/ProductCatalog.jsx:97-105 | the id flips between selected and not; every other id keeps its state |
| ProductCatalog.ToggleTwice | frontend/components/ProductCatalog.jsx:97-105 | toggling the same id twice restores the selection |
| ProductCatalog.SelectedForCards | frontend/components/ProductCatalog.jsx:107-110 | the products handed to card generation are exactly the selected catalog products, in catalog order |
| AddProductForm.NormalizeName | frontend/components/AddProductForm.jsx:53 | the stored name is the input upper-cased character by character and cut to 35 characters |
| AddProductForm.NormalizeNameIdempotent | frontend/components/AddProductForm.jsx:53 | normalising a normalised name changes nothing |
| AddProductForm.NameChange | frontend/components/AddProductForm.jsx:52-76 | status idle iff the name is blank; invalid iff the trimmed name is all digits; otherwise checking, with exactly one check scheduled for the trimmed name |
| AddProductForm.ImageFileName | frontend/components/AddProductForm.jsx:119 | the upload name is the trimmed name lower-cased plus `.jpg`, with no upper-case letter |
| AddProductForm.FinalCategory | frontend/components/AddProductForm.jsx:125 | in new-category mode the text as typed, untrimmed; otherwise the selection |
| AddProductForm.NameChangeFits | frontend/components/AddProductForm.jsx:52-76 | every keystroke leaves the name, its status and the pending check in agreement |
| AddProductForm.EmptyNameFits | frontend/components/AddProductForm.jsx:143-149 | the emptied form's name agrees with its idle status |
| AddProductForm.StepsKeepFit | frontend/components/AddProductForm.jsx:68-75 | the initial form is consistent, and a check answer and a submit keep it consistent |
| AddProductForm.SubmitRequests | frontend/components/AddProductForm.jsx:107-132 | no request unless the name is unique; the upload goes first, if there is an image, under the file name above; the add follows only after a good upload, with the trimmed name, the chosen category and the URL |
| AddProductForm.SubmitOutcome | frontend/components/AddProductForm.jsx:134-161 | a product is added exactly when no chosen image failed and the catalog accepted it; then the inputs are emptied and success is shown; a failure keeps the inputs and records the error |
| AddProductForm.SubmitSendsCheckedName | frontend/components/AddProductForm.jsx:107-132 | the catalog is only ever asked to add a name that is non-blank, not all digits and at most 35 characters |
| AddProductForm.Form.constructor | frontend/components/AddProductForm.jsx:16-27 | the form starts empty with status idle |
| AddProductForm.Form.HandleNameChange | frontend/components/AddProductForm.jsx:52-76 | a keystroke stores the normalised name and status, replaces any pending check, and keeps the form consistent |
| AddProductForm.Form.NameCheckFires | frontend/components/AddProductForm.jsx:68-75 | the pending check is sent and its answer sets unique, duplicate or error |
| AddProductForm.Form.UploadStep | frontend/components/AddProductForm.jsx:111-122 | the busy mark, the cleared error, and the upload when an image was chosen; reports whether the submit goes on and with which URL |
| AddProductForm.Form.AddStep | frontend/components/AddProductForm.jsx:125-156 | the add request with the final category, then the reset or the error |
| AddProductForm.Form.Reset | frontend/components/AddProductForm.jsx:143-149 | every input is emptied and the status becomes idle; the log, the error and the counters are kept |
| AddProductForm.Form.Submit | frontend/components/AddProductForm.jsx:107-163 | the form after a submit is the specification's submitted state, and it stays consistent |
| BulkUpload.FindExtension | frontend/components/BulkUploadForm.jsx:56 | the backward scan finds the one place the extension pattern matches, or reports that there is none |
| BulkUpload.StripExtension | frontend/components/BulkUploadForm.jsx:56 | the extension (a final dot followed by characters that are neither dot nor slash) is removed, or the name is kept when there is none |
| BulkUpload.ExtensionUnique | frontend/components/BulkUploadForm.jsx:56 | the extension pattern can match at one place at most |
| BulkUpload.DeriveName | frontend/components/BulkUploadForm.jsx:56 | the derived name is never longer than the file name |
| BulkUpload.DeriveNameExamples | frontend/components/BulkUploadForm.jsx:56 | `a.b.png` gives `A.B`, `.png` gives the empty name, `README` is kept, and a dot before a slash is not an extension |
| BulkUpload.AttemptItem | frontend/components/BulkUploadForm.jsx:123-159 | every started item ends in a terminal status |
| BulkUpload.AttemptItemContract | frontend/components/BulkUploadForm.jsx:125-158 | the name check always comes first; a failed check gives an error with "Validation check failed"; a duplicate is skipped with "Duplicate name" and sends nothing more; an image that cannot be converted gives an error with no message (`undefined` in the source, rendered empty; `""` in the model) and sends nothing more; the upload uses the lower-cased name plus `.jpg`; the add comes only after a unique name, a converted image and a good upload, with that upload's URL; success exactly when every step succeeds; the failure messages fall back to their defaults |
| BulkUpload.UploadName | frontend/components/BulkUploadForm.jsx:138 | the upload file name is the derived name lower-cased, character by character, plus `.jpg` |
| BulkUpload.AfterRun | frontend/components/BulkUploadForm.jsx:114-163 | the run never changes the number of queued items |
| BulkUpload.AfterRunAt | frontend/components/BulkUploadForm.jsx:114-163 | the first n items are settled by their own outcome, and later items are untouched |
| BulkUpload.AfterRunUntouched | frontend/components/BulkUploadForm.jsx:115 | an item the run has not reached is as it was |
| BulkUpload.AfterRunKeepsIds | frontend/components/BulkUploadForm.jsx:117-159 | a run changes no id, file or derived name, so ids stay distinct |
| BulkUpload.RunUpdatesInOrder | frontend/components/BulkUploadForm.jsx:114-159 | items are processed in index order; each started item is marked processing, then given exactly one terminal status |
| BulkUpload.RunCallsFrom | frontend/components/BulkUploadForm.jsx:114-163 | every request of a run belongs to one of the items it started |
| BulkUpload.UploadsOnlyForUniqueNames | frontend/components/BulkUploadForm.jsx:125-138 | an upload is sent only for an item whose check said unique and whose image converted, under that item's lower-cased name |
| BulkUpload.TallyCounts | frontend/components/BulkUploadForm.jsx:111-158 | the counters are the numbers of started items ending in success, skipped and error, and together they count every started item |
| BulkUpload.DoneGrows | frontend/components/BulkUploadForm.jsx:114-163 | each pass adds exactly the item just settled to the settled prefix |
| BulkUpload.Queued | frontend/components/BulkUploadForm.jsx:52-59 | new files become pending items with an empty message and their derived names, in order |
| BulkUpload.SetStatus | frontend/components/BulkUploadForm.jsx:117-159 | a write by id gives every item with that id the status and message (`None` keeps the old message); other items and every id, file and derived name stay as they were |
| BulkUpload.Without | frontend/components/BulkUploadForm.jsx:65-67 | no item with the id is left, every other item stays, and the order is kept |
| BulkUpload.SetStatusAt | frontend/components/BulkUploadForm.jsx:120 | with distinct ids, a write by id changes exactly the one item holding that id |
| BulkUpload.WithoutRemovesOne | frontend/components/BulkUploadForm.jsx:65-67 | removing an id held at position k deletes that item and keeps the others in order |
| BulkUpload.WithoutAbsent | frontend/components/BulkUploadForm.jsx:65-67 | removing an id not in the queue changes nothing |
| BulkUpload.FinalCategory | frontend/components/BulkUploadForm.jsx:100-104 | a new category is trimmed, so one made only of white space resolves to none; otherwise the selection |
| BulkUpload.BulkUploadForm.constructor | frontend/components/BulkUploadForm.jsx:17-31 | an empty queue, no results, not uploading |
| BulkUpload.BulkUploadForm.AddFiles | frontend/components/BulkUploadForm.jsx:50-62 | the new pending items are appended after the existing queue |
| BulkUpload.BulkUploadForm.RemoveFile | frontend/components/BulkUploadForm.jsx:65-67 | only the item with that id is deleted; the queue shrinks by one when the id was present |
| BulkUpload.BulkUploadForm.ClearQueue | frontend/components/BulkUploadForm.jsx:70-74 | the queue, the processed count and the results are cleared |
| BulkUpload.BulkUploadForm.ProcessItem | frontend/components/BulkUploadForm.jsx:117-159 | one item is marked processing and then settled by its attempt; its requests and status writes are logged in order |
| BulkUpload.BulkUploadForm.RunStep | frontend/components/BulkUploadForm.jsx:117-163 | one pass of the loop advances the queue, the logs and the counters from item i to item i+1 |
| BulkUpload.BulkUploadForm.RunQueue | frontend/components/BulkUploadForm.jsx:109-163 | the loop starts exactly min(stop point, queue length) items, in order, over the queue as it was at the start; the counters are their tally |
| BulkUpload.BulkUploadForm.StartUpload | frontend/components/BulkUploadForm.jsx:98-176 | an unresolvable category sets the error and touches nothing else; otherwise the run happens, the results are recorded, and the refresh callback fires exactly when something was added |
| CardGenerator.Wrap | frontend/lib/cardGenerator.js:166-177 | at least one line, and no more lines than words |
| CardGenerator.WrapText | frontend/lib/cardGenerator.js:166-177 | the loop produces the greedy wrap of the specification |
| CardGenerator.WrapJoin | frontend/lib/cardGenerator.js:166-177 | the lines joined with single spaces give back the words joined with single spaces |
| CardGenerator.JoinExtend | frontend/lib/cardGenerator.js:172 | appending a word to the current line with a space does not change the joined text |
| CardGenerator.WrapSpecJoin | frontend/lib/cardGenerator.js:166-177 | wrapping never changes the text: the lines joined with spaces are the input |
| CardGenerator.WrapFirstLine | frontend/lib/cardGenerator.js:169-173 | the first line is the starting word, possibly extended by further words |
| CardGenerator.FirstWordOfLine | frontend/lib/cardGenerator.js:167-173 | a line that starts with a word has that word as its first piece |
| CardGenerator.WrapBreaksOnlyOnOverflow | frontend/lib/cardGenerator.js:172-173 | a line is closed only when adding the next word would measure at least the maximum width |
| CardGenerator.WrapLineFits | frontend/lib/cardGenerator.js:172-173 | every line fits, or is a single word that is too wide on its own; words are never split |
| CardGenerator.WrapSpecProperties | frontend/lib/cardGenerator.js:166-177 | for any measure and width: at least one line, the text is preserved, breaks happen only on overflow, and lines fit or are single words |
| CardGenerator.DrawPlaceholder | frontend/lib/cardGenerator.js:130-137 | a grey square at the given place; the "No Image" caption is drawn only for a numeric canvas width, centred on it, in the given colour when that is a string |
| CardGenerator.CallPlaceholder | frontend/lib/cardGenerator.js:130 | the parameters take the first five arguments in order; extra arguments are dropped |
| CardGenerator.PlaceholderAsWrittenDrawsNoLabel | frontend/lib/cardGenerator.js:67-71 | the call as written draws the square but never the caption |
| CardGenerator.PlaceholderIntendedDrawsLabel | frontend/lib/cardGenerator.js:130-137 | the intended call draws "No Image" in grey, centred on the card and the image box |
| CardGenerator.CardPlaceholder | frontend/lib/cardGenerator.js:67-71 | the placeholder the card draws, from the calls as written, is the grey square over the image box with no caption |
| CardGenerator.FirstTwoLines | frontend/lib/cardGenerator.js:81-106 | at most two lines are drawn, the first ones, at the left margin, one step apart |
| CardGenerator.CardDescription | frontend/lib/cardGenerator.js:99 | the custom description wins when non-empty; the description is empty only when both are |
| CardGenerator.Layout | frontend/lib/cardGenerator.js:54-123 | at most two name and two description lines; a badge exactly when there is a category; a price button exactly when there is a custom price; the photo exactly when there is a URL that loads, and otherwise the placeholder without its "No Image" caption, as the calls are written |
| CardGenerator.GenerateProductCard | frontend/lib/cardGenerator.js:6-128 | the sections drawn while the cursor moves down, the uncaptioned placeholder included, are the card `Layout` describes |
| CardGenerator.LayoutStaysOnCard | frontend/lib/cardGenerator.js:75-107 | the name starts at 410, the cursor stays between 448 and 574, and every text baseline is on the card below the top of the name |
| CardGenerator.PriceButtonIsFixed | frontend/lib/cardGenerator.js:110-123 | the price button sits at y = 520 and shows the prefix and the custom price, whatever comes before it |
| CardGenerator.LayoutCursor | frontend/lib/cardGenerator.js:75-107 | the name lines are the first two wrapped lines; the cursor moves 26 per name line plus 12, 40 for the badge, and 20 per description line plus 20 |
| CardGenerationModal.InitialEntries | frontend/components/CardGenerationModal.jsx:16-22 | one entry per product, in order, with empty custom price and description |
| CardGenerationModal.SetPrice | frontend/components/CardGenerationModal.jsx:24-28 | any text becomes entry i's price; nothing else changes |
| CardGenerationModal.SetDescription | frontend/components/CardGenerationModal.jsx:30-36 | text of at most 200 characters becomes entry i's description; longer text is refused, not cut; nothing else changes |
| CardGenerationModal.EditsKeepLimit | frontend/components/CardGenerationModal.jsx:24-36 | both edits keep every description within 200 characters and the product list unchanged |
| CardGenerationModal.Modal.constructor | frontend/components/CardGenerationModal.jsx:16-22 | the dialog starts with the initial entries |
| CardGenerationModal.Modal.HandlePriceChange | frontend/components/CardGenerationModal.jsx:24-28 | the entries become the price edit of the old entries, within the limit |
| CardGenerationModal.Modal.HandleDescriptionChange | frontend/components/CardGenerationModal.jsx:30-36 | the entries become the description edit of the old entries, within the limit |
| ImageUrl.FirstIdMatch | frontend/lib/utils.js:14 | the leftmost position where `/d/` is followed by an ID character, or none |
| ImageUrl.IdRun | frontend/lib/utils.js:14 | the greedy run of ID characters: all ID characters, stopping at the end or at the first other character |
| ImageUrl.FormatImageUrl | frontend/lib/utils.js:8-27 | null exactly for the empty URL; anything not on Drive is kept; only Drive links change; a Drive `/file/d/` link with an ID becomes a thumbnail link for a well-formed ID |
| ImageUrl.ThumbnailCarriesFirstId | frontend/lib/utils.js:13-17 | the thumbnail carries the whole ID that follows the leftmost match |
| ImageUrl.OpenLinkRewritten | frontend/lib/utils.js:22-24 | other Drive links with `id=` have the leftmost `open?` replaced by `uc?export=view&`, and are kept when they have none |
| ImageUrl.ThumbnailHasNoFilePath | frontend/lib/utils.js:17 | a thumbnail link contains no `/file/d/` |
| ImageUrl.ThumbnailHasNoOpenPath | frontend/lib/utils.js:17 | a thumbnail link contains no `open?` |
| ImageUrl.ThumbnailIsFixed | frontend/lib/utils.js:13-26 | formatting a thumbnail link again leaves it unchanged |
| ImageUrl.FormatIdempotentOnItsOutputs | frontend/lib/utils.js:8-27 | formatting is idempotent on every thumbnail result and on every non-Drive link |
| GeneratedCards.Sanitize | frontend/components/GeneratedCardsView.jsx:23 | each character outside `[A-Za-z0-9]` becomes `_` and none is dropped; letters are lower-cased; only `[a-z0-9_]` remains |
| GeneratedCards.SanitizeIdempotent | frontend/components/GeneratedCardsView.jsx:23 | a sanitised name is its own sanitised form |
| GeneratedCards.CardFileName | frontend/components/GeneratedCardsView.jsx:23 | the file name is as long as the product name plus 4, ends in `.png`, and is otherwise `[a-z0-9_]` |
| GeneratedCards.FileNameCollision | frontend/components/GeneratedCardsView.jsx:23 | names that differ only in case or in characters outside `[A-Za-z0-9]` get the same file name |
| GeneratedCards.ShareOne | frontend/components/GeneratedCardsView.jsx:27-33 | a successful share sends the card as `<name>.png` with the name as title; a failed one downloads it under its file name |
| GeneratedCards.DownloadOne | frontend/components/GeneratedCardsView.jsx:22-25 | the card is saved at once under its sanitised `.png` file name |
| GeneratedCards.SharedNameDiffers | frontend/lib/cardGenerator.js:192 | the single share keeps the raw name, so its file name differs from the downloaded one when the name has a character outside `[a-z0-9]` |
| GeneratedCards.DownloadAll | frontend/components/GeneratedCardsView.jsx:35-42 | card i is downloaded under its file name after i × 200 ms |
| GeneratedCards.DownloadAllStaggered | frontend/components/GeneratedCardsView.jsx:40 | the first download is immediate, and each later one waits at least 200 ms longer than every earlier one |
| GeneratedCards.ShareAll | frontend/components/GeneratedCardsView.jsx:44-71 | a successful share sends one file per card under the title "n Product Cards"; no share support, a refusal or an error downloads them all instead |
| GeneratedCards.SameFileNameEverywhere | frontend/components/GeneratedCardsView.jsx:22-50 | download, download-all and share-all use the same file name for a card |
| QuotationForm.Lines | frontend/components/QuotationForm.jsx:41-47 | one payload line per cart item, same order, carrying its id, name, price, quantity and image URL |
| QuotationForm.IsFormValid | frontend/components/QuotationForm.jsx:65 | the button is enabled only with a customer name, a quotation number and a non-empty list of lines |
| QuotationForm.LinesCoverCart | frontend/components/QuotationForm.jsx:41-47 | a product id is in the payload exactly when it is in the cart |
| QuotationForm.InitialState | frontend/components/QuotationForm.jsx:16-24 | no link, no error, nothing sent |
| QuotationForm.SubmitOutcome | frontend/components/QuotationForm.jsx:31-63 | an empty cart changes nothing; otherwise one request with the details and the lines; a link exactly on success; the backend's error or "Failed to generate quotation" on failure; "An unexpected error occurred" when the call throws |
| QuotationForm.Submitted | frontend/components/QuotationForm.jsx:31-63 | an empty cart leaves the form as it was; otherwise exactly one request is appended, carrying the cart's lines, and the form is no longer loading |
| QuotationForm.Edited | frontend/components/QuotationForm.jsx:27-113 | an edit or a new cart sets the details and drops the link, and sends nothing |
| QuotationForm.RequestIffItems | frontend/components/QuotationForm.jsx:31-65 | a request goes out exactly when the cart is non-empty, so always when the form is valid |
| QuotationForm.EventsKeepFit | frontend/components/QuotationForm.jsx:27-113 | link and error are never shown together; every edit drops the link and keeps the log and the error |
| QuotationForm.Form.constructor | frontend/components/QuotationForm.jsx:16-24 | the form starts with the given number and date and nothing else |
| QuotationForm.Form.EditCustomerName | frontend/components/QuotationForm.jsx:81-84 | the name changes and the link is dropped |
| QuotationForm.Form.EditQuotationDate | frontend/components/QuotationForm.jsx:97-100 | the date changes and the link is dropped |
| QuotationForm.Form.EditQuotationNumber | frontend/components/QuotationForm.jsx:110-113 | the number changes and the link is dropped |
| QuotationForm.Form.ItemsChanged | frontend/components/QuotationForm.jsx:27-29 | a new cart drops the link |
| QuotationForm.Form.Submit | frontend/components/QuotationForm.jsx:31-63 | the form after a submit is the specification's submitted state, and it stays consistent |

## Left out

- I/O, the network and `frontend/lib/api.js` are not modelled. Every service answer is a parameter, and requests are logged as values.
- Timers are not modelled: the 600 ms name-check debounce, the 1 s pause between bulk items, the 3 s success banner and the real download timing. The stagger delays are recorded as numbers.
- The catalog-loading effects are not modelled: their error messages and the category dropdowns filled from the catalog. They only fetch and display.
- Randomness and the clock are parameters: the queue item ids, the quotation number and the quotation date.
- BulkUpload.BulkUploadForm.AddFiles: the chosen ids are assumed fresh and pairwise distinct. The source draws nine random base-36 digits, which makes a collision unlikely but does not exclude one. On a collision, every write by id and `removeFile` would touch both items; the model does not cover that.
- The user-agent test is left out.
- Concurrency is left out. React state batching and the interleaving of events with pending requests are not modelled. Each handler runs to completion, and `setX` calls are direct writes.
- AddProductForm.Form.NameCheckFires: the timer firing and the answer arriving are one step. A check already in flight when the user types again can still overwrite the new status; that race is not captured.
- AddProductForm.Form.Submit: the upload result is given. `convertToJpeg` in this form has no error handler, so an image the browser cannot decode leaves the submit pending forever; that case is not modelled.
- AddProductForm.Form.Submit: the service answers are normal answers only. An upload or add call that rejects is caught at `frontend/components/AddProductForm.jsx` lines 157-159, and the form shows the rejection's own `err.message`; that case is not modelled.
- AddProductForm.Form.NameCheckFires: the check answer is a normal answer only. A check call that rejects, or a success answer without `data` (reading `data.isUnique` throws), throws inside the timer callback at lines 68-75, which has no handler. The status then stays "checking" with no check pending; that case is not modelled.
- BulkUpload.AttemptItem: the service answers are normal answers only. A check, upload or add call that rejects, or a check success answer without `data` (reading `data.isUnique` at `frontend/components/BulkUploadForm.jsx` line 127 throws), lands in the catch at lines 155-158. The item is then an error carrying the thrown error's own message, not "Validation check failed" or a fallback message; that case is not modelled.
- BulkUpload.AttemptItem: a failed image conversion rejects with an `Event` (line 93), whose `message` is `undefined`, so the item's message becomes `undefined`. The model stores `""`, which renders the same at line 344.
- Canvas work is left out: gradients, `roundRect` paths, `loadImage` (a boolean parameter), `toBlob`, the header texts, and the cover-fit scaling of the photo, which is floating point.
- CardGenerator.Layout: text widths are whole numbers from a measure parameter. The canvas measures in fractional pixels.
- CardGenerator.Layout: the price prefix is kept as the three characters the source file holds (a mis-decoded rupee sign).
- Blobs, `downloadImage`, `URL.createObjectURL` and the share sheet are not modelled. Sharing is a parameter saying how far it got.
- CardGenerationModal.Modal.HandlePriceChange: the source copies the array shallowly and writes into the entry objects, which the previous state shares. The model updates entries as values, so that aliasing is not captured. The same holds for HandleDescriptionChange.
- `handleGenerate` of the dialog and the dialog's rendering are not modelled. The former only hands the entries on.
- BulkUpload.BulkUploadForm.RunQueue: the run walks the queue as it was at the start, and writes status by id. Removing a file while a run is in progress is not modelled.
- `progressPercent` (a float division) and `pendingCount` of the bulk form are left out, as is confetti.
- `cn` in `frontend/lib/utils.js` is left out. It only wraps two styling libraries.
- `frontend/components/Cart.jsx` and `frontend/components/TabNavigation.jsx` are presentation only and are not modelled. The cart view's guard against quantities below 1 is the one in Cart.UpdateQuantity.
- QuotationForm.Form.Submit: a success answer is assumed to carry `data.downloadUrl`. A success answer without `data` throws at `result.data.downloadUrl` and reaches the catch; that is the `Threw` case. A success answer whose `data` lacks `downloadUrl` leaves the form with neither a link nor an error; that answer is not modelled.
- The `required` attributes and the disabled submit button are not modelled. The model submits whenever the handler is called, as the handler does; QuotationForm.RequestIffItems relates the two.
- Strings are sequences of characters, and case mapping is ASCII only. `toUpperCase` and `toLowerCase` on non-ASCII letters, and UTF-16 surrogate pairs, are not modelled.
- White space for `trim` is the ASCII and Unicode space characters listed in `Strings.IsSpace`, without line terminators beyond those.
- Products.NormalizedQuery: a product field the record lacks is the empty string, and `product_id` is held as its string form.
- CardGenerator.Layout: a product without a name throws a TypeError in the source (`product_name.toUpperCase()`); the model treats the name as empty.
- GeneratedCards.CardFileName: a product without a name throws a TypeError in the source (`product_name.replace(...)`); the model gives it the file name `.png`.

## Findings

| source | as written | input that shows it | evidently intended | confidence | as-written member | corrected member |
|---|---|---|---|---|---|---|
| frontend/lib/cardGenerator.js:67-71 | `drawPlaceholder(ctx, imgX, imgY, imgSize, imgSize, grayText, width)` passes six arguments after `ctx` to a function with five parameters (:130), so `color` gets 240 and `canvasWidth` gets `"#6B7280"`; the caption's x is `NaN` and "No Image" is never drawn | any product with an empty `image_url`, or whose image fails to load | `drawPlaceholder(ctx, imgX, imgY, imgSize, grayText, width)`: "No Image" in grey, centred at x = 200 | not executed | CardGenerator.PlaceholderAsWrittenDrawsNoLabel | CardGenerator.PlaceholderIntendedDrawsLabel |

The card model (`CardGenerator.Layout`, `CardGenerator.GenerateProductCard`) draws the placeholder as the calls are written, without its caption; the corrected call appears only in `CardGenerator.PlaceholderIntendedDrawsLabel`.
