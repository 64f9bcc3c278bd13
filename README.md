# Botanical inventory: a verified model of the web app's rules

Botanical inventory is a Next.js web application for a plant nursery. Visitors
browse and search a paginated public catalogue. An administrator signs in through
OAuth, sees a dashboard of every plant with totals, filters and sort orders, and
creates plants through a long form with an image upload. All storage, auth and
database work is done by a hosted backend SDK. What stays in the application is a
set of small rules and a few UI state machines. This project models them in Dafny
and proves what they promise.

One module per source file, plus two shared modules:

- `Text` (text.dfy): the JavaScript string operations the pages use. These are
  `indexOf`/`includes`/`split`, UTF-16 `length`, ASCII `toLowerCase`, `trim`,
  decimal printing and `parseInt`.
- `UrlEncoding` (url_encoding.dfy): UTF-8, `encodeURIComponent`, and the
  `application/x-www-form-urlencoded` serializer that `URLSearchParams.toString`
  uses, with the matching decoder.
- `CreatePage` (create_page.dfy): the admin create page. It covers the stock
  status preview, tag stripping, the per-field limits and ordered error list, the
  insert payload, the database error messages, the category checkboxes, and the
  `handleCreate` handler as a class over the page's state.
- `Dashboard` (dashboard.dfy): the admin dashboard. It covers the totals, the
  three filters, the six sort orders (an in-place insertion sort on an array) and
  the status badge.
- `Catalogue` (catalogue.dfy): the public catalogue. It covers page ranges, page
  count, the "Showing x–y of n" label, which pagination controls show, the query
  string, and `updateParams` as a loop over a parameter list.
- `UploadImage` (upload_image.dfy): file validation, the extension and storage
  path, the validation gate of `uploadPlantImage`, and path extraction in
  `deletePlantImage`.
- `ImageUploadWidget` (image_upload.dfy): the upload widget as a class whose
  handlers update its fields. The parent's callbacks and the progress values are
  recorded in order.
- `CharacterCounter` (character_counter.dfy): over/near-limit tests, colour
  tiers, messages and bar width, stated on integers.
- `ConditionalNavbar` and `AdminLayout` (conditional_navbar.dfy,
  admin_layout.dfy): which header shows on which route, the active link, and the
  theme toggle as a class over the theme, storage and document class.
- `Navbar` (navbar.dfy): the search URL, the account links, and a class for the
  sign-in state, auth events, logout and the mobile menu.
- `AuthCallback` (auth_callback.dfy): the outcome table of the OAuth landing
  page and a class for its state.

Calls into the backend become parameters that say how the call settled. Examples
are `isAdmin()` as a `bool`, the insert as `Inserted(id) | InsertFailed(error)`,
and the upload as `PublicUrl(url) | StorageFailed(message)`. Router pushes and
callbacks to parent components are appended to sequences, so "nothing was sent"
and "called once, before X" are statements about those sequences.

## Model

| member | source | states |
|---|---|---|
| CreatePage.GetStockStatus | src/app/admin/create/page.tsx:111-115 | Quantity 0 is out of stock whatever the minimum. A non-zero quantity up to the minimum is low stock, and above it is available. The three cases are exclusive and cover every input (three iff clauses). |
| CreatePage.Shortage | src/app/admin/create/page.tsx:525-528 | The shortage line shows exactly when 0 < quantity <= minimum. Its number is non-negative and adds to the quantity to give the minimum. |
| CreatePage.ShortageOnlyWhenLow | src/app/admin/create/page.tsx:525-528 | A shown shortage line always goes with the low-stock preview. |
| CreatePage.StripTags | src/app/admin/create/page.tsx:69-74 | `replace(/<[^>]*>/g, '')` never makes the text longer. |
| CreatePage.NoCloseMeansNoTag | src/app/admin/create/page.tsx:69 | Text without a `>` holds no complete tag. |
| CreatePage.StripTagsLeavesNoTag | src/app/admin/create/page.tsx:69 | The stripped text contains no `<…>` span. |
| CreatePage.StripTagsNoTag | src/app/admin/create/page.tsx:69 | Stripping leaves text without a tag unchanged. |
| CreatePage.StripTagsIdempotent | src/app/admin/create/page.tsx:128-133 | Stripping twice equals stripping once. |
| CreatePage.StripTagsWithoutOpen | src/app/admin/create/page.tsx:69 | Text with no `<` is unchanged. |
| CreatePage.StripLeadingTag | src/app/admin/create/page.tsx:69 | A leading `<x>` whose body has no `>` is removed whole. |
| CreatePage.EmptyForm | src/app/admin/create/page.tsx:249-269 | The reset form has every text field empty (names, descriptions, classification, SKU, price, location, supplier, notes), no categories, no image, not featured, quantity 0, minimum stock 5 and today's date. |
| CreatePage.HasOverLimitFieldsMeaning | src/app/admin/create/page.tsx:59-74 | `hasOverLimitFields` holds iff some field's stripped length exceeds its limit (5000, 2000, 3000, 1000, 500, 2000). |
| CreatePage.HasOverLimitFields | src/app/admin/create/page.tsx:59-74 | `hasOverLimitFields`: some field's stripped UTF-16 length exceeds its limit (description 5000, habitat 2000, care tips 3000, inventory notes 1000, plant parts used 500, uses 2000). Its meaning is proved by HasOverLimitFieldsMeaning. |
| CreatePage.ErrorsFor | src/app/admin/create/page.tsx:135-152 | At most one error per checked field. |
| CreatePage.ErrorsForSound | src/app/admin/create/page.tsx:135-152 | Every reported error names a checked field that is over its limit, with excess = length − limit > 0. |
| CreatePage.ErrorsForComplete | src/app/admin/create/page.tsx:135-152 | Every checked field over its limit is reported with its exact excess. |
| CreatePage.ErrorsForOrdered | src/app/admin/create/page.tsx:135-152 | Errors come in the order the fields were checked. |
| CreatePage.ExpectedErrorsOrdered | src/app/admin/create/page.tsx:135-152 | Errors come in the order description, habitat, care tips, inventory notes, plant parts used, uses. |
| CreatePage.ExpectedErrors | src/app/admin/create/page.tsx:135-152 | The error list the six checks build: one error per over-limit field, in check order. ErrorsForSound, ErrorsForComplete, ErrorsForOrdered and ExpectedErrorsIffOverLimit prove this. |
| CreatePage.ExpectedErrorsIffOverLimit | src/app/admin/create/page.tsx:126-157 | The error list is non-empty iff `hasOverLimitFields` holds. |
| CreatePage.ErrorsForAdvance | src/app/admin/create/page.tsx:135-152 | One more test advances the invariant "errors so far + errors of the remaining fields = all errors". |
| CreatePage.CheckLength | src/app/admin/create/page.tsx:135-137 | One test pushes exactly one error when the stripped length is over the limit, and nothing otherwise. |
| CreatePage.ValidateLengths | src/app/admin/create/page.tsx:126-152 | The six pushes, in sequence, build exactly the expected error list. |
| CreatePage.ErrorMessages | src/app/admin/create/page.tsx:155 | One message per error. |
| CreatePage.ErrorMessage | src/app/admin/create/page.tsx:136-151 | The sentence for one error: the field's name, then "is" or "are", then the excess in decimal, then "characters too long". |
| CreatePage.ValidationStatus | src/app/admin/create/page.tsx:155 | The status line: "❌ ", the messages joined by ". ", then ". Please shorten the text." |
| CreatePage.EnabledSubmitPassesChecks | src/app/admin/create/page.tsx:668 | When the submit button is enabled, no image is uploading and validation finds no error. |
| CreatePage.OrNull | src/app/admin/create/page.tsx:165-189 | `value \|\| null`: null exactly for the empty string, else the value itself. |
| CreatePage.BuildPayload | src/app/admin/create/page.tsx:163-190 | `category_id` is the first selected id, or null when none is selected. Quantity, minimum stock, name, image, featured flag and creation time pass through. Each of the fourteen optional texts (scientific name, description, habitat, care instructions, family, plant parts used, uses, SKU, unit price text, location, section, supplier, supplier contact, inventory notes) is `OrNull` of its own form field. An empty acquisition date becomes today. |
| CreatePage.CategoryLinks | src/app/admin/create/page.tsx:231-235 | One junction row per selected category, in order, each naming the new plant. |
| CreatePage.LongestBeforeLength | src/app/admin/create/page.tsx:217 | A captured constraint name is non-empty and followed by `_length`. |
| CreatePage.ConstraintName | src/app/admin/create/page.tsx:217 | `match(/chk_(\w+)_length/)`: the capture at the first `chk_` whose word run contains `_length`, taking the greedy capture that LongestBeforeLength describes, or none. |
| CreatePage.UnderscoresToSpaces | src/app/admin/create/page.tsx:218 | `replace(/_/g, ' ')` keeps the length. |
| CreatePage.KnownCodeMessages | src/app/admin/create/page.tsx:209-214 | Codes PGRST116, 23505 and 42501 each get their fixed message. |
| CreatePage.OtherErrorMessages | src/app/admin/create/page.tsx:208-226 | Any other error shows the constraint message when its text mentions `chk_` and `length`. Otherwise it shows the database text, or "Unknown database error" when that text is empty. |
| CreatePage.InsertErrorMessage | src/app/admin/create/page.tsx:208-226 | The message for a failed insert, decided by code first and then by the text. KnownCodeMessages and OtherErrorMessages state each case. |
| CreatePage.RemoveAll | src/app/admin/create/page.tsx:369 | `filter(id => id !== x)` removes every copy of x, keeps every other id with its multiplicity, and the result is a subsequence of the input, so kept ids stay in order. |
| CreatePage.RemoveAllAppend | src/app/admin/create/page.tsx:369 | Removal distributes over concatenation: what is left of `a + b` is what is left of `a`, then what is left of `b`. |
| CreatePage.RemoveAllFirst | src/app/admin/create/page.tsx:369 | After removal the first id is the first id of the input that differs from x. |
| CreatePage.UncheckedCategoryId | src/app/admin/create/page.tsx:169 | After unchecking x, the payload's `category_id` is the first selected id other than x. |
| CreatePage.ToggledCategories | src/app/admin/create/page.tsx:365-370 | Checking appends the id. Unchecking leaves it absent, keeps every other id with its multiplicity, and keeps their order (a subsequence of the old selection). |
| CreatePage.CreatePageState.constructor | src/app/admin/create/page.tsx:27-56 | The page starts with the empty form, not loading, no status and nothing sent. |
| CreatePage.CreatePageState.SetImageUploading | src/app/admin/create/page.tsx:36 | The widget's uploading flag is recorded and nothing else changes. |
| CreatePage.CreatePageState.ToggleCategory | src/app/admin/create/page.tsx:365-370 | Only the selected ids change, to their toggled value. |
| CreatePage.CreatePageState.HandleCreate | src/app/admin/create/page.tsx:117-282 | While an image uploads, only the wait message is set. With an over-limit field, only the validation message is set, and nothing is inserted. Otherwise exactly one payload is inserted and loading ends false. On success the category links are sent, the form is reset and the page goes to the dashboard. On failure the error shows and the form is kept. |
| CreatePage.CreatePageState.Submit | src/app/admin/create/page.tsx:159-281 | The insert part of the handler: one row, then the success or failure branch, then loading false. |
| CreatePage.CreatePageState.Created | src/app/admin/create/page.tsx:231-274 | After an insert: links only when some category is selected, the success status, the reset form and one push of "/admin/dashboard". |
| Dashboard.ComputeTotals | src/app/admin/dashboard/page.tsx:95-106 | The plant count is the list length. The featured and low-stock counts never exceed it. |
| Dashboard.SumQuantityAppend | src/app/admin/dashboard/page.tsx:99 | The quantity sum is additive over concatenation. |
| Dashboard.TotalsAppend | src/app/admin/dashboard/page.tsx:95-106 | The totals of a concatenation are the sums of the parts' totals. |
| Dashboard.TotalsOne | src/app/admin/dashboard/page.tsx:95-106 | One plant counts 1, plus 1 featured if flagged, plus 1 low stock iff its quantity is defined, non-null and <= 5 (0 included). Its quantity adds `quantity \|\| 0`. |
| Dashboard.SumQuantityNonNegative | src/app/admin/dashboard/page.tsx:99 | Non-negative quantities give a non-negative total. |
| Dashboard.GetStatusBadge | src/app/admin/dashboard/page.tsx:178-193 | There is no badge iff the status is falsy and the quantity is undefined. Without a status the badge is always one of the three stock badges. |
| Dashboard.StatusTakesPrecedence | src/app/admin/dashboard/page.tsx:181 | A stored status decides the badge whatever the quantity. |
| Dashboard.BadgeFallback | src/app/admin/dashboard/page.tsx:181 | Without a status: 0 is out of stock, 1..5 (and negatives) low stock, above 5 available, and null available. |
| Dashboard.FallbackStatus | src/app/admin/dashboard/page.tsx:181 | The status a quantity stands for without a stored one: 0 is out of stock, up to 5 is low stock, anything else (and null or undefined) is available. BadgeFallback and FallbackIsCreatePreviewAtFive state it for every quantity. |
| Dashboard.StockBadge | src/app/admin/dashboard/page.tsx:183-193 | The badge for each of the three stock statuses. |
| Dashboard.LowStockCardMatchesBadge | src/app/admin/dashboard/page.tsx:96-98 | The low-stock card counts exactly the rows whose quantity alone gives an out-of-stock or low-stock badge. |
| Dashboard.FallbackIsCreatePreviewAtFive | src/app/admin/dashboard/page.tsx:181 | The dashboard fallback equals the create-page preview with the minimum fixed at 5. |
| Dashboard.ThresholdsDiffer | src/app/admin/dashboard/page.tsx:181 | The two thresholds disagree on concrete rows, in both directions. |
| Dashboard.SearchFiltered | src/app/admin/dashboard/page.tsx:118-125 | Keeps exactly the rows whose lower-cased name, scientific name or SKU contains the query, and adds none. |
| Dashboard.MatchesSearch | src/app/admin/dashboard/page.tsx:119-123 | The search test: the lower-cased name, scientific name or SKU contains the lower-cased query. A null field never matches. |
| Dashboard.CategoryFiltered | src/app/admin/dashboard/page.tsx:128-130 | Keeps exactly the rows with an equal `category_id`. |
| Dashboard.StatusFiltered | src/app/admin/dashboard/page.tsx:133-135 | Keeps exactly the rows with an equal `status`. |
| Dashboard.Selected | src/app/admin/dashboard/page.tsx:115-135 | A row is kept iff it was loaded and passes every active filter. An empty search or "all" disables its filter. |
| Dashboard.SelectedNoFilters | src/app/admin/dashboard/page.tsx:115-135 | With no search and both filters "all", the list is the loaded list. |
| Dashboard.ParseSortOrder | src/app/admin/dashboard/page.tsx:138-157 | Exactly the six known keys select a sort order. |
| Dashboard.LexLeTotal | src/app/admin/dashboard/page.tsx:140 | The name comparison relates every pair. |
| Dashboard.LexLeTransitive | src/app/admin/dashboard/page.tsx:140 | The name comparison is transitive. |
| Dashboard.LeTotal | src/app/admin/dashboard/page.tsx:139-156 | Each comparator orders every pair. |
| Dashboard.Le | src/app/admin/dashboard/page.tsx:139-156 | For each of the six orders, whether the comparator lets `a` come before `b`: by name (code points), by creation time, or by `quantity \|\| 0`, ascending or descending. LeTotal and LeTransitive prove it is a total preorder. |
| Dashboard.LeTransitive | src/app/admin/dashboard/page.tsx:139-156 | Each comparator is transitive. |
| Dashboard.Reverse | src/app/admin/dashboard/page.tsx:143 | Reversal keeps the length and mirrors indices. |
| Dashboard.NameOrdersReversed | src/app/admin/dashboard/page.tsx:139-144 | A list is in `name_asc` order iff its reverse is in `name_desc` order. |
| Dashboard.QuantityOrdersMonotone | src/app/admin/dashboard/page.tsx:151-156 | `quantity_asc` is non-decreasing and `quantity_desc` non-increasing in `quantity \|\| 0`. |
| Dashboard.SwapKeepsInsertionInvariant | src/app/admin/dashboard/page.tsx:138-157 | One swap of the insertion step keeps the sortedness and displacement invariants. |
| Dashboard.InsertionDone | src/app/admin/dashboard/page.tsx:138-157 | When the element stops moving, the prefix is sorted. |
| Dashboard.InsertIntoSorted | src/app/admin/dashboard/page.tsx:138-157 | Inserting `a[i]` into the sorted prefix leaves `a[..i+1]` sorted and permutes the array. |
| Dashboard.SortInPlace | src/app/admin/dashboard/page.tsx:138-157 | `filtered.sort(cmp)` leaves the array sorted by the comparator and a permutation of its old contents. |
| Dashboard.NarrowStages | src/app/admin/dashboard/page.tsx:115-135 | The three filter stages, applied in turn, give exactly the selected rows. |
| Dashboard.SortStage | src/app/admin/dashboard/page.tsx:137-157 | A known key sorts the rows into a permutation. An unknown key leaves them as they were. |
| Dashboard.ApplyFilters | src/app/admin/dashboard/page.tsx:114-160 | The effect's result is a permutation of the selected rows, sorted when the key is known. |
| Dashboard.FilteredRowsAreLoaded | src/app/admin/dashboard/page.tsx:114-160 | Every shown row was loaded. With no search and no filters, the shown rows are a permutation of the loaded ones. |
| Catalogue.RowRange | src/app/plants/page.tsx:69-71 | Page p requests an inclusive range of exactly 12 indices. |
| Catalogue.RangesAdjacent | src/app/plants/page.tsx:69-71 | Consecutive pages request adjacent ranges. |
| Catalogue.RangesPartitionRows | src/app/plants/page.tsx:69-71 | Ranges of different pages are disjoint, and every row index lies in exactly one page's range. |
| Catalogue.TotalPages | src/app/plants/page.tsx:90 | `ceil(total / 12)`: the least n with 12·n >= total. |
| Catalogue.LabelWithinTotal | src/app/plants/page.tsx:155-156 | For 1 <= page <= totalPages: 1 <= start <= end <= total, at most 12 rows, and the last page ends at the total. |
| Catalogue.Label | src/app/plants/page.tsx:156 | The numbers of "Showing start–end of total": `(page − 1)·12 + 1` and `min(page·12, total)`. LabelWithinTotal and LabelMatchesRange give their meaning. |
| Catalogue.LabelMatchesRange | src/app/plants/page.tsx:156 | The label starts at the requested range's first row, 1-based, and ends no later than its last. |
| Catalogue.PaginationControls | src/app/plants/page.tsx:166-188 | Controls show iff totalPages > 1. Prev shows iff page > 1, Next iff page < totalPages, and the numbers are exactly 1..totalPages. |
| Catalogue.Get | src/app/plants/page.tsx:31-33 | `get` gives the first value of the key, or null when it has none. |
| Catalogue.DeleteValues | src/app/plants/page.tsx:95 | `delete` removes every value of the key and no other key's values. |
| Catalogue.Delete | src/app/plants/page.tsx:95 | `delete(key)` drops every entry with that name. DeleteValues states the effect. |
| Catalogue.SetValues | src/app/plants/page.tsx:96 | `set` leaves the key with exactly the new value and no other key changed. |
| Catalogue.Set | src/app/plants/page.tsx:96 | `set(key, value)`: the first entry with that name takes the value and later ones go, or the pair is appended. SetValues states the effect. |
| Catalogue.ApplyEntryValues | src/app/plants/page.tsx:94-97 | One entry deletes (null) or sets (string) its key and touches no other key. |
| Catalogue.ApplyEntriesUntouched | src/app/plants/page.tsx:94-97 | Keys not named in the argument keep their values. |
| Catalogue.ApplyEntriesTouched | src/app/plants/page.tsx:94-97 | Each named key ends deleted or with exactly its new value. |
| Catalogue.UpdateParams | src/app/plants/page.tsx:92-100 | The `forEach` loop, then `set("page", "1")`, computes the merged parameters. The target is "/plants?" plus their serialization. |
| Catalogue.UpdatedParams | src/app/plants/page.tsx:92-98 | The merge as written: the entries applied in order, then `page` set to "1". UpdatedParamsFirstPage and UpdatedParamsOtherKeys state what it gives. |
| Catalogue.Serialize | src/app/plants/page.tsx:99 | `toString()`: `name=value` pairs, each side form-urlencoded, joined by `&`. |
| Catalogue.UpdatedParamsFirstPage | src/app/plants/page.tsx:98 | After `updateParams`, `page` is exactly "1", whatever the argument asked for. |
| Catalogue.UpdatedParamsOtherKeys | src/app/plants/page.tsx:94-97 | Every key other than `page` is deleted, set or kept as the argument says. |
| Catalogue.UpdatedParamsIntended | src/app/plants/page.tsx:92-100 | The corrected merge: `page` is reset only when the argument does not set it. |
| Catalogue.IntendedKeepsRequestedPage | src/app/plants/page.tsx:98 | The corrected merge keeps a requested page, resets to "1" otherwise, and treats other keys as written. |
| Catalogue.LoadQuery | src/app/plants/page.tsx:31-33 | An empty `q` or `category` applies no filter. A non-empty `q` becomes `%q%` and a non-empty category is the filter value itself. A missing page reads as 1, and a present one is `parseInt` of its text. |
| Catalogue.NextButtonTarget | src/app/plants/page.tsx:182-183 | Next as written reloads page 1. The corrected merge reloads page + 1. |
| UploadImage.ValidateImageFile | src/lib/uploadImage.ts:248-267 | Accepts iff the type is one of the four image types and size <= 5·1024·1024. The type is checked first, so a file failing both gets the type error. |
| UploadImage.SizeBoundary | src/lib/uploadImage.ts:250-264 | Exactly 5 MB is accepted, and one byte more gets the size error. |
| UploadImage.SplitWithoutSeparator | src/lib/uploadImage.ts:32 | `split` of text without the separator is the text alone. |
| UploadImage.SplitLastAfterDot | src/lib/uploadImage.ts:32 | The last piece of `split('.')` is the text after the last dot. |
| UploadImage.FileExtension | src/lib/uploadImage.ts:32 | The extension is never empty. |
| UploadImage.FileExtensionAfterLastDot | src/lib/uploadImage.ts:32 | The extension is the lower-cased text after the last dot, or "jpg" when that text is empty. |
| UploadImage.FileExtensionNoDot | src/lib/uploadImage.ts:32 | A name with no dot gives the whole name lower-cased, or "jpg" when empty. |
| UploadImage.UploadPath | src/lib/uploadImage.ts:33-36 | The storage path starts with "plants/". |
| UploadImage.UploadPlantImage | src/lib/uploadImage.ts:8-139 | Storage is contacted iff the file passes validation, and then under its generated path. A URL is returned iff the file is valid and storage gives a non-empty URL, and it is that URL. An empty URL gives "Failed to get public URL", and a storage failure gives its own message. |
| UploadImage.UploadGateMatchesValidation | src/lib/uploadImage.ts:16-29 | The gate of `uploadPlantImage` rejects exactly what `validateImageFile` rejects, for the same first reason, before any storage call. |
| UploadImage.Before | src/lib/uploadImage.ts:152 | The first piece of a split is a prefix of the text. |
| UploadImage.SplitFirst | src/lib/uploadImage.ts:152 | `split(sep)[0]` is the text before the first separator. |
| UploadImage.BeforeHasNoSeparator | src/lib/uploadImage.ts:152 | That first piece contains no separator. |
| UploadImage.ExtractStoragePath | src/lib/uploadImage.ts:148-158 | No path iff the URL is empty or lacks "/plant-images/". |
| UploadImage.ExtractedPathFollowsFirstMarker | src/lib/uploadImage.ts:152-158 | The path starts right after the first marker and contains no further marker. It ends at the second marker, if there is one. |
| UploadImage.DeletePlantImage | src/lib/uploadImage.ts:146-174 | Remove is called with the extracted path, if any. The result is true iff a path was found and removal succeeded. |
| UploadImage.ExtractStoragePathRoundTrip | src/lib/uploadImage.ts:151-158 | Extracting from prefix + "/plant-images/" + path gives back path, when neither part adds a marker at the seam. |
| UploadImage.NoMarkerWithoutEarlySlash | src/lib/uploadImage.ts:152 | Text without a `/` where a marker could start contains no marker. |
| UploadImage.ExtractStoragePathOverlap | src/lib/uploadImage.ts:152-158 | A prefix ending in "/plant-images" moves the split: extraction then returns "plant-images/…" rather than the stored path. |
| UploadImage.OverlapUrlSplit | src/lib/uploadImage.ts:152 | The overlapping URL reads the same split at the earlier marker. |
| UploadImage.OverlapHeadHasNoMarker | src/lib/uploadImage.ts:152 | The head of the overlapping URL contains no marker. |
| UploadImage.OverlapRestHasNoMarker | src/lib/uploadImage.ts:152 | The tail of the overlapping URL contains no marker. |
| UploadImage.UploadPathHasNoMarker | src/lib/uploadImage.ts:33-36 | A generated path contains no "/plant-images/" when the random text and extension have no `/`. |
| UploadImage.UploadThenDeleteSamePath | src/lib/uploadImage.ts:36 | Deleting by the public URL of a generated path removes exactly that path. |
| ImageUploadWidget.ResizedFile | src/lib/uploadImage.ts:224-227 | The resized file is a JPEG under the original name. |
| ImageUploadWidget.InitialPreview | src/components/ImageUpload.tsx:22 | `currentImageUrl \|\| null`: an absent or empty URL gives no preview. |
| ImageUploadWidget.SelectError | src/components/ImageUpload.tsx:38 | The shown error is never empty. It is the validation's message when that one is non-empty. |
| ImageUploadWidget.AttemptUpload | src/components/ImageUpload.tsx:54-108 | The progress values are a prefix of 0, 10, 30, 40, 90, 100 of length >= 2. The run succeeds iff it reaches 100, iff the resize and the upload both succeeded with a non-empty URL. |
| ImageUploadWidget.ResizedTooLarge | src/components/ImageUpload.tsx:68-76 | A resized file over 5 MB fails with the size message after progress 40. |
| ImageUploadWidget.ResizedWithinLimit | src/components/ImageUpload.tsx:68-85 | A resized file within 5 MB uploads iff storage gives a non-empty URL. The "no URL" stop at 90 is then never reached. |
| ImageUploadWidget.UploadingFlags | src/components/ImageUpload.tsx:59 | The `onUploadingChange` values in a log: never more of them than events, and each one is a notification that is in the log. |
| ImageUploadWidget.UploadingFlagsAppend | src/components/ImageUpload.tsx:59 | The notifications of a concatenation are the concatenated notifications. |
| ImageUploadWidget.UploadKeepsPaired | src/components/ImageUpload.tsx:58-106 | A `true`, other callbacks, then one `false` keep the notifications paired. |
| ImageUploadWidget.OtherEventKeepsPaired | src/components/ImageUpload.tsx:89 | Other callbacks keep the notifications paired. |
| ImageUploadWidget.Stage | src/components/ImageUpload.tsx:218-220 | One of the three captions: below 30, below 90, or at least 90. |
| ImageUploadWidget.ProgressLabel | src/components/ImageUpload.tsx:218-220 | The caption for a progress value: "Resizing image..." below 30, "Uploading to cloud..." below 90, and "Finishing up..." otherwise. |
| ImageUploadWidget.StageMonotone | src/components/ImageUpload.tsx:218-220 | The caption never goes back as progress grows. |
| ImageUploadWidget.LabelsAlongFullTrace | src/components/ImageUpload.tsx:218-220 | Along a full run the captions are "Resizing…" twice, "Uploading…" twice, then "Finishing…" twice. |
| ImageUploadWidget.ImageUpload.constructor | src/components/ImageUpload.tsx:22-26 | Initial state: the preview from the prop, no file, not uploading, progress 0 and no error. |
| ImageUploadWidget.ImageUpload.HandleFileSelect | src/components/ImageUpload.tsx:29-52 | No file changes nothing. An invalid file only sets the error and keeps the old file. A valid one clears the error, is stored, and its data URL becomes the preview. |
| ImageUploadWidget.ImageUpload.HandleUpload | src/components/ImageUpload.tsx:54-108 | No file changes nothing. Otherwise it records the progress values then 0 and one `true` before one `false`. On success it calls `onImageUploaded(url)` once, between them, and sets preview := url and file := none. On failure it keeps the preview and the file and sets the error. |
| ImageUploadWidget.ImageUpload.Begin | src/components/ImageUpload.tsx:58-61 | Uploading on, parent notified, progress 0, error cleared. |
| ImageUploadWidget.ImageUpload.SetProgress | src/components/ImageUpload.tsx:66 | One progress value is recorded and nothing else changes. |
| ImageUploadWidget.ImageUpload.Fail | src/components/ImageUpload.tsx:100-106 | Error set, uploading off with one `false`, progress 0, and the file and preview kept. |
| ImageUploadWidget.ImageUpload.Succeed | src/components/ImageUpload.tsx:89-98 | `onImageUploaded(url)`, then preview := url, file := none, uploading off and progress 0. The remove button shows. |
| ImageUploadWidget.ImageUpload.HandleRemove | src/components/ImageUpload.tsx:110-118 | Preview, file and error cleared, and `onImageRemoved` called once. |
| ImageUploadWidget.ImageUpload.SetCurrentImageUrl | src/app/admin/create/page.tsx:477-480 | A new `currentImageUrl` from the parent changes only the prop, not the preview. |
| ImageUploadWidget.ImageUpload.HandleCancel | src/components/ImageUpload.tsx:120-127 | File and error cleared, the preview set from the prop's current value, and no callback. |
| ImageUploadWidget.CancelAfterUploadShowsUploadedImage | src/app/admin/create/page.tsx:477-480 | With the create page feeding the uploaded URL back as the prop, cancelling a later selection shows the uploaded image. |
| CharacterCounter.Remaining | src/components/CharacterCounter.tsx:9 | `max - current` is negative iff over the limit. |
| CharacterCounter.IsOverLimit | src/components/CharacterCounter.tsx:11 | `current > max`. |
| CharacterCounter.IsNearLimit | src/components/CharacterCounter.tsx:9-10 | `percentage >= 80` in integers: 100·current ≥ 80·max. With max 0 it holds iff current > 0, because the quotient is Infinity there and NaN at 0/0. |
| CharacterCounter.TierOf | src/components/CharacterCounter.tsx:15-19 | Red iff over. Otherwise orange iff near. Otherwise neutral. The three are exclusive. |
| CharacterCounter.OverMessage | src/components/CharacterCounter.tsx:23-27 | "N over limit!" shows iff over, with N = current − max > 0. |
| CharacterCounter.RemainingMessage | src/components/CharacterCounter.tsx:29-33 | "N remaining" shows iff near and not over, with N = max − current. |
| CharacterCounter.MessagesMatchTier | src/components/CharacterCounter.tsx:23-33 | The two messages never show together, and each shows exactly in its colour tier. |
| CharacterCounter.OverImpliesNear | src/components/CharacterCounter.tsx:10-11 | Over the limit is also near it. |
| CharacterCounter.TierMonotone | src/components/CharacterCounter.tsx:15-19 | More text never calms the colour down. |
| CharacterCounter.NearThresholdExample | src/components/CharacterCounter.tsx:10 | 4000 of 5000 is near and 3999 is not. |
| CharacterCounter.BarWidth | src/components/CharacterCounter.tsx:43 | `min(percentage, 100)` never exceeds 100. It is exactly 100 iff current >= max (max > 0). It is NaN iff both are 0. |
| CharacterCounter.CounterAgreesWithValidation | src/app/admin/create/page.tsx:401-405 | A counter is red iff its field is over the limit, and its "over limit" number is the excess the create handler reports. |
| ConditionalNavbar.HiddenExactly | src/components/ConditionalNavbar.tsx:10-23 | The public navbar is hidden iff the path starts with "/admin" and is neither "/admin" nor "/admin/callback". |
| ConditionalNavbar.ShowNavbar | src/components/ConditionalNavbar.tsx:12-18 | `!isAdminRoute \|\| isLoginPage \|\| isCallbackPage`. HiddenExactly and ShownOutsideAdmin give its meaning. |
| ConditionalNavbar.ShownOutsideAdmin | src/components/ConditionalNavbar.tsx:12-18 | It shows on every path not starting with "/admin", and on a null path. |
| ConditionalNavbar.PrefixNotSegment | src/components/ConditionalNavbar.tsx:12-23 | "/administrator" and "/admin/dashboard" hide it. The login page, the callback page and "/plants" show it. |
| AdminLayout.AdminNavbarCases | src/app/admin/layout.tsx:62 | The admin header is off when not authenticated and on login or callback, and on for an authenticated user anywhere else. |
| AdminLayout.ShowAdminNavbar | src/app/admin/layout.tsx:62 | Authenticated, and the path is neither "/admin" nor "/admin/callback". AdminNavbarCases states each case. |
| AdminLayout.IsActive | src/app/admin/layout.tsx:59 | True iff `pathname === path`. |
| AdminLayout.ActivePills | src/app/admin/layout.tsx:59 | No path highlights both the dashboard and the create pill. Each pill is highlighted on its own page. A page below a pill's path does not highlight it. |
| AdminLayout.HeaderCount | src/app/admin/layout.tsx:62-80 | Under the admin layout, at most two headers could show. |
| AdminLayout.HeadersUnderAdmin | src/app/admin/layout.tsx:62 | Combined with the public navbar's rule, every admin page shows at most one header. It shows exactly one iff authenticated or on login or callback. |
| AdminLayout.DashboardHeaders | src/app/admin/layout.tsx:62 | "/admin/dashboard" gets one header when authenticated and none otherwise. |
| AdminLayout.Toggled | src/app/admin/layout.tsx:46 | The new theme is "dark" or "light", and always differs from a light or dark old one. |
| AdminLayout.ToggleTwice | src/app/admin/layout.tsx:45-50 | Toggling twice restores the theme. |
| AdminLayout.InitialTheme | src/app/admin/layout.tsx:37-39 | The saved theme if there is one (non-empty), else the system preference. |
| AdminLayout.Layout.constructor | src/app/admin/layout.tsx:13-14 | Light theme, not authenticated, no dark class. |
| AdminLayout.Layout.InitTheme | src/app/admin/layout.tsx:36-42 | Sets the initial theme with the dark class matching it, and changes nothing else. |
| AdminLayout.Layout.ToggleTheme | src/app/admin/layout.tsx:45-50 | Toggles the theme, stores it under "theme" and keeps the dark class in step. |
| AdminLayout.Layout.SessionChanged | src/app/admin/layout.tsx:19-33 | Authentication follows whether a session exists. |
| AdminLayout.Layout.HandleSignOut | src/app/admin/layout.tsx:53-56 | One push of "/admin", and nothing else changes. |
| Navbar.BlankSearch | src/components/Navbar.tsx:53-54 | A missing, empty or whitespace-only query goes to exactly "/plants". |
| Navbar.SearchTarget | src/components/Navbar.tsx:53-54 | The search target: "/plants?q=" plus `encodeURIComponent` of the trimmed query, or "/plants" when that is empty. BlankSearch, SearchRoundTrip and SearchIgnoresSurroundingSpace give its meaning. |
| Navbar.SearchRoundTrip | src/components/Navbar.tsx:53-54 | Any other query goes to "/plants?q=" + `encodeURIComponent(trim(q))`. That value decodes back to the trimmed query and holds no `&`, `#`, `=`, `+` or space. |
| Navbar.SearchIgnoresSurroundingSpace | src/components/Navbar.tsx:53 | Surrounding whitespace does not change the target. |
| Navbar.EmailOrNull | src/components/Navbar.tsx:31 | `email \|\| null`: a kept email is non-empty and the user's. |
| Navbar.AccountLinks | src/components/Navbar.tsx:99-139 | While checking no account link shows. Afterwards Dashboard shows iff signed in and Admin Access iff not. Logout goes with Dashboard, and the email only with a known email. |
| Navbar.ExactlyOneEntryLink | src/components/Navbar.tsx:99-118 | After checking, exactly one of Dashboard and Admin Access shows. |
| Navbar.Bar.constructor | src/components/Navbar.tsx:12-15 | Signed out, no email, checking, menu closed, so no account links. |
| Navbar.Bar.FinishInitialCheck | src/components/Navbar.tsx:19-23 | Signed-in follows the admin check and checking ends, so exactly one entry link shows. |
| Navbar.Bar.OnAuthStateChange | src/components/Navbar.tsx:27-36 | SIGNED_IN with a user takes the admin result and `email \|\| null`. SIGNED_OUT clears both. Any other event changes nothing. |
| Navbar.Bar.HandleLogout | src/components/Navbar.tsx:43-48 | Signed out, email cleared, one push of "/". |
| Navbar.Bar.MobileLogout | src/components/Navbar.tsx:201-204 | The logout, plus the menu closed. |
| Navbar.Bar.ToggleMobileMenu | src/components/Navbar.tsx:147 | Flips the menu flag and nothing else. |
| Navbar.Bar.OnSearch | src/components/Navbar.tsx:50-55 | One push of the search target and nothing else. |
| AuthCallback.EmailText | src/app/admin/callback/page.tsx:42 | A present email prints as itself. |
| AuthCallback.CallbackOutcome | src/app/admin/callback/page.tsx:15-58 | Never loading. Success iff a user was found and the admin check returned true, with target "/admin/dashboard". Target "/" iff a user was found and the admin check returned false. |
| AuthCallback.DeniedNamesUser | src/app/admin/callback/page.tsx:39-45 | A non-admin gets an error whose message contains their email, redirected to "/" after 3 s. |
| AuthCallback.NoUserIgnoresAdmin | src/app/admin/callback/page.tsx:24-30 | With no user, the outcome is error, "Authentication failed…", "/admin" after 2 s, whatever the admin check would say. |
| AuthCallback.ErrorsReturnToLogin | src/app/admin/callback/page.tsx:53-57 | Every error outcome other than a denial returns to "/admin" after 2 s. |
| AuthCallback.CallbackPage.constructor | src/app/admin/callback/page.tsx:8-9 | Status loading with the verifying message, and nothing scheduled. |
| AuthCallback.CallbackPage.HandleCallback | src/app/admin/callback/page.tsx:12-59 | The run ends in the outcome table's status and message with exactly one redirect. The admin check is consulted only after a user was found. |
| AuthCallback.CallbackPage.Settle | src/app/admin/callback/page.tsx:26-28 | Status, message and one scheduled redirect. |
| Text.IndexOf | src/lib/uploadImage.ts:152 | `indexOf` finds the first occurrence, or reports that none exists. |
| Text.Split | src/lib/uploadImage.ts:152 | `split` yields at least one piece. |
| Text.JsLength | src/app/admin/create/page.tsx:128 | The UTF-16 length is between one and two units per character. |
| Text.JsLengthAppend | src/app/admin/create/page.tsx:128 | The UTF-16 length is additive. |
| Text.ToLower | src/app/admin/dashboard/page.tsx:119-123 | `toLowerCase` keeps the length and maps each character. |
| Text.TrimEmptyIffAllWhite | src/components/Navbar.tsx:53 | `trim()` is empty iff the text is all whitespace. |
| Text.TrimIdempotent | src/components/Navbar.tsx:53 | Trimmed text has no whitespace at either end, and trimming again changes nothing. |
| Text.Trim | src/components/Navbar.tsx:53 | `trim()`: ECMAScript whitespace and line terminators removed at both ends. |
| Text.NatToString | src/app/admin/create/page.tsx:136 | Decimal digits with no leading zero. |
| Text.DigitsValueOfNatToString | src/app/plants/page.tsx:33 | Printed digits read back as the number. |
| Text.ParseIntOfIntToString | src/app/plants/page.tsx:33 | `parseInt(String(n)) == n`. |
| Text.ParseInt | src/app/plants/page.tsx:33 | `parseInt`: leading whitespace skipped, an optional sign, `0x` for hex, and the longest digit run. None stands for NaN when there is no digit. |
| Text.Filter | src/app/admin/dashboard/page.tsx:120-134 | `filter` keeps every copy of each element that passes and none of the others, and the result is a subsequence of the input. |
| Text.FilterAppend | src/app/admin/dashboard/page.tsx:120-134 | Filtering distributes over concatenation, so the kept elements stay in their order. |
| Text.CountIsFilterLength | src/app/admin/dashboard/page.tsx:95-98 | Counting passes equals the filtered length. |
| UrlEncoding.Utf8 | src/components/Navbar.tsx:54 | One to four bytes per character. |
| UrlEncoding.PercentByte | src/components/Navbar.tsx:54 | `%XY` with hex digits encoding the byte. |
| UrlEncoding.ComponentBytesRoundTrip | src/components/Navbar.tsx:54 | Decoding percent-encoded bytes gives them back. |
| UrlEncoding.FormBytesRoundTrip | src/app/plants/page.tsx:99 | Decoding form-encoded bytes gives them back. |
| UrlEncoding.EncodeURIComponentRoundTrip | src/components/Navbar.tsx:54 | `encodeURIComponent` decodes back to the UTF-8 of the text. |
| UrlEncoding.EncodeURIComponent | src/components/Navbar.tsx:54 | `encodeURIComponent`: the UTF-8 bytes, with letters, digits and `-_.!~*'()` kept and every other byte written `%XY`. |
| UrlEncoding.FormEncode | src/app/plants/page.tsx:99 | The form-urlencoded serialization of one name or value: the UTF-8 bytes, with `*-._` and alphanumerics kept, space as `+`, and every other byte written `%XY`. |
| UrlEncoding.FormDecode | src/app/plants/page.tsx:31-33 | Form-urlencoded decoding to bytes: `+` is a space, `%XY` is that byte, and any other character is its UTF-8. |
| UrlEncoding.ComponentOutputAlphabet | src/components/Navbar.tsx:54 | Its output uses only unreserved characters and `%XY` escapes. |
| UrlEncoding.EncodeURIComponentQuerySafe | src/components/Navbar.tsx:54 | Its output holds no `&`, `#`, `=`, `+` or space, so it stays one query value. |

## Left out

- Backend calls: `isAdmin` and `getCurrentUser` (src/lib/auth.ts), the Supabase client, and the category and plant selects, inserts, deletes, the junction insert, the storage pre-flight, upload and public URL. Each is a parameter that says how the call settled, or a record of what was sent. The junction insert's error is ignored by the page, so it is not modelled.
- The text of the storage errors in `uploadPlantImage` (pre-flight, upload, timeout, missing data) is one `StorageFailed(message)` parameter. The 60-second upload timeout is not modelled.
- ImageUploadWidget.ImageUpload.HandleUpload: runs as one step, and HandleFileSelect requires that no upload is running. In the source the file input stays enabled during an upload (src/components/ImageUpload.tsx:160-166), so a file can be chosen between the upload's awaits. A successful upload then sets file := null and preview := url over that new choice. This interleaving is not modelled.
- Navbar.SearchTarget, Navbar.Bar.OnSearch: a Dafny string holds Unicode scalar values, so a JavaScript string with a lone surrogate cannot be represented. On such a query `encodeURIComponent` throws `URIError` and `onSearch` pushes nothing. That path is not modelled.
- CreatePage.CreatePageState.HandleCreate: the browser's form validation runs before the handler, and it is not modelled. It blocks the submit when the common name is empty (`required`, src/app/admin/create/page.tsx:326). It also blocks it when quantity or minimum stock is below 0 (`min={0}`, lines 551 and 564) or the quantity box is empty (`required`, line 552). The model accepts those forms and builds their payloads.
- Catalogue.NextButtonTarget, Catalogue.LoadQuery: the step from `router.push("/plants?" + params.toString())` to the next render's `searchParams` is taken as the identity on the parameter list. Only the byte level of that round trip is proved (UrlEncoding.FormBytesRoundTrip). Splitting the query string on `&` and `=` and decoding UTF-8 back to text are not modelled.
- Timers: `setTimeout` callbacks (the widget's 100 ms settle, the create page's 2 s redirect, the callback page's delays) run at once, at the end of their handler. The callback page's delays are recorded as numbers. Interleaving of a user action with a pending timer is not modelled.
- The callback page's one-second wait before the user lookup is not modelled. `getCurrentUser` and `isAdmin` catch their own errors in src/lib/auth.ts, which is not part of this model, so the catch branch of the callback page is modelled for any throw without a claim that one can happen.
- `Date.now()`, `Math.random()`, `new Date().toISOString()` and `created_at` parsing are parameters: a timestamp, a random text, today's date and an integer time per row.
- Floating point: the character counter's percentage is stated in integer form, and the bar width is a fraction `num/den`. `parseFloat(unitPrice)` is kept as the raw text. `formatFileSize` and the canvas scaling of `resizeImage` are out; the resize result is a parameter.
- `toLocaleString` formatting of the counter's numbers: the messages are modelled as the numbers they show.
- `toLowerCase` is modelled on ASCII letters only.
- Dashboard.Le: `localeCompare` is modelled as code-point order.
- Dashboard.SortStage: states a sorted permutation, not the stable order of equal keys that `Array.prototype.sort` guarantees.
- The FileReader that builds the preview runs asynchronously; its data URL is a parameter of `HandleFileSelect`.
- Optional callbacks (`onUploadingChange?.`, `onImageRemoved?.`) are always recorded, as if supplied.
- UploadImage.ExtractStoragePathRoundTrip: requires that `prefix + "/plant-images"` contains no marker, not just the prefix. A prefix ending in "/plant-images" makes the marker overlap the seam, and ExtractStoragePathOverlap shows the path that comes back then.
- ImageUploadWidget.AttemptUpload: the upload outcome is a parameter. Through `uploadPlantImage` an empty URL is never returned (ResizedWithinLimit), so the "Upload returned no URL" branch is modelled but unreachable from that model.
- The page-level auth guards (`checkAuth` redirects on the create and dashboard pages) and the category lists are backend reads, and are out.
- RichTextEditor, ThemeToggle, PlantCard, the home page, the admin login page and all markup and styling are out.
- AdminLayout.InitialTheme: the saved theme is whatever text storage holds; the source's cast to "light" | "dark" is not checked at run time, and neither is it here.
- `parseInt` of a page text is modelled for decimal and hex prefixes; other JavaScript number syntax is not needed by the page and is out.

## Findings

| source | as written | input that shows it | evidently intended | confidence | as-written member | corrected member |
|---|---|---|---|---|---|---|
| src/app/plants/page.tsx:98 | `updateParams` always sets `page` to "1" after applying its argument, and the Prev, number and Next buttons call it with the page they want | On page 2 of 3, click Next: `updateParams({ page: "3" })` navigates to `?page=1` | Reset to page 1 only when a filter changes. Keep a page the argument sets | not executed | Catalogue.NextButtonTarget | Catalogue.IntendedKeepsRequestedPage |
