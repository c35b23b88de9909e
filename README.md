# A verified model of the real-estate listing app's logic core

This project models, in Dafny, the deterministic logic underneath a
server-rendered real-estate listing web application (Next.js pages and
React components over a hosted Supabase backend), and proves what that
logic promises. Every backend reply, the clock, browser storage, URL
parsing and image compression enter the model as parameters; what the
components do with them is modelled step by step.

One module per source file, plus two shared ones:

- `Common`: the shared vocabulary. It holds `Option`, JavaScript truthiness of optional
  strings, `trim` and `toLowerCase`, substring tests, and `URLSearchParams` as an
  ordered list of name/value pairs with `get` and `set`.
- `Types`: the `Listing`, `Profile`, `User`, `Session` and `Advertisement`
  records of `lib/types.ts`, together with the alert and translation-key texts the pages show.
- `Auth` (`contexts/AuthContext.tsx`): the `AuthProvider` class. Its fields are
  the user, the session, the profile and a `localStorage` map. It keeps a one-slot
  profile cache with a 30-minute lifetime. A failed profile load ends in a full sign-out.
- `MockData`, `HomePage`, `HomePageContent`: the listing filter, the home
  page's query with pagination by 20, and the five-wide page window and in-article ad rule.
- `Settings`, `ListingForm`, `NewListing`, `EditListing`: the profile
  settings page (diff building, the password checks in order) and the
  listing forms. They cover the image list capped at 10, removal by index,
  renaming a file to `.jpg`, validation in order and the insert and update payloads.
- `Middleware`, `AuthCallback`, `SupabaseClient`, `SupabaseServer`,
  `SetupPage`: the route guard, the OAuth callback's decision table, and
  the configuration predicates with their mock clients.
- `HeroSlider`, `ImageGallery`, `ListingImageGallery`: the carousel and gallery
  index machines over `[0, len)`.
- `Language`, `ListingLabels`: the Thai/English translation lookup with its
  fallback to the key, and the initial-language rule. The property- and
  transaction-type labels shared by `ListingCard`, `DashboardListingCard` and
  `ListingDetailContent` (the three carry the same two label functions) are
  modelled once, together with the detail page's conditional parts.
- `DashboardListingCard`, `Dashboard`, `DashboardFilters`, `SearchFilters`,
  `FilterParams`: the owner's card with its delete and featured toggle, the
  dashboard's query, totals and empty state, and the two filter bars that
  turn their non-empty fields into URL parameters.

Components whose state changes (the auth provider, the forms, the filter
bars, the card, the dashboard page, the language provider) are classes
whose methods state the whole new state. Requests sent and navigations
pushed are recorded in an `effects` or `pushes` sequence. Pure helpers
are functions with lemmas beside them.

## Model

| member | source | states |
|---|---|---|
| Auth.CacheRead | contexts/AuthContext.tsx:42-68 | a hit exactly when both keys are present and non-empty, the stored profile parses, its id is the user's and less than 30 minutes (1,800,000 ms) have passed; a hit returns the stored profile; a purge exactly when both keys are set, the entry parses and it is not a hit |
| Auth.CacheWrite | contexts/AuthContext.tsx:70-84 | writing a profile sets both keys (profile and current time); writing nothing removes both keys; every other key is kept unchanged |
| Auth.CacheRoundTrip | contexts/AuthContext.tsx:42-84 | a profile written at time w is read back for its own id at every time before w + 30 minutes |
| Auth.CacheExpiresOrMismatch | contexts/AuthContext.tsx:56-63 | once 30 minutes have passed, or when read for another user, the same entry is a miss and both keys are removed |
| Auth.ClearedCacheMisses | contexts/AuthContext.tsx:49-80 | after the cache is cleared a read misses and purges nothing |
| Auth.PurgeRemovesBothKeys | contexts/AuthContext.tsx:56-63 | after a purging read neither key is left; any other read leaves storage unchanged |
| Auth.BeforeAt | contexts/AuthContext.tsx:113 | `split('@')[0]` is a prefix of the address and holds no '@'; it is the whole address or ends just before the first '@' |
| Auth.NewProfileName | contexts/AuthContext.tsx:109-113 | the name for a new profile is the metadata name if there is one, else the part of the e-mail before '@', else null |
| Auth.SyncDiff | contexts/AuthContext.tsx:144-164 | the sync update carries the e-mail exactly when the stored one differs, and a name exactly when the stored name is missing or blank (the metadata name, else the part before '@') |
| Auth.FetchProfile | contexts/AuthContext.tsx:95-189 | the load fails exactly when the select fails with an error other than "no row", or there is no row and the insert fails; at most one write is sent; a missing row is inserted with the id, the e-mail or null and the fallback name; without forceSync or an e-mail the fetched row comes back unchanged with no write |
| Auth.LoadFailsWhen | contexts/AuthContext.tsx:103-141 | a profile load fails exactly when the select fails with another error, or the row is missing and the insert fails |
| Auth.MissingProfileIsCreated | contexts/AuthContext.tsx:106-132 | a missing profile is inserted with the user id, the e-mail or null, and the derived name; the inserted row is returned |
| Auth.NoSyncReturnsRow | contexts/AuthContext.tsx:144-183 | without forceSync or without an e-mail the fetched row is returned and nothing is written |
| Auth.InSyncRowSendsNothing | contexts/AuthContext.tsx:166-183 | under forceSync a row already in step with the account sends no update |
| Auth.OutOfSyncRowIsUpdated | contexts/AuthContext.tsx:166-180 | under forceSync a row out of step sends exactly the differing fields; the answer is the updated row, or the fetched row when the update fails |
| Auth.AuthProvider.constructor | contexts/AuthContext.tsx:87-90 | the provider starts with no user, session or profile, and loading |
| Auth.AuthProvider.GetCachedProfile | contexts/AuthContext.tsx:42-68 | answers as the cache read does and leaves storage purged or unchanged accordingly |
| Auth.AuthProvider.SetCachedProfile | contexts/AuthContext.tsx:70-84 | storage becomes the cache write of the profile at the current time |
| Auth.AuthProvider.LoadOrSignOut | contexts/AuthContext.tsx:229-251 | a successful load sets and caches the profile and keeps user and session; a failed load signs out at the backend and clears user, session, profile and cache |
| Auth.AuthProvider.InitAuth | contexts/AuthContext.tsx:199-264 | loading ends; a session error changes nothing; no session clears the cache; with a session a valid cache hit is used with no backend call, otherwise the profile is loaded with forceSync, or a failed load ends in the full sign-out |
| Auth.AuthProvider.OnAuthStateChange | contexts/AuthContext.tsx:271-373 | a missing session clears user, session, profile and cache; a cache hit is used unless the event is USER_UPDATED; otherwise the profile loads with forceSync for SIGNED_IN and USER_UPDATED, and a failed load ends in the full sign-out |
| Auth.AuthProvider.SignOut | contexts/AuthContext.tsx:380-402 | both cache keys are removed even when the backend sign-out throws; on the normal path user, session and profile become null; the page goes to '/' |
| Auth.AuthProvider.RefreshProfile | contexts/AuthContext.tsx:404-451 | with no user (in state or from the backend) nothing changes; otherwise a cache hit is used unless forced, else the profile is reloaded with forceSync, and a failed load ends in the full sign-out |
| Auth.AuthProvider.UpdateProfile | contexts/AuthContext.tsx:453-480 | with no user the answer is false and nothing is sent; the answer is true exactly when the update returns a row, which then replaces the profile and the cache; on failure profile and cache are unchanged |
| Settings.SettingsRedirect | app/settings/page.tsx:33-37 | the page redirects exactly when auth has finished loading without a user, to sign-in with `redirect=/settings` |
| Settings.PrefilledForm | app/settings/page.tsx:39-49 | each field is the profile's value or ''; the e-mail prefers the account's e-mail over the profile's |
| Settings.OptionalChange | app/settings/page.tsx:78-88 | an optional field is sent exactly when its trimmed value differs from the stored value (or ''); the value sent is the trimmed text, null when empty |
| Settings.ProfileDiff | app/settings/page.tsx:72-88 | the full name is sent exactly when its trimmed value differs from the stored name (or ''), as the trimmed text; phone, facebook and line follow the optional rule; id and e-mail are never part of the update |
| Settings.OptionalUnchanged | app/settings/page.tsx:78-88 | an already trimmed stored value, shown unedited, is not sent |
| Settings.PrefilledFormChangesNothing | app/settings/page.tsx:39-94 | saving the prefilled form of a trimmed profile builds an empty update, so 'noChanges' follows |
| Settings.PasswordProblem | app/settings/page.tsx:119-135 | the checks run in order: a missing current or new password, then a new password shorter than 6, then a confirmation that differs; no problem exactly when all three pass |
| Settings.SettingsPage.constructor | app/settings/page.tsx:14-30 | the page starts with empty forms, no messages and nothing sent |
| Settings.SettingsPage.Prefill | app/settings/page.tsx:39-49 | with a profile the form becomes the prefilled form; without one it is kept |
| Settings.SettingsPage.InputChange | app/settings/page.tsx:51-56 | editing a profile field changes only that field and clears both messages |
| Settings.SettingsPage.PasswordInput | app/settings/page.tsx:58-63 | editing a password field changes only that field and clears both messages |
| Settings.SettingsPage.HandleUpdateProfile | app/settings/page.tsx:65-110 | an empty update shows 'noChanges' and calls nothing; otherwise the update is sent for the signed-in user, success replaces the profile in state and in the cache and shows the success message, failure keeps profile and cache and shows the error |
| Settings.SettingsPage.Submit | app/settings/page.tsx:90-107 | the same outcome for an update already built |
| Settings.SettingsPage.HandleChangePassword | app/settings/page.tsx:112-172 | a local problem is shown with no backend call; otherwise the current password is checked by a sign-in, a failure stops before any update; an update error is shown with its message; success clears all three password fields |
| ListingForm.WithField | app/listings/new/page.tsx:68-73 | `{ ...prev, [name]: value }` sets the named field and leaves every other field as it was |
| ListingForm.LastIndexOf | app/listings/new/page.tsx:95 | the position of the last occurrence of a character, or -1 exactly when it does not occur |
| ListingForm.HasExtension | app/listings/new/page.tsx:95 | definition: the rename's pattern matches: a name with no '.' never has an extension, and one that has an extension ends in neither '.' nor '/' |
| ListingForm.RenameToJpg | app/listings/new/page.tsx:95 | `replace(/\.[^/.]+$/, '.jpg')`: a name with a final extension (a last '.' followed by characters other than '/' and '.') has it replaced by '.jpg'; any other name is kept |
| ListingForm.FileExtension | app/listings/new/page.tsx:157 | `split('.').pop()`: the text after the last '.', which holds no '.', and the whole name when there is no '.' |
| ListingForm.RenameToJpgIdempotent | app/listings/new/page.tsx:95 | a renamed file has extension 'jpg', and renaming it again changes nothing (the extension is read as at line 157) |
| ListingForm.RenameKeepsStem | app/listings/new/page.tsx:95 | the rename keeps everything before the last '.' and adds exactly four characters after it |
| ListingForm.Compressed | app/listings/new/page.tsx:93-97 | a compressed file is a JPEG of the compressor's size, named by the '.jpg' rename |
| ListingForm.Processed | app/listings/new/page.tsx:79-105 | the processed list has one file per selected file |
| ListingForm.ProcessedFiles | app/listings/new/page.tsx:83-104 | each processed file is the compressed form of a file that needs compression, and the file itself otherwise |
| ListingForm.NeedsCompression | lib/image-utils.ts:89-110 | definition: a file needs compression exactly when it is larger than 1 MB (1048576 bytes) |
| ListingForm.ProcessedFailsIff | app/listings/new/page.tsx:78-120 | the selection fails exactly when compressing some file that needs it throws |
| ListingForm.ProcessFiles | app/listings/new/page.tsx:79-105 | the compression loop computes the processed list, or the failure |
| ListingForm.ProcessedStaysFailed | app/listings/new/page.tsx:83-105 | once a compression has thrown, later files do not undo the failure |
| ListingForm.UploadedUrls | app/listings/new/page.tsx:137-186 | at most one URL per image |
| ListingForm.UploadPaths | app/listings/new/page.tsx:157-166 | at most one storage path per image |
| ListingForm.UploadedUrlsMeaning | app/listings/new/page.tsx:168-183 | every returned URL is the non-empty public URL of a stored image, and when every image is stored with a URL all of them come back |
| ListingForm.UploadImages | app/listings/new/page.tsx:134-187 | the upload loop returns the URLs of the stored images and writes to the `listings/<stamp>.<ext>` path of every image whose compression did not throw, both in order |
| ListingForm.NumberOrNull | app/listings/new/page.tsx:300-302 | definition: an empty number field is sent as null, any other as the parser's result |
| ListingForm.TrimmedIsClean | app/listings/new/page.tsx:295-312 | a trimmed text has nothing left to trim, and an optional text sent is never '' |
| ListingForm.FormDetails | app/listings/new/page.tsx:295-312 | the images and the two selects are sent as given, the counts and the area through `NumberOrNull`; each required text column is the form's value trimmed and each optional one is the trimmed value with '' sent as null, so the required ones are clean and no optional one is '' |
| ListingForm.MathRound | app/listings/new/page.tsx:233 | `Math.round`: the nearest integer, halves rounded up |
| ListingForm.MathRoundFacts | app/listings/new/page.tsx:233 | an integer price is kept, a positive price never rounds below 0, and a price under 0.5 is stored as 0 |
| Common.Get | components/SearchFilters.tsx:13-19 | `URLSearchParams.get`: there is a value exactly when some pair has the name |
| Common.GetFindsFirst | components/SearchFilters.tsx:13-19 | the value `get` returns is that of the first pair with the name |
| Common.SetParam | components/SearchFilters.tsx:31 | `URLSearchParams.set`: afterwards the name has the new value and every other name keeps its value |
| Common.Without | components/HomePageContent.tsx:127-130 | the entries filtered on `k !== 'page'`: afterwards the name is absent and every other name keeps its value |
| Common.Take | app/listings/new/page.tsx:107 | `slice(0, n)`: a prefix of at most n elements |
| Common.RemoveAt | app/listings/new/page.tsx:127-132 | `filter((_, i) => i !== index)`: the element at the index is removed and the rest keep their order; an index out of range removes nothing |
| Common.EmptyToNull | app/listings/new/page.tsx:296 | definition: `s \|\| null`: null exactly for '' |
| Common.TrimEmptyIffAllWhite | app/listings/new/page.tsx:211 | a text trims to '' exactly when it is all white space |
| Common.TrimIdempotent | app/settings/page.tsx:74 | trimming twice is trimming once |
| Common.ToLower | lib/mock-data.ts:151-171 | lower-casing keeps the length and maps each character |
| NewListing.NewListingRedirect | app/listings/new/page.tsx:25-29 | the page redirects exactly when auth has finished loading without a user, to sign-in with `redirect=/listings/new` |
| NewListing.KeepOr | app/listings/new/page.tsx:58-62 | a contact field already typed is kept; an empty one takes the profile's value or '' |
| NewListing.PrefilledContacts | app/listings/new/page.tsx:53-66 | the prefill fills each of the five contact fields only when still empty (the e-mail from the account first, then the profile) and changes no other field |
| NewListing.PrefillKeepsTyped | app/listings/new/page.tsx:58-62 | the prefill never changes a field the user has already typed into |
| NewListing.RoundedPrice | app/listings/new/page.tsx:233 | the stored price is `Math.round` of the parsed price, and null when it does not parse (it is sent at line 297) |
| NewListing.PriceRejected | app/listings/new/page.tsx:221 | the price check rejects an empty text and a parsed number that is not positive, and lets through a text that does not parse (NaN) |
| NewListing.Problems | app/listings/new/page.tsx:198-283 | each of the eight checks (signed in, title, price, address, district, province, contact name, contact phone) is listed exactly when it fails, at most eight |
| NewListing.Failing | app/listings/new/page.tsx:198-283 | the failing checks of a list, in its order: a check is listed exactly when it is in the list and fails |
| NewListing.FailingStartsAt | app/listings/new/page.tsx:198-283 | the first failing check of a list heads its failing checks |
| NewListing.NoneFailing | app/listings/new/page.tsx:198-283 | when no check fails, nothing is listed |
| NewListing.FirstProblemIs | app/listings/new/page.tsx:198-283 | when check k is the first to fail in the page's order, it is the first entry of `Problems` |
| NewListing.NoProblems | app/listings/new/page.tsx:198-283 | when all eight checks pass, `Problems` is empty |
| NewListing.SubmitVerdict | app/listings/new/page.tsx:198-283 | the submit is refused exactly when some check fails, and then for the first failing check in the page's order; an accepted submit carries the form's columns, the rounded price and the user's id |
| NewListing.AcceptedRowIsWellFormed | app/listings/new/page.tsx:292-314 | an accepted row belongs to the signed-in user, carries the uploaded URLs, has every required text column non-empty and trimmed, and a price that is null or not negative |
| NewListing.NonNumericPriceIsStoredAsNull | app/listings/new/page.tsx:221-233 | a price text that does not parse passes the price check (NaN <= 0 is false) and is stored as null |
| NewListing.TinyPriceIsStoredAsZero | app/listings/new/page.tsx:221-233 | a positive price below one half passes the check and is stored as 0 |
| NewListing.UploadEffects | app/listings/new/page.tsx:161-166 | one upload effect per storage path, in order |
| NewListing.NewListingPage.constructor | app/listings/new/page.tsx:18-49 | the page starts with the initial form, no images or previews, no alert and nothing sent |
| NewListing.NewListingPage.Prefill | app/listings/new/page.tsx:52-66 | the first time a profile is there the contacts are prefilled and the flag is set; afterwards nothing changes |
| NewListing.NewListingPage.InputChange | app/listings/new/page.tsx:68-73 | editing a field sets only that field |
| NewListing.NewListingPage.HandleImageChange | app/listings/new/page.tsx:75-125 | no selection changes nothing; a processed selection makes the images the old images and the processed files cut to 10, previews following them; a compression failure keeps both and shows the image error; the cap of 10 and the preview correspondence are preserved |
| NewListing.NewListingPage.RemoveImage | app/listings/new/page.tsx:127-132 | position `index` is removed from both images and previews, keeping order; the cap of 10 and the preview correspondence are preserved |
| NewListing.NewListingPage.HandleSubmit | app/listings/new/page.tsx:189-344 | the images are uploaded first, then the verdict decides: a refusal shows its alert (and for sign-in navigates to sign-in), an acceptance inserts the row and navigates to the new listing, an insert error shows its message; since at most 10 images are held, one submit adds at most 12 effects |
| NewListing.NewListingPage.Finish | app/listings/new/page.tsx:198-344 | the effects and alert of a decided verdict and the insert's reply; loading stays on only after a successful insert |
| NewListing.SubmitEffects | app/listings/new/page.tsx:292-332 | a refusal sends nothing (the sign-in refusal navigates to sign-in); an acceptance sends the insert, followed by the navigation to `/listings/<id>` when it succeeded (the sign-in navigation is at line 205) |
| NewListing.SubmitAlert | app/listings/new/page.tsx:198-343 | a refusal shows its problem's alert; a successful insert keeps the alert; a failed insert shows an error alert whose message is the backend's message when non-empty |
| NewListing.ProblemAlert | app/listings/new/page.tsx:198-283 | every check's alert is a warning; the contact-name title is shown by exactly the contact-name and contact-phone checks, and the phone check's message falls back to the contact-name one |
| NewListing.RejectedSubmitMayHaveUploaded | app/listings/new/page.tsx:195-198 | when every upload succeeds, every image was written before any check ran, also for a submit that is then refused |
| NewListing.UploadPathsCount | app/listings/new/page.tsx:139-166 | when no compression throws, every image is written to storage |
| EditListing.InitialForm | components/EditListingForm.tsx:27-45 | each of the seventeen fields starts from the listing: the texts and the two types as stored, the price and the area through `toString`, the counts through their decimal text, and '' wherever the listing has nothing |
| EditListing.ExistingPreviews | components/EditListingForm.tsx:23 | one preview per stored image URL, in order |
| EditListing.AddedPreviews | components/EditListingForm.tsx:87-112 | one preview per new file, in order |
| EditListing.SubmittedImages | components/EditListingForm.tsx:118-180 | with no new files the update carries exactly the stored images; otherwise the stored images followed by the URLs that were uploaded |
| EditListing.SubmittedImagesBounds | components/EditListingForm.tsx:168-180 | the stored images always come first and at most one URL is added per new file; no cap applies, so ten stored images and one upload give eleven |
| EditListing.UpdatePayload | components/EditListingForm.tsx:182-204 | the update carries the shared columns as the new-listing insert does and the price parsed without rounding (`parseFloat("0")` when empty) |
| EditListing.UploadEffects | components/EditListingForm.tsx:144-149 | one upload effect per storage path, in order |
| EditListing.UpdateAlert | components/EditListingForm.tsx:206-229 | a successful update keeps the alert; an error shows the backend's message when non-empty, the generic message otherwise and when the update throws |
| EditListing.EditListingForm.constructor | components/EditListingForm.tsx:21-45 | the form starts from the listing, with no new files and the stored images as previews |
| EditListing.EditListingForm.InputChange | components/EditListingForm.tsx:47-52 | editing a field sets only that field |
| EditListing.EditListingForm.HandleImageChange | components/EditListingForm.tsx:54-101 | new files become the old new files and the processed files cut to 10; previews become the stored images followed by the new ones, cut to 10; a compression failure keeps both and shows the image error |
| EditListing.EditListingForm.RemoveImage | components/EditListingForm.tsx:103-116 | an index among the stored images removes it from the previews only, leaving the new files; a higher index removes that new file, and the previews become the stored images followed by the remaining new ones |
| EditListing.EditListingForm.HandleSubmit | components/EditListingForm.tsx:171-230 | new files are uploaded only when there are some; the update is filtered by the listing id and carries the submitted images; success navigates to the listing, failure shows the alert |
| EditListing.EditListingForm.UploadNew | components/EditListingForm.tsx:118-180 | the image list submitted and the upload effects, none when there are no new files |
| EditListing.EditListingForm.Finish | components/EditListingForm.tsx:182-229 | the update is sent for this listing; success navigates to it and keeps loading; failure shows the alert and ends loading |
| EditListing.RemovedStoredImageIsStillSubmitted | components/EditListingForm.tsx:104-108 | removing a stored image hides it from the previews, but the update still carries it (the list submitted at line 176) |
| EditListing.HiddenFilesAreUploaded | components/EditListingForm.tsx:84-88 | with eight stored images and five new files, only two new previews fit but all five files are kept for upload |
| MockData.Matches | lib/mock-data.ts:131-171 | a listing is kept exactly when it passes every one of the eight steps, so the order of the steps does not decide membership (`PassesAllSteps`; the per-field form is `MatchesIff`) |
| MockData.PassesAllSteps | lib/mock-data.ts:131-171 | surviving the eight steps in their order is passing each step |
| MockData.Select | lib/mock-data.ts:121-174 | the result `filterMockListings` specifies is an ordered subsequence of the input holding exactly the input listings that match |
| MockData.Narrow | lib/mock-data.ts:131-171 | one filter pass keeps at most the listings it is given |
| MockData.KeptNone | lib/mock-data.ts:129 | before any filter the working list is the input |
| MockData.StepKeeps | lib/mock-data.ts:131-171 | an active filter narrows the working list by its test; an inactive one leaves it unchanged |
| MockData.ApplyKept | lib/mock-data.ts:131-171 | each guarded stage takes the list kept by the stages before it to the list kept after it |
| MockData.StepsSelect | lib/mock-data.ts:129-173 | the eight guarded stages in the source's order compute the selection |
| MockData.GuardedStep | lib/mock-data.ts:131-171 | one `if (filter) filtered = filtered.filter(...)` step computes its stage and never lengthens the list |
| MockData.FilterMockListings | lib/mock-data.ts:121-174 | `filterMockListings` returns the selection: the listings, in order, that pass every active filter |
| MockData.MatchesIff | lib/mock-data.ts:131-171 | a listing is selected iff it has the property type and transaction type set, a price at least the minimum and at most the maximum set (0 and NaN count as unset), exactly the bedrooms set, a province and district containing the filters' ignoring case, and the search text in its title, description or address ignoring case |
| MockData.SubsequenceLength | lib/mock-data.ts:129-173 | a subsequence is never longer than its sequence |
| MockData.KeptIsSubsequence | lib/mock-data.ts:129-171 | what every prefix of the stages keeps is an order-preserving subsequence of the input |
| MockData.SelectIsMatchingSubsequence | lib/mock-data.ts:129-173 | the result is an order-preserving subsequence of the input holding exactly the input's matching listings |
| MockData.KeptMembers | lib/mock-data.ts:129-173 | after all stages, a listing is kept iff it is an input listing that matches |
| MockData.NoFilterKeepsAll | lib/mock-data.ts:129-173 | with no filter set the result equals the input |
| MockData.PriceWithinBounds | lib/mock-data.ts:139-145 | every result lies within whichever price bounds are set, both inclusive |
| MockData.MoreFiltersSelectLess | lib/mock-data.ts:131-171 | adding filters (keeping those set) gives a subsequence of the earlier result, so never more listings |
| MockData.MoreFiltersSubsequence | lib/mock-data.ts:131-171 | the result with more filters is a subsequence of the result with fewer |
| MockData.ZeroPriceFilterIsIgnored | lib/mock-data.ts:139-149 | a minimum price, maximum price or bedrooms filter of 0 selects exactly what no such filter selects |
| MockData.SameMatchesSameSelect | lib/mock-data.ts:131-171 | two filters with the same active stages and the same tests select the same listings |
| MockData.BedroomsExact | lib/mock-data.ts:147-149 | a bedrooms filter of 4 does not admit a listing with 5 bedrooms |
| MockData.SearchIsCaseInsensitive | lib/mock-data.ts:163-171 | searching for a text and for its lower-cased form admit the same listings |
| HomePage.NumberParam | app/page.tsx:131-133 | definition: a missing or empty number parameter is unset; any other goes through `Number` |
| HomePage.FiltersFrom | app/page.tsx:128-137 | every text filter (property type, transaction type, province, district, search) is its raw parameter, and each number filter (minimum and maximum price, bedrooms) is `Number` of its parameter, absent when the parameter is empty |
| HomePage.PageNumber | app/page.tsx:66 | the page is the parsed number unless it is 0 or NaN, then 1; it is never 0, and a negative page is kept |
| HomePage.Offset | app/page.tsx:67-68 | the offset is a multiple of 20, not negative from page 1 on, and 0 on page 1 |
| HomePage.OffsetRanges | app/page.tsx:67-68 | the offset is (page - 1) * 20: 0 on page 1, 20 more on each next page, never negative from page 1 on |
| HomePage.ServerMatches | app/page.tsx:76-106 | no filter admits every row, and a set province or district admits only rows with exactly that value |
| HomePage.AdmitsAppend | app/page.tsx:76-106 | a further condition admits exactly the rows the query admitted that also satisfy it |
| HomePage.AddCondition | app/page.tsx:76-106 | one guarded `query = query.eq/gte/lte/or(...)` step keeps the range and admits exactly the rows that also pass that stage when its filter is set |
| HomePage.ServerStepsMeaning | app/page.tsx:76-106 | the server query's match is the conjunction of its eight guarded stages |
| HomePage.ListingsQueryFor | app/page.tsx:63-106 | the query asks for rows `offset .. offset + 19` and admits exactly the rows that pass every set filter, with province and district compared for equality |
| HomePage.SearchConditionMeaning | app/page.tsx:104-106 | the `or(...ilike...)` search admits a row iff its title, description or address contains the text ignoring case |
| HomePage.ServerImpliesMock | app/page.tsx:96-102 | every row the server query admits also passes the in-memory mock filter |
| HomePage.MockDoesNotImplyServer | app/page.tsx:96-98 | the converse fails: province 'bangkok' admits 'Greater Bangkok' in memory but not on the server |
| HomePage.TotalPages | app/page.tsx:155 | `Math.ceil(total / 20)`: 0 pages for no rows, otherwise the least page count that holds them all |
| HomePage.LoadPage | app/page.tsx:59-155 | unconfigured, a query error or a thrown failure gives no listings, total 0, page 1, 0 pages and the message (the not-configured text, the query error prefixed, or the thrown message as is); otherwise the rows, the count (0 when absent) and the page number |
| HomePage.IsSupabaseConfigured | app/page.tsx:7-11 | a configured pair has both values set and non-empty, and neither is the bare placeholder text |
| HomePage.Defined | app/page.tsx:36-37 | definition: `x \|\| undefined`: kept exactly when truthy |
| HomePage.ToAdvertisement | app/page.tsx:32-38 | an advertisement carries the row's id, image and link, and title and subtitle only when truthy |
| HomePage.MapAds | app/page.tsx:32-38 | one advertisement per row, in order |
| HomePage.GetAdvertisements | app/page.tsx:13-43 | unconfigured, an error or no data gives no advertisements; otherwise one per row, in order |
| HomePageContent.WindowEntry | components/HomePageContent.tsx:143-152 | every button of the window is an existing page, and in the middle of many pages the third button is the current page |
| HomePageContent.PageWindow | components/HomePageContent.tsx:142-152 | the window has `min(5, totalPages)` entries, each computed by the source's four-way rule |
| HomePageContent.WindowInRange | components/HomePageContent.tsx:143-152 | for any page and at least one page, every window entry lies in `1..totalPages` |
| HomePageContent.WindowConsecutive | components/HomePageContent.tsx:142-152 | window entries are consecutive and increasing, and there are five of them when there are more than five pages |
| HomePageContent.WindowHoldsPage | components/HomePageContent.tsx:143-152 | the window contains the current page whenever it is in `1..totalPages` |
| HomePageContent.PreviousPage | components/HomePageContent.tsx:131 | the previous link targets `max(1, page - 1)` |
| HomePageContent.ShowsPagination | components/HomePageContent.tsx:124 | definition: the pagination shows exactly when its window holds at least two buttons |
| HomePageContent.NextPage | components/HomePageContent.tsx:179 | the next link targets `min(totalPages, page + 1)` |
| HomePageContent.PreviousNextStayInRange | components/HomePageContent.tsx:131-183 | from a page in range both links stay in range; the previous link stays put exactly on page 1 and the next link exactly on the last page (where each is disabled) |
| HomePageContent.NoAdAfterLastCard | components/HomePageContent.tsx:109-111 | no in-article ad follows the last card |
| HomePageContent.AdsAmongPrefix | components/HomePageContent.tsx:109-111 | among the first n cards (not counting the last) there are n / 4 in-article ads |
| HomePageContent.AdCount | components/HomePageContent.tsx:105-115 | a page of `count` cards shows `(count - 1) / 4` in-article ads when the slot is configured |
| HomePageContent.PageLinkParams | components/HomePageContent.tsx:127-162 | a page link sets `page` to the target and keeps every other search parameter |
| HomePageContent.GetAppend | components/HomePageContent.tsx:127-132 | appending a pair sets its name unless already present and leaves every other name alone |
| SupabaseClient.CreateClient | lib/supabase/client.ts:31-53 | the real browser client, built from the url and key, is returned exactly when the configuration check holds (both set, no placeholders, an https url, a key longer than 20) and construction does not throw; otherwise the placeholder client |
| SupabaseClient.IsConfigured | lib/supabase/client.ts:36-40 | a configured pair has both values set, a url at least as long as `https://` and a key longer than 20 characters |
| SupabaseClient.PlaceholderAnswer | lib/supabase/client.ts:4-29 | the placeholder's `getUser` answers no user and no error, `signInWithPassword` and `signUp` answer 'Supabase not configured', `signOut` no error, `onAuthStateChange` a subscription whose `unsubscribe` does nothing; `getSession`, `updateUser` and `exchangeCodeForSession` are missing, so calling one throws; a table call answers as `PlaceholderQuery` |
| SupabaseClient.PlaceholderQuery | lib/supabase/client.ts:13-21 | a table chain answers no data and 'Supabase not configured' exactly when it is one of the five defined chains (`select().eq()`, `select().order().limit()`, `insert().select().single()`, `update().eq()`, `delete().eq()`), and throws exactly when it is a prefix of none of them |
| SupabaseClient.ChainsPrefixFree | lib/supabase/client.ts:13-21 | no defined chain is a proper prefix of another, so a defined chain's answer has nothing more to call |
| SupabaseClient.PastReplyThrows | lib/supabase/client.ts:13-21 | one more step after a defined chain throws |
| SupabaseClient.ExtensionThrows | lib/supabase/client.ts:13-21 | any non-empty continuation of a defined chain throws |
| SupabaseClient.ApplicationChainsOnPlaceholder | lib/supabase/client.ts:13-21 | of the application's own chains, the inserts with `select().single()` and the plain `update().eq()` answer not-configured, while `select().eq().single()` (profile fetch), `update().eq().select().single()` (profile update), `update().eq().eq()` (featured toggle), `select().eq().order()` (dashboard, advertisements) and `select().order().range()` (home page) throw |
| SupabaseClient.PlaceholderHasNoUserOrData | lib/supabase/client.ts:7-26 | no placeholder answer carries a user or data; every data answer is the not-configured error; `upload` fails and `getPublicUrl` gives '' |
| SupabaseServer.CreateServerClient | lib/supabase/server.ts:28-68 | the real cookie-bound client is returned exactly when the configuration check holds and neither reading cookies nor construction throws; otherwise the placeholder |
| SupabaseServer.ServerPlaceholderAnswer | lib/supabase/server.ts:5-26 | the server placeholder's only auth method is `getUser`, which answers no user, so every other auth call (sign-in, sign-up, sign-out, subscription, code exchange) throws; its table chains answer as the browser placeholder's, `upload` fails and `getPublicUrl` gives '' |
| SupabaseServer.PlaceholdersAgree | lib/supabase/server.ts:5-26 | where the server placeholder answers, it answers as the browser placeholder does; it throws wherever the browser one throws, and in addition exactly on sign-in, sign-up, sign-out and subscription |
| SupabaseServer.FactoriesAgree | lib/supabase/server.ts:33-37 | the server's configuration check is the browser client's |
| SetupPage.VarNames | app/setup/page.tsx:9-15 | the URL variable's name contains 'URL' and the key variable's does not, so each gets its own check |
| SetupPage.UrlVarHoldsUrl | app/setup/page.tsx:9-14 | the URL variable's name contains 'URL' |
| SetupPage.KeyVarLacksR | app/setup/page.tsx:9-15 | the key variable's name holds no 'R', so it cannot contain 'URL' |
| SetupPage.SetupConfiguredIff | app/setup/page.tsx:4-16 | the setup page reports configured iff both values are set, neither holds 'your-project' or 'your-key', the url starts with 'https://' and the key is longer than 20 |
| SetupPage.CheckEnvVar | app/setup/page.tsx:4-11 | an unset variable fails; a passing value is at least 8 characters long, and an https URL when the name mentions `URL` |
| SetupPage.SetupConfigured | app/setup/page.tsx:14-16 | a configured setup has an https url and a key longer than 20 characters, because only the url variable's name mentions `URL` |
| SetupPage.SetupImpliesClient | app/setup/page.tsx:4-16 | what the setup page accepts, the browser client accepts |
| SetupPage.ClientImpliesHomePage | lib/supabase/client.ts:36-40 | what the browser client accepts, the home page's weaker check accepts |
| SetupPage.PlaceholderUrlFacts | app/setup/page.tsx:7-9 | an https url holding 'your-key' but not 'your-project' |
| SetupPage.PlaceholderUrlHoldsKey | app/setup/page.tsx:8 | that url holds 'your-key' |
| SetupPage.PlaceholderUrlLacksProject | app/setup/page.tsx:7 | that url does not hold 'your-project' |
| SetupPage.LongKeyFacts | app/setup/page.tsx:7-9 | a key with no placeholder text, longer than 20 |
| SetupPage.ClientAcceptsWhatSetupRejects | app/setup/page.tsx:7-8 | the converse fails: the client does not look for 'your-key' in the url, which the setup page does |
| SetupPage.HomePageAcceptsWhatClientRejects | app/page.tsx:7-11 | the home page accepts an http url and a one-character key, which the client rejects |
| Middleware.SignInUrl | middleware.ts:64-66 | the redirect target has pathname '/auth/signin', `redirect` set to the original pathname, and every other query parameter kept |
| Middleware.IsProtected | middleware.ts:51-55 | a protected path starts with '/dashboard' or '/listings', and every path under '/dashboard' or '/listings/new' is protected |
| Middleware.Handle | middleware.ts:4-81 | the request passes through untouched exactly when the backend is not configured; it is redirected exactly when configured, the session check did not throw, the page is protected, there is no user or an error, and the referer is not the sign-in page; the redirect goes to `SignInUrl` of the request; every other request gets the refreshed-session response |
| Middleware.UnconfiguredPasses | middleware.ts:9-14 | a missing url or key, or one holding a placeholder, passes the request through unchanged |
| Middleware.ThrowFallsThrough | middleware.ts:22-80 | when the client or the user check throws, the normal response with the session is returned |
| Middleware.MatchedIsNotProtected | middleware.ts:51-92 | no path the matcher `/api/listings/:path*` selects is protected |
| Middleware.NeverRedirects | middleware.ts:51-92 | so for every request it runs on, the middleware as configured never redirects |
| Middleware.DashboardWouldRedirect | middleware.ts:51-67 | were it to run on '/dashboard', a request without a user and without a sign-in referer would be sent to sign-in with `redirect=/dashboard` |
| HeroSlider.SlideList | components/HeroSlider.tsx:45-52 | the list is the default slide followed by the ads when there are any, otherwise the default slide alone; it has more than one slide exactly when there are ads |
| HeroSlider.AutoDelay | components/HeroSlider.tsx:61 | definition: the delay is 2000 ms exactly on slide 0, and 5000 ms otherwise |
| HeroSlider.AutoNext | components/HeroSlider.tsx:64-75 | from any slide at or past the default one, with at least two slides, the timer lands on an advertisement, and from the last slide or beyond it goes back to the first advertisement |
| HeroSlider.Next | components/HeroSlider.tsx:103-113 | without advertisements nothing moves; from a slide shown it lands on an advertisement, and from the last one it goes back to the first advertisement |
| HeroSlider.Previous | components/HeroSlider.tsx:87-101 | without advertisements nothing moves; from a slide shown it lands on an advertisement, and from the default slide or the first advertisement it goes to the last one |
| HeroSlider.NoAdsNoMove | components/HeroSlider.tsx:89-105 | without ads neither button moves |
| HeroSlider.StepsLandOnAds | components/HeroSlider.tsx:63-113 | with ads and at least two slides, next, previous and the timer take any slide to an ad in `[1, len - 1]`, so only choosing slide 0 directly shows the default slide again |
| HeroSlider.NextUndoesPrevious | components/HeroSlider.tsx:87-113 | next after previous, and previous after next, return to any ad slide |
| HeroSlider.AutoIsNext | components/HeroSlider.tsx:63-113 | on a slide in range the timer moves exactly as the next button would |
| HeroSlider.AutoRecoversPastEnd | components/HeroSlider.tsx:70-111 | past the end (after the ads shrink) the timer returns to slide 1, while the next button keeps counting up |
| HeroSlider.NextTimesSplit | components/HeroSlider.tsx:103-113 | a + b presses of next are a presses followed by b presses |
| HeroSlider.NextTimesCounts | components/HeroSlider.tsx:111 | n presses of next before reaching the last slide count up by n |
| HeroSlider.NextTimesFullRound | components/HeroSlider.tsx:103-113 | `len - 1` presses of next return to the same ad: the ads form a cycle without the default slide |
| HeroSlider.IsValidImageUrl | components/HeroSlider.tsx:21-31 | an empty or blank text is never valid; a URL is valid iff it parses and is not a bare domain (pathname other than '/', or a search or hash part) |
| HeroSlider.DefaultSlideHasNoImage | components/HeroSlider.tsx:38-43 | the default slide shows text, never an image (the slide is drawn at line 130) |
| HeroSlider.NavigationIffAds | components/HeroSlider.tsx:169-195 | the arrows and dots show exactly when there are ads |
| HeroSlider.ShowsNavigation | components/HeroSlider.tsx:169-195 | definition: the arrows and dots show exactly when there are at least two slides |
| ImageGallery.Previous | components/ImageGallery.tsx:16-18 | an index in range stays in range, and the first image steps back to the last |
| ImageGallery.Next | components/ImageGallery.tsx:20-22 | an index in range stays in range, and the last image steps on to the first |
| ImageGallery.KeyDown | components/ImageGallery.tsx:26-34 | only Escape closes and only other keys do nothing; the left and right arrows set the index the previous and next buttons would, which stays in range |
| ImageGallery.StepsStayInRange | components/ImageGallery.tsx:16-22 | previous and next keep an index in `[0, len)` in range |
| ImageGallery.StepsAreInverse | components/ImageGallery.tsx:16-22 | next undoes previous and previous undoes next |
| ImageGallery.StepsAreModular | components/ImageGallery.tsx:16-22 | next is `(i + 1) mod len` and previous is `(i - 1 + len) mod len` |
| ImageGallery.NextTimesModular | components/ImageGallery.tsx:20-22 | n presses of next from i reach `(i + n) mod len` |
| ImageGallery.KeysMatchButtons | components/ImageGallery.tsx:25-34 | ArrowLeft and ArrowRight move exactly as previous and next; only Escape closes |
| ImageGallery.Render | components/ImageGallery.tsx:46-67 | an empty image list renders nothing; otherwise the current image is shown, with the arrows exactly when there is more than one image |
| ImageGallery.SingleImageStays | components/ImageGallery.tsx:16-67 | a single image shows no arrows and the keys keep it in place |
| ListingImageGallery.Layout | components/ListingImageGallery.tsx:17-90 | a missing or empty list shows the placeholder; otherwise the main image is the first, the thumbnails are `images[1..min(len, 5))` (at most 4), the count badge shows the count exactly when there is more than one image, and the '+N' tile shows `len - 5` exactly when there are more than five |
| ListingImageGallery.OpensAt | components/ListingImageGallery.tsx:44-87 | the main image alone opens index 0, thumbnail k opens k + 1 and the "+N" tile opens 4 |
| ListingImageGallery.Click | components/ListingImageGallery.tsx:28-31 | a click opens the gallery at the clicked target's index |
| ListingImageGallery.CloseGallery | components/ListingImageGallery.tsx:105 | closing hides the gallery and keeps the index |
| ListingImageGallery.ClicksOpenShownImage | components/ListingImageGallery.tsx:44-69 | the main image opens index 0 and thumbnail k opens index k + 1: the same image that was clicked |
| ListingImageGallery.MoreTileOpensLastThumbnail | components/ListingImageGallery.tsx:84-90 | the '+N' tile opens index 4, the last thumbnail again, not the first hidden image (index 5) |
| ListingImageGallery.GalleryShowsClickedImage | components/ListingImageGallery.tsx:100-106 | after a click the lightbox shows the clicked image, with arrows when there is more than one |
| ListingImageGallery.PlaceholderHasNoTiles | components/ListingImageGallery.tsx:17-23 | a missing or empty list gives only the placeholder |
| Language.TableOf | contexts/LanguageContext.tsx:22-665 | a language's table has the keys of its other entries and of its label entries, and the label entries' values |
| Language.LanguageProvider.T | contexts/LanguageContext.tsx:704-706 | a label key gives its table entry in the current language, a key missing from the table gives the key itself, and only the empty key can give '' |
| Language.Translate | contexts/LanguageContext.tsx:704-706 | a key with a non-empty entry gives the entry; a missing key or an empty entry gives the key itself, so a non-empty key never translates to '' |
| Language.DefaultT | contexts/LanguageContext.tsx:13-17 | outside the provider, `t` gives '' for every key |
| Language.Resolve | contexts/LanguageContext.tsx:670-686 | a saved 'th' or 'en' wins; any other saved value or none falls back to English exactly when the lower-cased browser language starts with 'en', and to Thai otherwise |
| Language.SavedChoiceWins | contexts/LanguageContext.tsx:672-675 | a saved language code is resolved to that language whatever the browser says |
| Language.BrowserLanguageExamples | contexts/LanguageContext.tsx:672-684 | nothing saved and 'EN-GB' give English; an unknown saved value 'fr' and 'th-TH' give Thai |
| Language.LanguageProvider.constructor | contexts/LanguageContext.tsx:668 | the provider starts in Thai, with storage and the page's lang attribute as given |
| Language.LanguageProvider.Mount | contexts/LanguageContext.tsx:670-702 | on mount the language is resolved from the stored choice under 'realestate_language' and the browser language, and the page's lang attribute follows it |
| Language.LanguageProvider.SetLanguage | contexts/LanguageContext.tsx:688-695 | the language becomes the chosen one, its code is stored under 'realestate_language' with the rest of storage unchanged, and the lang attribute is the code |
| Language.ChoiceSurvivesReload | contexts/LanguageContext.tsx:688-692 | after setLanguage, the next mount resolves to the chosen language whatever the browser's language (the key is defined at line 19 and read at 672-675) |
| Language.LabelKeysTranslate | contexts/LanguageContext.tsx:704-706 | every property- and transaction-type key translates to its table entry in the current language (the entries are at lines 276-284 and 655-663) |
| Language.UnknownKeyIsItself | contexts/LanguageContext.tsx:704-706 | a key in neither part of the table translates to itself |
| ListingLabels.StripTransactionPrefix | components/ListingCard.tsx:37 | a leading 'transaction.' is removed once (prefix plus result is the input); any other text is unchanged |
| ListingLabels.NormalizeTransaction | components/ListingCard.tsx:37 | the normalised type is already lower-case and no longer than the stored text |
| ListingLabels.TransactionLabel | components/ListingCard.tsx:34-44 | '' for a missing or empty type, the translated sale or rent label when the normalised type is one of them, and the stored text otherwise |
| ListingLabels.NormalizePlain | components/ListingCard.tsx:37 | a type without the prefix and without white space at its ends is normalised to its lower-case form |
| ListingLabels.NormalizePrefixed | components/ListingCard.tsx:37 | a prefixed type is normalised to the lower-case form of what follows the prefix |
| ListingLabels.RentSpellings | components/ListingCard.tsx:34-44 | 'rent' and 'transaction.rent' both get the rent label |
| ListingLabels.CapitalisedSale | components/ListingCard.tsx:37-41 | 'Sale' gets the sale label |
| ListingLabels.DoublePrefixIsKept | components/ListingCard.tsx:37-44 | 'transaction.transaction.sale' loses only one prefix, matches neither type and is shown as stored |
| ListingLabels.SpaceBeforePrefixKeepsIt | components/ListingCard.tsx:37-44 | ' transaction.sale' keeps its prefix, because the prefix is removed before trimming, and is shown as stored |
| ListingLabels.PropertyLabel | components/ListingCard.tsx:27-32 | '' for an empty type; otherwise the translation of 'property.<type>' when it is non-empty and not the key itself, else the type |
| ListingLabels.PropertyLabelWithTables | components/ListingCard.tsx:27-32 | with the application's tables, the five known types get their translated names, and a type with no entry is shown as it is |
| ListingLabels.RentLabelWithTables | components/ListingCard.tsx:34-44 | with the application's tables, a rent listing gets the current language's word for rent |
| ListingLabels.CardImage | components/ListingCard.tsx:46-48 | definition: there is no image exactly when the list is empty; otherwise the image is the first one |
| ListingLabels.PrefixedRentHasNoSuffix | components/ListingCard.tsx:34-93 | a type stored as 'transaction.rent' is labelled rent, but its price has no per-month suffix, because the suffix test compares the stored text exactly |
| ListingLabels.ShowsPerMonth | components/ListingCard.tsx:93 | a price with the per-month suffix belongs to a row whose type normalises to 'rent' |
| ListingLabels.IntFeature | components/ListingDetailContent.tsx:142-158 | with `value && …`, an absent value shows nothing, zero shows a stray '0', and any other value shows its block |
| ListingLabels.RealFeature | components/ListingDetailContent.tsx:160-168 | the same for the area |
| ListingLabels.DetailOf | components/ListingDetailContent.tsx:60-257 | the owner's actions show exactly for the owner, the views line exactly when views are present, the no-description text exactly when the description is missing or empty, and the updated line exactly when updated differs from created |
| ListingLabels.AddressLine | components/ListingDetailContent.tsx:86-87 | the address line is address, district and province joined by ', ', with ' ' and the postal code appended only when it is present and non-empty |
| ListingLabels.ZeroViewsShown | components/ListingDetailContent.tsx:108-123 | zero views are still shown, and an empty description counts as missing |
| DashboardListingCard.AfterChange | components/DashboardListingCard.tsx:100-106 | definition: after a successful change the parent's callback runs exactly when it was given, and the page refreshes exactly when it was not (the toggle does the same at 169-175) |
| DashboardListingCard.DeleteEffects | components/DashboardListingCard.tsx:64-129 | no effect exactly when the session check throws; the delete POST, first and with the bearer token, exactly when there is a session; a second effect, the parent callback or a refresh, exactly after a successful delete |
| DashboardListingCard.DeleteAlert | components/DashboardListingCard.tsx:64-129 | the success alert exactly after a delete with a session; the sign-in alert exactly when the session is missing or failed; a refusal shows an error with `RefusalMessage` |
| DashboardListingCard.RefusalMessage | components/DashboardListingCard.tsx:112 | a refused delete reports the body's `error` when truthy, else its `details` when truthy, else the generic error text |
| DashboardListingCard.DashboardCard.constructor | components/DashboardListingCard.tsx:23-28 | the menu, the confirmation, the alert and both busy flags start closed or off, and nothing has been asked of the outside world |
| DashboardListingCard.DashboardCard.DeleteClick | components/DashboardListingCard.tsx:59-62 | the menu closes and the delete confirmation opens |
| DashboardListingCard.DashboardCard.DeleteConfirm | components/DashboardListingCard.tsx:64-129 | the effects are those of the delete reference: sign-in redirect without a session, else the POST to `/api/listings/<id>/delete` with the bearer token and, on success, the parent callback or a refresh; the alert matches the outcome; the confirmation stays open only without a session; the busy flag ends off |
| DashboardListingCard.DashboardCard.ToggleFeatured | components/DashboardListingCard.tsx:131-188 | without a user nothing is sent and the sign-in warning shows; a throw shows the generic error; with a user the update flips the flag for this listing and this owner, and only a successful update is followed by the callback or refresh, with the alert matching the outcome; the menu closes and the busy flag ends off |
| DashboardListingCard.NoSessionNoRequest | components/DashboardListingCard.tsx:70-80 | with a session error or no session, the only effect is the redirect to sign-in back to the dashboard, and the alert is a warning |
| DashboardListingCard.DeletePostedIffSession | components/DashboardListingCard.tsx:68-89 | a delete is posted exactly when a session was obtained, first, to the listing's own route with that session's token |
| DashboardListingCard.RefreshOnlyAfterSuccess | components/DashboardListingCard.tsx:91-106 | the callback or refresh happens exactly when a session was obtained and the delete succeeded |
| Dashboard.OwnerMatches | app/dashboard/page.tsx:50-69 | only the owner's rows are asked for, and without a filter in the URL exactly the owner's rows |
| Dashboard.AdmitsAppend | app/dashboard/page.tsx:50-69 | a query with one more condition admits a row exactly when the shorter query does and the condition holds |
| Dashboard.AddIf | app/dashboard/page.tsx:59-69 | a truthy parameter appends its condition and a falsy one leaves the query unchanged; either way the query admits a row iff the old one does and, when the parameter is truthy, the condition holds |
| Dashboard.OwnerQueryFor | app/dashboard/page.tsx:50-69 | the first condition is `user_id = <user>`, and the query admits exactly the owner's rows that match the set type filters exactly and hold the search text in title, description or address (the refresh repeats it at 106-125) |
| Dashboard.TotalViews | app/dashboard/page.tsx:142 | the total is 0 for no rows and never negative when no row has a negative count |
| Dashboard.TotalViewsAppend | app/dashboard/page.tsx:142 | the view total of two runs of rows is the sum of their totals |
| Dashboard.UnviewedAddsNothing | app/dashboard/page.tsx:142 | a row without views (or with zero) does not change the total |
| Dashboard.CountWhere | app/dashboard/page.tsx:143-145 | a count never exceeds the number of rows |
| Dashboard.DisjointCounts | app/dashboard/page.tsx:144-145 | two predicates that never hold together count at most all the rows |
| Dashboard.SaleAndRentBound | app/dashboard/page.tsx:144-145 | the sale and rent counts together never exceed the number of listings |
| Dashboard.CountWhereMeaning | app/dashboard/page.tsx:143-145 | a count is the number of positions whose row satisfies the predicate |
| Dashboard.FeaturedCount | app/dashboard/page.tsx:143 | never above the number of rows; 0 exactly when no row is featured, and the number of rows exactly when every row is |
| Dashboard.SaleCount | app/dashboard/page.tsx:144 | never above the number of rows; 0 exactly when no row is stored as 'sale', and the number of rows exactly when every row is |
| Dashboard.RentCount | app/dashboard/page.tsx:145 | never above the number of rows; 0 exactly when no row is stored as 'rent', and the number of rows exactly when every row is |
| Dashboard.CountWhereNone | app/dashboard/page.tsx:143-145 | a filtered count is 0 exactly when no row satisfies the predicate |
| Dashboard.CountWhereAll | app/dashboard/page.tsx:143-145 | a filtered count is the number of rows exactly when every row satisfies the predicate |
| Dashboard.PrefixedTypeIsUncounted | app/dashboard/page.tsx:144-145 | a row typed 'transaction.sale' counts as neither sale nor rent, because the counts compare exactly |
| Dashboard.LoadedListings | app/dashboard/page.tsx:74-86 | after the first load the rows are the data when the query returned some, and none after an error, a missing body or a throw |
| Dashboard.ErrorAfter | app/dashboard/page.tsx:74-86 | a failed query sets the error with the backend's message, a throw sets the plain error, and a successful reply keeps the previous banner (the refresh does the same at 130-139) |
| Dashboard.DashboardPage.constructor | app/dashboard/page.tsx:20-22 | the page starts with no rows, loading, without an error and without effects |
| Dashboard.DashboardPage.Load | app/dashboard/page.tsx:24-99 | while authentication loads nothing happens; with no user the page pushes the sign-in redirect and nothing else; otherwise one query admitting exactly the owner's matching rows is sent, the rows and error follow the reply, and loading ends |
| Dashboard.DashboardPage.Refresh | app/dashboard/page.tsx:101-140 | without a user nothing happens; otherwise the same owner query is sent, a successful reply replaces the rows, and a failed one keeps them while setting the error |
| Dashboard.StatsOf | app/dashboard/page.tsx:142-145 | the total is the number of rows, the views are `TotalViews`, and the featured, sale and rent figures are `FeaturedCount`, `SaleCount` and `RentCount`; the featured figure and the sale and rent figures together never exceed the total |
| Dashboard.ScreenOf | app/dashboard/page.tsx:147-267 | a spinner exactly while authentication or the load is pending; nothing exactly when done without a user; otherwise the board with the figures of the rows, the empty-state line exactly when there are none, and its filtered variant exactly when a filter is in the URL |
| Dashboard.WelcomeName | app/dashboard/page.tsx:170 | the welcome shows the trimmed full name when it is non-empty, and the generic user text otherwise |
| Dashboard.FailedLoadThenRefresh | app/dashboard/page.tsx:74-135 | a failed first load leaves no rows and the error; a later successful refresh does not clear that error |
| FilterParams.NonEmptyPairs | components/SearchFilters.tsx:29-33 | the kept entries are never more than the entries |
| FilterParams.NonEmptyPairsFrom | components/SearchFilters.tsx:29-33 | every kept entry is one of the entries |
| FilterParams.NonEmptyPairsNone | components/SearchFilters.tsx:29-33 | nothing is kept exactly when every value is empty |
| FilterParams.SetParamFresh | components/SearchFilters.tsx:31 | setting a key not yet present appends the pair |
| FilterParams.GetSnoc | components/SearchFilters.tsx:13-19 | after appending a pair, an earlier pair of the same name still answers `get`; otherwise the new pair does when its name matches |
| FilterParams.BuildParams | components/SearchFilters.tsx:27-33 | walking the entries and setting each non-empty value gives exactly the non-empty entries, in order |
| FilterParams.GetNonEmpty | components/SearchFilters.tsx:29-35 | with distinct keys, the parameter of an entry's key is its value when non-empty and absent otherwise |
| FilterParams.GetAbsent | components/SearchFilters.tsx:29-35 | a key no entry carries has no parameter |
| SearchFilters.WithValue | components/SearchFilters.tsx:22-24 | changing one filter sets it and leaves the other six as they were |
| SearchFilters.Entries | components/SearchFilters.tsx:29 | the seven entries, each key at its position with its name and the filter's value |
| SearchFilters.EntriesDistinct | components/SearchFilters.tsx:12-29 | no key appears twice among the entries |
| SearchFilters.FromUrlValue | components/SearchFilters.tsx:12-20 | each filter starts as its URL parameter, and '' when the parameter is absent |
| SearchFilters.SearchParamsExact | components/SearchFilters.tsx:26-35 | the pushed parameters hold exactly the non-empty filters, with their values |
| SearchFilters.SearchRoundTrip | components/SearchFilters.tsx:12-35 | reading the filters back from the pushed parameters gives the same filters |
| SearchFilters.ResetRoundTrip | components/SearchFilters.tsx:12-48 | the URL '/' of a reset reads back as the cleared filters |
| SearchFilters.SearchFilterBar.constructor | components/SearchFilters.tsx:12-20 | the filters start as read from the URL, with nothing pushed |
| SearchFilters.SearchFilterBar.FilterChange | components/SearchFilters.tsx:22-24 | the filters become the old filters with the one key changed |
| SearchFilters.SearchFilterBar.HandleSearch | components/SearchFilters.tsx:26-36 | one navigation to '/?' with exactly the non-empty filters in order is pushed, even when none are set; the filters are unchanged |
| SearchFilters.SearchFilterBar.HandleReset | components/SearchFilters.tsx:38-49 | the filters are cleared and '/' is pushed |
| DashboardFilters.WithValue | components/DashboardFilters.tsx:27-29 | changing one filter sets it and leaves the other two as they were |
| DashboardFilters.Entries | components/DashboardFilters.tsx:35 | the three entries, each key at its position with its name and the filter's value |
| DashboardFilters.EntriesDistinct | components/DashboardFilters.tsx:12-35 | no key appears twice among the entries |
| DashboardFilters.Target | components/DashboardFilters.tsx:41-42 | the target carries the parameters, under '/dashboard?' when there are any and '/dashboard' when there are none |
| DashboardFilters.SearchParamsExact | components/DashboardFilters.tsx:31-42 | the pushed parameters hold exactly the non-empty filters, with their values |
| DashboardFilters.SearchRoundTrip | components/DashboardFilters.tsx:19-42 | syncing from the pushed parameters gives the same filters back |
| DashboardFilters.BareTargetIffNoFilter | components/DashboardFilters.tsx:35-55 | a search goes to the bare '/dashboard', the reset's target, exactly when every filter is empty |
| DashboardFilters.SearchSelects | app/dashboard/page.tsx:55-69 | the dashboard, reading the pushed parameters, selects exactly the owner's rows that match each set filter |
| DashboardFilters.DashboardFilterBar.constructor | components/DashboardFilters.tsx:12-16 | the filters start cleared, with nothing pushed |
| DashboardFilters.DashboardFilterBar.SyncFromUrl | components/DashboardFilters.tsx:19-25 | the filters become those read from the URL |
| DashboardFilters.DashboardFilterBar.FilterChange | components/DashboardFilters.tsx:27-29 | the filters become the old filters with the one key changed |
| DashboardFilters.DashboardFilterBar.HandleSearch | components/DashboardFilters.tsx:31-46 | one navigation to the target of exactly the non-empty filters is pushed |
| DashboardFilters.DashboardFilterBar.HandleReset | components/DashboardFilters.tsx:48-59 | the filters are cleared and '/dashboard' is pushed |
| AuthCallback.NextPath | app/auth/callback/route.ts:7 | definition: the continuation is `next` when it is truthy, and '/dashboard' otherwise |
| AuthCallback.Callback | app/auth/callback/route.ts:4-38 | a code is exchanged exactly when there is no provider error and the code is truthy, and it is the request's own code; the user continues to `next` (or the dashboard) exactly after a successful exchange; with neither an error nor a code the user is sent to plain sign-in; the other cases redirect to sign-in with the message (`ProviderErrorWins`, `FailedExchangeReported`) |
| AuthCallback.ProviderErrorWins | app/auth/callback/route.ts:12-17 | a truthy `error` sends to sign-in with the error description when truthy, else the error, and no code is exchanged |
| AuthCallback.FailedExchangeReported | app/auth/callback/route.ts:27-32 | a failed exchange sends to sign-in with the exchange's message |
| AuthCallback.CallbackExample | app/auth/callback/route.ts:4-38 | an empty `error` is ignored and a code continues to '/dashboard', or to a given `next` such as '/listings/new' |

## Left out

- Rendering, styling, icons, animation, `console` logging and the `typeof window` branches for server rendering are not modelled. The model is the browser path.
- Timers are not modelled: the 5-second initialisation timeout of the auth provider, the dashboard's 10-second fetch timeout, and the carousel's `setTimeout`, which is kept only as its delay value (`HeroSlider.AutoDelay`). Asynchronous interleaving is not modelled either: every effect runs to completion with the replies given as parameters.
- The backend (Supabase auth, queries, storage uploads, the delete route) is represented by its replies, passed in as parameters. A query is modelled by the conditions it carries, not by the SQL it becomes.
- The mock clients are modelled apart from the components. What a mock answers, or that a call on it throws, is not fed into the component models, whose replies are parameters (a thrown reply where the component catches one).
- The order of a query is not modelled: `order('created_at', ...)`, on the home page and on the dashboard alike, is left to the backend.
- The home page's and the dashboard's ilike search is modelled as a case-insensitive substring test: `%` and `_` inside the text are not treated as wildcards, and a comma inside the search text (which splits the `or` filter) is not modelled.
- `Number`, `parseInt` and `parseFloat` are parameters (their results), as are `new URL`, `URLSearchParams.toString` and `encodeURIComponent`. Query strings are modelled as ordered pairs.
- `Common.ToLower` folds only ASCII `A`-`Z`; Unicode case folding is not modelled.
- String lengths are counted in characters of `seq<char>`, not in UTF-16 code units.
- A fractional `page` parameter is not modelled: the page number is an integer.
- Only the property- and transaction-type entries of the translation tables are written out (`Language.LabelEntries`). The other entries are the parameter `others`. A message shown to the user is modelled as its translation key.
- The image compression of `lib/image-utils.ts` is a parameter: its result files and the `needsCompression` predicate. Object URLs for previews are modelled as the files themselves. The `compressing` flag and the loading spinners are not modelled.
- `formatPrice` and the date formatting are not modelled.
- `Auth.AuthProvider.SignOut` models the backend sign-out throwing. The fatal paths (a failed profile load) assume the backend sign-out returns.
- `Auth` and `Language` keep separate `localStorage` maps. The browser shares one, but they use different keys.
- The cookie `setAll` callbacks of the middleware and the server client, and the response they write, are not modelled.
- A search parameter with several values (`string[]`) is not modelled: each name has at most one value that counts, the first.
- `handleFilterChange` takes any string as a key. The model accepts only the form's own keys (an enum), because the inputs pass only those.
- `AuthCallback.Callback`: `new URL(next, origin)` is not resolved. The continuation is the `next` text itself, and an absolute `next` (to another origin) is not checked, as in the source.
- `AuthCallback.Callback` assumes the code exchange returns. On the server placeholder client it throws (`SupabaseServer.ServerPlaceholderAnswer`), and then the route throws instead of redirecting.
- A cached profile entry that is not valid JSON (`JSON.parse` throws) is modelled as a stored text that reads back as no profile.
- `window.open` for a slide's link, and the slider's dots beyond `goToSlide` as a plain assignment, are not modelled.

## Where the code and the description differ

The model follows the code in each case.

- The new-listing price is stored as `Math.round` of the parsed value, which rounds half up: 5000000.7 becomes 5000001 (`ListingForm.MathRound`). A price that parses to NaN passes the `price <= 0` check and is stored as null. A price in (0, 0.5) is stored as 0.
- The listing gallery's "+N" tile opens index 4, which is the last thumbnail, not the first hidden image (`ListingImageGallery.MoreTileOpensLastThumbnail`).
- The per-month suffix and the dashboard's sale and rent counts compare the stored type exactly. A type stored as `transaction.rent` is labelled rent, but it gets no suffix and is not counted (`ListingLabels.PrefixedRentHasNoSuffix`, `Dashboard.PrefixedTypeIsUncounted`).
- A successful dashboard reload keeps an earlier error banner (`Dashboard.FailedLoadThenRefresh`).
- The edit form's removal of an existing image changes only the previews. The submitted list still holds the image.
- In mock mode many of the application's own calls throw, because the mock client lacks the method or the longer chain (`SupabaseClient.ApplicationChainsOnPlaceholder`). On the home page the query ends in `range`, so it throws and the page shows its error state.
