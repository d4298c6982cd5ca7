# prime-estate: a verified model of the listing, search and credit logic

prime-estate is a Next.js real-estate site. Sellers register and sign in.
They buy listing credits through Stripe and publish property listings.
Visitors browse the listings with filters and paging.

Most of the site renders data or calls Prisma, Stripe, bcrypt and JWT. This
project models the logic that sits under that glue and proves what it does:

- the page-number strip of the pagination control;
- the URL query updates of the search panel and the property list, over an
  ordered list of name/value pairs with the `set`/`delete` semantics of the
  `URLSearchParams` class (section 6.2 of the WHATWG URL Standard);
- the image carousel, the amenity list and the labels of a property card;
- the photo and preview lists of the listing form;
- the listing, sign-up and sign-in schemas, as message lists and predicates;
- the route guard and the paths it runs on;
- the server actions over a user table and a property table, including
  registration, login, the signed-in user, adding and reading listings, and
  refilling credit;
- the Stripe webhook and its effect on the credit ledger;
- the database seed;
- the three credit-permission flags;
- the pricing table.

Code that works step by step is modelled as imperative Dafny, and each such
method is proved against a pure function. This covers the pagination loop,
the `createQueryString` loop, the seed loop, the carousel and form state,
the credit flags, and the database actions (methods of the class
`Store.Database`). Pure expressions are modelled as functions, and their
properties are proved as lemmas.

Collaborators the code calls but does not define become parameters of the
model:

- the signed-in user `dbUser` returns;
- `hash`, `compare`, `signToken` and `verifyToken`;
- Stripe's signature check;
- the ids, status and timestamps the database assigns;
- the failure of a database write;
- zod's e-mail syntax check;
- object URLs for previews.

Most modules model one source file each. `CreditPermission` models the
three places that decide whether a user may list: the client store, the
server hook and the React context. `SearchParams` models no source file of
the repository: it is the `URLSearchParams` behaviour that the search panel,
the property list and the pagination links share. `Common` holds the shared
records and `Store` the two tables.

## Model

| member | source | states |
|---|---|---|
| Common.OrElse | src/components/PropertiesList.tsx:85-86 | `v \|\| fallback` on an optional string: the value when present and non-empty, the fallback otherwise |
| Common.IntToString | src/components/Pagination.tsx:41 | `toString()` of an integer: never empty, digits without leading zeros, a minus sign exactly for negatives |
| Common.NatToString | src/components/Pagination.tsx:41 | decimal rendering: at least one digit, only digits, no leading zero |
| Common.NatToStringRoundTrip | src/components/Pagination.tsx:41 | reading the digits back gives the number |
| Common.NatToStringInjective | src/components/PropertiesList.tsx:158 | different page numbers give different URL values |
| Pagination.Window | src/components/Pagination.tsx:61-71 | the middle window: the siblings of the current page clipped to [2, totalPages−1], widened at a clipped edge |
| Pagination.TruncatedStrip | src/components/Pagination.tsx:58-97 | page 1, an ellipsis iff start > 2, the pages start..end, an ellipsis iff end < totalPages−1, the last page |
| Pagination.Items | src/components/Pagination.tsx:46-98 | the strip: every page when it fits, else page 1, the window with its ellipses, and the last page |
| Pagination.GenerateItems | src/components/Pagination.tsx:46-98 | the loop that pushes items yields exactly the strip `Items` |
| Pagination.PushRun | src/components/Pagination.tsx:52-54 | one `for` loop appends the links lo..hi |
| Pagination.RunAt | src/components/Pagination.tsx:52-54 | a run has hi−lo+1 links, the k-th being page lo+k |
| Pagination.RunSnoc | src/components/Pagination.tsx:52-54 | extending a run by one page appends that page |
| Pagination.AllPagesWhenShort | src/components/Pagination.tsx:48-55 | when totalPages ≤ 2·siblingCount+3 the strip is exactly pages 1..totalPages in order |
| Pagination.WindowBounds | src/components/Pagination.tsx:61-71 | the middle window lies within [2, totalPages−1] and is at most 2·siblingCount+1 wide |
| Pagination.WindowWidens | src/components/Pagination.tsx:61-71 | the edge adjustment only widens the window around the current page |
| Pagination.TruncatedLayout | src/components/Pagination.tsx:58-97 | position by position: page 1, an ellipsis iff start > 2, the window, an ellipsis iff end < totalPages−1, the last page |
| Pagination.TruncatedEnds | src/components/Pagination.tsx:58-97 | a truncated strip's length, page 1 first, the leading ellipsis iff start > 2, the trailing one iff end < totalPages−1, the last page last |
| Pagination.TruncatedMiddle | src/components/Pagination.tsx:73-85 | the window's pages follow page 1 and the leading ellipsis in order |
| Pagination.TruncatedShape | src/components/Pagination.tsx:58-97 | first item page 1, last page totalPages, pages strictly increasing in [1, totalPages], each ellipsis hides at least one page |
| Pagination.TruncatedIncreasing | src/components/Pagination.tsx:58-97 | the pages of a truncated strip lie in [1, totalPages] and strictly increase |
| Pagination.TruncatedEllipses | src/components/Pagination.tsx:60-97 | each ellipsis of a truncated strip sits between two links and hides at least one page |
| Pagination.CurrentPageShown | src/components/Pagination.tsx:48-97 | a current page within 1..totalPages is always in the strip |
| Pagination.PageNumbers | src/components/Pagination.tsx:104-117 | the page numbers of a strip are no more than its items |
| Pagination.PageNumbersAppend | src/components/Pagination.tsx:104-117 | the page numbers of a concatenation are the concatenated page numbers |
| Pagination.PageNumbersOfRun | src/components/Pagination.tsx:52-54 | a run of lo..hi holds hi−lo+1 page numbers |
| Pagination.TruncatedPageCount | src/components/Pagination.tsx:61-97 | a truncated strip shows at most 2·siblingCount+3 page numbers |
| Pagination.PageUrl | src/components/Pagination.tsx:38-43 | a page link's path is the base path, or the window's path when the base path is empty; its `page` parameter is the page number's decimal text and no other parameter is present |
| Pagination.PageUrlReadsBack | src/components/Pagination.tsx:38-43 | the `page` value of a page link is all digits and reads back as that page |
| Pagination.PageUrlsDistinct | src/components/Pagination.tsx:38-43 | different pages get different links |
| Pagination.ItemLinks | src/components/Pagination.tsx:104-118 | each page of the strip is linked to its own page URL and an ellipsis to nothing |
| Pagination.StripPagesPositive | src/components/Pagination.tsx:46-98 | every page the strip shows is at least 1 |
| Pagination.StripLinksLeadToTheirPage | src/components/Pagination.tsx:104-118 | the link of every page in the strip carries only `page`, whose value reads back as the page shown |
| Pagination.Render | src/components/Pagination.tsx:120-197 | nothing is rendered iff totalPages ≤ 1; the strip is `Items` with each page linked by `PageUrl`; first/last exist iff requested and link to pages 1 and totalPages; first/previous are disabled iff on page 1, next/last iff on the last page; previous/next link to the neighbouring page URL when it exists and to "#" otherwise (see also line 35) |
| SearchParams.ValuesOf | src/components/PropertSearchComponent.tsx:73 | `getAll`: never more values than pairs |
| SearchParams.Get | src/components/PropertSearchComponent.tsx:53-67 | `get`: nothing iff no pair has the name, else the first value |
| SearchParams.Delete | src/components/PropertSearchComponent.tsx:77 | `delete`: the name has no values afterwards, every other name keeps its values |
| SearchParams.ReplaceFirst | src/components/PropertSearchComponent.tsx:79 | the first pair takes the value and later pairs of the name go; other names are untouched |
| SearchParams.Set | src/components/PropertSearchComponent.tsx:79 | `set`: the name holds exactly the new value, other names keep their values, and setting the value it already alone holds changes nothing |
| SearchParams.AppendedValues | src/components/PropertSearchComponent.tsx:79 | appending a pair adds its value to its own name only |
| SearchParams.AppendedDelete | src/components/PropertSearchComponent.tsx:77-79 | deleting a name forgets an appended pair of that name |
| SearchParams.DeleteCommutes | src/components/PropertiesList.tsx:163-168 | deleting two names in either order gives the same list |
| SearchParams.Step | src/components/PropertSearchComponent.tsx:76-80 | one update entry: an empty value deletes the key, any other sets it |
| SearchParams.ApplyUpdates | src/components/PropertSearchComponent.tsx:73-83 | the entries of an update record applied in their order |
| SearchParams.CreateQueryString | src/components/PropertSearchComponent.tsx:71-86 | the forEach loop yields the update fold, and afterwards each updated key is absent (empty value) or holds its new value while other keys are unchanged |
| SearchParams.UpdatesMeaning | src/components/PropertSearchComponent.tsx:73-83 | after the updates an updated key with an empty value is absent, any other updated key holds its new value, and keys outside the update keep their values |
| SearchParams.UpdatedGet | src/components/PropertSearchComponent.tsx:73-83 | `get` on an updated key returns its new value, or nothing when the update deleted it |
| SearchParams.UpdatedValues | src/components/PropertSearchComponent.tsx:73-83 | `getAll` on an updated key gives nothing when the update deleted it, else exactly the new value |
| SearchParams.UpdatesFixpoint | src/components/PropertSearchComponent.tsx:73-83 | a list that already reflects every update is left exactly as it is |
| SearchParams.UpdatesIdempotent | src/components/PropertSearchComponent.tsx:73-83 | applying the same update record twice equals applying it once |
| PropertySearch.InitialFilters | src/components/PropertSearchComponent.tsx:53-67 | each filter from the URL, or its default when missing or empty |
| PropertySearch.CallbackPayload | src/components/PropertSearchComponent.tsx:102-111 | the callback payload: empty text and "all" become undefined; sort and order pass through |
| PropertySearch.HasActiveFilters | src/components/PropertSearchComponent.tsx:155-160 | some text filter is non-empty, or a select is non-empty and not "all" |
| PropertySearch.Cleared | src/components/PropertSearchComponent.tsx:131-137 | the cleared state: "", "all", "all", "", "", "createdAt", "desc" |
| PropertySearch.FilterUpdates | src/components/PropertSearchComponent.tsx:90-99 | applyFilters' update record has distinct keys |
| PropertySearch.FilterValue | src/components/PropertSearchComponent.tsx:71-99 | the URL applyFilters builds holds, under each filter's key, nothing for an empty filter and its value otherwise |
| PropertySearch.SearchPanel.constructor | src/components/PropertSearchComponent.tsx:53-67 | each field starts from the URL, or its default when missing or empty |
| PropertySearch.SearchPanel.ApplyFilters | src/components/PropertSearchComponent.tsx:89-114 | with a callback, the payload is sent; otherwise the URL pushed is the current one with the filter updates applied and `page` = "1" |
| PropertySearch.SearchPanel.ClearFilters | src/components/PropertSearchComponent.tsx:130-147 | the state becomes "", "all", "all", "", "", "createdAt", "desc" and the panel announces an unfiltered search or pushes the bare path |
| PropertySearch.PageReset | src/components/PropertSearchComponent.tsx:98 | filtering always writes `page` = "1" |
| PropertySearch.ClearedIsInactive | src/components/PropertSearchComponent.tsx:130-160 | after clearing no filter is active, and an empty URL opens the panel cleared |
| PropertySearch.SortNeverCounts | src/components/PropertSearchComponent.tsx:155-160 | sort field and order never make filters active |
| PropertySearch.AllKeptInUrlDroppedInCallback | src/components/PropertSearchComponent.tsx:76-108 | "all" stays in the URL for `type`/`for` but becomes undefined in the callback |
| PropertySearch.EmptyTextDroppedOnBothPaths | src/components/PropertSearchComponent.tsx:76-108 | an empty query or price bound is absent from the URL and undefined in the callback |
| PropertySearch.PushedUrlRoundTrip | src/components/PropertSearchComponent.tsx:53-67 | re-opening the panel on the URL applyFilters pushed shows the same filters (see also lines 89-113) |
| PropertySearch.ReapplyIsStable | src/components/PropertSearchComponent.tsx:89-113 | applying the same filters twice pushes the same query as once |
| PropertiesList.FetchParamsOf | src/components/PropertiesList.tsx:112-129 | page and limit from the URL with defaults "1" and "10", the truthy text filters, `type`/`for` unless "all", and sort and order when present (see also lines 85-86) |
| PropertiesList.Present | src/components/PropertiesList.tsx:118-129 | a `get` result is forwarded iff present and non-empty |
| PropertiesList.Chosen | src/components/PropertiesList.tsx:119-122 | a select value is forwarded iff present, non-empty and not "all" |
| PropertiesList.FilteredFetch | src/components/PropertiesList.tsx:112-129 | after filtering, the fetch asks for page "1", the non-empty text filters, `type`/`for` unless "all", and the sort and order |
| PropertiesList.HandlePageChange | src/components/PropertiesList.tsx:156-160 | only `page` changes, to the new number; every other fetch parameter is preserved |
| PropertiesList.HandleLimitChange | src/components/PropertiesList.tsx:163-168 | `limit` takes the new value and `page` becomes "1"; everything else is preserved |
| PropertiesList.SetKeepsGet | src/components/PropertiesList.tsx:158 | setting one name leaves `get` of every other name unchanged |
| PropertiesList.SetKeepsFetchParams | src/components/PropertiesList.tsx:85-86 | setting `page` or `limit` changes that fetch parameter alone (see also lines 158-166) |
| PropertiesList.ShowingRange | src/components/PropertiesList.tsx:206-208 | the last row shown never exceeds totalCount |
| PropertiesList.ShowingRangeWithinPage | src/components/PropertiesList.tsx:206-208 | on a page that has rows, first = (page−1)·limit+1 ≤ last ≤ totalCount and at most `limit` rows are counted |
| PropertiesList.ListView.ShowsControls | src/components/PropertiesList.tsx:270 | the controls render when not loading, the list is non-empty and the pagination has more than one page (see also line 171) |
| PropertiesList.ListView.constructor | src/components/PropertiesList.tsx:79-82 | no properties, no pagination, no error, loading |
| PropertiesList.ListView.FetchProperties | src/components/PropertiesList.tsx:107-148 | sends the URL's parameters; a good response sets the list and pagination, a failed or thrown one clears both and sets the error; loading ends; without pagination no controls are shown; after a good response with rows the controls show iff totalPages > 1, and never after a failure (see also line 270) |
| PropertyCard.NextIndex | src/components/PropertyCard.tsx:68-72 | with n > 0 images the index moves to i+1, wrapping to 0, and stays below n; with none it stays |
| PropertyCard.PrevIndex | src/components/PropertyCard.tsx:74-80 | with n > 0 images the index moves to i−1, wrapping to n−1, and stays below n; with none it stays |
| PropertyCard.NextPrevInverse | src/components/PropertyCard.tsx:68-80 | prev after next, and next after prev, return the original index |
| PropertyCard.StepsForwardWrap | src/components/PropertyCard.tsx:68-72 | k ≤ n presses of next give i+k, wrapped once past n |
| PropertyCard.FullTurn | src/components/PropertyCard.tsx:68-72 | n presses over n images return to the first image shown |
| PropertyCard.Carousel.constructor | src/components/PropertyCard.tsx:52 | the carousel starts at image 0 |
| PropertyCard.Carousel.NextImage | src/components/PropertyCard.tsx:68-72 | the index becomes NextIndex of the old index and still names an image |
| PropertyCard.Carousel.PrevImage | src/components/PropertyCard.tsx:74-80 | the index becomes PrevIndex of the old index and still names an image |
| PropertyCard.Carousel.SelectImage | src/components/PropertyCard.tsx:118 | a dot click shows that image |
| PropertyCard.FeatureTable | src/components/PropertyCard.tsx:55-64 | every feature beside its amenity flag, in display order |
| PropertyCard.KeepTrue | src/components/PropertyCard.tsx:65 | the features whose flag is set |
| PropertyCard.Features | src/components/PropertyCard.tsx:55-65 | `propertyFeatures`: the set amenities, in the fixed order Garden…Parking (see FeaturesExact) |
| PropertyCard.KeepTrueMembers | src/components/PropertyCard.tsx:65 | the filter keeps a feature exactly when its flag is set |
| PropertyCard.KeepTrueOrdered | src/components/PropertyCard.tsx:65 | the filter keeps the entries in their table order |
| PropertyCard.FeaturesExact | src/components/PropertyCard.tsx:55-65 | a feature is listed iff its amenity is set, in the fixed order Garden…Parking |
| PropertyCard.TableRow | src/components/PropertyCard.tsx:55-64 | each feature sits at its own position in the table, beside its flag |
| PropertyCard.FeaturesDistinct | src/components/PropertyCard.tsx:55-65 | no feature is listed twice |
| PropertyCard.Badges | src/components/PropertyCard.tsx:187-199 | as written: the first min(2, n) features, and "+k more" iff n > 4 with k = n−4 |
| PropertyCard.BadgesHideWithoutNotice | src/components/PropertyCard.tsx:187-199 | four features show two badges and no "+k more"; five show "+1 more" for three hidden |
| PropertyCard.BadgesCounted | src/components/PropertyCard.tsx:187-199 | corrected: "+k more" iff n > 2, and shown plus k is n |
| PropertyCard.LowerChar | src/components/PropertyCard.tsx:138 | ASCII upper-case letters map to lower case; other characters stay |
| PropertyCard.Lower | src/components/PropertyCard.tsx:138 | `toLowerCase` character by character over ASCII: "A".."Z" become lower case, all else stays; exact for the enum values RENT, SALE and the property types |
| PropertyCard.EnumLabel | src/components/PropertyCard.tsx:138-142 | the first character is kept and the rest lower-cased |
| PropertyCard.ListingBadge | src/components/PropertyCard.tsx:138 | "For " followed by the listing kind's label |
| PropertyCard.ListingLabels | src/components/PropertyCard.tsx:138 | "SALE" shows "For Sale" and "RENT" shows "For Rent" |
| PropertyCard.EnumLabelIdempotent | src/components/PropertyCard.tsx:138-142 | relabelling a label changes nothing |
| PropertyCard.CountWord | src/components/PropertyCard.tsx:169 | the singular word ("Room", "Bath") iff the count is 1, the plural otherwise (see also line 175) |
| PropertyForm.DefaultValues | src/components/forms/PropertyForm.tsx:74-96 | the form's defaults: text passed through, numbers or 0, amenities true only when given true, all from `initialValues` when present |
| PropertyForm.NumberOrZero | src/components/forms/PropertyForm.tsx:78-84 | a missing or zero number gives 0, any other is kept |
| PropertyForm.FlagOrFalse | src/components/forms/PropertyForm.tsx:85-93 | an amenity default is true iff given as true |
| PropertyForm.DefaultsWithoutInitialValues | src/components/forms/PropertyForm.tsx:74-96 | without initial values numbers are 0, amenities false and the location empty |
| PropertyForm.DefaultsKeepTruthyValues | src/components/forms/PropertyForm.tsx:74-96 | truthy initial values are kept, text fields are passed through |
| PropertyForm.RemoveAt | src/components/forms/PropertyForm.tsx:153-156 | `splice(index, 1)` removes exactly that element and shifts the rest; past the end it removes nothing |
| PropertyForm.ImageState.constructor | src/components/forms/PropertyForm.tsx:65-107 | the photos are the initial ones, with previews only when there are some; the lists run in parallel |
| PropertyForm.ImageState.HandleImageChange | src/components/forms/PropertyForm.tsx:116-144 | an empty selection changes nothing; more than 5 in all is rejected with its message and changes nothing; otherwise photos and previews are extended in order, at most 5, still parallel |
| PropertyForm.ImageState.HandleRemoveImage | src/components/forms/PropertyForm.tsx:146-164 | the index-th photo and preview are removed from both lists, which stay parallel |
| PropertyForm.ImageState.ResetAfterUpload | src/components/forms/PropertyForm.tsx:232-245 | after any upload attempt both lists are empty |
| PropertyForm.Zip | src/components/forms/PropertyForm.tsx:136-138 | photos paired with their previews, position by position |
| PropertyForm.RemoveKeepsPairs | src/components/forms/PropertyForm.tsx:152-160 | removing at the same index from both lists keeps every photo with its own preview |
| PropertyForm.RemoveAtRestore | src/components/forms/PropertyForm.tsx:153 | putting the removed element back restores the list |
| PropertyValidation.Issues | src/validation/property.validation.ts:23-91 | `safeParse`: it throws iff the photo list holds a null or undefined element, whatever the other fields; otherwise it returns the issues of every field in the schema's order (see also lines 80-83) |
| PropertyValidation.FieldIssues | src/validation/property.validation.ts:23-91 | the issues of a parse that does not throw, field by field in the schema's order |
| PropertyValidation.PhotoListThrows | src/validation/property.validation.ts:80-83 | the size refinement reads `size` of a null or undefined photo and throws |
| PropertyValidation.TextIssues | src/validation/property.validation.ts:24-33 | a string field: nothing when null or missing, a type issue for a non-string, the minimum's message for "" where there is a minimum |
| PropertyValidation.NumberIssues | src/validation/property.validation.ts:34-64 | a number field: nothing when null or missing, a type issue for a non-number; else the integer issue and the minimum's message, both reported |
| PropertyValidation.EnumIssues | src/validation/property.validation.ts:39-40 | a choice field: nothing when null or missing, a type issue for a non-string, an enum issue outside the options |
| PropertyValidation.FlagIssues | src/validation/property.validation.ts:65-73 | an amenity: a type issue unless boolean, null or missing |
| PropertyValidation.FileIssues | src/validation/property.validation.ts:76-88 | one non-null photo: "Must be a File", the size message and the format message, each when its refinement fails; all three run |
| PropertyValidation.ImagesIssues | src/validation/property.validation.ts:75-90 | "Required" when missing, a type issue for a non-array; else the minimum and maximum messages, then each element's issues |
| PropertyValidation.AmenityIssues | src/validation/property.validation.ts:65-73 | the amenity issues, in key order |
| PropertyValidation.ValidListing | src/validation/property.validation.ts:24-90 | what the schema demands, field by field, with one to five accepted photos |
| PropertyValidation.ElementIssuesEmpty | src/validation/property.validation.ts:76-88 | the photos report nothing iff each is a File of at most 5 MiB of an accepted type |
| PropertyValidation.ImagesIssuesEmpty | src/validation/property.validation.ts:75-90 | the photo list reports nothing iff it holds 1 to 5 accepted photos |
| PropertyValidation.AmenityIssuesEmpty | src/validation/property.validation.ts:65-73 | the amenities report nothing iff each is a boolean, null or missing |
| PropertyValidation.NumberIssuesEmpty | src/validation/property.validation.ts:34-64 | a number field reports nothing iff it is missing, null, or a number ≥ 0 (an integer for counts) |
| PropertyValidation.TextIssuesEmpty | src/validation/property.validation.ts:24-33 | a text field reports nothing iff it is missing, null, or a string (non-empty when it has a minimum) |
| PropertyValidation.EnumIssuesEmpty | src/validation/property.validation.ts:39-40 | a choice field reports nothing iff it is missing, null or one of the options |
| PropertyValidation.IssuesEmptyIffValid | src/validation/property.validation.ts:23-91 | the parse returns without throwing and with no issue iff the record meets every field's demand |
| PropertyValidation.OnlyPhotosRequired | src/validation/property.validation.ts:24-74 | with every other field null or missing, accepted photos parse with no issue |
| PropertyValidation.PhotosRequired | src/validation/property.validation.ts:89 | without at least one photo the parse never succeeds |
| PropertyValidation.SixPhotosRefused | src/validation/property.validation.ts:90 | six photos, none null or undefined, parse and report "Maximum 5 images are allowed" |
| PropertyValidation.NullPhotoThrows | src/validation/property.validation.ts:80-83 | a null photo anywhere in the list makes the parse throw |
| PropertyValidation.FractionalCounts | src/validation/property.validation.ts:47-52 | 1.5 rooms never parses clean; a parse that returns lists the integer issue for rooms |
| AuthValidation.RegisterIssues | src/validation/auth.validation.ts:3-9 | the sign-up messages of every failing check, in the schema's key order; lengths are UTF-16 code units |
| AuthValidation.LoginIssues | src/validation/auth.validation.ts:11-14 | the sign-in messages: e-mail first, then password length in UTF-16 code units |
| AuthValidation.Utf16Length | src/validation/auth.validation.ts:5 | a string's `length` in UTF-16 code units: between its character count and twice that, zero only for the empty string |
| AuthValidation.Utf16LengthBmp | src/validation/auth.validation.ts:5 | a string of Basic Multilingual Plane characters has one code unit per character |
| AuthValidation.EmojiPasswordLength | src/validation/auth.validation.ts:5 | four emoji are four characters but eight code units |
| AuthValidation.EmojiPasswordAccepted | src/validation/auth.validation.ts:13 | sign-in accepts four emoji as a password of sufficient length |
| AuthValidation.ValidRegistration | src/validation/auth.validation.ts:3-9 | what the sign-up schema demands: non-empty name and last name, ≥ 8 UTF-16 units of password, ≥ 10 of phone, a valid e-mail |
| AuthValidation.ValidLogin | src/validation/auth.validation.ts:11-14 | what the sign-in schema demands: a valid e-mail and ≥ 8 UTF-16 units of password |
| AuthValidation.RegisterIssuesEmpty | src/validation/auth.validation.ts:3-9 | sign-up reports nothing iff name and last name are non-empty, the password has ≥ 8 and the phone ≥ 10 UTF-16 code units, and the e-mail is valid |
| AuthValidation.LoginIssuesEmpty | src/validation/auth.validation.ts:11-14 | sign-in reports nothing iff the e-mail is valid and the password has ≥ 8 UTF-16 code units |
| AuthValidation.RegisteredCanLogIn | src/validation/auth.validation.ts:5-13 | e-mail and password accepted at sign-up are accepted at sign-in |
| AuthValidation.PhoneIsOnlyLengthChecked | src/validation/auth.validation.ts:6 | ten letters pass as a phone number |
| AuthValidation.Join | src/actions/user.action.ts:20 | the messages joined with ", " |
| AuthValidation.JoinedMessageMentionsAll | src/actions/user.action.ts:20 | the ", "-joined message is non-empty and contains every issue |
| Middleware.Guard | src/middleware.ts:5-53 | the decision for a request: login without a token or role, unauthorized for a barred role on /admin or /dashboard, login with the cookie deleted on a failed verification, else pass |
| Middleware.Matched | src/middleware.ts:55-57 | the paths under /my-profile and /admin |
| Middleware.Route | src/middleware.ts:55-57 | outside the matcher requests pass; inside it the guard decides |
| Middleware.NoTokenMeansLogin | src/middleware.ts:17-19 | no token, or an empty one, redirects to login |
| Middleware.NoRoleMeansLogin | src/middleware.ts:26-28 | null claims or claims without a role redirect to login |
| Middleware.AdministratorPrefix | src/middleware.ts:33-57 | the guard gates "/administrator" for a non-admin, but the matcher never runs it there |
| Middleware.AdminNeverUnauthorized | src/middleware.ts:33-43 | "ADMIN" is never sent to /unauthorized |
| Middleware.OnlyFailedVerificationDeletesToken | src/middleware.ts:46-51 | the token cookie is deleted iff a present token fails verification |
| Middleware.PassesExactly | src/middleware.ts:17-45 | a request passes iff its token verifies with a role the path admits |
| Middleware.PrefixesExclude | src/middleware.ts:33-39 | two prefixes differing in their second character exclude each other |
| Middleware.DashboardCheckUnreachable | src/middleware.ts:38-57 | no path the matcher admits starts with "/dashboard" |
| Middleware.RouteIgnoresDashboardRule | src/middleware.ts:33-57 | under the matcher the decision is the admin rule alone |
| CreditPermission.StoreAllows | src/store/can-list-permission.ts:16 | the store allows listing iff the credit is positive |
| CreditPermission.CreditStore.constructor | src/store/can-list-permission.ts:12-13 | the store starts with canList false and credit 0 |
| CreditPermission.CreditStore.CanListProperty | src/store/can-list-permission.ts:14-18 | canList becomes credit > 0 and credit is untouched |
| CreditPermission.GetUserCredit | src/hooks/can-list-property.ts:4-14 | no user throws "User not found"; otherwise listing is allowed iff credit ≠ 0 |
| CreditPermission.HookReadsOnlyCredit | src/hooks/can-list-property.ts:9-13 | the answer depends only on the credit |
| CreditPermission.StoreAndHookDisagreeBelowZero | src/hooks/can-list-property.ts:9-13 | store and hook agree for credit ≥ 0; for negative credit the hook allows and the store refuses (see also src/store/can-list-permission.ts:16) |
| CreditPermission.CanListContext.constructor | src/context/CanListProvider.tsx:19 | canList starts false |
| CreditPermission.CanListContext.CheckUserCredit | src/context/CanListProvider.tsx:21-28 | a successful check adopts the hook's answer; a thrown one keeps canList |
| CreditPermission.UseCanList | src/context/CanListProvider.tsx:42-48 | outside a provider it throws its message, inside it returns the context |
| CreditPermission.NegativeCreditSplit | src/store/can-list-permission.ts:14-18 | a user with negative credit is refused by the store and allowed by the provider (see also src/context/CanListProvider.tsx:21-28) |
| Pricing.PopularCount | src/constants/constats.tsx:121 | never more popular packages than packages |
| Pricing.TableShape | src/constants/constats.tsx:85-159 | six packages, all in EUR, exactly one popular: "popular-choice" |
| Pricing.PlanIdsDistinct | src/constants/constats.tsx:85-159 | no two packages share an id |
| Pricing.TableConsistent | src/constants/constats.tsx:85-159 | price = rate × credits, savings = 5 € × credits − price, and the percentage is exactly 100·savings/(5 € × credits) |
| Pricing.MoreCreditsSaveMore | src/constants/constats.tsx:85-159 | down the list credits and price rise, the rate falls and the saving percentage rises |
| Pricing.SavingsFromRate | src/constants/constats.tsx:85-159 | a package saves (5 € − rate) per credit, which is positive iff its rate is below the starter rate |
| Store.Database.constructor | src/actions/property.action.ts:32 | the tables hold the given rows (see also src/actions/user.action.ts:29) |
| Store.UserByEmail | src/actions/user.action.ts:29-74 | no row iff no user has the e-mail; a row found has it |
| Store.UserById | src/actions/user.action.ts:130-131 | no row iff no user has the id; a row found has it |
| Store.UserByEmailUnique | src/actions/user.action.ts:72-74 | with unique e-mails the lookup finds the one user |
| Store.UserByIdUnique | src/actions/user.action.ts:130-131 | with unique ids the lookup finds the one user |
| Listings.AfterAdd | src/actions/property.action.ts:15-51 | the property table after addProperty: unchanged without a user or on a refused write, else with the new row |
| Listings.AddAnswer | src/actions/property.action.ts:15-51 | the answer of addProperty: "Unauthenticated user", "Error adding property", or the new row |
| Listings.NewListing | src/actions/property.action.ts:32-39 | the new row is the payload, owned by and named after the signed-in user |
| Listings.AddProperty | src/actions/property.action.ts:15-51 | no user: "Unauthenticated user" and no change; a refused write: "Error adding property" and no change; otherwise the row is inserted; users and credit are never touched |
| Listings.AddInsertsOneRow | src/actions/property.action.ts:17-45 | success iff exactly the new id is added; failure iff the table is unchanged; old rows are kept |
| Listings.UserProperties | src/actions/property.action.ts:53-76 | without a user it fails; otherwise exactly the rows whose userId is the user's |
| Listings.UserPropertiesIgnoresId | src/actions/property.action.ts:53 | the id argument changes nothing |
| Listings.AddedListingIsListed | src/actions/property.action.ts:32-66 | a listing just added is among the user's properties |
| Listings.PropertyById | src/actions/property.action.ts:83-106 | an empty id fails with "Property ID is required" before the lookup; an unknown id with "Property not found"; otherwise the row |
| Listings.NoStatusFilter | src/actions/property.action.ts:88-106 | a row of any status is returned |
| Listings.AddedListingFetchable | src/actions/property.action.ts:32-39 | a listing just added is fetched back by its id, unchanged (see also lines 88-106) |
| Accounts.Register | src/actions/user.action.ts:15-56 | register_user's table and answer: schema messages, existing e-mail, refused write, or one appended user |
| Accounts.Login | src/actions/user.action.ts:58-115 | login_user's answer and cookie: schema messages, "User not found", "Invalid password", or the user with its token cookie |
| Accounts.SessionId | src/actions/user.action.ts:117-128 | the id a present token carries when it verifies and names one |
| Accounts.SomeFieldEmpty | src/actions/user.action.ts:25 | the "All fields are required" test: some field is the empty string |
| Accounts.ClaimsOf | src/actions/user.action.ts:87-92 | the token claims: e-mail, id, "name lastName" and role |
| Accounts.ProfileOf | src/actions/user.action.ts:132-143 | the selected columns id, e-mail, credit, last name, name, phone and role, without the password |
| Accounts.NewUser | src/actions/user.action.ts:38-46 | the new user has the given e-mail, names and phone, and the hash as password |
| Accounts.RegisterUser | src/actions/user.action.ts:15-56 | the table and answer are those of `Register`: schema messages, existing e-mail, refused write, or one appended user |
| Accounts.RefusedRegistrationChangesNothing | src/actions/user.action.ts:17-35 | every refusal leaves the table unchanged; a schema failure reports the joined messages; a taken e-mail is refused |
| Accounts.AllFieldsCheckUnreachable | src/actions/user.action.ts:25-27 | any input with an empty field has already failed the schema |
| Accounts.RegistrationAddsOneUser | src/actions/user.action.ts:37-51 | a success appends exactly the new user and keeps ids and e-mails unique |
| Accounts.LoginCookieExactlyOnSuccess | src/actions/user.action.ts:72-110 | a cookie is set iff sign-in succeeds; then it is "token", httpOnly, secure in production, sameSite strict, path "/", 604800 s; the user found has the e-mail and matches the password |
| Accounts.LoginFailureMessages | src/actions/user.action.ts:77-84 | an unknown e-mail gives "User not found", a wrong password "Invalid password" |
| Accounts.RegisterThenLogin | src/actions/user.action.ts:15-115 | after a successful sign-up the same e-mail and password sign in as the new user |
| Accounts.AppendedLookup | src/actions/user.action.ts:72-74 | an appended user with a new e-mail is found by it |
| Accounts.CurrentUserAsWritten | src/actions/user.action.ts:117-152 | as written: null iff no usable token id; otherwise an object, empty when no user has the id |
| Accounts.UnknownIdYieldsEmptyObject | src/actions/user.action.ts:130-148 | a valid token naming no user yields `{}`, not null |
| Accounts.CurrentUser | src/actions/user.action.ts:117-152 | corrected: null iff there is no usable token id or no user has it; otherwise the user's profile |
| Accounts.CurrentUserAgreesOnKnownIds | src/actions/user.action.ts:130-148 | for a known id both versions return that user's selected columns, without the password |
| Accounts.NoSessionGivesNull | src/actions/user.action.ts:119-152 | no token, a failed verification, or claims without an id give null |
| Credits.Refill | src/actions/credit-action.ts:6-38 | refillCredit's table and answer: the target's credit incremented, or "Failed to refill credits" and no change |
| Credits.Credited | src/actions/credit-action.ts:12-21 | the target's credit grows by the amount, every other row is unchanged |
| Credits.RefillCredit | src/actions/credit-action.ts:6-38 | the table and answer are those of `Refill`; properties untouched |
| Credits.RefillSucceedsExactly | src/actions/credit-action.ts:27-36 | success iff the update happened; on failure "Failed to refill credits" and no change |
| Credits.RefillCreditsTarget | src/actions/credit-action.ts:12-21 | the target's credit becomes old + amount for any amount, including zero and negative ones; nothing else in the row changes |
| Credits.RefillLeavesOthers | src/actions/credit-action.ts:13-15 | other users' rows are unchanged |
| Credits.RefillKeepsUnique | src/actions/credit-action.ts:12-21 | ids and e-mails stay unique |
| Credits.RefillTwice | src/actions/credit-action.ts:12-21 | two refills add up to one of the summed amount |
| Webhook.Dispatch | src/app/api/stripe-webhook/route.ts:52-93 | the ledger after the dispatch: only a succeeded payment refills |
| Webhook.Deliver | src/app/api/stripe-webhook/route.ts:30-101 | POST: 500 for an unreadable body, 400 for a rejected signature, else the dispatch and `{ received: true }` |
| Webhook.Post | src/app/api/stripe-webhook/route.ts:30-101 | the ledger and reply are those of `Deliver` |
| Webhook.RejectedSignatureChangesNothing | src/app/api/stripe-webhook/route.ts:37-50 | a rejected signature answers 400 "Webhook Error: …" and changes nothing |
| Webhook.OnlySucceededPaymentsCharge | src/app/api/stripe-webhook/route.ts:52-93 | every other event type is acknowledged and changes nothing |
| Webhook.SucceededPaymentRefills | src/app/api/stripe-webhook/route.ts:72-93 | a succeeded payment refills with the metadata's amount and user and is acknowledged whether or not the refill worked |
| Webhook.RedeliveryCreditsTwice | src/app/api/stripe-webhook/route.ts:72-86 | redelivering the same succeeded event credits its amount twice |
| Webhook.UnreadableBodyIsServerError | src/app/api/stripe-webhook/route.ts:94-100 | an exception outside the signature check answers 500 "Internal server error" |
| Seed.Upsert | prisma/seed.ts:29-33 | one upsert: an existing row is updated keeping its timestamps, a new row is created with new ones |
| Seed.SeedAll | prisma/seed.ts:22-34 | the upserts of the records with a truthy id, in file order |
| Seed.CleanRecord | prisma/seed.ts:16 | a record without its three timestamp fields |
| Seed.SeedId | prisma/seed.ts:24 | the record's id when it is truthy, else nothing |
| Seed.Written | prisma/seed.ts:29-33 | the row an upsert writes: the cleaned record under its id, with the given timestamps |
| Seed.Clean | prisma/seed.ts:14-18 | every record is cleaned, in order |
| Seed.CleanIgnoresTimestamps | prisma/seed.ts:16 | the timestamps do not survive cleaning |
| Seed.SeedTable | prisma/seed.ts:14-43 | the loop leaves the table the upserts produce: of every cleaned record, or of those before a refused upsert, in which case it does not complete (exit status 1) |
| Seed.UpsertRefused | prisma/seed.ts:29-33 | the refused record has an id, so its upsert is attempted |
| Seed.Attempted | prisma/seed.ts:22-43 | the records that take effect: a prefix, shorter than the file iff an upsert is refused, ending just before it |
| Seed.RefusedUpsertStopsSeed | prisma/seed.ts:29-43 | after a refused upsert, an id no earlier record carries keeps its old row, or stays absent |
| Seed.MentionsTail | prisma/seed.ts:22 | an id occurs in a list iff in its head or its tail |
| Seed.SeedAppend | prisma/seed.ts:22-34 | seeding a concatenation is seeding its parts in turn |
| Seed.RecordWithoutIdSkipped | prisma/seed.ts:24-27 | a record without a truthy id changes nothing wherever it stands |
| Seed.SeedUntouched | prisma/seed.ts:29-33 | rows whose id no record carries are unchanged, and none appears |
| Seed.SeedKeys | prisma/seed.ts:29-33 | the table ends with the old ids plus the records' ids |
| Seed.SeedStamps | prisma/seed.ts:29-33 | updated rows keep their timestamps; created rows get new ones |
| Seed.SeedLastWins | prisma/seed.ts:22-34 | a seeded id's row is its last record, cleaned |
| Seed.SeedIdempotent | prisma/seed.ts:29-33 | seeding twice gives the same table as seeding once |
| Seed.LastMention | prisma/seed.ts:22-34 | the last index whose record carries the id |

## Left out

- Rendering, styling, toasts and router navigation.
  - A router push is modelled as a `Navigation` value.
  - The debounced auto-apply of the search panel is left out.
- `parseInt`/`parseFloat` of URL values and NaN.
  - `page`, `limit` and the prices stay strings in `PropertiesList.FetchParams`.
  - The serialisation and percent-encoding of query strings are left out.
- Pagination: a negative `siblingCount` is not modelled; it is a `nat`, default 1.
  - `window.location.pathname` is the parameter `windowPath` of `PageUrl` and `Render`.
  - A page URL is kept as its path and query parameters; joining them into `path?page=n` text is left out.
- Object URLs are plain strings, and their revocation is left out.
- Resetting the file input and the upload of photos to blob storage are left out.
- zod internals:
  - The e-mail regex is a parameter.
  - Only the message (or kind) and path of each issue are kept.
- PropertyValidation.Issues: the TypeError a null or undefined photo raises is the outcome `Threw`; its message and stack are not modelled.
- AuthValidation.RegisterIssues, AuthValidation.LoginIssues: the fields are typed strings, so zod's "Required" and "Expected string" issues for a missing or non-string field of the payload are not modelled.
- `verifyToken`, `signToken`, `hash` and `compare` are parameters or given outcomes.
  - There, `NextResponse` objects become `Decision` and `Reply` values.
- The catch branches of the read actions ("Error fetching properties", "Error fetching property") are left out: lookups in the model do not raise.
  - getUserProperties' "No properties found" branch is unreachable, since `findMany` returns an array. It is not modelled.
  - The `include: { user: true }` join is not modelled.
- Accounts.Login: the catch branch "An error occurred while logging in the user" is not modelled. A failure of `signToken` or of the lookup is not a parameter.
- Accounts.Profile: the `properties`, `CreditTransaction` and `createdAt` selections are not modelled.
- Accounts.UserDefaults: the credit and role of a new user come from column defaults. The schema is not part of this model, so they are a parameter.
- Credits.RefillCredit: does not model the bounds of the integer column. An increment outside them would make the update throw.
  - `revalidatePath` is not modelled.
  - `productId` is used only in revalidation, so it has no effect here.
- Webhook.Metadata: `Number(metadata.coin)` is given already converted, as an integer or nothing.
  - src/app/api/create-payment-intent/route.ts, which fills the metadata, is not part of this model.
- Webhook.Post: the raw-body stream and the logging are left out. Every exception outside the signature check is represented by the flag `bodyFails`.
- Seed.SeedTable:
  - An update keeps the row's timestamps, because the cleaned record carries none. Any automatic `updatedAt` behaviour of the database schema is not modelled.
  - Reading and parsing the JSON file, the logging and the disconnect are left out. A failing read or parse, which also ends with status 1, is not modelled.
  - Which upsert the database refuses is the parameter `failsAt`; its reasons are not modelled.
  - Every row the seed creates gets the same timestamps, the parameter `created`; the database stamps each create separately.
- The zustand `persist` storage, React `cache` and the mount-time `useEffect` are left out. The effect is a call of `CanListContext.CheckUserCredit`.
- Concurrency: cross-request races on credit are not modelled.
- The paginated property query service is referenced but is not part of this model.

## Findings

| source | as written | input that shows it | evidently intended | confidence | as-written member | corrected member |
|---|---|---|---|---|---|---|
| src/components/PropertyCard.tsx:187-199 | two feature badges are shown, and "+k more" appears only above four features, with k = count − 4 | a property with four amenities shows two badges and no notice of the other two; with five it shows "+1 more" for three hidden | "+k more" whenever more than two features exist, with k = count − 2 | not executed | PropertyCard.Badges, PropertyCard.BadgesHideWithoutNotice | PropertyCard.BadgesCounted |
| src/actions/user.action.ts:130-148 | the row found is spread into a new object, so a missing row gives `{}` | a valid token whose id names no user (a deleted account) yields `{}`, which a caller testing the result for null would take for a signed-in user; no caller of it appears in the files modelled | null when no user row backs the token, as for every other failure | not executed | Accounts.CurrentUserAsWritten, Accounts.UnknownIdYieldsEmptyObject | Accounts.CurrentUser |
