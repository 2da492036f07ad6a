# Garden: a verified model of the bar directory's search, shop forms and sign-in

Garden is a directory of bars. A Django REST backend stores shops together with their address, type,
concept and layout tags, and their reviews. A Next.js client searches those shops and shows them,
sorted by distance when the browser gives a location. The client also creates and edits shops through
multipart forms, posts reviews and signs users in through NextAuth and the Djoser JWT endpoints.

This project models that core in Dafny and proves properties of the model.

- **Backend**: `ShopModels` models the catalog tables, the address text and the geocoding `pre_save`
  hook. `ShopSerializers` models nested create and update. `ShopViews` models the search queryset,
  the create view and the review queryset.
- **Client actions**: `ShopActions` models the getShops query, the multipart flattening shared by
  createShop and updateShop, and the postal-code lookup. `ReviewActions` models the review
  requests. `UserActions` models sign-up, resending the activation mail and activation. `NextAuth`
  models fetchAPI, the credential provider and the jwt/session callbacks.
- **Components**: the search box (`SearchForm`), the search modal (`SearchModal`), the area picker
  (`AreaSearch`), the condition chips (`ConditionSearch`) and the condition summary
  (`SearchConditions`). The shop list page (`ShopsPage`), the shop detail widgets
  (`DetailFeature`, `DetailReview`), the opening-hours editor (`OpeningHoursInput`), the shop create
  and update forms, the review modal, the sign-up and login forms, and the header and menu-bar
  visibility controllers.
- **Helpers**: `Wrappers` holds Option and Result. `Text` holds the JavaScript and Python string
  built-ins the core calls. `SearchParams` models URLSearchParams as an ordered list of pairs.
  `ShopTypes` holds the client shop and form records.

React state that setters change becomes a `class`, with one field per `useState` and one method per
handler. Pure helpers become functions. Loops that rebuild a value, such as the FormData flattening
and the in-place sort, become methods with loop invariants. A method is proved equal to a
specification function, and the lemmas state what the source promises about that function.

Everything outside the program is a parameter. This covers each HTTP reply, the geocoder, the
zipcloud postal lookup, the browser's geolocation, `encodeURIComponent` and the distance formula.
`None` stands for a call that threw or a reply that failed.

The model follows the code where it surprises:

- The opening-hours editor drops edits to the time fields (`OpeningHoursInput.TimeEditsAreOverridden`).
- The shops page builds its geocoding query with a template literal, which would render a missing
  address field as the text `undefined` (`ShopsPage.GeocodeQuery`). The backend's address
  serializer always sends all four fields, so for its replies this does not arise.
- The `pre_save` hook treats a latitude of `0` as missing (`ShopModels.ZeroCountsAsMissing`).
- A zod refinement reports a password mismatch even when a field check has already failed.
- A list filter matches a shop when one of its tags is in the list, not all of them
  (`ShopViews.QuerysetMembership`).
- The backend serializes a shop's tags as bare ids, but the edit form reads `t.id` from each of
  them. Every such entry becomes `undefined`, and a form holding one can never be submitted,
  because `item.toString()` throws while the request is built (`ShopUpdateForm.BareIdsNeverSent`).
- The e-mail input of the sign-up form has no `id` (SignUpForm/index.tsx:89-90). So the resend
  handler's `getElementById('email')` finds nothing and throws before it sends anything
  (`SignUpForm.SignUpFormState.HandleResendEmail` with `emailInput` None).
- The jwt callback verifies, and if need be refreshes, the access token only when the token
  holds one (frontend/lib/nextauth.ts:185-192); a token without one is returned unchanged
  (`NextAuth.ValidTokenUnchanged`).

## Model

| member | source | states |
|---|---|---|
| ShopModels.AddCatalogEntry | backend/shops/models.py:7-14 | a type, concept or layout is stored exactly when its name has at most 50 characters and neither the name nor the id is taken; the entry is added at the end |
| ShopModels.AddCatalogEntryPreservesValid | backend/shops/models.py:7-14 | adding an entry keeps catalog names unique, bounded and ids distinct |
| ShopModels.AddressText | backend/shops/models.py:25-26 | the address text is prefecture, city, district, town, street address and building, concatenated in that order with nothing between them |
| ShopModels.AddressTextIgnoresPostalCode | backend/shops/models.py:25-26 | the postal code never enters the text sent to the geocoder |
| ShopModels.Geocoded | backend/shops/models.py:45-61 | an "OK" reply stores the first result's lat/lng; any other status leaves the coordinates; a failed request or an "OK" with no results raises and changes nothing |
| ShopModels.Shop.constructor | backend/shops/models.py:28-43 | a new shop holds the given columns and no tags |
| ShopModels.Shop.Row | backend/shops/models.py:28-43 | the queryable row of a shop carries its id, name, address and tag sets |
| ShopModels.Shop.GeocodeAddress | backend/shops/models.py:45-61 | geocoding changes only latitude and longitude, to the outcome Geocoded gives for the shop's address text |
| ShopModels.PreSaveOutcome | backend/shops/models.py:63-66 | a shop with both coordinates truthy is saved unchanged; otherwise it is geocoded |
| ShopModels.Shop.PreSave | backend/shops/models.py:63-66 | the pre-save hook changes only the coordinates, as PreSaveOutcome states |
| ShopModels.GeocodeSettles | backend/shops/models.py:45-66 | after a successful lookup, geocoding or saving again keeps the coordinates, and a lookup after the pre-save lookup ends where one lookup does |
| ShopModels.ZeroCountsAsMissing | backend/shops/models.py:65 | a coordinate counts as missing exactly when it is null or zero |
| ShopSerializers.UpdateAddress | backend/shops/serializers.py:72-75 | for each of the seven address columns: present in the data, it takes the submitted value; absent, it keeps the stored one; empty data changes nothing |
| ShopSerializers.AddressFromData | backend/shops/serializers.py:58 | each of the seven columns of a created address is the submitted value when present and the CharField default '' otherwise |
| ShopSerializers.ValidationErrors | backend/shops/serializers.py:30-45 | seat_count and capacity are reported exactly when missing or negative; address exactly when missing; every other field error is kept, and no error beyond these is added |
| ShopSerializers.ValidIff | backend/shops/serializers.py:30-45 | a payload is valid exactly when no derived check fails, both counts are present and non-negative, and an address is given |
| ShopSerializers.NegativeCountsRejected | backend/shops/serializers.py:36-37 | a negative seat count or capacity is never valid, and a valid payload has an address and both counts non-negative |
| ShopSerializers.IdSet | backend/shops/serializers.py:61-63 | set() on a many-to-many relation stores exactly the listed ids |
| ShopSerializers.Create | backend/shops/serializers.py:47-64 | the address row is always created first; an anonymous requester then raises with no shop made; a known one gets a shop with the new id, itself as creator, the submitted address and columns with model defaults for missing ones (CreatedColumns), coordinates from the pre-save hook, and exactly the submitted tags (CreatedRelations) unless geocoding raised before set() |
| ShopSerializers.CreateShopRow | backend/shops/serializers.py:59-64 | for a known creator the new shop has CreatedColumns and the pre-save coordinates, and CreatedRelations unless the pre-save lookup raised, in which case it has no tags |
| ShopSerializers.SetRelations | backend/shops/serializers.py:61-63 | the three relations become exactly the given id sets |
| ShopSerializers.Update | backend/shops/serializers.py:66-84 | id and creator are kept; the address changes only for non-empty data; each relation is replaced only when its list was sent; each column sent replaces the old one; the coordinates follow the pre-save hook on the merged values |
| ShopSerializers.UpdateNested | backend/shops/serializers.py:67-82 | the nested part of update: address only for non-empty data, relations only when sent |
| ShopSerializers.AssignColumns | backend/shops/serializers.py:84 | super().update assigns every column sent and keeps every other one |
| ShopSerializers.SaveColumns | backend/shops/serializers.py:84 | assigning the columns and saving leaves the sent columns and the geocoded coordinates |
| ShopSerializers.CreateReview | backend/shops/serializers.py:92-105 | a created review belongs to the requesting user with zero likes and creation time stamps; only shop, title and content come from the payload |
| ShopSerializers.ReadOnlyFieldsIgnored | backend/shops/serializers.py:99 | payloads differing only in user, likes or time stamps create the same review |
| ShopViews.QueryDict | backend/shops/views.py:33-41 | a key is in the request's query dictionary exactly when some parameter carries it |
| ShopViews.QueryDictSingle | backend/shops/views.py:33-41 | a key sent once reads back the value it was sent with |
| ShopViews.ParseIds | backend/shops/views.py:54-64 | an id list is usable exactly when every piece parses, and then the filter set is exactly the parsed pieces |
| ShopViews.ReadArea | backend/shops/views.py:66-71 | city wins over prefecture, which wins over region; with none of them there is no area filter |
| ShopViews.Select | backend/shops/views.py:46-71 | filtering keeps exactly the shops matching every given filter |
| ShopViews.Distinct | backend/shops/views.py:76 | distinct() keeps every shop once and adds none |
| ShopViews.QuerysetMembership | backend/shops/views.py:31-76 | a shop is listed exactly when its name or address matches the keyword case-insensitively, each given list shares an id with the shop's tags, and the area filter that applies matches |
| ShopViews.RelatedListed | backend/shops/views.py:54-64 | the `id__in` filter holds exactly when one listed id is among the shop's tags; an absent list does not filter |
| ShopViews.QuerysetFailsIff | backend/shops/views.py:54-64 | the search fails exactly when a given list holds a piece that is not an integer |
| ShopViews.LatLonIgnored | backend/shops/views.py:40-41 | lat and lon do not change the result |
| ShopViews.QuerysetIsDistinctSubset | backend/shops/views.py:76 | the result has no duplicates and holds only stored shops |
| ShopViews.NoParamsListsAll | backend/shops/views.py:31-32 | with no parameters every shop is listed |
| ShopViews.CreateShop | backend/shops/views.py:85-96 | an invalid payload answers 400 with its field errors and creates nothing; a valid one answers 500 exactly when the requester is anonymous or geocoding the address text raises, and otherwise 201 with a fresh shop whose creator is the requester, whose columns and relations are those Create promises and whose coordinates are one geocoding of the submitted ones (the pre-save lookup, geocode_address and the second save agree) |
| ShopViews.PerformCreate | backend/shops/views.py:85-88 | the save path answers 500 exactly when the requester is anonymous or geocoding the address raises; on 201 the fresh shop has the columns and relations of Create and the coordinates of one lookup on the submitted ones |
| ShopViews.Regeocode | backend/shops/views.py:87-88 | geocode_address followed by the second save raises exactly when the reply makes geocode_address raise, and otherwise leaves the coordinates of one lookup |
| ShopViews.ReviewQueryset | backend/shops/views.py:129-134 | without shop_id all reviews are listed; with it the reviews of that shop, and a non-integer id fails |
| ShopViews.ReviewsOf | backend/shops/views.py:133 | the filter keeps exactly the reviews of the shop |
| ShopActions.GetShops | frontend/src/actions/shops.ts:121-146 | getShops requests /shops/shops/ with ShopQuery's parameters |
| ShopActions.ShopQueryInKeyOrder | frontend/src/actions/shops.ts:131-138 | the query lists keyword, types, concepts, layouts, region, prefecture, city in that order, each at most once |
| ShopActions.ShopQueryValues | frontend/src/actions/shops.ts:132-138 | each key is sent exactly when its argument is truthy or a non-empty list, carrying that argument or its comma-joined list |
| ShopActions.GuardedQueryGet | frontend/src/actions/shops.ts:132-138 | what any key reads after the seven guarded appends |
| ShopActions.GetAppendIf | frontend/src/actions/shops.ts:132-138 | a guarded append changes what a key reads only for its own key, and only when the key was absent |
| ShopActions.QueryDictAgrees | frontend/src/actions/shops.ts:140 | with distinct keys the backend reads each parameter the client wrote |
| ShopActions.BackendSeesClientLists | frontend/src/actions/shops.ts:131-140 | end to end, the backend splits the types parameter back into the client's list and reads the keyword and area names the client passed |
| ShopActions.FormFields | frontend/src/actions/shops.ts:71 | Object.entries visits the twelve form properties in declaration order |
| ShopActions.AddressPairs | frontend/src/actions/shops.ts:73 | the address entries are visited in declaration order |
| ShopActions.ArrayEntries | frontend/src/actions/shops.ts:82-83 | an id list becomes one `key[]` entry per id, in order |
| ShopActions.FlattenShopForm | frontend/src/actions/shops.ts:70-87 | the forEach loop produces exactly ShopFormEntries |
| ShopActions.AppendField | frontend/src/actions/shops.ts:72-86 | one property adds exactly its own entries |
| ShopActions.AppendAddress | frontend/src/actions/shops.ts:72-77 | the address adds its string fields under `address.` keys |
| ShopActions.AppendItems | frontend/src/actions/shops.ts:82-83 | a list adds one item entry per id |
| ShopActions.CreateShop | frontend/src/actions/shops.ts:68-95 | createShop POSTs the flattened form to /shops/shops/ |
| ShopActions.UpdateShop | frontend/src/actions/shops.ts:174-199 | updateShop PUTs the same flattened form to /shops/shops/{id}/ |
| ShopActions.PartsForAppend | frontend/src/actions/shops.ts:70-87 | FormData keeps appended parts in order, so the parts under a key split over concatenation |
| ShopActions.OnlyField | frontend/src/actions/shops.ts:71-87 | a key that only one property can write carries exactly that property's parts |
| ShopActions.OpeningHoursAlwaysSent | frontend/src/actions/shops.ts:80-81 | opening_hours is always sent once, as JSON, even when null |
| ShopActions.IconImageOnlyAsFile | frontend/src/actions/shops.ts:78-79 | icon_image is sent once when it is a file and never otherwise |
| ShopActions.ListSent | frontend/src/actions/shops.ts:82-83 | types, concepts and layouts go out as one `[]` item per id in order, never under the plain key |
| ShopActions.ScalarParts | frontend/src/actions/shops.ts:84-85 | a scalar is sent exactly when it is neither null nor undefined |
| ShopActions.ScalarSent | frontend/src/actions/shops.ts:84-85 | each scalar property goes out under its own key, once, as text, unless null or undefined |
| ShopActions.AddressSentFromPairs | frontend/src/actions/shops.ts:72-77 | address parts come only from the address object |
| ShopActions.AddressFieldSentIffString | frontend/src/actions/shops.ts:73-76 | each address field is sent once under `address.<field>` exactly when it is a string |
| ShopActions.AddressPartsFor | frontend/src/actions/shops.ts:73-76 | with distinct field names each address key carries its own field's text |
| ShopActions.AddressFromPostalCode | frontend/src/actions/shops.ts:148-172 | the lookup succeeds exactly when zipcloud answered with a non-empty result list; prefecture, city and town come from the first result, the other fields are blank |
| ShopCreateForm.ApplyChange | frontend/src/components/ShopCreateForm/index.tsx:65-76 | an `address.` name changes the named address field and nothing else; an unknown name changes nothing; another name sets that top field to the text |
| ShopCreateForm.AddressChangeTouchesOnlyIt | frontend/src/components/ShopCreateForm/index.tsx:65-76 | editing `address.<k>` sets field k and leaves every other address field and the rest of the form alone |
| ShopCreateForm.TopChangeTouchesOnlyIt | frontend/src/components/ShopCreateForm/index.tsx:65-76 | editing a top field leaves the address, opening hours and tags alone |
| ShopCreateForm.TopFieldNamed | frontend/src/components/ShopCreateForm/index.tsx:65-76 | an input name maps to the top field of that name, if any |
| ShopCreateForm.AddressKeyNamed | frontend/src/components/ShopCreateForm/index.tsx:67-69 | the second piece of an `address.` name maps to the address field of that name, if any |
| ShopCreateForm.SplitAddressName | frontend/src/components/ShopCreateForm/index.tsx:68 | splitting `address.<k>` on dots gives `address` and k |
| ShopCreateForm.MergePostal | frontend/src/components/ShopCreateForm/index.tsx:86-90 | a lookup result overwrites the six address fields and keeps the postal code |
| ShopCreateForm.PostalChange | frontend/src/components/ShopCreateForm/index.tsx:78-95 | the code is always stored; only a seven-character code triggers a lookup, and only a successful lookup changes the address |
| ShopCreateForm.FailedLookupKeepsAddress | frontend/src/components/ShopCreateForm/index.tsx:84-94 | a failed or empty lookup stores the code and changes nothing else |
| ShopCreateForm.LookupFillsFromFirstResult | frontend/src/components/ShopCreateForm/index.tsx:78-95 | a successful lookup fills prefecture, city and town from the first result and blanks district, street address and building |
| ShopCreateForm.ShopCreateFormState.constructor | frontend/src/components/ShopCreateForm/index.tsx:25-45 | the form starts from the initial values with no icon |
| ShopCreateForm.ShopCreateFormState.HandleChange | frontend/src/components/ShopCreateForm/index.tsx:65-76 | a text input applies ApplyChange to the form |
| ShopCreateForm.ShopCreateFormState.HandlePostalCodeChange | frontend/src/components/ShopCreateForm/index.tsx:78-95 | the postal input applies PostalChange to the address |
| ShopCreateForm.ShopCreateFormState.HandleFileChange | frontend/src/components/ShopCreateForm/index.tsx:97-101 | the first chosen file becomes the icon; an empty choice keeps the old one |
| ShopCreateForm.ShopCreateFormState.EditHours | frontend/src/components/ShopCreateForm/index.tsx:356 | the hours editor's output replaces the form's opening hours |
| ShopCreateForm.ShopCreateFormState.HandleSubmit | frontend/src/components/ShopCreateForm/index.tsx:103-125 | without a session nothing is sent; with one, the form plus icon is POSTed, and only a created shop navigates to /shops |
| ShopUpdateForm.FormDataFromShop | frontend/src/components/ShopUpdateForm/index.tsx:68-87 | a null tag entry makes the load throw (None); otherwise a loaded shop fills the form: name, address, coordinates and counts copied, phone as text, every stored day marked open, each tag list as what `.id` gives for its entries, in order, and no icon file |
| ShopUpdateForm.Ids | frontend/src/components/ShopUpdateForm/index.tsx:84-86 | the `.id` map throws exactly when a tag entry is null; otherwise it keeps the length and gives each position its entry's `.id` |
| ShopUpdateForm.RefId | frontend/src/components/ShopUpdateForm/index.tsx:84-86 | `.id` of a tag object is its id, of a bare number undefined, and on null it throws |
| ShopUpdateForm.Defined | frontend/src/actions/shops.ts:188-189 | a tag list converts to numbers exactly when no entry is undefined, keeping each position's number |
| ShopUpdateForm.SendableForm | frontend/src/actions/shops.ts:174-196 | the form can be sent exactly when none of its three tag lists holds an undefined entry, and then every other field is sent as it is |
| ShopUpdateForm.OpenAll | frontend/src/components/ShopUpdateForm/index.tsx:76-83 | every stored day is marked open and keeps its times |
| ShopUpdateForm.PhoneText | frontend/src/components/ShopUpdateForm/index.tsx:71 | a missing or empty phone number shows as empty text |
| ShopUpdateForm.LoadedDaysShowOpen | frontend/src/components/ShopUpdateForm/index.tsx:76-83 | every day stored with the shop shows checked with its stored times |
| ShopUpdateForm.DisplayedHours | frontend/src/components/ShopUpdateForm/index.tsx:416-424 | null hours display as all seven days closed; otherwise the stored hours show |
| ShopUpdateForm.NullHoursShowClosed | frontend/src/components/ShopUpdateForm/index.tsx:416-424 | with null hours no day shows checked |
| ShopUpdateForm.ReloadedIdsInOrder | frontend/src/components/ShopUpdateForm/index.tsx:84-86 | a shop whose tags are all objects loads and is sendable, and each list sent holds those objects' ids at the same positions | |
| ShopUpdateForm.BareIdsNeverSent | frontend/src/components/ShopUpdateForm/index.tsx:84-86 | a shop with a bare-id tag and no null one loads, but into a form that is not sendable, so every submit sends nothing |
| ShopUpdateForm.ShopUpdateFormState.constructor | frontend/src/components/ShopUpdateForm/index.tsx:35-56 | the form starts empty with no icon preview |
| ShopUpdateForm.ShopUpdateFormState.Load | frontend/src/components/ShopUpdateForm/index.tsx:58-97 | a failed fetch or a null tag entry changes nothing; otherwise the loaded form replaces the form, and a truthy icon URL replaces the preview |
| ShopUpdateForm.ShopUpdateFormState.HandleChange | frontend/src/components/ShopUpdateForm/index.tsx:102-113 | edits follow the create form's ApplyChange |
| ShopUpdateForm.ShopUpdateFormState.HandlePostalCodeChange | frontend/src/components/ShopUpdateForm/index.tsx:115-132 | the postal input follows the create form's PostalChange |
| ShopUpdateForm.ShopUpdateFormState.HandleFileChange | frontend/src/components/ShopUpdateForm/index.tsx:134-143 | the first chosen file becomes the icon and its object URL the preview; an empty choice changes nothing |
| ShopUpdateForm.ShopUpdateFormState.EditHours | frontend/src/components/ShopUpdateForm/index.tsx:425 | the editor works on the displayed hours and its output replaces the form's hours |
| ShopUpdateForm.ShopUpdateFormState.HandleSubmit | frontend/src/components/ShopUpdateForm/index.tsx:145-166 | without a session, or with an undefined tag entry (updateShop throws while building the form data, and the catch swallows it), nothing is sent and nothing navigates; otherwise the sendable form is PUT to the shop's URL, and only an update navigates to the shop page |
| OpeningHoursInput.DaysOfWeekDistinct | frontend/src/components/OpeningHoursInput/index.tsx:5 | the editor lists seven distinct days |
| OpeningHoursInput.HandleChange | frontend/src/components/OpeningHoursInput/index.tsx:17-27 | an edit writes the edited day and keeps every other day |
| OpeningHoursInput.OtherDaysUnchanged | frontend/src/components/OpeningHoursInput/index.tsx:18-19 | days other than the edited one are untouched |
| OpeningHoursInput.CheckingFillsDefaults | frontend/src/components/OpeningHoursInput/index.tsx:23-24 | checking a day opens it and fills empty times with 10:00 and 22:00, keeping times already set |
| OpeningHoursInput.UncheckingKeepsTimes | frontend/src/components/OpeningHoursInput/index.tsx:20-24 | unchecking a day closes it and keeps its times |
| OpeningHoursInput.TimeEditsAreOverridden | frontend/src/components/OpeningHoursInput/index.tsx:22-24 | as written, a time edit is overwritten by the old time, so the day is unchanged |
| OpeningHoursInput.RenderDay | frontend/src/components/OpeningHoursInput/index.tsx:33-68 | a day shows checked exactly when it is open, and shows time inputs exactly when checked |
| OpeningHoursInput.CheckedDayShowsTimes | frontend/src/components/OpeningHoursInput/index.tsx:23-24 | after checking a day, both time inputs show a non-empty time |
| SearchForm.SearchTarget | frontend/src/components/SearchForm/index.tsx:37-41 | a whitespace-only keyword navigates nowhere; any other goes to /shops?keyword= with the encoded trimmed keyword |
| SearchForm.SearchTargetIgnoresPadding | frontend/src/components/SearchForm/index.tsx:38-39 | surrounding whitespace does not change the target |
| SearchForm.ButtonOf | frontend/src/components/SearchForm/index.tsx:66 | opening a modal never highlights the keyword button |
| SearchForm.InitialTab | frontend/src/components/SearchForm/index.tsx:67 | the modal opens on the area tab exactly for the area modal, else on the condition tab |
| SearchForm.SearchFormState.constructor | frontend/src/components/SearchForm/index.tsx:25-30 | the box starts on the keyword button with the modal closed |
| SearchForm.SearchFormState.OpenModal | frontend/src/components/SearchForm/index.tsx:63-68 | opening records the type, opens the modal, highlights its button and picks its tab |
| SearchForm.SearchFormState.SelectKeyword | frontend/src/components/SearchForm/index.tsx:89 | the keyword button only highlights itself |
| SearchForm.SearchFormState.CloseModal | frontend/src/components/SearchForm/index.tsx:139 | closing only closes the modal |
| SearchForm.SearchFormState.HandleSearch | frontend/src/components/SearchForm/index.tsx:37-41 | the route pushed is SearchTarget of the keyword |
| SearchModal.TabIndex | frontend/src/components/SearchModal/index.tsx:51-52 | indexOf gives a tab's position, and -1 exactly for an unknown key |
| SearchModal.SlideOrder | frontend/src/components/SearchModal/index.tsx:51-53 | the tabs order condition, reputation, area, and an unknown key sorts first |
| SearchModal.SearchModalState.constructor | frontend/src/components/SearchModal/index.tsx:30-40 | the modal starts on the condition tab with nothing selected |
| SearchModal.SearchModalState.HandleTabChange | frontend/src/components/SearchModal/index.tsx:50-55 | switching tabs slides left exactly when moving to a later tab, and keeps the selection |
| SearchModal.SearchModalState.HandleSearch | frontend/src/components/SearchModal/index.tsx:57-75 | the pushed query is ModalQuery of the current selection |
| SearchModal.SearchModalState.HandleClear | frontend/src/components/SearchModal/index.tsx:77-85 | clearing empties the keyword, the three lists and the area, and keeps the tab |
| SearchModal.ModalQueryUniqueKeys | frontend/src/components/SearchModal/index.tsx:57-72 | the modal's query lists each key once, in getShops' order |
| SearchModal.ModalAreaKeys | frontend/src/components/SearchModal/index.tsx:63-72 | a city sends region, prefecture and city; a prefecture sends region and prefecture; a region alone sends region; a consistent selection sends its own names |
| SearchModal.ModalFilterKeys | frontend/src/components/SearchModal/index.tsx:59-62 | the keyword is sent when non-empty and each list comma-joined when non-empty |
| AreaSearch.AreaSelection.constructor | frontend/src/components/SearchModal/index.tsx:38-40 | nothing is selected at first, which is consistent |
| AreaSearch.AreaSelection.SelectRegion | frontend/src/components/AreaSearch/index.tsx:23-27 | picking a region clears prefecture and city |
| AreaSearch.AreaSelection.SelectPrefecture | frontend/src/components/AreaSearch/index.tsx:29-32 | picking a prefecture clears the city, and the selection stays consistent exactly when the prefecture was on offer |
| AreaSearch.AreaSelection.SelectCity | frontend/src/components/AreaSearch/index.tsx:34-36 | picking an offered city keeps the selection consistent |
| AreaSearch.AreaSelection.RegionEffect | frontend/src/components/AreaSearch/index.tsx:38-45 | a cleared region clears prefecture and city |
| AreaSearch.AreaSelection.PrefectureEffect | frontend/src/components/AreaSearch/index.tsx:47-53 | a cleared prefecture clears the city |
| AreaSearch.AreaSelection.RunEffects | frontend/src/components/AreaSearch/index.tsx:38-53 | the effects restore consistency and change nothing in a consistent selection |
| AreaSearch.Session | frontend/src/components/AreaSearch/index.tsx:23-75 | any sequence of picks offered by the rendered radios ends in a consistent selection |
| ConditionSearch.RemoveAll | frontend/src/components/ConditionSearch/index.tsx:50 | filter drops every copy of the value and keeps only existing items |
| ConditionSearch.RemoveAllKeepsOthers | frontend/src/components/ConditionSearch/index.tsx:50 | filter keeps the other items in order with their multiplicities |
| ConditionSearch.Toggle | frontend/src/components/ConditionSearch/index.tsx:44-54 | a selected value is removed everywhere; an unselected one is appended |
| ConditionSearch.ToggleFlipsOnlyValue | frontend/src/components/ConditionSearch/index.tsx:44-54 | toggling flips the value's membership and no other's |
| ConditionSearch.ToggleTwiceRestores | frontend/src/components/ConditionSearch/index.tsx:44-54 | toggling an unselected value twice gives back the selection |
| ConditionSearch.ClickFlipsChip | frontend/src/components/ConditionSearch/index.tsx:70-71 | clicking a chip flips whether it shows selected |
| SearchConditions.AreaLabel | frontend/src/components/SearchConditions/index.tsx:50-56 | the label is region > prefecture > city for a city, region > prefecture for a prefecture, the region alone, or none |
| SearchConditions.FindById | frontend/src/components/SearchConditions/index.tsx:32-48 | find returns the first entity whose printed id equals the text, and nothing exactly when none does |
| SearchConditions.NameFor | frontend/src/components/SearchConditions/index.tsx:32-48 | an unknown id shows as empty text, and any non-empty name belongs to an entity with that id |
| SearchConditions.IdsToNames | frontend/src/components/SearchConditions/index.tsx:32-48 | each comma-separated id is replaced by its name, position by position |
| SearchConditions.FirstMatchWins | frontend/src/components/SearchConditions/index.tsx:32-48 | an entity whose id occurs first at its position shows its own name |
| SearchConditions.SearchConditionsState.constructor | frontend/src/components/SearchConditions/index.tsx:11-15 | the summary starts empty |
| SearchConditions.SearchConditionsState.FetchConditionNames | frontend/src/components/SearchConditions/index.tsx:19-61 | without search parameters nothing changes; otherwise each present keyword, list and area replaces its value and absent ones keep theirs |
| SearchConditions.SearchConditionsState.HandleSearch | frontend/src/components/SearchConditions/index.tsx:63-67 | the search sends only the keyword, and only when non-empty |
| ShopsPage.GeocodeQuery | frontend/src/app/shops/page.tsx:77 | the geocoding query is prefecture, city, town and street address interpolated in order, with undefined rendered as text |
| ShopsPage.FillCoordinates | frontend/src/app/shops/page.tsx:75-84 | a shop with both coordinates truthy is kept; otherwise a geocoded position fills them and a failed one keeps the shop |
| ShopsPage.FillAll | frontend/src/app/shops/page.tsx:75-84 | every shop is filled in place, in order |
| ShopsPage.AttachDistance | frontend/src/app/shops/page.tsx:86-97 | a distance is attached exactly when both coordinates are truthy |
| ShopsPage.AttachDistances | frontend/src/app/shops/page.tsx:86-97 | each shop gets its own distance, in order |
| ShopsPage.Unplaced | frontend/src/app/shops/page.tsx:101 | without a location the shops are listed as fetched, with no distances |
| ShopsPage.Insert | frontend/src/app/shops/page.tsx:98 | inserting adds exactly the one element |
| ShopsPage.StableSortSorted | frontend/src/app/shops/page.tsx:98 | the sorted list is ordered by distance, with shops without a distance last |
| ShopsPage.StableSortPermutes | frontend/src/app/shops/page.tsx:98 | sorting is a permutation |
| ShopsPage.StableSortStable | frontend/src/app/shops/page.tsx:98 | shops with equal distances keep their relative order |
| ShopsPage.PlacedFirst | frontend/src/app/shops/page.tsx:98 | every shop with a distance comes before every shop without one |
| ShopsPage.SortInPlace | frontend/src/app/shops/page.tsx:98 | the in-place sort leaves the array equal to StableSort of its old contents |
| ShopsPage.ReadList | frontend/src/app/shops/page.tsx:56-63 | a list parameter is its comma-split value when present, else empty |
| ShopsPage.ShopsContent.constructor | frontend/src/app/shops/page.tsx:21-25 | the page starts loading with no shops, error or location |
| ShopsPage.ShopsContent.FetchShopsAndLocation | frontend/src/app/shops/page.tsx:54-110 | the URL's filters go to getShops; a failed fetch sets the error; otherwise the shops are stored, sorted by distance when a location is known, or as fetched; loading always ends |
| ShopsPage.NoLocationKeepsBackendOrder | frontend/src/app/shops/page.tsx:101 | without a location the order is the backend's |
| ShopsPage.LocationListSpec | frontend/src/app/shops/page.tsx:86-99 | with a location the list is a sorted, stable permutation of the placed shops |
| DetailFeature.FindFirst | frontend/src/components/DetailFeature/index.tsx:12 | find returns the first entity with the id, and nothing exactly when none has it |
| DetailFeature.MapToFetchedEntities | frontend/src/components/DetailFeature/index.tsx:9-21 | the result is no longer than the ids and holds only fetched entities |
| DetailFeature.MapToFetchedEntitiesSpec | frontend/src/components/DetailFeature/index.tsx:9-21 | each found id is replaced by the first entity with that id, in order; when every id is found, none is dropped |
| DetailFeature.ResolveRefs | frontend/src/components/DetailFeature/index.tsx:50-59 | the result has one entity per resolving position of the references, in their order: an object entry as it is, an id entry as the fetched entity found for it |
| DetailFeature.KeptIncreasing | frontend/src/components/DetailFeature/index.tsx:50-59 | the resolving positions are listed in increasing order, so the result keeps the references' order |
| DetailFeature.KeptComplete | frontend/src/components/DetailFeature/index.tsx:50-59 | every object entry and every id found among the fetched entities is kept; only null entries and missed ids are dropped |
| DetailFeature.ResolveRefsSound | frontend/src/components/DetailFeature/index.tsx:50-59 | every resolved entity is an object entry of the references or a fetched entity whose id is an entry |
| DetailFeature.ObjectRefsKept | frontend/src/components/DetailFeature/index.tsx:50-59 | references that are all objects come back as those objects, in order |
| DetailFeature.NameOr | frontend/src/components/DetailFeature/index.tsx:101-103 | the fallback shows exactly when no entity has the id or its name is empty |
| DetailFeature.UnknownIdsFallBack | frontend/src/components/DetailFeature/index.tsx:101-103 | unknown ids show as Unknown Type, Unknown Concept and Unknown Layout |
| DetailReview.TruncateContent | frontend/src/components/DetailReview/index.tsx:25-46 | content of at most 100 characters shows in full; longer content shows its first 100 characters and "..." |
| DetailReview.TruncateKeepsPrefix | frontend/src/components/DetailReview/index.tsx:43-46 | the shown text starts with the content, up to the limit |
| DetailReview.TruncateIdempotent | frontend/src/components/DetailReview/index.tsx:43-46 | truncating does not change shorter text, and truncating twice is the same as once |
| ReviewActions.ImageKey | frontend/src/actions/reviews.ts:24-26 | each image goes under an `images[i]` key |
| ReviewActions.ImageEntries | frontend/src/actions/reviews.ts:24-26 | image i is sent under key i, in order |
| ReviewActions.ImageKeysDistinct | frontend/src/actions/reviews.ts:24-26 | different images get different keys |
| ReviewActions.ReviewEntries | frontend/src/actions/reviews.ts:18-27 | a review sends shop, title and content, then its images |
| ReviewActions.CreateReview | frontend/src/actions/reviews.ts:12-41 | without a session the call fails before sending; with one it POSTs the entries to /api/shops/reviews/ with the Bearer token |
| ReviewActions.GetReviews | frontend/src/actions/reviews.ts:43-60 | without a session the call fails; with one it GETs the shop's reviews with the Bearer token |
| ReviewModal.CompleteIff | frontend/src/components/ReviewModal/index.tsx:27 | a review is complete exactly when title and content are not blank |
| ReviewModal.ReviewModalState.constructor | frontend/src/components/ReviewModal/index.tsx:13-18 | the modal starts empty and not submitting |
| ReviewModal.ReviewModalState.HandleImageUpload | frontend/src/components/ReviewModal/index.tsx:20-24 | chosen files replace the images; no file list changes nothing |
| ReviewModal.ReviewModalState.HandleSubmit | frontend/src/components/ReviewModal/index.tsx:26-44 | an incomplete review shows the required message and sends nothing; otherwise the review is posted when signed in, a success closes the modal, a failure shows the error, and submitting always ends |
| UserActions.SignUpIssues | frontend/src/actions/user.ts:9-16 | the schema reports a bad e-mail, a password under eight characters and a mismatch exactly when each holds, at most once each, in e-mail, password, repeat order |
| UserActions.SchemaAcceptsIff | frontend/src/actions/user.ts:9-16 | the schema accepts exactly a valid e-mail with a password of eight or more characters typed twice alike |
| UserActions.SignupBody | frontend/src/actions/user.ts:28-32 | the body sends email, password and re_password |
| UserActions.TemporarySignup | frontend/src/actions/user.ts:22-73 | invalid input fails with its first message before any request; otherwise a failed request or unreadable reply fails, an error reply fails with its text, and an ok reply succeeds |
| UserActions.ValidationBeforeRequest | frontend/src/actions/user.ts:24-25 | invalid input fails the same way whatever the API URL and backend |
| UserActions.MismatchReported | frontend/src/actions/user.ts:13-16 | a mismatch alone fails with the mismatch message |
| UserActions.DetailOr | frontend/src/actions/user.ts:91 | a present detail is shown, else the fallback message |
| UserActions.ResendActivationEmail | frontend/src/actions/user.ts:76-105 | an ok reply succeeds; an error reply fails with its detail or the fallback; a crash fails |
| UserActions.ResendSucceedsIffOk | frontend/src/actions/user.ts:76-105 | resending succeeds exactly when the reply is ok |
| UserActions.CompleteSignup | frontend/src/actions/user.ts:108-169 | 204 or an ok status succeeds; a blank body succeeds; an unreadable one fails; an error detail mentioning an already activated account or a stale token succeeds as already activated; other errors fail with their detail |
| UserActions.BlankBodySucceeds | frontend/src/actions/user.ts:129-137 | a whitespace-only reply counts as success |
| UserActions.AlreadyActivatedOnlyFromDetail | frontend/src/actions/user.ts:144-152 | "already activated" comes only from a non-ok reply whose detail says so |
| UserActions.AlreadyActiveIgnoresCase | frontend/src/actions/user.ts:147-149 | the already-active test ignores letter case |
| SignUpForm.FieldError | frontend/src/components/SignUpForm/index.tsx:101 | a field shows the first issue reported for it, and nothing when none is |
| SignUpForm.FieldErrorAppend | frontend/src/components/SignUpForm/index.tsx:101 | earlier issues take precedence over later ones |
| SignUpForm.FieldErrorsShown | frontend/src/components/SignUpForm/index.tsx:101-129 | each input shows its own message exactly when its own check fails |
| SignUpForm.FailureToast | frontend/src/components/SignUpForm/index.tsx:57-66 | a toast appears exactly when sign-up did not succeed, with the reported error when there is one |
| SignUpForm.ResendToast | frontend/src/components/SignUpForm/index.tsx:73-81 | resending shows a success toast exactly on success, and always a message |
| SignUpForm.SignUpFormState.constructor | frontend/src/components/SignUpForm/index.tsx:29-43 | the form starts idle, unagreed and without messages |
| SignUpForm.SignUpFormState.SetAgreed | frontend/src/components/SignUpForm/index.tsx:132-136 | the checkbox sets only the agreement |
| SignUpForm.SignUpFormState.HandleSubmit | frontend/src/components/SignUpForm/index.tsx:46-70 | invalid input shows its field errors and sends nothing; without agreement a toast asks for it; otherwise the request is made, success shows the mail screen, failure a toast, and loading ends |
| SignUpForm.SignUpFormState.HandleResendEmail | frontend/src/components/SignUpForm/index.tsx:73-81 | with no element of id `email` the handler throws and nothing changes; otherwise resending adds exactly its toast and no other state changes |
| LoginForm.Submission | frontend/src/components/LoginForm/index.tsx:25-58 | without an API URL the form shows its error; a rejected signIn shows the crash message; a returned one navigates home and shows the failure message when it carries an error |
| LoginForm.NavigatesIffReturned | frontend/src/components/LoginForm/index.tsx:38-50 | the form navigates exactly when signIn returned |
| LoginForm.NoErrorIffSignedIn | frontend/src/components/LoginForm/index.tsx:38-50 | the error is empty exactly when signIn returned without an error |
| LoginForm.LoginFormState.constructor | frontend/src/components/LoginForm/index.tsx:9-13 | the form starts empty and idle |
| LoginForm.LoginFormState.LoadApiUrl | frontend/src/components/LoginForm/index.tsx:15-23 | a configured API URL is stored; an unset one changes nothing |
| LoginForm.LoginFormState.SetCredentials | frontend/src/components/LoginForm/index.tsx:77-91 | typing sets only e-mail and password |
| LoginForm.LoginFormState.HandleSubmit | frontend/src/components/LoginForm/index.tsx:25-58 | signIn gets the typed credentials when the API URL is set; the error and navigation follow Submission; loading always ends |
| NextAuth.Member | frontend/lib/nextauth.ts:125-135 | reading a JSON member gives its value exactly when it is present |
| NextAuth.ApiErrorMessage | frontend/lib/nextauth.ts:49-58 | a missing URL and an HTTP status have their own messages; network and parse failures carry none |
| NextAuth.FetchApi | frontend/lib/nextauth.ts:45-62 | a missing API URL fails before any request; a network error, a non-ok status and an unparsable body each fail; an ok reply returns its JSON |
| NextAuth.NoApiUrlBeforeRequest | frontend/lib/nextauth.ts:49-51 | without an API URL the backend is never consulted |
| NextAuth.NotOkFails | frontend/lib/nextauth.ts:55-59 | a non-ok reply always fails with its status |
| NextAuth.VerifyAccessToken | frontend/lib/nextauth.ts:65-78 | a token is valid exactly when the verify request succeeds |
| NextAuth.RefreshBody | frontend/lib/nextauth.ts:86 | the refresh body holds the refresh token, or nothing when it is undefined |
| NextAuth.RefreshAccessToken | frontend/lib/nextauth.ts:81-100 | a successful refresh replaces only the access token; a failed one marks the refresh error; the refresh token and user stay |
| NextAuth.JwtResult | frontend/lib/nextauth.ts:170-195 | a sign-in stores the user's tokens and profile; otherwise an invalid access token is refreshed and any other token returned as it is |
| NextAuth.SignedIn | frontend/lib/nextauth.ts:173-183 | sign-in copies the access and refresh tokens and the five profile fields |
| NextAuth.SignInMakesNoRequest | frontend/lib/nextauth.ts:173-183 | a sign-in does not depend on the API URL or backend |
| NextAuth.ValidTokenUnchanged | frontend/lib/nextauth.ts:185-194 | a valid or absent access token leaves the token unchanged |
| NextAuth.RefreshKeepsIdentity | frontend/lib/nextauth.ts:188-191 | refreshing never changes the refresh token or user, and sets either the access token or the refresh error |
| NextAuth.Token.constructor | frontend/lib/nextauth.ts:170 | a token object holds the given token |
| NextAuth.Token.Value | frontend/lib/nextauth.ts:170 | the token object's value is its four fields |
| NextAuth.Token.JwtCallback | frontend/lib/nextauth.ts:170-195 | the callback returns JwtResult; a sign-in writes into the token, and otherwise the token object stays as it was |
| NextAuth.Bearer | frontend/lib/nextauth.ts:125 | the authorization header is "Bearer " followed by the access token, or by the text "undefined" when there is none |
| NextAuth.AuthorizeUser | frontend/lib/nextauth.ts:103-137 | a user results exactly when the create and the me requests both succeed, carrying both tokens and the profile fields |
| NextAuth.Authorize | frontend/lib/nextauth.ts:149-161 | missing credentials throw the credentials message; otherwise the result is AuthorizeUser's, null on failure |
| NextAuth.AuthorizeFailureIsNull | frontend/lib/nextauth.ts:154-160 | failed authentication resolves to null rather than throwing |
| NextAuth.Session.constructor | frontend/lib/nextauth.ts:197 | a session starts without token or user |
| NextAuth.Session.SessionCallback | frontend/lib/nextauth.ts:197-204 | the session receives the token's access token and user |
| NextAuth.GetAuthSession | frontend/lib/nextauth.ts:212-220 | no session or no access token gives null; otherwise the session's user |
| NextAuth.SessionFromToken | frontend/lib/nextauth.ts:197-220 | the server session yields the token's user exactly when it holds an access token |
| HeaderController.ShowHeader | frontend/src/layout/HeaderController/index.tsx:13-20 | without a path the header shows |
| HeaderController.HiddenIff | frontend/src/layout/HeaderController/index.tsx:13-20 | the header hides exactly on /, /login, /signup, /map and /shops/ followed by one or more digits |
| HeaderController.DigitsToEndIff | frontend/src/layout/HeaderController/index.tsx:16 | the `\d+$` tail is a non-empty run of digits |
| HeaderController.ShopDetailHidden | frontend/src/layout/HeaderController/index.tsx:16-18 | every shop detail page hides the header |
| HeaderController.OtherShopPathsShown | frontend/src/layout/HeaderController/index.tsx:16-18 | the list, a bare /shops/ and a shop's update page keep the header |
| MenuBarController.IsAuthPage | frontend/src/layout/MenuBarController/index.tsx:9 | the auth pages are exactly /login and /signup |
| MenuBarController.ShowMenuBar | frontend/src/layout/MenuBarController/index.tsx:11-15 | the menu bar shows exactly off the auth pages |
| MenuBarController.ExactMatchOnly | frontend/src/layout/MenuBarController/index.tsx:9-15 | only the exact auth paths hide it |
| SearchParams.GetSpec | frontend/src/components/SearchConditions/index.tsx:22-28 | get gives nothing exactly when no pair has the key, and otherwise the value of the first pair with the key |
| SearchParams.AppendIf | frontend/src/actions/shops.ts:132-138 | a guarded append adds the pair exactly when the guard holds |
| Text.Trim | frontend/src/components/SearchForm/index.tsx:38 | trim returns a slice of the input whose cut-off prefix and suffix are all whitespace and which itself starts and ends with no whitespace |
| Text.TrimEmptyIff | frontend/src/components/SearchForm/index.tsx:38 | trim is empty exactly on whitespace-only text |
| Text.TrimIdempotent | frontend/src/components/SearchForm/index.tsx:39 | trimming twice is trimming once |
| Text.SplitJoin | backend/shops/views.py:55 | splitting a comma-join of comma-free pieces gives the pieces back |
| Text.JoinSplit | frontend/src/app/shops/page.tsx:56-63 | joining the pieces of a split gives the text back |
| Text.IntToStringInjective | frontend/src/components/ConditionSearch/index.tsx:70-71 | distinct ids print differently, so text comparison of ids is exact |
| Text.IntToStringHasNoComma | frontend/src/actions/shops.ts:83 | printed ids contain no comma |
| Text.Interpolated | frontend/src/actions/reviews.ts:33 | an undefined value renders as "undefined" in a template literal |
| ShopTypes.WithAddressField | frontend/src/components/ShopCreateForm/index.tsx:67-71 | writing an address field sets it and keeps the others |

## Left out

- Network, timers, console logging, alerts and React rendering are left out. Each HTTP reply, geocoder answer, postal lookup answer, geolocation fix and signIn outcome is a parameter.
- The distance (haversine) formula is a parameter of the shops page, and the region/prefecture/city data is the predicate of which picks are offered.
- Object URLs and encodeURIComponent are parameters.
- Django's own field validation and Python's int() are oracles: `otherErrors` and `IdParser`. Decimal coordinates are `real`.
- JSON.stringify and Number.prototype.toString of floats are kept abstract. A multipart part carries the hours object or the number itself.
- Text.Lower folds ASCII letters only, the folding SQLite's LIKE applies. Lengths count code points, not UTF-16 units.
- The geocoding.ts helper returns null when the request fails or finds no result; it appears only as the Geocoder parameter of the shops page, whose None is that null.
- Intermediate render states between setters are not modelled: a handler's setters are applied together.
- Input names that match no form property leave the form unchanged. The CustomSelect setters used by the forms are not modelled, so the model does not capture picking tags again to replace the undefined entries of a reloaded shop.
- invalidateSession, the RulesModal, the completion modal's onClose and the SearchModal's mock count effect with its timeouts are not modelled.
- The shops page scroll listener, ShopCard, uploadShopPhoto, the axios interceptor and the logging retrieve/list views are not modelled.
- ShopPhoto and ReviewPhoto storage are not modelled.
- JSON members that are not strings are not modelled: NextAuth.Member reads string members only.
- A failed catalog fetch in SearchConditions is not modelled: the fetched entities are inputs.
- SearchConditions.SearchConditionsState.FetchConditionNames: treats decodeURIComponent of a parameter value as the identity; a value holding `%` escapes, or one that makes it throw, is not modelled.
- NextAuth.Token.JwtCallback: the refreshed token is a copy, so aliasing between the callback's argument and its result is not modelled.
- The browser's `required` attribute on the login inputs is not modelled. An empty e-mail reaches the handler, as it does without the attribute.
- AreaSearch.AreaSelection.SelectPrefecture: it states consistency only for an offered prefecture, because the rendered radios only offer those.
- ShopViews.PerformCreate, ShopViews.Regeocode and ShopViews.CreateShop: the geocoder is a function of the address text, so the lookups in one create (the pre-save lookup during `serializer.save()`, the explicit `geocode_address()` and the second save's pre-save lookup) all get the same reply. A later lookup that fails after an earlier one succeeded, which answers 500 with the shop already stored, is not modelled.
- ShopSerializers.Create and ShopSerializers.Update take ShopData, the serializer's validated data, as input. How Django REST framework parses the multipart body into that data is not modelled. In particular, the client sends its tag lists under the keys `types[]`, `concepts[]` and `layouts[]` (`ShopActions.ListSent`), while the related fields read the plain keys `types`, `concepts` and `layouts`. The model does not capture what the parse then gives those fields.
- ShopSerializers.Create: the orphaned address row left by an anonymous create is the `address` result; the model has no table of address rows.
