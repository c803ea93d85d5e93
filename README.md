# cantee-fe menu client, modelled in Dafny

This project models the logic of the canteen menu client cantee-fe (a
React single-page application). Six parts are covered:

- **Menu page** (`FoodList`): the cached item list, the filter the list is
  shown through (search, veg and availability), the fetch that replaces the
  list, and saving an edit.
- **Edit modal** (`PopModal`): the form, as a class over the unit objects it
  shares with the cached item.
- **Add-item page** (`AddFood`): the form, the multipart payload, and the
  reset after a successful add.
- **Ordering page** (`AvailableToday`): the split into items available today
  and the items marked unavailable (computed, never shown), and the order
  token.
- **Item card** (`FoodCard`): the selected unit, its price, and which
  callback a click invokes.
- **Session helpers** (`AuthUtils`): the token and user kept in session
  storage, the header rule of the authorised fetch, and the 401 logout.

Shared pieces:

- `Model` holds the values: server records, cached items, responses and
  payload entries.
- `Seqs` holds the filter over sequences and what it preserves.
- `Text` holds lower-casing, substring search, `substring(0, n)` and
  decimal printing.
- `ItemSync` holds what the list pages and the forms share: normalising
  server records, reading a fetch response, choosing an error message, and
  encoding an item as a `FormData` payload.

JavaScript's `null`/`undefined` are `None`. Truthiness is written out:
- `isVeg` and `isAvailable` are `Option<bool>`.
- A price is `Absent`, a number or a string; `Falsy` names its falsy values.
- An image is either a string (`Url`) or a chosen `File` (`Upload`), which is
  what `typeof image !== 'string'` tells apart.

A response is its status and its body, JSON or not. `response.ok` is a
status in 200-299.

A unit (`{name, price}`) is a class, because the edit modal writes into unit
objects in place. A cached `Food` is a datatype that holds its units by
reference.

Three behaviours of the code are worth stating outright:
- the session lives in `sessionStorage`, so it ends with the browser tab;
- the 'nonveg' selector shows every item whose `isVeg` is not `true`,
  including items with no flag;
- a list fetch checks the content type before the status, so a non-JSON
  error page fails with the content-type message whatever its status.

## Model

| member | source | states |
|---|---|---|
| Model.OrEmpty | src/pages/FoodList.jsx:52-56 | a missing or empty text field becomes '', a present one is kept |
| Seqs.Filter | src/pages/FoodList.jsx:124-136 | the result is no longer than the input, and every element kept is from the input and satisfies the predicate |
| Seqs.FilterMembers | src/pages/FoodList.jsx:124-136 | a value is in the result exactly when it is in the input and satisfies the predicate |
| Seqs.FilterSelects | src/pages/FoodList.jsx:124-136 | the result is the input read at increasing positions, which are exactly the positions where the predicate holds |
| Seqs.FilterKeepsAll | src/pages/FoodList.jsx:124-136 | a predicate that holds everywhere keeps the whole input |
| Seqs.FilterIdempotent | src/pages/FoodList.jsx:124-136 | filtering the result again with the same predicate changes nothing |
| Seqs.FilterAgrees | src/pages/FoodList.jsx:124-136 | two predicates that agree on the input select the same result |
| Seqs.FilterSplits | src/pages/AvailableToday.jsx:87-88 | when exactly one of two predicates holds of each element, the two results together hold every element once, and their lengths add up to the input's |
| Seqs.FilterOutIndex | src/components/PopModal.jsx:63 | filtering out one position in range removes exactly that element and keeps the order of the rest; a position out of range removes nothing |
| Text.Lower | src/pages/FoodList.jsx:125-126 | lower-casing keeps the length, maps A-Z to a-z and keeps every other character |
| Text.LowerIdempotent | src/pages/FoodList.jsx:125-126 | lower-casing twice is lower-casing once |
| Text.Includes | src/pages/FoodList.jsx:125-126 | `includes` holds exactly when the text contains the query at some position |
| Text.IncludesEmpty | src/pages/FoodList.jsx:125-126 | the empty query occurs in every text |
| Text.Prefix | src/pages/FoodList.jsx:101 | `substring(0, n)` is a prefix of the text: the whole text when it is no longer than n, otherwise exactly its first n characters |
| Text.Decimal | src/pages/AvailableToday.jsx:66 | a number prints as a non-empty run of decimal digits with no leading zero (only 0 itself starts with '0') |
| Text.DecimalRoundTrip | src/pages/AvailableToday.jsx:66 | the printed digits read back as the number |
| ItemSync.Normalise | src/pages/FoodList.jsx:49-58 | one item per server record, in order: fields renamed, missing text set to '', the single unit and price wrapped as a list of one newly created unit, no unit shared between items |
| ItemSync.Or | src/pages/FoodList.jsx:45 | `a \|\| b` is `a` when it is present and non-empty, else `b` |
| ItemSync.LoadError | src/pages/FoodList.jsx:36-46 | a non-JSON body fails with the content-type message whatever the status; a non-OK JSON body fails with its `message` or the fetch fallback; the fetch succeeds exactly when the answer is OK and a JSON array |
| ItemSync.Load | src/pages/AvailableToday.jsx:29-54 | the fetch throws exactly when `LoadError` names an error, with that message, and otherwise yields the normalised list |
| ItemSync.ReadData | src/pages/FoodList.jsx:94-102 | a JSON body is read as it is; any other body becomes an object whose `message` is the body's first 200 characters |
| ItemSync.ErrorMessage | src/pages/FoodList.jsx:105 | the message is the first present, non-empty one of `message`, `detail` and `error`, else the fallback |
| ItemSync.NonJsonErrorIsShort | src/pages/AddFood.jsx:77-85 | a non-JSON error body yields at most 200 characters: a non-empty prefix of the body, or the fallback when the body is empty |
| ItemSync.DetailIsReported | src/pages/AddFood.jsx:82-84 | a rejected answer with no usable `message` but a non-empty `detail` yields exactly that detail, whatever the fallback and `error` |
| ItemSync.EncodeItem | src/pages/AddFood.jsx:55-65 | the payload holds name, description, veg, unit, price and is_available in that order with the given values, then `image` only when there is a file |
| ItemSync.UploadOf | src/pages/FoodList.jsx:85-87 | an image is uploaded exactly when it is a chosen file and not a string |
| ItemSync.UpdatePayload | src/pages/FoodList.jsx:77-87 | the update payload carries the item's name, description, veg and availability, takes unit and price from the first unit, and carries `image` (the chosen file) only for a chosen file |
| FoodList.MatchesSearch | src/pages/FoodList.jsx:125-126 | the query occurs, ignoring case, in the name or in the description; the empty query matches every item |
| FoodList.MatchesVeg | src/pages/FoodList.jsx:128-130 | 'all' matches every item, 'veg' exactly the items with `isVeg` true, 'nonveg' exactly those whose `isVeg` is not true |
| FoodList.MatchesAvailability | src/pages/FoodList.jsx:132-133 | 'all' matches every item, 'available' exactly the items with `isAvailable` true |
| FoodList.Matches | src/pages/FoodList.jsx:124-136 | every item matches the default settings, and a matching item satisfies each selector |
| FoodList.FilteredFoods | src/pages/FoodList.jsx:124-136 | every item shown is a cached item that matches the search, the veg selector and the availability selector |
| FoodList.FilterKeepsOrder | src/pages/FoodList.jsx:124-136 | the shown list is the cached list at exactly the matching positions, in their order |
| FoodList.FilterMembers | src/pages/FoodList.jsx:124-136 | an item is shown exactly when it is cached and matches |
| FoodList.ShowAllIsIdentity | src/pages/FoodList.jsx:125-133 | an empty query with both selectors on 'all' shows every cached item |
| FoodList.VegSelectorHolds | src/pages/FoodList.jsx:128-130 | 'veg' shows only items with `isVeg` true; 'nonveg' only items whose `isVeg` is not true |
| FoodList.AvailabilitySelectorHolds | src/pages/FoodList.jsx:132-133 | 'available' shows only items with `isAvailable` true |
| FoodList.FilterIdempotent | src/pages/FoodList.jsx:124-136 | filtering the shown list again with the same settings changes nothing |
| FoodList.SearchIgnoresCase | src/pages/FoodList.jsx:125-126 | queries that are equal up to case show the same items |
| FoodList.ReplaceById | src/pages/FoodList.jsx:110 | the patched list has the cached list's length |
| FoodList.ReplaceByIdEffect | src/pages/FoodList.jsx:110 | every item with the saved id becomes the saved item, and every other item stays where it was |
| FoodList.ReplaceKeepsIds | src/pages/FoodList.jsx:110 | every position keeps its id |
| FoodList.ReplaceUnknownId | src/pages/FoodList.jsx:110 | saving an item whose id is not cached leaves the list unchanged |
| FoodList.ReplaceIdempotent | src/pages/FoodList.jsx:110 | applying the same save twice is applying it once |
| FoodList.FoodListPage.constructor | src/pages/FoodList.jsx:8-16 | the page starts with an empty list, loading, with no error and no notification |
| FoodList.FoodListPage.FetchFoods | src/pages/FoodList.jsx:29-67 | success replaces the cache by the normalised records and clears the error; failure keeps the cache, records the error and shows "Error: " and the message; loading ends either way |
| FoodList.FoodListPage.HandleSave | src/pages/FoodList.jsx:75-117 | sends the update payload, every field of it stated from the saved item; an OK answer patches the cache by id and shows the success message; any other answer keeps the cache and shows "Error: " and the chosen message |
| PopModal.ApplyChange | src/components/PopModal.jsx:34-40 | exactly the named field takes the event's value (the checkbox its `checked` state), and every other field is kept |
| PopModal.Coalesce | src/components/PopModal.jsx:22-23 | `??` gives the fallback only for a missing flag and keeps an explicit true or false |
| PopModal.FormFrom | src/components/PopModal.jsx:17-27 | the flags default to true only when unset, so an explicit false is kept; the form shares the item's unit list |
| PopModal.Merged | src/components/PopModal.jsx:82 | every form field overrides the item's, and the id is kept from the item |
| PopModal.UntouchedSubmitIsIdentity | src/components/PopModal.jsx:19-27 | saving an untouched form gives back the item, when its flags are set |
| PopModal.ReopenShowsSubmittedForm | src/components/PopModal.jsx:19-27 | opening the modal on a submitted item shows the submitted form |
| PopModal.RemainingUnits | src/components/PopModal.jsx:61-66 | with more than one unit, exactly the unit at the index is removed and the rest keep their order; with one unit nothing changes |
| PopModal.RemoveKeepsAUnit | src/components/PopModal.jsx:62 | removing never empties a non-empty unit list |
| PopModal.EditModal.constructor | src/components/PopModal.jsx:5-13 | empty texts, both flags set, an empty image and one "Full Plate" unit without a price |
| PopModal.EditModal.Open | src/components/PopModal.jsx:17-30 | a present item replaces the whole form; an absent one leaves it |
| PopModal.EditModal.InputChange | src/components/PopModal.jsx:34-40 | the form becomes `ApplyChange` of the old form |
| PopModal.EditModal.ChooseVeg | src/components/PopModal.jsx:153-170 | each radio button sets only `isVeg` |
| PopModal.EditModal.UnitPriceChange | src/components/PopModal.jsx:42-46 | only the unit object at the index changes, to the new price with its name kept; the form and its unit list are the same |
| PopModal.EditModal.UnitNameChange | src/components/PopModal.jsx:48-52 | only the unit object at the index changes, to the new name with its price kept |
| PopModal.EditModal.AddUnit | src/components/PopModal.jsx:54-59 | one new unit with empty name and price is appended and the existing units are kept |
| PopModal.EditModal.RemoveUnit | src/components/PopModal.jsx:61-66 | the units become `RemainingUnits`; a non-empty list stays non-empty |
| PopModal.EditModal.ImageChange | src/components/PopModal.jsx:68-78 | a chosen file turns the image into the reader's data URL, a string; no file changes nothing |
| PopModal.EditModal.Submit | src/components/PopModal.jsx:80-84 | the item handed to `onSave` is the item merged with the form |
| PopModal.EditModal.UnitPriceChangeCopying | src/components/PopModal.jsx:42-46 | the corrected price edit: a new unit object replaces the one at the index, and the other units are kept |
| PopModal.EditModal.UnitNameChangeCopying | src/components/PopModal.jsx:48-52 | the corrected name edit: a new unit object with the new name replaces the one at the index, and the other units are kept |
| PopModal.EditModal.ImageChangeKeepingFile | src/components/PopModal.jsx:68-78 | the corrected image choice: the chosen file itself becomes the image |
| PopModal.CancelledEditReachesCache | src/components/PopModal.jsx:42-46 | opening the modal on a cached item and editing a price changes that item's unit in the cache, with the list itself unchanged |
| PopModal.CancelledCopyEditStaysLocal | src/components/PopModal.jsx:42-46 | with the copying edit, the cached item's unit keeps its price |
| PopModal.CancelledNameEditReachesCache | src/components/PopModal.jsx:48-52 | opening the modal on a cached item and editing a unit name renames that item's unit in the cache, with the list itself unchanged |
| PopModal.CancelledCopyNameEditStaysLocal | src/components/PopModal.jsx:48-52 | with the copying name edit, the cached item's unit keeps its name |
| PopModal.PickedImageNeverUploaded | src/components/PopModal.jsx:68-78 | after an image is chosen in the modal, the saved payload has no image field |
| PopModal.PickedFileIsUploaded | src/components/PopModal.jsx:68-78 | with the file kept, the saved payload's image field is the chosen file |
| AddFood.ApplyChange | src/pages/AddFood.jsx:26-32 | exactly the named field takes the event's value (the checkbox its `checked` state), and the veg choice and the image are kept |
| AddFood.ChangesOfDistinctFieldsCommute | src/pages/AddFood.jsx:26-32 | edits of two different inputs, text fields or the checkbox, give the same form in either order |
| AddFood.LastChangeWins | src/pages/AddFood.jsx:26-32 | a later edit of the same input overrides an earlier one |
| AddFood.WithImage | src/pages/AddFood.jsx:34-41 | the first chosen file becomes the image; with no file the form is unchanged |
| AddFood.ChosenImageSticks | src/pages/AddFood.jsx:34-41 | once a file is chosen, the form keeps an image |
| AddFood.AddFoodPage.constructor | src/pages/AddFood.jsx:5-17 | the initial form, not loading, no notification |
| AddFood.AddFoodPage.InputChange | src/pages/AddFood.jsx:26-32 | the form becomes `ApplyChange` of the old form |
| AddFood.AddFoodPage.ImageChange | src/pages/AddFood.jsx:34-41 | the form becomes `WithImage` of the old form |
| AddFood.AddFoodPage.ChooseVeg | src/pages/AddFood.jsx:168-189 | each radio button sets only `veg` |
| AddFood.AddFoodPage.BeginSubmit | src/pages/AddFood.jsx:50-65 | loading is set, and the payload carries the form's fields in order, the price as typed for parsing, and the image only when a file was chosen |
| AddFood.AddFoodPage.EndSubmit | src/pages/AddFood.jsx:72-107 | OK resets the form to its initial state and shows the success message; failure keeps the form and shows the chosen message; loading ends either way |
| AddFood.SubmitOnce | src/pages/AddFood.jsx:50-107 | a whole submit leaves loading off, keeps the form on failure and resets it on success |
| AddFood.RejectedAddShowsDetail | src/pages/AddFood.jsx:82-85 | a rejected add whose answer has only a non-empty `detail` shows exactly that detail, keeps the form and ends loading |
| AvailableToday.AvailableItems | src/pages/AvailableToday.jsx:87 | the list the page shows holds only cached items whose `isAvailable` is true |
| AvailableToday.OtherItems | src/pages/AvailableToday.jsx:88 | the `otherItems` list, which the page computes but never renders, holds only cached items whose `isAvailable` is false |
| AvailableToday.SplitMembers | src/pages/AvailableToday.jsx:87-88 | each list holds exactly the cached items with its flag value; an unset flag is in neither |
| AvailableToday.SplitKeepsOrder | src/pages/AvailableToday.jsx:87-88 | each list is the cached list taken at exactly the positions whose flag has its value, in the cached order |
| AvailableToday.SplitDisjoint | src/pages/AvailableToday.jsx:87-88 | no item is in both lists |
| AvailableToday.SplitPartition | src/pages/AvailableToday.jsx:87-88 | when every flag is set, the two lists together hold every cached item once, and their lengths add up to the total |
| AvailableToday.RandomSuffix | src/pages/AvailableToday.jsx:66 | the random part is the floor of random times 10000, below 10000 |
| AvailableToday.OrderToken | src/pages/AvailableToday.jsx:66 | the token starts with "ORD-" |
| AvailableToday.OrderNotification | src/pages/AvailableToday.jsx:70-73 | the order's success notification quotes the token |
| AvailableToday.IngredientsText | src/pages/AvailableToday.jsx:81-84 | the item's ingredients, or "No ingredients listed" when it has none |
| AvailableToday.OrderTokenRoundTrip | src/pages/AvailableToday.jsx:66 | the token is "ORD-", the clock value, "-" and the random part below 10000, and both numbers read back from it |
| FoodCard.FirstNamed | src/components/FoodCard.jsx:7 | the position of the first unit with the name, or none when no unit has it |
| FoodCard.PriceOf | src/components/FoodCard.jsx:7 | the first matching unit's price, or 0 when none matches or the price is falsy |
| FoodCard.FirstUnitWins | src/components/FoodCard.jsx:7 | a unit that comes first with its name sets the price, whatever follows |
| FoodCard.UnknownUnitIsFree | src/components/FoodCard.jsx:7 | a name that no unit has is priced 0 |
| FoodCard.Card.constructor | src/components/FoodCard.jsx:4-5 | the first unit's name is selected |
| FoodCard.Card.CurrentPrice | src/components/FoodCard.jsx:7 | the price of the first unit named as the selection, or 0 |
| FoodCard.Card.UnitChange | src/components/FoodCard.jsx:9-11 | the selector's value becomes the selected unit |
| FoodCard.Card.ActionClick | src/components/FoodCard.jsx:13-19 | order with the selected unit and its price when ordering is shown and possible, otherwise edit when possible, otherwise nothing |
| FoodCard.Card.IngredientsClick | src/components/FoodCard.jsx:68 | the ingredients callback is invoked only when it was passed |
| FoodCard.NewCardOrdersFirstUnit | src/components/FoodCard.jsx:5-19 | a fresh ordering card orders the first unit at its price, or 0 for a falsy price |
| AuthUtils.TokenText | src/components/authUtils.js:41 | a missing token prints as "null" |
| AuthUtils.AuthOptions | src/components/authUtils.js:37-44 | the caller's options and headers are kept, and `Authorization` is "Token " plus the token and `Content-Type` is JSON, overriding the caller's values |
| AuthUtils.AuthOptionsIdempotent | src/components/authUtils.js:37-44 | wrapping options twice with the same token is wrapping them once |
| AuthUtils.ForcedHeadersWin | src/components/authUtils.js:39-43 | what the caller gives for the two forced headers makes no difference |
| AuthUtils.SessionStore.Token | src/components/authUtils.js:6-8 | the stored token, or null when none is stored |
| AuthUtils.SessionStore.User | src/components/authUtils.js:11-14 | the stored user, or null when none is stored |
| AuthUtils.SessionStore.IsAuthenticated | src/components/authUtils.js:17-19 | holds exactly when a non-empty token is stored |
| AuthUtils.SessionStore.SetAuth | src/components/authUtils.js:22-25 | only the token and the user are stored, and reading them back gives what was stored |
| AuthUtils.SessionStore.ClearAuth | src/components/authUtils.js:28-31 | exactly the token and user keys are removed, after which the session is not authenticated |
| AuthUtils.SessionStore.AuthFetch | src/components/authUtils.js:34-55 | the request carries the authorised options built from the token at call time; a 401 clears the session and asks for a reload; any other status leaves the store alone; the answer is returned as it came |

## Left out

- The network: `fetch`, `response.json()`/`text()` and the content-type header are left out. A response is given as its status and a body that is already JSON or not JSON. Endpoint URLs and HTTP methods are not modelled.
- Browser I/O is left out: `FileReader`, the image preview, `alert` (only the ingredients text is modelled), `console`, the five-second `setTimeout` that dismisses notifications, `window.location.reload` (returned as a flag), `window.history.back`, `document.getElementById`, and all JSX rendering and CSS.
- `parseFloat` works on floating point, so a price sent to the server is the symbolic `ParsedPrice(price)`.
- `toLowerCase` is modelled over ASCII letters only. Strings are sequences of characters, not UTF-16 code units, so `substring(0, 200)` counts characters.
- `Date.now()` and `Math.random()` are parameters of the order token.
- JSON serialisation of the user in session storage is an abstract round trip: a stored `Serialised(u)` parses back to `u`. `setAuth` with an `undefined` user, which stores text that `getUser` cannot parse, is not modelled. Nor is `setAuth` with a `null` token: `setItem` would store the text "null", which `isAuthenticated` then accepts (src/components/authUtils.js:17,22); the model's token is always a string.
- The modal's `|| ''` fallbacks for name, description, image and ingredients, and its `units` fallback, are identities here. Normalisation supplies description, image, ingredients and units, and the server's `name` is assumed to be a string (see the line on `name` and `unit`).
- Every asynchronous handler (`fetchFoods` on both list pages, `handleSave`, the add form's `handleSubmit`) is modelled as steps that do not interleave with other handlers. `handleSave` patches the list it captured when it was rendered (`setFoods(foods.map(...))`, src/pages/FoodList.jsx:110), not the latest one. Two saves in flight at once, or a refetch finishing while a save is in flight, can therefore lose one of the updates from the cache; the model patches the current list and does not capture that loss.
- The server's `name` and `unit` fields are assumed to be strings. A record without a `name` would be cached with `name` undefined (src/pages/FoodList.jsx:51, src/pages/AvailableToday.jsx:45); the filter's `food.name.toLowerCase()` would then throw, and the modal's `food.name || ''` would not be an identity. The model does not cover such records.
- A JSON body is either an array of item records or an object. A JSON `null` (or other non-object) error body, on which `data.message` throws (src/pages/FoodList.jsx:45,105), is not modelled.
- AuthUtils.SessionStore.Token returns nothing for a serialised value stored under the token key, where `getItem` would return its text. No operation of the model stores such a value there, since only `setAuth` writes the token.
- ItemSync.LoadError: an OK JSON body that is not an array fails with a fixed TypeError text. Real engines word that message differently.
- FoodList.FoodListPage.HandleSave requires at least one unit. An item with no units makes `units[0]` throw a TypeError that becomes an error notification. No cached item has an empty unit list, because normalisation creates one unit and `removeUnit` never removes the last.
- FoodCard.Card.constructor requires at least one unit, for the same reason. `food.units[0]` would throw while rendering.
- Opening and closing the modal (`isOpen`, `handleEdit`, `onClose`, overlay clicks) is not modelled; only the form is.
- Cancelling the add form and the `disabled` state of its buttons are not modelled.
- `src/components/Navbar.jsx`, the route tables, `src/pages/Transaction.jsx` and `src/pages/Login.jsx` are not part of this model.

## Findings

| source | as written | input that shows it | evidently intended | confidence | as-written member | corrected member |
|---|---|---|---|---|---|---|
| src/components/PopModal.jsx:42-46 | copies the unit array but writes the new price into the unit object itself, which is the cached item's own unit (line 25) | open the modal on a cached item, type a new price, close with Cancel: the cached item now carries that price | a unit edit stays in the form until it is saved | not executed; high | PopModal.CancelledEditReachesCache | PopModal.CancelledCopyEditStaysLocal |
| src/components/PopModal.jsx:48-52 | copies the unit array but writes the new name into the shared unit object, as the price edit does | open the modal on a cached item, rename a unit, close with Cancel: the cached item's unit now has that name | a unit edit stays in the form until it is saved | not executed; high | PopModal.CancelledNameEditReachesCache | PopModal.CancelledCopyNameEditStaysLocal |
| src/components/PopModal.jsx:68-78 | stores the chosen image as the reader's data-URL string, and the save payload uploads only a non-string image (src/pages/FoodList.jsx:85-87) | choose a new image in the modal and save: the payload has no image field | the chosen image is uploaded | not executed; high | PopModal.PickedImageNeverUploaded | PopModal.PickedFileIsUploaded |
