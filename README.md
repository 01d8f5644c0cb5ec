# Photographer dashboard panels in Dafny

This project models the state logic of the five panels of a photographer's
dashboard, in a React marketplace UI. The panels are availability, bookings,
pricing, portfolio and profile. Each panel owns one list or record. The
panel's handlers replace it with a new value computed by map, filter, append
or reduce, and most handlers also write that value to a key-value store. Each
panel is a Dafny `class`:

- The state fields are class fields.
- A field `stored` holds what was last written under the panel's store key.
  `None` means the key was never written.
- Each handler is a method with `modifies this`. Its `ensures` give the whole
  new state.
- The lists the handlers compute are functions. Lemmas state what those
  functions guarantee.

Modelling conventions:

- Dates are integer day numbers. The source compares dates with `isSameDay`,
  and `isAfter(slot.date, new Date())` becomes `date > now`.
- Ids generated with `Date.now()`, the current day `today` and the time
  `now` are parameters.
- Strings are `seq<char>`.
- `trim` removes the ECMAScript white space and line terminators from both
  ends (`Text.Trim`).
- The modules are:
  - `Opt` (option type)
  - `Seqs` (`map`, `filter`, `find`, `findIndex`, upsert, sum, minimum, stable sort)
  - `Text` (trim, `split('.')[0]`, decimal rendering)
  - `Availability`, `Bookings`, `Pricing`, `Portfolio` and `Profile`, one per
    panel.

Availability:

- On load, the stored slots are followed by two mock bookings. Saving drops
  any slot with a mock id from what is stored. The in-memory list keeps them.
- A day's status is the status of the first slot on that day.
- A booked slot cannot be deleted. The refusal is returned as `refused`.
- `BlockDateRange` is the source's `while` loop over the inclusive day range.
  It adds a blocked slot for every day whose first slot is not booked.
  It returns the number of blocked days, which the source shows in a
  notification. The source defines this handler but binds it to no control,
  so no user action of the panel reaches it.
- A block gets the id `"block_"` followed by its day number. The source uses
  the day's millisecond timestamp. Both give one id per day.

Bookings:

- The mock handling matches availability.
- `sendMessage` appends the reply to the *selected* copy of the booking. That
  copy then replaces every booking with its id.
- The stored reply is the untrimmed text. Only the emptiness check trims.
- `updateBookingStatus` does not refresh the selected copy. The model keeps
  that behaviour.

Pricing:

- Mean prices are integers. The average is the source's
  `Math.round(sum / n)`, stated as `2n*r - n <= 2*sum < 2n*r + n`.
- Toggling the same package twice restores the popular flags exactly when
  no other package was popular (`Pricing.ToggleTwice`). It is not an
  identity in general.

Portfolio:

- An upload with a file list shows the upload banner. The banner stays while
  the last file has not arrived. An empty file list has no callbacks, so the
  banner stays on (`BeginUpload` with `Some(0)`).

## Model

| member | source | states |
|---|---|---|
| Availability.MockBookings | src/components/PhotographerAvailability.tsx:41-64 | the two seeded bookings have the mock ids and status booked; they fall three and seven days after today |
| Availability.WithoutMocks | src/components/PhotographerAvailability.tsx:84-88 | a slot is kept exactly when it is in the list and its id is not a mock id |
| Availability.WithoutMocksCount | src/components/PhotographerAvailability.tsx:84-88 | each kept slot occurs as often as before; mock slots do not occur |
| Availability.SaveAfterLoad | src/components/PhotographerAvailability.tsx:66-90 | saving right after a load stores exactly the list that was loaded, so mock slots never reach the store |
| Availability.StatusOn | src/components/PhotographerAvailability.tsx:92-95 | the day is unavailable exactly when no slot is on it; otherwise the status is that of the first slot on the day |
| Availability.StatusOnIsFind | src/components/PhotographerAvailability.tsx:92-95 | the status agrees with the first slot that `find` returns for the day |
| Availability.NewDraft | src/components/PhotographerAvailability.tsx:97-110 | no draft without a selected day; otherwise an available slot on that day with one 09:00-17:00 time slot and empty notes |
| Availability.UpsertSlot | src/components/PhotographerAvailability.tsx:117-131 | an id already present keeps the length and replaces exactly that id's entries; a new id is appended, so the length grows by one |
| Availability.UpsertSlotFinds | src/components/PhotographerAvailability.tsx:117-131 | after saving, the id finds the draft, and the slots of other ids are those of before, in order |
| Availability.RemoveId | src/components/PhotographerAvailability.tsx:145 | a slot remains exactly when it was there and has another id |
| Availability.RemoveIdKeeps | src/components/PhotographerAvailability.tsx:145 | each slot of another id keeps its multiplicity; an absent id changes nothing |
| Availability.RemoveIdInOrder | src/components/PhotographerAvailability.tsx:145 | deleting from two lists joined is deleting from each and joining, and a single slot stays exactly when it has another id, so the remaining slots keep their order |
| Availability.DeleteGuard | src/components/PhotographerAvailability.tsx:137-143 | the delete is refused exactly when the first slot with that id is booked |
| Availability.BlockableIsNotBooked | src/components/PhotographerAvailability.tsx:156-157 | a day gets a block exactly when its status is not booked |
| Availability.BlockSlotsAre | src/components/PhotographerAvailability.tsx:154-167 | every new slot is a blocked slot with empty time slots and notes "Blocked period", on a day in the range that was blockable |
| Availability.BlockSlotsCover | src/components/PhotographerAvailability.tsx:154-167 | every blockable day in the range gets its blocked slot |
| Availability.BlockSlotsOrdered | src/components/PhotographerAvailability.tsx:154-167 | the new slots are in strictly increasing day order, one per day |
| Availability.BlockCount | src/components/PhotographerAvailability.tsx:154-177 | the number of blocked days is the number of days in the range that are not booked |
| Availability.EmptyRange | src/components/PhotographerAvailability.tsx:154 | an end before the start blocks nothing and leaves the list unchanged |
| Availability.BlockKeepsBookings | src/components/PhotographerAvailability.tsx:169-174 | the booked slots after blocking are exactly the booked slots before, in order |
| Availability.StatusAfterBlock | src/components/PhotographerAvailability.tsx:150-174 | inside the range a day reads booked if it had a booked slot and blocked otherwise; outside the range statuses are unchanged |
| Availability.BlocksArePersisted | src/components/PhotographerAvailability.tsx:169-176 | every new block reaches the store |
| Availability.Upcoming | src/components/PhotographerAvailability.tsx:184-187 | at most five slots, all booked and strictly after now, sorted by day, exactly min(5, number of such slots) of them, and none more often than among the booked future slots of the list |
| Availability.UpcomingAreEarliest | src/components/PhotographerAvailability.tsx:184-187 | a booked future slot left out is no earlier than any slot shown |
| Availability.AvailabilityPanel.Load | src/components/PhotographerAvailability.tsx:66-80 | the list is the stored slots, or none, followed by the mock bookings |
| Availability.AvailabilityPanel.SaveAvailability | src/components/PhotographerAvailability.tsx:82-90 | the list becomes the full updated list and the store its mock-free part |
| Availability.AvailabilityPanel.SelectDate | src/components/PhotographerAvailability.tsx:219 | only the selected day changes |
| Availability.AvailabilityPanel.CreateAvailabilitySlot | src/components/PhotographerAvailability.tsx:97-110 | with a selected day the dialog opens on the new draft; without one nothing changes |
| Availability.AvailabilityPanel.EditAvailabilitySlot | src/components/PhotographerAvailability.tsx:112-115 | the dialog opens on a copy of the slot |
| Availability.AvailabilityPanel.SaveSlot | src/components/PhotographerAvailability.tsx:117-135 | without a draft nothing changes; otherwise the upserted list is saved and the dialog closes without a draft |
| Availability.AvailabilityPanel.DeleteSlot | src/components/PhotographerAvailability.tsx:137-148 | refused exactly by the guard, leaving list and store as they were; otherwise the id is removed and the result saved |
| Availability.AvailabilityPanel.BlockDateRange | src/components/PhotographerAvailability.tsx:150-178 | the loop's slots are the blocks of the range; the list becomes the surviving slots followed by the blocks, and is saved; the count returned is the number of blocks; the source binds this handler to no control |
| Availability.AvailabilityPanel.SetDialogOpen | src/components/PhotographerAvailability.tsx:372-447 | the dialog's open-change handler and its Cancel button change only whether the dialog is open; the draft stays |
| Bookings.MockBookings | src/components/PhotographerBookings.tsx:44-110 | three seeded bookings, all with mock ids |
| Bookings.WithoutMocks | src/components/PhotographerBookings.tsx:137-140 | a booking is stored exactly when it is in the list and its id is not a mock id |
| Bookings.SaveAfterLoad | src/components/PhotographerBookings.tsx:112-141 | saving right after a load stores exactly the bookings that were loaded |
| Bookings.WithStatus | src/components/PhotographerBookings.tsx:131-135 | length and order kept; only the status changes, to the new one on the bookings with the id, from any status |
| Bookings.WithStatusLastWins | src/components/PhotographerBookings.tsx:131-135 | of two status changes to one id, the second decides |
| Bookings.UniqueIdsKept | src/components/PhotographerBookings.tsx:44-163 | the seeded bookings have distinct ids; a mock-free store with distinct ids loads to a list with distinct ids; a status change and the reply's replacement by a booking of the same id keep ids distinct |
| Bookings.Filtered | src/components/PhotographerBookings.tsx:193-195 | the whole list for the "all" tab; otherwise exactly the bookings with that status |
| Bookings.FilteredCount | src/components/PhotographerBookings.tsx:193-195 | a status tab shows each booking of that status exactly as often as the list holds it, and no other booking; the "all" tab shows every booking as often |
| Bookings.FilteredInOrder | src/components/PhotographerBookings.tsx:193-195 | the view of two lists joined is the two views joined, and one booking shows exactly when it is of the tab's status, so the view keeps the list's order |
| Bookings.StatsOf | src/components/PhotographerBookings.tsx:197-202 | pending, confirmed and completed together are at most the number of bookings |
| Bookings.CountPartition | src/components/PhotographerBookings.tsx:197-200 | the four status counts add up to the number of bookings |
| Bookings.RevenueSum | src/components/PhotographerBookings.tsx:201 | the revenue is the first booking's price if it is completed, plus the revenue of the rest |
| Bookings.CountSplit | src/components/PhotographerBookings.tsx:197-202 | counts and revenue of two lists joined are the sums of theirs |
| Bookings.ChangeOneStatus | src/components/PhotographerBookings.tsx:131-202 | with unique ids, changing one booking's status moves exactly one unit between the old and the new count, and revenue changes by that booking's price only when completed is involved |
| Bookings.AcceptPending | src/components/PhotographerBookings.tsx:131-202 | confirming a pending booking lowers pending by one, raises confirmed by one, and keeps completed and revenue |
| Bookings.ReplaceById | src/components/PhotographerBookings.tsx:161-163 | every booking with the id becomes the updated one; the others stay, in order |
| Bookings.WithReply | src/components/PhotographerBookings.tsx:149-159 | only the messages change; exactly one photographer message with the given text, id and time is appended after the earlier ones |
| Bookings.ReplyAppendsOne | src/components/PhotographerBookings.tsx:149-163 | in the new list the booking with the selected id ends with the new message after the selected copy's messages; the other bookings are unchanged |
| Bookings.BookingsPanel.Load | src/components/PhotographerBookings.tsx:112-129 | the list is the stored bookings, or none, followed by the mock bookings |
| Bookings.BookingsPanel.UpdateBookingStatus | src/components/PhotographerBookings.tsx:131-144 | the list becomes the status update and the store its mock-free part; the selected copy is left as it was |
| Bookings.BookingsPanel.SendMessage | src/components/PhotographerBookings.tsx:146-176 | nothing changes without a selection or with a blank reply; otherwise the reply is appended to the selected booking, the list and the mock-free store are updated, and the reply box is cleared |
| Bookings.BookingsPanel.OpenBookingDialog | src/components/PhotographerBookings.tsx:178-181 | the booking is selected and the dialog opens |
| Bookings.BookingsPanel.SetDialogOpen | src/components/PhotographerBookings.tsx:361 | the dialog's open-change handler changes only whether the dialog is open |
| Bookings.BookingsPanel.RespondToRequest | src/components/PhotographerBookings.tsx:449-466 | with a pending selection, the selected id becomes confirmed (accept) or cancelled (decline), the mock-free list is stored and the dialog closes; without one nothing changes |
| Bookings.BookingsPanel.SetReplyMessage | src/components/PhotographerBookings.tsx:437 | only the reply text changes |
| Bookings.BookingsPanel.SetActiveTab | src/components/PhotographerBookings.tsx:244 | only the tab changes |
| Pricing.DefaultPackages | src/components/PhotographerPricing.tsx:25-56 | three default packages, exactly one of them popular |
| Pricing.UpsertPackage | src/components/PhotographerPricing.tsx:97-109 | an existing id keeps the length and replaces exactly that id's entries in place; a new id is appended |
| Pricing.UpsertPackageFinds | src/components/PhotographerPricing.tsx:97-109 | after saving, the id finds the draft, and packages of other ids are those of before, in order |
| Pricing.RemovePackage | src/components/PhotographerPricing.tsx:115-116 | a package remains exactly when it was there and has another id |
| Pricing.RemovePackageKeeps | src/components/PhotographerPricing.tsx:115-116 | each package of another id keeps its multiplicity; an absent id changes nothing |
| Pricing.RemovePackageInOrder | src/components/PhotographerPricing.tsx:115-116 | deleting from two lists joined is deleting from each and joining, and a single package stays exactly when it has another id, so the remaining packages keep their order |
| Pricing.TogglePopular | src/components/PhotographerPricing.tsx:121-125 | length, order and every field but the flag kept; the target's flag is negated and every other flag is false |
| Pricing.ToggleLeavesOnePopular | src/components/PhotographerPricing.tsx:121-125 | with unique ids, at most one package is popular afterwards |
| Pricing.UniqueIdsKept | src/components/PhotographerPricing.tsx:25-125 | the defaults have distinct ids, and saving, deleting and toggling keep ids distinct, so the unique-ids premise of the popular-flag lemma holds of the panel's list |
| Pricing.FilterKeepsUniqueIds | src/components/PhotographerPricing.tsx:115-116 | dropping packages keeps the remaining ids distinct |
| Pricing.ToggleTwice | src/components/PhotographerPricing.tsx:121-125 | a second toggle restores the target's flag and clears the others, so it restores the list exactly when no other package was popular |
| Pricing.AddFeature | src/components/PhotographerPricing.tsx:129-135 | a blank text changes nothing; otherwise the non-empty trimmed text is appended after the existing features |
| Pricing.RemoveFeatureAt | src/components/PhotographerPricing.tsx:139-145 | an index in range drops exactly that position and keeps the others in order; any other index changes nothing |
| Pricing.AveragePrice | src/components/PhotographerPricing.tsx:372 | 0 for no packages; otherwise the sum divided by the count, rounded to the nearest integer with halves up |
| Pricing.RoundedMean | src/components/PhotographerPricing.tsx:372 | r - 1/2 <= sum/n < r + 1/2 |
| Pricing.StartingPrice | src/components/PhotographerPricing.tsx:378 | 0 for no packages; otherwise a price of some package that no package's price is below |
| Pricing.PricingPanel.Load | src/components/PhotographerPricing.tsx:64-70 | the stored packages whenever the key is set, even to an empty list, else the defaults |
| Pricing.PricingPanel.SavePackages | src/components/PhotographerPricing.tsx:72-75 | the list and the store become the same updated list |
| Pricing.PricingPanel.CreateNewPackage | src/components/PhotographerPricing.tsx:77-90 | the editor opens on "New Package", Wedding, 500, "2 hours", two placeholder features, not popular |
| Pricing.PricingPanel.EditPackage | src/components/PhotographerPricing.tsx:92-95 | the editor opens on a copy of the package |
| Pricing.PricingPanel.SavePackage | src/components/PhotographerPricing.tsx:97-113 | without a draft nothing changes; otherwise the upserted list is the list and the store, and the editor closes without a draft |
| Pricing.PricingPanel.CancelEdit | src/components/PhotographerPricing.tsx:347 | the editor closes; the draft stays |
| Pricing.PricingPanel.DeletePackage | src/components/PhotographerPricing.tsx:115-119 | the list and the store lose every package of the id |
| Pricing.PricingPanel.TogglePopularFlag | src/components/PhotographerPricing.tsx:121-127 | the list and the store become the toggled list |
| Pricing.PricingPanel.SetNewFeature | src/components/PhotographerPricing.tsx:335 | only the feature input changes |
| Pricing.PricingPanel.AddFeatureToDraft | src/components/PhotographerPricing.tsx:129-137 | without a draft or with a blank input nothing changes; otherwise the trimmed feature is appended to the draft and the input is cleared |
| Pricing.PricingPanel.RemoveFeatureFromDraft | src/components/PhotographerPricing.tsx:139-146 | without a draft nothing changes; otherwise the draft loses the feature at that index |
| Portfolio.DefaultImages | src/components/PhotographerPortfolio.tsx:21-43 | three default images with distinct ids |
| Portfolio.NewImage | src/components/PhotographerPortfolio.tsx:74-80 | category "Wedding", description "New portfolio image", id the stamp followed by the file's position, and a title that is the file name up to its first '.' |
| Portfolio.SetCategory | src/components/PhotographerPortfolio.tsx:95-99 | length and order kept; only the category changes, and only on images with the id |
| Portfolio.SetCategoryKeepsOthers | src/components/PhotographerPortfolio.tsx:95-99 | images of other ids are untouched and in order; the images of the id appear under the new category |
| Portfolio.RemoveImage | src/components/PhotographerPortfolio.tsx:103-105 | an image remains exactly when it was there and has another id |
| Portfolio.RemoveImageKeeps | src/components/PhotographerPortfolio.tsx:103-105 | each image of another id keeps its multiplicity; an absent id changes nothing |
| Portfolio.RemoveImageInOrder | src/components/PhotographerPortfolio.tsx:103-105 | deleting from two lists joined is deleting from each and joining, and a single image stays exactly when it has another id, so the remaining images keep their order |
| Portfolio.FilteredImages | src/components/PhotographerPortfolio.tsx:109-111 | every image for "All"; otherwise exactly the images of the selected category |
| Portfolio.FilteredImagesCount | src/components/PhotographerPortfolio.tsx:109-111 | a category's view shows each image of that category exactly as often as the list holds it, and no other image; "All" shows every image as often |
| Portfolio.FilteredImagesInOrder | src/components/PhotographerPortfolio.tsx:109-111 | the view of two lists joined is the two views joined, and one image shows exactly when it is of the category, so the view keeps the list's order |
| Portfolio.CategoryCount | src/components/PhotographerPortfolio.tsx:156 | at most the number of images, and zero exactly when no image has the category |
| Portfolio.CategoryCountIsMultiplicity | src/components/PhotographerPortfolio.tsx:156 | the badge equals the number of times the category occurs among the images' categories |
| Portfolio.UsedCategoryCount | src/components/PhotographerPortfolio.tsx:267 | the number of listed categories, "All" aside, that some image is in, and so at most six |
| Portfolio.UploadAsWrittenKeepsLast | src/components/PhotographerPortfolio.tsx:70-91 | as written, an upload ends with the start-of-upload images plus only the last file's image |
| Portfolio.UploadAsWrittenLosesImages | src/components/PhotographerPortfolio.tsx:82-83 | two files uploaded onto an empty portfolio leave one image |
| Portfolio.UploadAllAppends | src/components/PhotographerPortfolio.tsx:70-91 | appending each arriving image to the current list ends with all earlier images followed by every file's image |
| Portfolio.PortfolioPanel.Load | src/components/PhotographerPortfolio.tsx:50-56 | the stored images whenever the key is set, even to an empty list, else the defaults; the upload snapshot starts as that list |
| Portfolio.PortfolioPanel.SavePortfolio | src/components/PhotographerPortfolio.tsx:58-61 | the list and the store become the same updated list |
| Portfolio.PortfolioPanel.BeginUpload | src/components/PhotographerPortfolio.tsx:63-68 | with a file list the banner is on and the images as they are now become the list the callbacks captured; with none nothing changes |
| Portfolio.PortfolioPanel.CompleteUpload | src/components/PhotographerPortfolio.tsx:74-89 | one callback as written: the list and the store become the captured images plus this file's image, overwriting any change made since the upload began; the banner goes when it was the last file |
| Portfolio.PortfolioPanel.UploadFiles | src/components/PhotographerPortfolio.tsx:63-93 | the handler with its callbacks in file order ends at the images the upload began with plus only the last file's image, saved; the banner is off unless the file list was empty |
| Portfolio.PortfolioPanel.AppendUpload | src/components/PhotographerPortfolio.tsx:82-89 | the intended callback: the arriving image is appended to the current images and saved |
| Portfolio.PortfolioPanel.UploadFilesAsIntended | src/components/PhotographerPortfolio.tsx:63-93 | the intended upload ends with the earlier images followed by every file's image, in file order |
| Portfolio.PortfolioPanel.UpdateImageCategory | src/components/PhotographerPortfolio.tsx:95-101 | the list and the store become the category change |
| Portfolio.PortfolioPanel.DeleteImage | src/components/PhotographerPortfolio.tsx:103-107 | the list and the store lose every image of the id |
| Portfolio.PortfolioPanel.SelectCategory | src/components/PhotographerPortfolio.tsx:151 | only the selected category changes |
| Profile.Get | src/components/PhotographerProfile.tsx:12-23 | the specialties field reads a list, every other field a text |
| Profile.SameFields | src/components/PhotographerProfile.tsx:12-23 | records that agree on all ten fields are equal |
| Profile.WithField | src/components/PhotographerProfile.tsx:56-61 | the field reads the new value and every other field reads as before |
| Profile.WithFieldLaws | src/components/PhotographerProfile.tsx:56-61 | writing back a field's own value is no change, a second write to a field overrides the first, and writes to different fields commute |
| Profile.AddTag | src/components/PhotographerProfile.tsx:63-68 | a blank or already listed text changes nothing; otherwise the trimmed text is appended; either way a non-blank text is listed afterwards |
| Profile.AddTagKeepsDistinct | src/components/PhotographerProfile.tsx:64 | a list without repeats stays without repeats |
| Profile.AddTagTwice | src/components/PhotographerProfile.tsx:64 | adding the same text twice is adding it once, and it is then listed exactly once |
| Profile.RemoveTag | src/components/PhotographerProfile.tsx:70-71 | an entry remains exactly when it was there and differs from the removed one |
| Profile.RemoveTagKeeps | src/components/PhotographerProfile.tsx:70-71 | every other entry keeps its multiplicity, the removed one is gone, and a list without repeats stays so |
| Profile.RemoveTagInOrder | src/components/PhotographerProfile.tsx:70-71 | removing from two lists joined is removing from each and joining, and a single entry stays exactly when it differs from the removed one, so the remaining entries keep their order |
| Profile.RemoveUndoesAdd | src/components/PhotographerProfile.tsx:63-71 | removing a specialty that was just added gives back the earlier list |
| Profile.ProfilePanel.Load | src/components/PhotographerProfile.tsx:42-48 | the stored record replaces the default one exactly when the key is set |
| Profile.ProfilePanel.StartEditing | src/components/PhotographerProfile.tsx:98 | edit mode on, nothing else changes |
| Profile.ProfilePanel.HandleSave | src/components/PhotographerProfile.tsx:50-54 | the current record is stored and edit mode ends |
| Profile.ProfilePanel.HandleInputChange | src/components/PhotographerProfile.tsx:56-61 | only that field of the record changes; the store is not written |
| Profile.ProfilePanel.SetNewSpecialty | src/components/PhotographerProfile.tsx:262 | only the specialty input changes |
| Profile.ProfilePanel.AddSpecialty | src/components/PhotographerProfile.tsx:63-68 | the specialties become the add result; the input is cleared exactly when something was added |
| Profile.ProfilePanel.RemoveSpecialty | src/components/PhotographerProfile.tsx:70-72 | the specialties lose every entry equal to the removed one |

## Left out

- The markup, dialogs, badges, tabs, calendar modifiers and the `date-fns` formatting are presentation only.
- The notifications (`toast`) are left out. The two that carry data come back as results: `DeleteSlot` returns `refused` and `BlockDateRange` returns `blockedDays`.
- `localStorage` and JSON are not modelled. Each store is a field holding the last value written. Re-creating `Date` objects when parsing is not modelled either.
- `Date.now()`, `new Date()` and the current day are parameters.
- Time of day is not modelled. A booking later on the current day is not upcoming in the model. The source compares the slot's date, with its time of day, against the clock.
- `FileReader`, the `setTimeout` delays and the avatar upload are asynchronous I/O. Each upload callback is one call to `CompleteUpload`, which saves the list captured by `BeginUpload` plus its image. `UploadFiles` assumes the callbacks fire in file order. The source does not fix that order, because each delay starts when its file's read finishes; `UploadAsWrittenKeepsLast` takes the images in whatever order the callbacks fire, and the one that fires last is the one kept. Other handlers may still be called between two `CompleteUpload` calls. The avatar upload ends in `HandleInputChange(Avatar, …)`.
- The inline form bindings that set single draft fields are not modelled. Examples are `setEditingPackage({...editingPackage, name: …})` and the slot dialog's status and notes controls. Each replaces the whole draft, which `EditPackage` and `EditAvailabilitySlot` already cover.
- The availability panel's `selectedDateSlots` view and `calendarMode` state are not modelled. Both are presentation only.
- `Profile.ProfilePanel.HandleInputChange` requires the value's kind to fit the field. The specialties field takes a list and every other field takes a text. The source's union type would also let a caller pass a mismatched pair, but no caller does.
- The optional `isPopular` field of a package is modelled as a `bool`. An absent flag is `false`, which is how the source's conditionals treat `undefined`.
- Prices are integers. Fractional prices from `Number(e.target.value)` and the floating-point division in the average are not modelled.
- The static pages and display-only components are not part of this model. These are `Hero`, `Navbar`, `PhotographerCard`, `FeaturedPhotographers` and `src/pages/*`.

## Findings

| source | as written | input that shows it | evidently intended | confidence | as-written member | corrected member |
|---|---|---|---|---|---|---|
| src/components/PhotographerPortfolio.tsx:82-83 | every file's callback saves the images captured when the upload began plus its own image, so each callback overwrites the previous one | two files uploaded onto an empty portfolio leave one image, the second file's | every uploaded file's image is added, in file order | not executed | Portfolio.UploadAsWrittenLosesImages | Portfolio.UploadAllAppends |

The panel's `CompleteUpload` and `UploadFiles` model the callbacks as written. `AppendUpload` and `UploadFilesAsIntended` are the corrected callback and upload, proved against `UploadAll`.
