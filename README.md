# Markeet campus marketplace: a verified model of its client and notification core

Markeet is a campus marketplace web application (Next.js with a Supabase
backend). This project models in Dafny the parts of it that hold the
application's own logic, and proves properties of that model:

- **Search feed** (`search_feed.dfy`, module `SearchFeed`): the search page's
  eight text filters, read from the URL query and written back to it; the
  offset-paged result list, which a fresh search replaces and a continuation
  extends; the infinite-scroll guard; the active-filter count; and the
  removable filter pills. The page is a class `SearchPage` whose methods update
  its state the way the component's setters do.
- **Listing wizard** (`listing_wizard.dfy`, module `ListingWizard`): the
  three-step create/edit listing form (class `CreateListing`): per-step
  validation, step navigation, case-insensitive tag de-duplication, the
  five-image cap, the condition toggle and the listing record a submission
  stores.
- **Profile editor** (`profile_editor.dfy`, module `ProfileEditor`): the
  profile settings form (class `ProfileSection`): required fields, the
  ten-skill cap with duplicate rejection, the avatar size and type checks,
  change detection, confirm-save and cancel.
- **Account settings** (`account_settings.dfy`, module `AccountSettings`):
  the change-password checks and the typed "DELETE" account deletion (class
  `AccountSection`).
- **Favorite toggle** (`favorite_toggle.dfy`, module `FavoriteToggle`): the
  listing card's optimistic favorite flip, the write it schedules and how each
  write outcome sets the flag (class `ListingCard`).
- **Notifications** (`notifications.dfy`, module `Notifications`): the
  server-side broadcast to every profile in batches of 100 with sent/failed
  counting, the tag-overlap score, the de-duplication by seller and top-5
  ranking that picks which sellers hear about a new wish, the ranked wishes
  reported to the seller of a new offer, and the admin broadcast.
- **Share card** (`share_card.dfy`, module `ShareCard`): the Open Graph image
  route: the fallback card, the truncated title, the cover image and the
  star rating.
- **Route guard** (`route_guard.dfy`, module `RouteGuard`): the middleware's
  redirect of signed-out users away from protected routes.
- **App shell** (`app_shell.dfy`, module `AppShell`): the app provider's
  signed-in user, footer visibility by path, and the sign-out redirect
  (class `AppProvider`).
- **Service worker** (`service_worker.dfy`, module `ServiceWorker`): the push
  handler's notification options and the click handler's choice of URL and
  window.
- **Text** (`text.dfy`, module `Text`): the JavaScript string operations the
  rest relies on (`trim`, `toLowerCase`, `startsWith`, `includes`, `filter`
  by inequality, the `|| null` fallback for an empty string, decimal
  rendering of a count), with their properties.

Collaborators that the model cannot see — the database, the auth service,
file uploads, the browser's clients API — become parameters: each method that
talks to them takes the answer they gave as an argument (for example
`CompleteSearch(reset, data)` receives the rows the search returned, and
`Persist(current, ready, outcome)` the outcome of the favorites write).
An asynchronous handler that awaits such an answer in the middle is split at
the await: `StartSearch` issues the request and `CompleteSearch` applies its
answer.

Points where the code does something one might not expect, modelled as
written:

- `hasMore` after a search is read from the FIRST returned row's `has_more`
  column; an empty page ends the feed (`SearchFeed.MoreAfter`).
- A continuation's answer is applied whatever filters are current when it
  arrives; nothing discards a stale answer.
- When a favorites write fails, the flag is set to `!current`, which is the
  value the optimistic click already showed, so a failed click is not undone
  (`FavoriteToggle.ListingCard.Persist`).
- When the user is gone by the time the scheduled write runs, the flag is
  cleared but loading is never reset, so every later click on that card is
  ignored (`FavoriteToggle.SignedOutBeforePersist`).
- A seller rating that rounds above 5 makes the second `repeat` count
  negative, so the share-card route throws instead of drawing a card
  (`ShareCard.RatingStars`, `ShareCard.ShareImage`).
- The protected-route list holds only `/profile/me`; every other entry is
  commented out in the source.

## Model

| member | source | states |
|---|---|---|
| Text.Trim | src/app/create/listing/page.tsx:208-217 | the trimmed text is a piece of the input with only whitespace before and after it; it is empty exactly when the input is all JavaScript whitespace, and otherwise neither starts nor ends with whitespace |
| Text.TrimIdempotent | src/app/create/listing/page.tsx:216 | a tag or skill stored after trimming is unchanged by trimming it again |
| Text.Lower | src/app/create/listing/page.tsx:211 | lower-casing keeps the length and maps each character on its own (ASCII letters) |
| Text.LowerIdempotent | src/app/create/listing/page.tsx:211 | lower-casing twice is lower-casing once, so the case-insensitive comparison is stable |
| Text.AppendKeepsDistinct | src/app/create/listing/page.tsx:210-216 | appending a value that matches no entry ignoring case keeps a list free of case-insensitive duplicates |
| Text.RemoveAll | src/app/settings/components/profile-section.tsx:177-182 | filtering out a value removes every copy of it and keeps the count of every other value |
| Text.RemoveAllAppend | src/app/create/listing/page.tsx:560 | filtering a concatenation filters each part |
| Text.RemoveAllAbsent | src/app/create/listing/page.tsx:560 | removing a value the list does not hold leaves the list as it was |
| Text.RemoveAllKeepsDistinct | src/app/create/listing/page.tsx:560 | removing a tag keeps the remaining tags free of case-insensitive duplicates |
| Text.OrNone | src/app/create/listing/page.tsx:272 | an empty string becomes the missing value (an unset condition is stored as null, an empty search filter is sent as undefined) and any other is kept |
| Text.NatToString | src/utils/send-server-notifications.ts:195 | a count renders as a non-empty string of decimal digits, a single digit below ten |
| SearchFeed.Get | src/app/search/search-page.tsx:70-81 | a query lookup finds a value exactly when the key occurs, and the value found is paired with the key in the query |
| SearchFeed.GetAppend | src/app/search/search-page.tsx:70-81 | a lookup returns the first pair with the key: a pair appended after an existing key is not seen |
| SearchFeed.RemoveKey | src/app/search/search-page.tsx:106-118 | removing a key leaves no pair with it and every other key's lookup unchanged |
| SearchFeed.SetParam | src/app/search/search-page.tsx:106-118 | after setting a key its lookup is the new value, every other key reads as before, and a new key is appended at the end |
| SearchFeed.WrittenDistinct | src/app/search/search-page.tsx:106-118 | writing entries with distinct keys, skipping empty values, yields exactly the non-empty entries in order |
| SearchFeed.GetNonEmpty | src/app/search/search-page.tsx:106-118 | in the written query each key reads back its own value when it is non-empty and is absent otherwise |
| SearchFeed.NonEmptyEntries | src/app/search/search-page.tsx:106-118 | every written pair has a non-empty value and comes from the entries |
| SearchFeed.Serialize | src/app/search/search-page.tsx:106-113 | the serialized query is empty exactly when there are no pairs |
| SearchFeed.Href | src/app/search/search-page.tsx:113 | the address is the bare path exactly when the query is empty |
| SearchFeed.SyncToUrl | src/app/search/search-page.tsx:106-118 | the URL written is the search path with the query built from the entries' non-empty values |
| SearchFeed.ParseFilters | src/app/search/search-page.tsx:70-81 | the sort is never empty and each filter is either its default or a value the query pairs with its key |
| SearchFeed.ParseFiltersField | src/app/search/search-page.tsx:70-81 | each filter is the query's non-empty value for its key, else its default ("newest" for sort, empty otherwise) |
| SearchFeed.FilterEntriesAt | src/app/search/search-page.tsx:177-186 | the entries the page writes pair each filter with its own URL key |
| SearchFeed.FilterEntriesDistinct | src/app/search/search-page.tsx:177-186 | the eight URL keys written are distinct |
| SearchFeed.SyncQueryIsNonEmptyFields | src/app/search/search-page.tsx:177-186 | the URL query of a filter state is exactly its non-empty filters in the written order |
| SearchFeed.SyncQueryGet | src/app/search/search-page.tsx:177-186 | in the URL query each filter's key reads back the filter when non-empty and is absent when empty |
| SearchFeed.RoundTrip | src/app/search/search-page.tsx:70-118 | parsing the URL written for a filter state gives back that state, except that an empty sort comes back as "newest" |
| SearchFeed.ParseSyncParse | src/app/search/search-page.tsx:70-118 | filters read from any URL survive being written back and read again unchanged |
| SearchFeed.BareSearchPath | src/app/search/search-page.tsx:113 | the page navigates to the bare search path exactly when every filter is empty |
| SearchFeed.WithField | src/app/search/search-page.tsx:333 | a setter changes its own filter to the value and no other filter |
| SearchFeed.SelectValue | src/app/search/search-page.tsx:515-516 | a select's value is stored as empty exactly when it is empty or "all" |
| SearchFeed.CountNonEmpty | src/app/search/search-page.tsx:236-242 | the count of non-empty values is at most their number and zero exactly when all are empty |
| SearchFeed.ActiveFilterCount | src/app/search/search-page.tsx:236-242 | the badge count is at most five and zero exactly when category, condition, hall and both prices are empty |
| SearchFeed.ActiveFilterCountSum | src/app/search/search-page.tsx:236-242 | the badge counts one for each of the five sheet filters that is set |
| SearchFeed.ActiveFilterCountIgnores | src/app/search/search-page.tsx:236-242 | the text query, offer type and sort never change the badge count |
| SearchFeed.ClearSheet | src/app/search/search-page.tsx:645-651 | the sheet's Clear leaves no active filter and keeps the query, offer type and sort |
| SearchFeed.PillsAgreeWithCount | src/app/search/search-page.tsx:236-296 | there are never more pills than the badge counts, and there are none exactly when the count is zero |
| SearchFeed.HasPillExact | src/app/search/search-page.tsx:255-296 | a pill for category, condition, hall or price is shown exactly when that filter is set (price: either bound) |
| SearchFeed.ClearPillRemovesIt | src/app/search/search-page.tsx:426 | clearing a shown pill removes that pill and lowers the badge count |
| SearchFeed.RequestFor | src/app/search/search-page.tsx:130-141 | the request asks for one page of 20 at the given offset with the current text and sort |
| SearchFeed.MoreAfter | src/app/search/search-page.tsx:152-156 | a missing or empty page ends the feed, and a page whose first row says more rows exist keeps it going |
| SearchFeed.ShouldLoadMore | src/app/search/search-page.tsx:221 | the next page is asked for only when the sentinel is visible, the feed has not ended and nothing is loading |
| SearchFeed.SearchPage.constructor | src/app/search/search-page.tsx:70-88 | the page starts with the filters parsed from the URL, no results, offset 0, more assumed and a first load pending |
| SearchFeed.SearchPage.CategoriesLoaded | src/app/search/search-page.tsx:96-103 | loaded categories replace the list and a failed load keeps the old one |
| SearchFeed.SearchPage.SetField | src/app/search/search-page.tsx:333 | typing in a filter changes that filter only |
| SearchFeed.SearchPage.PickFromSelect | src/app/search/search-page.tsx:587-588 | choosing "all" in the category or hall select clears that filter |
| SearchFeed.SearchPage.StartSearch | src/app/search/search-page.tsx:121-141 | a search starts loading and requests offset 0 when fresh, the current offset when continuing |
| SearchFeed.SearchPage.CompleteSearch | src/app/search/search-page.tsx:143-159 | a fresh search's rows replace the results and a continuation's are appended; the offset advances by a page; more pages follow unless the first row says otherwise; loading ends |
| SearchFeed.SearchPage.ApplyFilters | src/app/search/search-page.tsx:201-214 | a filter change writes the URL for the current filters and starts a fresh search |
| SearchFeed.SearchPage.OnIntersect | src/app/search/search-page.tsx:217-232 | scrolling to the end requests the next page exactly when more rows exist and nothing is loading |
| SearchFeed.SearchPage.ActiveCount | src/app/search/search-page.tsx:236-242 | the page's badge count is at most five |
| SearchFeed.SearchPage.ClearAllFilters | src/app/search/search-page.tsx:244-253 | clearing resets every filter, leaving no active filter and the sort at "newest" |
| SearchFeed.SearchPage.ClearSheetFilters | src/app/search/search-page.tsx:645-651 | the sheet's Clear empties the five sheet filters only |
| SearchFeed.SearchPage.GetActivePills | src/app/search/search-page.tsx:255-296 | the pills shown are the active pills of the current filters and categories |
| SearchFeed.SearchPage.ClearPillFilters | src/app/search/search-page.tsx:426 | a pill's clear empties the filter it stands for |
| SearchFeed.ScrollToEnd | src/app/search/search-page.tsx:143-225 | a full first page at offset 0 lets one scroll ask for offset 20, a second scroll while it loads asks nothing, and a short second page appends its rows and ends the feed |
| ListingWizard.PriceExamples | src/app/create/listing/page.tsx:177-181 | "2500" and "0.5" are prices; empty, "0", "-3" and "0.00" are missing; "abc" is not reported missing because it parses to NaN |
| ListingWizard.StepErrorsExact | src/app/create/listing/page.tsx:169-187 | a step's errors are empty exactly when the step is complete, and each message appears exactly when its check fails; the review step has none |
| ListingWizard.DetailsStepErrors | src/app/create/listing/page.tsx:173-176 | the details step reports the title and the description exactly when each is blank |
| ListingWizard.PhotosStepErrors | src/app/create/listing/page.tsx:177-181 | the photo step reports no photo, no category and a missing or non-positive price, each exactly when it holds |
| ListingWizard.TitleBeforeDescription | src/app/create/listing/page.tsx:173-176 | with both blank the title error comes before the description error |
| ListingWizard.TakeAtMost | src/app/create/listing/page.tsx:223-229 | the chosen files kept are the first ones, no more than the room left |
| ListingWizard.RemoveAt | src/app/create/listing/page.tsx:427-428 | removing at a valid index drops exactly that element; an invalid index changes nothing |
| ListingWizard.SubmittedImages | src/app/create/listing/page.tsx:274 | the stored images are the kept existing URLs followed by the new uploads |
| ListingWizard.Toggled | src/app/create/listing/page.tsx:349 | clicking the chosen condition clears it; clicking another chooses it |
| ListingWizard.ToggleTwice | src/app/create/listing/page.tsx:349 | a double click on an option drops any other earlier choice and leaves nothing chosen; on the chosen option it leaves that option chosen |
| ListingWizard.CreateListing.constructor | src/app/create/listing/page.tsx:100-122 | the form starts empty on step 1 with the offer id from the URL |
| ListingWizard.CreateListing.Edit | src/app/create/listing/page.tsx:381 | an input changes its own field only |
| ListingWizard.CreateListing.StartLoadingExisting | src/app/create/listing/page.tsx:139-165 | loading an existing offer shows the loading state |
| ListingWizard.CreateListing.LoadedExisting | src/app/create/listing/page.tsx:156-163 | the loaded offer fills the form, with missing condition, tags and images as empty |
| ListingWizard.CreateListing.LoadFailed | src/app/create/listing/page.tsx:149-154 | a failed or empty fetch of the offer shows the not-found toast and navigates home |
| ListingWizard.CreateListing.ValidateStep | src/app/create/listing/page.tsx:169-187 | validation stores the step's errors and succeeds exactly when the step is complete |
| ListingWizard.CreateListing.Next | src/app/create/listing/page.tsx:191-198 | Next advances one step forward exactly when the current step is complete; otherwise it stays, shows that step's errors and keeps the slide direction |
| ListingWizard.CreateListing.Back | src/app/create/listing/page.tsx:200-204 | Back goes one step back and clears the errors |
| ListingWizard.CreateListing.AddTag | src/app/create/listing/page.tsx:208-221 | Enter with a non-blank tag appends it trimmed unless it matches a tag ignoring case, which sets the duplicate error; tags stay free of case-insensitive duplicates |
| ListingWizard.CreateListing.RemoveTag | src/app/create/listing/page.tsx:560 | removing a tag removes every copy of it and keeps tags distinct |
| ListingWizard.CreateListing.UploadImages | src/app/create/listing/page.tsx:223-229 | picked files are appended up to the room left, so there are never more than five images |
| ListingWizard.CreateListing.RemoveExistingImage | src/app/create/listing/page.tsx:427-428 | removing an existing image drops that one URL |
| ListingWizard.CreateListing.RemoveNewImage | src/app/create/listing/page.tsx:454 | removing a new image drops that one file |
| ListingWizard.CreateListing.ToggleCondition | src/app/create/listing/page.tsx:349 | a condition button toggles the choice |
| ListingWizard.CreateListing.SubmitDisabled | src/app/create/listing/page.tsx:594 | the submit button is enabled exactly when nothing is submitting or loading and the photo step's requirement of an image holds |
| ListingWizard.CreateListing.IsEditMode | src/app/create/listing/page.tsx:100-101 | the page edits an offer exactly when the URL carries a non-empty `oid` |
| ListingWizard.FailureMessage | src/app/create/listing/page.tsx:321-325 | the failure toast says update in edit mode and create otherwise |
| ListingWizard.CreateListing.Listing | src/app/create/listing/page.tsx:264-276 | the stored record is an active product of the signed-in seller with the form's title, description, category, price text and tags, the existing then the new images, and the condition or null |
| ListingWizard.CreateListing.Submit | src/app/create/listing/page.tsx:231-330 | a mobile submit before the last step is ignored; without a user nothing is stored; with a user the listing is saved exactly when every upload and the write succeed, and otherwise fails with the create or update message of the mode; a saved listing is the form's record, is an update exactly in edit mode and goes to its own page; submitting always ends |
| ProfileEditor.InitialProfile | src/app/settings/components/profile-section.tsx:80-86 | name, avatar URL, headline, bio and skills come from the signed-in user, each missing one empty, and every field is empty without a user |
| ProfileEditor.ValidateExact | src/app/settings/components/profile-section.tsx:184-195 | the form has no errors exactly when name, headline and bio are non-blank and there is a skill |
| ProfileEditor.AvatarCheck | src/app/settings/components/profile-section.tsx:122-130 | an avatar is accepted exactly when it is at most 5 MB and an image; size is checked first |
| ProfileEditor.DiffersExact | src/app/settings/components/profile-section.tsx:327-335 | without a new avatar the form has changes exactly when it differs from the profile outside the avatar URL |
| ProfileEditor.ProfileSection.HasChanges | src/app/settings/components/profile-section.tsx:327-335 | a pending avatar always counts as a change; without one the form has changes exactly when it differs from the saved profile outside the avatar URL |
| ProfileEditor.ProfileSection.constructor | src/app/settings/components/profile-section.tsx:80-88 | the section starts with the form equal to the profile and no changes |
| ProfileEditor.ProfileSection.InputChange | src/app/settings/components/profile-section.tsx:101-109 | typing changes that field and clears its error only |
| ProfileEditor.ProfileSection.AvatarChosen | src/app/settings/components/profile-section.tsx:115-139 | a rejected file sets the avatar error; an accepted one clears it and opens the cropper |
| ProfileEditor.ProfileSection.CropComplete | src/app/settings/components/profile-section.tsx:141-148 | a finished crop sets the new avatar and its preview, closes the cropper and counts as a change |
| ProfileEditor.ProfileSection.CropDismissed | src/app/settings/components/profile-section.tsx:568-569 | closing the cropper drops its image |
| ProfileEditor.ProfileSection.SetNewSkill | src/app/settings/components/profile-section.tsx:481 | typing sets the pending skill |
| ProfileEditor.ProfileSection.AddSkill | src/app/settings/components/profile-section.tsx:150-175 | on any loaded skill list, Enter with a non-blank skill is refused at ten or more skills or on a case-insensitive duplicate, keeping the input, and otherwise appends it trimmed and clears the input and the error; a list within ten and free of duplicates stays so |
| ProfileEditor.ProfileSection.RemoveSkill | src/app/settings/components/profile-section.tsx:177-182 | on any loaded skill list, removing a skill filters out every copy and changes nothing else; a list within ten and free of duplicates stays so |
| ProfileEditor.ProfileSection.ValidateForm | src/app/settings/components/profile-section.tsx:184-195 | validation stores the field errors and succeeds exactly when the form is complete |
| ProfileEditor.ProfileSection.SaveClick | src/app/settings/components/profile-section.tsx:197-201 | Save opens the confirmation only for a complete form |
| ProfileEditor.ProfileSection.DismissConfirm | src/app/settings/components/profile-section.tsx:540 | Cancel in the confirmation closes it |
| ProfileEditor.ProfileSection.ConfirmSave | src/app/settings/components/profile-section.tsx:203-317 | saving succeeds exactly when signed in, any new avatar uploaded and the writes succeed; then the profile becomes the form with the avatar URL and no change remains; otherwise nothing but the dialog changes |
| ProfileEditor.ProfileSection.Cancel | src/app/settings/components/profile-section.tsx:319-325 | Cancel restores the form to the profile and leaves no change |
| AccountSettings.PasswordCheck | src/app/settings/components/account-section.tsx:52-60 | a new password is accepted exactly when it has at least 6 characters and matches the confirmation; length is checked first |
| AccountSettings.MessageOr | src/app/settings/components/account-section.tsx:75 | the fallback message is shown exactly when the error's message is empty or is the fallback |
| AccountSettings.AcceptedIsClickable | src/app/settings/components/account-section.tsx:203 | the disabled update button never hides a pair the checks accept |
| AccountSettings.AccountSection.UpdateButtonDisabled | src/app/settings/components/account-section.tsx:203 | the update button is disabled while a change runs and is enabled only when both fields hold something |
| AccountSettings.AccountSection.DeleteButtonDisabled | src/app/settings/components/account-section.tsx:292 | the delete button is enabled exactly when "DELETE" is typed and no deletion runs |
| AccountSettings.AccountSection.constructor | src/app/settings/components/account-section.tsx:36-47 | the section starts with the form closed, empty fields and no dialog |
| AccountSettings.AccountSection.TogglePasswordForm | src/app/settings/components/account-section.tsx:122 | the row opens and closes the password form |
| AccountSettings.AccountSection.TypePassword | src/app/settings/components/account-section.tsx:151-154 | typing sets that field and clears the error |
| AccountSettings.AccountSection.ToggleVisibility | src/app/settings/components/account-section.tsx:160 | an eye button flips its own field's visibility |
| AccountSettings.AccountSection.ChangePassword | src/app/settings/components/account-section.tsx:49-79 | a rejected pair shows its reason and calls nothing; a successful update clears the fields and closes the form; a failed one shows the service's message or the fallback |
| AccountSettings.AccountSection.SetDeleteModal | src/app/settings/components/account-section.tsx:239 | the dialog opens and closes |
| AccountSettings.AccountSection.TypeDeleteConfirm | src/app/settings/components/account-section.tsx:277 | typing sets the confirmation text |
| AccountSettings.AccountSection.DeleteAccount | src/app/settings/components/account-section.tsx:86-107 | without a user nothing happens; otherwise the dialog closes and the text clears whatever happens, and only success goes to the login page |
| AccountSettings.DeleteThenRetry | src/app/settings/components/account-section.tsx:292 | after any deletion attempt the delete button is disabled until "DELETE" is typed again |
| FavoriteToggle.ListingCard.constructor | src/components/listing-card.tsx:89-90 | a card starts unfavorited and idle |
| FavoriteToggle.ListingCard.CheckStatus | src/components/listing-card.tsx:96-120 | the flag becomes whether the row exists; "no rows" clears it; other errors leave it |
| FavoriteToggle.ListingCard.Click | src/components/listing-card.tsx:181-200 | signed out shows a prompt; while loading a click is ignored; otherwise the flag flips and a write carrying the old value is scheduled |
| FavoriteToggle.ListingCard.Persist | src/components/listing-card.tsx:123-175 | a favorited listing is deleted and any other inserted; a duplicate insert counts as favorited; any other failure shows an error and sets the flag to the negated old value |
| FavoriteToggle.ClickThenPersist | src/components/listing-card.tsx:123-200 | a click and its write leave the card idle and showing the opposite of before, whatever the write's outcome |
| FavoriteToggle.DoubleClick | src/components/listing-card.tsx:190 | a second click before the write finishes schedules nothing |
| FavoriteToggle.SignedOutBeforePersist | src/components/listing-card.tsx:126-130 | a write that finds no user clears the flag and leaves the card loading, so later clicks are ignored |
| Notifications.CountDelivered | src/utils/send-server-notifications.ts:50-56 | sent notifications are at most the calls made |
| Notifications.CountDeliveredAppend | src/utils/send-server-notifications.ts:50-56 | counting batch by batch adds up to counting all results |
| Notifications.CountDeliveredAll | src/utils/send-server-notifications.ts:50-56 | every call counts as sent exactly when every one was fulfilled with success |
| Notifications.Chunks | src/utils/send-server-notifications.ts:36-37 | the batches, joined, are the profiles in order; each is non-empty and at most 100 long, and all but the last are full |
| Notifications.ChunksCount | src/utils/send-server-notifications.ts:36-37 | there are as many batches as 100 goes into the profile count, rounded up |
| Notifications.ChunkAt | src/utils/send-server-notifications.ts:36-37 | the k-th batch is the profiles from 100k up to 100 further or the end |
| Notifications.Addressed | src/utils/send-server-notifications.ts:40-47 | one notification per recipient, in order, each with the same payload |
| Notifications.SendToAll | src/utils/send-server-notifications.ts:10-81 | a profile error and an empty list are reported without sending; otherwise everyone is sent to in batches of 100 with a pause between batches, and sent plus failed is the total |
| Notifications.SendInBatches | src/utils/send-server-notifications.ts:36-68 | the loop counts every delivered result as sent and the rest as failed, over batches of 100, pausing between batches |
| Notifications.CountBatch | src/utils/send-server-notifications.ts:50-56 | a batch's sent and failed add up to its size, sent being the delivered ones |
| Notifications.DelaysBetweenBatches | src/utils/send-server-notifications.ts:64-68 | the pauses are one fewer than the batches, none for 100 users or fewer |
| Notifications.LowerAll | src/utils/send-server-notifications.ts:111 | every tag is lower-cased in place |
| Notifications.CountMembersAppend | src/utils/send-server-notifications.ts:115-116 | the overlap count of a concatenation is the sum of the parts' |
| Notifications.CountMembersExtremes | src/utils/send-server-notifications.ts:115-116 | the count is the full length exactly when every tag matches and zero exactly when none does |
| Notifications.Overlap | src/utils/send-server-notifications.ts:115-116 | the overlap is at most the number of the offer's tags |
| Notifications.OverlapBounds | src/utils/send-server-notifications.ts:111-116 | no tags on either side means no overlap; the overlap is full exactly when every tag is in the other set |
| Notifications.OverlapCountsRepeats | src/utils/send-server-notifications.ts:115-116 | a repeated matching tag counts twice |
| Notifications.SellerScores | src/utils/send-server-notifications.ts:114-121 | each offer is scored by its seller and its tag overlap, in order |
| Notifications.FindSeller | src/utils/send-server-notifications.ts:114-121 | a seller is found exactly when listed, at an index holding that seller |
| Notifications.Upsert | src/utils/send-server-notifications.ts:118 | a known seller keeps its place and a new one is appended |
| Notifications.UpsertCases | src/utils/send-server-notifications.ts:118 | a seller's score is replaced only by a strictly higher score |
| Notifications.SellerMapOrder | src/utils/send-server-notifications.ts:114-121 | the de-duplicated sellers are every seller once, in order of first offer |
| Notifications.SellerMapMax | src/utils/send-server-notifications.ts:114-121 | each seller keeps the highest overlap among their offers |
| Notifications.SellerMapFrom | src/utils/send-server-notifications.ts:114-121 | each kept entry is the score of one of the seller's offers |
| Notifications.DedupBySeller | src/utils/send-server-notifications.ts:114-121 | the loop builds exactly the per-seller best scores |
| Notifications.InsertByScore | src/utils/send-server-notifications.ts:124 | insertion adds the element and loses none |
| Notifications.SortDesc | src/utils/send-server-notifications.ts:124 | sorting is a permutation |
| Notifications.InsertKeepsSorted | src/utils/send-server-notifications.ts:124 | insertion keeps descending score order |
| Notifications.SortDescSorted | src/utils/send-server-notifications.ts:124 | the sort orders by descending score |
| Notifications.SortDescStable | src/utils/send-server-notifications.ts:124 | equal scores keep their input order, as a stable sort does |
| Notifications.SortKeepsDistinct | src/utils/send-server-notifications.ts:124 | sorting distinct sellers keeps them distinct |
| Notifications.Take | src/utils/send-server-notifications.ts:125 | slicing keeps the first min(length, n) elements |
| Notifications.TopIsBest | src/utils/send-server-notifications.ts:124-125 | the top five are sorted, come from the input, and score at least as high as anything left out |
| Notifications.TopSellersProperties | src/utils/send-server-notifications.ts:114-126 | at most five distinct sellers, in descending score, each having an offer, none beaten by a seller left out, and at least one when there are offers |
| Notifications.WishMatchPayload | src/utils/send-server-notifications.ts:129-139 | a seller's notice is a wish match linking to the wish |
| Notifications.NotifyMatchingSellers | src/utils/send-server-notifications.ts:83-140 | nothing is sent without the wish or any offer; otherwise each top seller gets the wish notice, between one and five |
| Notifications.WishScores | src/utils/send-server-notifications.ts:174-182 | each wish is scored by its tag overlap with the offer, in order |
| Notifications.RankWishes | src/utils/send-server-notifications.ts:174-182 | up to five of the fetched wishes are ranked |
| Notifications.SellerWishNotification | src/utils/send-server-notifications.ts:142-201 | the seller is notified exactly when the offer was found and wishes exist, with an offer-match payload |
| Notifications.OfferMatchOne | src/utils/send-server-notifications.ts:184-191 | one wish gives the single-buyer text quoting its title and a link to it |
| Notifications.OfferMatchMany | src/utils/send-server-notifications.ts:192-199 | more than one wish gives the count of ranked wishes (2 to 5) and a link to the wanted board |
| Notifications.AdminNotifications | src/utils/send-server-notifications.ts:203-220 | every admin gets the payload, none when the query gave no rows |
| ShareCard.Cover | src/app/api/og/route.tsx:23 | the cover is the first image unless missing or empty |
| ShareCard.DisplayTitle | src/app/api/og/route.tsx:122-124 | a title over 55 characters becomes its first 52 and "...", and a shorter one is kept |
| ShareCard.DisplayTitleFits | src/app/api/og/route.tsx:122-124 | the shown title fits in 55 characters and shortening it again changes nothing |
| ShareCard.Round | src/app/api/og/route.tsx:24-27 | rounding gives the nearest integer, halves up |
| ShareCard.Repeat | src/app/api/og/route.tsx:24-27 | repeating gives n copies of the character |
| ShareCard.RatingStars | src/app/api/og/route.tsx:24-27 | no stars exactly for a rating of zero or below; five stars in all, unless the rating rounds above 5, which throws |
| ShareCard.StarsCount | src/app/api/og/route.tsx:24-27 | a rating rounding to n shows n filled stars then 5 - n empty ones |
| ShareCard.StarsExamples | src/app/api/og/route.tsx:24-27 | 4.5 shows five filled stars, 0.2 five empty ones, 0 none, and 5.6 throws |
| ShareCard.ShareImage | src/app/api/og/route.tsx:7-219 | the uncached fallback card is drawn exactly when the id or the offer is missing; a found offer gives a cached 1200 by 630 card with its cover, shortened title, star text (none for a rating of at most 0) and seller name, or throws exactly when its rating rounds above 5 |
| RouteGuard.ProtectedExactly | src/lib/supabase/middleware.ts:40-53 | the protected paths are exactly /profile/me and the paths below it |
| RouteGuard.Decide | src/lib/supabase/middleware.ts:56-62 | a signed-out request for a protected path is redirected to the login page with the rest of its URL kept; every other request passes |
| RouteGuard.RedirectSettles | src/lib/supabase/middleware.ts:56-60 | the login page a redirect leads to passes through |
| AppShell.DisableFooter | src/providers/app-provider.tsx:137-141 | the footer is hidden when any listed path occurs in the pathname, in particular when the pathname starts with one |
| AppShell.ShowFooter | src/providers/app-provider.tsx:155-160 | the footer and its padding show exactly for a signed-in user on a page whose footer is not disabled |
| AppShell.DisableFooterExamples | src/providers/app-provider.tsx:66-88 | the footer is hidden on the create, auth and settings paths and shown on home and search |
| AppShell.DisableFooterExtends | src/providers/app-provider.tsx:137-141 | a path containing a hidden path anywhere hides the footer too |
| AppShell.AppProvider.constructor | src/providers/app-provider.tsx:101-104 | the shell starts with the server's user and the footer flag for the first path |
| AppShell.AppProvider.OnAuthEvent | src/providers/app-provider.tsx:107-126 | signing out clears the user and goes to the login page; other events change nothing |
| AppShell.AppProvider.OnPathnameChange | src/providers/app-provider.tsx:137-141 | the footer flag follows the new path |
| AppShell.AppProvider.FooterShown | src/providers/app-provider.tsx:155-160 | the footer is never shown to a signed-out visitor and always shown to a signed-in one on a page whose footer is not disabled |
| AppShell.SignOutHidesFooter | src/providers/app-provider.tsx:155-160 | after signing out the footer is hidden |
| ServiceWorker.OrDefault | public/sw.js:5-12 | an empty or missing icon or badge falls back to the default |
| ServiceWorker.OnPush | public/sw.js:1-16 | a push without data shows nothing; otherwise its title and body with default icon, badge, data and actions filled in |
| ServiceWorker.PushDefaults | public/sw.js:5-12 | a push with only a title gets the default icon, badge, empty data and no actions |
| ServiceWorker.Candidates | public/sw.js:24-34 | an action's own URL is tried first, then url, then actionUrl |
| ServiceWorker.FirstTruthy | public/sw.js:28-34 | the first non-empty candidate wins, else the fallback |
| ServiceWorker.UrlToOpen | public/sw.js:18-34 | the URL opened is never empty, an action's URL when it has one, else the data's url |
| ServiceWorker.FirstTruthyNonEmpty | public/sw.js:28-34 | a non-empty fallback makes the choice non-empty |
| ServiceWorker.UrlToOpenFallbacks | public/sw.js:18-34 | with no URL in the data the home page opens; an action without a URL acts as a plain click |
| ServiceWorker.ChooseWindow | public/sw.js:36-51 | the first focusable window is focused and navigated; with none a new window opens when possible |
| ServiceWorker.OnNotificationClick | public/sw.js:18-51 | the click navigates or opens the chosen URL, and opens nothing only when no window can focus and none can be opened |

## Left out

- Percent-encoding and decoding of URL query values: the query is an ordered list of name/value pairs.
- The 300 ms debounce of the text query, effect ordering and the first-load flag: the model calls the search methods in the order a client would trigger them.
- Unicode case mapping and the full Unicode whitespace set: `Text.Lower` maps ASCII letters only and `Text.IsSpace` holds the common JavaScript whitespace characters.
- ListingWizard.PriceMissing: `Number(...)` is modelled for plain decimal literals only; exponents, hexadecimal, "Infinity" and surrounding whitespace are not.
- ShareCard.Round: the seller rating is modelled as an exact real number, not a double.
- `toLocaleString` price formatting and UTF-16 lengths: Dafny strings count code points, so a title or a password holding characters outside the Basic Multilingual Plane is shorter in the model than in the source.
- AccountSettings.PasswordCheck: tests `|newPassword| < 6` in code points where the source's `newPassword.length < 6` counts UTF-16 code units; a password of three astral-plane emoji is six units and is accepted by the source but rejected by the model.
- SearchFeed.RequestFor: sends the price bounds as their entered text; the source sends `Number(priceMin)` and `Number(priceMax)` when they are non-empty, and that conversion is not modelled.
- ListingWizard.CreateListing.Listing: stores the price as its entered text rather than `Number(price)`, and leaves out the `turnaround_days: null` column.
- ListingWizard.CreateListing.LoadFailed: the navigation home is returned as a path; the page's unmounting and the loading flag that stays set are not modelled further.
- Database, storage, auth and push-service calls: their answers are parameters of the methods.
- Cookie handling and session refresh in the middleware, and the `setUser` function the app context hands out.
- Canvas cropping, `FileReader` and object URLs in the profile editor: a finished crop arrives as a file name and a preview URL.
- The bio's 500-character input limit and the character counter.
- Server-side query filters and limits (20 offers, 10 wishes, category, type and status filters): the model receives the rows the queries return.
- The share-card route's `type` parameter and the card's layout and styling.
- ProfileEditor.ProfileSection.AddSkill: each handler reads the current `errors` object; the stale closure React may hand an event handler is not modelled.
- Notifications.SendToAll: returns the batches and the pause count rather than the individual calls; `Promise.allSettled` runs a batch's calls concurrently, which the model treats as one step.
- Service-worker notification data values are modelled as strings, and `notification.close()` is not modelled.
- The favorite button's 500 ms debounce of the scheduled write: `Persist` runs the write a click scheduled, and the timer that would merge rapid writes is not modelled.
- Console logging.
