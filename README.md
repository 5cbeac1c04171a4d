# pulse_pluse blood-request core, modelled in Dafny

pulse_pluse is a blood-donation service: an Express/MongoDB backend with a
React client. People post blood requests. The backend finds compatible,
available donors near the request and sends each of them a notification.
Donors answer "interested", "confirmed" or "declined", and those answers go
into a per-request ledger that the requester reads as a summary. Blood banks
publish an inventory per blood type. Users keep a profile that they update
field by field.

This project models that core and proves its properties:

- `Compatibility`: the ABO/Rh tables. The backend has two copies, one for
  dispatch and one for the directory search. They differ only in what an
  unknown type yields. The table is proved equal to an independent
  antigen-based statement of the transfusion rule.
- `Dispatch`: `notifyNearbyDonors`, which covers the search radius, the
  eligibility query and the per-donor loop that builds one notification per
  donor found. Also the bulk `markAllAsRead` update.
- `NotificationModel`: the notification document. This covers the `expiresAt`
  default, the two pre-save hooks, `markAsRead`, `markAsClicked`, `dismiss`,
  `createBloodRequestNotification`, `getUnreadCount` and `cleanupExpired`.
  The document is a class whose methods assign its fields. The store queries
  run over value snapshots of those documents.
- `BloodRequests`: creation and its validation, status updates, the
  directory search of compatible donors, the response ledger upsert and its
  two notifications, and the response summary.
- `BloodBanks`: the inventory merge, the listing filter and its pagination,
  the search by type, and the availability summary.
- `Users`: the registration guard, the partial profile update, the
  donor-search criteria and the donor location line.
- `NotificationReducer`, `RequestForm` and `Dashboard`: the client's
  notification reducer, the request form's submit checks, and the
  dashboard's tab filter, display mappings and tab counters.
- `Common`, `JsText` and `Models`: the shared vocabulary.
  - `JsText` holds the JavaScript string semantics the code relies on:
    `trim`, ASCII case mapping, `parseInt` and number rendering.
  - `Models` holds the schema-derived `User`, `BloodRequest` and `BloodBank`
    classes.

Time is an integer `now` in milliseconds. Two functions are parameters of
the model: the great-circle distance `distanceKm`, already rounded to whole
kilometres, and the `$geoWithin`/`$centerSphere` test `geoWithin`. A
document store is a sequence of objects, and a query is a function over that
sequence. A failure of a store call is an `Option<string>` parameter wherever
the code catches it and reports it.

## Model

| member | source | states |
|---|---|---|
| Compatibility.DispatchCompatibleTypes | backend/controller/notification.js:302-315 | every known type lists itself and `O-`; `AB+` lists all eight types; `O-` lists only `O-`; an unknown type yields the empty list; every listed type is known, and none is listed twice |
| Compatibility.DirectoryCompatibleTypes | backend/controller/bloodRequest.js:254-265 | the same table as dispatch for a known type; an unknown type falls back to the list holding just that type |
| Compatibility.AntigensOfKnownTypes | backend/controller/notification.js:303-312 | each of the eight type names denotes its A, B and Rh(D) antigens |
| Compatibility.TableIsTransfusionRule | backend/controller/notification.js:303-312 | for a known recipient, a donor type is listed if and only if it is known and carries no antigen the recipient lacks |
| Dispatch.SearchRadiusKm | backend/controller/notification.js:234 | the radius is 50 km exactly when the urgency is `Critical`, and 25 km otherwise |
| Dispatch.FindNearbyDonors | backend/controller/notification.js:237-252 | the result is a subsequence of the store; it holds exactly the donors that are donors, available and of a compatible type, and inside the circle when the request has coordinates |
| Dispatch.NoLocationNoGeoFilter | backend/controller/notification.js:242-251 | without request coordinates, eligibility ignores the geometry: every available compatible donor qualifies |
| Dispatch.UnknownTypeNotifiesNobody | backend/controller/notification.js:314 | a request of an unknown type finds no donor |
| Dispatch.DistanceFor | backend/controller/notification.js:260-268 | the distance is 0 unless both the request and the donor have coordinates, and otherwise the rounded distance between them |
| Dispatch.BuildNotifications | backend/controller/notification.js:257-279 | one fresh notification per donor, in donor order, each the blood-request notification built for that donor with that donor's distance |
| Dispatch.NotifyNearbyDonors | backend/controller/notification.js:228-298 | a failed query or a failed insert is returned as a failure and nothing is stored; otherwise one stored notification per donor found, in order, each holding the blood-request notification built for that donor, and `notificationsSent == donorsFound` |
| Dispatch.MarkAllAsRead | backend/controller/notification.js:91-104 | exactly the caller's unread, unexpired notifications become read at `now` with status `Read`; every other row is unchanged |
| Dispatch.MarkAllLeavesOthers | backend/controller/notification.js:91-104 | marking one user's notifications leaves any other user's unread count as it was |
| Dispatch.MarkAllAsReadClearsUnread | backend/controller/notification.js:91-104 | afterwards the caller has no unread notification, other users' counts are unchanged, and consistent rows stay consistent |
| NotificationModel.DefaultExpiresAt | backend/model/Notification.js:129-136 | expiry is 24 hours after creation for a blood-request notification and 168 hours after for any other kind |
| NotificationModel.Created | backend/model/Notification.js:76-136 | a new notification is pending, unread, consistent, carries its content and is not yet expired |
| NotificationModel.SaveHooks | backend/model/Notification.js:260-273 | the status becomes `Expired` exactly when it was already `Expired` or the clock is past `expiresAt`; `sentAt` is set to `now` only on a change to `Sent` when it was unset; nothing else changes |
| NotificationModel.ReadRow | backend/model/Notification.js:176-183 | after `markAsRead` and the save the row is read; an earlier `readAt` is kept, otherwise it is `now`; the status is `Read` unless expired; nothing else changes |
| NotificationModel.ClickRow | backend/model/Notification.js:186-194 | after `markAsClicked` the status is `Clicked`, or `Expired` when past expiry; `clickedAt` is `now`; it becomes read, and an earlier `readAt` is kept |
| NotificationModel.DismissRow | backend/model/Notification.js:197-201 | after `dismiss`, from any state, `dismissedAt` is `now` and the status is `Dismissed`, or `Expired` when past expiry; the read state is untouched |
| NotificationModel.LifeCycleKeepsValid | backend/model/Notification.js:176-201 | save, read, click and dismiss each keep the row consistent: read exactly when `readAt` is set, `Read` or `Clicked` only when read, a read row never `Pending` or `Sent`, and a clicked or dismissed status with its timestamp |
| NotificationModel.ReadIsIdempotent | backend/model/Notification.js:176-183 | a second `markAsRead` changes nothing but what the save hooks do, and at the same instant nothing at all |
| NotificationModel.ClickKeepsFirstRead | backend/model/Notification.js:186-194 | clicking again, or clicking after reading, keeps the first `readAt` |
| NotificationModel.ExpiryOverridesDismiss | backend/model/Notification.js:268-273 | a dismissed notification past its expiry is saved as `Expired` |
| NotificationModel.Notification.NewIsCreated | backend/model/Notification.js:76-136 | a notification just built is consistent and its row is the created row |
| NotificationModel.Notification.constructor | backend/model/Notification.js:76-136 | a new document holds its content with the schema defaults |
| NotificationModel.Notification.Save | backend/model/Notification.js:260-273 | saving applies the two pre-save hooks to the stored fields |
| NotificationModel.Notification.MarkAsRead | backend/model/Notification.js:176-183 | the new fields are `ReadRow` of the old ones, and the document stays consistent |
| NotificationModel.Notification.MarkAsClicked | backend/model/Notification.js:186-194 | the new fields are `ClickRow` of the old ones, and the document stays consistent |
| NotificationModel.Notification.Dismiss | backend/model/Notification.js:197-201 | the new fields are `DismissRow` of the old ones, and the document stays consistent |
| NotificationModel.DistancePhrase | backend/model/Notification.js:211 | the message says "nearby" exactly when the distance is 0 |
| NotificationModel.DistancePhraseReadsBack | backend/model/Notification.js:211 | a non-zero distance can be read back from its phrase by `parseInt` |
| NotificationModel.ParseIntOfNatToStringThen | backend/model/Notification.js:211 | `parseInt` of a rendered number followed by non-digit text gives the number |
| NotificationModel.CreateBloodRequestNotification | backend/model/Notification.js:204-240 | the title starts with `URGENT: ` and the priority is `Critical` if and only if the urgency is `Critical`, otherwise the priority is `High`; in-app and push are on, email and SMS follow the recipient's preferences; there are exactly two buttons, `donate` then `view`, both opening the request |
| NotificationModel.RequestNotificationMessage | backend/model/Notification.js:211 | the factory's message is `RequestMessage` of the distance phrase and the type: it starts with `Someone ` and names the distance phrase and the blood type |
| NotificationModel.RequestMessage | backend/model/Notification.js:211 | the notification's message contains the distance phrase and the needed blood type |
| NotificationModel.InfixAt | backend/model/Notification.js:211 | a text holding a string at some position contains it |
| NotificationModel.UnreadCount | backend/model/Notification.js:251-257 | the count is zero exactly when no row is addressed to the user, unread and unexpired |
| NotificationModel.CleanupExpired | backend/model/Notification.js:243-248 | cleanup keeps a subsequence of the rows, and a row is kept exactly when it is not both past its expiry and dismissed or expired |
| NotificationModel.CleanupKeepsUnreadCount | backend/model/Notification.js:243-257 | cleanup never changes anyone's unread count |
| NotificationModel.BloodRequestNotificationLapsesAfterADay | backend/model/Notification.js:129-136 | a blood-request notification is unread after 23 hours and no longer counted after 25; any other kind still counts after 25 hours |
| Models.User.constructor | backend/controller/user.js:36-40 | a registered user holds the name and email it is given and starts as a non-donor, unverified, available, at the default coordinates, with empty links and no phone, address, district, blood type or description |
| Models.UpperEach | backend/model/User.js:51-55 | each value of a list is cast through the `uppercase` setter, position by position |
| Models.UpperEachOfKnownTypes | backend/model/User.js:51-55 | the cast leaves a list of the eight type names as it is |
| Models.ParseRequestStatus | backend/model/BloodRequest.js:67-71 | a status string is accepted only under the name of the status it yields |
| Models.ParseRequestStatusName | backend/model/BloodRequest.js:67-71 | every status is accepted under its own name |
| Models.BloodRequest.constructor | backend/controller/bloodRequest.js:42-63 | a new request holds the supplied fields, is `Pending`, has an empty ledger and is not fulfilled |
| BloodRequests.RequestLocation | backend/controller/bloodRequest.js:55-61 | the location is `[longitude, latitude]` only when both are given and non-zero, and the schema's default point otherwise |
| BloodRequests.RequestFields | backend/controller/bloodRequest.js:42-63 | the built document holds the upper-cased group, the trimmed district and hospital, the units, phone, description and emergency flag as given, urgency `Medium` when none was given and the request location |
| BloodRequests.ValidateNewRequest | backend/controller/bloodRequest.js:25-66 | a missing required field is rejected first; an appointment not strictly after `now` is rejected next; an unreadable date fails validation; a complete request with a future appointment is accepted exactly when the schema accepts its built document, and the accepted value is that document |
| BloodRequests.CreatedRequestDefaults | backend/controller/bloodRequest.js:53-61 | a request created without an urgency is `Medium`, and one without coordinates sits at the default point |
| BloodRequests.CreateBloodRequest | backend/controller/bloodRequest.js:8-78 | a rejected input returns the validation error and sends no notification; an accepted one gives a fresh `Pending`, unfulfilled request with an empty ledger holding every validated field, followed by the dispatch: the query or insert failure when one occurs, and otherwise one fresh notification per donor found, in order, each built for that donor and the new request |
| BloodRequests.UpdateBloodRequestStatus | backend/controller/bloodRequest.js:195-225 | only the requester or an admin may update; a status outside the enum is rejected and nothing changes; notes are replaced only when given; `Fulfilled` records who fulfilled the request and when; the ledger is untouched |
| BloodRequests.DirectoryMatches | backend/controller/bloodRequest.js:267-281 | the result is a subsequence of the store holding exactly the verified, available donors of a listed type, as the `uppercase` cast stores it, in a matching district |
| BloodRequests.SearchCompatibleDonors | backend/controller/bloodRequest.js:242-290 | a missing blood group is rejected, and any other group always succeeds with the directory matches |
| BloodRequests.DirectoryAndDispatch | backend/controller/bloodRequest.js:254-272 | for a known type and no district, a donor the directory lists is notified by dispatch exactly when inside the search circle, and an unverified donor inside the circle is notified but never listed |
| BloodRequests.LowerCaseGroupListsOnlyItsOwnType | backend/controller/bloodRequest.js:254-272 | a lower-case group such as `a+` misses the table, and the cast makes the query list exactly the `A+` donors |
| BloodRequests.ParseReaction | backend/controller/bloodRequest.js:304-309 | only `interested`, `confirmed` and `declined` are accepted, each as the reaction of that name |
| BloodRequests.ParseReactionName | backend/controller/bloodRequest.js:304-309 | every reaction is accepted under its own name |
| BloodRequests.ReactionMappings | backend/controller/bloodRequest.js:338-370 | distinct reactions give distinct ledger statuses; the priority is `Critical` exactly for a confirmation and `Medium` exactly for a decline |
| BloodRequests.FindEntry | backend/controller/bloodRequest.js:331-333 | the lookup finds the first entry of the donor, and nothing exactly when the donor has no entry |
| BloodRequests.Upsert | backend/controller/bloodRequest.js:335-351 | an existing entry is updated in place, otherwise one entry is appended; other entries are unchanged; the donor then has an entry; at most one entry per donor is preserved |
| BloodRequests.UpsertLastWins | backend/controller/bloodRequest.js:335-351 | answering twice is answering once with the later answer |
| BloodRequests.RecordResponse | backend/controller/bloodRequest.js:335-351 | the ledger becomes the upsert of the old ledger, stays free of duplicates, and nothing else changes |
| BloodRequests.MessageTail | backend/controller/bloodRequest.js:372-414 | a donor's message adds text exactly when it is non-empty |
| BloodRequests.RequesterNotice | backend/controller/bloodRequest.js:352-414 | the requester's notice has the reaction's priority; a confirmation has two buttons, `contact` then `view`, and any other reaction only `view`; the donor's message ends it; the location is the schema default `[0, 0]` at distance 0 |
| BloodRequests.DonorAcknowledgment | backend/controller/bloodRequest.js:417-436 | the donor's acknowledgment is always `Medium` priority with one `view` button and a capitalised reaction in its title; the location is the schema default `[0, 0]` at distance 0 |
| BloodRequests.LongDonorMessageIsRefused | backend/controller/bloodRequest.js:380 | a donor message of 490 characters or more takes the requester's notice past the 500-character limit on `message`, so its save is refused |
| BloodRequests.QuotedTailIsKept | backend/controller/bloodRequest.js:380 | the `trim` setter keeps the quoted donor message from its `Message:` on, so the stored message is at least that long |
| BloodRequests.ShortAcknowledgmentSaves | backend/controller/bloodRequest.js:417-436 | the acknowledgment passes the title and message validators whenever the group and hospital name total at most 442 characters |
| BloodRequests.AcknowledgmentTitles | backend/controller/bloodRequest.js:420 | the titles read "Response Recorded: Interested", "... Confirmed" and "... Declined" |
| BloodRequests.RespondToBloodRequest | backend/controller/bloodRequest.js:297-446 | the response type is rejected before any lookup or change; a missing request or donor changes nothing and saves no notice; once both are found the ledger always holds the upsert and nothing else of the request changes; a requester notice the schema refuses ends in a validation error with no notice, an acknowledgment it refuses in a validation error with only the requester's notice saved; success holds exactly when both pass, with both saved, the requester's first |
| BloodRequests.CountStatus | backend/controller/bloodRequest.js:502-504 | a status count never exceeds the ledger length |
| BloodRequests.CountsPartition | backend/controller/bloodRequest.js:500-505 | confirmed, interested and declined add up to the ledger length |
| BloodRequests.ResponseSummary | backend/controller/bloodRequest.js:500-505 | `total` is the ledger length, each count is the number of entries with that status, and the three counts add up to `total` |
| BloodRequests.UpsertMovesSummary | backend/controller/bloodRequest.js:335-351 | a new answer adds one to its status's count; a changed answer moves one entry from the old status to the new one |
| BloodRequests.GetBloodRequestResponses | backend/controller/bloodRequest.js:463-505 | a missing request and a caller who is not the owner are rejected; the owner of an existing request always succeeds, with the ledger and its `ResponseSummary` |
| BloodBanks.LastSupplied | backend/controller/bloodBank.js:150-156 | a type has a supplied value exactly when the body names it |
| BloodBanks.Merge | backend/controller/bloodBank.js:150-156 | the merge keeps the inventory's keys; a key takes its last supplied value and every other key keeps its count; unknown keys are ignored |
| BloodBanks.UpdateBloodInventory | backend/controller/bloodBank.js:135-171 | a missing bank is rejected; the update succeeds exactly when the merged counts are all non-negative, and then the merged inventory is stored with `lastInventoryUpdate` at `now`, also when no inventory is given; a rejected merge changes nothing |
| BloodBanks.MergeOfUnknownKeys | backend/controller/bloodBank.js:150-156 | a body naming only unknown types leaves the inventory as it was |
| BloodBanks.ListedBanks | backend/controller/bloodBank.js:9-13 | the listing holds, in order, exactly the active banks of the district asked for |
| BloodBanks.WithStock | backend/controller/bloodBank.js:23-27 | the blood-group filter keeps, in order, exactly the banks with more than zero units of that group |
| BloodBanks.CeilDiv | backend/controller/bloodBank.js:35 | `totalPages` is the total divided by the limit, rounded up |
| BloodBanks.Skip | backend/controller/bloodBank.js:14 | `skip` is the number of banks on the pages before this one |
| BloodBanks.PageOf | backend/controller/bloodBank.js:14-20 | the page holds up to `limit` banks: the listed banks from `skip` on, in order |
| BloodBanks.ListedBankOnItsPage | backend/controller/bloodBank.js:9-20 | every listed bank is on the page its position gives, at its position within that page |
| BloodBanks.PaginationOf | backend/controller/bloodBank.js:33-40 | `totalPages` is the rounded-up quotient and `totalBanks` the total; `hasNext` holds if and only if the page is before the last one; `hasPrev` holds if and only if `page > 1` |
| BloodBanks.GetAllBloodBanks | backend/controller/bloodBank.js:5-48 | the page is the slice of the listing at `Skip(page, limit)`, filtered by stock of the blood group when one is asked for; the pagination counts the listing without the group filter |
| BloodBanks.PaginationIgnoresGroup | backend/controller/bloodBank.js:17-40 | the pagination does not depend on the blood-group filter |
| BloodBanks.BanksHolding | backend/controller/bloodBank.js:183-190 | the search keeps, in order, exactly the listed banks holding at least the required units |
| BloodBanks.SearchBloodBanksByType | backend/controller/bloodBank.js:174-209 | a missing blood group is rejected; for one of the eight inventory types, a `minUnits` that `parseInt` reads as `NaN` is rejected by the cast, and exactly then; for one of them with a number, the call always succeeds with the banks holding at least the threshold; any other group finds no bank |
| BloodBanks.DefaultMinUnitsIsStock | backend/controller/bloodBank.js:186-189 | without `minUnits` the threshold is 1 unit, so a listed bank is returned exactly when it has stock of the group |
| BloodBanks.AvailabilitySummary | backend/controller/bloodBank.js:212-251 | `totalBanks` is the number of listed banks, and the units hold exactly the eight types, each totalled over the listed banks |
| BloodBanks.SummaryNonNegative | backend/model/BloodBank.js:46-55 | valid inventories add up to a non-negative total per type |
| Users.CheckRegistration | backend/controller/user.js:11-33 | missing fields are rejected first, then a password shorter than 6 characters; the email is refused as taken exactly when the fields are present, the password is long enough and some user holds the email as the lower-case and trim setters cast it; registration proceeds exactly when none applies |
| Users.RegisterUser | backend/controller/user.js:6-71 | a rejected registration returns the error `CheckRegistration` gives; one that passes it but whose trimmed name or cast email the schema refuses fails validation; it succeeds exactly when both pass, creating a fresh user with the given id, the trimmed name and the lower-cased, trimmed email, who is not a donor, not verified and available, and whose document the schema accepts |
| Users.SaveRefusesWhatTheGuardsLetThrough | backend/model/User.js:5-18 | a name of spaces and the email `foo` both pass the controller's guards but not the save |
| Models.EmailPatternExamples | backend/model/User.js:17 | the email pattern accepts `a@x.io` and refuses `foo` and `a@x` |
| Users.Overwrite | backend/controller/user.js:194-202 | a supplied value replaces the stored one, and an absent one keeps it |
| Users.SetBy | backend/model/User.js:5-55 | a supplied value is passed through its field's setter, and an absent one stays absent |
| Users.LastLink | backend/controller/user.js:205-212 | a platform's value, when there is one, is a defined value supplied for it, and there is none exactly when every value supplied for it is undefined |
| Users.MergeLinksMeaning | backend/controller/user.js:205-212 | the merged links are the stored platforms plus the supplied ones; each supplied platform takes its last defined value, and every other platform keeps its link |
| Users.MergeLinksKeepsOthers | backend/controller/user.js:205-212 | a platform not supplied with a defined value keeps its link |
| Users.MergeSocialMedia | backend/controller/user.js:205-212 | the loop over the supplied platforms computes the merged links, and with no `socialMedia` in the body the links are unchanged |
| Users.NewLocation | backend/controller/user.js:223-226 | the location becomes `[longitude, latitude]` only when both are supplied |
| Users.ApplyContact | backend/controller/user.js:194-199 | each of name, email, phone, address, district and blood type is overwritten only when supplied, through its schema setter: trim, lower case and trim, or upper case |
| Users.ApplyDonorDetails | backend/controller/user.js:200-212 | date of birth, donor flag and description are overwritten only when supplied, and the links are merged |
| Users.ApplyAvailability | backend/controller/user.js:215-226 | availability is merged sub-key by sub-key, and the location follows `NewLocation` |
| Users.ApplyProfileUpdate | backend/controller/user.js:194-226 | every field is its update by the body through the field's setter, and verification and preferences are unchanged |
| Users.UpdateProfile | backend/controller/user.js:153-252 | a missing user is rejected; a truthy email that differs from the stored string and whose cast form some user already holds is rejected with no change; an update whose result the schema refuses (name, email pattern, phone pattern, lengths, blood-type enum) fails validation with nothing stored; otherwise the update is applied field by field and the stored document is valid |
| Users.SaveProfile | backend/controller/user.js:194-229 | assignments followed by a save the validators accept store the update and leave a valid document |
| Users.ProfileSaveRefusals | backend/model/User.js:5-55 | an empty name, the blood type `X` and an email failing the pattern make the profile save fail |
| Users.OwnEmailInOtherCaseIsInUse | backend/controller/user.js:183-191 | resubmitting one's own email in another case trips the check, because the raw strings differ and the cast query finds the caller |
| Users.MixedCaseEmailIsCast | backend/model/User.js:11-17 | `A@x.io` is cast to the different string `a@x.io` |
| Users.IntendedConflictIsAnotherUser | backend/controller/user.js:183-191 | comparing the cast email instead never refuses one's own email, and refuses only an email stored for another user |
| Users.SearchCriteria | backend/controller/user.js:364-376 | `isDonor: true` is always required; the blood type and the district only when given and not `all`; availability only when `isAvailable` is the string `true` |
| Users.BuildSearchCriteria | backend/controller/user.js:364-376 | the criteria object is built by the conditional assignments |
| Users.SearchFindsDonors | backend/controller/user.js:364-378 | a user matches the criteria exactly when they are a donor, of the given type upper-cased and in the given district trimmed unless these are absent or `all`, and available when `isAvailable` is `true` |
| Users.DonorLocation | backend/controller/user.js:325 | the line is "address, district" when both are present, whichever one is present otherwise, and "Location not specified" when neither is |
| NotificationReducer.UnreadIn | client/src/contexts/NotificationContext.jsx:14-76 | the number of unread entries is zero exactly when every entry is read |
| NotificationReducer.MarkRead | client/src/contexts/NotificationContext.jsx:33-37 | the matching entries become read and the others are unchanged |
| NotificationReducer.MarkAll | client/src/contexts/NotificationContext.jsx:45-48 | every entry becomes read |
| NotificationReducer.WithoutId | client/src/contexts/NotificationContext.jsx:57 | removal keeps, in order, every entry with another id and none with that id |
| NotificationReducer.FindById | client/src/contexts/NotificationContext.jsx:54 | the lookup finds an entry with that id exactly when there is one |
| NotificationReducer.Decrement | client/src/contexts/NotificationContext.jsx:38 | `Math.max(0, n - 1)` is never negative, is `n - 1` for positive `n` and 0 for `n <= 1` |
| NotificationReducer.Reduce | client/src/contexts/NotificationContext.jsx:14-76 | one reducer step never makes a non-negative counter negative |
| NotificationReducer.CounterNeverNegative | client/src/contexts/NotificationContext.jsx:14-76 | however many actions are applied, the counter never becomes negative |
| NotificationReducer.ReduceEffects | client/src/contexts/NotificationContext.jsx:14-76 | ADD prepends one unread entry and adds 1; MARK_AS_READ only sets `read` on the entries with that id and decrements the counter, floored at 0, whatever the entry was; MARK_ALL_AS_READ leaves nothing unread and a count of 0; REMOVE leaves no entry with the id and, with unique ids, decrements the counter exactly when the removed entry was unread; CLEAR yields the initial state; an unknown action changes nothing |
| NotificationReducer.UnreadOfMarkRead | client/src/contexts/NotificationContext.jsx:30-37 | marking an id read lowers the number of unread entries by one exactly when that entry was unread |
| NotificationReducer.UnreadOfWithoutId | client/src/contexts/NotificationContext.jsx:53-62 | removing an id lowers the number of unread entries by one exactly when the entry found was unread |
| NotificationReducer.WithoutAbsentId | client/src/contexts/NotificationContext.jsx:53-62 | removing an id that is not present changes nothing |
| NotificationReducer.ReduceKeepsConsistent | client/src/contexts/NotificationContext.jsx:14-76 | the reducer as written keeps the counter equal to the unread entries, provided every MARK_AS_READ names an unread entry |
| NotificationReducer.MarkAsReadMiscounts | client/src/contexts/NotificationContext.jsx:38 | from a consistent state with one read and one unread entry, marking the read one again drops the counter to 0 while one entry is still unread |
| NotificationReducer.ReduceIntended | client/src/contexts/NotificationContext.jsx:30-40 | the corrected reducer differs only in MARK_AS_READ, where it decrements only when the target was unread |
| NotificationReducer.IntendedKeepsConsistent | client/src/contexts/NotificationContext.jsx:14-76 | the corrected reducer keeps the counter equal to the unread entries, and the ids unique, for every action |
| RequestForm.MissingIn | client/src/pages/RequestBlood.jsx:90-110 | the missing labels are no more than the fields checked |
| RequestForm.MissingInLabels | client/src/pages/RequestBlood.jsx:90-110 | a label is listed exactly when one of the fields it belongs to is empty or whitespace only |
| RequestForm.MissingFields | client/src/pages/RequestBlood.jsx:100-105 | the loop pushes, in declaration order, the label of each missing required field |
| RequestForm.NothingMissing | client/src/pages/RequestBlood.jsx:106-110 | the form proceeds exactly when no required field is missing |
| RequestForm.MissingAfterEarlyChecks | client/src/pages/RequestBlood.jsx:62-110 | once the early checks pass, only the blood group, the date and the description can still be listed |
| RequestForm.GetUrgencyLevel | client/src/pages/RequestBlood.jsx:138-145 | `normal` maps to Low, `urgent` to High, `critical` to Critical, and anything else to Medium; the result is always one of the server's urgency levels |
| RequestForm.EmergencyIsCritical | client/src/pages/RequestBlood.jsx:159 | the emergency flag holds exactly when the urgency sent is Critical, which is exactly when dispatch uses the 50 km radius |
| RequestForm.HandleSubmit | client/src/pages/RequestBlood.jsx:51-132 | each check, in source order, yields its own error once the earlier ones pass: sign-in, blood group, date, then blank phone, units, district and hospital, the missing-field list, units outside 1..10, the phone pattern, a past date; a request is sent exactly when all pass, and carries the form's fields, the parsed units and the mapped urgency |
| Dashboard.FilteredRequests | client/src/pages/BloodRequestDashboard.jsx:134-140 | the tab keeps, in order, exactly the requests whose lower-cased status is the tab, or all of them under `all` |
| Dashboard.AllTabShowsEverything | client/src/pages/BloodRequestDashboard.jsx:135 | the `all` tab shows every request unchanged |
| Dashboard.FilterIgnoresCase | client/src/pages/BloodRequestDashboard.jsx:138-139 | the filter sees a status and its lower-cased form alike |
| Dashboard.StatusDisplay | client/src/pages/BloodRequestDashboard.jsx:143-161 | ignoring case, each text is shown exactly for its own statuses: pending for Pending, approved for Approved, in-progress or fulfilled for In Progress, completed for Completed, cancelled or expired for Cancelled, anything else Unknown |
| Dashboard.UrgencyDisplay | client/src/pages/BloodRequestDashboard.jsx:164-178 | ignoring case: critical or high gives Critical, urgent or medium Urgent, anything else Normal |
| Dashboard.DisplaysIgnoreCase | client/src/pages/BloodRequestDashboard.jsx:144-165 | both mappings see a string and its lower-cased form alike |
| Dashboard.ServerStatusesDisplay | client/src/pages/BloodRequestDashboard.jsx:143-161 | no status the server stores is displayed as Unknown, and a fulfilled one is displayed as In Progress |
| Dashboard.CardOf | backend/controller/bloodRequest.js:150-158 | a request the server returns has its id and status but no `urgency`, only `urgencyLevel` |
| Dashboard.CardUrgency | client/src/pages/BloodRequestDashboard.jsx:201 | a card without `urgency` shows the Normal badge |
| Dashboard.CriticalRequestShownAsNormal | client/src/pages/BloodRequestDashboard.jsx:383 | a `Critical` request from the server is badged Normal as written and Critical as intended |
| Dashboard.CardUrgencyIntended | client/src/pages/BloodRequestDashboard.jsx:164-178 | the corrected badge uses `urgency` when set, so the sample cards are unchanged, and the server's `urgencyLevel` otherwise |
| Dashboard.ServerUrgenciesShownAsIntended | backend/model/BloodRequest.js:45-49 | under the corrected badge, Low shows Normal, Medium shows Urgent, and High or Critical shows Critical, each exactly |
| Dashboard.CountExact | client/src/pages/BloodRequestDashboard.jsx:321-325 | an exact-match count never exceeds the number of requests, and is zero exactly when no card has that status |
| Dashboard.TabCount | client/src/pages/BloodRequestDashboard.jsx:319-325 | the `all` count is the number of requests; any other count is an exact, case-sensitive match |
| Dashboard.TabCountIntended | client/src/pages/BloodRequestDashboard.jsx:319-325 | the corrected count, which counts the cards the tab shows, never exceeds the number of requests |
| Dashboard.IntendedCountMatchesFilter | client/src/pages/BloodRequestDashboard.jsx:134-140 | the corrected count is the length of the list under the tab, and it agrees with the written count on `all` |
| Dashboard.PendingTabMiscounts | client/src/pages/BloodRequestDashboard.jsx:321 | a `Pending` request, as the server stores it, is shown under the `pending` tab but counted 0 there |
| Dashboard.ServerStatusesMissTwoTabs | client/src/pages/BloodRequestDashboard.jsx:323-324 | no status the server stores is ever shown under the `in-progress` or the `completed` tab |
| JsText.Trim | client/src/pages/RequestBlood.jsx:72-102 | `trim()` leaves nothing exactly when the text is empty or only whitespace, and never lengthens the text |
| JsText.TrimKeepsSpan | backend/model/Notification.js:27-32 | `trim()` keeps everything between the first and the last non-space character |
| JsText.ToLowerIdempotent | client/src/pages/BloodRequestDashboard.jsx:138 | lower-casing twice is lower-casing once |
| JsText.ParseIntOfDigits | client/src/pages/RequestBlood.jsx:113 | `parseInt` of a plain decimal string is its value |
| JsText.ParseIntOfNatToString | backend/model/Notification.js:211 | `parseInt` reads back the rendering of any non-negative integer |

## Left out

- The great-circle distance (`calculateDistance`) is floating-point trigonometry. It is the parameter `distanceKm`, already rounded to whole kilometres as the caller rounds it.
- `$geoWithin`/`$centerSphere` is the parameter `geoWithin`. The Earth radius and the spherical geometry it uses are not modelled.
- MongoDB's `find`, `insertMany`, `updateMany`, `aggregate` and `populate` become functions over sequences. A partial `insertMany` is not modelled: an insert either stores every notification or fails.
- Query sort orders are not modelled, and the model keeps store order. This covers donations in `searchCompatibleDonors`, names in `getAllBloodBanks` and the order of `searchBloodBanksByType`.
- `Dispatch.NotifyNearbyDonors`: the `setImmediate` that schedules it after `createBloodRequest` responds is modelled as one sequential call. `async`/`await` ordering and concurrent requests are not modelled.
- Authentication, bcrypt hashing and JWT handling are left out. The caller's id and admin flag are parameters.
- JavaScript case mapping is modelled on ASCII letters only. String length is counted in characters, not in UTF-16 code units; this affects the password length check.
- A regular-expression district or name filter is modelled as a case-insensitive substring test. Patterns with metacharacters are not modelled.
- Date parsing is not modelled. The form's `new Date(appointmentDate)` is the `appointmentAt` parameter, and the server's parsed date is the `DateInput` value.
- `parseFloat` coordinates are modelled as integers.
- `getUserNotifications` and `getNotificationStats` are left out. They are paginated and aggregated reads with no rule beyond the filters already modelled.
- The per-id `markAsRead`, `dismissNotification` and `clickNotification` controllers are left out. What they do is the document methods, which are modelled; their own lookup is a plain find by recipient.
- `NotificationReducer.Reduce`: the entry id `Date.now() + Math.random()` of ADD is the action's `newId`. A payload `id` overriding it is not modelled, and the ids are assumed fresh wherever uniqueness is proved.
- Mongoose strict mode dropping unknown `socialMedia` platforms on save is not modelled. The merged map keeps every platform supplied.
- `BloodBanks.UpdateBloodInventory` merges into a local copy. On a failed save the source has already written the counts into the in-memory document, which is discarded; that transient state is not modelled.
- `BloodBanks.PaginationOf` requires `page >= 1` and `limit >= 1`. A query string that `parseInt` reads as `NaN`, zero or a negative number is not modelled.
- `BloodBanks.GetAllBloodBanks`, `BloodBanks.Skip` and `BloodBanks.PageOf` carry the same `page >= 1` and `limit >= 1` requirement, for the same reason.
- `BloodRequests.UpdateBloodRequestStatus` models the status as always sent. An update that omits `status` is treated like any other string outside the enum.
- `BloodRequests.UpdateBloodRequestStatus`: on a refused save the source has already assigned `status`, `notes` and `fulfilledBy` in the in-memory document, which is discarded; that transient state is not modelled.
- Schema validation on save is modelled for the status enum, non-negative inventory counts, the request's field checks, the user's name, email, phone, address, blood type and description, and a notice's title and message in `respondToBloodRequest`. The password's validators are the controller's own guard. The notification validators on `createBloodRequestNotification` content, the enum on `bloodTypeNeeded` and `urgencyLevel` of a notice (both copied from a validated request), and the blood-bank contact validators are not modelled.
- `Users.UpdateProfile`: on a refused save the source has already assigned the fields of the in-memory document, which is discarded; that transient state is not modelled.
- `BloodRequests.RespondToBloodRequest`: the `trim` setters of a notice's title and message are applied by the validation test but not to the content the saved notice holds.
- `BloodBanks.SearchBloodBanksByType`: a group that is not one of the eight inventory counters is modelled as Mongoose's `strictQuery: false` behaviour, which sends the condition uncast, so no bank matches. Under `strictQuery: true` the condition would be dropped and every listed bank returned. The Mongoose version is not part of this model.
- The `User` schema declares no `notificationPreferences`, so at run time email and SMS are always off. The model keeps the field optional and proves the rule the code states.
- The requester's notice titles are modelled as stored. The source's emoji prefixes are mis-encoded in its text, so the constants hold the mis-decoded characters.
- The `User` setters are applied where a value is written or queried. The `User` constructor takes values already cast. The `$in` list of the dispatch query is not passed through the cast, since a list of the eight type names is its own cast (`Models.UpperEachOfKnownTypes`).
- Every new user and request without coordinates gets the schema's default `[0, 0]`. The dispatch location filter therefore always applies at run time; the model proves both branches.
- Seeds, routes, server wiring, diagnostics, hospitals, contact messages and the UI rendering are not part of this model.

## Findings

| source | as written | input that shows it | evidently intended | confidence | as-written member | corrected member |
|---|---|---|---|---|---|---|
| client/src/contexts/NotificationContext.jsx:38 | MARK_AS_READ always decrements `unreadCount` (floored at 0), even when the entry is already read or absent | state with entries 1 (read) and 2 (unread) and count 1; MARK_AS_READ of id 1 gives count 0 while entry 2 is still unread | decrement only when the targeted entry was unread, as REMOVE does | not executed | NotificationReducer.MarkAsReadMiscounts | NotificationReducer.IntendedKeepsConsistent |
| client/src/pages/BloodRequestDashboard.jsx:321-325 | tab counters compare `r.status` to the lower-case key exactly, while the list compares the lower-cased status | one request with status `Pending`, as the server stores it: the `pending` tab shows 1 request but counts 0 | count what the tab shows, by the same lower-cased comparison | not executed | Dashboard.PendingTabMiscounts | Dashboard.IntendedCountMatchesFilter |
| client/src/pages/BloodRequestDashboard.jsx:201, 383 | the urgency badge reads `request.urgency`, which only the built-in sample requests have; server documents carry `urgencyLevel` | any request from `my-requests`, such as one with `urgencyLevel: 'Critical'`, is badged Normal | badge the server's `urgencyLevel` when `urgency` is absent | not executed | Dashboard.CriticalRequestShownAsNormal | Dashboard.ServerUrgenciesShownAsIntended |
| backend/controller/user.js:183-191 | the email check compares the submitted string with the stored one, while `findOne` casts it to lower case and trims it | a user stored as `a@x.io` who submits `A@x.io` is refused with "Email is already in use" | compare the cast email with the stored one | not executed | Users.OwnEmailInOtherCaseIsInUse | Users.IntendedConflictIsAnotherUser |
