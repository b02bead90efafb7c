# A verified model of the travel and rental marketplace core

The system is a Django marketplace for short-term rentals. Vendors list rentable units
("location objects") with price lists. A traveller posts a search ("travel detail") with a
placement, dates and a budget. The search opens one order per matching listing, and each order
is pushed to its vendor over a web socket. A vendor answers an order with a priced offer, and
the offer is pushed to the traveller. Orders and offers that nobody answers expire after five
minutes. A paid offer is settled through a payment gateway's callback, and the traveller is then
asked to review the trip.

This project models that core in Dafny and proves what its operations promise. Pure logic
(queries, price rules, validators, signature strings) becomes functions with contracts and
lemmas. Services that change tables become classes whose fields are the tables, with methods
whose contracts state the whole new state. The loops in the source become `for` and `while`
loops with invariants.

| module | file | models |
|---|---|---|
| `Common` | common.dfy | `src/apps/common`: `get_or_none`, `get_or_error`, `filter`, `SearchByNameMixin`, `UnifiedErrorResponse`, `unified_exception_handler`; Python's `int()`, `str.split()`, `join` |
| `Permissions` | permissions.dfy | `src/apps/houserent/permissions.py` |
| `Validators` | validators.dfy | `src/apps/houserent/validators.py` |
| `Rentals` | rentals.dfy | listing records, the three `matched_price` / `current_price` rules, `parse_date`, `get_start_date_from_filter`, the placement and check querysets of `src/apps/houserent/services.py` |
| `Listings` | listings.dfy | `create_object`, `update_object`, `update_prices`, `update_facilities`, `check_or_create_if_updated` and the two delete helpers of `src/apps/houserent/services.py` (class `Catalog`) |
| `PaymentSignatures` | signatures.dfy | the signature strings, `answer` and the result tag of `src/apps/profiles/services/payment.py` |
| `Trade` | trade.dfy | the records of `src/apps/travels/models.py` and `src/apps/profiles/models/payment.py`, and the selections the travel services, broker tasks and payment service make |
| `Tables` | tables.dfy | the key and foreign-key integrity of those tables, kept by every state change |
| `Channels` | channels.dfy | the connection store, channel messages, Celery jobs, the consumers' class-level dicts and token admission (`src/apps/vendors/consumers.py`, `src/apps/profiles/consumers/user.py`) |
| `Marketplace` | marketplace.dfy | class `Market`: the travel services (`src/apps/travels/services.py`), the broker tasks (`src/apps/profiles/tasks/broker.py`), the consumers' `connect`/`disconnect`, `cancel_search`/`cancel_offer`/`accept_offer` and the payment records of `create_transaction`, `result_url` and `booking_offer` |
| `Accounts` | accounts.dfy | class `AccountStore`: `src/apps/profiles/services/user.py`, the vendor account flows of `src/apps/vendors/services.py`, `src/apps/profiles/models/managers.py` |
| `Reviews` | reviews.dfy | `src/apps/reviews/services.py` |
| `VendorOrders` | vendor_orders.dfy | `OrderListService` of `src/apps/vendors/services.py` |

Conventions of the model:
- Tables are sequences in table order. Table order stands for the models' `ordering` and for
  what `.first()` picks.
- Primary keys are naturals from a counter; the source uses UUIDs.
- A view's refusal is `Refused(status, text)`; an exception the API layer turns into a
  response is `Raised(status, detail)`; an exception nobody catches is `Crash(reason)`.
- Time is an integer number of seconds on the state's `clock`.
- `task.delay(...)` queues a job due now, and `apply_async(..., countdown=300)` queues one due
  300 seconds later. A worker takes due jobs with `Market.TakeJob`, and advancing time is
  `Market.Tick`.
- A message sent over the channel layer is appended to `outbox`. The shared Redis hash of
  connections is the map `registry` from (topic, e-mail) to channel name.
- Hashing (MD5), JWT decoding, the TOTP check, password hashing, password validation and random
  draws are parameters of the operations that use them. The merchant secret is a parameter too.

Where the system's written description and its code differ, the model follows the code:
- An offer can be created for any existing order, not only an approved one: `create_offer`
  looks the order up by id alone (deleted orders included) and approves it itself
  (`Market.CreateOffer`).
- The delivery tasks do more than notify: each run moves the row's `created_at` five minutes
  later, and the catch-up tasks `send_orders`, `send_offers` and `send_deleted_offers` raise when the
  recipient has no registered connection (`Market.SendOrderTask`, `Market.SendOrdersTask`,
  `Market.SendOffersTask`).
- An expired offer is not turned into a rejected one. It is soft-deleted, and its
  `is_accepted` stays undecided (`Market.ExpireOfferTask`).
- Availability is the loose test `price.start <= stay.start OR price.end >= stay.end`.
  `Trade.ExpiredPriceStillOpens` shows a listing priced only for an earlier month being proposed.
- The gateway answer signs its fields in the order (salt, status, description), because
  `answer` passes them to `create_answer_sig` out of order (`PaymentSignatures.AnswerFor`).

## Model

| member | source | states |
|---|---|---|
| Common.Filter | src/apps/common/services.py:26-28 | an element is in the result iff it is in the table and matches; never longer than the table |
| Common.GetOrNone | src/apps/common/services.py:9-17 | Found iff exactly one row matches, and the found row is in the table and matches; NothingFound iff no row matches (more matches are the uncaught MultipleObjectsReturned) |
| Common.GetOrError | src/apps/common/services.py:19-24 | the row under that key iff the key exists, otherwise a raised 404 with "Object not found" |
| Common.SearchByName | src/apps/common/mixins.py:3-8 | only live rows; without `name`, exactly the live rows; with it, exactly the live rows whose upper-cased name contains the upper-cased `name` |
| Common.KyrgyzSearchMatches | src/apps/common/mixins.py:7 | a search for "көл" matches "КӨЛ": the Kyrgyz letters fold like the Russian ones |
| Common.GreekTonosSearchMatches | src/apps/common/mixins.py:7 | a search for "άγιος" matches "Άγιος": accented Greek capitals fold with their small letters |
| Common.UpperUndoesLower | src/apps/common/mixins.py:7 | upper-casing gives back every letter that lower-casing changes, so both sides of `icontains` fold to one form |
| Common.UnifiedErrorResponse | src/apps/common/exceptions.py:6-15 | HTTP status is always the class's 400; a given detail is the message, with the given code when truthy and 400 otherwise; without a detail, the default message and code "error" |
| Common.FlattenedFacts | src/apps/common/exception_handlers.py:13-21 | after flattening every key holds one message: a message is kept, a list becomes its items joined by ", "; flattening twice changes nothing |
| Common.UnifiedExceptionHandler | src/apps/common/exception_handlers.py:7-23 | an InvalidToken gives 401 with the token detail; no base response gives none; otherwise the base status with every key's list flattened |
| Common.ParseInt | src/apps/travels/services.py:373 | `int()` reads a text iff, once stripped, it is a non-empty run of digits with at most one leading sign, and a run of digits reads as its decimal value |
| Common.ParseIntRoundTrip | src/apps/travels/services.py:373-379 | `int` reads back the decimal text of any natural, with or without a minus sign |
| Common.ParseDigits | src/apps/travels/services.py:373-379 | `int` of a run of digits, with or without a leading minus, is its decimal value |
| Common.ParseIntIgnoresPadding | src/apps/travels/services.py:373-379 | surrounding spaces do not change what `int` reads |
| Common.Words | src/apps/houserent/validators.py:45-57 | every piece of `str.split()` is non-empty and free of whitespace |
| Common.WordsAtSpace | src/apps/houserent/validators.py:45-57 | splitting a text at a whitespace character gives the words of the left side followed by those of the right |
| Permissions.IsVendor | src/apps/houserent/permissions.py:4-12 | allowed iff the user is logged in, has a vendor profile and the method is GET, HEAD, OPTIONS, POST or DELETE; anonymous users never |
| Permissions.IsVendorRefusesEdits | src/apps/houserent/permissions.py:4-12 | PUT and PATCH are always refused; a vendor may POST and DELETE |
| Permissions.IsVendorOwnerOrReadOnly | src/apps/houserent/permissions.py:15-20 | anonymous gives the falsy fall-through; safe methods are granted; otherwise granted iff the vendor owns the listing; a user without a vendor profile raises |
| Permissions.AnonymousRefused | src/apps/houserent/permissions.py:4-20 | an anonymous request is refused by both permissions, whatever the method |
| Validators.ValidateDates | src/apps/houserent/validators.py:7-20 | no error iff start <= end and today <= start; an end before the start reports both fields; a start in the past reports `start_date` |
| Validators.ValidateTimes | src/apps/houserent/validators.py:22-30 | no error iff check-in is strictly later than check-out; otherwise both field messages |
| Validators.ValidateUniqueNames | src/apps/houserent/validators.py:32-43 | an error iff another listing of the same vendor has the same name |
| Validators.UniqueNameIgnoresSelfAndOthers | src/apps/houserent/validators.py:32-43 | a listing never clashes with itself or with another vendor's namesake |
| Validators.CheckPlacement | src/apps/houserent/validators.py:45-57 | accepted iff some word of the lower-cased name is a placement word; otherwise the one error listing all placement words |
| Validators.PlacementWordAccepted | src/apps/houserent/validators.py:45-57 | any name followed by a space and a placement word is accepted |
| Validators.SingleWordNeedsPlacementWord | src/apps/houserent/validators.py:45-57 | a one-word name is accepted iff its lower-case form is a placement word |
| Validators.PlacementWordIsOneWord | src/apps/houserent/validators.py:47-49 | each placement word is a single lower-case word, so it matches itself |
| Rentals.Earliest | src/apps/houserent/services.py:162-172 | the qualifying row with the smallest start date, none iff no row qualifies |
| Rentals.CurrentPrice | src/apps/houserent/services.py:156-179 | none iff no row of the listing has both ends in the query month around the query day; otherwise the price of such a row |
| Rentals.CurrentPriceNeedsOneMonth | src/apps/houserent/services.py:162-172 | a row that spans a month boundary is never the current price |
| Rentals.CurrentPriceIgnoresYear | src/apps/houserent/services.py:162-172 | the rule compares months and days only: rows of any year qualify alike |
| Rentals.LooseMatchedPrice | src/apps/vendors/services.py:146-150 | none iff no row of the listing passes the loose end-date test; otherwise the price of one that does |
| Rentals.LooseMatchedPriceIgnoresDate | src/apps/vendors/services.py:146-150 | on a listing whose rows all start before they end, the loose rule gives the same price for every travel date |
| Rentals.StrictMatchedPrice | src/apps/vendors/services.py:98-102 | none iff no row of the listing covers the travel end date; otherwise the price of a covering row |
| Rentals.StrictImpliesLoose | src/apps/vendors/services.py:146-150 | whenever the strict rule finds a price, the loose rule finds one too |
| Rentals.RulesDiffer | src/apps/vendors/services.py:146-150 | a row from March to April prices a May travel under the loose rule but not under the strict one |
| Rentals.ParseIsoDate | src/apps/houserent/services.py:112-119 | whatever `strptime("%Y-%m-%d")` accepts is a valid calendar date |
| Rentals.ParseFormatRoundTrip | src/apps/houserent/services.py:112-119 | every date from year 1000 on is read back from its ISO text |
| Rentals.ParseUnpadded | src/apps/houserent/services.py:112-119 | unpadded months and days are read; 30 February and day 75 are refused |
| Rentals.ParseDate | src/apps/houserent/services.py:112-119 | an absent or empty text means today; otherwise a valid date with its month and day, or a `ValueError` |
| Rentals.StartDateFromFilter | src/apps/houserent/services.py:382-393 | week, month and half year start 7, 30 and 182 days before now; any other filter gives none |
| Rentals.StartDatesNest | src/apps/houserent/services.py:382-393 | the longer window starts earlier, and every window starts before now |
| Rentals.PlacementQuery | src/apps/houserent/services.py:32-42 | exactly the placements that are cities or second-level regions, narrowed by name when one is given |
| Rentals.CheckQuery | src/apps/houserent/services.py:416-422 | all checks without a choice; exactly the checks with that choice otherwise |
| Listings.SubmittedIds | src/apps/houserent/services.py:307 | exactly the ids the submitted entries carry |
| Listings.ExcludeUnsubmitted | src/apps/houserent/services.py:308 | the other listings' rows and this listing's submitted rows are kept, every other row of it is deleted |
| Listings.FindPrice | src/apps/houserent/services.py:312 | the row with that id belonging to that listing, none iff there is no such row |
| Listings.FaultedEntriesDoNothing | src/apps/houserent/services.py:309-317 | once an entry has raised, the remaining entries change nothing |
| Listings.ApplyEntriesOutcome | src/apps/houserent/services.py:309-317 | after a run that raises nothing every submitted id was a row of the listing, one fresh key was used per new entry, keys stay below the counter and other listings' rows are kept |
| Listings.ApplyEntriesIds | src/apps/houserent/services.py:309-317 | after such a run the listing's ids are the ones before plus one fresh id per new entry |
| Listings.UpdatedPricesOutcome | src/apps/houserent/services.py:305-317 | after a run that raises nothing the listing's ids are exactly the submitted ids plus one fresh id per new entry; other listings' rows are untouched |
| Listings.MergeEntries | src/apps/houserent/services.py:309-317 | the loop computes what `ApplyEntries` specifies and keeps the price keys unique |
| Listings.AddFacilitiesOutcome | src/apps/houserent/services.py:336-338 | the add loop raises nothing iff every id is a facility, and has then added all of them |
| Listings.AddEach | src/apps/houserent/services.py:336-338 | the loop computes what `AddFacilities` specifies from the cleared set |
| Listings.PendingUpdatesCount | src/apps/houserent/services.py:342-344 | no pending update check iff the count of unchecked "updated" checks is zero |
| Listings.PendingUpdatesAppend | src/apps/houserent/services.py:349 | a new check adds one to the count exactly when it is an unchecked "updated" check |
| Listings.TablesValidAbove | src/apps/houserent/services.py:123-150 | raising the key counter keeps the listing tables valid |
| Listings.CreatedTablesValid | src/apps/houserent/services.py:123-150 | the tables after `create_object` are valid: fresh keys, prices and the check point at the new listing |
| Listings.UpdateCheckValid | src/apps/houserent/services.py:349 | adding an "updated" check to a listing without one keeps the tables valid, so no listing has two pending updates |
| Listings.Catalog.constructor | src/apps/houserent/services.py:123-150 | empty tables are valid |
| Listings.Catalog.CreateObject | src/apps/houserent/services.py:123-150 | the listing is appended under a fresh key; facilities are linked only when some are given (unknown ids dropped); one price row per uploaded price under fresh keys; one unchecked "created" check; nothing else changes |
| Listings.Catalog.CreatedListingHasOneCheck | src/apps/houserent/services.py:147-149 | a new listing has exactly one check, the unchecked "created" one, and no pending update |
| Listings.Catalog.UpdatePrices | src/apps/houserent/services.py:305-317 | the price table becomes `UpdatedPrices` of the old one; a raise in the loop keeps the changes made before it; other tables unchanged |
| Listings.Catalog.UpdateFacilities | src/apps/houserent/services.py:332-338 | an empty list changes nothing; otherwise the set is cleared and refilled up to the first unknown facility, which raises |
| Listings.Catalog.CheckOrCreateIfUpdated | src/apps/houserent/services.py:340-349 | a pending update raises 405 and changes nothing; otherwise one "updated" check is added; afterwards exactly one update is pending |
| Listings.Catalog.UpdateObject | src/apps/houserent/services.py:292-303 | a pending update is refused with 405 and nothing changes; otherwise one "updated" check is added; without a price list and facilities neither changes; afterwards exactly one update is pending |
| Listings.Catalog.DeletePrice | src/apps/houserent/services.py:94-101 | an unknown price raises 404 and changes nothing; otherwise only that row is soft-deleted |
| Listings.Catalog.DeleteLocation | src/apps/houserent/services.py:103-110 | an unknown location raises 404 and changes nothing; otherwise only that location is soft-deleted |
| PaymentSignatures.WithFieldsIsBasePlusFields | src/apps/profiles/services/payment.py:65-69 | the string hashed is the base followed by ";" and each argument in order |
| PaymentSignatures.WithFieldsSnoc | src/apps/profiles/services/payment.py:65-69 | each loop step appends one ";"-prefixed argument at the end |
| PaymentSignatures.HashSignature | src/apps/profiles/services/payment.py:65-69 | the digest of the base followed by the fields |
| PaymentSignatures.LinkSignatureOrder | src/apps/profiles/services/payment.py:82-94 | the payment link signs amount, description, merchant id, order id, result url, salt, testing flag and the secret, in that order |
| PaymentSignatures.InitPaymentSignatureIsFields | src/apps/profiles/services/payment.py:246-272 | the init-payment format string is the same text as the field-appending loop over its ten values |
| PaymentSignatures.StatusSignatureIsFields | src/apps/profiles/services/payment.py:290-306 | the status format string is the same text as the field-appending loop |
| PaymentSignatures.ResultTag | src/apps/profiles/services/payment.py:133 | "успешно" iff the result code is 1, else "неудачно" |
| PaymentSignatures.AnswerFor | src/apps/profiles/services/payment.py:178-212 | success answers "ok" with its two texts, anything else "rejected"; the signature hashes salt, status, description in the order `answer` passes them |
| PaymentSignatures.ResultCodeToAnswer | src/apps/profiles/services/payment.py:133 | a result code of 1 is answered "ok", any other "rejected" |
| Trade.FindDetail | src/apps/travels/models.py:163-196 | the search with that id, none iff there is none |
| Trade.FindOrder | src/apps/travels/models.py:168-199 | the order with that id, none iff there is none |
| Trade.AvailableListings | src/apps/travels/services.py:85-96 | never more listings than the table |
| Trade.AvailableListingsMembers | src/apps/travels/services.py:85-96 | a listing is proposed iff it is in the table, has the search's placement, kind and (when given) type, and has a price row opening the stay |
| Trade.AvailableListingsUnique | src/apps/travels/services.py:93-96 | `.distinct()`: no listing is proposed twice |
| Trade.NoPricesNoListings | src/apps/travels/services.py:93-96 | without an opening price row no listing is proposed |
| Trade.ExpiredPriceStillOpens | src/apps/travels/services.py:93-96 | a row that ended before the stay still opens it when it starts before the stay |
| Trade.MaxOrderNumber | src/apps/travels/services.py:376 | none iff there are no offers; otherwise an existing order number no smaller than any other (deleted offers count) |
| Trade.NextOrderNumber | src/apps/travels/services.py:376-377 | `(max or 0) + 1` is larger than every existing order number, and 1 on an empty table |
| Trade.MaxBudget | src/apps/travels/services.py:366-373 | none for an unknown order; a value is the `int()` of the `max_sum` of that order's search |
| Trade.NextOrderNumberKeepsUnique | src/apps/travels/models.py:214 | appending an offer with that number keeps order numbers unique |
| Trade.OrderIdsAwaiting | src/apps/profiles/tasks/broker.py:49-70 | exactly the ids of the vendor's unsent, live, unanswered orders |
| Trade.MarkOrdersSent | src/apps/profiles/tasks/broker.py:49-70 | exactly those rows become sent, nothing else changes |
| Trade.MarkOrdersSentEmptiesBatch | src/apps/profiles/tasks/broker.py:49-70 | after the update a second catch-up finds nothing to send |
| Trade.OfferIdsAwaiting | src/apps/profiles/tasks/broker.py:118-139 | exactly the ids of the traveller's unsent, live, unanswered offers |
| Trade.MarkOffersSent | src/apps/profiles/tasks/broker.py:118-139 | exactly those rows become sent, nothing else changes |
| Trade.MarkOffersSentEmptiesBatch | src/apps/profiles/tasks/broker.py:118-139 | after the update a second catch-up finds nothing to send |
| Trade.WithdrawnOfferIds | src/apps/profiles/tasks/broker.py:142-163 | exactly the ids of the traveller's sent, deleted, unanswered offers |
| Trade.MarkWithdrawnSentChangesNothing | src/apps/profiles/tasks/broker.py:142-163 | its `update(is_sent=True)` touches only rows already sent, so no row changes |
| Trade.CancelOffers | src/apps/profiles/services/user.py:247-252 | an offer becomes deleted iff it was, or it is the user's live, unpaid, unanswered offer; no other field changes |
| Trade.CancelOrders | src/apps/profiles/services/user.py:253-258 | an order becomes deleted iff it was, or it is the user's live unanswered order with no offer or an undecided payment |
| Trade.CancelDetails | src/apps/profiles/services/user.py:259-263 | a search becomes deleted iff it was, or it is the user's search with no order, an order without offer, or an undecided payment |
| Trade.CancelSearchSparesDecided | src/apps/profiles/services/user.py:245-264 | paid or refused offers and answered orders are never cancelled, nor an order all of whose offers have a decided payment |
| Trade.CancelSearchSparesPaidSearch | src/apps/profiles/services/user.py:259-263 | a search whose every order has offers, all decided, is not cancelled |
| Trade.CancelOffersExactly | src/apps/profiles/services/user.py:247-252 | every live, unpaid, unanswered offer of the user is cancelled, and no offer of another user |
| Trade.FilterByDate | src/apps/travels/services.py:315-331 | no date keeps the queryset; an unreadable date is an error; otherwise exactly the offers ending by (or from) that date |
| Trade.FilterPast | src/apps/travels/services.py:315-322 | no date keeps every offer; an unreadable date errors; otherwise exactly the offers whose stay ends on or before the date |
| Trade.FilterActive | src/apps/travels/services.py:324-331 | no date keeps every offer; an unreadable date errors; otherwise exactly the offers whose stay ends on or after the date |
| Trade.PastAndActiveSplit | src/apps/travels/services.py:315-331 | on one readable date, past and active offers together are all offers with a known end, overlapping only on that day |
| Trade.OrderAt | src/apps/travels/services.py:218 | the position of the order with that id, none iff no order has it |
| Trade.DetailAt | src/apps/travels/services.py:40 | the position of the search with that id, none iff no search has it |
| Trade.OfferAt | src/apps/profiles/services/payment.py:26 | the position of the offer with that id, none iff no offer has it |
| Trade.TransactionAt | src/apps/profiles/tasks/broker.py:190 | the position of the payment with that id, none iff no payment has it |
| Trade.UnsentOrderAt | src/apps/profiles/tasks/broker.py:19-25 | the live unsent order with that id, none iff there is none |
| Trade.OpenOrderAt | src/apps/profiles/tasks/broker.py:73-93 | the live unanswered order with that id, none iff there is none |
| Trade.UnsentOfferAt | src/apps/profiles/tasks/broker.py:96-115 | the live unsent offer with that id, none iff there is none |
| Trade.OpenOfferAt | src/apps/profiles/tasks/broker.py:166-185 | the live unanswered offer with that id, none iff there is none |
| Trade.LiveOfferAt | src/apps/profiles/services/user.py:266-276 | the live offer with that id, none iff there is none |
| Trade.UnsentPaymentOf | src/apps/profiles/tasks/broker.py:213-230 | the first live unsent payment of that user, none iff there is none |
| Trade.NewOrders | src/apps/travels/services.py:100-104 | one fresh, unanswered, unsent order per listing, in order, under consecutive ids |
| Trade.NewOrdersMatch | src/apps/travels/services.py:100-104 | each order a search opens belongs to that search and to a listing that matches it |
| Trade.EveryMatchGetsAnOrder | src/apps/travels/services.py:93-104 | every matching listing with an opening price gets an order |
| Trade.NoListingTwice | src/apps/travels/services.py:93-104 | no listing gets two orders from one search |
| Trade.NoMatchNoListings | src/apps/travels/services.py:85-96 | a search nothing matches opens no order and raises nothing |
| Trade.OfferCheck | src/apps/travels/services.py:366-383 | 404 for an unknown order; a crash for an order without a search or an unreadable `max_sum`; then a TypeError for a missing price and a ValueError for a price that is no integer; accepted iff budget and price both read and the price is within the budget, 400 iff it is over; an accepted offer gets the next order number and the price as read |
| Trade.PaymentOfOffer | src/apps/profiles/models/payment.py:18-25 | the payment pointing at that offer, none iff there is none |
| Trade.GetOrCreatePayment | src/apps/profiles/services/payment.py:24-37 | an existing payment of that user and offer is returned unchanged; a record of another user for the offer breaks the one-to-one link; otherwise one new record with the amount, its `payment_date` stamped with the time of the save |
| Trade.GetOrCreatePaymentIdempotent | src/apps/profiles/services/payment.py:24-37 | a repeated call, at any time, returns the same record and leaves the table, the amount and the payment date as the first call left them |
| Channels.Split | src/apps/vendors/consumers.py:20-21 | `str.split`: at least one piece, none containing the separator, exactly one iff the text has no separator |
| Channels.SplitThenJoin | src/apps/vendors/consumers.py:20-21 | joining the pieces with the separator gives the text back |
| Channels.SplitJoin | src/apps/vendors/consumers.py:20-21 | splitting joined separator-free pieces gives the pieces back |
| Channels.QueryValue | src/apps/vendors/consumers.py:20-21 | `split('=')[1]`: an IndexError iff the query has no '='; the value has no '=' |
| Channels.QueryValueOfParameter | src/apps/vendors/consumers.py:20-21 | `name=t` yields `t` |
| Channels.DictGet | src/apps/vendors/consumers.py:32-34 | a found value is stored under the key; none iff the key is absent |
| Channels.DictPut | src/apps/vendors/consumers.py:32-34 | the key then maps to the new value, every other key is unchanged, and the dict grows iff the key was new |
| Channels.DictPutKeepsUnique | src/apps/vendors/consumers.py:32-34 | no key appears twice after an assignment |
| Channels.DictPutAppends | src/apps/vendors/consumers.py:32-34 | a new key goes at the end |
| Channels.ReconnectOverwrites | src/apps/vendors/consumers.py:32-34 | a reconnect under the same e-mail leaves the dict as the second connection alone would |
| Channels.DictDel | src/apps/vendors/consumers.py:45-51 | `del d[k]`: the key is gone, every other entry stays |
| Channels.KeysFor | src/apps/vendors/consumers.py:45-51 | exactly the e-mails whose value is the disconnecting channel |
| Channels.LookupFailure | src/apps/vendors/consumers.py:28-43 | no failure iff the id is the text of an existing account's key; a text that is no key gives the invalid-UUID message, a missing row the model's DoesNotExist message |
| Channels.Admit | src/apps/vendors/consumers.py:18-43 | an expired or undecodable token closes with the token error; a missing user id closes without one; admitted iff the id reads as a key of an account, whose e-mail is registered |
| Marketplace.CatchUp | src/apps/vendors/consumers.py:32-34 | vendor consumers queue the orders catch-up, the user consumer the offers catch-up, the deleted-offers consumer the withdrawn-offers catch-up |
| Marketplace.SetKeepsValid | src/apps/vendors/consumers.py:32-34 | replacing one consumer dict by one without repeated keys keeps all four valid |
| Marketplace.OrderJobs | src/apps/travels/services.py:105-112 | per new order, in order: delivery to the listing's vendor now, expiry 300 s later on the deleted-orders topic |
| Marketplace.DropOneMore | src/apps/vendors/consumers.py:45-51 | dropping one more e-mail from the store equals dropping the longer list |
| Marketplace.DropServed | src/apps/vendors/consumers.py:45-51 | the loop collects exactly the channel's e-mails in order and frees exactly their store keys |
| Marketplace.OrderRows | src/apps/travels/services.py:100-112 | the loop builds exactly `NewOrders` and `OrderJobs` |
| Marketplace.Market.constructor | src/apps/travels/models.py:163-241 | empty tables, store and queues are valid |
| Marketplace.Market.Tick | src/apps/travels/services.py:105-112 | time advances by the given seconds, so a job queued with `countdown=300` falls due after that many |
| Marketplace.Market.TakeJob | src/apps/travels/services.py:105-112 | a worker runs one due job and removes exactly it from the queue |
| Marketplace.Market.CreateTravelDetail | src/apps/travels/services.py:140-177 | the search is appended under a fresh key, its matching orders and jobs follow, and the answer expires 5 minutes from now |
| Marketplace.Market.CreateMatchingOrders | src/apps/travels/services.py:80-112 | one new order per available listing, each with its delivery and expiry job; keys stay valid |
| Marketplace.Market.AddOrders | src/apps/travels/services.py:100-112 | the orders and jobs of `NewOrders` and `OrderJobs` are appended under consecutive keys |
| Marketplace.Market.DeleteTravelDetail | src/apps/travels/services.py:37-49 | an unknown search raises 404 and changes nothing; otherwise only its deletion flag is set, whatever its state |
| Marketplace.Market.MakeApprovedTrue | src/apps/travels/services.py:215-227 | an unknown order is a 404 with no change; otherwise only `approved` becomes true, deleted orders included |
| Marketplace.Market.DeleteOrder | src/apps/travels/services.py:229-242 | an unknown order is a 404 with no change; otherwise it is soft-deleted and refused |
| Marketplace.Market.CreateOffer | src/apps/travels/services.py:364-412 | on the raw request price, refused or crashing exactly when `OfferCheck` does, with that fault and no change; otherwise the offer is appended with the next order number, the order approved, delivery and a 300 s expiry queued, and the expiry time is 15 minutes from now |
| Marketplace.Market.AcceptCheckedOffer | src/apps/travels/services.py:385-403 | the accepted path: offer stored, jobs queued, order approved |
| Marketplace.Market.PlaceOffer | src/apps/travels/services.py:385-399 | the offer row under the next key and its two jobs, keys valid |
| Marketplace.Market.DeleteOffer | src/apps/travels/services.py:414-427 | an unknown offer is a 404 with no change; otherwise only that offer is withdrawn |
| Marketplace.Market.SendOrderTask | src/apps/profiles/tasks/broker.py:17-46 | a missing live unsent order is an AttributeError with no change; otherwise its `created_at` moves 5 minutes later, and it is marked sent and pushed with its strict matched price only when the vendor is connected |
| Marketplace.Market.SendOrdersTask | src/apps/profiles/tasks/broker.py:49-70 | the table becomes `MarkOrdersSent`; the batch is pushed iff the vendor is connected, else the task crashes after the update |
| Marketplace.Market.ExpireOrderTask | src/apps/profiles/tasks/broker.py:73-93 | no change unless the order is still open; then it is soft-deleted, and its id is pushed only to a connected vendor |
| Marketplace.Market.SendOfferTask | src/apps/profiles/tasks/broker.py:96-115 | a missing live unsent offer is a DoesNotExist with no change; otherwise its `created_at` moves 5 minutes later, and it is marked sent and pushed only when the traveller is connected |
| Marketplace.Market.SendOffersTask | src/apps/profiles/tasks/broker.py:118-139 | the table becomes `MarkOffersSent`; the batch is pushed iff the traveller is connected, else the task crashes after the update |
| Marketplace.Market.SendDeletedOffersTask | src/apps/profiles/tasks/broker.py:142-163 | the offers are unchanged; the withdrawn ids are pushed iff the traveller is connected, else an AttributeError |
| Marketplace.Market.ExpireOfferTask | src/apps/profiles/tasks/broker.py:166-185 | no change unless the offer is still open; then it is soft-deleted, and its id is pushed only to a connected recipient |
| Marketplace.Market.SendPaymentStatusTask | src/apps/profiles/tasks/broker.py:188-210 | the offer's `is_payed` becomes whether the result was "успешно"; success queues the verification mail; the payment is marked sent, its `payment_date` stamped with the current time, and its status pushed iff the user is connected |
| Marketplace.Market.SettlePayment | src/apps/profiles/tasks/broker.py:195-210 | the offer's payment flag as above; when the user is connected the payment is marked sent and its auto-now `payment_date` replaced by the current time; keys valid |
| Marketplace.Market.SendSomePaymentStatusTask | src/apps/profiles/tasks/broker.py:213-230 | with no unsent payment or no connection nothing changes; otherwise that payment is marked sent with `payment_date` stamped now, and its status pushed |
| Marketplace.Market.Connect | src/apps/vendors/consumers.py:18-43 | a query without '=' fails with no change; an admitted connection is stored in the consumer's dict and the store and queues that consumer's catch-up; a closed one changes nothing |
| Marketplace.Market.Disconnect | src/apps/vendors/consumers.py:45-51 | every e-mail the channel serves leaves the store; the first is deleted from the dict; a channel serving none raises IndexError |
| Marketplace.Market.PaymentUser | src/apps/profiles/consumers/user.py:115-123 | a user's e-mail iff the query has a value that reads as a user's key; a query without '=' names nobody |
| Marketplace.Market.PaymentUserOfId | src/apps/profiles/consumers/user.py:115-123 | the query `user_id=<id>` of a known user names exactly that user |
| Marketplace.Market.PaymentConnect | src/apps/profiles/consumers/user.py:119-125 | without a token check, the user read from the query is registered on the payment topic and the payment catch-up queued; otherwise no change, and the fault is the IndexError of a query without '=', the ValidationError of an id that is no key, or DoesNotExist |
| Marketplace.Market.PaymentDisconnect | src/apps/profiles/consumers/user.py:127-131 | exactly that user's payment entry is removed; otherwise no change, with the same three faults as on connect |
| Marketplace.Market.PaymentLookupFault | src/apps/profiles/consumers/user.py:115-123 | no fault iff a user is found; IndexError without '=', the invalid-UUID ValidationError for a value that is no key, DoesNotExist for a key with no row |
| Marketplace.Market.OfferExpiryNoticeUnreachable | src/apps/travels/services.py:393-399 | the expiry notice is keyed by the vendor's e-mail on the deleted-offers topic, where only `User` rows' e-mails are admitted, so a vendor no traveller shares an e-mail with is never reached |
| Marketplace.Market.CancelSearch | src/apps/profiles/services/user.py:245-264 | offers, orders and searches become `CancelOffers`, `CancelOrders`, `CancelDetails`, each reading the tables the previous step left |
| Marketplace.Market.CancelOffer | src/apps/profiles/services/user.py:266-269 | a live offer is withdrawn and refused; any other id changes nothing |
| Marketplace.Market.AcceptOffer | src/apps/profiles/services/user.py:271-276 | only `is_accepted` of a live offer becomes true, whatever its payment; any other id crashes with no change |
| Marketplace.Market.CreateTransaction | src/apps/profiles/services/payment.py:24-37 | only the offer's traveller may pay it (otherwise DoesNotExist with no change); then the payment table becomes `GetOrCreatePayment` at the current time |
| Marketplace.Market.AddPayment | src/apps/profiles/services/payment.py:24-37 | a new payment under the next key, keys valid |
| Marketplace.Market.ResultUrl | src/apps/profiles/views/payment.py:45-61 | an unknown payment, an unreadable result or a missing report is an error with no change; otherwise the callback fields, the gateway's payment date and the tag are recorded, the status task queued, and the answer is `AnswerFor(tag)` |
| Marketplace.Market.RecordResult | src/apps/profiles/services/payment.py:140-151 | only that payment's callback fields change, and the status task is queued |
| Marketplace.Market.BookingOffer | src/apps/profiles/services/payment.py:230-238 | the contact details are copied onto the live offer and nothing else changes; an unknown offer crashes with no change |
| Accounts.RandomString | src/apps/vendors/services.py:25-26 | as many characters as picks, each an allowed one |
| Accounts.RandomStringCovers | src/apps/vendors/services.py:25-26 | every string over the allowed characters can be drawn |
| Accounts.GenerateVerificationCode | src/apps/vendors/services.py:25-26 | a digit string of the requested length |
| Accounts.EveryDigitCodeCanBeDrawn | src/apps/vendors/services.py:25-26 | every digit string of that length can be drawn |
| Accounts.CheckTime | src/apps/vendors/services.py:266-271 | 408 iff more than the limit has elapsed since the code was made |
| Accounts.CheckCode | src/apps/vendors/services.py:260-264 | 403 iff the codes differ |
| Accounts.CheckChangeCode | src/apps/vendors/services.py:225-234 | accepted iff the code is at most three minutes old and equal; the age is checked first |
| Accounts.ThreeMinutesIsTheLimit | src/apps/vendors/services.py:266-271 | a code exactly three minutes old passes; one second later it is expired |
| Accounts.Cleared | src/apps/profiles/models/user.py:18 | `SET_NULL`: exactly the accounts that held the code lose it |
| Accounts.ClearedValid | src/apps/profiles/models/user.py:18 | deleting a code and clearing its holders in both tables keeps the store valid, e-mails unique across both |
| Accounts.ReplacedValid | src/apps/profiles/models/user.py:8-11 | saving a traveller or vendor whose e-mail no other account of either table has keeps the store valid, so the `CustomUser` column stays unique across both tables |
| Accounts.AddedValid | src/apps/profiles/models/user.py:8-11 | a new account under the next key whose e-mail no traveller or vendor has keeps the store valid |
| Accounts.CodeAddedValid | src/apps/profiles/models/user.py:18 | a new code row under a fresh key keeps the store valid |
| Accounts.AccountStore.constructor | src/apps/profiles/models/managers.py:6-12 | empty tables are valid |
| Accounts.AccountStore.PutUser | src/apps/profiles/models/user.py:8-11 | `save()` of a traveller replaces exactly that row; its e-mail must be unused in both tables |
| Accounts.AccountStore.PutVendor | src/apps/profiles/models/user.py:8-11 | `save()` of a vendor replaces exactly that row; its e-mail must be unused in both tables |
| Accounts.AccountStore.Put | src/apps/profiles/models/user.py:8-11 | one account of one table is saved, the other table unchanged; its e-mail must be unused in both tables |
| Accounts.AccountStore.DeleteResetCode | src/apps/profiles/services/user.py:117-125 | the code row is removed and its holders point at no code |
| Accounts.AccountStore.AddResetCode | src/apps/profiles/services/user.py:140-160 | one code row under a fresh key, stamped with the clock |
| Accounts.AccountStore.CreateUser | src/apps/profiles/models/managers.py:6-12 | an empty e-mail raises before anything is stored; one any traveller or vendor has fails with no change; otherwise exactly one new active account with the given fields |
| Accounts.AccountStore.CreateSuperuser | src/apps/profiles/models/managers.py:14-29 | an empty e-mail, or a staff or superuser flag given as false, raises with no change; so does an e-mail any traveller or vendor has; otherwise one new active staff superuser with the hashed password |
| Accounts.AccountStore.ChangeUserPassword | src/apps/profiles/services/user.py:19-30 | a wrong old password or a mismatched confirmation changes nothing, each with its message; otherwise only the password changes, to the hash of the confirmation |
| Accounts.AccountStore.GetOrCreateCurrency | src/apps/profiles/services/user.py:77-79 | an existing currency with that title is reused unchanged; otherwise one is created with the given price |
| Accounts.AccountStore.CreateVerifiedUserType | src/apps/profiles/services/user.py:66-89 | an unknown registration crashes and a wrong code is declined, both with no change; a right code creates the account from the registration, gives a user the KGS currency and removes the registration, and succeeds iff the e-mail is non-empty and no traveller or vendor has it |
| Accounts.AccountStore.GiveDefaultCurrency | src/apps/profiles/services/user.py:77-89 | a user account is linked to the KGS currency; vendor rows are unchanged |
| Accounts.AccountStore.CheckResetCode | src/apps/profiles/services/user.py:117-125 | an unknown account or one without a code crashes; a wrong code changes nothing; a right one is consumed and a token issued |
| Accounts.AccountStore.CheckUserPassword | src/apps/profiles/services/user.py:128-137 | a mismatch is declined first, then a validator's message, both with no change; otherwise only the password changes |
| Accounts.AccountStore.SendNewResetCode | src/apps/profiles/services/user.py:140-160 | an unknown account crashes with no change; otherwise the held code is deleted (every holder in both tables loses it), a fresh five-digit code is stored and mailed, and the account's pointer is the only other change to the tables |
| Accounts.AccountStore.Reissue | src/apps/profiles/services/user.py:140-160 | the held code, if any, is removed and its holders in both tables cleared; then only the account's pointer changes, to the fresh code |
| Accounts.AccountStore.TwofactorSetup | src/apps/vendors/services.py:44-51 | a secret is stored only when there is none; the stored one is returned |
| Accounts.AccountStore.TwofactorVerify | src/apps/vendors/services.py:53-68 | an unknown vendor is reported; a vendor without a secret crashes with no change; a valid code flips `twofa` and reports the new state; a wrong code changes nothing |
| Accounts.AccountStore.SendChangeCode | src/apps/vendors/services.py:215-223 | a code row is created (even when the id is no vendor, which then crashes); the vendor points at it, and a new e-mail address is mailed the code |
| Accounts.AccountStore.ResendChangeCode | src/apps/vendors/services.py:236-249 | as `SendChangeCode`, after deleting the code the vendor holds: the travellers are the old ones with that code cleared, and the vendors the same plus the vendor pointing at the fresh code |
| Accounts.AccountStore.ConfirmChangeCode | src/apps/vendors/services.py:225-234 | an unknown vendor or no code crashes; an expired code gives 408 and a wrong one 403, with no change; an e-mail another vendor or any traveller has fails with no change; otherwise the contact becomes the submitted one and the code is consumed |
| Accounts.AccountStore.ChangeVendorPassword | src/apps/vendors/services.py:298-305 | a wrong old password raises 400 with the detail `{'old_password': …}` and no change; otherwise only the password changes, to the hash of the new one |
| Accounts.WrongOldPasswordBody | src/apps/vendors/services.py:301-302 | the client's error body for it is a dictionary keyed only by `old_password`, under code 400 |
| Reviews.EarliestBy | src/apps/reviews/services.py:22-48 | the qualifying row with the smallest key, none iff no row qualifies |
| Reviews.FirstDue | src/apps/reviews/services.py:22-48 | a due offer with the earliest travel end; none iff no offer is due |
| Reviews.QuerysetToCheck | src/apps/reviews/services.py:22-48 | 404 iff no paid trip that ended before today awaits the traveller's review; otherwise the earliest-ending such offer |
| Reviews.ReviewedTripNoLongerDue | src/apps/reviews/services.py:22-48 | once the traveller reviews the listing the trip is no longer due |
| Reviews.ReviewsOnlyRetire | src/apps/reviews/services.py:22-48 | a new review never makes a trip due |
| Reviews.ReviewBook.CreateReview | src/apps/reviews/services.py:50-52 | the review is appended with the caller as author under a fresh key |
| VendorOrders.PendingOrders | src/apps/vendors/services.py:96-113 | exactly the vendor's live unanswered orders, each priced by the strict rule |
| VendorOrders.GetVendorOrders | src/apps/vendors/services.py:96-113 | an order is listed iff it awaits the vendor's answer, with its strict matched price |
| VendorOrders.ListedPriceCoversTravelEnd | src/apps/vendors/services.py:98-102 | a listed price is the price of one of the listing's rows covering the travel end |
| VendorOrders.ApprovedVendorOrders | src/apps/vendors/services.py:115-123 | exactly the vendor's live approved orders with no offer or an undecided payment |
| VendorOrders.PendingAndApprovedDisjoint | src/apps/vendors/services.py:96-123 | no order is in both the pending and the approved list |
| VendorOrders.ApprovedWhileAnotherOfferUndecided | src/apps/vendors/services.py:115-123 | paying one offer does not drop its order while another offer of it is undecided |
| VendorOrders.PaidTrips | src/apps/vendors/services.py:127-132 | at most the number of offers; zero iff the traveller has no paid trip |
| VendorOrders.TravelQuantity | src/apps/vendors/services.py:127-132 | a present quantity is between 1 and the number of offers |
| VendorOrders.GetCurrentOccupancy | src/apps/vendors/services.py:125-141 | an order is listed iff it is the vendor's, live and paid, with its traveller's paid-trip count |
| VendorOrders.OwnPaidOfferCounted | src/apps/vendors/services.py:127-132 | an order with a live paid offer counts in its own traveller's quantity |
| VendorOrders.FirstOccupied | src/apps/vendors/services.py:143-171 | the first paid order of the vendor with that id, none iff there is none |
| VendorOrders.DetailCurrentOccupancy | src/apps/vendors/services.py:143-171 | the vendor's paid order with that id with its quantity and loose price; none iff there is none |
| VendorOrders.DetailAgreesWithList | src/apps/vendors/services.py:125-171 | the order the detail view shows is in the occupancy list with the same quantity; when it shows none, the list has no order with that id |
| VendorOrders.DetailPricedWhenListPriced | src/apps/vendors/services.py:143-171 | an order the pending list prices is also priced in the detail view |

## Left out

- Primary keys are natural numbers from a counter instead of UUIDs, so freshness is by a bound.
- The models' `ordering = ["-created_at"]` is not modelled; table order stands for it and for `.first()`.
- Redis, Celery and Django Channels are the `registry`, `jobs` and `outbox` state. Concurrent interleavings and real timers are not modelled: each operation runs alone.
- `create_offer` reads `MAX(order_number)` and then inserts; the race between two concurrent callers is not modelled, because operations run one at a time.
- Join duplicates of multi-valued lookups (`offers__is_payed`, `object_prices__...`) are not modelled; result sets are treated as sets, which is what `.distinct()` makes of them.
- MD5, JWT decoding, TOTP verification, password hashing, `validate_password`, `get_random_string` and the mail backend are function parameters, not implementations.
- The merchant secret and the gateway credentials are parameters; their values are not part of this model.
- The `print` calls and all logging are I/O and are not modelled.
- Images: `update_images` and the image rows of `create_object` are not modelled (file storage).
- `update_basic_attributes` and `instance.save()` in `update_object` are not modelled: plain field copies with no rule to state.
- `Moderator` accounts (src/apps/profiles/models/user.py:83) are not modelled; their e-mails would take part in the same unique column as travellers' and vendors'.
- `twofactor_login` is not modelled: it issues JWT tokens after a TOTP check, both outside this model.
- `create_temporary_user`, `register`, `authenticate`, `send_reset_code`, `send_new_register_code`, the Google and Apple sign-in flows and `update_user_profile` are not modelled: they wrap token issuing, OAuth calls and mail sending.
- `payment()`, `get_status`, `get_payment_detail`, `get_booked_payment_detail` and `create_contract` are HTTP calls to the gateway and are left out; `ResultUrl` takes the status report as a parameter.
- Analytics, `get_avg_reviews`, `get_offers` and the other aggregate and annotation queries are left out beyond the price rules and `travel_quantity`.
- `select_related` and `prefetch_related` change how rows are fetched, not which, and are not modelled.
- `create_travel_date` and the related `get_or_create` helpers are not modelled; the stay dates and budget are stored inline in the search.
- The consumers' event handlers, which hand a channel message's payload to the socket with `send(text_data=...)`: the socket side is not modelled; the model stops at the message in `outbox`.
- Trade.AvailableListings: its own contract states only the size bound; membership is stated by `Trade.AvailableListingsMembers`.
- Listings.Catalog.UpdateObject: its contract does not state the new price table and facility set when they are submitted; `Listings.Catalog.UpdatePrices` and `Listings.Catalog.UpdateFacilities`, which it calls, state them.
- Common.SearchByName: `icontains` runs on PostgreSQL's `UPPER`, which under a UTF-8 locale folds the cased letters of every script; the model folds the one-to-one case pairs of ASCII, Latin-1, modern Greek (the basic alphabet and the capitals with tonos or dialytika, such as Ά/ά and Ϊ/ϊ) and Cyrillic with its supplement (Russian, Kyrgyz, Kazakh). It does not fold archaic Greek and Coptic letters, the Greek symbol variants (ϐ, ϑ, ϕ and others), other scripts (Latin Extended, Armenian, Georgian and others), or letters whose upper case is longer, such as ß and ΐ.
- Rentals.PlacementQuery: its `name` filter uses the same folding as `Common.SearchByName` and has the same gap outside those alphabets.
- Common.ParseInt: reads what Python's `int()` reads for ASCII digit texts, but refuses underscores between digits ("1_000") and non-ASCII decimal digits, which `int()` accepts.
- Rentals.ParseIsoDate: its own contract states only that the result is a valid date; what it reads is stated by `Rentals.ParseFormatRoundTrip` and `Rentals.ParseUnpadded`. Its digit test accepts ASCII digits only, while `strptime`'s `\d` patterns and the `int()` that follows also accept other Unicode decimal digits (full-width and Arabic-Indic, for example), so a date written in those digits parses in the system and is refused here.
- Marketplace.Market.CreateOffer: the price is the raw request value taken as text (None when absent). A JSON number is modelled as its decimal text; a JSON float, which `int()` truncates instead of refusing, is not modelled.
