# Event manager: a Dafny model of its database core

The application is a small Flask site over a PostgreSQL database with four
tables: organizers, events, attendees and tickets (one ticket registers one
attendee for one event). This project models, in Dafny:

- the schema of `models/your_model.py`: primary keys, the unique emails, the
  unique `(event_id, attendee_id)` pair, the three foreign keys and their
  `ON DELETE CASCADE` (module `Schema`);
- what the database does with the statements the handlers send: INSERTs
  that draw their id from the table's sequence and are refused with an
  IntegrityError when a constraint would break, batches committed as one
  transaction, and cascading DELETEs (module `Engine`);
- the read-only queries of `index.py`: the four paginated listings, the
  available and registered attendees of an event, and the dashboard's
  aggregates (modules `Pagination`, `Ordering`, `Queries`);
- the handlers that change the database, as methods of a `Database` class
  whose fields are the four tables and the id sequences (module `App`);
- `init_db` and `seed_data` of `database/index.py`, with their fixture rows,
  as imperative methods over that class (module `Seed`).

Every state a handler commits keeps the schema's constraints (`Valid()` is a
pre- and postcondition of every method). Beyond that, the model proves what
each page shows: the home listing drops no event although it is an inner
join, the pages 1..total_pages reassemble each listing exactly once, the
available and registered lists of an event split the attendees between them,
the per-organizer counts add up to the number of events, and the top-five
ranking is really the top five. For the seed it proves that a fresh database
receives 10 organizers, 10 events, 15 attendees and 16 registrations with
ids 1, 2, ... in fixture order. It also shows a limit of `init_db`'s guard:
once every organizer has been deleted the count is 0 again and seeding runs,
but the organizer sequence has moved on, the fixture events name organizer
ids that no longer exist, the event batch is refused and rolled back, and
only the ten organizers are added (`Seed.ReseedKeepsOnlyOrganizers`).

Files: `seq_util.dfy` (filters, keys, group counts), `ordering.dfy` (the
stable sort standing for ORDER BY, and code-point string order),
`pagination.dfy`, `schema.dfy`, `engine.dfy`, `queries.dfy`, `app.dfy`,
`seed.dfy`.

The listing handlers accept any integer page. The OFFSET `(page - 1) *
per_page` is sent as a bigint: when it falls outside the bigint range, in
either direction, PostgreSQL rejects the value itself and `Pagination.Page`
returns `Failure(OffsetOutOfRange)`. Otherwise a page number below 1 gives a
negative OFFSET, which PostgreSQL rejects too (`Failure(NegativeOffset)`).
Every other page past the last one is empty.

The schema resolves the delete of an organizer two ways: the foreign key
cascades to the organizer's events, but `delete_organizer` refuses when the
organizer has events. `App.Database.DeleteOrganizer` follows the handler;
the cascade is `Engine.DeleteOrganizer`, and
`Engine.GuardedOrganizerDeleteIsExact` shows that the two agree on every
delete the handler lets through.

## Model

| member | source | states |
|---|---|---|
| Pagination.TotalPages | index.py:29 | total_pages is the ceiling of count / per_page: enough pages for every row, not one page more, and 0 exactly when there are no rows |
| Pagination.Offset | index.py:31 | `(page - 1) * per_page`; its bounds are stated by `Pagination.Page` and the lemmas below |
| Pagination.Page | index.py:30-40 | a page is refused with OffsetOutOfRange exactly when its offset lies outside the bigint range (in either direction), and with NegativeOffset exactly when its number is below 1 and its offset is still a bigint; otherwise it holds at most per_page rows, each the row at offset + i; it is full when enough rows follow the offset, holds the remainder on the last page, and is empty past the end |
| Pagination.PagePastLastIsEmpty | index.py:67-79 | a page number beyond total_pages returns an empty page, not an error |
| Pagination.PageWithinIsNonEmpty | index.py:67-79 | every page from 1 to total_pages holds at least one row, and every page before the last is full |
| Pagination.PageIsSlice | index.py:67-79 | page k is the slice of the listing from (k-1) * per_page to k * per_page, cut off at its end |
| Pagination.Served | index.py:15-40 | the rows a handler shows over the requests for pages 1..k, one after the other; `Pagination.ServedIsPrefix`, `Pagination.PagesReassemble` and the page-cover lemmas state what they add up to |
| Pagination.ServedIsPrefix | index.py:204-217 | a handler answering each page p of 1..k with `LIMIT per_page OFFSET (p-1)*per_page` over one listing succeeds on all of them and shows, over pages 1..k, the first k * per_page rows of the listing (or all of them) |
| Pagination.PagesReassemble | index.py:311-324 | a handler answering each page of 1..total_pages with that page of one listing shows, over those pages, every row of the listing once, in order |
| Ordering.Sort | index.py:38 | ORDER BY: the result is a permutation of the rows (same length, same multiset); `Ordering.SortSorted` states that it is sorted and `Ordering.SortSum` that sums over the rows are kept |
| Ordering.SortSorted | index.py:215 | under a total preorder the sorted rows are in order, whatever the ties |
| Ordering.SortSum | index.py:429-433 | sorting leaves a sum over the rows unchanged |
| SeqUtil.Tally | index.py:211-214 | `LEFT JOIN ... GROUP BY` with `COUNT`: every owner once, in order, with the number of rows that refer to its key (zero included); `SeqUtil.TallySumRefers`, `SeqUtil.TallySum` and `SeqUtil.ExpandTallyIsFilter` relate the counts to the rows |
| SeqUtil.TallySumRefers | index.py:429-432 | for owners with distinct keys the grouped counts add up to the number of rows that refer to one of them |
| SeqUtil.TallySum | index.py:441-444 | when every row refers to one of the owners, the grouped counts add up to the number of rows |
| SeqUtil.ExpandTallyIsFilter | index.py:515-520 | when each key is referred to at most once, repeating each owner by its count keeps exactly the referred owners, in order |
| Schema.IsInteger | models/your_model.py:60-62 | the range of the `db.Integer` id columns, -2^31..2^31-1; `App.Database.RegisterEvent` and `App.Database.CreateEvent` state what happens outside it |
| Schema.WellFormed | models/your_model.py:9-66 | primary keys, unique emails, the unique (event_id, attendee_id) pair and the three foreign keys; every `App.Database` method keeps it, through `App.Database.Valid` |
| Schema.EventsOfOrganizer | models/your_model.py:16 | `Organizer.events`: exactly the events whose organizer_id is the organizer, each kept as often as in the table; `Engine.DeleteOrganizerCascades` states that the cascade removes exactly these |
| Schema.TicketsOfEvent | models/your_model.py:33 | `Event.tickets`: exactly the tickets whose event_id is the event; `Queries.AttendeeCountIsRegistered` and `Engine.DeleteEventCascades` state what they mean for the count and the cascade |
| Schema.TicketsOfAttendee | models/your_model.py:52 | `Attendee.tickets`: exactly the tickets whose attendee_id is the attendee; `Engine.DeleteAttendeeCascades` states that the cascade removes exactly these |
| Schema.AttendeeCount | models/your_model.py:38-40 | `len(self.tickets)`; `Queries.AttendeeCountIsRegistered` and `Queries.RankedEventsCount` state what it counts |
| Schema.EventTicketsDistinctAttendees | models/your_model.py:65-66 | under the unique (event_id, attendee_id) constraint the tickets of one event name each attendee at most once |
| Schema.OneTicketPerAttendee | models/your_model.py:38-40 | attendee_count counts each attendee of the event at most once |
| Engine.InsertOrganizer | models/your_model.py:9-12 | the organizer INSERT with its id from the sequence, refused on a duplicate email; `Engine.InsertOrganizerKeepsConsistent` and `Engine.InsertOrganizerAccepts` state its effect |
| Engine.InsertAttendee | models/your_model.py:45-48 | the attendee INSERT, refused on a duplicate email; `Engine.InsertAttendeeKeepsConsistent` and `Engine.InsertAttendeeAccepts` state its effect |
| Engine.InsertEvent | models/your_model.py:24-30 | the event INSERT, refused when its organizer does not exist; `Engine.InsertEventKeepsConsistent` and `Engine.InsertEventAccepts` state its effect |
| Engine.InsertTicket | models/your_model.py:60-66 | the ticket INSERT, refused on a duplicate pair or a missing event or attendee; `Engine.InsertTicketKeepsConsistent` and `Engine.InsertTicketAccepts` state its effect |
| Engine.InsertAll | database/index.py:30-33 | one transaction: every row in turn, and the first refused row undoes the batch; `Engine.InsertAllKeepsConsistent` and the `*BatchCommits` lemmas state its effect |
| Engine.InsertOrganizerKeepsConsistent | models/your_model.py:9-12 | an accepted organizer INSERT keeps every constraint; a new email is always accepted |
| Engine.InsertAttendeeKeepsConsistent | models/your_model.py:45-48 | an accepted attendee INSERT keeps every constraint; a new email is always accepted |
| Engine.InsertEventKeepsConsistent | models/your_model.py:24-30 | an event INSERT is accepted exactly when its organizer exists, and then keeps every constraint |
| Engine.InsertTicketKeepsConsistent | models/your_model.py:60-66 | a ticket INSERT is accepted exactly when the pair is new and the event and the attendee exist, and then keeps every constraint |
| Engine.InsertAllKeepsConsistent | database/index.py:30-33 | a committed batch keeps every constraint when each of its inserts does |
| Engine.InsertOrganizerAccepts | models/your_model.py:9-11 | an organizer with a new email is appended with the sequence's next id, and the sequence advances by one |
| Engine.InsertAttendeeAccepts | models/your_model.py:45-47 | an attendee with a new email is appended with the sequence's next id, and the sequence advances by one |
| Engine.InsertEventAccepts | models/your_model.py:24-30 | an event of an existing organizer is appended with the sequence's next id, and the sequence advances by one |
| Engine.InsertTicketAccepts | models/your_model.py:60-66 | a new pair of an existing event and attendee is appended with the sequence's next id, and the sequence advances by one |
| Engine.OrganizerBatchCommits | database/index.py:17-33 | a batch of organizers with distinct, unused emails commits, and its rows get consecutive ids in order |
| Engine.EventBatchCommits | database/index.py:36-62 | a batch of events whose organizers all exist commits, and its rows get consecutive ids in order |
| Engine.AttendeeBatchCommits | database/index.py:65-86 | a batch of attendees with distinct, unused emails commits, and its rows get consecutive ids in order |
| Engine.TicketBatchCommits | database/index.py:89-111 | a batch of tickets with distinct, new pairs of existing events and attendees commits, and its rows get consecutive ids in order |
| Engine.DeleteEvent | models/your_model.py:61 | `DELETE FROM events` with the cascade on tickets.event_id; `Engine.DeleteEventCascades` and `Engine.DeleteEventKeepsWellFormed` state its effect |
| Engine.DeleteAttendee | models/your_model.py:62 | `DELETE FROM attendees` with the cascade on tickets.attendee_id; `Engine.DeleteAttendeeCascades` and `Engine.DeleteAttendeeKeepsWellFormed` state its effect |
| Engine.DeleteOrganizer | models/your_model.py:30 | `DELETE FROM organizers` with the cascade to its events and their tickets; `Engine.DeleteOrganizerCascades` and the lemmas after it state its effect |
| Engine.DeleteRegistration | index.py:537-541 | `DELETE FROM tickets` for one pair; `Engine.DeleteRegistrationEffect` states its effect |
| Engine.DeleteEventKeepsWellFormed | models/your_model.py:61 | deleting an event, with the cascade on tickets.event_id, keeps every constraint |
| Engine.DeleteEventCascades | models/your_model.py:61 | deleting an event removes exactly the rows with that id and exactly its tickets; organizers and attendees are untouched |
| Engine.DeleteAttendeeKeepsWellFormed | models/your_model.py:62 | deleting an attendee, with the cascade on tickets.attendee_id, keeps every constraint |
| Engine.DeleteAttendeeCascades | models/your_model.py:62 | deleting an attendee removes exactly the rows with that id and exactly its tickets; organizers and events are untouched |
| Engine.DeleteOrganizerKeepsWellFormed | models/your_model.py:30 | deleting an organizer, cascading to its events and from them to their tickets, keeps every constraint |
| Engine.DeleteOrganizerRemovesRow | models/your_model.py:30 | after the delete no organizer row has the deleted id |
| Engine.DeleteOrganizerCascades | models/your_model.py:30 | deleting an organizer removes exactly the rows with that id and exactly its events; the other organizers and the attendees are kept |
| Engine.DeleteOrganizerCascadesTickets | models/your_model.py:30 | a ticket survives an organizer's deletion exactly when its event was not one of that organizer's events |
| Engine.CascadedTicketKeepsEvent | models/your_model.py:61 | every ticket left after an organizer's deletion still names an existing event |
| Engine.DeleteRegistrationEffect | index.py:537-541 | unregistering removes exactly the ticket of that pair (if any), keeps every other ticket and table, and keeps every constraint |
| Engine.DeleteRegistrationKeepsWellFormed | index.py:537-541 | deleting one pair's ticket keeps every constraint |
| Engine.DeleteRegistrationRemovesPair | index.py:537-541 | after the delete the pair has no ticket, every ticket of another pair is kept, and no ticket is added |
| Engine.DeleteRegistrationCount | index.py:537-541 | under the unique pair, the delete removes one ticket when the pair was registered and is a no-op otherwise |
| Engine.FewerRowsKeepIdsDrawn | index.py:158-159 | a DELETE leaves every stored id below its sequence's next value, so later INSERTs still draw unused ids |
| Engine.GuardedOrganizerDeleteIsExact | index.py:283-291 | once the handler has found no event of the organizer, the cascading DELETE removes only the organizer row |
| Engine.GuardedAttendeeDeleteIsExact | index.py:553-561 | once the handler has found no ticket of the attendee, the cascading DELETE removes only the attendee row |
| Queries.ByNameIsTotalPreorder | index.py:215 | ORDER BY a text column is a total preorder, so the sorted listings are sorted |
| Queries.FindOrganizer | index.py:37 | the join finds an organizer with the event's organizer_id, and finds none exactly when no such organizer exists |
| Queries.JoinOrganizers | index.py:74-76 | the left join keeps every event once, in table order |
| Queries.DateOrdersAreTotalPreorders | index.py:38 | ORDER BY e.date and ORDER BY e.date DESC are total preorders |
| Queries.JoinNamesOrganizer | index.py:35-37 | under the keys, the join pairs each event with the name of its own organizer |
| Queries.HomeListing | index.py:34-40 | the inner join ordered by date; `Queries.HomeListingIsComplete` states what it holds |
| Queries.EventListing | index.py:73-79 | the left join ordered by date, latest first; `Queries.EventListingIsComplete` states what it holds |
| Queries.OrganizerRows | index.py:210-217 | organizers with their event counts, ordered by name; `Queries.OrganizerRowsCount` and `Queries.OrganizerCountsSum` state what it holds |
| Queries.AttendeeRows | index.py:317-324 | attendees with their ticket counts, ordered by name; `Queries.AttendeeRowsCount` and `Queries.AttendeeCountsSum` state what it holds |
| Queries.HomePage | index.py:30-40 | one page of the home listing, 5 rows per page; `Queries.HomePagesCoverListing` states what the pages add up to |
| Queries.EventsPage | index.py:67-79 | one page of the events listing, 10 rows per page; `Queries.ListingPagesCoverListings` states what the pages add up to |
| Queries.OrganizersPage | index.py:204-217 | one page of the organizers listing; `Queries.ListingPagesCoverListings` states what the pages add up to |
| Queries.AttendeesPage | index.py:311-324 | one page of the attendees listing; `Queries.ListingPagesCoverListings` states what the pages add up to |
| Queries.HomeListingIsComplete | index.py:34-40 | under the foreign key the home listing holds every event exactly once, each with an organizer name, earliest first |
| Queries.EventListingIsComplete | index.py:73-79 | the events listing holds every event exactly once, latest first |
| Queries.OrganizerRowsCount | index.py:210-217 | the organizers listing holds every organizer once, with zero-event organizers, each with the number of its events, ordered by name |
| Queries.OrganizerCountsSum | index.py:428-435 | under the foreign key the per-organizer event counts add up to the number of events |
| Queries.AttendeeRowsCount | index.py:317-324 | the attendees listing holds every attendee once, each with the number of its tickets, ordered by name |
| Queries.AttendeeCountsSum | index.py:317-324 | under the foreign key the per-attendee ticket counts add up to the number of tickets |
| Queries.HomePagesCoverListing | index.py:25-40 | although total_pages counts all events and the page lists an inner join, under the foreign key the pages the handler serves for 1..total_pages show the whole home listing once, and every later page whose offset is a bigint is empty |
| Queries.ListingPagesCoverListings | index.py:63-79 | the pages served for 1..total_pages of the events, organizers and attendees listings each show their listing once, and every later page whose offset is a bigint is empty |
| Queries.RegisteredIds | index.py:507-509 | the subquery's attendee ids; `Queries.RegisteredIdsMeansTicket` states which they are |
| Queries.Available | index.py:505-511 | the attendees not in the subquery, ordered by name; the partition lemmas below state what it holds |
| Queries.Registered | index.py:515-521 | the join of attendees and the event's tickets, ordered by name; `Queries.RegisteredIsSemiJoin` and the lemmas below state what it holds |
| Queries.RegisteredIdHasTicket | index.py:507-509 | an id returned by the subquery is registered for the event |
| Queries.TicketIsRegisteredId | index.py:507-509 | every attendee registered for the event is returned by the subquery |
| Queries.RegisteredIdsMeansTicket | index.py:507-509 | an id is in the subquery exactly when a ticket of that pair exists |
| Queries.RegisteredIsSemiJoin | index.py:515-520 | under the unique pair the registered join lists exactly the registered attendees, each once, ordered by name |
| Queries.AvailableRegisteredPartition | index.py:505-521 | the available and the registered lists together hold every attendee exactly once |
| Queries.AvailableRegisteredDisjoint | index.py:505-521 | no attendee is both available and registered |
| Queries.AvailableRegisteredSorted | index.py:505-521 | both lists are ordered by name |
| Queries.RegisteredMeansTicket | index.py:515-520 | an attendee is listed as registered exactly when its ticket for the event exists |
| Queries.AttendeeCountIsRegistered | models/your_model.py:38-40 | attendee_count equals the length of the registered list |
| Queries.RankedEvents | index.py:440-445 | every event with its ticket count, most tickets first; `Queries.RankedEventsCount` states what it holds |
| Queries.PopularEvents | index.py:440-448 | the first five of the ranking; `Queries.PopularEventsAreTop` states that they are the top five |
| Queries.DashboardOf | index.py:418-450 | the three totals, the per-organizer chart and the popular events; `Queries.DashboardIsConsistent` states how they agree |
| Queries.RankedEventsCount | index.py:440-445 | the ranking lists every event once with its attendee_count |
| Queries.PopularEventsAreTop | index.py:440-450 | the popular events are min(5, events) rows in non-increasing ticket count, none of the omitted events has more tickets than a shown one, and each count is the event's attendee_count |
| Queries.DashboardIsConsistent | index.py:418-437 | under the foreign key the chart's counts add up to total_events, it lists every organizer, and the top five never exceed total_events |
| App.EventFromForm | index.py:135-140 | the form is refused exactly when name, date, location or organizer is empty; otherwise the row carries the form's fields and the (possibly empty) description |
| App.Database.constructor | database/index.py:7 | after create_all the tables are empty, the sequences start at 1, and the constraints hold |
| App.Database.RegisterEvent | index.py:488-497 | the request fails exactly when an id is outside the integer column's range; otherwise the registration succeeds exactly when the pair is new and the event and the attendee exist, and then one ticket with the next id is appended, the ticket sequence advances by one, and nothing else changes; in every other case nothing changes |
| App.Database.UnregisterEvent | index.py:537-541 | the pair's ticket is gone, every other ticket is kept, the count drops by one exactly when it existed, and the other tables and the sequences are unchanged |
| App.Database.DeleteEvent | index.py:158-159 | the event and exactly its tickets are gone; organizers, attendees and sequences are unchanged |
| App.Database.DeleteOrganizer | index.py:283-291 | the delete is refused, with the event count, exactly when the organizer has events, and then nothing changes; otherwise only the organizer row is removed |
| App.Database.DeleteAttendee | index.py:553-561 | the delete is refused, with the ticket count, exactly when the attendee holds tickets, and then nothing changes; otherwise only the attendee row is removed |
| App.Database.CreateEvent | index.py:134-147 | a form with a required field missing changes nothing, and neither does an organizer id outside the integer column's range; otherwise the event is created exactly when its organizer exists, appended with the next id while the event sequence advances by one and nothing else changes; a refused INSERT commits nothing |
| App.Database.Commit | database/index.py:30-33 | a batch commits exactly when every row is accepted in turn, and then the new state is the batch's result; otherwise nothing changes |
| Seed.OrganizerEmailsDistinct | database/index.py:17-28 | the ten fixture organizers have distinct emails |
| Seed.AttendeeEmailsDistinct | database/index.py:65-81 | the fifteen fixture attendees have distinct emails |
| Seed.TicketPairsDistinct | database/index.py:89-106 | the sixteen fixture tickets name distinct (event, attendee) pairs |
| Seed.EventOrganizersInRange | database/index.py:36-57 | every fixture event names an organizer id between 1 and the number of fixture organizers |
| Seed.TicketEventsInRange | database/index.py:89-106 | every fixture ticket names an event id between 1 and the number of fixture events |
| Seed.TicketAttendeesInRange | database/index.py:89-106 | every fixture ticket names an attendee id between 1 and the number of fixture attendees |
| Seed.Seeding | database/index.py:15-117 | the four batches committed in turn, stopping at the first refused one; `Seed.SeedingKeepsConsistent` and `Seed.SeedingFreshDatabase` state its effect |
| Seed.SeedResult | database/index.py:13-117 | seed_data with its fixture rows; `Seed.SeedFreshDatabase` and `Seed.ReseedKeepsOnlyOrganizers` state its effect |
| Seed.SeedingKeepsConsistent | database/index.py:15-117 | whichever batch fails, the committed state keeps every constraint |
| Seed.SeedingFreshDatabase | database/index.py:15-111 | on a fresh database, batches with distinct emails and pairs whose references stay within the ids handed out before them all commit, each row with the id of its position |
| Seed.SeedFreshDatabase | database/index.py:17-111 | seeding a fresh database succeeds with 10 organizers, 10 events, 15 attendees and 16 tickets numbered 1, 2, ... in fixture order |
| Seed.SeedingNeedsFreshIds | database/index.py:30-62 | with no organizers left but the organizer sequence moved past the first event's organizer id, the organizers commit and the event batch is rolled back |
| Seed.ReseedKeepsOnlyOrganizers | database/index.py:10-62 | seeding again after every organizer was deleted adds only the organizers: the event batch is rolled back and the other tables stay as they were |
| Seed.AddAll | database/index.py:30-31 | the session holds the batch's rows, in order |
| Seed.SeedBatches | database/index.py:15-117 | the committed state and the outcome are those of committing the four batches in turn and stopping at the first refused one |
| Seed.SeedData | database/index.py:13-117 | the same, with the fixture rows |
| Seed.InitDb | database/index.py:4-11 | the database is seeded exactly when it has no organizer, otherwise left unchanged |

## Left out

- HTTP routing, templates, flash messages and redirects are not modelled; a handler's result is its outcome value.
- Connections and cursors are not modelled: each handler is one call on the `Database` object.
- create_organizer, create_attendee, update_event, update_organizer, update_attendee, view_event and attendee_details are not part of this model.
- The monthly registrations chart (index.py:453-464) is left out: it depends on the clock (`NOW()`) and on `TO_CHAR` formatting.
- The created_at and registered_at timestamps are left out: they come from the clock.
- generate_hash.py is not part of this model.
- Concurrent requests are not modelled: each handler runs alone.
- Form parsing is left out: `App.EventForm` holds the already parsed date and organizer id. A date or id the database cannot parse would raise an error that the model does not have.
- App.Database.RegisterEvent: takes the attendee id as an integer. A missing form field sends NULL, which the NOT NULL constraint refuses with an IntegrityError. The handler then also reports "already registered".
- App.Database.RegisterEvent: follows the code in reporting every IntegrityError as "already registered", including an unknown event or attendee.
- The id sequences are unbounded in the model. A PostgreSQL `serial` sequence stops at 2^31-1, after which every INSERT into that table fails.
- Engine.InsertTicket, Engine.InsertEvent, Engine.InsertOrganizer, Engine.InsertAttendee: a refused INSERT leaves the id sequence where it was. PostgreSQL does not roll back `nextval`, so after a refused insert its ids are larger than the model's.
- Column lengths (`String(100)` and the like) are not modelled. A value that is too long raises an error that is not an IntegrityError.
- Dates are not checked for validity (month 1-12 and so on); the database would reject an invalid date.
- ORDER BY is modelled as a stable insertion sort over code-point string order. PostgreSQL leaves the order of equal keys unspecified and compares text by the locale's collation. Sortedness and being a permutation hold for any such order; the exact order among ties is a choice of the model.
- Queries.HomePagesCoverListing, Queries.ListingPagesCoverListings, Pagination.PagesReassemble: each page is a separate query, and the model orders ties the same way for every page. PostgreSQL guarantees that only when the ORDER BY key is unique, and `e.date` and `name` are not: two rows with one key that straddle a page boundary could be shown twice or not at all.
- The popular-events ranking orders ties the same way; the proved "top five" property holds whichever tied events are shown.
- The SQLAlchemy relationship cascades (models/your_model.py:16, 33, 52) act only on deletes through the ORM session. The handlers delete with raw SQL, so the model uses the `ondelete='CASCADE'` foreign keys, which remove the same rows.
- Seeding's error branch catches every exception. The model only has the IntegrityErrors of refused INSERTs; connection errors are left out.
