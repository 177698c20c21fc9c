/** The read-only queries of index.py: the four paginated listings, the
    available and registered attendees of an event, and the aggregates of
    the dashboard. Each query is a function of the tables; ORDER BY is the
    stable sort of module Ordering. */
module Queries {
  import opened SeqUtil
  import opened Ordering
  import opened Schema
  import opened Pagination

  // ------------------------------------------------------------ orderings

  /** ORDER BY on a text column, ascending. */
  function ByName<T>(name: T -> string): (T, T) -> bool {
    (a, b) => StrLe(name(a), name(b))
  }

  lemma ByNameIsTotalPreorder<T(!new)>(name: T -> string)
    ensures TotalPreorder(ByName(name))
  {
    forall a, b ensures ByName(name)(a, b) || ByName(name)(b, a) {
      StrLeTotal(name(a), name(b));
    }
    forall a, b, c | ByName(name)(a, b) && ByName(name)(b, c) ensures ByName(name)(a, c) {
      StrLeTransitive(name(a), name(b), name(c));
    }
  }

  // ------------------------------------------------------ event listings

  /** A row of the event listings: the event and the name of its organizer
      (None where the LEFT JOIN found no organizer). */
  datatype EventRow = EventRow(event: Event, organizerName: Option<string>)

  /** The organizer row with the given id (the join condition
      `e.organizer_id = o.id`). */
  function FindOrganizer(os: seq<Organizer>, id: int): (r: Option<Organizer>)
    ensures r.Some? ==> r.value in os && r.value.id == id
    ensures r.None? <==> id !in Keys(os, OrganizerKey)
  {
    if os == [] then None
    else
      assert Keys(os, OrganizerKey) == [os[0].id] + Keys(os[1..], OrganizerKey);
      if os[0].id == id then Some(os[0]) else FindOrganizer(os[1..], id)
  }

  function OrganizerName(t: Tables, e: Event): Option<string> {
    match FindOrganizer(t.organizers, e.organizerId)
    case None => None
    case Some(o) => Some(o.name)
  }

  /** `events e LEFT JOIN organizers o ON e.organizer_id = o.id`. */
  function JoinOrganizers(t: Tables): (r: seq<EventRow>)
    ensures |r| == |t.events|
    ensures forall i :: 0 <= i < |r| ==> r[i].event == t.events[i]
  {
    seq(|t.events|, i requires 0 <= i < |t.events| => EventRow(t.events[i], OrganizerName(t, t.events[i])))
  }

  function HasOrganizer(r: EventRow): bool { r.organizerName.Some? }

  function RowDate(r: EventRow): Date { r.event.date }

  /** ORDER BY e.date (ascending). */
  predicate EarlierFirst(a: EventRow, b: EventRow) { DateLe(RowDate(a), RowDate(b)) }

  /** ORDER BY e.date DESC. */
  predicate LaterFirst(a: EventRow, b: EventRow) { DateLe(RowDate(b), RowDate(a)) }

  lemma DateOrdersAreTotalPreorders()
    ensures TotalPreorder(EarlierFirst)
    ensures TotalPreorder(LaterFirst)
  {
  }

  /** The home page's rows: the inner join, oldest event first. */
  function HomeListing(t: Tables): seq<EventRow> {
    Sort(Filter(JoinOrganizers(t), HasOrganizer), EarlierFirst)
  }

  /** The events page's rows: the left join, newest event first. */
  function EventListing(t: Tables): seq<EventRow> {
    Sort(JoinOrganizers(t), LaterFirst)
  }

  /** Under the primary key and the foreign key on organizer_id, the join
      pairs every event with the name of its own organizer. */
  lemma JoinNamesOrganizer(t: Tables, i: int, o: Organizer)
    requires PrimaryKeys(t)
    requires 0 <= i < |t.events| && o in t.organizers && o.id == t.events[i].organizerId
    ensures JoinOrganizers(t)[i].organizerName == Some(o.name)
  {
    var found := FindOrganizer(t.organizers, o.id);
    var j :| 0 <= j < |t.organizers| && t.organizers[j] == o;
    assert Keys(t.organizers, OrganizerKey)[j] == o.id;
    var k :| 0 <= k < |t.organizers| && t.organizers[k] == found.value;
    assert OrganizerKey(t.organizers[j]) == OrganizerKey(t.organizers[k]);
  }

  /** With the foreign key in place the inner join drops no event: the home
      listing holds every event once, oldest first, each with an organizer. */
  lemma HomeListingIsComplete(t: Tables)
    requires WellFormed(t)
    ensures multiset(HomeListing(t)) == multiset(JoinOrganizers(t))
    ensures |HomeListing(t)| == |t.events|
    ensures forall r :: r in HomeListing(t) ==> r.organizerName.Some?
    ensures SortedBy(HomeListing(t), EarlierFirst)
  {
    var joined := JoinOrganizers(t);
    forall r | r in joined ensures HasOrganizer(r) {
      var i :| 0 <= i < |joined| && joined[i] == r;
      assert t.events[i] in t.events;
    }
    FilterAll(joined, HasOrganizer);
    DateOrdersAreTotalPreorders();
    SortSorted(Filter(joined, HasOrganizer), EarlierFirst);
    forall r | r in HomeListing(t) ensures r.organizerName.Some? {
      assert r in multiset(joined);
    }
  }

  /** The events listing holds every event once, newest first. */
  lemma EventListingIsComplete(t: Tables)
    ensures multiset(EventListing(t)) == multiset(JoinOrganizers(t))
    ensures |EventListing(t)| == |t.events|
    ensures SortedBy(EventListing(t), LaterFirst)
  {
    DateOrdersAreTotalPreorders();
    SortSorted(JoinOrganizers(t), LaterFirst);
  }

  // ------------------------------------------- organizer and attendee rows

  function CountedOrganizerName(c: Counted<Organizer>): string { c.item.name }
  function CountedAttendeeName(c: Counted<Attendee>): string { c.item.name }
  function AttendeeName(a: Attendee): string { a.name }

  /** `organizers o LEFT JOIN events e ... GROUP BY o.id ORDER BY o.name`
      with `COUNT(e.id)`; the organizers page and the dashboard's
      events-per-organizer chart both show these rows. */
  function OrganizerRows(t: Tables): seq<Counted<Organizer>> {
    Sort(Tally(t.organizers, OrganizerKey, t.events, EventOrganizer), ByName(CountedOrganizerName))
  }

  /** `attendees a LEFT JOIN tickets t ... GROUP BY a.id ORDER BY a.name`
      with `COUNT(t.event_id)`. */
  function AttendeeRows(t: Tables): seq<Counted<Attendee>> {
    Sort(Tally(t.attendees, AttendeeKey, t.tickets, TicketAttendee), ByName(CountedAttendeeName))
  }

  /** Every organizer is listed, those without events with count 0, and
      every row carries the number of that organizer's events; the rows are
      ordered by name. */
  lemma OrganizerRowsCount(t: Tables)
    ensures |OrganizerRows(t)| == |t.organizers|
    ensures forall o :: o in t.organizers ==> Counted(o, |EventsOfOrganizer(t, o.id)|) in OrganizerRows(t)
    ensures forall r :: r in OrganizerRows(t) ==> r.item in t.organizers && r.count == |EventsOfOrganizer(t, r.item.id)|
    ensures SortedBy(OrganizerRows(t), ByName(CountedOrganizerName))
  {
    var tally := Tally(t.organizers, OrganizerKey, t.events, EventOrganizer);
    forall o | o in t.organizers ensures Counted(o, |EventsOfOrganizer(t, o.id)|) in OrganizerRows(t) {
      var i :| 0 <= i < |t.organizers| && t.organizers[i] == o;
      assert tally[i] == Counted(o, |EventsOfOrganizer(t, o.id)|);
      assert tally[i] in multiset(tally);
    }
    forall r | r in OrganizerRows(t) ensures r.item in t.organizers && r.count == |EventsOfOrganizer(t, r.item.id)| {
      assert r in multiset(tally);
      var i :| 0 <= i < |tally| && tally[i] == r;
    }
    ByNameIsTotalPreorder(CountedOrganizerName);
    SortSorted(tally, ByName(CountedOrganizerName));
  }

  /** Under the schema's constraints the per-organizer counts add up to the
      number of events. */
  lemma OrganizerCountsSum(t: Tables)
    requires WellFormed(t)
    ensures SumOf(OrganizerRows(t), CountOf) == |t.events|
  {
    TallySum(t.organizers, OrganizerKey, t.events, EventOrganizer);
    SortSum(Tally(t.organizers, OrganizerKey, t.events, EventOrganizer), ByName(CountedOrganizerName), CountOf);
  }

  /** Every attendee is listed with the number of tickets it holds, ordered
      by name. */
  lemma AttendeeRowsCount(t: Tables)
    ensures |AttendeeRows(t)| == |t.attendees|
    ensures forall a :: a in t.attendees ==> Counted(a, |TicketsOfAttendee(t, a.id)|) in AttendeeRows(t)
    ensures forall r :: r in AttendeeRows(t) ==> r.item in t.attendees && r.count == |TicketsOfAttendee(t, r.item.id)|
    ensures SortedBy(AttendeeRows(t), ByName(CountedAttendeeName))
  {
    var tally := Tally(t.attendees, AttendeeKey, t.tickets, TicketAttendee);
    forall a | a in t.attendees ensures Counted(a, |TicketsOfAttendee(t, a.id)|) in AttendeeRows(t) {
      var i :| 0 <= i < |t.attendees| && t.attendees[i] == a;
      assert tally[i] == Counted(a, |TicketsOfAttendee(t, a.id)|);
      assert tally[i] in multiset(tally);
    }
    forall r | r in AttendeeRows(t) ensures r.item in t.attendees && r.count == |TicketsOfAttendee(t, r.item.id)| {
      assert r in multiset(tally);
      var i :| 0 <= i < |tally| && tally[i] == r;
    }
    ByNameIsTotalPreorder(CountedAttendeeName);
    SortSorted(tally, ByName(CountedAttendeeName));
  }

  /** Under the schema's constraints the per-attendee counts add up to the
      number of tickets. */
  lemma AttendeeCountsSum(t: Tables)
    requires WellFormed(t)
    ensures SumOf(AttendeeRows(t), CountOf) == |t.tickets|
  {
    TallySum(t.attendees, AttendeeKey, t.tickets, TicketAttendee);
    SortSum(Tally(t.attendees, AttendeeKey, t.tickets, TicketAttendee), ByName(CountedAttendeeName), CountOf);
  }

  // ---------------------------------------------------------- the pages

  /** One page of each listing, and the number of pages its handler
      computes from `SELECT COUNT(*)` of the listed table. */
  function HomePage(t: Tables, page: int): Result<seq<EventRow>, PageError> {
    Page(HomeListing(t), page, HomePerPage)
  }

  function EventsPage(t: Tables, page: int): Result<seq<EventRow>, PageError> {
    Page(EventListing(t), page, ListPerPage)
  }

  function OrganizersPage(t: Tables, page: int): Result<seq<Counted<Organizer>>, PageError> {
    Page(OrganizerRows(t), page, ListPerPage)
  }

  function AttendeesPage(t: Tables, page: int): Result<seq<Counted<Attendee>>, PageError> {
    Page(AttendeeRows(t), page, ListPerPage)
  }

  /** Although the home page counts events but lists an inner join, under
      the foreign key pages 1..total_pages show every listed row once, and
      a later page is empty. */
  lemma HomePagesCoverListing(t: Tables)
    requires WellFormed(t)
    requires |t.events| <= BigintMax
    ensures Served(p => HomePage(t, p), TotalPages(|t.events|, HomePerPage)) == HomeListing(t)
    ensures forall p :: p > TotalPages(|t.events|, HomePerPage) && Offset(p, HomePerPage) <= BigintMax ==>
      HomePage(t, p) == Success([])
  {
    HomeListingIsComplete(t);
    var n := TotalPages(|t.events|, HomePerPage);
    PagesReassemble(p => HomePage(t, p), HomeListing(t), HomePerPage);
    forall p | p > n && Offset(p, HomePerPage) <= BigintMax ensures HomePage(t, p) == Success([]) {
      PagePastLastIsEmpty(HomeListing(t), p, HomePerPage);
    }
  }

  /** The same for the events, organizers and attendees listings, whose
      total_pages counts the rows they list. */
  lemma ListingPagesCoverListings(t: Tables)
    requires |t.events| <= BigintMax && |t.organizers| <= BigintMax && |t.attendees| <= BigintMax
    ensures Served(p => EventsPage(t, p), TotalPages(|t.events|, ListPerPage)) == EventListing(t)
    ensures Served(p => OrganizersPage(t, p), TotalPages(|t.organizers|, ListPerPage)) == OrganizerRows(t)
    ensures Served(p => AttendeesPage(t, p), TotalPages(|t.attendees|, ListPerPage)) == AttendeeRows(t)
    ensures forall p :: p > TotalPages(|t.events|, ListPerPage) && Offset(p, ListPerPage) <= BigintMax ==>
      EventsPage(t, p) == Success([])
    ensures forall p :: p > TotalPages(|t.organizers|, ListPerPage) && Offset(p, ListPerPage) <= BigintMax ==>
      OrganizersPage(t, p) == Success([])
    ensures forall p :: p > TotalPages(|t.attendees|, ListPerPage) && Offset(p, ListPerPage) <= BigintMax ==>
      AttendeesPage(t, p) == Success([])
  {
    EventListingIsComplete(t);
    OrganizerRowsCount(t);
    AttendeeRowsCount(t);
    var ne := TotalPages(|t.events|, ListPerPage);
    var no := TotalPages(|t.organizers|, ListPerPage);
    var na := TotalPages(|t.attendees|, ListPerPage);
    PagesReassemble(p => EventsPage(t, p), EventListing(t), ListPerPage);
    PagesReassemble(p => OrganizersPage(t, p), OrganizerRows(t), ListPerPage);
    PagesReassemble(p => AttendeesPage(t, p), AttendeeRows(t), ListPerPage);
    forall p | p > ne && Offset(p, ListPerPage) <= BigintMax ensures EventsPage(t, p) == Success([]) {
      PagePastLastIsEmpty(EventListing(t), p, ListPerPage);
    }
    forall p | p > no && Offset(p, ListPerPage) <= BigintMax ensures OrganizersPage(t, p) == Success([]) {
      PagePastLastIsEmpty(OrganizerRows(t), p, ListPerPage);
    }
    forall p | p > na && Offset(p, ListPerPage) <= BigintMax ensures AttendeesPage(t, p) == Success([]) {
      PagePastLastIsEmpty(AttendeeRows(t), p, ListPerPage);
    }
  }

  // ------------------------------------- available and registered attendees

  /** `SELECT attendee_id FROM tickets WHERE event_id = eventId`. */
  function RegisteredIds(t: Tables, eventId: int): seq<int> {
    Keys(TicketsOfEvent(t, eventId), TicketAttendee)
  }

  lemma RegisteredIdHasTicket(t: Tables, eventId: int, attendeeId: int)
    requires attendeeId in RegisteredIds(t, eventId)
    ensures (eventId, attendeeId) in Keys(t.tickets, TicketPair)
  {
    var mine := TicketsOfEvent(t, eventId);
    var i :| 0 <= i < |mine| && RegisteredIds(t, eventId)[i] == attendeeId;
    assert Refers(TicketEvent, eventId)(mine[i]);
    assert TicketEvent(mine[i]) == eventId;
    var j :| 0 <= j < |t.tickets| && t.tickets[j] == mine[i];
    assert Keys(t.tickets, TicketPair)[j] == (eventId, attendeeId);
  }

  lemma TicketIsRegisteredId(t: Tables, eventId: int, attendeeId: int)
    requires (eventId, attendeeId) in Keys(t.tickets, TicketPair)
    ensures attendeeId in RegisteredIds(t, eventId)
  {
    var mine := TicketsOfEvent(t, eventId);
    var j :| 0 <= j < |t.tickets| && Keys(t.tickets, TicketPair)[j] == (eventId, attendeeId);
    assert Refers(TicketEvent, eventId)(t.tickets[j]);
    assert t.tickets[j] in mine;
    var i :| 0 <= i < |mine| && mine[i] == t.tickets[j];
    assert RegisteredIds(t, eventId)[i] == attendeeId;
  }

  /** An attendee id is registered for the event exactly when the pair is
      in the tickets table. */
  lemma RegisteredIdsMeansTicket(t: Tables, eventId: int, attendeeId: int)
    ensures attendeeId in RegisteredIds(t, eventId) <==> (eventId, attendeeId) in Keys(t.tickets, TicketPair)
  {
    if attendeeId in RegisteredIds(t, eventId) {
      RegisteredIdHasTicket(t, eventId, attendeeId);
    }
    if (eventId, attendeeId) in Keys(t.tickets, TicketPair) {
      TicketIsRegisteredId(t, eventId, attendeeId);
    }
  }

  /** `attendees WHERE id NOT IN (...) ORDER BY name`. */
  function Available(t: Tables, eventId: int): seq<Attendee> {
    Sort(Filter(t.attendees, Not(IsRegistered(t, eventId))), ByName(AttendeeName))
  }

  /** `attendees a JOIN tickets t ON a.id = t.attendee_id WHERE t.event_id =
      eventId ORDER BY a.name`: each attendee once per matching ticket. */
  function Registered(t: Tables, eventId: int): seq<Attendee> {
    Sort(Expand(Tally(t.attendees, AttendeeKey, TicketsOfEvent(t, eventId), TicketAttendee)), ByName(AttendeeName))
  }

  /** Under the unique (event_id, attendee_id) constraint the join lists
      exactly the attendees whose id is registered, each once. */
  lemma RegisteredIsSemiJoin(t: Tables, eventId: int)
    requires UniqueRegistrations(t)
    ensures Registered(t, eventId) == Sort(Filter(t.attendees, IsRegistered(t, eventId)), ByName(AttendeeName))
  {
    EventTicketsDistinctAttendees(t.tickets, eventId);
    ExpandTallyIsFilter(t.attendees, AttendeeKey, TicketsOfEvent(t, eventId), TicketAttendee);
  }

  /** Registered for the event: holds one of its tickets. */
  function IsRegistered(t: Tables, eventId: int): Attendee -> bool {
    RefersToAny(AttendeeKey, RegisteredIds(t, eventId))
  }

  /** The page of register_event splits the attendees in two: together
      the two lists hold every attendee exactly once. */
  lemma AvailableRegisteredPartition(t: Tables, eventId: int)
    requires UniqueRegistrations(t)
    ensures multiset(Available(t, eventId)) + multiset(Registered(t, eventId)) == multiset(t.attendees)
  {
    RegisteredIsSemiJoin(t, eventId);
    FilterSplit(t.attendees, IsRegistered(t, eventId));
  }

  /** No attendee is both available and registered. */
  lemma AvailableRegisteredDisjoint(t: Tables, eventId: int, a: Attendee)
    requires UniqueRegistrations(t)
    requires a in Available(t, eventId)
    ensures a !in Registered(t, eventId)
  {
    var p := IsRegistered(t, eventId);
    RegisteredIsSemiJoin(t, eventId);
    var reg := Filter(t.attendees, p);
    var avail := Filter(t.attendees, Not(p));
    assert a in multiset(avail);
    assert Not(p)(a);
    assert a !in reg;
    assert a !in multiset(reg);
  }

  /** Both lists are ordered by name. */
  lemma AvailableRegisteredSorted(t: Tables, eventId: int)
    requires UniqueRegistrations(t)
    ensures SortedBy(Available(t, eventId), ByName(AttendeeName))
    ensures SortedBy(Registered(t, eventId), ByName(AttendeeName))
  {
    RegisteredIsSemiJoin(t, eventId);
    ByNameIsTotalPreorder(AttendeeName);
    SortSorted(Filter(t.attendees, Not(IsRegistered(t, eventId))), ByName(AttendeeName));
    SortSorted(Filter(t.attendees, IsRegistered(t, eventId)), ByName(AttendeeName));
  }

  /** An attendee appears in the registered list exactly when it holds a
      ticket for the event. */
  lemma RegisteredMeansTicket(t: Tables, eventId: int, a: Attendee)
    requires UniqueRegistrations(t)
    requires a in t.attendees
    ensures a in Registered(t, eventId) <==> (eventId, a.id) in Keys(t.tickets, TicketPair)
  {
    var p := IsRegistered(t, eventId);
    RegisteredIsSemiJoin(t, eventId);
    RegisteredIdsMeansTicket(t, eventId, a.id);
    var reg := Filter(t.attendees, p);
    assert p(a) <==> a.id in RegisteredIds(t, eventId);
    assert a in Registered(t, eventId) <==> a in multiset(reg);
    if p(a) {
      assert a in reg;
    }
  }

  /** `attendee_count` (the number of the event's tickets) is the length of
      the event's registered-attendee list. */
  lemma AttendeeCountIsRegistered(t: Tables, eventId: int)
    requires WellFormed(t)
    ensures AttendeeCount(t, eventId) == |Registered(t, eventId)|
  {
    var mine := TicketsOfEvent(t, eventId);
    forall tk | tk in mine ensures TicketAttendee(tk) in Keys(t.attendees, AttendeeKey) {
      assert tk in t.tickets;
    }
    TallySum(t.attendees, AttendeeKey, mine, TicketAttendee);
  }

  // -------------------------------------------------------- the dashboard

  /** ORDER BY COUNT(t.id) DESC. */
  predicate MoreTickets(a: Counted<Event>, b: Counted<Event>) { a.count >= b.count }

  const PopularLimit: nat := 5

  /** Every event with its ticket count (`events e LEFT JOIN tickets t ...
      GROUP BY e.id`), most tickets first. */
  function RankedEvents(t: Tables): seq<Counted<Event>> {
    Sort(Tally(t.events, EventKey, t.tickets, TicketEvent), MoreTickets)
  }

  /** The dashboard's popular events: the first five of the ranking. */
  function PopularEvents(t: Tables): seq<Counted<Event>> {
    var ranked := RankedEvents(t);
    ranked[..Min(PopularLimit, |ranked|)]
  }

  /** The ranking lists every event once with its attendee_count. */
  lemma RankedEventsCount(t: Tables)
    ensures |RankedEvents(t)| == |t.events|
    ensures forall e :: e in t.events ==> Counted(e, AttendeeCount(t, e.id)) in RankedEvents(t)
    ensures forall r :: r in RankedEvents(t) ==> r.item in t.events && r.count == AttendeeCount(t, r.item.id)
  {
    var tally := Tally(t.events, EventKey, t.tickets, TicketEvent);
    forall e | e in t.events ensures Counted(e, AttendeeCount(t, e.id)) in RankedEvents(t) {
      var i :| 0 <= i < |t.events| && t.events[i] == e;
      assert tally[i] == Counted(e, AttendeeCount(t, e.id));
      assert tally[i] in multiset(tally);
    }
    forall r | r in RankedEvents(t) ensures r.item in t.events && r.count == AttendeeCount(t, r.item.id) {
      assert r in multiset(tally);
      var i :| 0 <= i < |tally| && tally[i] == r;
    }
  }

  /** Top five: min(5, #events) rows, counts not increasing, and no event
      left out has more tickets than any event shown. */
  lemma PopularEventsAreTop(t: Tables)
    ensures |PopularEvents(t)| == Min(PopularLimit, |t.events|)
    ensures forall i, j :: 0 <= i < j < |PopularEvents(t)| ==> PopularEvents(t)[i].count >= PopularEvents(t)[j].count
    ensures forall i, j :: 0 <= i < |PopularEvents(t)| <= j < |RankedEvents(t)| ==>
      RankedEvents(t)[j].count <= PopularEvents(t)[i].count
    ensures forall r :: r in PopularEvents(t) ==> r.item in t.events && r.count == AttendeeCount(t, r.item.id)
  {
    RankedEventsCount(t);
    var ranked := RankedEvents(t);
    assert TotalPreorder(MoreTickets);
    SortSorted(Tally(t.events, EventKey, t.tickets, TicketEvent), MoreTickets);
    forall i, j | 0 <= i < j < |PopularEvents(t)| ensures PopularEvents(t)[i].count >= PopularEvents(t)[j].count {
      assert MoreTickets(ranked[i], ranked[j]);
    }
    forall i, j | 0 <= i < |PopularEvents(t)| <= j < |ranked| ensures ranked[j].count <= PopularEvents(t)[i].count {
      assert MoreTickets(ranked[i], ranked[j]);
    }
  }

  /** What the dashboard shows. */
  datatype Dashboard = Dashboard(
    totalEvents: nat,
    totalAttendees: nat,
    totalOrganizers: nat,
    eventsPerOrganizer: seq<Counted<Organizer>>,
    popular: seq<Counted<Event>>)

  function DashboardOf(t: Tables): Dashboard {
    Dashboard(|t.events|, |t.attendees|, |t.organizers|, OrganizerRows(t), PopularEvents(t))
  }

  /** The dashboard's chart accounts for every event exactly once and its
      top five never exceed the number of events. */
  lemma DashboardIsConsistent(t: Tables)
    requires WellFormed(t)
    ensures SumOf(DashboardOf(t).eventsPerOrganizer, CountOf) == DashboardOf(t).totalEvents
    ensures |DashboardOf(t).eventsPerOrganizer| == DashboardOf(t).totalOrganizers
    ensures |DashboardOf(t).popular| <= DashboardOf(t).totalEvents
  {
    OrganizerCountsSum(t);
    OrganizerRowsCount(t);
    PopularEventsAreTop(t);
  }
}
