/** The four tables of models/your_model.py and the constraints the schema
    declares on them. A required (NOT NULL) column is a plain field; a
    nullable one (phone, description) is an Option. The created_at and
    registered_at timestamps are not modelled. */
module Schema {
  import opened SeqUtil

  /** A calendar date; dates compare year first, then month, then day. */
  datatype Date = Date(year: int, month: int, day: int)

  predicate DateLe(a: Date, b: Date) {
    a.year < b.year
    || (a.year == b.year && a.month < b.month)
    || (a.year == b.year && a.month == b.month && a.day <= b.day)
  }

  /** The `db.Integer` columns are PostgreSQL `integer`s: 32 bits, signed.
      A value outside this range is refused with "integer out of range". */
  predicate IsInteger(x: int) {
    -0x8000_0000 <= x <= 0x7FFF_FFFF
  }

  datatype Organizer = Organizer(id: int, name: string, email: string, phone: Option<string>)

  datatype Event = Event(
    id: int,
    name: string,
    date: Date,
    location: string,
    description: Option<string>,
    organizerId: int)

  datatype Attendee = Attendee(id: int, name: string, email: string, phone: Option<string>)

  datatype Ticket = Ticket(id: int, eventId: int, attendeeId: int)

  datatype Tables = Tables(
    organizers: seq<Organizer>,
    events: seq<Event>,
    attendees: seq<Attendee>,
    tickets: seq<Ticket>)

  // Column projections, used as keys and references.
  function OrganizerKey(o: Organizer): int { o.id }
  function OrganizerEmail(o: Organizer): string { o.email }
  function EventKey(e: Event): int { e.id }
  function EventOrganizer(e: Event): int { e.organizerId }
  function AttendeeKey(a: Attendee): int { a.id }
  function AttendeeEmail(a: Attendee): string { a.email }
  function TicketKey(t: Ticket): int { t.id }
  function TicketEvent(t: Ticket): int { t.eventId }
  function TicketAttendee(t: Ticket): int { t.attendeeId }
  function TicketPair(t: Ticket): (int, int) { (t.eventId, t.attendeeId) }

  /** Every `id` column is a primary key. */
  predicate PrimaryKeys(t: Tables) {
    && DistinctBy(t.organizers, OrganizerKey)
    && DistinctBy(t.events, EventKey)
    && DistinctBy(t.attendees, AttendeeKey)
    && DistinctBy(t.tickets, TicketKey)
  }

  /** `unique=True` on organizers.email and on attendees.email. */
  predicate UniqueEmails(t: Tables) {
    DistinctBy(t.organizers, OrganizerEmail) && DistinctBy(t.attendees, AttendeeEmail)
  }

  /** The constraint unique_event_attendee on (event_id, attendee_id). */
  predicate UniqueRegistrations(t: Tables) {
    DistinctBy(t.tickets, TicketPair)
  }

  /** events.organizer_id, tickets.event_id and tickets.attendee_id name
      existing rows. */
  predicate ForeignKeys(t: Tables) {
    && (forall e :: e in t.events ==> e.organizerId in Keys(t.organizers, OrganizerKey))
    && (forall tk :: tk in t.tickets ==> tk.eventId in Keys(t.events, EventKey))
    && (forall tk :: tk in t.tickets ==> tk.attendeeId in Keys(t.attendees, AttendeeKey))
  }

  /** Every constraint of the schema holds. */
  predicate WellFormed(t: Tables) {
    PrimaryKeys(t) && UniqueEmails(t) && UniqueRegistrations(t) && ForeignKeys(t)
  }

  function EmptyTables(): Tables { Tables([], [], [], []) }

  /** The tickets of one event (the relationship Event.tickets). */
  function TicketsOfEvent(t: Tables, eventId: int): (r: seq<Ticket>)
    ensures forall tk :: tk in r <==> tk in t.tickets && tk.eventId == eventId
    ensures multiset(r) <= multiset(t.tickets)
  {
    FilterMembers(t.tickets, Refers(TicketEvent, eventId));
    assert forall tk: Ticket :: Refers(TicketEvent, eventId)(tk) == (tk.eventId == eventId);
    Filter(t.tickets, Refers(TicketEvent, eventId))
  }

  /** The events of one organizer (the relationship Organizer.events). */
  function EventsOfOrganizer(t: Tables, organizerId: int): (r: seq<Event>)
    ensures forall e :: e in r <==> e in t.events && e.organizerId == organizerId
    ensures multiset(r) <= multiset(t.events)
  {
    FilterMembers(t.events, Refers(EventOrganizer, organizerId));
    assert forall e: Event :: Refers(EventOrganizer, organizerId)(e) == (e.organizerId == organizerId);
    Filter(t.events, Refers(EventOrganizer, organizerId))
  }

  /** The tickets of one attendee (the relationship Attendee.tickets). */
  function TicketsOfAttendee(t: Tables, attendeeId: int): (r: seq<Ticket>)
    ensures forall tk :: tk in r <==> tk in t.tickets && tk.attendeeId == attendeeId
    ensures multiset(r) <= multiset(t.tickets)
  {
    FilterMembers(t.tickets, Refers(TicketAttendee, attendeeId));
    assert forall tk: Ticket :: Refers(TicketAttendee, attendeeId)(tk) == (tk.attendeeId == attendeeId);
    Filter(t.tickets, Refers(TicketAttendee, attendeeId))
  }

  /** `Event.attendee_count`: `len(self.tickets)`. */
  function AttendeeCount(t: Tables, eventId: int): nat {
    |TicketsOfEvent(t, eventId)|
  }

  /** Under the unique (event_id, attendee_id) constraint the tickets of one
      event name each attendee at most once. */
  lemma EventTicketsDistinctAttendees(tickets: seq<Ticket>, eventId: int)
    requires DistinctBy(tickets, TicketPair)
    ensures DistinctBy(Filter(tickets, Refers(TicketEvent, eventId)), TicketAttendee)
  {
    var r := Filter(tickets, Refers(TicketEvent, eventId));
    FilterKeepsDistinct(tickets, TicketPair, Refers(TicketEvent, eventId));
    forall i, j | 0 <= i < j < |r| ensures TicketAttendee(r[i]) != TicketAttendee(r[j]) {
      assert Refers(TicketEvent, eventId)(r[i]) && Refers(TicketEvent, eventId)(r[j]);
      assert TicketEvent(r[i]) == eventId && TicketEvent(r[j]) == eventId;
      assert TicketPair(r[i]) != TicketPair(r[j]);
    }
  }

  /** `attendee_count` counts distinct attendees: at most one ticket of the
      event per attendee. */
  lemma OneTicketPerAttendee(t: Tables, eventId: int, attendeeId: int)
    requires UniqueRegistrations(t)
    ensures |Filter(TicketsOfEvent(t, eventId), Refers(TicketAttendee, attendeeId))| <= 1
  {
    EventTicketsDistinctAttendees(t.tickets, eventId);
    AtMostOneRefers(TicketsOfEvent(t, eventId), TicketAttendee, attendeeId);
  }
}
