/** The handlers of index.py that change the database: each one sends its
    statements and commits, so each is a method of the `Database` class that
    replaces the tables with what the engine makes of them. */
module App {
  import opened SeqUtil
  import opened Schema
  import opened Engine

  /** The two flash messages of register_event, and the request failing
      on an error the handler does not catch. */
  datatype RegisterOutcome = Registered | AlreadyRegistered | RequestFailed

  /** delete_organizer and delete_attendee either delete or refuse because
      of the given number of dependent rows. */
  datatype GuardOutcome = Deleted | HasDependents(count: nat)

  /** The create_event form after parsing: an empty date or organizer field
      is None, an empty text field is the empty string. */
  datatype EventForm = EventForm(
    name: string,
    date: Option<Date>,
    location: string,
    description: string,
    organizerId: Option<int>)

  /** A refused INSERT and an organizer id outside the column's range both
      raise an exception create_event does not catch. */
  datatype CreateOutcome = Created | MissingFields | InsertFailed(violation: Violation) | OutOfRange

  /** The row create_event inserts, or None when one of name, date, location
      and organizer is empty (the description may be). */
  function EventFromForm(form: EventForm): (r: Option<Event>)
    ensures r.None? <==>
      form.name == [] || form.date.None? || form.location == [] || form.organizerId.None?
    ensures r.Some? ==>
      && r.value.name == form.name && r.value.location == form.location
      && Some(r.value.date) == form.date && Some(r.value.organizerId) == form.organizerId
      && r.value.description == Some(form.description)
  {
    if form.name == [] || form.date.None? || form.location == [] || form.organizerId.None? then None
    else Some(Event(0, form.name, form.date.value, form.location, Some(form.description), form.organizerId.value))
  }

  lemma InsertOrganizerPreserves()
    ensures forall s, row :: Consistent(s) && InsertOrganizer(s, row).Success? ==> Consistent(InsertOrganizer(s, row).value)
  {
    forall s, row | Consistent(s) && InsertOrganizer(s, row).Success?
      ensures Consistent(InsertOrganizer(s, row).value)
    {
      InsertOrganizerKeepsConsistent(s, row);
    }
  }

  lemma InsertEventPreserves()
    ensures forall s, row :: Consistent(s) && InsertEvent(s, row).Success? ==> Consistent(InsertEvent(s, row).value)
  {
    forall s, row | Consistent(s) && InsertEvent(s, row).Success?
      ensures Consistent(InsertEvent(s, row).value)
    {
      InsertEventKeepsConsistent(s, row);
    }
  }

  lemma InsertAttendeePreserves()
    ensures forall s, row :: Consistent(s) && InsertAttendee(s, row).Success? ==> Consistent(InsertAttendee(s, row).value)
  {
    forall s, row | Consistent(s) && InsertAttendee(s, row).Success?
      ensures Consistent(InsertAttendee(s, row).value)
    {
      InsertAttendeeKeepsConsistent(s, row);
    }
  }

  lemma InsertTicketPreserves()
    ensures forall s, row :: Consistent(s) && InsertTicket(s, row).Success? ==> Consistent(InsertTicket(s, row).value)
  {
    forall s, row | Consistent(s) && InsertTicket(s, row).Success?
      ensures Consistent(InsertTicket(s, row).value)
    {
      InsertTicketKeepsConsistent(s, row);
    }
  }

  /** The PostgreSQL database the application talks to: its four tables and
      the next value of each id sequence. */
  class Database {
    var organizers: seq<Organizer>
    var events: seq<Event>
    var attendees: seq<Attendee>
    var tickets: seq<Ticket>
    var next: NextIds

    function Contents(): Tables
      reads this
    {
      Tables(organizers, events, attendees, tickets)
    }

    function State(): DbState
      reads this
    {
      DbState(Contents(), next)
    }

    /** Every committed state satisfies the schema's constraints. */
    ghost predicate Valid()
      reads this
    {
      Consistent(State())
    }

    /** The database as `create_all` leaves it. */
    constructor ()
      ensures State() == FreshDb()
      ensures Valid()
    {
      organizers, events, attendees, tickets := [], [], [], [];
      next := NextIds(1, 1, 1, 1);
    }

    /** Makes `s` the committed state. */
    method Store(s: DbState)
      modifies this
      ensures State() == s
    {
      organizers, events, attendees, tickets := s.tables.organizers, s.tables.events, s.tables.attendees, s.tables.tickets;
      next := s.next;
    }

    /** register_event: INSERT the ticket and commit; the IntegrityError of a
        duplicate pair (or of a missing event or attendee) is reported as
        "already registered" and commits nothing. An id outside the integer
        columns' range raises a DataError instead, which is not caught: the
        request fails and nothing is committed. */
    method RegisterEvent(eventId: int, attendeeId: int) returns (outcome: RegisterOutcome)
      requires Valid()
      modifies this
      ensures Valid()
      ensures outcome == RequestFailed <==> !IsInteger(eventId) || !IsInteger(attendeeId)
      ensures outcome == Registered <==>
        && IsInteger(eventId) && IsInteger(attendeeId)
        && (eventId, attendeeId) !in Keys(old(tickets), TicketPair)
        && eventId in Keys(old(events), EventKey)
        && attendeeId in Keys(old(attendees), AttendeeKey)
      ensures outcome == Registered ==>
        && tickets == old(tickets) + [Ticket(old(next.ticket), eventId, attendeeId)]
        && organizers == old(organizers) && events == old(events) && attendees == old(attendees)
        && next == old(next).(ticket := old(next.ticket) + 1)
      ensures outcome != Registered ==> State() == old(State())
    {
      if !IsInteger(eventId) || !IsInteger(attendeeId) {
        return RequestFailed;
      }
      var row := Ticket(0, eventId, attendeeId);
      InsertTicketKeepsConsistent(State(), row);
      var r := InsertTicket(State(), row);
      if r.Success? {
        Store(r.value);
        outcome := Registered;
      } else {
        outcome := AlreadyRegistered;
      }
    }

    /** unregister_event: DELETE the pair's ticket and commit. */
    method UnregisterEvent(eventId: int, attendeeId: int)
      requires Valid()
      modifies this
      ensures Valid()
      ensures (eventId, attendeeId) !in Keys(tickets, TicketPair)
      ensures forall tk :: tk in old(tickets) && TicketPair(tk) != (eventId, attendeeId) ==> tk in tickets
      ensures forall tk :: tk in tickets ==> tk in old(tickets)
      ensures (eventId, attendeeId) !in Keys(old(tickets), TicketPair) ==> State() == old(State())
      ensures |tickets| == |old(tickets)| - (if (eventId, attendeeId) in Keys(old(tickets), TicketPair) then 1 else 0)
      ensures organizers == old(organizers) && events == old(events) && attendees == old(attendees)
      ensures next == old(next)
    {
      var t := Contents();
      var r := DeleteRegistration(t, eventId, attendeeId);
      DeleteRegistrationEffect(t, eventId, attendeeId);
      FewerRowsKeepIdsDrawn(State(), r);
      tickets := r.tickets;
    }

    /** delete_event: DELETE the event and commit; the schema's cascade
        takes its tickets with it. */
    method DeleteEvent(eventId: int)
      requires Valid()
      modifies this
      ensures Valid()
      ensures eventId !in Keys(events, EventKey)
      ensures multiset(events) + multiset(Filter(old(events), Refers(EventKey, eventId))) == multiset(old(events))
      ensures TicketsOfEvent(Contents(), eventId) == []
      ensures multiset(tickets) + multiset(TicketsOfEvent(old(Contents()), eventId)) == multiset(old(tickets))
      ensures organizers == old(organizers) && attendees == old(attendees)
      ensures next == old(next)
    {
      var t := Contents();
      var r := Engine.DeleteEvent(t, eventId);
      DeleteEventKeepsWellFormed(t, eventId);
      DeleteEventCascades(t, eventId);
      FewerRowsKeepIdsDrawn(State(), r);
      events, tickets := r.events, r.tickets;
    }

    /** delete_organizer: count the organizer's events; refuse when there
        are any, otherwise DELETE the organizer and commit. */
    method DeleteOrganizer(organizerId: int) returns (outcome: GuardOutcome)
      requires Valid()
      modifies this
      ensures Valid()
      ensures outcome.HasDependents? <==> EventsOfOrganizer(old(Contents()), organizerId) != []
      ensures outcome.HasDependents? ==>
        outcome.count == |EventsOfOrganizer(old(Contents()), organizerId)| && State() == old(State())
      ensures outcome == Deleted ==>
        && organizers == Filter(old(organizers), Not(Refers(OrganizerKey, organizerId)))
        && organizerId !in Keys(organizers, OrganizerKey)
        && events == old(events) && attendees == old(attendees) && tickets == old(tickets)
        && next == old(next)
    {
      var eventCount := |EventsOfOrganizer(Contents(), organizerId)|;
      if eventCount > 0 {
        outcome := HasDependents(eventCount);
      } else {
        var t := Contents();
        var r := Engine.DeleteOrganizer(t, organizerId);
        GuardedOrganizerDeleteIsExact(t, organizerId);
        DeleteOrganizerKeepsWellFormed(t, organizerId);
        DeleteOrganizerRemovesRow(t, organizerId);
        FewerRowsKeepIdsDrawn(State(), r);
        organizers := r.organizers;
        outcome := Deleted;
      }
    }

    /** delete_attendee: count the attendee's tickets; refuse when there are
        any, otherwise DELETE the attendee and commit. */
    method DeleteAttendee(attendeeId: int) returns (outcome: GuardOutcome)
      requires Valid()
      modifies this
      ensures Valid()
      ensures outcome.HasDependents? <==> TicketsOfAttendee(old(Contents()), attendeeId) != []
      ensures outcome.HasDependents? ==>
        outcome.count == |TicketsOfAttendee(old(Contents()), attendeeId)| && State() == old(State())
      ensures outcome == Deleted ==>
        && attendees == Filter(old(attendees), Not(Refers(AttendeeKey, attendeeId)))
        && attendeeId !in Keys(attendees, AttendeeKey)
        && organizers == old(organizers) && events == old(events) && tickets == old(tickets)
        && next == old(next)
    {
      var ticketCount := |TicketsOfAttendee(Contents(), attendeeId)|;
      if ticketCount > 0 {
        outcome := HasDependents(ticketCount);
      } else {
        var t := Contents();
        var r := Engine.DeleteAttendee(t, attendeeId);
        GuardedAttendeeDeleteIsExact(t, attendeeId);
        DeleteAttendeeKeepsWellFormed(t, attendeeId);
        DeleteAttendeeCascades(t, attendeeId);
        FewerRowsKeepIdsDrawn(State(), r);
        attendees := r.attendees;
        outcome := Deleted;
      }
    }

    /** create_event: refuse a form with a required field missing; otherwise
        INSERT the event and commit. An unknown organizer, or an organizer id
        outside the column's range, makes the INSERT fail, the exception is
        not caught, and nothing is committed. */
    method CreateEvent(form: EventForm) returns (outcome: CreateOutcome)
      requires Valid()
      modifies this
      ensures Valid()
      ensures outcome == MissingFields <==> EventFromForm(form).None?
      ensures outcome == OutOfRange <==> EventFromForm(form).Some? && !IsInteger(form.organizerId.value)
      ensures outcome == Created <==>
        && EventFromForm(form).Some? && IsInteger(form.organizerId.value)
        && form.organizerId.value in Keys(old(organizers), OrganizerKey)
      ensures outcome != Created ==> State() == old(State())
      ensures outcome == Created ==>
        && events == old(events) + [EventFromForm(form).value.(id := old(next.event))]
        && organizers == old(organizers) && attendees == old(attendees) && tickets == old(tickets)
        && next == old(next).(event := old(next.event) + 1)
    {
      var row := EventFromForm(form);
      if row.None? {
        outcome := MissingFields;
      } else if !IsInteger(row.value.organizerId) {
        outcome := OutOfRange;
      } else {
        InsertEventKeepsConsistent(State(), row.value);
        var r := InsertEvent(State(), row.value);
        if r.Success? {
          Store(r.value);
          outcome := Created;
        } else {
          outcome := InsertFailed(r.error);
        }
      }
    }

    /** `db.session.commit()` of a batch of added rows: all of them are
        inserted, or on the first IntegrityError the session rolls back and
        none is. */
    method Commit<R>(batch: seq<R>, insert: (DbState, R) -> Result<DbState, Violation>) returns (committed: bool)
      requires Valid()
      requires forall s0, row :: Consistent(s0) && insert(s0, row).Success? ==> Consistent(insert(s0, row).value)
      modifies this
      ensures Valid()
      ensures committed <==> InsertAll(old(State()), batch, insert).Success?
      ensures committed ==> State() == InsertAll(old(State()), batch, insert).value
      ensures !committed ==> State() == old(State())
    {
      var r := InsertAll(State(), batch, insert);
      InsertAllKeepsConsistent(State(), batch, insert);
      if r.Success? {
        Store(r.value);
        committed := true;
      } else {
        committed := false;
      }
    }
  }
}
