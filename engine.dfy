/** What the database does with the statements the application sends it:
    INSERTs draw the id from the table's sequence and are refused with an
    IntegrityError when they break a constraint of the schema; DELETEs
    follow the `ondelete='CASCADE'` foreign keys of models/your_model.py. */
module Engine {
  import opened SeqUtil
  import opened Schema

  /** The next value of each table's id sequence (the SERIAL columns). */
  datatype NextIds = NextIds(organizer: int, event: int, attendee: int, ticket: int)

  datatype DbState = DbState(tables: Tables, next: NextIds)

  /** The kinds of IntegrityError an INSERT can raise. */
  datatype Violation = UniqueViolation | ForeignKeyViolation

  /** Every stored id was drawn from its sequence, so the sequence's next
      value is not in use. */
  predicate IdsDrawn(s: DbState) {
    && (forall o :: o in s.tables.organizers ==> o.id < s.next.organizer)
    && (forall e :: e in s.tables.events ==> e.id < s.next.event)
    && (forall a :: a in s.tables.attendees ==> a.id < s.next.attendee)
    && (forall tk :: tk in s.tables.tickets ==> tk.id < s.next.ticket)
  }

  predicate Consistent(s: DbState) {
    WellFormed(s.tables) && IdsDrawn(s)
  }

  /** Deleting rows keeps every stored id below its sequence's next value. */
  lemma FewerRowsKeepIdsDrawn(s: DbState, r: Tables)
    requires IdsDrawn(s)
    requires multiset(r.organizers) <= multiset(s.tables.organizers)
    requires multiset(r.events) <= multiset(s.tables.events)
    requires multiset(r.attendees) <= multiset(s.tables.attendees)
    requires multiset(r.tickets) <= multiset(s.tables.tickets)
    ensures IdsDrawn(DbState(r, s.next))
  {
    forall o | o in r.organizers ensures o.id < s.next.organizer {
      assert o in multiset(r.organizers);
    }
    forall e | e in r.events ensures e.id < s.next.event {
      assert e in multiset(r.events);
    }
    forall a | a in r.attendees ensures a.id < s.next.attendee {
      assert a in multiset(r.attendees);
    }
    forall tk | tk in r.tickets ensures tk.id < s.next.ticket {
      assert tk in multiset(r.tickets);
    }
  }

  /** The database right after `create_all`: empty tables, sequences at 1. */
  function FreshDb(): DbState {
    DbState(EmptyTables(), NextIds(1, 1, 1, 1))
  }

  // ---------------------------------------------------------------- INSERT

  /** `INSERT INTO organizers`; the id the row carries is ignored and drawn
      from the sequence instead. */
  function InsertOrganizer(s: DbState, row: Organizer): Result<DbState, Violation> {
    var o := row.(id := s.next.organizer);
    var t := s.tables;
    if o.id in Keys(t.organizers, OrganizerKey) || o.email in Keys(t.organizers, OrganizerEmail) then
      Failure(UniqueViolation)
    else
      Success(DbState(t.(organizers := t.organizers + [o]), s.next.(organizer := o.id + 1)))
  }

  /** `INSERT INTO attendees`. */
  function InsertAttendee(s: DbState, row: Attendee): Result<DbState, Violation> {
    var a := row.(id := s.next.attendee);
    var t := s.tables;
    if a.id in Keys(t.attendees, AttendeeKey) || a.email in Keys(t.attendees, AttendeeEmail) then
      Failure(UniqueViolation)
    else
      Success(DbState(t.(attendees := t.attendees + [a]), s.next.(attendee := a.id + 1)))
  }

  /** `INSERT INTO events`. */
  function InsertEvent(s: DbState, row: Event): Result<DbState, Violation> {
    var e := row.(id := s.next.event);
    var t := s.tables;
    if e.id in Keys(t.events, EventKey) then Failure(UniqueViolation)
    else if e.organizerId !in Keys(t.organizers, OrganizerKey) then Failure(ForeignKeyViolation)
    else Success(DbState(t.(events := t.events + [e]), s.next.(event := e.id + 1)))
  }

  /** `INSERT INTO tickets (event_id, attendee_id)`. */
  function InsertTicket(s: DbState, row: Ticket): Result<DbState, Violation> {
    var tk := row.(id := s.next.ticket);
    var t := s.tables;
    if tk.id in Keys(t.tickets, TicketKey) || TicketPair(tk) in Keys(t.tickets, TicketPair) then
      Failure(UniqueViolation)
    else if tk.eventId !in Keys(t.events, EventKey) || tk.attendeeId !in Keys(t.attendees, AttendeeKey) then
      Failure(ForeignKeyViolation)
    else
      Success(DbState(t.(tickets := t.tickets + [tk]), s.next.(ticket := tk.id + 1)))
  }

  /** One transaction: the rows are inserted in order and the first refused
      row aborts the whole batch, leaving nothing of it behind. */
  function InsertAll<R>(s: DbState, rows: seq<R>, insert: (DbState, R) -> Result<DbState, Violation>): Result<DbState, Violation>
    decreases |rows|
  {
    if rows == [] then Success(s)
    else
      match insert(s, rows[0])
      case Failure(v) => Failure(v)
      case Success(s1) => InsertAll(s1, rows[1..], insert)
  }

  lemma InsertOrganizerKeepsConsistent(s: DbState, row: Organizer)
    requires Consistent(s)
    ensures InsertOrganizer(s, row).Success? ==> Consistent(InsertOrganizer(s, row).value)
    ensures row.email !in Keys(s.tables.organizers, OrganizerEmail) ==> InsertOrganizer(s, row).Success?
  {
    var o := row.(id := s.next.organizer);
    var os := s.tables.organizers;
    assert o.id !in Keys(os, OrganizerKey) by {
      forall i | 0 <= i < |os| ensures Keys(os, OrganizerKey)[i] != o.id {
        assert os[i] in os;
      }
    }
    if InsertOrganizer(s, row).Success? {
      AppendDistinct(os, o, OrganizerKey);
      AppendDistinct(os, o, OrganizerEmail);
      KeysAppend(os, o, OrganizerKey);
    }
  }

  lemma InsertAttendeeKeepsConsistent(s: DbState, row: Attendee)
    requires Consistent(s)
    ensures InsertAttendee(s, row).Success? ==> Consistent(InsertAttendee(s, row).value)
    ensures row.email !in Keys(s.tables.attendees, AttendeeEmail) ==> InsertAttendee(s, row).Success?
  {
    var a := row.(id := s.next.attendee);
    var as_ := s.tables.attendees;
    assert a.id !in Keys(as_, AttendeeKey) by {
      forall i | 0 <= i < |as_| ensures Keys(as_, AttendeeKey)[i] != a.id {
        assert as_[i] in as_;
      }
    }
    if InsertAttendee(s, row).Success? {
      AppendDistinct(as_, a, AttendeeKey);
      AppendDistinct(as_, a, AttendeeEmail);
      KeysAppend(as_, a, AttendeeKey);
    }
  }

  lemma InsertEventKeepsConsistent(s: DbState, row: Event)
    requires Consistent(s)
    ensures InsertEvent(s, row).Success? ==> Consistent(InsertEvent(s, row).value)
    ensures InsertEvent(s, row).Success? <==> row.organizerId in Keys(s.tables.organizers, OrganizerKey)
  {
    var e := row.(id := s.next.event);
    var es := s.tables.events;
    assert e.id !in Keys(es, EventKey) by {
      forall i | 0 <= i < |es| ensures Keys(es, EventKey)[i] != e.id {
        assert es[i] in es;
      }
    }
    if InsertEvent(s, row).Success? {
      AppendDistinct(es, e, EventKey);
      KeysAppend(es, e, EventKey);
    }
  }

  lemma InsertTicketKeepsConsistent(s: DbState, row: Ticket)
    requires Consistent(s)
    ensures InsertTicket(s, row).Success? ==> Consistent(InsertTicket(s, row).value)
    ensures InsertTicket(s, row).Success? <==>
      && TicketPair(row) !in Keys(s.tables.tickets, TicketPair)
      && row.eventId in Keys(s.tables.events, EventKey)
      && row.attendeeId in Keys(s.tables.attendees, AttendeeKey)
  {
    var tk := row.(id := s.next.ticket);
    var ts := s.tables.tickets;
    assert tk.id !in Keys(ts, TicketKey) by {
      forall i | 0 <= i < |ts| ensures Keys(ts, TicketKey)[i] != tk.id {
        assert ts[i] in ts;
      }
    }
    assert TicketPair(tk) == TicketPair(row);
    if InsertTicket(s, row).Success? {
      AppendDistinct(ts, tk, TicketKey);
      AppendDistinct(ts, tk, TicketPair);
    }
  }

  /** A batch whose every row keeps the database consistent keeps it
      consistent as a whole. */
  lemma {:induction false} InsertAllKeepsConsistent<R>(s: DbState, rows: seq<R>, insert: (DbState, R) -> Result<DbState, Violation>)
    requires Consistent(s)
    requires forall s0, row :: Consistent(s0) && insert(s0, row).Success? ==> Consistent(insert(s0, row).value)
    ensures InsertAll(s, rows, insert).Success? ==> Consistent(InsertAll(s, rows, insert).value)
    decreases |rows|
  {
    if rows != [] && insert(s, rows[0]).Success? {
      InsertAllKeepsConsistent(insert(s, rows[0]).value, rows[1..], insert);
    }
  }

  /** A batch whose first row is accepted goes on with the rest. */
  lemma InsertAllStep<R>(s: DbState, rows: seq<R>, insert: (DbState, R) -> Result<DbState, Violation>)
    requires rows != [] && insert(s, rows[0]).Success?
    ensures InsertAll(s, rows, insert) == InsertAll(insert(s, rows[0]).value, rows[1..], insert)
  {
  }

  function OrganizerWithId(o: Organizer, id: int): Organizer { o.(id := id) }
  function EventWithId(e: Event, id: int): Event { e.(id := id) }
  function AttendeeWithId(a: Attendee, id: int): Attendee { a.(id := id) }
  function TicketWithId(tk: Ticket, id: int): Ticket { tk.(id := id) }

  /** An organizer with a new email is accepted and receives the next id. */
  lemma InsertOrganizerAccepts(s: DbState, row: Organizer)
    requires forall o :: o in s.tables.organizers ==> o.id < s.next.organizer
    requires row.email !in Keys(s.tables.organizers, OrganizerEmail)
    ensures InsertOrganizer(s, row) == Success(DbState(
      s.tables.(organizers := s.tables.organizers + [OrganizerWithId(row, s.next.organizer)]),
      s.next.(organizer := s.next.organizer + 1)))
  {
    AboveAllUnused(s.tables.organizers, OrganizerKey, s.next.organizer);
  }

  lemma InsertAttendeeAccepts(s: DbState, row: Attendee)
    requires forall a :: a in s.tables.attendees ==> a.id < s.next.attendee
    requires row.email !in Keys(s.tables.attendees, AttendeeEmail)
    ensures InsertAttendee(s, row) == Success(DbState(
      s.tables.(attendees := s.tables.attendees + [AttendeeWithId(row, s.next.attendee)]),
      s.next.(attendee := s.next.attendee + 1)))
  {
    AboveAllUnused(s.tables.attendees, AttendeeKey, s.next.attendee);
  }

  /** An event whose organizer exists is accepted and receives the next id. */
  lemma InsertEventAccepts(s: DbState, row: Event)
    requires forall e :: e in s.tables.events ==> e.id < s.next.event
    requires row.organizerId in Keys(s.tables.organizers, OrganizerKey)
    ensures InsertEvent(s, row) == Success(DbState(
      s.tables.(events := s.tables.events + [EventWithId(row, s.next.event)]),
      s.next.(event := s.next.event + 1)))
  {
    AboveAllUnused(s.tables.events, EventKey, s.next.event);
  }

  /** A ticket for a new pair of existing rows is accepted and receives the
      next id. */
  lemma InsertTicketAccepts(s: DbState, row: Ticket)
    requires forall tk :: tk in s.tables.tickets ==> tk.id < s.next.ticket
    requires TicketPair(row) !in Keys(s.tables.tickets, TicketPair)
    requires row.eventId in Keys(s.tables.events, EventKey)
    requires row.attendeeId in Keys(s.tables.attendees, AttendeeKey)
    ensures InsertTicket(s, row) == Success(DbState(
      s.tables.(tickets := s.tables.tickets + [TicketWithId(row, s.next.ticket)]),
      s.next.(ticket := s.next.ticket + 1)))
  {
    AboveAllUnused(s.tables.tickets, TicketKey, s.next.ticket);
    assert TicketPair(TicketWithId(row, s.next.ticket)) == TicketPair(row);
  }

  /** A batch of organizers whose emails are distinct and new commits, and
      its rows receive the next ids of the sequence, in order. */
  lemma {:induction false} OrganizerBatchCommits(s: DbState, rows: seq<Organizer>)
    requires forall o :: o in s.tables.organizers ==> o.id < s.next.organizer
    requires DistinctBy(rows, OrganizerEmail)
    requires forall i :: 0 <= i < |rows| ==> rows[i].email !in Keys(s.tables.organizers, OrganizerEmail)
    ensures InsertAll(s, rows, InsertOrganizer) == Success(DbState(
      s.tables.(organizers := s.tables.organizers + Numbered(rows, s.next.organizer, OrganizerWithId)),
      s.next.(organizer := s.next.organizer + |rows|)))
    decreases |rows|
  {
    var os := s.tables.organizers;
    var first := s.next.organizer;
    if rows == [] {
      assert os + Numbered(rows, first, OrganizerWithId) == os;
    } else {
      var o := OrganizerWithId(rows[0], first);
      InsertOrganizerAccepts(s, rows[0]);
      InsertAllStep(s, rows, InsertOrganizer);
      KeysAppend(os, o, OrganizerEmail);
      DistinctTail(rows, OrganizerEmail);
      OrganizerBatchCommits(DbState(s.tables.(organizers := os + [o]), s.next.(organizer := first + 1)), rows[1..]);
      NumberedStep(os, rows, first, OrganizerWithId);
    }
  }

  /** The same for a batch of attendees. */
  lemma {:induction false} AttendeeBatchCommits(s: DbState, rows: seq<Attendee>)
    requires forall a :: a in s.tables.attendees ==> a.id < s.next.attendee
    requires DistinctBy(rows, AttendeeEmail)
    requires forall i :: 0 <= i < |rows| ==> rows[i].email !in Keys(s.tables.attendees, AttendeeEmail)
    ensures InsertAll(s, rows, InsertAttendee) == Success(DbState(
      s.tables.(attendees := s.tables.attendees + Numbered(rows, s.next.attendee, AttendeeWithId)),
      s.next.(attendee := s.next.attendee + |rows|)))
    decreases |rows|
  {
    var as_ := s.tables.attendees;
    var first := s.next.attendee;
    if rows == [] {
      assert as_ + Numbered(rows, first, AttendeeWithId) == as_;
    } else {
      var a := AttendeeWithId(rows[0], first);
      InsertAttendeeAccepts(s, rows[0]);
      InsertAllStep(s, rows, InsertAttendee);
      KeysAppend(as_, a, AttendeeEmail);
      DistinctTail(rows, AttendeeEmail);
      AttendeeBatchCommits(DbState(s.tables.(attendees := as_ + [a]), s.next.(attendee := first + 1)), rows[1..]);
      NumberedStep(as_, rows, first, AttendeeWithId);
    }
  }

  /** A batch of events whose organizers all exist commits. */
  lemma {:induction false} EventBatchCommits(s: DbState, rows: seq<Event>)
    requires forall e :: e in s.tables.events ==> e.id < s.next.event
    requires forall i :: 0 <= i < |rows| ==> rows[i].organizerId in Keys(s.tables.organizers, OrganizerKey)
    ensures InsertAll(s, rows, InsertEvent) == Success(DbState(
      s.tables.(events := s.tables.events + Numbered(rows, s.next.event, EventWithId)),
      s.next.(event := s.next.event + |rows|)))
    decreases |rows|
  {
    var es := s.tables.events;
    var first := s.next.event;
    if rows == [] {
      assert es + Numbered(rows, first, EventWithId) == es;
    } else {
      var e := EventWithId(rows[0], first);
      InsertEventAccepts(s, rows[0]);
      InsertAllStep(s, rows, InsertEvent);
      EventBatchCommits(DbState(s.tables.(events := es + [e]), s.next.(event := first + 1)), rows[1..]);
      NumberedStep(es, rows, first, EventWithId);
    }
  }

  /** A batch of tickets with distinct new pairs, all of whose events and
      attendees exist, commits. */
  lemma {:induction false} TicketBatchCommits(s: DbState, rows: seq<Ticket>)
    requires forall tk :: tk in s.tables.tickets ==> tk.id < s.next.ticket
    requires DistinctBy(rows, TicketPair)
    requires forall i :: 0 <= i < |rows| ==> TicketPair(rows[i]) !in Keys(s.tables.tickets, TicketPair)
    requires forall i :: 0 <= i < |rows| ==> rows[i].eventId in Keys(s.tables.events, EventKey)
    requires forall i :: 0 <= i < |rows| ==> rows[i].attendeeId in Keys(s.tables.attendees, AttendeeKey)
    ensures InsertAll(s, rows, InsertTicket) == Success(DbState(
      s.tables.(tickets := s.tables.tickets + Numbered(rows, s.next.ticket, TicketWithId)),
      s.next.(ticket := s.next.ticket + |rows|)))
    decreases |rows|
  {
    var ts := s.tables.tickets;
    var first := s.next.ticket;
    if rows == [] {
      assert ts + Numbered(rows, first, TicketWithId) == ts;
    } else {
      var tk := TicketWithId(rows[0], first);
      InsertTicketAccepts(s, rows[0]);
      InsertAllStep(s, rows, InsertTicket);
      KeysAppend(ts, tk, TicketPair);
      assert TicketPair(tk) == TicketPair(rows[0]);
      DistinctTail(rows, TicketPair);
      var s1 := DbState(s.tables.(tickets := ts + [tk]), s.next.(ticket := first + 1));
      var rest := rows[1..];
      forall i | 0 <= i < |rest| ensures TicketPair(rest[i]) !in Keys(s1.tables.tickets, TicketPair) {
        assert rest[i] == rows[i + 1];
        assert TicketPair(rows[0]) != TicketPair(rows[i + 1]);
      }
      forall i | 0 <= i < |rest|
        ensures rest[i].eventId in Keys(s1.tables.events, EventKey)
        ensures rest[i].attendeeId in Keys(s1.tables.attendees, AttendeeKey)
      {
        assert rest[i] == rows[i + 1];
      }
      TicketBatchCommits(s1, rest);
      NumberedStep(ts, rows, first, TicketWithId);
    }
  }

  // ---------------------------------------------------------------- DELETE

  /** `DELETE FROM events WHERE id = eventId`; tickets.event_id is declared
      ON DELETE CASCADE, so the event's tickets go with it. */
  function DeleteEvent(t: Tables, eventId: int): Tables {
    t.(events := Filter(t.events, Not(Refers(EventKey, eventId))),
       tickets := Filter(t.tickets, Not(Refers(TicketEvent, eventId))))
  }

  /** `DELETE FROM attendees WHERE id = attendeeId`, cascading to the
      attendee's tickets. */
  function DeleteAttendee(t: Tables, attendeeId: int): Tables {
    t.(attendees := Filter(t.attendees, Not(Refers(AttendeeKey, attendeeId))),
       tickets := Filter(t.tickets, Not(Refers(TicketAttendee, attendeeId))))
  }

  /** `DELETE FROM organizers WHERE id = organizerId`, cascading to the
      organizer's events and from them to their tickets. */
  function DeleteOrganizer(t: Tables, organizerId: int): Tables {
    var gone := EventsOfOrganizer(t, organizerId);
    t.(organizers := Filter(t.organizers, Not(Refers(OrganizerKey, organizerId))),
       events := Filter(t.events, Not(Refers(EventOrganizer, organizerId))),
       tickets := Filter(t.tickets, Not(RefersToAny(TicketEvent, Keys(gone, EventKey)))))
  }

  /** `DELETE FROM tickets WHERE event_id = e AND attendee_id = a`. */
  function DeleteRegistration(t: Tables, eventId: int, attendeeId: int): Tables {
    t.(tickets := Filter(t.tickets, Not(Refers(TicketPair, (eventId, attendeeId)))))
  }

  lemma DeleteEventKeepsWellFormed(t: Tables, eventId: int)
    requires WellFormed(t)
    ensures WellFormed(DeleteEvent(t, eventId))
  {
    var r := DeleteEvent(t, eventId);
    var keep := Not(Refers(EventKey, eventId));
    var keepT := Not(Refers(TicketEvent, eventId));
    FilterKeepsDistinct(t.events, EventKey, keep);
    FilterKeepsDistinct(t.tickets, TicketKey, keepT);
    FilterKeepsDistinct(t.tickets, TicketPair, keepT);
    assert PrimaryKeys(r) && UniqueEmails(r) && UniqueRegistrations(r);
    forall tk | tk in r.tickets
      ensures tk.eventId in Keys(r.events, EventKey) && tk.attendeeId in Keys(r.attendees, AttendeeKey)
    {
      assert tk in t.tickets && keepT(tk);
      assert TicketEvent(tk) != eventId;
      KeyKept(t.events, keep, EventKey, tk.eventId);
    }
  }

  /** Deleting an event removes that event and exactly the tickets that
      reference it; the other tables are untouched. */
  lemma DeleteEventCascades(t: Tables, eventId: int)
    ensures DeleteEvent(t, eventId).organizers == t.organizers
    ensures DeleteEvent(t, eventId).attendees == t.attendees
    ensures eventId !in Keys(DeleteEvent(t, eventId).events, EventKey)
    ensures multiset(DeleteEvent(t, eventId).events) + multiset(Filter(t.events, Refers(EventKey, eventId))) == multiset(t.events)
    ensures TicketsOfEvent(DeleteEvent(t, eventId), eventId) == []
    ensures multiset(DeleteEvent(t, eventId).tickets) + multiset(TicketsOfEvent(t, eventId)) == multiset(t.tickets)
  {
    var r := DeleteEvent(t, eventId);
    forall i | 0 <= i < |r.events| ensures Keys(r.events, EventKey)[i] != eventId {
      assert Not(Refers(EventKey, eventId))(r.events[i]);
    }
    forall tk | tk in r.tickets ensures !Refers(TicketEvent, eventId)(tk) {
      assert Not(Refers(TicketEvent, eventId))(tk);
    }
    FilterNone(r.tickets, Refers(TicketEvent, eventId));
    FilterSplit(t.tickets, Refers(TicketEvent, eventId));
    FilterSplit(t.events, Refers(EventKey, eventId));
  }

  lemma DeleteAttendeeKeepsWellFormed(t: Tables, attendeeId: int)
    requires WellFormed(t)
    ensures WellFormed(DeleteAttendee(t, attendeeId))
  {
    var r := DeleteAttendee(t, attendeeId);
    var keep := Not(Refers(AttendeeKey, attendeeId));
    var keepT := Not(Refers(TicketAttendee, attendeeId));
    FilterKeepsDistinct(t.attendees, AttendeeKey, keep);
    FilterKeepsDistinct(t.attendees, AttendeeEmail, keep);
    FilterKeepsDistinct(t.tickets, TicketKey, keepT);
    FilterKeepsDistinct(t.tickets, TicketPair, keepT);
    assert PrimaryKeys(r) && UniqueEmails(r) && UniqueRegistrations(r);
    forall tk | tk in r.tickets
      ensures tk.eventId in Keys(r.events, EventKey) && tk.attendeeId in Keys(r.attendees, AttendeeKey)
    {
      assert tk in t.tickets && keepT(tk);
      assert TicketAttendee(tk) != attendeeId;
      KeyKept(t.attendees, keep, AttendeeKey, tk.attendeeId);
    }
  }

  /** Deleting an attendee removes that attendee and exactly the tickets
      that reference it; the other tables are untouched. */
  lemma DeleteAttendeeCascades(t: Tables, attendeeId: int)
    ensures DeleteAttendee(t, attendeeId).organizers == t.organizers
    ensures DeleteAttendee(t, attendeeId).events == t.events
    ensures attendeeId !in Keys(DeleteAttendee(t, attendeeId).attendees, AttendeeKey)
    ensures multiset(DeleteAttendee(t, attendeeId).attendees) + multiset(Filter(t.attendees, Refers(AttendeeKey, attendeeId))) == multiset(t.attendees)
    ensures TicketsOfAttendee(DeleteAttendee(t, attendeeId), attendeeId) == []
    ensures multiset(DeleteAttendee(t, attendeeId).tickets) + multiset(TicketsOfAttendee(t, attendeeId)) == multiset(t.tickets)
  {
    var r := DeleteAttendee(t, attendeeId);
    forall i | 0 <= i < |r.attendees| ensures Keys(r.attendees, AttendeeKey)[i] != attendeeId {
      assert Not(Refers(AttendeeKey, attendeeId))(r.attendees[i]);
    }
    forall tk | tk in r.tickets ensures !Refers(TicketAttendee, attendeeId)(tk) {
      assert Not(Refers(TicketAttendee, attendeeId))(tk);
    }
    FilterNone(r.tickets, Refers(TicketAttendee, attendeeId));
    FilterSplit(t.tickets, Refers(TicketAttendee, attendeeId));
    FilterSplit(t.attendees, Refers(AttendeeKey, attendeeId));
  }

  lemma DeleteOrganizerKeepsWellFormed(t: Tables, organizerId: int)
    requires WellFormed(t)
    ensures WellFormed(DeleteOrganizer(t, organizerId))
  {
    var r := DeleteOrganizer(t, organizerId);
    var gone := EventsOfOrganizer(t, organizerId);
    var keepO := Not(Refers(OrganizerKey, organizerId));
    var keepE := Not(Refers(EventOrganizer, organizerId));
    var keepT := Not(RefersToAny(TicketEvent, Keys(gone, EventKey)));
    FilterKeepsDistinct(t.organizers, OrganizerKey, keepO);
    FilterKeepsDistinct(t.organizers, OrganizerEmail, keepO);
    FilterKeepsDistinct(t.events, EventKey, keepE);
    FilterKeepsDistinct(t.tickets, TicketKey, keepT);
    FilterKeepsDistinct(t.tickets, TicketPair, keepT);
    assert PrimaryKeys(r) && UniqueEmails(r) && UniqueRegistrations(r);
    forall e | e in r.events ensures e.organizerId in Keys(r.organizers, OrganizerKey) {
      assert e in t.events && keepE(e);
      assert EventOrganizer(e) != organizerId;
      KeyKept(t.organizers, keepO, OrganizerKey, e.organizerId);
    }
    forall tk | tk in r.tickets ensures tk.eventId in Keys(r.events, EventKey) {
      CascadedTicketKeepsEvent(t, organizerId, tk);
    }
    forall tk | tk in r.tickets ensures tk.attendeeId in Keys(r.attendees, AttendeeKey) {
      assert tk in t.tickets;
    }
  }

  /** A ticket that survives the organizer cascade still has its event. */
  lemma CascadedTicketKeepsEvent(t: Tables, organizerId: int, tk: Ticket)
    requires ForeignKeys(t)
    requires tk in DeleteOrganizer(t, organizerId).tickets
    ensures tk.eventId in Keys(DeleteOrganizer(t, organizerId).events, EventKey)
  {
    var gone := EventsOfOrganizer(t, organizerId);
    var keepE := Not(Refers(EventOrganizer, organizerId));
    var keepT := Not(RefersToAny(TicketEvent, Keys(gone, EventKey)));
    assert tk in t.tickets && keepT(tk);
    assert TicketEvent(tk) !in Keys(gone, EventKey);
    forall x | x in t.events && EventKey(x) == tk.eventId ensures keepE(x) {
    }
    KeyKept(t.events, keepE, EventKey, tk.eventId);
  }

  /** No row with the deleted organizer's id is left. */
  lemma DeleteOrganizerRemovesRow(t: Tables, organizerId: int)
    ensures organizerId !in Keys(DeleteOrganizer(t, organizerId).organizers, OrganizerKey)
  {
    var r := DeleteOrganizer(t, organizerId);
    var keepO := Not(Refers(OrganizerKey, organizerId));
    forall i | 0 <= i < |r.organizers| ensures Keys(r.organizers, OrganizerKey)[i] != organizerId {
      assert keepO(r.organizers[i]);
    }
  }

  /** The schema-level delete of an organizer removes the organizer, all of
      its events, and every ticket of those events. */
  lemma DeleteOrganizerCascades(t: Tables, organizerId: int)
    ensures DeleteOrganizer(t, organizerId).attendees == t.attendees
    ensures organizerId !in Keys(DeleteOrganizer(t, organizerId).organizers, OrganizerKey)
    ensures EventsOfOrganizer(DeleteOrganizer(t, organizerId), organizerId) == []
    ensures multiset(DeleteOrganizer(t, organizerId).organizers) + multiset(Filter(t.organizers, Refers(OrganizerKey, organizerId))) == multiset(t.organizers)
    ensures multiset(DeleteOrganizer(t, organizerId).events) + multiset(EventsOfOrganizer(t, organizerId)) == multiset(t.events)
  {
    var r := DeleteOrganizer(t, organizerId);
    var keepE := Not(Refers(EventOrganizer, organizerId));
    DeleteOrganizerRemovesRow(t, organizerId);
    forall e | e in r.events ensures !Refers(EventOrganizer, organizerId)(e) {
      assert keepE(e);
    }
    FilterNone(r.events, Refers(EventOrganizer, organizerId));
    FilterSplit(t.events, Refers(EventOrganizer, organizerId));
    FilterSplit(t.organizers, Refers(OrganizerKey, organizerId));
  }

  /** The organizer cascade removes exactly the tickets of the organizer's
      events. */
  lemma DeleteOrganizerCascadesTickets(t: Tables, organizerId: int, tk: Ticket)
    requires tk in t.tickets
    ensures tk in DeleteOrganizer(t, organizerId).tickets <==>
      tk.eventId !in Keys(EventsOfOrganizer(t, organizerId), EventKey)
  {
    var keepT := Not(RefersToAny(TicketEvent, Keys(EventsOfOrganizer(t, organizerId), EventKey)));
    if tk in DeleteOrganizer(t, organizerId).tickets {
      assert keepT(tk);
    }
  }

  /** Unregistering removes the pair's ticket and no other ticket; an absent
      pair is a no-op; afterwards the pair is absent; the constraints still
      hold. */
  lemma DeleteRegistrationEffect(t: Tables, eventId: int, attendeeId: int)
    requires WellFormed(t)
    ensures var r := DeleteRegistration(t, eventId, attendeeId);
      && WellFormed(r)
      && r.organizers == t.organizers && r.events == t.events && r.attendees == t.attendees
      && (eventId, attendeeId) !in Keys(r.tickets, TicketPair)
      && (forall tk :: tk in t.tickets && TicketPair(tk) != (eventId, attendeeId) ==> tk in r.tickets)
      && (forall tk :: tk in r.tickets ==> tk in t.tickets)
      && ((eventId, attendeeId) !in Keys(t.tickets, TicketPair) ==> r == t)
      && |r.tickets| == |t.tickets| - (if (eventId, attendeeId) in Keys(t.tickets, TicketPair) then 1 else 0)
  {
    DeleteRegistrationKeepsWellFormed(t, eventId, attendeeId);
    DeleteRegistrationRemovesPair(t, eventId, attendeeId);
    DeleteRegistrationCount(t, eventId, attendeeId);
  }

  lemma DeleteRegistrationKeepsWellFormed(t: Tables, eventId: int, attendeeId: int)
    requires WellFormed(t)
    ensures WellFormed(DeleteRegistration(t, eventId, attendeeId))
  {
    var r := DeleteRegistration(t, eventId, attendeeId);
    var keepT := Not(Refers(TicketPair, (eventId, attendeeId)));
    FilterKeepsDistinct(t.tickets, TicketKey, keepT);
    FilterKeepsDistinct(t.tickets, TicketPair, keepT);
    forall tk | tk in r.tickets
      ensures tk.eventId in Keys(r.events, EventKey) && tk.attendeeId in Keys(r.attendees, AttendeeKey)
    {
      assert tk in t.tickets;
    }
  }

  lemma DeleteRegistrationRemovesPair(t: Tables, eventId: int, attendeeId: int)
    ensures var r := DeleteRegistration(t, eventId, attendeeId);
      && (eventId, attendeeId) !in Keys(r.tickets, TicketPair)
      && (forall tk :: tk in t.tickets && TicketPair(tk) != (eventId, attendeeId) ==> tk in r.tickets)
      && (forall tk :: tk in r.tickets ==> tk in t.tickets)
  {
    var r := DeleteRegistration(t, eventId, attendeeId);
    var keepT := Not(Refers(TicketPair, (eventId, attendeeId)));
    forall i | 0 <= i < |r.tickets| ensures Keys(r.tickets, TicketPair)[i] != (eventId, attendeeId) {
      assert keepT(r.tickets[i]);
    }
    forall tk | tk in t.tickets && TicketPair(tk) != (eventId, attendeeId) ensures tk in r.tickets {
      var i :| 0 <= i < |t.tickets| && t.tickets[i] == tk;
      assert keepT(t.tickets[i]);
    }
  }

  lemma DeleteRegistrationCount(t: Tables, eventId: int, attendeeId: int)
    requires UniqueRegistrations(t)
    ensures var r := DeleteRegistration(t, eventId, attendeeId);
      && ((eventId, attendeeId) !in Keys(t.tickets, TicketPair) ==> r == t)
      && |r.tickets| == |t.tickets| - (if (eventId, attendeeId) in Keys(t.tickets, TicketPair) then 1 else 0)
  {
    var pair := (eventId, attendeeId);
    var keepT := Not(Refers(TicketPair, pair));
    if pair in Keys(t.tickets, TicketPair) {
      FilterSplit(t.tickets, Refers(TicketPair, pair));
      AtMostOneRefers(t.tickets, TicketPair, pair);
      var matching := Filter(t.tickets, Refers(TicketPair, pair));
      var i :| 0 <= i < |t.tickets| && Keys(t.tickets, TicketPair)[i] == pair;
      assert Refers(TicketPair, pair)(t.tickets[i]);
      assert t.tickets[i] in matching;
    } else {
      forall tk | tk in t.tickets ensures keepT(tk) {
        var i :| 0 <= i < |t.tickets| && t.tickets[i] == tk;
        assert Keys(t.tickets, TicketPair)[i] == TicketPair(tk);
      }
      FilterAll(t.tickets, keepT);
    }
  }

  /** When the organizer has no events, the cascading delete removes the
      organizer row and nothing else: the handler's guard and the schema's
      cascade agree on every delete the handler lets through. */
  lemma GuardedOrganizerDeleteIsExact(t: Tables, organizerId: int)
    requires EventsOfOrganizer(t, organizerId) == []
    ensures DeleteOrganizer(t, organizerId) ==
      t.(organizers := Filter(t.organizers, Not(Refers(OrganizerKey, organizerId))))
  {
    var keepE := Not(Refers(EventOrganizer, organizerId));
    forall e | e in t.events ensures keepE(e) {
    }
    FilterAll(t.events, keepE);
    FilterAll(t.tickets, Not(RefersToAny(TicketEvent, Keys([], EventKey))));
  }

  /** When the attendee holds no ticket, the cascading delete removes the
      attendee row and nothing else. */
  lemma GuardedAttendeeDeleteIsExact(t: Tables, attendeeId: int)
    requires TicketsOfAttendee(t, attendeeId) == []
    ensures DeleteAttendee(t, attendeeId) ==
      t.(attendees := Filter(t.attendees, Not(Refers(AttendeeKey, attendeeId))))
  {
    var keepT := Not(Refers(TicketAttendee, attendeeId));
    forall tk | tk in t.tickets ensures keepT(tk) {
    }
    FilterAll(t.tickets, keepT);
  }
}
