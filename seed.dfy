/** database/index.py: `init_db` seeds the database when it has no
    organizer, and `seed_data` adds four fixture batches (organizers,
    events, attendees, tickets), committing after each one. The fixture rows
    carry id 0: their ids are drawn from the sequences when they are
    inserted. Events and tickets name their organizer, event and attendee by
    the ids 1, 2, ... that a fresh database hands out. */
module Seed {
  import opened SeqUtil
  import opened Schema
  import opened Engine
  import opened App

  function OrganizerFixture(): seq<Organizer> {
    [ Organizer(0, "John Smith", "john@email.com", Some("+1234567890")),
      Organizer(0, "Sarah Johnson", "sarah@email.com", Some("+1234567891")),
      Organizer(0, "Mike Wilson", "mike@email.com", Some("+1234567892")),
      Organizer(0, "Emily Brown", "emily@email.com", Some("+1234567893")),
      Organizer(0, "David Davis", "david@email.com", Some("+1234567894")),
      Organizer(0, "Lisa Garcia", "lisa@email.com", Some("+1234567895")),
      Organizer(0, "Tom Martinez", "tom@email.com", Some("+1234567896")),
      Organizer(0, "Anna Taylor", "anna@email.com", Some("+1234567897")),
      Organizer(0, "Chris Anderson", "chris@email.com", Some("+1234567898")),
      Organizer(0, "Maria Rodriguez", "maria@email.com", Some("+1234567899")) ]
  }

  /** The descriptions are written in pieces: the verifier's work on a
      string literal grows with the square of its length. */
  function EventFixture(): seq<Event> {
    [ Event(0, "Tech Conference 2024", Date(2024, 12, 15), "San Francisco, CA",
        Some("Annual " + "technology " + "conference " + "featuring the " + "latest " + "innovations"), 1),
      Event(0, "Music Festival", Date(2024, 11, 20), "Austin, TX",
        Some("Three-day music " + "festival with " + "top artists"), 2),
      Event(0, "Business Summit", Date(2024, 12, 5), "New York, NY",
        Some("Networking " + "event for " + "business " + "professionals"), 3),
      Event(0, "Art Exhibition", Date(2024, 11, 30), "Los Angeles, CA",
        Some("Contemporary " + "art exhibition " + "by emerging " + "artists"), 4),
      Event(0, "Food & Wine Festival", Date(2024, 12, 10), "Portland, OR",
        Some("Celebration of " + "local cuisine " + "and wines"), 5),
      Event(0, "Marathon 2024", Date(2024, 11, 25), "Chicago, IL",
        Some("Annual city " + "marathon for " + "all skill " + "levels"), 6),
      Event(0, "Book Fair", Date(2024, 12, 1), "Seattle, WA",
        Some("Independent " + "authors and " + "publishers " + "showcase"), 7),
      Event(0, "Gaming Convention", Date(2024, 11, 28), "Las Vegas, NV",
        Some("Gaming " + "enthusiasts " + "convention with " + "competitions"), 8),
      Event(0, "Science Fair", Date(2024, 12, 8), "Boston, MA",
        Some("Student science " + "projects and " + "demonstrations"), 9),
      Event(0, "Fashion Week", Date(2024, 12, 12), "Miami, FL",
        Some("Latest fashion " + "trends and " + "designer " + "showcases"), 10) ]
  }

  function AttendeeFixture(): seq<Attendee> {
    [ Attendee(0, "Alice Cooper", "alice@email.com", Some("+1111111111")),
      Attendee(0, "Bob Miller", "bob@email.com", Some("+2222222222")),
      Attendee(0, "Carol White", "carol@email.com", Some("+3333333333")),
      Attendee(0, "Daniel Lee", "daniel@email.com", Some("+4444444444")),
      Attendee(0, "Emma Wilson", "emma@email.com", Some("+5555555555")),
      Attendee(0, "Frank Thompson", "frank@email.com", Some("+6666666666")),
      Attendee(0, "Grace Kim", "grace@email.com", Some("+7777777777")),
      Attendee(0, "Henry Clark", "henry@email.com", Some("+8888888888")),
      Attendee(0, "Ivy Chen", "ivy@email.com", Some("+9999999999")),
      Attendee(0, "Jack Robinson", "jack@email.com", Some("+1010101010")),
      Attendee(0, "Kate Adams", "kate@email.com", Some("+1111111110")),
      Attendee(0, "Liam Murphy", "liam@email.com", Some("+1212121212")),
      Attendee(0, "Maya Patel", "maya@email.com", Some("+1313131313")),
      Attendee(0, "Noah Johnson", "noah@email.com", Some("+1414141414")),
      Attendee(0, "Olivia Brown", "olivia@email.com", Some("+1515151515")) ]
  }

  function TicketFixture(): seq<Ticket> {
    [ Ticket(0, 1, 1), Ticket(0, 1, 2), Ticket(0, 1, 3), Ticket(0, 2, 1),
      Ticket(0, 2, 4), Ticket(0, 3, 5), Ticket(0, 3, 6), Ticket(0, 4, 7),
      Ticket(0, 4, 8), Ticket(0, 5, 9), Ticket(0, 5, 10), Ticket(0, 6, 11),
      Ticket(0, 7, 12), Ticket(0, 8, 13), Ticket(0, 9, 14), Ticket(0, 10, 15) ]
  }

  /** The fixture's organizer emails are pairwise distinct. */
  lemma OrganizerEmailsDistinct()
    ensures DistinctBy(OrganizerFixture(), OrganizerEmail)
  {
  }

  /** The fixture's attendee emails are pairwise distinct. */
  lemma AttendeeEmailsDistinct()
    ensures DistinctBy(AttendeeFixture(), AttendeeEmail)
  {
    // their initials are the letters a, b, c, ... in turn
    var s := AttendeeFixture();
    forall i | 0 <= i < |s| ensures |s[i].email| > 0 && s[i].email[0] as int == 'a' as int + i {
    }
  }

  /** The sixteen fixture tickets name sixteen different pairs. */
  lemma TicketPairsDistinct()
    ensures DistinctBy(TicketFixture(), TicketPair)
  {
  }

  /** Every fixture event names one of the organizers 1..10. */
  lemma EventOrganizersInRange()
    ensures forall i :: 0 <= i < |EventFixture()| ==> 1 <= EventFixture()[i].organizerId <= |OrganizerFixture()|
  {
  }

  /** Every fixture ticket names one of the events 1..10. */
  lemma TicketEventsInRange()
    ensures forall i :: 0 <= i < |TicketFixture()| ==> 1 <= TicketFixture()[i].eventId <= |EventFixture()|
  {
  }

  /** Every fixture ticket names one of the attendees 1..15. */
  lemma TicketAttendeesInRange()
    ensures forall i :: 0 <= i < |TicketFixture()| ==> 1 <= TicketFixture()[i].attendeeId <= |AttendeeFixture()|
  {
  }

  /** The batch seed_data was working on when it stopped. */
  datatype Batch = OrganizerBatch | EventBatch | AttendeeBatch | TicketBatch

  /** "Database seeded successfully!", or the error branch: the batch whose
      commit raised was rolled back, the batches before it stay committed,
      and the ones after it are never sent. */
  datatype SeedOutcome = Seeded | RolledBack(batch: Batch)

  /** seed_data with the given four batches: each is added to the session
      and committed in turn, and the first commit that fails ends it. */
  function Seeding(s: DbState, organizers: seq<Organizer>, events: seq<Event>,
                   attendees: seq<Attendee>, tickets: seq<Ticket>): (DbState, SeedOutcome)
  {
    match InsertAll(s, organizers, InsertOrganizer)
    case Failure(_) => (s, RolledBack(OrganizerBatch))
    case Success(s1) =>
      match InsertAll(s1, events, InsertEvent)
      case Failure(_) => (s1, RolledBack(EventBatch))
      case Success(s2) =>
        match InsertAll(s2, attendees, InsertAttendee)
        case Failure(_) => (s2, RolledBack(AttendeeBatch))
        case Success(s3) =>
          match InsertAll(s3, tickets, InsertTicket)
          case Failure(_) => (s3, RolledBack(TicketBatch))
          case Success(s4) => (s4, Seeded)
  }

  /** seed_data as written, with its fixture rows. */
  function SeedResult(s: DbState): (DbState, SeedOutcome) {
    Seeding(s, OrganizerFixture(), EventFixture(), AttendeeFixture(), TicketFixture())
  }

  /** Whatever happens to the batches, the committed state keeps the
      schema's constraints. */
  lemma SeedingKeepsConsistent(s: DbState, organizers: seq<Organizer>, events: seq<Event>,
                               attendees: seq<Attendee>, tickets: seq<Ticket>)
    requires Consistent(s)
    ensures Consistent(Seeding(s, organizers, events, attendees, tickets).0)
  {
    InsertOrganizerPreserves();
    InsertEventPreserves();
    InsertAttendeePreserves();
    InsertTicketPreserves();
    InsertAllKeepsConsistent(s, organizers, InsertOrganizer);
    var r1 := InsertAll(s, organizers, InsertOrganizer);
    if r1.Success? {
      InsertAllKeepsConsistent(r1.value, events, InsertEvent);
      var r2 := InsertAll(r1.value, events, InsertEvent);
      if r2.Success? {
        InsertAllKeepsConsistent(r2.value, attendees, InsertAttendee);
        var r3 := InsertAll(r2.value, attendees, InsertAttendee);
        if r3.Success? {
          InsertAllKeepsConsistent(r3.value, tickets, InsertTicket);
        }
      }
    }
  }

  /** On a fresh database, batches with distinct emails and pairs whose
      references stay within the ids 1, 2, ... of the rows inserted before
      them all commit, and every row receives the id of its position. */
  lemma SeedingFreshDatabase(organizers: seq<Organizer>, events: seq<Event>,
                             attendees: seq<Attendee>, tickets: seq<Ticket>)
    requires DistinctBy(organizers, OrganizerEmail)
    requires DistinctBy(attendees, AttendeeEmail)
    requires DistinctBy(tickets, TicketPair)
    requires forall i :: 0 <= i < |events| ==> 1 <= events[i].organizerId <= |organizers|
    requires forall i :: 0 <= i < |tickets| ==> 1 <= tickets[i].eventId <= |events|
    requires forall i :: 0 <= i < |tickets| ==> 1 <= tickets[i].attendeeId <= |attendees|
    ensures Seeding(FreshDb(), organizers, events, attendees, tickets) == (DbState(
      Tables(Numbered(organizers, 1, OrganizerWithId), Numbered(events, 1, EventWithId),
             Numbered(attendees, 1, AttendeeWithId), Numbered(tickets, 1, TicketWithId)),
      NextIds(|organizers| + 1, |events| + 1, |attendees| + 1, |tickets| + 1)), Seeded)
  {
    var os := Numbered(organizers, 1, OrganizerWithId);
    var es := Numbered(events, 1, EventWithId);
    var as_ := Numbered(attendees, 1, AttendeeWithId);
    var ts := Numbered(tickets, 1, TicketWithId);
    var s0 := FreshDb();
    var s1 := DbState(Tables(os, [], [], []), NextIds(|organizers| + 1, 1, 1, 1));
    var s2 := DbState(Tables(os, es, [], []), NextIds(|organizers| + 1, |events| + 1, 1, 1));
    var s3 := DbState(Tables(os, es, as_, []), NextIds(|organizers| + 1, |events| + 1, |attendees| + 1, 1));
    var s4 := DbState(Tables(os, es, as_, ts), NextIds(|organizers| + 1, |events| + 1, |attendees| + 1, |tickets| + 1));
    assert InsertAll(s0, organizers, InsertOrganizer) == Success(s1) by {
      OrganizerBatchCommits(s0, organizers);
      assert [] + os == os;
    }
    assert InsertAll(s1, events, InsertEvent) == Success(s2) by {
      forall i | 0 <= i < |events| ensures events[i].organizerId in Keys(os, OrganizerKey) {
        NumberedKeys(organizers, 1, OrganizerWithId, OrganizerKey, events[i].organizerId);
      }
      EventBatchCommits(s1, events);
      assert [] + es == es;
    }
    assert InsertAll(s2, attendees, InsertAttendee) == Success(s3) by {
      AttendeeBatchCommits(s2, attendees);
      assert [] + as_ == as_;
    }
    assert InsertAll(s3, tickets, InsertTicket) == Success(s4) by {
      forall i | 0 <= i < |tickets|
        ensures tickets[i].eventId in Keys(es, EventKey)
        ensures tickets[i].attendeeId in Keys(as_, AttendeeKey)
      {
        NumberedKeys(events, 1, EventWithId, EventKey, tickets[i].eventId);
        NumberedKeys(attendees, 1, AttendeeWithId, AttendeeKey, tickets[i].attendeeId);
      }
      TicketBatchCommits(s3, tickets);
      assert [] + ts == ts;
    }
  }

  /** init_db on a database created by create_all seeds all four batches:
      10 organizers, 10 events, 15 attendees and 16 registrations, numbered
      1, 2, ... in the order of the fixture. */
  lemma SeedFreshDatabase()
    ensures SeedResult(FreshDb()) == (DbState(
      Tables(Numbered(OrganizerFixture(), 1, OrganizerWithId), Numbered(EventFixture(), 1, EventWithId),
             Numbered(AttendeeFixture(), 1, AttendeeWithId), Numbered(TicketFixture(), 1, TicketWithId)),
      NextIds(11, 11, 16, 17)), Seeded)
  {
    OrganizerEmailsDistinct();
    AttendeeEmailsDistinct();
    TicketPairsDistinct();
    EventOrganizersInRange();
    TicketEventsInRange();
    TicketAttendeesInRange();
    SeedingFreshDatabase(OrganizerFixture(), EventFixture(), AttendeeFixture(), TicketFixture());
  }

  /** A database whose organizers were all deleted has a count of 0, so
      init_db seeds it again; but the organizer sequence has moved past 1,
      so the new organizers get other ids than the ones the fixture events
      name, the event batch is refused and rolled back, and only the
      organizers stay. */
  lemma SeedingNeedsFreshIds(s: DbState, organizers: seq<Organizer>, events: seq<Event>,
                             attendees: seq<Attendee>, tickets: seq<Ticket>)
    requires s.tables.organizers == []
    requires DistinctBy(organizers, OrganizerEmail)
    requires events != [] && events[0].organizerId < s.next.organizer
    ensures Seeding(s, organizers, events, attendees, tickets) == (DbState(
      s.tables.(organizers := Numbered(organizers, s.next.organizer, OrganizerWithId)),
      s.next.(organizer := s.next.organizer + |organizers|)), RolledBack(EventBatch))
  {
    var os := Numbered(organizers, s.next.organizer, OrganizerWithId);
    var s1 := DbState(s.tables.(organizers := os), s.next.(organizer := s.next.organizer + |organizers|));
    assert InsertAll(s, organizers, InsertOrganizer) == Success(s1) by {
      OrganizerBatchCommits(s, organizers);
      assert [] + os == os;
    }
    assert events[0].organizerId !in Keys(os, OrganizerKey) by {
      forall j | 0 <= j < |os| ensures Keys(os, OrganizerKey)[j] != events[0].organizerId {
      }
    }
    assert InsertEvent(s1, events[0]).Failure?;
  }

  /** seed_data's own batches after every organizer was deleted. */
  lemma ReseedKeepsOnlyOrganizers(s: DbState)
    requires s.tables.organizers == []
    requires s.next.organizer > 1
    ensures SeedResult(s).1 == RolledBack(EventBatch)
    ensures SeedResult(s).0.tables == s.tables.(organizers := Numbered(OrganizerFixture(), s.next.organizer, OrganizerWithId))
  {
    OrganizerEmailsDistinct();
    SeedingNeedsFreshIds(s, OrganizerFixture(), EventFixture(), AttendeeFixture(), TicketFixture());
  }

  /** Adds each row to the session in turn; the session then holds the
      batch, in order, ready for the commit. */
  method AddAll<R>(rows: seq<R>) returns (pending: seq<R>)
    ensures pending == rows
  {
    pending := [];
    for i := 0 to |rows|
      invariant pending == rows[..i]
    {
      pending := pending + [rows[i]];
    }
  }

  /** The body of seed_data, for the given batches. */
  method SeedBatches(db: Database, organizers: seq<Organizer>, events: seq<Event>,
                     attendees: seq<Attendee>, tickets: seq<Ticket>) returns (outcome: SeedOutcome)
    requires db.Valid()
    modifies db
    ensures db.Valid()
    ensures (db.State(), outcome) == Seeding(old(db.State()), organizers, events, attendees, tickets)
  {
    InsertOrganizerPreserves();
    InsertEventPreserves();
    InsertAttendeePreserves();
    InsertTicketPreserves();
    var pendingOrganizers := AddAll(organizers);
    var committed := db.Commit(pendingOrganizers, InsertOrganizer);
    if !committed {
      return RolledBack(OrganizerBatch);
    }
    var pendingEvents := AddAll(events);
    committed := db.Commit(pendingEvents, InsertEvent);
    if !committed {
      return RolledBack(EventBatch);
    }
    var pendingAttendees := AddAll(attendees);
    committed := db.Commit(pendingAttendees, InsertAttendee);
    if !committed {
      return RolledBack(AttendeeBatch);
    }
    var pendingTickets := AddAll(tickets);
    committed := db.Commit(pendingTickets, InsertTicket);
    if !committed {
      return RolledBack(TicketBatch);
    }
    return Seeded;
  }

  /** seed_data. */
  method SeedData(db: Database) returns (outcome: SeedOutcome)
    requires db.Valid()
    modifies db
    ensures db.Valid()
    ensures (db.State(), outcome) == SeedResult(old(db.State()))
  {
    outcome := SeedBatches(db, OrganizerFixture(), EventFixture(), AttendeeFixture(), TicketFixture());
  }

  /** init_db: after create_all, seed when the organizers table is empty. */
  method InitDb(db: Database) returns (outcome: Option<SeedOutcome>)
    requires db.Valid()
    modifies db
    ensures db.Valid()
    ensures outcome.Some? <==> old(db.organizers) == []
    ensures outcome.Some? ==> (db.State(), outcome.value) == SeedResult(old(db.State()))
    ensures outcome.None? ==> db.State() == old(db.State())
  {
    if |db.organizers| == 0 {
      var seeded := SeedData(db);
      outcome := Some(seeded);
    } else {
      outcome := None;
    }
  }
}
