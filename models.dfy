/**
 * The three tables of the event-management backend: users with a role from a
 * closed set, events each owned by one organizer, and registrations of a user
 * for an event. Besides the records, the module states the integrity the
 * database keeps between the tables and what its ON DELETE CASCADE relations
 * remove when a user or an event is deleted.
 */
module Models {
  import opened Results

  /** Primary keys are auto-incremented integers. */
  type UserId = int
  type EventId = int
  type RegistrationId = int

  /** Date-times are opaque: nothing compares or orders them. */
  type DateTime = int

  /** The closed choice set of `User.role`. */
  datatype Role = Admin | Organizer | Attendee

  /** The value stored in the database for a role. */
  function RoleName(role: Role): string {
    match role
    case Admin => "admin"
    case Organizer => "organizer"
    case Attendee => "attendee"
  }

  /** Reads a role choice from client input; anything else is not a choice. */
  function ParseRole(s: string): (r: Option<Role>)
    ensures r.Some? ==> RoleName(r.value) == s
    ensures forall role :: RoleName(role) == s ==> r == Some(role)
  {
    if s == "admin" then Some(Admin)
    else if s == "organizer" then Some(Organizer)
    else if s == "attendee" then Some(Attendee)
    else None
  }

  /**
   * A stored password credential. Hashing is opaque here; all the model uses is
   * that the stored credential is determined by the raw password.
   */
  datatype Credential = Hashed(secret: string)

  function MakePassword(raw: string): Credential {
    Hashed(raw)
  }

  predicate CheckPassword(stored: Credential, raw: string) {
    stored == MakePassword(raw)
  }

  /** The length limit of the stored password field. */
  const PasswordMaxLength: nat := 128

  datatype User = User(username: string, password: Credential, role: Role, isActive: bool)

  const TitleMaxLength: nat := 100

  /** A new event is unpublished unless told otherwise. */
  const DefaultStatus: bool := false

  datatype Event = Event(
    title: string,
    description: string,
    startTime: DateTime,
    endTime: DateTime,
    status: bool,
    organizer: UserId)

  /** `registeredAt` is stamped by the server when the row is inserted. */
  datatype Registration = Registration(user: UserId, event: EventId, registeredAt: DateTime)

  // ---------------------------------------------------------------------------
  // Integrity of the three tables
  // ---------------------------------------------------------------------------

  /** `username` is unique among users. */
  predicate UniqueUsernames(users: map<UserId, User>) {
    forall a, b :: a in users && b in users && users[a].username == users[b].username ==> a == b
  }

  /** Every event's organizer is an existing user. */
  predicate EventsReferToUsers(users: map<UserId, User>, events: map<EventId, Event>) {
    forall id :: id in events ==> events[id].organizer in users
  }

  /** Every registration names an existing user and an existing event. */
  predicate RegistrationsReferTo(
    users: map<UserId, User>, events: map<EventId, Event>, registrations: map<RegistrationId, Registration>)
  {
    forall id :: id in registrations ==> registrations[id].user in users && registrations[id].event in events
  }

  /**
   * The integrity the database keeps: the foreign keys of events and
   * registrations resolve, and usernames are unique.
   */
  predicate Consistent(
    users: map<UserId, User>, events: map<EventId, Event>, registrations: map<RegistrationId, Registration>)
    : (ok: bool)
    ensures ok ==> forall id :: id in registrations ==>
                     registrations[id].event in events && events[registrations[id].event].organizer in users
  {
    && UniqueUsernames(users)
    && EventsReferToUsers(users, events)
    && RegistrationsReferTo(users, events, registrations)
  }

  // ---------------------------------------------------------------------------
  // ON DELETE CASCADE
  // ---------------------------------------------------------------------------

  /** The events that survive once only `users` remain: those whose organizer is still there. */
  function CascadeEvents(events: map<EventId, Event>, users: map<UserId, User>): (kept: map<EventId, Event>)
    ensures EventsReferToUsers(users, kept)
    ensures forall id :: id in kept ==> id in events && kept[id] == events[id]
    ensures forall id :: id in events && events[id].organizer in users ==> id in kept
  {
    map id | id in events && events[id].organizer in users :: events[id]
  }

  /** The registrations that survive once only `users` and `events` remain. */
  function CascadeRegistrations(
    registrations: map<RegistrationId, Registration>, users: map<UserId, User>, events: map<EventId, Event>)
    : (kept: map<RegistrationId, Registration>)
    ensures RegistrationsReferTo(users, events, kept)
    ensures forall id :: id in kept ==> id in registrations && kept[id] == registrations[id]
    ensures forall id :: id in registrations && registrations[id].user in users && registrations[id].event in events
                         ==> id in kept
  {
    map id | id in registrations && registrations[id].user in users && registrations[id].event in events
      :: registrations[id]
  }

  /** The events a user organizes. */
  function OrganizedBy(events: map<EventId, Event>, uid: UserId): map<EventId, Event> {
    map id | id in events && events[id].organizer == uid :: events[id]
  }

  /** The registrations for one event. */
  function RegistrationsFor(registrations: map<RegistrationId, Registration>, eid: EventId)
    : map<RegistrationId, Registration>
  {
    map id | id in registrations && registrations[id].event == eid :: registrations[id]
  }

  /**
   * Deleting user `uid` deletes exactly the events they organize and exactly the
   * registrations that are theirs or are for one of those events, and leaves
   * no reference dangling.
   */
  lemma DeleteUserCascade(
    users: map<UserId, User>, events: map<EventId, Event>, registrations: map<RegistrationId, Registration>,
    uid: UserId)
    requires Consistent(users, events, registrations)
    ensures var users' := users - {uid};
            var events' := CascadeEvents(events, users');
            var registrations' := CascadeRegistrations(registrations, users', events');
            && Consistent(users', events', registrations')
            && (forall id :: id in events ==> (id in events' <==> events[id].organizer != uid))
            && (forall id :: id in registrations ==>
                  (id in registrations' <==>
                     registrations[id].user != uid && events[registrations[id].event].organizer != uid))
  {
  }

  /**
   * Deleting event `eid` deletes exactly its registrations and leaves no
   * reference dangling.
   */
  lemma DeleteEventCascade(
    users: map<UserId, User>, events: map<EventId, Event>, registrations: map<RegistrationId, Registration>,
    eid: EventId)
    requires Consistent(users, events, registrations)
    ensures var events' := events - {eid};
            var registrations' := CascadeRegistrations(registrations, users, events');
            && Consistent(users, events', registrations')
            && (forall id :: id in registrations ==> (id in registrations' <==> registrations[id].event != eid))
  {
  }

  /** Splitting a table by a set of keys splits its row count. */
  lemma {:induction false} SplitCount<K, V>(m: map<K, V>, keys: set<K>)
    ensures |map k | k in m && k in keys :: m[k]| + |map k | k in m && k !in keys :: m[k]| == |m|
  {
    var inside := map k | k in m && k in keys :: m[k];
    var outside := map k | k in m && k !in keys :: m[k];
    assert inside.Keys + outside.Keys == m.Keys;
    assert inside.Keys * outside.Keys == {};
    assert |inside.Keys + outside.Keys| == |inside.Keys| + |outside.Keys|;
  }

  /** After deleting a user, the event count drops by exactly the number of events they organize. */
  lemma {:induction false} DeleteUserEventCount(users: map<UserId, User>, events: map<EventId, Event>, uid: UserId)
    requires EventsReferToUsers(users, events)
    ensures |CascadeEvents(events, users - {uid})| == |events| - |OrganizedBy(events, uid)|
  {
    var owned := set id | id in events && events[id].organizer == uid;
    SplitCount(events, owned);
    var kept := CascadeEvents(events, users - {uid});
    var rest := map k | k in events && k !in owned :: events[k];
    forall k | k in events
      ensures k in kept <==> k in rest
    {
      assert k in owned <==> events[k].organizer == uid;
    }
    assert kept.Keys == rest.Keys;
    assert kept == rest;
    assert OrganizedBy(events, uid) == map k | k in events && k in owned :: events[k];
  }

  /** After deleting an event, the registration count drops by exactly the number of its registrations. */
  lemma {:induction false} DeleteEventRegistrationCount(
    users: map<UserId, User>, events: map<EventId, Event>, registrations: map<RegistrationId, Registration>,
    eid: EventId)
    requires RegistrationsReferTo(users, events, registrations)
    ensures |CascadeRegistrations(registrations, users, events - {eid})|
            == |registrations| - |RegistrationsFor(registrations, eid)|
  {
    var forEvent := set id | id in registrations && registrations[id].event == eid;
    SplitCount(registrations, forEvent);
    var kept := CascadeRegistrations(registrations, users, events - {eid});
    var rest := map k | k in registrations && k !in forEvent :: registrations[k];
    forall k | k in registrations
      ensures k in kept <==> k in rest
    {
      assert k in forEvent <==> registrations[k].event == eid;
    }
    assert kept.Keys == rest.Keys;
    assert kept == rest;
    assert RegistrationsFor(registrations, eid) == map k | k in registrations && k in forEvent :: registrations[k];
  }
}
