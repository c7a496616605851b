/**
 * The request handlers of the backend over its three tables. Who is asking is an
 * explicit `actor` (the user named by the request's bearer token, if any). The
 * role checks and the owner scoping are pure functions over the tables; each
 * handler is a method of `Backend`, the holder of the tables, and says what it
 * answers and what the tables hold afterwards.
 */
module Views {
  import opened Results
  import opened Models
  import opened Serializers

  const NoAccessMessage := "You don't have permission to access this resource."
  const NoPermissionMessage := "You don't have permission to perform this action."
  const AttendeesOnlyMessage := "Only attendee users can register events."
  const EventRequiredMessage := "This field is required."
  const EventNotFoundMessage := "Event not found."
  const UserCreatedMessage := "User created successfully"
  const UserUpdatedMessage := "User updated successfully"
  const EventCreatedMessage := "Event created successfully"
  const EventUpdatedMessage := "Event updated successfully"
  const RegisteredMessage := "Event Register successfully"
  const LogoutMessage := "Logout successful."
  const TokenRequiredMessage := "Refresh token is required."
  const InvalidTokenMessage := "Invalid token."

  function UserDeletedMessage(username: string): string {
    "User " + username + " has been deleted successfully."
  }

  function EventDeletedMessage(title: string): string {
    "Event " + title + " has been deleted successfully."
  }

  /** The request's token names a user that still exists and is active. */
  predicate IsAuthenticated(users: map<UserId, User>, actor: Option<UserId>): (b: bool)
    ensures actor.None? ==> !b
    ensures b ==> actor.value in users && users[actor.value].isActive
    ensures actor.Some? && actor.value in users && !users[actor.value].isActive ==> !b
  {
    actor.Some? && actor.value in users && users[actor.value].isActive
  }

  /**
   * The user a user-detail request may act on: an unknown id is not found, an
   * existing user other than the actor is forbidden.
   */
  function UserObject(users: map<UserId, User>, actor: Option<UserId>, id: UserId): (r: Response<User>)
    ensures !IsAuthenticated(users, actor) ==> r == Unauthenticated
    ensures IsAuthenticated(users, actor) && id !in users ==> r == NotFound
    ensures IsAuthenticated(users, actor) && id in users && actor != Some(id) ==>
              r == PermissionDenied(NoPermissionMessage)
    ensures r.Ok? <==> IsAuthenticated(users, actor) && actor == Some(id)
    ensures r.Ok? ==> r.value == users[id]
  {
    if !IsAuthenticated(users, actor) then Unauthenticated
    else if id !in users then NotFound
    else if actor.value != id then PermissionDenied(NoPermissionMessage)
    else Ok(users[id])
  }

  /**
   * The event an event-detail request may act on. The lookup runs among the
   * actor's own events only, so an event of someone else and an id that exists
   * nowhere are refused alike.
   */
  function EventObject(users: map<UserId, User>, events: map<EventId, Event>, actor: Option<UserId>, id: EventId)
    : (r: Response<Event>)
    ensures !IsAuthenticated(users, actor) ==> r == Unauthenticated
    ensures r.Ok? <==> IsAuthenticated(users, actor) && id in events && events[id].organizer == actor.value
    ensures r.Ok? ==> r.value == events[id]
    ensures IsAuthenticated(users, actor) && !r.Ok? ==> r == PermissionDenied(NoPermissionMessage)
  {
    if !IsAuthenticated(users, actor) then Unauthenticated
    else
      var own := OrganizedBy(events, actor.value);
      if id in own then Ok(own[id]) else PermissionDenied(NoPermissionMessage)
  }

  /** Another organizer's event cannot be told apart from an event that does not exist. */
  lemma ExistenceIsHidden(
    users: map<UserId, User>, events: map<EventId, Event>, actor: Option<UserId>, foreign: EventId, missing: EventId)
    requires foreign in events && actor != Some(events[foreign].organizer)
    requires missing !in events
    ensures EventObject(users, events, actor, foreign) == EventObject(users, events, actor, missing)
    ensures !EventObject(users, events, actor, foreign).Ok?
  {
  }

  /**
   * The detail views act on exactly the events an organizer's list shows: the
   * events the actor organizes.
   */
  lemma DetailAccessIsOwnListing(users: map<UserId, User>, events: map<EventId, Event>, actor: Option<UserId>, id: EventId)
    requires IsAuthenticated(users, actor)
    ensures EventObject(users, events, actor, id).Ok? <==> id in OrganizedBy(events, actor.value)
  {
  }

  /**
   * The checks of the registration handler, in their order: the body must name
   * an event, the event must exist, and only then must the actor be an attendee.
   * An event key of 0 counts as missing, as Python's `not` does.
   */
  function RegistrationCheck(eventField: Option<EventId>, events: map<EventId, Event>, role: Role)
    : (r: Response<EventId>)
    ensures eventField.None? || eventField.value == 0 ==>
              r == ValidationError(Detail("event", EventRequiredMessage))
    ensures eventField.Some? && eventField.value != 0 && eventField.value !in events ==>
              r == ValidationError(Detail("event", EventNotFoundMessage))
    ensures eventField.Some? && eventField.value != 0 && eventField.value in events && role != Attendee ==>
              r == PermissionDenied(AttendeesOnlyMessage)
    ensures r.Ok? <==> eventField.Some? && eventField.value != 0 && eventField.value in events && role == Attendee
    ensures r.Ok? ==> r.value == eventField.value
  {
    if eventField.None? || eventField.value == 0 then ValidationError(Detail("event", EventRequiredMessage))
    else if eventField.value !in events then ValidationError(Detail("event", EventNotFoundMessage))
    else if role != Attendee then PermissionDenied(AttendeesOnlyMessage)
    else Ok(eventField.value)
  }

  /**
   * Once the body has passed the serializer, which already demands an existing
   * event, the handler's own event checks cannot fail: the answer turns on the
   * role alone.
   */
  lemma ValidatedRegistrationChecksRoleOnly(
    users: map<UserId, User>, events: map<EventId, Event>, data: RegistrationPayload, role: Role)
    requires forall id :: id in events ==> 0 < id
    requires RegistrationPayloadError(users, events, data).None?
    ensures RegistrationCheck(data.event, events, role)
            == if role == Attendee then Ok(data.event.value) else PermissionDenied(AttendeesOnlyMessage)
  {
  }

  /** A user matches credentials: `authenticate` with the stored credential abstracted. */
  predicate Authenticates(user: User, username: string, password: string): (b: bool)
    ensures b ==> user.username == username
    ensures b <==> user.username == username && user.password == MakePassword(password)
  {
    user.username == username && CheckPassword(user.password, password)
  }

  /** With unique usernames, at most one user matches a pair of credentials. */
  lemma AtMostOneAuthenticates(users: map<UserId, User>, username: string, password: string, a: UserId, b: UserId)
    requires UniqueUsernames(users)
    requires a in users && Authenticates(users[a], username, password)
    requires b in users && Authenticates(users[b], username, password)
    ensures a == b
  {
  }

  /**
   * A token stops authenticating once its user is deleted or deactivated, and
   * does not depend on any other user's row.
   */
  lemma AuthenticationFollowsAccount(users: map<UserId, User>, a: UserId, k: UserId, u: User)
    ensures !IsAuthenticated(users - {a}, Some(a))
    ensures !IsAuthenticated(users[a := u.(isActive := false)], Some(a))
    ensures k != a ==> IsAuthenticated(users[k := u], Some(a)) == IsAuthenticated(users, Some(a))
  {
  }

  /** The backend's state: the three tables, the key sequences, and the revoked refresh tokens. */
  class Backend {
    var users: map<UserId, User>
    var events: map<EventId, Event>
    var registrations: map<RegistrationId, Registration>
    /** The key each table's auto-increment sequence hands out next. */
    var nextUserId: UserId
    var nextEventId: EventId
    var nextRegistrationId: RegistrationId
    /** Refresh tokens revoked by logging out. */
    var blacklist: set<string>

    ghost predicate Valid()
      reads this
    {
      && Consistent(users, events, registrations)
      && 0 < nextUserId && 0 < nextEventId && 0 < nextRegistrationId
      && (forall id :: id in users ==> 0 < id < nextUserId)
      && (forall id :: id in events ==> 0 < id < nextEventId)
      && (forall id :: id in registrations ==> 0 < id < nextRegistrationId)
    }

    constructor ()
      ensures Valid()
      ensures users == map[] && events == map[] && registrations == map[] && blacklist == {}
    {
      users, events, registrations := map[], map[], map[];
      nextUserId, nextEventId, nextRegistrationId := 1, 1, 1;
      blacklist := {};
    }

    // -------------------------------------------------------------------------
    // Users
    // -------------------------------------------------------------------------

    /** Sign-up: open to anyone; a valid body adds exactly one user under a fresh key. */
    method CreateUser(data: UserPayload) returns (r: Response<(UserData, string)>)
      requires Valid()
      modifies this
      ensures Valid()
      ensures unchanged(this`events, this`registrations, this`nextEventId, this`nextRegistrationId, this`blacklist)
      ensures var err := UserPayloadError(old(users), None, data, false);
              if err.Some? then r == ValidationError(err.value) && unchanged(this)
              else
                var id := old(nextUserId);
                && id !in old(users)
                && users == old(users)[id := NewUser(data)]
                && nextUserId == id + 1
                && r == Ok((UserRepresentation(id, users[id]), UserCreatedMessage))
    {
      var err := UserPayloadError(users, None, data, false);
      if err.Some? {
        r := ValidationError(err.value);
        return;
      }
      var id := nextUserId;
      users := users[id := NewUser(data)];
      nextUserId := nextUserId + 1;
      r := Ok((UserRepresentation(id, users[id]), UserCreatedMessage));
    }

    /** Only an admin may list users; the list holds every user, without passwords. */
    method ListUsers(actor: Option<UserId>) returns (r: Response<map<UserId, UserData>>)
      ensures !IsAuthenticated(users, actor) ==> r == Unauthenticated
      ensures IsAuthenticated(users, actor) && users[actor.value].role != Admin ==> r == PermissionDenied(NoAccessMessage)
      ensures r.Ok? <==> IsAuthenticated(users, actor) && users[actor.value].role == Admin
      ensures r.Ok? ==> r.value.Keys == users.Keys
      ensures r.Ok? ==> forall id :: id in users ==> r.value[id] == UserRepresentation(id, users[id])
    {
      if !IsAuthenticated(users, actor) {
        r := Unauthenticated;
      } else if users[actor.value].role != Admin {
        r := PermissionDenied(NoAccessMessage);
      } else {
        r := Ok(map id | id in users :: UserRepresentation(id, users[id]));
      }
    }

    /** A user may see only their own record. */
    method RetrieveUser(actor: Option<UserId>, id: UserId) returns (r: Response<UserData>)
      ensures var access := UserObject(users, actor, id);
              if access.Ok? then r == Ok(UserRepresentation(id, access.value)) else r == access.Cast()
    {
      var access := UserObject(users, actor, id);
      if access.Ok? {
        r := Ok(UserRepresentation(id, access.value));
      } else {
        r := access.Cast();
      }
    }

    /**
     * A user may change only their own username and password; a role or key in
     * the body is ignored. Refusals leave everything as it was.
     */
    method UpdateUser(actor: Option<UserId>, id: UserId, data: UserPayload, partial: bool)
      returns (r: Response<(UserData, string)>)
      requires Valid()
      modifies this
      ensures Valid()
      ensures unchanged(this`events, this`registrations, this`blacklist)
      ensures unchanged(this`nextUserId, this`nextEventId, this`nextRegistrationId)
      ensures var access := UserObject(old(users), actor, id);
              var err := UserPayloadError(old(users), Some(id), data, partial);
              if !access.Ok? then r == access.Cast() && unchanged(this)
              else if err.Some? then r == ValidationError(err.value) && unchanged(this)
              else
                && users == old(users)[id := ApplyUserUpdate(old(users)[id], data)]
                && r == Ok((UserRepresentation(id, users[id]), UserUpdatedMessage))
    {
      var access := UserObject(users, actor, id);
      if !access.Ok? {
        r := access.Cast();
        return;
      }
      var err := UserPayloadError(users, Some(id), data, partial);
      if err.Some? {
        r := ValidationError(err.value);
        return;
      }
      users := users[id := ApplyUserUpdate(users[id], data)];
      r := Ok((UserRepresentation(id, users[id]), UserUpdatedMessage));
    }

    /**
     * A user may delete only their own record; their events and every
     * registration of theirs or for those events go with it.
     */
    method DeleteUser(actor: Option<UserId>, id: UserId) returns (r: Response<string>)
      requires Valid()
      modifies this
      ensures Valid()
      ensures unchanged(this`nextUserId, this`nextEventId, this`nextRegistrationId, this`blacklist)
      ensures var access := UserObject(old(users), actor, id);
              if !access.Ok? then r == access.Cast() && unchanged(this)
              else
                && users == old(users) - {id}
                && events == CascadeEvents(old(events), users)
                && registrations == CascadeRegistrations(old(registrations), users, events)
                && |events| == |old(events)| - |OrganizedBy(old(events), id)|
                && r == Ok(UserDeletedMessage(access.value.username))
    {
      var access := UserObject(users, actor, id);
      if !access.Ok? {
        r := access.Cast();
        return;
      }
      DeleteUserCascade(users, events, registrations, id);
      DeleteUserEventCount(users, events, id);
      users := users - {id};
      events := CascadeEvents(events, users);
      registrations := CascadeRegistrations(registrations, users, events);
      r := Ok(UserDeletedMessage(access.value.username));
    }

    // -------------------------------------------------------------------------
    // Events
    // -------------------------------------------------------------------------

    /** An organizer sees only the events they organize; any other user sees every event. */
    method ListEvents(actor: Option<UserId>) returns (r: Response<map<EventId, Event>>)
      ensures r.Ok? <==> IsAuthenticated(users, actor)
      ensures !r.Ok? ==> r == Unauthenticated
      ensures r.Ok? && users[actor.value].role == Organizer ==>
                forall id :: id in r.value <==> id in events && events[id].organizer == actor.value
      ensures r.Ok? && users[actor.value].role != Organizer ==> r.value == events
      ensures r.Ok? ==> forall id :: id in r.value ==> r.value[id] == events[id]
    {
      if !IsAuthenticated(users, actor) {
        r := Unauthenticated;
      } else if users[actor.value].role == Organizer {
        r := Ok(OrganizedBy(events, actor.value));
      } else {
        r := Ok(events);
      }
    }

    /**
     * Creating an event: the body is validated first, then only an organizer may
     * proceed; the new event's organizer is whatever the body names.
     */
    method CreateEvent(actor: Option<UserId>, data: EventPayload) returns (r: Response<(EventId, Event, string)>)
      requires Valid()
      modifies this
      ensures Valid()
      ensures unchanged(this`users, this`registrations, this`blacklist)
      ensures unchanged(this`nextUserId, this`nextRegistrationId)
      ensures var err := EventPayloadError(old(users), data, false);
              if !IsAuthenticated(old(users), actor) then r == Unauthenticated && unchanged(this)
              else if err.Some? then r == ValidationError(err.value) && unchanged(this)
              else if old(users)[actor.value].role != Organizer then
                r == PermissionDenied(NoPermissionMessage) && unchanged(this)
              else
                var id := old(nextEventId);
                && id !in old(events)
                && events == old(events)[id := NewEvent(data)]
                && nextEventId == id + 1
                && r == Ok((id, events[id], EventCreatedMessage))
    {
      if !IsAuthenticated(users, actor) {
        r := Unauthenticated;
        return;
      }
      var err := EventPayloadError(users, data, false);
      if err.Some? {
        r := ValidationError(err.value);
        return;
      }
      if users[actor.value].role != Organizer {
        r := PermissionDenied(NoPermissionMessage);
        return;
      }
      var id := nextEventId;
      events := events[id := NewEvent(data)];
      nextEventId := nextEventId + 1;
      r := Ok((id, events[id], EventCreatedMessage));
    }

    /** Only the event's organizer may see it. */
    method RetrieveEvent(actor: Option<UserId>, id: EventId) returns (r: Response<Event>)
      ensures r == EventObject(users, events, actor, id)
    {
      r := EventObject(users, events, actor, id);
    }

    /**
     * Only the event's organizer may change it; every field the body gives is
     * written, the organizer included.
     */
    method UpdateEvent(actor: Option<UserId>, id: EventId, data: EventPayload, partial: bool)
      returns (r: Response<(EventId, Event, string)>)
      requires Valid()
      modifies this
      ensures Valid()
      ensures unchanged(this`users, this`registrations, this`blacklist)
      ensures unchanged(this`nextUserId, this`nextEventId, this`nextRegistrationId)
      ensures var access := EventObject(old(users), old(events), actor, id);
              var err := EventPayloadError(old(users), data, partial);
              if !access.Ok? then r == access.Cast() && unchanged(this)
              else if err.Some? then r == ValidationError(err.value) && unchanged(this)
              else
                && events == old(events)[id := ApplyEventUpdate(old(events)[id], data)]
                && r == Ok((id, events[id], EventUpdatedMessage))
    {
      var access := EventObject(users, events, actor, id);
      if !access.Ok? {
        r := access.Cast();
        return;
      }
      var err := EventPayloadError(users, data, partial);
      if err.Some? {
        r := ValidationError(err.value);
        return;
      }
      events := events[id := ApplyEventUpdate(events[id], data)];
      r := Ok((id, events[id], EventUpdatedMessage));
    }

    /**
     * Only the event's organizer may delete it; its registrations go with it and
     * the answer names its title.
     */
    method DeleteEvent(actor: Option<UserId>, id: EventId) returns (r: Response<string>)
      requires Valid()
      modifies this
      ensures Valid()
      ensures unchanged(this`users, this`blacklist)
      ensures unchanged(this`nextUserId, this`nextEventId, this`nextRegistrationId)
      ensures var access := EventObject(old(users), old(events), actor, id);
              if !access.Ok? then r == access.Cast() && unchanged(this)
              else
                && events == old(events) - {id}
                && registrations == CascadeRegistrations(old(registrations), users, events)
                && |registrations| == |old(registrations)| - |RegistrationsFor(old(registrations), id)|
                && r == Ok(EventDeletedMessage(old(events)[id].title))
    {
      var access := EventObject(users, events, actor, id);
      if !access.Ok? {
        r := access.Cast();
        return;
      }
      DeleteEventCascade(users, events, registrations, id);
      DeleteEventRegistrationCount(users, events, registrations, id);
      events := events - {id};
      registrations := CascadeRegistrations(registrations, users, events);
      r := Ok(EventDeletedMessage(access.value.title));
    }

    // -------------------------------------------------------------------------
    // Registrations and counts
    // -------------------------------------------------------------------------

    /**
     * Registering for an event: the body is validated, then the handler's own
     * checks run; a success adds exactly one registration for the actor and the
     * named event, stamped with the server's clock `now`.
     */
    method Register(actor: Option<UserId>, data: RegistrationPayload, now: DateTime)
      returns (r: Response<(RegistrationId, Registration, string)>)
      requires Valid()
      modifies this
      ensures Valid()
      ensures unchanged(this`users, this`events, this`blacklist)
      ensures unchanged(this`nextUserId, this`nextEventId)
      ensures var err := RegistrationPayloadError(old(users), old(events), data);
              if !IsAuthenticated(old(users), actor) then r == Unauthenticated && unchanged(this)
              else if err.Some? then r == ValidationError(err.value) && unchanged(this)
              else
                var check := RegistrationCheck(data.event, old(events), old(users)[actor.value].role);
                if !check.Ok? then r == check.Cast() && unchanged(this)
                else
                  var id := old(nextRegistrationId);
                  && id !in old(registrations)
                  && registrations == old(registrations)[id := Registration(actor.value, data.event.value, now)]
                  && |registrations| == |old(registrations)| + 1
                  && nextRegistrationId == id + 1
                  && r == Ok((id, registrations[id], RegisteredMessage))
    {
      if !IsAuthenticated(users, actor) {
        r := Unauthenticated;
        return;
      }
      var err := RegistrationPayloadError(users, events, data);
      if err.Some? {
        r := ValidationError(err.value);
        return;
      }
      var check := RegistrationCheck(data.event, events, users[actor.value].role);
      if !check.Ok? {
        r := check.Cast();
        return;
      }
      var id := nextRegistrationId;
      registrations := registrations[id := Registration(actor.value, check.value, now)];
      nextRegistrationId := nextRegistrationId + 1;
      r := Ok((id, registrations[id], RegisteredMessage));
    }

    /** The number of events and of registrations; open to anyone. */
    method Count() returns (eventCount: nat, registrationCount: nat)
      ensures eventCount == |events| && registrationCount == |registrations|
    {
      eventCount, registrationCount := |events|, |registrations|;
    }

    // -------------------------------------------------------------------------
    // Sessions
    // -------------------------------------------------------------------------

    /**
     * Logging in: succeeds exactly when some active user matches the credentials,
     * and then names that user (token issuing is not modelled).
     */
    method Login(data: LoginPayload) returns (r: Response<UserId>)
      requires UniqueUsernames(users)
      ensures LoginFieldError(data).Some? ==> r == ValidationError(LoginFieldError(data).value)
      ensures LoginFieldError(data).None? ==>
                (r.Ok? <==> exists id :: id in users && Authenticates(users[id], data.username.value, data.password.value)
                                         && users[id].isActive)
      ensures r.Ok? ==> r.value in users && Authenticates(users[r.value], data.username.value, data.password.value)
                        && users[r.value].isActive
      ensures LoginFieldError(data).None?
              && (forall id :: id in users ==> !Authenticates(users[id], data.username.value, data.password.value))
              ==> r == ValidationError(Detail("non_field_errors", BadCredentials))
      ensures LoginFieldError(data).None?
              && (exists id :: id in users && Authenticates(users[id], data.username.value, data.password.value)
                               && !users[id].isActive)
              ==> r == ValidationError(Detail("non_field_errors", AccountDisabled))
      ensures r != ValidationError(Detail("non_field_errors", MissingCredentials))
    {
      var fieldError := LoginFieldError(data);
      if fieldError.Some? {
        r := ValidationError(fieldError.value);
        return;
      }
      var username, password := data.username.value, data.password.value;
      var authenticated: Option<(UserId, User)> := None;
      if exists id :: id in users && Authenticates(users[id], username, password) {
        var id :| id in users && Authenticates(users[id], username, password);
        authenticated := Some((id, users[id]));
      }
      r := ValidateLogin(data, authenticated);
    }

    /**
     * Logging out revokes the refresh token. `accepted` is whether the token
     * library takes the token as a well-formed, unexpired refresh token; a token
     * already revoked is refused like any other.
     */
    method Logout(refreshToken: Option<string>, accepted: bool) returns (r: Response<string>)
      modifies this`blacklist
      ensures !Truthy(refreshToken) ==> r == BadRequest(TokenRequiredMessage) && blacklist == old(blacklist)
      ensures Truthy(refreshToken) && accepted && refreshToken.value !in old(blacklist) ==>
                r == Ok(LogoutMessage) && blacklist == old(blacklist) + {refreshToken.value}
      ensures Truthy(refreshToken) && !(accepted && refreshToken.value !in old(blacklist)) ==>
                r == BadRequest(InvalidTokenMessage) && blacklist == old(blacklist)
    {
      if !Truthy(refreshToken) {
        r := BadRequest(TokenRequiredMessage);
      } else if accepted && refreshToken.value !in blacklist {
        blacklist := blacklist + {refreshToken.value};
        r := Ok(LogoutMessage);
      } else {
        r := BadRequest(InvalidTokenMessage);
      }
    }
  }
}
