/**
 * The serializers: what a request body may carry for each table, how it is
 * validated field by field, how a validated body becomes or changes a row, what
 * a user looks like in a response, and the decision chain of the login check.
 *
 * Field validation follows the fields each serializer declares or derives from
 * its model: a required field that is missing, a blank string, a title over the
 * model's length, a role outside the choices, a foreign key naming no row, or a
 * username already taken. When several fields fail, the first in field order is
 * reported.
 */
module Serializers {
  import opened Results
  import opened Models

  /** A value Python treats as true: present and not the empty string. */
  predicate Truthy(s: Option<string>) {
    s.Some? && s.value != ""
  }

  // ---------------------------------------------------------------------------
  // UserSerializer
  // ---------------------------------------------------------------------------

  /** A user in a request body. `id` is read-only and never taken from it. */
  datatype UserPayload = UserPayload(
    username: Option<string>,
    password: Option<string>,
    role: Option<string>,
    id: Option<int>)

  /** A user in a response: `password` is write-only, so it is not there. */
  datatype UserData = UserData(username: string, role: Role, id: UserId)

  function UserRepresentation(id: UserId, user: User): UserData {
    UserData(user.username, user.role, id)
  }

  /** What a response shows of a user does not depend on their password credential. */
  lemma PasswordIsWriteOnly(id: UserId, user: User, other: Credential)
    ensures UserRepresentation(id, user) == UserRepresentation(id, user.(password := other))
    ensures UserRepresentation(id, user).username == user.username
    ensures UserRepresentation(id, user).role == user.role
    ensures UserRepresentation(id, user).id == id
  {
  }

  /** Some user other than `instance` already has `name`. */
  predicate UsernameTaken(users: map<UserId, User>, instance: Option<UserId>, name: string) {
    exists k :: k in users && users[k].username == name && Some(k) != instance
  }

  /**
   * Validation of a user body, for creation (`instance == None`) or for an update
   * of `instance`; with `partial` (PATCH) no field is required.
   */
  function UserPayloadError(users: map<UserId, User>, instance: Option<UserId>, data: UserPayload, partial: bool)
    : (err: Option<FieldError>)
    ensures err.None? <==>
              && (!partial ==> data.username.Some? && data.password.Some? && data.role.Some?)
              && (data.username.Some? ==>
                    data.username.value != "" && !UsernameTaken(users, instance, data.username.value))
              && (data.password.Some? ==> 0 < |data.password.value| <= PasswordMaxLength)
              && (data.role.Some? ==> ParseRole(data.role.value).Some?)
    ensures err.None? && data.username.Some? ==>
              data.username.value != ""
              && forall k :: k in users && Some(k) != instance ==> users[k].username != data.username.value
    ensures Truthy(data.username) && UsernameTaken(users, instance, data.username.value) ==>
              err == Some(NotUnique("username"))
  {
    if data.username.None? && !partial then Some(Required("username"))
    else if data.username.Some? && data.username.value == "" then Some(Blank("username"))
    else if data.username.Some? && UsernameTaken(users, instance, data.username.value) then Some(NotUnique("username"))
    else if data.password.None? && !partial then Some(Required("password"))
    else if data.password.Some? && data.password.value == "" then Some(Blank("password"))
    else if data.password.Some? && |data.password.value| > PasswordMaxLength then
      Some(TooLong("password", PasswordMaxLength))
    else if data.role.None? && !partial then Some(Required("role"))
    else if data.role.Some? && ParseRole(data.role.value).None? then Some(InvalidChoice("role", data.role.value))
    else None
  }

  /** The row `create_user` inserts: the password is stored hashed, the account active. */
  function NewUser(data: UserPayload): (user: User)
    requires data.username.Some? && data.password.Some? && data.role.Some?
    requires ParseRole(data.role.value).Some?
    ensures user.username == data.username.value
    ensures CheckPassword(user.password, data.password.value)
    ensures RoleName(user.role) == data.role.value
    ensures user.isActive
  {
    User(data.username.value, MakePassword(data.password.value), ParseRole(data.role.value).value, true)
  }

  /**
   * `UserSerializer.update`: the username is replaced when one is given, the
   * password only when a non-empty one is given; the role and everything else are
   * kept even when the body carries them.
   */
  function ApplyUserUpdate(instance: User, data: UserPayload): (user: User)
    ensures data.username.None? ==> user.username == instance.username
    ensures data.username.Some? ==> user.username == data.username.value
    ensures Truthy(data.password) ==> CheckPassword(user.password, data.password.value)
    ensures !Truthy(data.password) ==> user.password == instance.password
    ensures user.role == instance.role && user.isActive == instance.isActive
  {
    var username := data.username.GetOr(instance.username);
    var password := if Truthy(data.password) then MakePassword(data.password.value) else instance.password;
    instance.(username := username, password := password)
  }

  // ---------------------------------------------------------------------------
  // EventSerializer (all fields of Event)
  // ---------------------------------------------------------------------------

  /** An event in a request body. `id` is read-only; every other field is writable, `organizer` included. */
  datatype EventPayload = EventPayload(
    id: Option<int>,
    title: Option<string>,
    description: Option<string>,
    startTime: Option<DateTime>,
    endTime: Option<DateTime>,
    status: Option<bool>,
    organizer: Option<UserId>)

  /** Validation of an event body; `status` has a default and so is never required. */
  function EventPayloadError(users: map<UserId, User>, data: EventPayload, partial: bool): (err: Option<FieldError>)
    ensures err.None? <==>
              && (!partial ==>
                    data.title.Some? && data.description.Some? && data.startTime.Some? && data.endTime.Some?
                    && data.organizer.Some?)
              && (data.title.Some? ==> 0 < |data.title.value| <= TitleMaxLength)
              && (data.description.Some? ==> data.description.value != "")
              && (data.organizer.Some? ==> data.organizer.value in users)
  {
    if data.title.None? && !partial then Some(Required("title"))
    else if data.title.Some? && data.title.value == "" then Some(Blank("title"))
    else if data.title.Some? && |data.title.value| > TitleMaxLength then Some(TooLong("title", TitleMaxLength))
    else if data.description.None? && !partial then Some(Required("description"))
    else if data.description.Some? && data.description.value == "" then Some(Blank("description"))
    else if data.startTime.None? && !partial then Some(Required("start_time"))
    else if data.endTime.None? && !partial then Some(Required("end_time"))
    else if data.organizer.None? && !partial then Some(Required("organizer"))
    else if data.organizer.Some? && data.organizer.value !in users then
      Some(NoSuchObject("organizer", data.organizer.value))
    else None
  }

  /** The row an event body inserts: every field from the body, unpublished unless `status` is given. */
  function NewEvent(data: EventPayload): (event: Event)
    requires data.title.Some? && data.description.Some? && data.startTime.Some? && data.endTime.Some?
    requires data.organizer.Some?
    ensures event.organizer == data.organizer.value
    ensures data.status.None? ==> !event.status
    ensures data.status.Some? ==> event.status == data.status.value
    ensures event.title == data.title.value && event.description == data.description.value
    ensures event.startTime == data.startTime.value && event.endTime == data.endTime.value
  {
    Event(data.title.value, data.description.value, data.startTime.value, data.endTime.value,
          data.status.GetOr(DefaultStatus), data.organizer.value)
  }

  /** A validated event body written over an event: each field given replaces the stored one. */
  function ApplyEventUpdate(event: Event, data: EventPayload): (updated: Event)
    ensures data.title.Some? ==> updated.title == data.title.value
    ensures data.title.None? ==> updated.title == event.title
    ensures data.description.Some? ==> updated.description == data.description.value
    ensures data.description.None? ==> updated.description == event.description
    ensures data.startTime.Some? ==> updated.startTime == data.startTime.value
    ensures data.startTime.None? ==> updated.startTime == event.startTime
    ensures data.endTime.Some? ==> updated.endTime == data.endTime.value
    ensures data.endTime.None? ==> updated.endTime == event.endTime
    ensures data.status.Some? ==> updated.status == data.status.value
    ensures data.status.None? ==> updated.status == event.status
    ensures data.organizer.Some? ==> updated.organizer == data.organizer.value
    ensures data.organizer.None? ==> updated.organizer == event.organizer
  {
    Event(data.title.GetOr(event.title), data.description.GetOr(event.description),
          data.startTime.GetOr(event.startTime), data.endTime.GetOr(event.endTime),
          data.status.GetOr(event.status), data.organizer.GetOr(event.organizer))
  }

  // ---------------------------------------------------------------------------
  // RegistrationSerializer
  // ---------------------------------------------------------------------------

  /**
   * A registration in a request body: `user` and `event` are writable key fields,
   * `id` and `registeredAt` are read-only and never taken from it.
   */
  datatype RegistrationPayload = RegistrationPayload(
    id: Option<int>,
    user: Option<UserId>,
    event: Option<EventId>,
    registeredAt: Option<DateTime>)

  /** Validation of a registration body: both keys are required and must name existing rows. */
  function RegistrationPayloadError(
    users: map<UserId, User>, events: map<EventId, Event>, data: RegistrationPayload)
    : (err: Option<FieldError>)
    ensures err.None? <==>
              data.user.Some? && data.user.value in users && data.event.Some? && data.event.value in events
  {
    if data.user.None? then Some(Required("user"))
    else if data.user.value !in users then Some(NoSuchObject("user", data.user.value))
    else if data.event.None? then Some(Required("event"))
    else if data.event.value !in events then Some(NoSuchObject("event", data.event.value))
    else None
  }

  // ---------------------------------------------------------------------------
  // LoginSerializer
  // ---------------------------------------------------------------------------

  datatype LoginPayload = LoginPayload(username: Option<string>, password: Option<string>)

  const MissingCredentials := "Must include 'email' and 'password'."
  const BadCredentials := "Unable to log in with provided credentials."
  const AccountDisabled := "User account is disabled."

  /** The declared `username` and `password` fields are required and may not be blank. */
  function LoginFieldError(data: LoginPayload): (err: Option<FieldError>)
    ensures err.None? <==> Truthy(data.username) && Truthy(data.password)
  {
    if data.username.None? then Some(Required("username"))
    else if data.username.value == "" then Some(Blank("username"))
    else if data.password.None? then Some(Required("password"))
    else if data.password.value == "" then Some(Blank("password"))
    else None
  }

  /**
   * `LoginSerializer.validate`, given what `authenticate` answered for the body's
   * credentials: missing credentials, then unknown credentials, then a disabled
   * account fail, in that order; otherwise the authenticated user is the result.
   */
  function ValidateLogin(data: LoginPayload, authenticated: Option<(UserId, User)>): (r: Response<UserId>)
    ensures !(Truthy(data.username) && Truthy(data.password)) ==>
              r == ValidationError(Detail("non_field_errors", MissingCredentials))
    ensures Truthy(data.username) && Truthy(data.password) && authenticated.None? ==>
              r == ValidationError(Detail("non_field_errors", BadCredentials))
    ensures Truthy(data.username) && Truthy(data.password) && authenticated.Some?
              && !authenticated.value.1.isActive ==>
              r == ValidationError(Detail("non_field_errors", AccountDisabled))
    ensures r.Ok? <==>
              Truthy(data.username) && Truthy(data.password) && authenticated.Some? && authenticated.value.1.isActive
    ensures r.Ok? ==> r.value == authenticated.value.0
  {
    if Truthy(data.username) && Truthy(data.password) then
      match authenticated
      case Some((id, user)) =>
        if !user.isActive then ValidationError(Detail("non_field_errors", AccountDisabled))
        else Ok(id)
      case None => ValidationError(Detail("non_field_errors", BadCredentials))
    else
      ValidationError(Detail("non_field_errors", MissingCredentials))
  }
}
