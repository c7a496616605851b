# Event-management backend: authorization, ownership and table effects

This project models the request handlers of a small event-management backend.
Users sign up with a role (admin, organizer or attendee). Events are owned by an
organizer. Users register for events. Sessions use bearer tokens.

The model holds the backend's three tables in one object, `Views.Backend`:
`users`, `events` and `registrations`, each a map from an auto-incremented key
to a record. Each handler is one method of that object. Every handler except
sign-up, login, logout and the count view takes the acting user explicitly as
`actor: Option<UserId>` (`None` when the request carries no valid token); those
four never look at the requesting user. Every handler except the count view
returns a `Response`: `Ok`, `Unauthenticated`, `PermissionDenied`,
`ValidationError`, `NotFound`, or `BadRequest` for logout. The count view
returns the two counts. Each method states its answer, the new contents of all three tables, and that a refusal changes nothing.

The role checks and the owner scoping are pure functions over the tables:

- `UserObject` is the user-detail lookup: an unknown id gives NotFound, someone else's id gives PermissionDenied.
- `EventObject` is the event-detail lookup, scoped to the actor's own events.
- `RegistrationCheck` is the registration handler's own check chain.

The integrity the database keeps is `Models.Consistent`:

- every event's organizer exists;
- every registration's user and event exist;
- usernames are unique.

`Backend.Valid()` adds that every key lies below its table's auto-increment
counter. Every handler preserves `Valid()`. The two deletes follow the schema's
ON DELETE CASCADE relations, through `CascadeEvents` and `CascadeRegistrations`.

Modules follow the source files:

- `Models` is `events/models.py`.
- `Serializers` is `events/serializers.py`.
- `Views` is `events/views.py`.
- `Results` holds Option and the response shapes.

Field validation is part of the model, not only the handlers' own checks. The
framework validates each serializer's fields (required, not blank, within the
model's lengths, a valid choice, an existing foreign key, a unique username)
before `perform_create`, `update` or `validate` runs. That changes which error
some requests see.

## Behaviour of the code worth knowing

- **Event owner.** The creating organizer does not become the event's fixed owner. The event serializer exposes every field (`events/serializers.py:28-31`), and `perform_create` saves the body unchanged (`events/views.py:89-95`). So the organizer is whatever user the body names, and an update may change it (`Serializers.NewEvent`, `Serializers.ApplyEventUpdate`).
- **Event detail scoping.** Event detail does not check the organizer role. It scopes by the `organizer` field alone (`events/views.py:111-112`). So an attendee named as an event's organizer may see, change and delete it (`Views.EventObject`).
- **Create-event order.** The body is validated before the role check. So a non-organizer sending an invalid body gets a ValidationError, not PermissionDenied (`Views.Backend.CreateEvent`).
- **Registration body.** The registration serializer has a required writable `user` key and an `event` key that must name an existing event (`events/serializers.py:34-37`). These are checked before `perform_create`. `perform_create` then overwrites `user` with the actor. As a result, its own "This field is required." and "Event not found." checks can no longer fail (`Views.ValidatedRegistrationChecksRoleOnly`). A non-attendee naming a missing event still gets a ValidationError, from the serializer.
- **Login fields.** `LoginSerializer` declares `username` and `password` as required, non-blank fields (`events/serializers.py:42-43`). So the handler never reaches the "Must include 'email' and 'password'." branch of `validate` (last ensures of `Views.Backend.Login`). That branch is still modelled as written in `Serializers.ValidateLogin`.
- **Duplicate registrations.** Nothing forbids them: the same attendee may register twice for one event.

## Model

| member | source | states |
|---|---|---|
| `Models.ParseRole` | events/models.py:6-11 | a role read from input is one of exactly the three choices admin, organizer and attendee, and each choice is read back as itself |
| `Models.Consistent` | events/models.py:19-25 | the store invariant: every event's organizer and every registration's user and event exist, and usernames are unique; so a registration's event always has an existing organizer |
| `Models.CascadeEvents` | events/models.py:19 | once only the given users remain, the events kept are exactly those whose organizer is among them, unchanged, so none refers to a missing user |
| `Models.CascadeRegistrations` | events/models.py:24-25 | once only the given users and events remain, the registrations kept are exactly those whose user and event both survive, so none dangles |
| `Models.DeleteUserCascade` | events/models.py:19-25 | deleting a user from a consistent store removes exactly their events and every registration that is theirs or for one of those events; the store stays consistent |
| `Models.DeleteEventCascade` | events/models.py:25 | deleting an event removes exactly its registrations; the store stays consistent |
| `Models.DeleteUserEventCount` | events/models.py:19 | after a user is deleted, the event count has dropped by exactly the number of events they organized |
| `Models.DeleteEventRegistrationCount` | events/models.py:25 | after an event is deleted, the registration count has dropped by exactly the number of its registrations |
| `Serializers.PasswordIsWriteOnly` | events/serializers.py:9-11 | a user's representation in a response shows username, role and id, and does not depend on the password credential |
| `Serializers.UserPayloadError` | events/serializers.py:9-13 | a user body passes exactly when: username, password and role are all present on create and full update (role is required); any username given is non-blank and held by no other user; any password given is non-blank and at most 128 characters; any role given is a valid choice. A taken username is rejected as not unique |
| `Serializers.NewUser` | events/serializers.py:15-17 | the created user has the given username and role, a credential that checks against the given password, and is active |
| `Serializers.ApplyUserUpdate` | events/serializers.py:19-25 | the username is kept when none is given and replaced otherwise; the credential changes only for a non-empty password, to one matching it; role and active flag never change, even when supplied |
| `Serializers.EventPayloadError` | events/serializers.py:28-31 | an event body passes exactly when: every field but `status` is present on create and full update; any title given is non-blank and at most 100 characters; any description given is non-blank; any organizer given is an existing user |
| `Serializers.NewEvent` | events/models.py:13-19 | a created event takes title, description, start and end times and organizer from the body, and is unpublished unless a status is given |
| `Serializers.ApplyEventUpdate` | events/serializers.py:28-31 | each of the six writable fields replaces the stored value when given, the organizer included, and keeps it when absent |
| `Serializers.RegistrationPayloadError` | events/serializers.py:34-37 | a registration body passes exactly when it names an existing user and an existing event |
| `Serializers.LoginFieldError` | events/serializers.py:42-43 | a login body passes field validation exactly when username and password are both present and non-empty |
| `Serializers.ValidateLogin` | events/serializers.py:45-59 | empty or missing credentials fail with "Must include 'email' and 'password'.", unmatched ones with "Unable to log in with provided credentials.", an inactive matched user with "User account is disabled."; it succeeds exactly for an active authenticated user and returns that user |
| `Views.IsAuthenticated` | events/views.py:74-75 | the `IsAuthenticated` permission together with the token library's user lookup: a request without a token is refused, and one whose token names a deleted or inactive user is refused |
| `Views.AuthenticationFollowsAccount` | events/views.py:74-75 | a token stops authenticating once its user is deleted or deactivated, and no other user's row affects it |
| `Views.Authenticates` | events/serializers.py:50 | `authenticate` with the credential abstracted: a user matches exactly when the username is theirs and their stored credential is the one the password gives |
| `Views.AtMostOneAuthenticates` | events/serializers.py:50 | with unique usernames, at most one user matches a pair of credentials, so the user a login names is determined |
| `Views.UserObject` | events/views.py:48-57 | user detail: unauthenticated is refused, an unknown id is NotFound, an existing id other than the actor is PermissionDenied; it succeeds exactly when the actor asks for themself |
| `Views.EventObject` | events/views.py:111-121 | event detail succeeds exactly when the event exists and its organizer is the actor; every other authenticated request gets the same PermissionDenied |
| `Views.ExistenceIsHidden` | events/views.py:114-120 | asking for another user's event and for an id that does not exist give the same refusal |
| `Views.DetailAccessIsOwnListing` | events/views.py:111-112 | event detail acts on exactly the events an organizer's list shows, those they organize |
| `Views.RegistrationCheck` | events/views.py:143-153 | a missing or zero event key fails "This field is required.", then an unknown event "Event not found.", and only then a non-attendee is refused; it succeeds exactly for an attendee naming an existing event |
| `Views.ValidatedRegistrationChecksRoleOnly` | events/views.py:143-153 | once the registration serializer has accepted the body, the handler's checks depend on the role alone: an attendee proceeds with the named event, anyone else is refused |
| `Views.Backend.CreateUser` | events/views.py:15-26 | open to anyone: an invalid body changes nothing; a valid one adds exactly one user under a fresh key, touches no other table and answers the user without password and "User created successfully" |
| `Views.Backend.ListUsers` | events/views.py:35-39 | only an admin may list users, any other authenticated user gets PermissionDenied; the list holds every user, each without password |
| `Views.Backend.RetrieveUser` | events/views.py:42-57 | answers the actor's own record without password, or the user-detail refusal |
| `Views.Backend.UpdateUser` | events/views.py:59-63 | after the user-detail and body checks, only the actor's own record changes, as the serializer's update says; a refusal changes nothing |
| `Views.Backend.DeleteUser` | events/views.py:65-69 | after the user-detail check, removes the user, cascades to their events and registrations, drops the event count by the number they organized, and answers with their username in the message; a refusal changes nothing |
| `Views.Backend.ListEvents` | events/views.py:79-86 | an organizer gets exactly the events they organize; any other authenticated user gets every event |
| `Views.Backend.CreateEvent` | events/views.py:89-102 | the body is validated first, then a non-organizer is refused and nothing changes; an organizer adds exactly one event under a fresh key and nothing else changes |
| `Views.Backend.RetrieveEvent` | events/views.py:105-121 | answers the event only to its organizer, otherwise the same PermissionDenied for foreign and missing ids |
| `Views.Backend.UpdateEvent` | events/views.py:123-127 | after the scoped lookup and body checks, only that event changes, every given field written, organizer included; a refusal changes nothing |
| `Views.Backend.DeleteEvent` | events/views.py:129-133 | after the scoped lookup, removes exactly that event and its registrations, other events untouched, and answers with its title in the message; a refusal changes nothing |
| `Views.Backend.Register` | events/views.py:137-161 | after authentication, body validation and the check chain, adds exactly one registration with the actor as user, the named event, and the server's time, never a client-supplied one; otherwise nothing changes |
| `Views.Backend.Count` | events/views.py:163-171 | open to anyone, answers the number of events and the number of registrations |
| `Views.Backend.Login` | events/views.py:174-184 | succeeds exactly when an active user matches the credentials and names that user; no match gives "Unable to log in with provided credentials.", an inactive match "User account is disabled.", and the "Must include" error never reaches the handler |
| `Views.Backend.Logout` | events/views.py:187-198 | a missing or empty token gives "Refresh token is required."; an accepted, not yet revoked token is revoked; any other token gives "Invalid token." and revokes nothing |

## Left out

- Token issuing, signing, expiry and verification belong to the token library, which is not part of this model. A request's identity arrives as `actor`. A request is authenticated when `actor` names an existing, active user. `Views.Backend.Login` returns the user a token pair would be issued for, not the tokens.
- Views.Backend.Logout: whether the token library accepts a refresh token is the parameter `accepted`. The model does not tell malformed, expired and already-revoked tokens apart, and neither does the source.
- Views.Backend.Login: the credential check stands in for Django's `authenticate`: a matching username and a stored credential that checks against the password. Django's default authentication backend also refuses inactive accounts. That backend is not part of this model, so "User account is disabled." is reachable here.
- Password hashing is abstract: a stored credential is determined by the raw password (`Models.MakePassword`).
- Project settings are not part of this model. Sign-up, login, logout and the count view are taken as open to anyone. The user views are taken to authenticate with the same bearer tokens as the event views.
- HTTP status codes, response dictionaries, `print(user)`, URL routing (`events/urls.py`), database ordering of list results (results are maps) and transactions are not modelled.
- When several fields of a body fail validation, the framework reports them all. The model reports the first, in field order.
- Username character and length validators inherited from Django's user model (the password's 128-character limit is modelled), the Unicode normalization `create_user` applies to a new username (so a stored username may differ from the one given and may clash with an existing one after the uniqueness check has passed; an update does not normalize), whitespace trimming of character fields, date-time parsing, and wrong-type keys are not modelled. Date-times are opaque integers, and nothing orders them.
