# Keycloak user-profile and order services, modelled in Dafny

The system is two small NestJS services.

* The **auth service** keeps a local MongoDB profile for every Keycloak user
  (`AuthService.findOrCreateUserFromKeycloak`, `getUserProfile`) under the
  `userSchema` validators. It creates users in Keycloak through the admin REST
  API with a cached admin token (`KeycloakAdminService`), reads its Keycloak
  settings from the environment (`keycloakConfig`, `keycloakUrls`,
  `KeycloakConfigService`), maps token claims to the request user
  (`KeycloakStrategy.validate`) and, at start-up, creates the Kafka topics it
  is missing (`KafkaAdminService.onModuleInit`).
* The **order service** protects its routes with a bearer-token guard
  (`AuthGuard`) and a realm-role guard (`RolesGuard`). It stores orders under
  the `Order` schema and emits `order.created` / `order.deleted` events
  (`OrderService`).

The model keeps the services' structure: one Dafny module per core source
file, except that the two authentication request bodies share `AuthDtos`, plus
the shared modules `Js`, `Claims`, `ClassValidator` and `Nest`, which stand for
the JavaScript runtime, the token payload, the validation library and the HTTP
exceptions. Within that structure:

* The database collections are maps keyed by id.
* The event stream is an append-only sequence.
* Keycloak, the JWT verifier, the key set, HTTP and the Kafka broker appear
  only through their answers, which are parameters.
* The clock is an integer count of milliseconds.
* JavaScript's truthiness, `||` defaults, template interpolation of
  `undefined`, `String.split` and ASCII lower-casing are written out in
  module `Js`.
* class-validator decorators are predicates over a `JsValue` in module
  `ClassValidator`.

The objects whose fields the source updates are classes:
`AuthService.AuthService`, `KeycloakAdmin.KeycloakAdminService`,
`AuthGuard.Request` and `OrderService.OrderService`. The methods
`AuthService.FindOrCreateUserFromKeycloak`, `KeycloakAdminService.GetAdminToken`
and `KeycloakAdminService.CreateUser` are proved equal to the pure step
functions `FindOrCreate`, `GetAdminTokenStep` and `CreateUserStep`. The
module-level method `AuthGuard.CanActivate`, which fills in the request's
`user`, is proved against `Authenticate`. The properties are lemmas about those
functions. `OrderService.Create` and
`Delete` state the new order map and event log directly in their contracts.

The model follows what the code does, including where that differs from what
one might expect of such services:

* **Updating an existing profile overwrites** first name, last name and email
  with the payload's values. There is no "keep the old value when the claim
  is blank" policy.
  * A missing or empty `given_name` or `family_name` therefore fails the save
    with a validation error, which is thrown as it is (`UpdateWithBlankNameFails`).
  * A profile created with the 'N/A' fallback cannot be reconciled again from
    the same payload (`RepeatWithoutGivenNameFails`). The operation is
    idempotent only for payloads that carry both names (`RepeatAddsNoRecord`).
* No login or refresh-token exchange, `getUserInfo` or `getAllUsers` exists
  in the services, and profile creation emits no event. None of these is
  modelled.
* `createUser` builds its failure message as
  `'Failed to create user: ' + errorMessage || message`. `+` binds first, so
  the provider's `message` is never used: the text ends in "undefined" when
  the provider gives no `errorMessage` (`FailureMessageIgnoresMessage`).
* `keycloakUrls` interpolates `KEYCLOAK_SERVER_URL` directly rather than the
  configuration's defaulted value. With the variable unset, every URL starts
  with "undefined" (`UrlsIgnoreServerDefault`).

## Model

| member | source | states |
|---|---|---|
| UserSchema.SetEmail | auth-microservice/src/user/user.schema.ts:55 | the `lowercase` setter keeps presence and length, yields a string that lower-casing leaves unchanged, and agrees with the input character by character up to case |
| UserSchema.SetEmailIdempotent | auth-microservice/src/user/user.schema.ts:55 | applying the lowercase setter twice is the same as applying it once |
| UserSchema.EmailShapeMatchesRegex | auth-microservice/src/user/user.schema.ts:56 | an email passes `^\S+@\S+\.\S+$` exactly when it has no whitespace and has an '@' after a non-empty run followed by a '.' with non-empty runs on both sides |
| UserSchema.Validate | auth-microservice/src/user/user.schema.ts:16-57 | validation fails exactly when some path is invalid and reports those paths; a valid document yields a user holding exactly its fields, whose birth date is no later than the cutoff and which is well formed when its email went through the setter |
| UserSchema.InvalidPaths | auth-microservice/src/user/user.schema.ts:16-57 | the paths the schema's validators reject; its properties are stated by `Validate`, `DateOfBirthRule`, `AgeRule` and `EmailShapeMatchesRegex` |
| UserSchema.DateOfBirthRule | auth-microservice/src/user/user.schema.ts:34-45 | a present birth date later than today minus 18 years is rejected; an absent one is never rejected |
| UserSchema.AgeRule | auth-microservice/src/user/user.schema.ts:30-33 | `age` is rejected exactly when present and below 18 |
| AuthService.Save | auth-microservice/src/user/user.schema.ts:16-57 | a save validates first, then checks the unique indexes; it fails exactly on invalid paths or a clash with another record's user name or email; invalid paths give a validation error listing them even when the record also clashes, and only a valid document can give the duplicate-key error; on success it stores the validated user under its Keycloak id |
| AuthService.FindOrCreate | auth-microservice/src/auth/service/auth.service.ts:13-52 | one call of `findOrCreateUserFromKeycloak`: result and resulting table; its properties are the lemmas below |
| AuthService.MissingSubjectRejected | auth-microservice/src/auth/service/auth.service.ts:14-18 | a payload without a truthy `sub` is refused as Unauthorized with its message, and the users are untouched |
| AuthService.CreationAddsOneRecord | auth-microservice/src/auth/service/auth.service.ts:20-33 | a new subject gets exactly one new record: 'N/A' for falsy names, `preferred_username \|\| email` as user name, the lower-cased email, no age or birth date |
| AuthService.CreationFailures | auth-microservice/src/auth/service/auth.service.ts:34-41 | on creation a validation error is rethrown unchanged, a unique-index clash (code 11000) becomes Unauthorized with the support message, and a failure stores nothing |
| AuthService.UpdateOverwritesNames | auth-microservice/src/auth/service/auth.service.ts:42-49 | an existing record gets the payload's names and lower-cased email with no fallback; id, user name, age and birth date are kept, and no key is added |
| AuthService.UpdateWithBlankNameFails | auth-microservice/src/auth/service/auth.service.ts:45-48 | updating with a missing or empty `given_name` or `family_name` fails with a validation error on `firstName` or `lastName` respectively and changes nothing |
| AuthService.OtherRecordsUnchanged | auth-microservice/src/auth/service/auth.service.ts:13-52 | records of other subjects are never changed, and at most the subject's own key is added |
| AuthService.OneRecordPerSubject | auth-microservice/src/auth/service/auth.service.ts:20-51 | after a successful call on a consistent table, the subject has exactly one record, and it is the returned user |
| AuthService.PreservesConsistency | auth-microservice/src/auth/service/auth.service.ts:13-52 | a call keeps the table consistent: keyed by Keycloak id, every record valid, user names and emails unique |
| AuthService.RepeatAddsNoRecord | auth-microservice/src/auth/service/auth.service.ts:20-51 | repeating a successful call adds no key; with both names present the repeat returns the same user and changes nothing |
| AuthService.RepeatWithoutGivenNameFails | auth-microservice/src/auth/service/auth.service.ts:28-48 | a profile created with the 'N/A' first name cannot be reconciled again from the same payload: the repeat fails and changes nothing |
| AuthService.AuthService.constructor | auth-microservice/src/auth/service/auth.service.ts:8-10 | the service starts over the given user collection |
| AuthService.AuthService.FindOrCreateUserFromKeycloak | auth-microservice/src/auth/service/auth.service.ts:13-52 | the method's result and new user table are those of the reconciliation function, and consistency is kept |
| AuthService.AuthService.GetUserProfile | auth-microservice/src/auth/service/auth.service.ts:54-56 | the profile is found exactly when the Keycloak id is a key, and it is that record; nothing changes |
| KeycloakConfig.LoadConfig | auth-microservice/src/keycloak/keycloak.config.ts:3-13 | `keycloakConfig` evaluated against the environment; stated by `ConfigDefaults` and `ConfigTakesSetValues` |
| KeycloakConfig.KeycloakUrls | auth-microservice/src/keycloak/keycloak.config.ts:16-21 | `keycloakUrls(realm)`; stated by `UrlShapes` and `UrlsIgnoreServerDefault` |
| KeycloakConfig.ConfigDefaults | auth-microservice/src/keycloak/keycloak.config.ts:3-13 | each unset or empty variable takes its own default whatever the others hold: "" for realm, client id, secret and server URL, 'admin' for each admin credential; the modes are always permissive and online |
| KeycloakConfig.ConfigTakesSetValues | auth-microservice/src/keycloak/keycloak.config.ts:5-12 | a non-empty realm, client id, client secret, server URL or admin credential variable is taken as it is |
| KeycloakConfig.UrlShapes | auth-microservice/src/keycloak/keycloak.config.ts:16-21 | the token, userinfo and certs URLs share the realm's OpenID Connect prefix; the admin URL is `/admin/realms/<realm>/users` |
| KeycloakConfig.UrlsIgnoreServerDefault | auth-microservice/src/keycloak/keycloak.config.ts:8-21 | with the server variable unset every URL starts with "undefined"; when it is set they start with the configured server URL |
| KeycloakConfigService.NewConfigService | auth-microservice/src/keycloak/keycloak-config.service.ts:13-18 | the constructor reading the four settings; stated by `ServiceDefaults`, `ConnectOptionsCopySettings` and `AgreesWithKeycloakUrls` |
| KeycloakConfigService.ServiceDefaults | auth-microservice/src/keycloak/keycloak-config.service.ts:13-47 | each unset or empty setting defaults on its own, to "" except the secret, which defaults to 'mysecret'; each non-empty setting is stored as it is; the getters return the stored values |
| KeycloakConfigService.ConnectOptionsCopySettings | auth-microservice/src/keycloak/keycloak-config.service.ts:20-30 | the connect options copy the four settings and fix permissive enforcement, online validation and bearer-only |
| KeycloakConfigService.AgreesWithKeycloakUrls | auth-microservice/src/keycloak/keycloak-config.service.ts:50-60 | with both server variables equal and non-empty, the service's certs, token and userinfo URLs equal those of `keycloakUrls` |
| KeycloakAdmin.GetAdminTokenStep | auth-microservice/src/keycloak/keycloak-admin.service.ts:14-43 | one call of `getAdminToken`: result, requests sent and new cache; stated by `CachedTokenReused`, `RefetchAtExpiration`, `FetchUpdatesCache` and `FetchedTokenLifetime` |
| KeycloakAdmin.CreateUserStep | auth-microservice/src/keycloak/keycloak-admin.service.ts:45-79 | one call of `createUser`; stated by `TokenBeforePost`, `UserPayloadShape` and `CreateUserOutcome` |
| KeycloakAdmin.AdminTokenRequestIsPasswordGrant | auth-microservice/src/keycloak/keycloak-admin.service.ts:19-35 | the token request is a form-encoded password grant for client 'admin-cli' with the admin credentials, posted to the master realm's token endpoint |
| KeycloakAdmin.CachedTokenReused | auth-microservice/src/keycloak/keycloak-admin.service.ts:15-17 | a held token is returned with no request and no change while `now < tokenExpiration`; otherwise exactly one token request is sent |
| KeycloakAdmin.RefetchAtExpiration | auth-microservice/src/keycloak/keycloak-admin.service.ts:15 | at exactly the expiration instant a new token is requested |
| KeycloakAdmin.FetchUpdatesCache | auth-microservice/src/keycloak/keycloak-admin.service.ts:37-42 | a granted token is stored with expiration `received + expires_in * 1000` and returned; a failed grant throws 'Failed to get admin token: ' + message and keeps the cache |
| KeycloakAdmin.FetchedTokenLifetime | auth-microservice/src/keycloak/keycloak-admin.service.ts:15-38 | after a fetch, a later call reuses the token exactly when it comes before the stored expiration |
| KeycloakAdmin.UserPayloadShape | auth-microservice/src/keycloak/keycloak-admin.service.ts:49-62 | the user payload copies the four profile fields, is enabled and holds one non-temporary password credential with the submitted password |
| KeycloakAdmin.FailureMessageIgnoresMessage | auth-microservice/src/keycloak/keycloak-admin.service.ts:77 | the failure text is always 'Failed to create user: ' followed by the interpolated `errorMessage`; the error's `message` is never used |
| KeycloakAdmin.TokenBeforePost | auth-microservice/src/keycloak/keycloak-admin.service.ts:46-74 | the user is posted only after a token is obtained, to the admin URL, with that token as bearer credential; a token failure propagates and nothing is posted |
| KeycloakAdmin.CreateUserOutcome | auth-microservice/src/keycloak/keycloak-admin.service.ts:75-78 | an accepted post reports success with 'User created successfully'; a rejected one throws the failure message |
| KeycloakAdmin.KeycloakAdminService.constructor | auth-microservice/src/keycloak/keycloak-admin.service.ts:9-12 | a new service holds no token and no expiration |
| KeycloakAdmin.KeycloakAdminService.GetAdminToken | auth-microservice/src/keycloak/keycloak-admin.service.ts:14-43 | the result, the requests sent and the new token and expiration are those of the token step function |
| KeycloakAdmin.KeycloakAdminService.CreateUser | auth-microservice/src/keycloak/keycloak-admin.service.ts:45-79 | the result, the requests sent and the new cache are those of the create-user step function |
| KeycloakStrategy.Validate | auth-microservice/src/keycloak/keycloak.stratigy.ts:18-28 | `validate(payload)`; stated by `ValidateCopiesClaims` and `ValidateRoles` |
| KeycloakStrategy.StrategyChecksIssuerAndExpiry | auth-microservice/src/keycloak/keycloak.stratigy.ts:8-16 | the strategy takes the bearer token from the header, enforces expiry, and expects the realm URL as issuer and the client id as audience |
| KeycloakStrategy.ValidateCopiesClaims | auth-microservice/src/keycloak/keycloak.stratigy.ts:18-27 | `sub`, `preferred_username`, `email`, `given_name`, `family_name` and `access_token` land unchanged in their request-user fields |
| KeycloakStrategy.ValidateRoles | auth-microservice/src/keycloak/keycloak.stratigy.ts:25 | the roles are the token's realm roles when listed, otherwise empty |
| AuthDtos.ValidRegisterDto | auth-microservice/src/auth/commons/dto/register.dto.ts:4-25 | the decorators of `RegisterDto`; stated by `RegisterDtoFields` and `RegisterNamesMayBeEmpty` |
| AuthDtos.ValidLoginDto | auth-microservice/src/auth/commons/dto/login.dto.ts:4-13 | the decorators of `LoginDto`; stated by `LoginDtoFields`, `MinLengthSubsumesNotEmpty` and `LoginUsernameHasNoMinimum` |
| AuthDtos.RegisterDtoFields | auth-microservice/src/auth/commons/dto/register.dto.ts:4-25 | a registration is valid exactly when user name and password are strings of at least 3 and 6 characters, the email is a non-empty string in email format, and both names are strings |
| AuthDtos.RegisterNamesMayBeEmpty | auth-microservice/src/auth/commons/dto/register.dto.ts:20-24 | empty first and last names are accepted |
| AuthDtos.LoginDtoFields | auth-microservice/src/auth/commons/dto/login.dto.ts:4-13 | a login is valid exactly when the username is a non-empty string and the password a string of at least 6 characters |
| AuthDtos.MinLengthSubsumesNotEmpty | auth-microservice/src/auth/commons/dto/login.dto.ts:10-11 | a minimum length of 6 already implies a non-empty string |
| AuthDtos.LoginUsernameHasNoMinimum | auth-microservice/src/auth/commons/dto/login.dto.ts:5-7 | a one-character username is accepted |
| KafkaAdmin.Pending | auth-microservice/src/kafka/kafka-admin.service.ts:38-50 | the configured topics not yet on the broker; stated by `PendingMembers`, `PendingKeepsOrder` and `NoExistingTopicPending` |
| KafkaAdmin.PendingTopics | auth-microservice/src/kafka/kafka-admin.service.ts:40-50 | the loop builds exactly the pending-topic list |
| KafkaAdmin.PendingMembers | auth-microservice/src/kafka/kafka-admin.service.ts:38-50 | a topic is pending exactly when it is configured and its name is not among the existing names |
| KafkaAdmin.PendingKeepsOrder | auth-microservice/src/kafka/kafka-admin.service.ts:41-43 | the pending list is a subsequence of the configured list, so keeps its order and is no longer |
| KafkaAdmin.NoExistingTopicPending | auth-microservice/src/kafka/kafka-admin.service.ts:42-46 | no existing topic ever appears in the pending list |
| KafkaAdmin.ConfiguredTopics | auth-microservice/src/kafka/kafka-admin.service.ts:13-16 | the configured topics are `user.created` and `user.deleted` with one partition and replication factor one; `user.updated` is not among them |
| KafkaAdmin.OnModuleInit | auth-microservice/src/kafka/kafka-admin.service.ts:30-68 | start-up never throws; a failed connection or metadata fetch is logged; an empty pending list sends no request; otherwise one request for exactly the pending topics, waiting for leaders, with timeout 10000 |
| AuthGuard.Configure | order-microservice/src/order/commons/guard/auth.guard.ts:17-38 | the guard's constructor; stated by `ConfigureRule` and `IssuerAgreesAcrossServices` |
| AuthGuard.GetKey | order-microservice/src/order/commons/guard/auth.guard.ts:40-54 | `getKey`; stated by `GetKeyErrors` |
| AuthGuard.MapVerifyError | order-microservice/src/order/commons/guard/auth.guard.ts:78-91 | the catch block of `canActivate`; stated by `ErrorMapping` |
| AuthGuard.Authenticate | order-microservice/src/order/commons/guard/auth.guard.ts:56-91 | the outcome of `canActivate`; stated by `NoTokenProvided`, `BearerTokenIsFirstWord`, `VerifierAskedForRs256AndIssuer` and `ErrorMapping` |
| AuthGuard.ConfigureRule | order-microservice/src/order/commons/guard/auth.guard.ts:21-30 | construction fails exactly when the server URL or realm is missing or empty; otherwise the issuer is the realm URL and the key-set URL is its certs endpoint |
| AuthGuard.GetKeyErrors | order-microservice/src/order/commons/guard/auth.guard.ts:40-53 | a lookup error and a missing key give their two Unauthorized messages; a found key's public key is handed to the verifier |
| AuthGuard.NoTokenProvided | order-microservice/src/order/commons/guard/auth.guard.ts:60-62 | a missing header, or one without the exact prefix 'Bearer ', is refused with 'No token provided' |
| AuthGuard.BearerTokenIsFirstWord | order-microservice/src/order/commons/guard/auth.guard.ts:64 | the token is the text after 'Bearer ' up to the next space |
| AuthGuard.BearerTokenExamples | order-microservice/src/order/commons/guard/auth.guard.ts:64 | 'Bearer  x' yields the empty token and 'Bearer a b' yields 'a' |
| AuthGuard.VerifierAskedForRs256AndIssuer | order-microservice/src/order/commons/guard/auth.guard.ts:67-74 | the outcome depends only on the verifier's answer for the extracted token with algorithm RS256 and the configured issuer |
| AuthGuard.ErrorMapping | order-microservice/src/order/commons/guard/auth.guard.ts:78-91 | verification errors map in order: expired, other token errors, Unauthorized rethrown as it is, then the generic failure; every outcome is Unauthorized |
| AuthGuard.IssuerAgreesAcrossServices | order-microservice/src/order/commons/guard/auth.guard.ts:29-30 | the guard's issuer equals the passport strategy's issuer, and its key-set URL equals the config service's public-key URL, for the same server and realm |
| AuthGuard.Request.constructor | order-microservice/src/order/commons/guard/auth.guard.ts:57-58 | a request carries its Authorization header and no user yet |
| AuthGuard.CanActivate | order-microservice/src/order/commons/guard/auth.guard.ts:56-92 | on success the decoded payload becomes `request.user` and the answer is true; otherwise the mapped exception is thrown and the request is unchanged |
| RolesGuard.CanActivate | order-microservice/src/order/commons/guard/role.guard.ts:8-31 | `canActivate`; stated by `NoMetadataGrants`, `MissingRolesForbidden`, `GrantedIffAnyRole`, `EmptyRequiredAlwaysForbidden` and `NeverFalse` |
| RolesGuard.SomeIncludedIff | order-microservice/src/order/commons/guard/role.guard.ts:24 | `some`/`includes` holds exactly when some required role is among the user's roles |
| RolesGuard.NoMetadataGrants | order-microservice/src/order/commons/guard/role.guard.ts:9-13 | without roles metadata access is granted whatever the user |
| RolesGuard.MissingRolesForbidden | order-microservice/src/order/commons/guard/role.guard.ts:18-20 | with metadata, a missing user, `realm_access` or roles list is Forbidden with 'User roles not found in token.' |
| RolesGuard.GrantedIffAnyRole | order-microservice/src/order/commons/guard/role.guard.ts:22-30 | access is granted exactly when one required role is held; otherwise Forbidden, listing the required roles joined by ', ' |
| RolesGuard.EmptyRequiredAlwaysForbidden | order-microservice/src/order/commons/guard/role.guard.ts:11-27 | an empty required-roles list always yields Forbidden |
| RolesGuard.NeverFalse | order-microservice/src/order/commons/guard/role.guard.ts:8-31 | the guard answers true or throws, never false |
| OrderDto.ValidCreateOrderDto | order-microservice/src/order/commons/dto/create-order.dto.ts:10-31 | the decorators of `CreateOrderDto`; stated by `CreateOrderDtoFields`, `StatusRequired` and `NoRangeOnPriceOrQuantity` |
| OrderDto.CreateOrderDtoFields | order-microservice/src/order/commons/dto/create-order.dto.ts:10-31 | an order request is valid exactly when the four ids and amounts are non-empty, `totalAmount` is a number of at least 0 and `status` is a string among the five statuses |
| OrderDto.StatusRequired | order-microservice/src/order/commons/dto/create-order.dto.ts:28-30 | a request without a string status is invalid |
| OrderDto.NoRangeOnPriceOrQuantity | order-microservice/src/order/commons/dto/create-order.dto.ts:17-21 | a negative price and a zero quantity are accepted |
| OrderSchema.InvalidOrderPaths | order-microservice/src/order/commons/sechma/order.schema.ts:5-26 | the paths the `Order` schema rejects; stated by `NewOrder`, `NumbersRequired` and `StatusDefault` |
| OrderSchema.NewOrder | order-microservice/src/order/commons/sechma/order.schema.ts:5-26 | building an order fails exactly when some path is invalid and reports those paths; a built order carries the assigned id and exactly the request's five numbers, the named status, and 'pending' when no status was given |
| OrderSchema.StatusNamesRoundTrip | order-microservice/src/order/commons/sechma/order.schema.ts:21-26 | each status name parses back to its status, and exactly the five enum names parse |
| OrderSchema.NumbersRequired | order-microservice/src/order/commons/sechma/order.schema.ts:6-19 | a missing customer id, product id, price, quantity or total is rejected on its path |
| OrderSchema.StatusDefault | order-microservice/src/order/commons/sechma/order.schema.ts:21-26 | an absent status becomes 'pending'; a name outside the enum is rejected |
| OrderSchema.TotalIsUnconstrained | order-microservice/src/order/commons/sechma/order.schema.ts:12-19 | an order whose total is not price times quantity is accepted |
| OrderService.CreatedEventContents | order-microservice/src/order/service/order.service.ts:21-28 | the created event carries id, customer, product, quantity, total and status name on `order.created`, and nothing about the price |
| OrderService.OrderService.constructor | order-microservice/src/order/service/order.service.ts:12-15 | the service starts with no orders and no events |
| OrderService.OrderService.Create | order-microservice/src/order/service/order.service.ts:17-30 | a valid new order is stored under its id and returned, with one `order.created` event appended after the save; a failed save stores and emits nothing |
| OrderService.OrderService.FindById | order-microservice/src/order/service/order.service.ts:32-38 | the order is found exactly when its id is stored, and the found order carries that id; otherwise NotFound with 'Order with ID "<id>" not found'; nothing changes |
| OrderService.OrderService.Delete | order-microservice/src/order/service/order.service.ts:40-49 | an absent id is NotFound with no event; otherwise exactly that id is removed, one `order.deleted` event with the id is appended and the success message returned; other orders are unchanged |

## Left out

- I/O and logging: console and `Logger` output, the HTTP transport, MongoDB and Kafka connections, and `onModuleDestroy`. Their effects appear only as the outcomes passed in.
- Cryptography: JWT signature checking, JWKS fetching and caching, and passport's own checks. They are the abstract verifier and key-lookup answers.
  - The wrapping of `getKey` errors inside the verifier is part of that verifier. `AuthGuard.ErrorMapping` covers each error class it may raise.
- The clock: the date-of-birth cutoff is a parameter standing for today minus 18 years. The token cache uses `now` and the time the grant response arrived.
  - Calendar arithmetic on `Date` and the `createdAt`/`updatedAt` timestamps are not modelled.
- Concurrency: interleaved requests and races between the lookup and the save are not modelled. Each call is atomic.
- UserSchema.SetEmail: lower-cases ASCII letters only, because Unicode case mapping is not modelled.
- UserSchema.Validate: lengths are counted in characters, not UTF-16 code units. Casting non-string or non-date values is not modelled.
- OrderSchema.NewOrder: Mongoose's casting of numeric strings, booleans and dates to Number is not modelled. Any non-number value other than null or undefined fails its cast. Numbers are reals, so NaN and the IEEE rounding of float arithmetic are not modelled.
- OrderService.OrderService.FindById: an id that is not a valid ObjectId makes Mongoose throw a cast error. The model treats it as an unknown id. The same holds for `Delete`.
- OrderService.OrderService.Create: the emitted event is fire-and-forget. A broker failure after the save is not modelled.
- AuthDtos.RegisterDtoFields: the `IsEmail` format check is an abstract predicate passed in.
- The controllers, the Kafka producer and consumers, and the module wiring are not part of this model. They route requests to the modelled operations.
- Login, token refresh, `getUserInfo`, `getAllUsers` and a user-created event do not exist in the services' code, so they are absent.
