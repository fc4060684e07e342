# A verified model of org-aware authentication, translation lookup and the chat store

This project models three independent pieces of a CRM application and proves what
each promises.

- **Org-aware authentication** (`backend/common/views/auth_views.py`). It covers three
  views: login, refresh of a refresh token, and switching organisation.
  - Each view is a pure decision over an abstract store: `Auth.LoginOutcome`,
    `Auth.RefreshOutcome` and `Auth.SwitchOutcome`. The store holds users,
    organisations and an ordered list of membership profiles. Each decision returns a
    response (a token pair or a typed failure with its HTTP status) and the audit
    events it emits.
  - The class `Auth.AuthService` holds the store and an audit log. Its methods
    `Login`, `Refresh` and `SwitchOrg` run the same steps as the source and are proved
    equal to the decisions. `Login` also records `last_login`.
  - Module `AuthProperties` proves what the views promise:
    - default-organisation selection (the first active membership in store order, or
      none);
    - the hard membership check on an explicitly named organisation;
    - revocation on refresh: a refresh token bound to an organisation is refused once
      the membership is inactive, on every retry;
    - switch authorisation;
    - that every token naming an organisation was minted from an active membership
      of its user there.
  - Tokens are JSON Web Tokens (RFC 7519). They are modelled as claim records: the
    user, an optional organisation and an optional role snapshot. The token library's
    decoding is a function parameter that answers claims, `Invalid` or `Expired`.
- **Translation lookup** (`frontend/src/lib/utils/i18n.js`).
  - `TranslationTable` is the effective `translations` constant. Each nested object
    literal is a node, and where the literal defines a key twice the later definition
    wins.
  - `I18n.Translate` is the loop of `t`. It walks the dotted key through the
    requested language's table. On the first undefined piece it restarts in English,
    where a missing piece or an empty string yields the key itself. The method is
    proved equal to the function `I18n.Translation`.
  - The walk is stated for any property lookup `props`. The program's table is
    `TranslationTable.Property`, and the lemmas about concrete keys use it.
  - `I18n.CurrentLanguage` is the stored-language default, and
    `I18n.TranslatedGreeting` is the time-of-day greeting.
- **Chat store** (`frontend/src/lib/stores/index.ts`).
  - `Chats.ChatStore` holds the list of chats. Its methods prepend, update by id (an
    object spread), delete by id (a filter), clear, and reload from storage.
  - Each method is specified by a pure function on the list (`UpdateById`,
    `DeleteById`, `Loaded`). The lemmas beside those functions prove what stays
    unchanged.

Behaviour of the views that the model keeps as the code has it:

- A refresh token whose user is missing answers 401 (`UserNotFound`), and one whose
  user is disabled answers 403 (`UserDisabled`): two distinct failures.
- Invalid and expired tokens get the same 401 answer (`InvalidOrExpiredToken`).
- A `get` that finds two active memberships for one user and organisation raises
  `MultipleObjectsReturned`, which no view catches. The model answers this as
  `MultipleMemberships` with status 500, and logs nothing.
  - So a user with two active memberships in the same organisation can log in
    without naming an organisation.
  - But refreshing the token that login mints, or logging in with that
    organisation named, fails with 500.

## Model

| member | source | states |
|---|---|---|
| Auth.ActiveProfiles | backend/common/views/auth_views.py:63 | the user's active profiles: exactly the profiles of the list that belong to the user and are active, never more than the list holds (order and multiplicity are pinned by `ActiveProfilesDistributes`) |
| Auth.ActiveProfilesDistributes | backend/common/views/auth_views.py:63 | filtering two stretches of the store joined is filtering each and joining, so the active profiles keep their store order and each occurs as often as in the store |
| Auth.Get | backend/common/views/auth_views.py:243-247 | Django's `get`: DoesNotExist exactly when no row matches, MultipleObjectsReturned exactly when two or more do, and a found profile is the only row |
| Auth.FindActiveMembership | backend/common/views/auth_views.py:243-247 | `Profile.objects.get(user, org, is_active=True)`: a profile found is an active membership of that user in that organisation and comes from the store; DoesNotExist exactly when no profile matches |
| Auth.FindActiveMembershipCases | backend/common/views/auth_views.py:242-247 | `get` raises MultipleObjectsReturned exactly when two distinct profiles match; when it finds one, that profile is the only match |
| Auth.ChainedQueryIsMembershipQuery | backend/common/views/auth_views.py:63-72 | the login queryset `filter(user, is_active=True).get(org_id=...)` selects the same rows as the single membership query of the other views |
| Auth.DefaultMembership | backend/common/views/auth_views.py:84-87 | the default membership is absent exactly when the user has no active profile in the store, and otherwise it is an active profile of the user from the store |
| Auth.DefaultMembershipIsFirst | backend/common/views/auth_views.py:84-87 | `profiles.first()` is None exactly when the user has no active profile; otherwise it is the first active profile in store order |
| Auth.Mint | backend/common/views/auth_views.py:89-96 | `for_user_and_org` with its `access_token`: both tokens carry the user, the membership's organisation (none without a membership) and its role and admin flag |
| Auth.ResolveLoginOrg | backend/common/views/auth_views.py:63-96 | the membership a login binds is an active profile of the user from the store, in the named organisation when one is named; refusal happens only when an organisation is named, as NoOrgAccess or MultipleMemberships |
| Auth.Status | backend/common/views/auth_views.py:82-338 | every failure is answered with an HTTP error status; 500 exactly for the uncaught MultipleObjectsReturned, 401 exactly for a token that does not decode or whose user is missing |
| Auth.LoginOutcome | backend/common/views/auth_views.py:49-122 | the login decision answers InvalidLogin exactly when the serializer rejects; it fails only as InvalidLogin, NoOrgAccess or MultipleMemberships; a success is for the accepted user, with both tokens carrying the same claims, bound to the named organisation when one is named, and logs exactly one login success with the bound organisation |
| Auth.RefreshOutcome | backend/common/views/auth_views.py:211-280 | the refresh decision fails only with the six refresh failures; a success needs a present, decodable token of an existing active user, renews both tokens for that user with the token's organisation (none when the token names none), and logs exactly one token refresh with it |
| Auth.SwitchOutcome | backend/common/views/auth_views.py:314-361 | the switch decision fails only as OrgIdRequired, SwitchForbidden or MultipleMemberships; a success binds both tokens to the user, the named organisation and the answered profile's role and admin flag, answers that organisation as current, and logs exactly one switch from the previous organisation |
| Auth.TouchedKeepsConsistent | backend/common/views/auth_views.py:58-60 | writing `last_login` for the accepted user keeps the store consistent |
| Auth.LoginOutcomeByLookup | backend/common/views/auth_views.py:69-115 | login naming an organisation follows the chained query: DoesNotExist answers NoOrgAccess with a login failure under the user's email, MultipleObjectsReturned answers 500 and logs nothing, and the profile found is bound, with its organisation as `current_org` and a login success logged |
| Auth.LoginOutcomeByDefault | backend/common/views/auth_views.py:84-115 | login naming no organisation always succeeds and binds the first of the user's active profiles, or none when there is none, logging a login success with that organisation |
| Auth.AuthService.Login | backend/common/views/auth_views.py:49-122 | the login view step by step: the response and the appended audit events are those of `LoginOutcome`, the accepted user's `last_login` is set before the organisation check, and organisations and profiles are unchanged |
| Auth.AuthService.Refresh | backend/common/views/auth_views.py:211-280 | the refresh view step by step: the response and the appended audit events are those of `RefreshOutcome`, and only the log changes |
| Auth.AuthService.SwitchOrg | backend/common/views/auth_views.py:314-361 | the org-switch view step by step: the response and the appended audit events are those of `SwitchOutcome`, and only the log changes (memberships are never modified) |
| AuthProperties.FindsOnlyMembership | backend/common/views/auth_views.py:243-246 | with a single active membership, `get` returns exactly that profile |
| AuthProperties.LoginRejectedByCredentials | backend/common/views/auth_views.py:119-122 | a request the serializer rejects answers 400 and logs a login failure under the request's email, or "unknown" |
| AuthProperties.LoginRefusedWithoutMembership | backend/common/views/auth_views.py:69-83 | login naming an organisation answers 403 if and only if the user has no active membership there; the refusal mints nothing and logs a login failure with the user's email and "No access to org ..." |
| AuthProperties.LoginBindsRequestedOrg | backend/common/views/auth_views.py:69-115 | login naming an organisation where the user has exactly one active membership succeeds: both tokens are bound to that organisation with that membership's role and admin flag, `current_org` is that organisation's id and name, and a login success is logged |
| AuthProperties.LoginBindsDefaultOrg | backend/common/views/auth_views.py:84-115 | login without an organisation always succeeds; with no active membership the tokens carry no organisation and there is no `current_org`; otherwise they are bound to the first active membership in store order, whose organisation is `current_org` |
| AuthProperties.RefreshNeedsToken | backend/common/views/auth_views.py:217-223 | a missing or empty `refresh` answers 400 and logs nothing, and the answer does not depend on the store or the decoder |
| AuthProperties.RefreshRejectsSubject | backend/common/views/auth_views.py:227-280 | an invalid or expired token answers 401, a token of a missing user 401, a token of a disabled user 403; none mints or logs |
| AuthProperties.RefreshRevokedExactlyWithoutMembership | backend/common/views/auth_views.py:241-257 | refresh answers "membership revoked" (403) if and only if the token names an organisation in which its active user has no active membership; it then logs a token revocation with that reason, and the answer depends on nothing else, so retries repeat it |
| AuthProperties.RefreshRebindsFromStore | backend/common/views/auth_views.py:259-265 | a successful refresh keeps the token's organisation binding; the role comes from the membership now in the store, whatever the old token carried; a token with no organisation refreshes to one with no organisation; a token refresh is logged |
| AuthProperties.SwitchNeedsTarget | backend/common/views/auth_views.py:317-322 | a switch without `org_id` answers 400 and logs nothing |
| AuthProperties.SwitchRefusedWithoutMembership | backend/common/views/auth_views.py:327-339 | a switch answers 403 if and only if the user has no active membership in the target; the refusal logs a permission denial carrying the previous organisation |
| AuthProperties.SwitchBindsTarget | backend/common/views/auth_views.py:341-360 | a switch to an organisation where the user has exactly one active membership binds both tokens to it with that role, answers its id and name, the membership's id, role and admin flag, and logs the switch from the previous organisation |
| AuthProperties.LoginMintsFromActive | backend/common/views/auth_views.py:89-96 | every token a successful login mints that names an organisation comes from an active membership of the user there and carries its role |
| AuthProperties.MintedTokensComeFromActiveMemberships | backend/common/views/auth_views.py:89-96 | the same for all three views: a minted token bound to an organisation always comes from an active membership of its user there |
| AuthProperties.RefreshMintsFromActive | backend/common/views/auth_views.py:259-265 | a token pair a successful refresh mints that names an organisation comes from an active membership of the user there and carries its role |
| AuthProperties.SwitchMintsFromActive | backend/common/views/auth_views.py:341-344 | a token pair a successful switch mints comes from an active membership of the user in the target and carries its role |
| AuthProperties.RefreshKeepsActiveBinding | backend/common/views/auth_views.py:241-265 | a refresh token bound to an organisation where its active user still has an active membership is renewed with the same binding, or meets the 500 of a duplicated membership, and is never refused as revoked |
| AuthProperties.DeactivateLeavesNoActiveMembership | backend/common/views/auth_views.py:184-189 | deactivating a user's memberships in an organisation leaves no active membership of that pair and changes no profile's user or organisation |
| AuthProperties.LoginBindingRevokedByDeactivation | backend/common/views/auth_views.py:241-265 | a refresh token from a login bound to an organisation renews the same binding (or hits the 500 of a duplicated membership) while the membership is active; after the membership is deactivated, refreshing it answers "membership revoked" |
| TranslationTable.LanguageTable | frontend/src/lib/utils/i18n.js:4-559 | `translations[lang]` is defined exactly for 'en' and 'zh', and is then that language's top-level table |
| TranslationTable.NestedTablesHoldText | frontend/src/lib/utils/i18n.js:67-93 | the nested greeting and focus-bar tables hold only non-empty texts and no further objects |
| I18n.Split | frontend/src/lib/utils/i18n.js:590 | `key.split('.')` has at least one piece, and no piece contains a dot |
| I18n.JoinSplit | frontend/src/lib/utils/i18n.js:590 | joining the pieces with dots gives back the key |
| I18n.SplitJoin | frontend/src/lib/utils/i18n.js:590 | splitting dot-free pieces joined with dots gives back the pieces |
| I18n.Translate | frontend/src/lib/utils/i18n.js:588-606 | the loop of `t`, with its nested fallback loop and `break`, returns `Translation(props, key, lang)` |
| I18n.FallbackWalkResolves | frontend/src/lib/utils/i18n.js:597-599 | the fallback loop, which sets `result` to `result[k2]` or else the key, ends with the value at the whole path when that is defined and not empty, and with the key otherwise |
| I18n.UnknownLanguageReadsEnglish | frontend/src/lib/utils/i18n.js:591 | a language without a table translates every key the way English does |
| I18n.TranslationFollowsPath | frontend/src/lib/utils/i18n.js:593-603 | when every piece of the key is defined in the language's table, `t` returns the value at the end of that walk |
| I18n.MissingPieceFallsBackToEnglish | frontend/src/lib/utils/i18n.js:594-600 | when some piece is undefined in the language's table, `t` returns the English resolution of the whole path, and the key itself when the path is undefined in English too |
| I18n.TranslatesNestedChineseKey | frontend/src/lib/utils/i18n.js:365-370 | `t('focusBar.overdueTasks', 'zh')` is '逾期任务' |
| I18n.TranslatesDuplicatedTasks | frontend/src/lib/utils/i18n.js:235 | `t('tasks', 'en')` is 'Tasks', the last of the three definitions (lines 102, 179, 235) |
| I18n.TranslatesDuplicatedCancel | frontend/src/lib/utils/i18n.js:154 | `t('cancel', 'en')` is 'Cancel', not the 'cancel' of line 25 |
| I18n.EnglishFocusBarHasNoNone | frontend/src/lib/utils/i18n.js:88-93 | the English focus bar table defines no `none` text |
| I18n.ChineseFocusBarHasNoNone | frontend/src/lib/utils/i18n.js:365-370 | the Chinese focus bar table defines no `none` text |
| I18n.TranslatesMissingKey | frontend/src/lib/utils/i18n.js:597-599 | `t('focusBar.none', 'zh')` is the key 'focusBar.none' |
| I18n.TranslatesUnknownLanguage | frontend/src/lib/utils/i18n.js:591 | `t('login', 'fr')` is the English 'Log in' |
| I18n.CurrentLanguage | frontend/src/lib/utils/i18n.js:565-570 | the current language is never empty; it is the stored value exactly when that is stored and non-empty, and 'en' otherwise |
| I18n.TranslatedGreeting | frontend/src/lib/utils/i18n.js:612-622 | the greeting throws a TypeError whenever the current language has no table (it has no English fallback), and any value it yields is what `t('greeting.<part of the day>')` returns in the current language |
| I18n.GreetingInEnglish | frontend/src/lib/utils/i18n.js:612-622 | with no stored language: before 12 'Good morning', 12 to 16 'Good afternoon', 17 on 'Good evening' |
| I18n.GreetingInChinese | frontend/src/lib/utils/i18n.js:612-622 | with Chinese stored, the Chinese greetings by the same hours |
| I18n.GreetingWithoutTableThrows | frontend/src/lib/utils/i18n.js:616-622 | a stored language without a table makes the greeting throw a TypeError, because it has no English fallback |
| Chats.UpdateById | frontend/src/lib/stores/index.ts:46-49 | `updateChat`'s map keeps the length and order; each chat with the id becomes its merge with the update, and every other chat is unchanged |
| Chats.DeleteById | frontend/src/lib/stores/index.ts:50 | `deleteChat`'s filter never lengthens the list; a chat is in the result exactly when it is in the list and has another id |
| Chats.Loaded | frontend/src/lib/stores/index.ts:52-62 | loading replaces the list with the parsed one when a non-empty text is stored and parses, and keeps the current list otherwise |
| Chats.MergeOverridesGivenFields | frontend/src/lib/stores/index.ts:48 | `{ ...chat, ...updates }` takes each field the update gives from the update and every other field from the chat |
| Chats.MergeNoChange | frontend/src/lib/stores/index.ts:48 | an update that gives no field leaves the chat unchanged |
| Chats.MergeIdempotent | frontend/src/lib/stores/index.ts:48 | applying the same update twice equals applying it once |
| Chats.MergeCombine | frontend/src/lib/stores/index.ts:48 | two updates in a row equal the single update that combines them, the later one winning |
| Chats.UpdateUnknownIdUnchanged | frontend/src/lib/stores/index.ts:46-49 | updating an id that no chat has leaves the list unchanged |
| Chats.DeleteUnknownIdUnchanged | frontend/src/lib/stores/index.ts:50 | deleting an id that no chat has leaves the list unchanged |
| Chats.DeleteDistributes | frontend/src/lib/stores/index.ts:50 | deleting from two joined lists is deleting from each and joining, so the survivors keep their relative order |
| Chats.NoSurvivorHasId | frontend/src/lib/stores/index.ts:50 | no chat with the deleted id remains |
| Chats.DeleteIdempotent | frontend/src/lib/stores/index.ts:50 | deleting twice equals deleting once |
| Chats.DeleteAfterAdd | frontend/src/lib/stores/index.ts:45-50 | deleting the id of the chat just added gives the old list with that id deleted |
| Chats.DeleteAfterUpdate | frontend/src/lib/stores/index.ts:46-50 | after an update that keeps the id, deleting that id gives what deleting it without the update gives |
| Chats.LoadIdempotent | frontend/src/lib/stores/index.ts:52-62 | loading twice from the same storage equals loading once |
| Chats.ChatStore.constructor | frontend/src/lib/stores/index.ts:27-41 | the store starts with the saved list when one is stored and parses, and with the empty list otherwise |
| Chats.ChatStore.AddChat | frontend/src/lib/stores/index.ts:45 | the new chat goes first, the length grows by one, and the old chats follow in their old order |
| Chats.ChatStore.UpdateChat | frontend/src/lib/stores/index.ts:46-49 | the new list is `UpdateById` of the old one |
| Chats.ChatStore.DeleteChat | frontend/src/lib/stores/index.ts:50 | the new list is `DeleteById` of the old one |
| Chats.ChatStore.ClearChats | frontend/src/lib/stores/index.ts:51 | the list becomes empty |
| Chats.ChatStore.LoadFromLocalStorage | frontend/src/lib/stores/index.ts:52-63 | the new list is what `Loaded` gives for the old list and the storage |

## Left out

- JWT encoding, signing and expiry checking (`OrgAwareRefreshToken`, the library's `RefreshToken`). Claims are records and decoding is a parameter, because the token library is not part of this model.
- Password checking in `LoginSerializer`. Its verdict (a user, or a rejection with its error text) is a parameter; the serializer is not part of this model.
- `RegisterView` and `MeView`: thin wrappers over serializers that are not part of this model.
- The HTTP response bodies, the `user` entry from `UserDetailSerializer`, the schema decorators and the audit sink's internals. Only the status or failure kind, the token claims, `current_org` and `profile`, and which audit event is emitted are modelled.
- Login's catch-all `email` default: a request whose `email` field is present but null logs `None` in the source. The model treats null and missing alike, as "unknown".
- A token without a `user_id` claim raises a KeyError (a 500). Claims always carry a user here.
- An `org_id` that is not a valid UUID makes the query raise; it is not modelled. Python falsiness of an `org_id` is modelled for None and the empty string only, not for 0 or false.
- Store order is what `first()` uses. It stands for the database's default ordering of profiles.
- Transaction rollback: the `last_login` write is kept on the 403 and 500 paths, as the source writes it before the organisation check.
- Concurrent requests and stale reads are outside this sequential model.
- Property lookups on a string or on a table object in `t` (indices such as `'0'`, `length`, inherited members such as `toString`, `constructor`, `__proto__`) are modelled as undefined. For example, JavaScript's `t('focusBar.none.0')`, which reads a character of the key, is not modelled.
- `t`'s default argument `lang = getCurrentLanguage()`: `Translation` takes the language, which is `CurrentLanguage(stored)` for the default.
- `setCurrentLanguage`, `saveToLocalStorage`, the subscription that saves on every change, and `localStorage` itself. The stored text is a parameter.
- `JSON.parse` is a parameter that answers a list of chats or a failure. Parsed JSON that is not a list of chats is not modelled.
- `new Date().getHours()`: the hour is a parameter.
- Fields set to `undefined` inside a `Partial<Chat>` are not modelled: a field is either given or absent.
- Timestamps are integers; the source's `number` may be a float.
- The Svelte `writable` wiring, the settings and model stores, and their float constants.
