# Pets and tutors front end: session, refresh coordination, input rules, lists

A Dafny model of the client-side core of an Angular application that lists
pets and their tutors ("tutores") against a REST back end. It covers:

- **Session** (`auth_service.dfy`, module `AuthSession`). `AuthService` keeps
  the access token, the refresh token, the user and the `isAuthenticated`
  flag. It writes them to `localStorage` under the keys `token`,
  `refreshToken` and `currentUser`, reads them back at start-up and on a
  `storage` event from another tab, and performs login, refresh and logout.
  Storage is a value (`Store`), with `Unavailable` standing for a context
  without `window`.
- **Request interceptor and refresh coordinator** (`auth_interceptor.dfy`,
  module `AuthInterceptor`). The interceptor attaches `Authorization: Bearer
  <token>` to outgoing requests. It routes a 401 to `handle401Error`, whose
  module-level `isRefreshing` flag and `refreshTokenSubject` turn many 401s
  into one refresh call. The asynchronous behaviour is a transition system
  (`Sys`, `Event`, `Step`, `Run`) whose events are a request failing, the
  refresh call answering, a replayed request answering, and a login or
  logout happening elsewhere. `Step`, `Run` and the class
  `RefreshCoordinator` are the corrected coordinator: a failed replay passes
  its error on and touches no state (first row of "## Findings").
  `StepAsWritten` and `RunAsWritten` handle that event as the source does.
  The two agree on every event sequence without a failed replay
  (`RunAgreesAsWritten`), so the results about many 401s hold of the code
  as written (`ConcurrentUnauthorizedAsWritten`). The class holds the state
  in fields and is proved to move it as `Step` does.
- **Notifications** (`notifications.dfy`). A counter numbers notifications,
  and a list holds them in the order shown. Each notification carries a
  removal timer when its duration is positive.
- **Input directives** (`dom_input.dfy`, `phone_mask.dfy`,
  `integer_only.dfy`). The phone mask keeps a field in the shape
  `(dd) ddddd-dddd` while typing, pasting and leaving the field. The
  integer filter keeps digits only, without leading zeros. Both share one
  key filter.
- **Phone pipe** (`phone_pipe.dfy`). It displays a stored number as
  `(dd) dddd-dddd` or `(dd) ddddd-dddd`.
- **Lists** (`pagination.dfy`, `pet_list.dfy`, `tutor_list.dfy`). The
  "load more" list that the pet and tutor screens share is a pure value
  with one function per transition. Each component is a class whose
  handlers are proved to move its signals as those functions do. The tutor
  screen adds:
  - the create and edit forms, with their validation and photo checks;
  - the detail panel;
  - linking and unlinking pets.

JavaScript behaviour the code relies on is written out:
- truthiness of `string | null` (`Common.Truthy`);
- `replace(/\D/g, '')` with `\d` as the ASCII digits (`Common.Digits`);
- `substring` clamping its bounds (`Common.Substring`);
- the white space `trim` removes (`Common.Trim`);
- `toLowerCase` on ASCII keys (`Common.ToLowerAscii`).

Requests the components send are returned as values (`PageRequest`,
`SaveCall`, `LinkCall`, `RefreshRequest`). Their answers arrive as
parameters of the `On…` methods.

In these places the model follows the code as written:
- `handleAuthResponse` sets `isAuthenticated` to `true` unconditionally
  (src/app/core/services/auth.service.ts:120), while start-up and the
  storage listener use `!!token` (lines 15-18 and 182-191). After an empty
  access token the two disagree (`AuthSession.SignedInConsistent`).
- When a refresh fails, only the request that started it fails
  (src/app/core/interceptors/auth.interceptor.ts:84-88). The subject stays
  `null`, so the requests waiting behind `filter(token => token !== null)`
  (line 93) are neither replayed nor failed
  (`AuthInterceptor.ConcurrentUnauthorizedRejected`).
- After a successful refresh the subject publishes the token (line 79)
  before `switchMap` sends the initiating request's replay (line 82). So the
  waiters are replayed first, in arrival order, and that request last.
- The list screens read the page total from `res.pageCount`
  (src/app/features/pets/pet-list.component.ts:103,
  src/app/features/tutores/tutor-list.component.ts:147). The mocked answers
  in src/app/features/pets/pet.service.spec.ts:36 and
  src/app/features/tutores/tutor.service.spec.ts:37 carry `pageCount`, but
  `PetListResponse` and `TutorListResponse` declare `totalPages`
  (src/app/shared/models/pet.model.ts:13,
  src/app/shared/models/tutor.model.ts:12). `PageResponse` carries
  `pageCount`.
- The tutor screen reads `foto?.url` and `pets`
  (tutor-list.component.ts:312 and 188). The `Tutor` interface
  (src/app/shared/models/tutor.model.ts:1-7) declares neither.
  `TutorList.Tutor` has them as optional fields.

## Model

| member | source | states |
|---|---|---|
| Common.Digits | src/app/shared/directives/phone-mask.directive.ts:13 | `replace(/\D/g, '')` yields only digits, is never longer than its input, and leaves a digit string unchanged |
| Common.DigitsAppend | src/app/shared/pipes/phone.pipe.ts:12 | the digits of a concatenation are the digits of each part, concatenated |
| Common.Substring | src/app/shared/directives/phone-mask.directive.ts:17 | `substring(start, end)` clamps both bounds to the length and returns the characters from `start` |
| Common.TrimStart | src/app/features/tutores/tutor-list.component.ts:331 | removes exactly the leading run of JavaScript white space; the result is a suffix of the input |
| Common.TrimEnd | src/app/features/tutores/tutor-list.component.ts:331 | removes exactly the trailing run of white space; the result is a prefix of the input |
| Common.TrimEmptyIffBlank | src/app/features/tutores/tutor-list.component.ts:331 | `!s.trim()` holds exactly when every character of `s` is white space |
| Common.TrimTrims | src/app/features/tutores/tutor-list.component.ts:338-342 | a trimmed string has no white space at either end, and trimming it again changes nothing |
| Common.ToLowerAscii | src/app/shared/directives/phone-mask.directive.ts:70 | lowercases the ASCII letters and keeps every other character, which is all the `a`/`c`/`v`/`x` test can observe; the result has the key's length |
| AuthSession.ParseUser | src/app/core/services/auth.service.ts:164-174 | a parsed user is exactly the one whose JSON is the stored text; other text gives `null` |
| AuthSession.ParseUserJson | src/app/core/services/auth.service.ts:129 | reading back the JSON written for a user gives that user |
| AuthSession.Restore | src/app/core/services/auth.service.ts:15-18 | the session read from storage has `isAuthenticated == !!token`; without `window` it is signed out |
| AuthSession.SignedInConsistent | src/app/core/services/auth.service.ts:117-120 | after `handleAuthResponse` the flag agrees with `!!token` exactly when the access token is not empty |
| AuthSession.RestoreAfterPersist | src/app/core/services/auth.service.ts:126-130 | reloading after a response was persisted gives back its tokens and the placeholder user, with the flag `!!token` |
| AuthSession.RestoreAfterErase | src/app/core/services/auth.service.ts:84-88 | reloading after logout removed the keys gives the signed-out session |
| AuthSession.EraseIdempotent | src/app/core/services/auth.service.ts:77-89 | logging out twice is logging out once, and logging out erases whatever a login stored |
| AuthSession.AuthService.constructor | src/app/core/services/auth.service.ts:15-18 | the signals start from storage |
| AuthSession.AuthService.HandleAuthResponse | src/app/core/services/auth.service.ts:108-131 | installs both tokens, the placeholder user and `isAuthenticated = true`; writes the three keys, and the getters then return what storage holds |
| AuthSession.AuthService.Logout | src/app/core/services/auth.service.ts:77-89 | clears the four signals and removes the three keys |
| AuthSession.AuthService.Login | src/app/core/services/auth.service.ts:34-49 | a successful answer is installed and persisted; an error is passed on and changes nothing |
| AuthSession.AuthService.StartRefresh | src/app/core/services/auth.service.ts:54-63 | no call is made exactly when the refresh token is not truthy; otherwise the body carries that token |
| AuthSession.AuthService.CompleteRefresh | src/app/core/services/auth.service.ts:64-71 | a successful answer is installed and persisted; an error logs out, erases storage and is passed on |
| AuthSession.AuthService.RefreshToken | src/app/core/services/auth.service.ts:54-72 | without a truthy refresh token it fails with "No refresh token available", issues no call and changes nothing; otherwise it behaves as `CompleteRefresh` |
| AuthSession.AuthService.OnStorageChange | src/app/core/services/auth.service.ts:179-193 | the listener re-reads all three keys and sets `isAuthenticated = !!token` |
| AuthSession.TwoTabLogout | src/app/core/services/auth.service.ts:182-191 | a logout in one tab signs out a second tab once its storage event is processed |
| AuthSession.TwoTabLogin | src/app/core/services/auth.service.ts:182-191 | a login with a non-empty token in one tab signs a second tab in with the same tokens once its storage event is processed |
| AuthInterceptor.AddToken | src/app/core/interceptors/auth.interceptor.ts:50-56 | the clone keeps URL, body and other headers and sets `Authorization: Bearer <token>` |
| AuthInterceptor.AddTokenOverrides | src/app/core/interceptors/auth.interceptor.ts:50-56 | a replay of a request that already had a token carries only the new one |
| AuthInterceptor.Outgoing | src/app/core/interceptors/auth.interceptor.ts:26-32 | the header is added exactly when the token is truthy; otherwise the request goes unchanged |
| AuthInterceptor.ReplayAll | src/app/core/interceptors/auth.interceptor.ts:92-98 | every waiter is replayed, in order, with the published token |
| AuthInterceptor.Handle401 | src/app/core/interceptors/auth.interceptor.ts:61-100 | a refresh is issued exactly when idle with a truthy refresh token; while refreshing the request only waits; idle without a refresh token logs out and fails with "Sessão expirada" |
| AuthInterceptor.OnRequestError | src/app/core/interceptors/auth.interceptor.ts:35-43 | any error other than a 401 is re-raised unchanged and changes nothing |
| AuthInterceptor.OnRefreshSucceeded | src/app/core/interceptors/auth.interceptor.ts:76-83 | the session is installed, the flag drops, the token is published, every waiter is replayed in order and then the initiating request, and the waiters are released |
| AuthInterceptor.OnRefreshFailed | src/app/core/interceptors/auth.interceptor.ts:84-88 | the request fails with the refresh error, the session is signed out and storage erased, and the waiters stay |
| AuthInterceptor.OnReplaySucceeded | src/app/core/interceptors/auth.interceptor.ts:82 | a replay's answer is delivered and nothing else changes |
| AuthInterceptor.OnReplayFailedAsWritten | src/app/core/interceptors/auth.interceptor.ts:84-88 | as written, a failed replay drops the flag and logs out |
| AuthInterceptor.OnReplayFailed | src/app/core/interceptors/auth.interceptor.ts:82 | corrected: a failed replay's error is passed on and nothing else changes |
| AuthInterceptor.StepKeepsInv | src/app/core/interceptors/auth.interceptor.ts:62-64 | every event keeps the coordinator invariant, and a refresh is only issued when none is outstanding |
| AuthInterceptor.AtMostOneRefresh | src/app/core/interceptors/auth.interceptor.ts:13 | from any state that meets the invariant, no sequence of events puts two refresh calls in flight |
| AuthInterceptor.ReplayErrorNotRecovered | src/app/core/interceptors/auth.interceptor.ts:82 | a replay that fails, 401 included, is not re-entered into recovery and issues no refresh |
| AuthInterceptor.QueuedWhileRefreshing | src/app/core/interceptors/auth.interceptor.ts:90-99 | while a refresh is in flight, N 401s only join the waiters, in arrival order |
| AuthInterceptor.ConcurrentUnauthorized | src/app/core/interceptors/auth.interceptor.ts:61-100 | N 401s arriving while idle issue exactly one refresh call; the other N-1 wait in order and the session is untouched |
| AuthInterceptor.ConcurrentUnauthorizedRecovered | src/app/core/interceptors/auth.interceptor.ts:76-83 | when that refresh succeeds, all N requests and every earlier waiter are replayed once with the new token |
| AuthInterceptor.ConcurrentUnauthorizedRejected | src/app/core/interceptors/auth.interceptor.ts:84-88 | when that refresh fails, the first request fails, the session and storage are cleared, and the other N-1 stay waiting |
| AuthInterceptor.AsWrittenOverlappingRefreshes | src/app/core/interceptors/auth.interceptor.ts:84-88 | with the replay errors caught as written, a six-event trace puts two refresh calls in flight |
| AuthInterceptor.RefreshCoordinator.constructor | src/app/core/interceptors/auth.interceptor.ts:13-14 | starts idle with a `null` subject |
| AuthInterceptor.RefreshCoordinator.Intercept | src/app/core/interceptors/auth.interceptor.ts:26-32 | the request sent is `Outgoing` of the current token |
| AuthInterceptor.RefreshCoordinator.OnError | src/app/core/interceptors/auth.interceptor.ts:35-43 | keeps the invariant and moves the session, storage and coordinator as `OnRequestError` |
| AuthInterceptor.RefreshCoordinator.OnRefreshAnswer | src/app/core/interceptors/auth.interceptor.ts:76-83 | keeps the invariant, moves state as `OnRefreshSucceeded`, and returns the replays in order |
| AuthInterceptor.RefreshCoordinator.OnRefreshError | src/app/core/interceptors/auth.interceptor.ts:84-88 | keeps the invariant, moves state as `OnRefreshFailed`, and returns the refresh error |
| AuthInterceptor.RefreshCoordinator.OnReplayAnswer | src/app/core/interceptors/auth.interceptor.ts:82 | corrected: delivers or fails the replay as `OnReplaySucceeded` / `OnReplayFailed`, leaving the flag and the session alone |
| AuthInterceptor.RunAgreesAsWritten | src/app/core/interceptors/auth.interceptor.ts:61-100 | on every event sequence without a failed replay, the source's coordinator and the corrected one reach the same state and replies |
| AuthInterceptor.ConcurrentUnauthorizedAsWritten | src/app/core/interceptors/auth.interceptor.ts:61-100 | N 401s, followed or not by the refresh answer or its failure, run the same in the source's coordinator as in the corrected one |
| Notifications.WithoutId | src/app/shared/services/notification.service.ts:46-50 | keeps exactly the notifications with another id, never grows, and leaves a list without that id unchanged |
| Notifications.WithoutIdKeepsOrder | src/app/shared/services/notification.service.ts:46-50 | removing by id keeps the survivors in increasing id order |
| Notifications.WithoutPresentId | src/app/shared/services/notification.service.ts:46-50 | with increasing ids, removing a present id takes out exactly that one entry |
| Notifications.NotificationService.constructor | src/app/shared/services/notification.service.ts:14-15 | counter 0, empty list |
| Notifications.NotificationService.Show | src/app/shared/services/notification.service.ts:17-28 | pre-increments the counter, appends the notification with a fresh id larger than every earlier one, and starts a timer exactly when the duration is positive |
| Notifications.NotificationService.ShowSuccess | src/app/shared/services/notification.service.ts:30-32 | as `Show` with the kind `success` and a default duration of 5000 |
| Notifications.NotificationService.ShowError | src/app/shared/services/notification.service.ts:34-36 | as `Show` with the kind `error` and a default duration of 5000 |
| Notifications.NotificationService.ShowWarning | src/app/shared/services/notification.service.ts:38-40 | as `Show` with the kind `warning` and a default duration of 5000 |
| Notifications.NotificationService.ShowInfo | src/app/shared/services/notification.service.ts:42-44 | as `Show` with the kind `info` and a default duration of 5000 |
| Notifications.NotificationService.Remove | src/app/shared/services/notification.service.ts:46-50 | the list becomes `WithoutId` of the old one; the counter is unchanged |
| Notifications.ShowThenExpire | src/app/shared/services/notification.service.ts:23-27 | a notification shown and then removed by its timer leaves the list as it was |
| DomInput.FilterKey | src/app/shared/directives/phone-mask.directive.ts:60-78 | `preventDefault` is called exactly when the key is neither a listed editing key, a Ctrl/Meta clipboard shortcut, nor a single digit |
| DomInput.ClipboardShortcutKeys | src/app/shared/directives/phone-mask.directive.ts:70 | the shortcut check accepts exactly `a`, `c`, `v`, `x` in either case |
| DomInput.IntegerKeysExtendPhoneKeys | src/app/shared/directives/integer-only.directive.ts:30 | the integer filter accepts every key the phone mask accepts, plus the up and down arrows |
| PhoneMask.InputDigits | src/app/shared/directives/phone-mask.directive.ts:13-18 | digits only, at most 11 |
| PhoneMask.MaskShape | src/app/shared/directives/phone-mask.directive.ts:21-30 | the mask has four shapes by digit count: empty, `(d…`, `(dd) d…`, `(dd) ddddd-d…` |
| PhoneMask.MaskKeepsDigits | src/app/shared/directives/phone-mask.directive.ts:21-30 | the mask of up to 11 digits holds exactly those digits in order |
| PhoneMask.MaskedInputDigits | src/app/shared/directives/phone-mask.directive.ts:11-36 | the field after input holds the first 11 typed digits and at most 15 characters |
| PhoneMask.MaskIdempotent | src/app/shared/directives/phone-mask.directive.ts:35 | masking a masked value gives it back |
| PhoneMask.PasteLikeInput | src/app/shared/directives/phone-mask.directive.ts:83-98 | pasting text leaves the same value as typing it |
| PhoneMask.BlurKeepsDigits | src/app/shared/directives/phone-mask.directive.ts:39-57 | leaving the field never adds or loses a digit |
| PhoneMask.BlurOfMasked | src/app/shared/directives/phone-mask.directive.ts:44-56 | a masked incomplete number keeps its shape on blur exactly when it has two to seven digits |
| PhoneMask.InputNeverSettles | src/app/shared/directives/phone-mask.directive.ts:32-35 | with the dispatch `onInput` makes on every run, the runs set off by one `input` event do not end within any bound, although from the second run on the field no longer changes |
| PhoneMask.InputSettles | src/app/shared/directives/phone-mask.directive.ts:32-35 | when the handler dispatches only after changing the field, each event ends within two runs with the masked value |
| PhoneMask.OnInput | src/app/shared/directives/phone-mask.directive.ts:11-36 | the field becomes `Mask(InputDigits(value))` and a new `input` event is always dispatched: one run of `InputRun(AlwaysDispatch, …)` |
| PhoneMask.OnBlur | src/app/shared/directives/phone-mask.directive.ts:39-57 | an incomplete number of 1-9 digits is rewritten without the dash; any other value is kept |
| PhoneMask.OnKeyDown | src/app/shared/directives/phone-mask.directive.ts:60-78 | blocks exactly the keys `FilterKey` blocks with the seven phone editing keys |
| PhoneMask.OnPaste | src/app/shared/directives/phone-mask.directive.ts:81-102 | the field becomes the mask of the first 11 pasted digits, and missing clipboard data counts as `''` |
| IntegerOnly.StripLeadingZeros | src/app/shared/directives/integer-only.directive.ts:18 | `replace(/^0+/, '')` removes exactly the leading zeros and keeps the rest |
| IntegerOnly.IntegerValueForm | src/app/shared/directives/integer-only.directive.ts:11-22 | the field keeps only digits, in order, after dropping leading zeros, and starts with `0` only when it is `0` |
| IntegerOnly.IntegerValueNumber | src/app/shared/directives/integer-only.directive.ts:14-19 | the number spelled is kept; the field empties exactly when there are no digits, or two or more that are all zeros |
| IntegerOnly.IntegerValueIdempotent | src/app/shared/directives/integer-only.directive.ts:11-22 | applying the rule to its output changes nothing |
| IntegerOnly.OnInput | src/app/shared/directives/integer-only.directive.ts:11-22 | the field becomes `IntegerValue` of its value |
| IntegerOnly.OnKeyDown | src/app/shared/directives/integer-only.directive.ts:25-43 | blocks exactly the keys `FilterKey` blocks with the nine integer editing keys |
| IntegerOnly.OnPaste | src/app/shared/directives/integer-only.directive.ts:46-55 | the field becomes every pasted digit, with no length limit |
| IntegerOnly.PasteThenInput | src/app/shared/directives/integer-only.directive.ts:54 | the `input` event dispatched after a paste leaves what typing the text would, with the same number |
| IntegerOnly.PasteEvent | src/app/shared/directives/integer-only.directive.ts:46-55 | a paste followed by its dispatched `input` leaves `IntegerValue` of the pasted text |
| PhonePipe.FindDigitRun | src/app/shared/pipes/phone.pipe.ts:17 | finds the leftmost run of the given number of digits, or reports that there is none |
| PhonePipe.TransformCases | src/app/shared/pipes/phone.pipe.ts:8-22 | a falsy value gives `''`; fewer than 10 digits are shown bare; 10 give `(dd) dddd-dddd`; more give `(dd) ddddd-dddd` followed by the remaining digits |
| PhonePipe.TransformKeepsDigits | src/app/shared/pipes/phone.pipe.ts:12-21 | the display uses only digits and `(`, `)`, space and `-`, and its digits are the stored ones in order |
| PhonePipe.TransformIdempotent | src/app/shared/pipes/phone.pipe.ts:8-22 | formatting a displayed number gives the same display |
| PhonePipe.TransformAgreesWithMask | src/app/shared/pipes/phone.pipe.ts:18-21 | for 11 digits the pipe shows what the phone mask writes |
| Pagination.LoadingGuard | src/app/features/pets/pet-list.component.ts:86-88 | while a load is in flight, loading, loading more and searching send nothing |
| Pagination.LoadRoundTrip | src/app/features/pets/pet-list.component.ts:86-127 | a load asks for the current page and filter; success appends the page and records the total; failure leaves the list as before the load |
| Pagination.LoadMoreAdvances | src/app/features/pets/pet-list.component.ts:129-139 | a request is sent exactly when `hasMore` holds and nothing is loading; it asks for the next page, which is below the reported total |
| Pagination.SearchShowsFirstPage | src/app/features/pets/pet-list.component.ts:77-84 | a search for a term that is not blank shows just the first page of results |
| Pagination.BlankSearchAppendsFirstPage | src/app/features/pets/pet-list.component.ts:80-83 | a blank search keeps the shown items and appends the first page after them |
| Pagination.SearchDuringLoadIsDropped | src/app/features/pets/pet-list.component.ts:77-88 | a search during a load sends nothing, and the earlier answer lands in the restarted list |
| Pagination.LoadsAppend | src/app/features/pets/pet-list.component.ts:101-104 | successive loads only add items at the end, as many as the pages held |
| PetList.PetListComponent.constructor | src/app/features/pets/pet-list.component.ts:21-32 | no pets, not loading, page 0, no page total, no filter, no selection |
| PetList.PetListComponent.LoadPets | src/app/features/pets/pet-list.component.ts:86-127 | moves the signals and sends the request as `Load` |
| PetList.PetListComponent.OnLoadSucceeded | src/app/features/pets/pet-list.component.ts:101-104 | as `LoadSucceeded` |
| PetList.PetListComponent.OnLoadFailed | src/app/features/pets/pet-list.component.ts:108-110 | as `LoadFailed` |
| PetList.PetListComponent.LoadMore | src/app/features/pets/pet-list.component.ts:129-139 | as `Pagination.LoadMore` |
| PetList.PetListComponent.OnSearchImmediate | src/app/features/pets/pet-list.component.ts:77-84 | as `SearchImmediate` with the search box's value |
| PetList.PetListComponent.OnSearchChange | src/app/features/pets/pet-list.component.ts:72-75 | as `SearchChange` |
| PetList.PetListComponent.OnSearchDebounced | src/app/features/pets/pet-list.component.ts:42-50 | as `SearchDebounced` |
| PetList.PetListComponent.OpenDetails | src/app/features/pets/pet-list.component.ts:141-145 | selects the pet and changes nothing else |
| PetList.PetListComponent.CloseDetails | src/app/features/pets/pet-list.component.ts:147-150 | clears the selection and changes nothing else |
| TutorList.PhotoAlertAccepts | src/app/features/tutores/tutor-list.component.ts:251-260 | a file is read exactly when its type starts with `image/` and it has at most 5 MiB; a file failing both checks gets the "not an image" alert |
| TutorList.PhotoRoundTrip | src/app/features/tutores/tutor-list.component.ts:263-280 | removing a photo undoes attaching one and keeps the typed fields |
| TutorList.FieldValidation | src/app/features/tutores/tutor-list.component.ts:331 | a field passes exactly when it is not blank, and is sent without white space at either end |
| TutorList.PayloadValidation | src/app/features/tutores/tutor-list.component.ts:331-342 | a form is refused exactly when one of its three fields is blank; an accepted form sends three non-empty trimmed fields |
| TutorList.PayloadStable | src/app/features/tutores/tutor-list.component.ts:338-342 | saving a form that already holds the trimmed fields sends the same payload |
| TutorList.EditUntouchedSavesTutor | src/app/features/tutores/tutor-list.component.ts:305-315 | saving an untouched edit form updates that tutor with its own trimmed fields and no photo |
| TutorList.LinkGuard | src/app/features/tutores/tutor-list.component.ts:449-452 | a link is sent exactly when a tutor is selected and both ids are non-zero, with those ids |
| TutorList.ReloadAfterSave | src/app/features/tutores/tutor-list.component.ts:367-369 | after a save the list shows exactly the first page of the reload; during a load the reload is not sent |
| TutorList.TutorListComponent.constructor | src/app/features/tutores/tutor-list.component.ts:25-70 | initial listing, closed modals, blank forms |
| TutorList.TutorListComponent.LoadTutores | src/app/features/tutores/tutor-list.component.ts:130-170 | as `Load`; the panels are unchanged |
| TutorList.TutorListComponent.OnLoadSucceeded | src/app/features/tutores/tutor-list.component.ts:145-148 | as `LoadSucceeded` |
| TutorList.TutorListComponent.OnLoadFailed | src/app/features/tutores/tutor-list.component.ts:152-154 | as `LoadFailed` |
| TutorList.TutorListComponent.LoadMore | src/app/features/tutores/tutor-list.component.ts:172-179 | as `Pagination.LoadMore` |
| TutorList.TutorListComponent.OnSearchImmediate | src/app/features/tutores/tutor-list.component.ts:121-128 | as `SearchImmediate` |
| TutorList.TutorListComponent.OnSearchChange | src/app/features/tutores/tutor-list.component.ts:116-119 | as `SearchChange` |
| TutorList.TutorListComponent.OnSearchDebounced | src/app/features/tutores/tutor-list.component.ts:86-94 | as `SearchDebounced` |
| TutorList.TutorListComponent.OpenDetails | src/app/features/tutores/tutor-list.component.ts:181-182 | asks for the tutor's details by id |
| TutorList.TutorListComponent.OnDetailsLoaded | src/app/features/tutores/tutor-list.component.ts:183-193 | selects the answer and shows its pets when it has some, otherwise none; every other signal is unchanged |
| TutorList.TutorListComponent.OnDetailsFailed | src/app/features/tutores/tutor-list.component.ts:194-198 | falls back to the list entry with no pets; every other signal is unchanged |
| TutorList.TutorListComponent.CloseDetails | src/app/features/tutores/tutor-list.component.ts:202-205 | clears the selection and the pets panel; every other signal is unchanged |
| TutorList.TutorListComponent.ProcessFile | src/app/features/tutores/tutor-list.component.ts:251-260 | raises the alert `PhotoAlert` gives; the file is read exactly when it is an image of at most 5 MiB |
| TutorList.TutorListComponent.OnPhotoRead | src/app/features/tutores/tutor-list.component.ts:263-270 | stores the file and its preview in the edit form or in the create form; every other signal is unchanged |
| TutorList.TutorListComponent.RemoveNewTutorImage | src/app/features/tutores/tutor-list.component.ts:274-276 | clears only the create form's file and preview; every other signal is unchanged |
| TutorList.TutorListComponent.RemoveEditTutorImage | src/app/features/tutores/tutor-list.component.ts:278-280 | clears only the edit form's file and preview; every other signal is unchanged |
| TutorList.TutorListComponent.OpenCreateTutorModal | src/app/features/tutores/tutor-list.component.ts:283-292 | blank create form, modal shown; every other signal is unchanged |
| TutorList.TutorListComponent.CloseCreateModal | src/app/features/tutores/tutor-list.component.ts:294-303 | modal hidden, blank create form; every other signal is unchanged |
| TutorList.TutorListComponent.OpenEditTutorModal | src/app/features/tutores/tutor-list.component.ts:305-315 | the edit form holds the tutor (`EditFormFor`), modal shown; every other signal is unchanged |
| TutorList.TutorListComponent.CloseEditModal | src/app/features/tutores/tutor-list.component.ts:317-327 | modal hidden, blank edit form; every other signal is unchanged |
| TutorList.TutorListComponent.CreateTutor | src/app/features/tutores/tutor-list.component.ts:330-346 | an invalid form sends nothing and changes nothing; a valid one sets only `createLoading` and sends the trimmed payload and the chosen photo |
| TutorList.TutorListComponent.UpdateTutor | src/app/features/tutores/tutor-list.component.ts:378-395 | as `CreateTutor`, for the tutor id the edit form holds, setting only `editLoading` |
| TutorList.TutorListComponent.OnCreateSucceeded | src/app/features/tutores/tutor-list.component.ts:363-370 | drops the save flag, closes the modal, blanks the form and reloads as `ReloadFirstPage`; every other signal is unchanged |
| TutorList.TutorListComponent.OnCreateFailed | src/app/features/tutores/tutor-list.component.ts:356-359 | only the save flag drops |
| TutorList.TutorListComponent.OnUpdateSucceeded | src/app/features/tutores/tutor-list.component.ts:412-419 | drops the save flag, closes the modal, blanks the form and reloads as `ReloadFirstPage`; every other signal is unchanged |
| TutorList.TutorListComponent.OnUpdateFailed | src/app/features/tutores/tutor-list.component.ts:405-408 | only the save flag drops |
| TutorList.TutorListComponent.OpenVincularModal | src/app/features/tutores/tutor-list.component.ts:428-430 | asks for page 0 of 100 pets |
| TutorList.TutorListComponent.OnLinkablePetsLoaded | src/app/features/tutores/tutor-list.component.ts:431-435 | offers the answer's pets, clears the choice, shows the modal; every other signal is unchanged |
| TutorList.TutorListComponent.CloseVincularModal | src/app/features/tutores/tutor-list.component.ts:442-446 | hides the modal and clears the offer and the choice; every other signal is unchanged |
| TutorList.TutorListComponent.VincularPet | src/app/features/tutores/tutor-list.component.ts:448-454 | sends `LinkFor` of the selection and the chosen pet |
| TutorList.TutorListComponent.OnPetLinked | src/app/features/tutores/tutor-list.component.ts:455-460 | closes the linking modal and asks again for the selected tutor's details; every other signal is unchanged |
| TutorList.TutorListComponent.OnPetUnlinked | src/app/features/tutores/tutor-list.component.ts:473-477 | reloads the selected tutor's details |
| TutorList.TutorListComponent.DesvincularPet | src/app/features/tutores/tutor-list.component.ts:467-483 | sends an unlink exactly when a tutor with a non-zero id is selected and the user confirmed |

## Left out

- HTTP transport, RxJS scheduling and timers are not modelled. The
  asynchronous answers are method parameters or `Event`s. The 400 ms
  `debounceTime` is left out: the debounced term arrives as the argument of
  `OnSearchDebounced`. The notification timer is a `Timer` value.
- The DOM, `FileReader`, `alert`, `confirm` and drag events are left out.
  Their results arrive as arguments: the data URL, and the answer of
  `confirm`. The drag handlers (`handleFileSelect`, `handleDrop`,
  `handleDragOver`, `handleDragLeave`), `navigateToPets` and the `trackBy`
  helpers only forward to modelled operations or to the router.
- A `localStorage` write that throws is not modelled; the source does not
  catch it. Reads that fail are `Store.Unavailable`.
- AuthSession.ParseUser: only the JSON shape the service writes,
  `{"username":"…"}` without escapes, is parsed. Any other stored text reads
  as `null` rather than as the object `JSON.parse` would build.
- Strings are sequences of Dafny characters, not UTF-16 code units. This
  matters only for the lengths of non-ASCII text, which the model never
  compares.
- The page components' own 401 handling (a login with fixed credentials and
  a reload) and `ngOnInit` are left out. Only `loading := false` on error is
  modelled. The auth guard, the login and header components, the routes and
  the domain services are not part of this model.
- The interceptor's registration is not part of this model. The model
  assumes the refresh call reaches `refreshToken()` without passing through
  the coordinator again.
- Unsubscribing (`ngOnDestroy`, or a caller cancelling while a refresh is
  pending) is not modelled. Neither are `expires_in` and
  `refresh_expires_in`, which the code never reads.
- The order in which a `BehaviorSubject` notifies its subscribers is taken
  as subscription order, as RxJS documents it.
- `console` logging is left out.
- OnPetLinked: when no tutor is selected any more it returns `None`. The
  source's `this.selectedTutor()!` then passes `null` to `openDetails`,
  which throws a `TypeError` inside the subscriber
  (tutor-list.component.ts:458 and 476); the throw is not modelled. The
  same holds for OnPetUnlinked.
- Notification durations are integers. The source's `duration` is a
  JavaScript number: a fraction such as 0.5 still starts a timer, and NaN
  does not.
- Header names are case-sensitive map keys. Angular's `HttpHeaders` match
  names without regard to case, so `setHeaders` also replaces a header
  spelled `authorization`; no request in the application carries one.
- The drag-over highlight signals (`isDragOverNew`, `isDragOverEdit`) are
  not part of `TutorList.PanelState`.

## Findings

| source | as written | input that shows it | evidently intended | confidence | as-written member | corrected member |
|---|---|---|---|---|---|---|
| src/app/core/interceptors/auth.interceptor.ts:84-88 | the `catchError` sits after `switchMap`, so it also catches an error of the replayed request: it sets `isRefreshing = false` and logs out even while a later refresh is in flight | request 1 gets a 401 and its refresh succeeds; request 2 gets a 401 and starts a second refresh; the replay of request 1 fails; the page logs in again; request 3 gets a 401 and starts a third refresh while the second is outstanding | only a refresh failure resets the flag and logs out; a replay's error reaches its caller unchanged, so at most one refresh is ever in flight | not executed | AuthInterceptor.AsWrittenOverlappingRefreshes | AuthInterceptor.AtMostOneRefresh |
| src/app/shared/directives/phone-mask.directive.ts:35 | `onInput` listens for `input` and always dispatches a new `input` event to the same element. The listener runs synchronously inside that dispatch, so every run starts another | any keystroke or paste in a field carrying the directive | dispatch only when the handler changed the field; since masking is idempotent, each event then ends after at most two runs | not executed | PhoneMask.InputNeverSettles | PhoneMask.InputSettles |
