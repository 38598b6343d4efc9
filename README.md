# Kraken client core, modelled in Dafny

Kraken is a React client for a wallet-based social app. Its storage, auth, file storage
and realtime all run on a hosted backend, and its market data comes from a public price API.
This project models the client's decision logic and page state, and proves properties of it:

- **Wallet** (`wallet.dfy`): the timeframe → day-count choice and the normalisation of a
  historical price series. Millisecond timestamps become whole seconds, the first point in
  each second is kept, and the result is sorted ascending. A fetch that yields a listing or a
  price array replaces the listing or the chart data, and a fetch that throws leaves them
  alone. `loading` ends false after a listing fetch either way. An HTTP error with a JSON body
  is not modelled for the listing (see "## Left out").
- **Messages** (`messages.dfy`): the other-participant label, the conversation search, the
  send guard, the derived message content and attachment path, and find-or-create of a
  direct conversation. It also covers when a realtime insert reloads the messages, and the
  page's `sendMessage`, `createNewConversation` and load operations over a backend store.
- **App** (`app.dfy`): the auth context as a state machine over `isAuthenticated`,
  `walletAddress` and the `walletAddress` key in `localStorage`. It covers `checkSession`,
  the auth-change listener, `logout`, and the route guard.
- **Login** (`login.dfy`): `connectMetamask`. The password credential is derived from the
  lower-cased address. Sign-in is tried first, with one sign-up fallback. The address is
  stored, and the page navigates, only on success.
- **Profiles** (`profile.dfy`): `loadProfile`, which creates a default row the first time,
  and `handleSubmit`, which chooses the avatar URL and upserts under the lower-cased address.

Supporting modules:

- `wrappers.dfy`: `Option`.
- `text.dfy`: the JavaScript string operations used: ASCII `toLowerCase`, `includes`,
  `startsWith`, `trim`, `slice` with negative bounds, and the decimal rendering of
  `Date.now()` with its parse-back.
- `browser.dfy`: `localStorage` and picked files.
- `backend.dfy`: the backend's tables and object storage as a `Store` class. Row ids are
  positions.

Calls to the backend, the wallet provider and the price API are inputs to the model. An
`...Ok` flag says whether a request succeeded, and a `WalletResponse` or `Option` stands for
a response. `Date.now()` is the parameter `now`. The storage service's public URL for a
path is the function parameter `publicUrlOf`.

Two places where the code is followed rather than the natural reading of it:

- `getOtherParticipant` also answers "Unknown" when the first participant that differs from
  the account is the empty string, because the empty string is falsy
  (`Messages.OtherParticipantLabelSpec`).
- The messages page's `account` is the lower-cased id of the session's user, not a wallet
  address (src/pages/Messages.tsx:34-35). The "conversation with yourself" check and the
  own-message test therefore compare against that id. The model keeps it as an opaque
  string.

## Model

| member | source | states |
|---|---|---|
| Wallet.Days | src/pages/Wallet.tsx:147 | the day count is 1, 7 or 30 exactly for "24h", "7d", "30d", and 365 exactly for every other label |
| Wallet.ButtonDays | src/pages/Wallet.tsx:303-306 | the four timeframe buttons ask for 1, 7, 30 and 365 days |
| Wallet.ToSample | src/pages/Wallet.tsx:154-157 | a sample's time is the floor of the timestamp in seconds (time·1000 ≤ ts < time·1000+1000) and its value is the price unchanged |
| Wallet.ToSamples | src/pages/Wallet.tsx:153-157 | the map keeps the length and converts each point in place |
| Wallet.FindIndexSpec | src/pages/Wallet.tsx:159 | `findIndex` gives the first position with the time, or -1 exactly when none has it |
| Wallet.KeepFirstFromLength | src/pages/Wallet.tsx:158-160 | the filter never lengthens the series |
| Wallet.KeepFirstFromKeepsFirsts | src/pages/Wallet.tsx:158-160 | every kept sample is the first sample with its time |
| Wallet.KeepFirstFromDistinct | src/pages/Wallet.tsx:158-160 | the kept samples have pairwise distinct times |
| Wallet.KeepFirstFromComplete | src/pages/Wallet.tsx:158-160 | the first sample of every time is kept |
| Wallet.InsertByTimeMultiset | src/pages/Wallet.tsx:161 | one insertion step of the sort adds exactly the inserted sample |
| Wallet.InsertByTimeSorted | src/pages/Wallet.tsx:161 | inserting a sample whose time is new keeps the series strictly ascending |
| Wallet.SortByTimeSpec | src/pages/Wallet.tsx:161 | sorting samples with distinct times gives a strictly ascending permutation |
| Wallet.StrictlySortedUnique | src/pages/Wallet.tsx:161 | two strictly ascending series with the same elements are equal, so the result does not depend on the sorting algorithm |
| Wallet.NormaliseSeriesSorted | src/pages/Wallet.tsx:153-161 | the chart series is strictly ascending, a permutation of the filtered samples, and no longer than the input |
| Wallet.NoTimeLost | src/pages/Wallet.tsx:153-161 | every second that occurs in the input has a sample in the chart series |
| Wallet.FirstValueWins | src/pages/Wallet.tsx:153-161 | each chart sample carries the price of the first input point in its second |
| Wallet.NormaliseSeriesSpec | src/pages/Wallet.tsx:153-161 | the chart series is strictly ascending (so times are distinct), no longer than the input, loses no time, and keeps each time's first value |
| Wallet.NormaliseSeriesCharacterised | src/pages/Wallet.tsx:153-161 | every strictly ascending arrangement of the filtered samples is the chart series |
| Wallet.WalletPage.constructor | src/pages/Wallet.tsx:28-34 | the page starts on "bitcoin", "24h", empty data, loading |
| Wallet.WalletPage.FetchCryptoData | src/pages/Wallet.tsx:131-143 | a decoded listing replaces the old one, a thrown request or decoding keeps it; loading ends either way |
| Wallet.WalletPage.FetchChartData | src/pages/Wallet.tsx:145-166 | the request names the selected coin and asks for Days(timeframe) days; success replaces the chart data wholesale with the normalised series, and failure leaves it untouched |
| Wallet.WalletPage.SelectTimeframe | src/pages/Wallet.tsx:43-47 | choosing a different timeframe, with a coin selected, makes one request for that coin with the new day count and replaces the chart data by its normalised answer; the same timeframe makes no request |
| Wallet.WalletPage.SelectCrypto | src/pages/Wallet.tsx:43-47 | choosing a different, non-empty coin makes one request for that coin with the current day count and replaces the chart data by its normalised answer; otherwise no request is made |
| Messages.FirstOtherSpec | src/pages/Messages.tsx:158 | `find` returns nothing exactly when every participant lower-cases to the account, and otherwise the first that does not |
| Messages.ShortAddressNotUnknown | src/pages/Messages.tsx:159 | a shortened address is never the word "Unknown" |
| Messages.ShortAddressOfLong | src/pages/Messages.tsx:159 | for ten or more characters, the short form is the first six, "..." and the last four |
| Messages.OtherParticipantLabelSpec | src/pages/Messages.tsx:157-160 | the label is "Unknown" exactly when no participant differs from the account or the first that does is empty; otherwise it is that participant's short form |
| Messages.FilterConversationsSpec | src/pages/Messages.tsx:222-228 | the search result is an order-preserving subsequence, and it holds a conversation exactly when some lower-cased participant includes the lower-cased query |
| Messages.EmptyQueryMatches | src/pages/Messages.tsx:222-228 | an empty query keeps exactly the conversations that have a participant |
| Messages.SendAllowedSpec | src/pages/Messages.tsx:168 | a send goes ahead exactly when there is non-blank text or a file, an account, a selected chat, and no send in progress |
| Messages.MessageContentSpec | src/pages/Messages.tsx:184-186 | the content is "Sent an image: name" for image types, "Sent a file: name" for other files, and the untrimmed text without a file |
| Messages.FirstDashAfterDigits | src/pages/Messages.tsx:174 | in a path part "digits-name", the first dash ends the timestamp |
| Messages.DashAfterDigits | src/pages/Messages.tsx:174 | "digits-name" splits back into its timestamp and its name |
| Messages.AttachmentPathInjective | src/pages/Messages.tsx:174 | two attachment paths are equal only for the same millisecond and the same file name |
| Messages.SentMessageIsOwn | src/pages/Messages.tsx:231 | a message sent with the page's account as sender is drawn as its own, and its realtime echo does not reload |
| Messages.FindDirect | src/pages/Messages.tsx:96-107 | the lookup gives the first non-group conversation containing both addresses, or none exactly when there is no such conversation |
| Messages.FindOrCreateSpec | src/pages/Messages.tsx:96-124 | find-or-create gives a direct conversation with both parties, keeps every existing row, adds at most one, and keeps ids equal to positions |
| Messages.FindOrCreateIdempotent | src/pages/Messages.tsx:96-124 | a second call for the same pair reuses the conversation the first call found or created, and adds nothing |
| Messages.MessagesPage.constructor | src/pages/Messages.tsx:18-29 | the page starts with empty lists, no selection, empty inputs and no account |
| Messages.MessagesPage.ResolveAccount | src/pages/Messages.tsx:31-39 | the account becomes the session user's id, lower-cased, only when there is a user id |
| Messages.MessagesPage.LoadConversations | src/pages/Messages.tsx:70-84 | the list becomes the store's conversations on success with an account, and is unchanged otherwise |
| Messages.MessagesPage.LoadMessages | src/pages/Messages.tsx:132-151 | the list becomes the selected chat's messages, oldest first, on success with a selection, and is unchanged otherwise |
| Messages.MessagesPage.SelectChat | src/pages/Messages.tsx:41-68 | selecting a different conversation loads its messages and, with an account, reloads the conversation list; selecting the current one loads nothing |
| Messages.MessagesPage.OnRealtimeInsert | src/pages/Messages.tsx:51-54 | an insert reloads the messages exactly when its sender differs from the account |
| Messages.MessagesPage.CreateNewConversation | src/pages/Messages.tsx:86-130 | nothing happens without an account or a recipient; self is refused with nothing inserted; an existing direct conversation is selected; otherwise the new one is inserted, selected and the list reloaded; a failed insert changes nothing |
| Messages.MessagesPage.SendMessage | src/pages/Messages.tsx:166-220 | a refused send changes nothing; otherwise a file is uploaded under its attachment path, the message row and then the attachment row are stored, and only when both succeed are the input and file cleared and the messages reloaded; `sending` ends as it was |
| Messages.MessagesPage.Deliver | src/pages/Messages.tsx:188-214 | the message row carries the chat, the account and the derived content; the attachment row points at the new message and the upload path |
| Backend.MessagesOf | src/pages/Messages.tsx:136-143 | the query returns exactly the chat's messages, as an order-preserving subsequence of the store (oldest first) |
| Backend.Store.InsertConversation | src/pages/Messages.tsx:109-118 | an insert appends one row under the next id |
| Backend.Store.InsertMessage | src/pages/Messages.tsx:188-196 | an inserted message is appended unread under the next id |
| Backend.Store.InsertAttachment | src/pages/Messages.tsx:200-207 | an attachment row is appended |
| Backend.Store.UpsertProfile | src/pages/Profile.tsx:84-92 | the upsert inserts or replaces the row under the profile's address, keeping every row under its own address |
| Backend.Store.Upload | src/pages/Messages.tsx:175 | an upload records the object under its bucket and path |
| Browser.LocalStorage.SetItem | src/pages/Login.tsx:47 | the key is set to the value, other keys unchanged |
| Browser.LocalStorage.RemoveItem | src/App.tsx:39 | the key is removed, other keys unchanged |
| Text.LowerIdempotent | src/pages/Login.tsx:25 | lower-casing twice is lower-casing once |
| Text.TrimEmptyIffBlank | src/pages/Messages.tsx:168 | `trim()` is empty exactly when every character is whitespace |
| Text.SliceWithin | src/pages/Profile.tsx:40 | `slice(start, end)` within bounds is the plain subsequence |
| Text.SliceLast | src/pages/Messages.tsx:159 | `slice(-k)` is the last k characters, or the whole string when shorter |
| Text.ParseDecimalOfDecimal | src/pages/Messages.tsx:174 | the decimal rendering of a timestamp is all digits and parses back to it |
| Text.DecimalInjective | src/pages/Profile.tsx:79 | different timestamps render differently |
| App.AuthContext.constructor | src/App.tsx:25-26 | the context starts signed out with no address |
| App.AuthContext.CheckSession | src/App.tsx:30-43 | authenticated with the stored address exactly when there is a session and a stored address; otherwise the key is removed and the context cleared; the invariant holds |
| App.AuthContext.OnAuthStateChange | src/App.tsx:48-59 | a session with a stored address authenticates; a session without one changes nothing; no session clears the context without touching storage; the invariant holds |
| App.AuthContext.Logout | src/App.tsx:66-71 | the key is removed and the context cleared |
| App.RouteGuard | src/App.tsx:77-90 | "/login" renders the login screen exactly when signed out; the layout pages render exactly when signed in; every redirect goes where the state allows |
| App.RedirectSettles | src/App.tsx:77-84 | following a redirect once reaches a rendered screen |
| Login.EmailRoundTrip | src/pages/Login.tsx:29 | the address can be read back from the derived e-mail |
| Login.EmailInjective | src/pages/Login.tsx:29 | different addresses derive different e-mails |
| Login.ConnectSpec | src/pages/Login.tsx:12-59 | no provider gives "MetaMask is not installed" and no call; a failed account request gives its message; no account gives no call and no error; otherwise sign-in with the derived credential, then exactly one sign-up with the same credential only if sign-in failed; storage and navigation exactly on success; an error otherwise |
| Login.StoredAddressIsLowerCase | src/pages/Login.tsx:25-47 | the stored address is lower case |
| Login.LoginPage.constructor | src/pages/Login.tsx:8-9 | the page starts not loading and without an error |
| Login.LoginPage.ConnectMetamask | src/pages/Login.tsx:12-59 | the calls, the error, the storage write and the navigation are those of `Connect`; loading ends false |
| Profiles.DefaultProfileSpec | src/pages/Profile.tsx:37-45 | the default row's address is the wallet address lower-cased (a fixed point of lower-casing); its username is "User_" and characters [2,8) of the address as typed, for every length; its bio and avatar are empty |
| Profiles.AvatarPathDistinct | src/pages/Profile.tsx:79 | one address's avatar paths at different instants differ |
| Profiles.ProfilePage.constructor | src/pages/Profile.tsx:13-17 | the page starts loading, with nothing loaded and the address read from storage |
| Profiles.ProfilePage.PickAvatar | src/pages/Profile.tsx:65-68 | only a picked file replaces the avatar |
| Profiles.ProfilePage.EditUsername | src/pages/Profile.tsx:147 | typing a username edits only the loaded profile's username; with no profile loaded nothing changes |
| Profiles.ProfilePage.EditBio | src/pages/Profile.tsx:157 | typing a bio edits only the loaded profile's bio; with no profile loaded nothing changes |
| Profiles.ProfilePage.LoadProfile | src/pages/Profile.tsx:23-63 | without a stored address nothing happens; otherwise an existing row is shown with no insert, an absent one is created with defaults and shown, and a failure leaves the profile as it was; loading ends |
| Profiles.ProfilePage.HandleSubmit | src/pages/Profile.tsx:70-103 | nothing happens without a profile or an address; a picked avatar is uploaded under its path and its URL replaces the old one, otherwise the URL is kept; the upsert is keyed by the lower-cased address with the bio defaulting to ""; the avatar is cleared and the profile reloaded only on success |
| Profiles.LoadProfileTwice | src/pages/Profile.tsx:23-63 | two successive `loadProfile` calls: the row exists after the first exactly when it was there or its insert succeeded, and then the second shows that same row and writes nothing |

## Left out

- Wallet.WalletPage.FetchCryptoData: the code never checks `response.ok`
  (src/pages/Wallet.tsx:133-137). An HTTP error whose body is JSON, such as a rate-limit
  reply, is therefore stored as `cryptoData`, and the next render's `cryptoData.map` throws.
  The model's response is either a listing or a thrown request, so that case is not
  represented, and "a failed fetch keeps the listing" holds only for requests that throw.
  The chart fetch has no such gap: there `data.prices` is undefined, line 153 throws, and
  the old chart data is kept.
- Lower-casing covers ASCII letters only; JavaScript's `toLowerCase` also maps other Unicode letters.
- Text.Slice, Text.SliceFrom: JavaScript strings are UTF-16 code units, and `slice` counts code
  units (src/pages/Messages.tsx:159, src/pages/Profile.tsx:40). The model counts characters,
  so the short address and the default username differ for text outside the Basic
  Multilingual Plane.
- Backend.Store.InsertMessage: the insert (src/pages/Messages.tsx:190-194) never sets `read`.
  The model gives a new message `read == false`, taken as the table's default, which is
  defined outside the client.
- App.Route: React Router matches paths case-insensitively and accepts a trailing slash, so
  "/Login" or "/messages/" reach the guarded routes. The model compares paths exactly and
  gives those `NoMatch`.
- Prices, percentages and currency formatting are floating point. Prices are an opaque type,
  and no arithmetic is done on them.
- Timestamps and time-based ordering are left out. `created_at`/`updated_at` are not stored, so
  tables are in insertion order. "Ordered by `updated_at`, newest first" for the
  conversation list, and the unspecified order of the find-or-create query, are both read
  as store order.
- Chart construction, resize handling, the 30-second listing refresh timer, relative-time
  formatting, scrolling and all rendering are left out.
- `src/components/Layout.tsx` and `src/pages/Home.tsx` are not part of this model.
- `src/lib/supabase.ts` is not part of this model. Its tables are the `Store` class.
- The network, the wallet provider, the session lookup and the public-URL derivation are
  inputs, not models. An upload's own result is never consulted by the code, so an upload is
  always recorded.
- Concurrency is left out: overlapping requests, a send still in flight when another starts,
  fetches finishing after unmount, and the race between two find-or-create calls. Each
  operation runs to completion before the next.
- The realtime subscription's filter on the selected chat, and its teardown, are left out.
  `OnRealtimeInsert` is the handler for an insert into the selected chat.
- Messages.MessagesPage.CreateNewConversation, Messages.MessagesPage.ResolveAccount: the
  effects their state changes trigger are not part of these methods. Those are loading the
  newly selected chat's messages and reloading the conversation list after the account is
  set. They run as a separate step, which `SelectChat`, `LoadMessages` and
  `LoadConversations` model.
- Messages.FindDirect: the lookup's filter is a Postgres array literal built by string
  interpolation (src/pages/Messages.tsx:99). The model reads it as exact membership of both
  strings. The store's parser drops white space around elements, splits on commas, and reads
  braces, quotes and an unquoted NULL specially. A recipient typed with such characters is
  stored as typed (line 112) but never matched by a later lookup. For those recipients the
  program inserts a new conversation on every call, so `FindOrCreateIdempotent` does not hold
  for them.
- Messages.MessagesPage.CreateNewConversation: a failed lookup query, which the code treats
  as "no existing conversation", is not modelled. The lookup always succeeds.
- Messages.MessagesPage.SendMessage: the alert and console output on failure are reduced to
  the `SendFailed` outcome. A message whose attachment row failed stays stored, as in the
  code (`SendFailed(true)`).
- Profiles.ProfilePage.HandleSubmit: the "Failed to save profile" alert is reduced to the
  `SaveFailed` outcome.
- Profiles.ProfilePage.LoadProfile: without a stored address the code returns before its
  `finally`, so `loading` stays on. The model keeps that behaviour.
- Login.LoginPage.ConnectMetamask: a thrown error without a message, which would make
  `error` undefined, is not modelled. A failed provider request carries its message.
