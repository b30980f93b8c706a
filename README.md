# NodeRoom chat session, modelled in Dafny

NodeRoom is a one-room realtime chat client written as a single React component,
`App`, on top of Supabase. This project models the part of `App` that is a state
machine: the session effect that opens the `room_one` channel for a signed-in user
and unsubscribes it again, the history load, the broadcast, presence and
subscribe-status handlers, `sendMessage`, and the three expressions that decide how
a message is displayed (whose it is, its text, its time).

The Supabase client is the environment. What it reports (the session,
whether a history query succeeded and with which rows, who is present, subscribe
statuses, incoming broadcasts) arrives as method parameters. What the component asks
of it (query, create channel, listen, subscribe, track, unsubscribe, insert, send)
is appended to an effect trace, in call order.

## Layout

- `options.dfy` — `Options.Option`, for `null` references and absent nested objects.
- `js_values.dfy` — `JsValues`: a string-valued JavaScript property (`undefined`,
  `null` or a string), truthiness, `a || b`, and `String.prototype.trim` with the
  exact set of code points it removes.
- `messages.dfy` — `Messages`: one record for the entries of `messages`. A
  persisted row (`user_id`, `user_name`, `avatar`, `content`, `created_at`) and a
  broadcast payload (`message`, `user_name`, `avatar`, `timestamp`) are two shapes
  of it. This module holds the display selectors.
- `chat_state.dfy` — `ChatState`: the state of the component as a value. It has
  the sessions, the effect trace, the events, one transition function per handler
  (`CleanupStep`, `EffectStep`, `SessionStep`, `SettleStep`, `StatusStep`,
  `SendStep`, combined in `Step`), feasible runs (`Feasible`, `Run`) and the
  invariant `Inv`.
- `chat_properties.dfy` — `ChatProperties`: the lemmas about those transitions.
- `chat_app.dfy` — `ChatApp.App`: the component as a class. Its fields are the
  React state, `channelRef.current`, the pending cleanup, the channels created, the
  history loads started and the effect trace. Each handler or effect is one method
  that updates those fields in place. Every handler method is proved to perform
  exactly `Step` of its event (`ensures Model() == Step(old(Model()), …)`) and to
  keep `Inv`, so the lemmas of `ChatProperties` apply to it. The two halves of a
  session change, `CleanupSessionEffect` and `RunSessionEffect`, are proved to
  perform `CleanupStep` and `EffectStep`; `SetSession` runs them in turn.

## Behaviour of the code that the model keeps

- The result of `insert` is never looked at. A send broadcasts and appends its
  local copy whether or not the row was stored.
- Signing out empties `usersOnline` and unsubscribes the channel. It does not
  clear `messages`, and `channelRef.current` keeps naming the old channel.
- Switching from one signed-in user to another only unsubscribes the old channel.
  `usersOnline` is not cleared, so the old channel's online list stays until the
  new channel syncs (`SwitchClosesBeforeOpening`).
- Callbacks of a channel that has been unsubscribed are not discarded. A late
  broadcast is still appended, a late sync still replaces `usersOnline`, and a
  late "SUBSCRIBED" still tracks on that channel.
- The history query is started but not awaited before the channel subscribes. When
  it completes successfully it replaces `messages` wholesale, so a broadcast that
  arrived before it is replaced by the loaded rows
  (`LateHistoryOverwritesBroadcast`). It stays visible only if those rows already
  contain its persisted copy.
- There is no deduplication. A sender who also receives their own broadcast sees
  it twice.
- The "own message" test is strict equality with the session email. For a user
  whose metadata has no email, a local copy or broadcast with no `user_name`
  counts as own. A reloaded row does not: the insert body is sent as JSON, which
  drops `undefined` properties, so its `user_name` is stored and read back as
  `null` (`Persisted`, `NamelessSendOwnOnlyLocally`).

## Model

| member | source | states |
|---|---|---|
| `JsValues.Or` | src/App.jsx:349 | JavaScript's logical OR on string properties: the first operand if it is a non-empty string, else the second; the result is truthy iff either operand is |
| `JsValues.TrimStart` | src/App.jsx:79 | the leading part `trim` removes is all whitespace or line terminators, what remains is a suffix of the input and does not start with one |
| `JsValues.TrimEnd` | src/App.jsx:79 | the trailing part `trim` removes is all whitespace or line terminators, what remains is a prefix of the input and does not end with one |
| `JsValues.Trim` | src/App.jsx:79 | `s.trim()` is a slice `s[i..j]` of `s` whose removed prefix `s[..i]` and suffix `s[j..]` are blank; when non-empty it neither starts nor ends with a trimmable code point |
| `JsValues.TrimEmptyIffBlank` | src/App.jsx:79 | `!s.trim()` holds exactly when every character of `s` is whitespace or a line terminator (the empty string included) |
| `JsValues.TrimIsEmpty` | src/App.jsx:79 | evaluating `!newMessage.trim()` answers true exactly for blank input |
| `Messages.ShownText` | src/App.jsx:349 | the shown text is `content` when that is a non-empty string, otherwise `message`; it is non-empty iff one of the two is |
| `Messages.ShownTime` | src/App.jsx:359 | the time source is `created_at` when that is a non-empty string, otherwise `timestamp` |
| `Messages.IsOwn` | src/App.jsx:321 | a message is the viewer's own iff its `user_name` strictly equals the session email (`undefined` matches `undefined`, `null` does not) |
| `Messages.Stored` | src/App.jsx:88-95 | a column inserted as `undefined` is stored and read back as `null`; any other value is kept |
| `Messages.Persisted` | src/App.jsx:42-47 | a loaded row has the inserted columns as stored, the store's `created_at`, and none of the payload's own fields |
| `Messages.CopiesOfOneSendDisplayAlike` | src/App.jsx:81-95 | the local payload of a send and the row it inserts, whatever `created_at` the store later gives that row, show the same typed text, and the same ownership whenever a `user_name` was sent |
| `Messages.NamelessSendOwnOnlyLocally` | src/App.jsx:83-95 | with no email in the metadata, the local copy is drawn as own (`undefined === undefined`) and the reloaded row is not (`null !== undefined`) |
| `Messages.ShownTimeOfEachShape` | src/App.jsx:359 | a payload shows its send timestamp; a loaded row shows its `created_at` whenever that is set |
| `ChatProperties.InitialSatisfiesInv` | src/App.jsx:5-11 | the mounted component, with no session, channel or message, satisfies the invariant |
| `ChatProperties.SessionStepPreservesInv` | src/App.jsx:35-75 | a session change keeps the invariant: only the new channel, if any, is left not unsubscribed |
| `ChatProperties.StepPreservesInv` | src/App.jsx:35-105 | every handler keeps the invariant |
| `ChatProperties.RunPreservesInv` | src/App.jsx:35-105 | every feasible run of events keeps the invariant |
| `ChatProperties.AtMostOneLiveChannel` | src/App.jsx:51-74 | in every reachable state at most one channel is not unsubscribed; while a user is signed in it is the one `channelRef.current` names; after sign-out none is live |
| `ChatProperties.SignInOpensOneChannel` | src/App.jsx:41-70 | signing in from no user starts exactly one history load, of every row of `messages` ordered ascending by `created_at`, and creates exactly one channel, "room_one" keyed by the user id, wires "message" broadcasts and "sync" presence, subscribes, and points `channelRef.current` at it |
| `ChatProperties.SwitchClosesBeforeOpening` | src/App.jsx:51-74 | switching user sessions unsubscribes the previous channel before the next load and channel are started; afterwards the old channel is closed and the new one is live |
| `ChatProperties.SignOutKeepsMessages` | src/App.jsx:36-39 | a session without a user empties `usersOnline`, keeps `messages`, starts no load, opens no channel, leaves `channelRef.current` as it was, and leaves every channel unsubscribed |
| `ChatProperties.HistorySettleReplacesOrKeeps` | src/App.jsx:41-48 | a successful history load replaces `messages` with the rows; a failed one leaves them unchanged |
| `ChatProperties.LateHistoryOverwritesBroadcast` | src/App.jsx:49 | a broadcast admitted while the history query is still pending is overwritten when the query succeeds |
| `ChatProperties.BroadcastAppendsOne` | src/App.jsx:57-59 | a delivered broadcast appends exactly its payload at the end, earlier entries untouched, from any created channel including an unsubscribed one |
| `ChatProperties.PresenceSyncReplaces` | src/App.jsx:61-64 | a presence sync sets `usersOnline` to exactly the keys of the presence state |
| `ChatProperties.PresenceSnapshotsDoNotAccumulate` | src/App.jsx:61-64 | a sync of `{A, B}` followed by a sync of `{A}` leaves `[A]` |
| `ChatProperties.StatusTracksOnlyWhenSubscribed` | src/App.jsx:66-70 | only the status "SUBSCRIBED" makes the channel track `{id}` with the user id it was opened for; any other status does nothing |
| `ChatProperties.TrackedIdIsOpeningUser` | src/App.jsx:51-70 | the id a freshly opened channel tracks on "SUBSCRIBED" is the id of the user it was opened for |
| `ChatProperties.BlankSendDoesNothing` | src/App.jsx:79 | a send with empty or whitespace-only input changes nothing: no insert, no broadcast, no append, input kept |
| `ChatProperties.SendInsertsBroadcastsAppends` | src/App.jsx:81-104 | a non-blank send inserts `{user_id, user_name, avatar, content}`, then sends the "message" broadcast `{message, user_name, avatar, timestamp}` on `channelRef.current`, appends that same payload (length grows by one) and clears the input |
| `ChatProperties.SentEntryShowsTypedText` | src/App.jsx:81-86 | the entry a send appends shows the typed text and the send timestamp and is drawn as the sender's own |
| `ChatProperties.SendWithoutChannelOnlyInserts` | src/App.jsx:88-101 | with `channelRef.current` still null, a non-blank send performs only the insert; the `send` call throws, so nothing is appended and the input is kept |
| `ChatProperties.StepAdmits` | src/App.jsx:36-104 | any event but a successful history load appends exactly what it admits: a broadcast its payload, a non-blank send with a channel its local copy, everything else nothing |
| `ChatProperties.MessagesAreAdmissionLog` | src/App.jsx:36-104 | over any run without a successful history load the messages are the earlier ones followed by exactly the admitted entries, broadcasts and local copies mixed, in admission order; nothing, sign-out included, removes or reorders an entry |
| `ChatProperties.HistoryThenEchoThenBroadcast` | src/App.jsx:47-103 | history `[hi]`, then a send of "yo", then a broadcast "hey" leave the messages `[hi, yo, hey]` |
| `ChatProperties.BroadcastsAppendInOrder` | src/App.jsx:57-59 | after N broadcast deliveries the messages are the earlier ones followed by the N payloads in arrival order |
| `ChatState.CleanupStep` | src/App.jsx:72-74 | defines the effect cleanup: unsubscribe the channel the last run created, if any; `channelRef.current` is kept |
| `ChatState.EffectStep` | src/App.jsx:36-70 | defines one run of the session effect: without a user empty `usersOnline`; with one start a history load of `messages` ordered ascending by `created_at`, create "room_one" keyed by the user id, set `channelRef.current`, listen for "message" and "sync", subscribe |
| `ChatState.SessionStep` | src/App.jsx:35-75 | defines a session change: cleanup of the previous run, then a run for the new session |
| `ChatState.SettleStep` | src/App.jsx:41-48 | defines history completion: rows replace messages on success, nothing changes on error |
| `ChatState.StatusStep` | src/App.jsx:66-70 | defines the subscribe callback: track `{id}` with the channel's user id on "SUBSCRIBED" only |
| `ChatState.SendStep` | src/App.jsx:77-105 | defines `sendMessage`: nothing for blank input; otherwise insert, then (with a channel) broadcast, append and clear |
| `ChatState.Step` | src/App.jsx:35-105 | defines every event, including broadcast delivery (append), presence sync (replace) and input change |
| `ChatApp.App.constructor` | src/App.jsx:5-11 | the component mounts with no session, no messages, nobody online, empty input and no channel |
| `ChatApp.App.SetSession` | src/App.jsx:13-22 | each session the auth provider reports becomes `session` and triggers the session effect's cleanup and rerun, as `Step` states; messages and input are kept |
| `ChatApp.App.CleanupSessionEffect` | src/App.jsx:72-74 | the previous run's channel, if any, is unsubscribed |
| `ChatApp.App.RunSessionEffect` | src/App.jsx:35-70 | without a user only `usersOnline` is emptied; with one a history query is started and a channel is created, wired, subscribed and stored in `channelRef.current` |
| `ChatApp.App.SettleHistory` | src/App.jsx:41-48 | a settled history query replaces `messages` with its rows when it succeeded and changes nothing else on error |
| `ChatApp.App.DeliverBroadcast` | src/App.jsx:57-59 | the payload is appended to `messages` |
| `ChatApp.App.SyncPresence` | src/App.jsx:61-64 | `usersOnline` becomes the presence keys |
| `ChatApp.App.ReportStatus` | src/App.jsx:66-70 | "SUBSCRIBED" tracks `{id}` on that channel |
| `ChatApp.App.ChangeInput` | src/App.jsx:377 | the input's text becomes `newMessage` |
| `ChatApp.App.SendMessage` | src/App.jsx:77-105 | blank input is ignored with nothing changed; otherwise insert, send on `channelRef.current`, append and clear, or only the insert and a throw when there is no channel yet |

## Left out

- Rendering, styling and layout (src/App.jsx:121-409) are UI. The own-message test is repeated at lines 326-363 for styling and is modelled once.
- The scroll-to-bottom effect (src/App.jsx:114-119) manipulates the DOM.
- `formatTime` (src/App.jsx:107-112) is locale formatting. The model hands on the chosen time string unformatted.
- `new Date().toISOString()` is a clock. It is the `timestamp` parameter of a send.
- OAuth sign-in and sign-out (src/App.jsx:27-33) and the auth subscription's unsubscribe on unmount (src/App.jsx:24) are left out. They are provider calls; their effect on the component is a later session report.
- Unmounting the component is not modelled.
- `ChatApp.App.SetSession`: each call stands for `setSession` with a new session object. React skips a `setSession` with the identical object reference, and that no-op is not modelled.
- `ChatApp.App.SendMessage`: runs as one atomic step. Events that could arrive while the insert is awaited (src/App.jsx:88) are not interleaved.
- Any event can be delivered after any other. React scheduling, promise timing and the `await` on `track` are not modelled.
- `ChatApp.App.SettleHistory`: the rows become `messages` in the order the store returned them. The request for ascending `created_at` order is recorded in the `LoadHistory` effect; that the store honours it (src/App.jsx:45) is the store's promise and is not modelled.
- `ChatProperties.HistorySettleReplacesOrKeeps`: the same as for `SettleHistory`; the `created_at` ordering of the rows is not stated.
- Broadcast payloads are taken to be objects whose properties are `undefined`, `null` or strings. A "message" broadcast without a `payload` appends `undefined` (src/App.jsx:58), and rendering it throws at `msg.content` (src/App.jsx:349); that entry and number or boolean property values, with their own truthiness, are not modelled.
- Presence state is modelled by its keys only. The per-key presence records are never read.
- The results of `insert`, `send` and `track` are not modelled, because the code ignores them.
- The `id` column of loaded rows is not modelled, because the core never reads it.
- Supabase internals are not modelled: the query builder, realtime transport, reusing a channel by topic, and whether a sender receives its own broadcast. Channels are identified by creation order.
- JavaScript strings are UTF-16, while Dafny's `char` is a Unicode scalar value. Lone surrogates are not representable. `trim` is modelled on code points, and every code point it removes is in the Basic Multilingual Plane.
- `e.preventDefault()` (src/App.jsx:78) and the Enter-key handler that calls `sendMessage` (src/App.jsx:378-383) are event plumbing. Both lead to the same `SendMessage`.
