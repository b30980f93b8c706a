/** The chat component's state and its transitions, as values. Every handler or
    effect of the component is one atomic step; the Supabase client is an
    environment that reports sessions, history results, broadcasts, presence
    snapshots and subscribe statuses, and that receives the calls recorded in
    the effect trace. */
module ChatState {
  import opened Options
  import opened JsValues
  import opened Messages

  /** The one room the client joins. */
  const RoomTopic: string := "room_one"
  /** The table the history is read from, and the column it is ordered by. */
  const MessagesTable: string := "messages"
  const CreatedAtColumn: string := "created_at"
  /** The broadcast event name used for chat messages, both ways. */
  const MessageEvent: string := "message"
  /** The presence event that refreshes the online list. */
  const SyncEvent: string := "sync"
  /** The subscribe status on which the client tracks its own presence. */
  const SubscribedStatus: string := "SUBSCRIBED"

  /** `user.user_metadata`, where the provider puts the email and avatar URL. */
  datatype Metadata = Metadata(email: JsVal, avatarUrl: JsVal)
  /** `session.user`: its `id` and its (possibly missing) metadata. */
  datatype User = User(id: JsVal, metadata: Option<Metadata>)
  /** An auth session object; its `user` may be missing. */
  datatype Session = Session(user: Option<User>)

  /** `session?.user` is truthy. */
  predicate HasUser(s: Option<Session>) {
    s.Some? && s.value.user.Some?
  }

  /** `session?.user?.id`. */
  function UserId(s: Option<Session>): JsVal {
    if HasUser(s) then s.value.user.value.id else Undefined
  }

  /** `session?.user?.user_metadata?.email`. */
  function Email(s: Option<Session>): JsVal {
    if HasUser(s) && s.value.user.value.metadata.Some? then s.value.user.value.metadata.value.email
    else Undefined
  }

  /** `session?.user?.user_metadata?.avatar_url`. */
  function Avatar(s: Option<Session>): JsVal {
    if HasUser(s) && s.value.user.value.metadata.Some? then s.value.user.value.metadata.value.avatarUrl
    else Undefined
  }

  /** A channel object created by `supabase.channel(topic, {presence: {key}})`;
      channels are named by their position in the order of creation. */
  datatype ChannelInfo = ChannelInfo(topic: string, presenceKey: JsVal)

  /** One call the component makes into the Supabase client, in the order made. */
  datatype Effect =
    | LoadHistory(load: nat, table: string, orderBy: string, ascending: bool)
                                                           // from(table).select("*").order(orderBy, {ascending})
    | OpenChannel(ch: nat, topic: string, presenceKey: JsVal)
    | Listen(ch: nat, kind: string, event: string)         // channel.on(kind, {event}, handler)
    | Subscribe(ch: nat)
    | Track(ch: nat, id: JsVal)                            // channel.track({id})
    | Unsubscribe(ch: nat)
    | Insert(row: Msg)                                     // insert([row]) into messages
    | Send(ch: nat, kind: string, event: string, payload: Msg)

  /** What a history query resolves to: its rows, or an error. */
  datatype LoadResult = Loaded(rows: seq<Msg>) | LoadFailed

  /** The events the component reacts to; channel events name the channel whose
      handler fires, which may be one that has since been unsubscribed. */
  datatype Event =
    | SessionChanged(session: Option<Session>)   // setSession from getSession or onAuthStateChange
    | HistorySettled(load: nat, result: LoadResult)
    | BroadcastDelivered(ch: nat, payload: Msg)
    | PresenceSynced(ch: nat, keys: seq<string>) // Object.keys(channel.presenceState())
    | StatusReported(ch: nat, status: string)
    | InputChanged(text: string)                 // the input's onChange
    | SendPressed(timestamp: string)             // sendMessage, with new Date().toISOString()

  /** The component's state: its React state, `channelRef.current`, the channel
      the mounted session effect will unsubscribe on cleanup, the channels and
      history loads created so far, and the trace of calls made. */
  datatype State = State(
    session: Option<Session>,
    messages: seq<Msg>,
    usersOnline: seq<string>,
    newMessage: string,
    channelRef: Option<nat>,
    cleanup: Option<nat>,
    channels: seq<ChannelInfo>,
    loadsStarted: nat,
    loadsSettled: set<nat>,
    effects: seq<Effect>)

  /** The state just after mounting: no session, nothing loaded, nothing opened. */
  function Initial(): State {
    State(None, [], [], "", None, None, [], 0, {}, [])
  }

  /** The session effect's cleanup: unsubscribe the channel its last run created, if any. */
  function Teardown(cleanup: Option<nat>): seq<Effect> {
    if cleanup.Some? then [Unsubscribe(cleanup.value)] else []
  }

  /** The calls the session effect makes for a signed-in user, in order. */
  function Setup(load: nat, ch: nat, key: JsVal): seq<Effect> {
    [LoadHistory(load, MessagesTable, CreatedAtColumn, true), OpenChannel(ch, RoomTopic, key),
     Listen(ch, "broadcast", MessageEvent), Listen(ch, "presence", SyncEvent), Subscribe(ch)]
  }

  /** The payload `sendMessage` builds from the typed text and the session. */
  function OutgoingPayload(st: State, timestamp: string): Msg {
    BroadcastPayload(st.newMessage, Email(st.session), Avatar(st.session), timestamp)
  }

  /** The row `sendMessage` inserts for the same send. */
  function OutgoingRow(st: State): Msg {
    InsertedRow(UserId(st.session), Email(st.session), Avatar(st.session), st.newMessage)
  }

  /** An event can happen in a state: a history query settles once, and only a
      channel that was created can fire a handler. */
  predicate Enabled(st: State, ev: Event) {
    match ev
    case HistorySettled(load, _) => load < st.loadsStarted && load !in st.loadsSettled
    case BroadcastDelivered(ch, _) => ch < |st.channels|
    case PresenceSynced(ch, _) => ch < |st.channels|
    case StatusReported(ch, _) => ch < |st.channels|
    case _ => true
  }

  /** The cleanup the previous run of the session effect returned: unsubscribe
      its channel. `channelRef.current` is not reset. */
  function CleanupStep(st: State): State {
    st.(effects := st.effects + Teardown(st.cleanup), cleanup := None)
  }

  /** One run of the session effect for the current session. Without a user it
      only empties the online list; with one it starts a history load and
      creates, wires and subscribes a fresh channel, without waiting for the load. */
  function EffectStep(st: State): State {
    if !HasUser(st.session) then
      st.(usersOnline := [])
    else
      var ch := |st.channels|;
      var key := UserId(st.session);
      st.(channels := st.channels + [ChannelInfo(RoomTopic, key)],
          channelRef := Some(ch), cleanup := Some(ch), loadsStarted := st.loadsStarted + 1,
          effects := st.effects + Setup(st.loadsStarted, ch, key))
  }

  /** A new session object: React runs the previous effect's cleanup, then the
      effect again for the new session. */
  function SessionStep(st: State, s: Option<Session>): State {
    EffectStep(CleanupStep(st).(session := s))
  }

  /** A history query settles: when it succeeded its rows replace the messages
      wholesale; on error the messages stay as they were. */
  function SettleStep(st: State, load: nat, result: LoadResult): State {
    var settled := st.(loadsSettled := st.loadsSettled + {load});
    if result.Loaded? then settled.(messages := result.rows) else settled
  }

  /** The channel's subscribe callback: track `{id: user id}` on "SUBSCRIBED". */
  function StatusStep(st: State, ch: nat, status: string): State
    requires ch < |st.channels|
  {
    if status == SubscribedStatus then st.(effects := st.effects + [Track(ch, st.channels[ch].presenceKey)])
    else st
  }

  /** `sendMessage`: nothing for blank input (`!newMessage.trim()`, which holds
      exactly for `Blank` input by `TrimEmptyIffBlank`); otherwise insert, then broadcast on
      `channelRef.current` and append a copy locally and clear the input. With no
      channel yet, `channelRef.current.send` throws after the insert. */
  function SendStep(st: State, timestamp: string): State {
    if Blank(st.newMessage) then st
    else
      var inserted := st.(effects := st.effects + [Insert(OutgoingRow(st))]);
      if st.channelRef.None? then inserted
      else
        var payload := OutgoingPayload(st, timestamp);
        inserted.(effects := inserted.effects + [Send(st.channelRef.value, "broadcast", MessageEvent, payload)],
                  messages := st.messages + [payload], newMessage := "")
  }

  /** The state after one event. */
  function Step(st: State, ev: Event): State
    requires Enabled(st, ev)
  {
    match ev
    case SessionChanged(s) => SessionStep(st, s)
    case HistorySettled(load, result) => SettleStep(st, load, result)
    case BroadcastDelivered(_, payload) => st.(messages := st.messages + [payload])
    case PresenceSynced(_, keys) => st.(usersOnline := keys)
    case StatusReported(ch, status) => StatusStep(st, ch, status)
    case InputChanged(text) => st.(newMessage := text)
    case SendPressed(timestamp) => SendStep(st, timestamp)
  }

  /** Every event of `evs` can happen in turn from `st`. */
  predicate Feasible(st: State, evs: seq<Event>)
    decreases |evs|
  {
    evs == [] || (Enabled(st, evs[0]) && Feasible(Step(st, evs[0]), evs[1..]))
  }

  /** The state after a feasible sequence of events. */
  function Run(st: State, evs: seq<Event>): State
    requires Feasible(st, evs)
    decreases |evs|
  {
    if evs == [] then st else Run(Step(st, evs[0]), evs[1..])
  }

  /** Channel `c` has been unsubscribed. */
  predicate Closed(effects: seq<Effect>, c: nat) {
    Unsubscribe(c) in effects
  }

  /** An effect names only channels and loads that exist. */
  predicate EffectWithin(e: Effect, nChannels: nat, nLoads: nat) {
    match e
    case LoadHistory(load, _, _, _) => load < nLoads
    case Insert(_) => true
    case _ => e.ch < nChannels
  }

  predicate TraceWithin(effects: seq<Effect>, nChannels: nat, nLoads: nat) {
    forall i :: 0 <= i < |effects| ==> EffectWithin(effects[i], nChannels, nLoads)
  }

  /** The invariant of the component: `channelRef.current` names a created
      channel; while a user is signed in it is the channel the effect will clean
      up; and every created channel except that one has been unsubscribed. */
  predicate Inv(st: State) {
    (st.channelRef.Some? ==> st.channelRef.value < |st.channels|)
    && (st.cleanup.Some? <==> HasUser(st.session))
    && (st.cleanup.Some? ==> st.channelRef == st.cleanup)
    && (forall l :: l in st.loadsSettled ==> l < st.loadsStarted)
    && TraceWithin(st.effects, |st.channels|, st.loadsStarted)
    && (forall c :: 0 <= c < |st.channels| ==> (Closed(st.effects, c) <==> st.cleanup != Some(c)))
  }
}
