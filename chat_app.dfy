/** The `App` component as an object: its React state, `channelRef`, and the
    calls it makes into the Supabase client, updated in place by one method per
    handler or effect. Each handler method is proved to perform exactly the
    transition `ChatState.Step` describes and to keep `Valid()`, so the properties
    proved there hold of it; the two halves of a session change perform
    `ChatState.CleanupStep` and `ChatState.EffectStep`. */
module ChatApp {
  import opened Options
  import opened JsValues
  import opened Messages
  import opened ChatState
  import opened ChatProperties

  /** How one press of send ended. */
  datatype SendOutcome =
    | Ignored   // blank input: returned before doing anything
    | Sent      // inserted, broadcast, appended, input cleared
    | Threw     // inserted, then `channelRef.current.send` on null threw

  class App {
    var session: Option<Session>
    var messages: seq<Msg>
    var usersOnline: seq<string>
    var newMessage: string
    /** `channelRef.current`. */
    var channelRef: Option<nat>
    /** The channel the last run of the session effect returned a cleanup for. */
    var cleanup: Option<nat>
    /** Every channel created so far, by creation order. */
    var channels: seq<ChannelInfo>
    /** Number of history queries started; the k-th is load k. */
    var loadsStarted: nat
    /** History queries whose promise has settled. */
    ghost var loadsSettled: set<nat>
    /** The calls made into the Supabase client, in order. */
    var effects: seq<Effect>

    /** The abstract state of the component. */
    ghost function Model(): State
      reads this
    {
      State(session, messages, usersOnline, newMessage, channelRef, cleanup,
            channels, loadsStarted, loadsSettled, effects)
    }

    ghost predicate Valid()
      reads this
    {
      Inv(Model())
    }

    /** Mounting: every piece of state starts empty and the session effect's first
        run, with no session, only empties the online list. */
    constructor ()
      ensures Valid() && Model() == Initial()
    {
      session, messages, usersOnline, newMessage := None, [], [], "";
      channelRef, cleanup, channels := None, None, [];
      loadsStarted, loadsSettled, effects := 0, {}, [];
    }

    /** `setSession(s)` with a new session object, and the `[session]` effect that
        follows: clean up the previous run, then run again for `s`. */
    method SetSession(s: Option<Session>)
      requires Valid()
      modifies this
      ensures Valid()
      ensures Model() == Step(old(Model()), SessionChanged(s))
      ensures session == s && messages == old(messages) && newMessage == old(newMessage)
      ensures !HasUser(s) ==> usersOnline == [] && channels == old(channels) && channelRef == old(channelRef)
      ensures HasUser(s) ==> channelRef == Some(|old(channels)|) && |channels| == |old(channels)| + 1
    {
      ghost var before := Model();
      session := s;
      CleanupSessionEffect();
      RunSessionEffect();
      SessionStepPreservesInv(before, s);
    }

    /** The cleanup function the last run of the session effect returned. */
    method CleanupSessionEffect()
      modifies this
      ensures Model() == CleanupStep(old(Model()))
    {
      if cleanup.Some? {
        effects := effects + [Unsubscribe(cleanup.value)];
      }
      cleanup := None;
    }

    /** One run of the session effect for the current `session`. */
    method RunSessionEffect()
      modifies this
      ensures Model() == EffectStep(old(Model()))
    {
      if !HasUser(session) {
        usersOnline := [];
        return;
      }
      // loadMessages(): the query is sent, its completion is a later event
      var load := loadsStarted;
      loadsStarted := loadsStarted + 1;
      effects := effects + [LoadHistory(load, MessagesTable, CreatedAtColumn, true)];
      // supabase.channel("room_one", ...), wired and subscribed
      var key := UserId(session);
      var ch := |channels|;
      channels := channels + [ChannelInfo(RoomTopic, key)];
      channelRef := Some(ch);
      effects := effects + [OpenChannel(ch, RoomTopic, key), Listen(ch, "broadcast", MessageEvent),
                            Listen(ch, "presence", SyncEvent), Subscribe(ch)];
      cleanup := Some(ch);
    }

    /** The history query `load` settles: on success its rows replace the messages. */
    method SettleHistory(load: nat, result: LoadResult)
      requires Valid() && load < loadsStarted && load !in loadsSettled
      modifies this
      ensures Valid()
      ensures Model() == Step(old(Model()), HistorySettled(load, result))
      ensures messages == (if result.Loaded? then result.rows else old(messages))
      ensures effects == old(effects) && usersOnline == old(usersOnline)
    {
      ghost var before := Model();
      loadsSettled := loadsSettled + {load};
      if result.Loaded? {
        messages := result.rows;
      }
      StepPreservesInv(before, HistorySettled(load, result));
    }

    /** The "message" broadcast handler of channel `ch` fires with `payload`. */
    method DeliverBroadcast(ch: nat, payload: Msg)
      requires Valid() && ch < |channels|
      modifies this
      ensures Valid()
      ensures Model() == Step(old(Model()), BroadcastDelivered(ch, payload))
      ensures messages == old(messages) + [payload]
    {
      ghost var before := Model();
      messages := messages + [payload];
      StepPreservesInv(before, BroadcastDelivered(ch, payload));
    }

    /** The presence "sync" handler of channel `ch` fires; `keys` are the keys of
        that channel's presence state. */
    method SyncPresence(ch: nat, keys: seq<string>)
      requires Valid() && ch < |channels|
      modifies this
      ensures Valid()
      ensures Model() == Step(old(Model()), PresenceSynced(ch, keys))
      ensures usersOnline == keys
    {
      ghost var before := Model();
      usersOnline := keys;
      StepPreservesInv(before, PresenceSynced(ch, keys));
    }

    /** The subscribe callback of channel `ch` fires with `status`. */
    method ReportStatus(ch: nat, status: string)
      requires Valid() && ch < |channels|
      modifies this
      ensures Valid()
      ensures Model() == Step(old(Model()), StatusReported(ch, status))
      ensures effects == old(effects) + (if status == "SUBSCRIBED" then [Track(ch, channels[ch].presenceKey)] else [])
    {
      ghost var before := Model();
      if status == SubscribedStatus {
        effects := effects + [Track(ch, channels[ch].presenceKey)];
      }
      StepPreservesInv(before, StatusReported(ch, status));
    }

    /** The input's `onChange`. */
    method ChangeInput(text: string)
      requires Valid()
      modifies this
      ensures Valid()
      ensures Model() == Step(old(Model()), InputChanged(text))
      ensures newMessage == text
    {
      ghost var before := Model();
      newMessage := text;
      StepPreservesInv(before, InputChanged(text));
    }

    /** `sendMessage`, with `timestamp` standing for `new Date().toISOString()`. */
    method SendMessage(timestamp: string) returns (outcome: SendOutcome)
      requires Valid()
      modifies this
      ensures Valid()
      ensures Model() == Step(old(Model()), SendPressed(timestamp))
      ensures outcome == Ignored <==> Blank(old(newMessage))
      ensures outcome == Ignored ==> Model() == old(Model())
      ensures outcome == Threw <==> !Blank(old(newMessage)) && old(channelRef).None?
      ensures outcome == Sent ==>
        (effects == old(effects) + [Insert(OutgoingRow(old(Model()))),
                                    Send(old(channelRef).value, "broadcast", "message", OutgoingPayload(old(Model()), timestamp))]
         && messages == old(messages) + [OutgoingPayload(old(Model()), timestamp)]
         && newMessage == "")
    {
      ghost var before := Model();
      var blank := TrimIsEmpty(newMessage);
      if blank {
        assert Model() == SendStep(before, timestamp);
        return Ignored;
      }
      var message := BroadcastPayload(newMessage, Email(session), Avatar(session), timestamp);
      assert message == OutgoingPayload(before, timestamp);
      effects := effects + [Insert(InsertedRow(UserId(session), message.userName, message.avatar, message.message.s))];
      assert effects == before.effects + [Insert(OutgoingRow(before))];
      if channelRef.None? {
        assert Model() == SendStep(before, timestamp);
        StepPreservesInv(before, SendPressed(timestamp));
        return Threw;
      }
      effects := effects + [Send(channelRef.value, "broadcast", MessageEvent, message)];
      messages := messages + [message];
      newMessage := "";
      assert Model() == SendStep(before, timestamp);
      StepPreservesInv(before, SendPressed(timestamp));
      return Sent;
    }
  }
}
