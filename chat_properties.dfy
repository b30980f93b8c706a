/** What the chat component guarantees, and what it does not, stated about the
    transitions of `ChatState`. */
module ChatProperties {
  import opened Options
  import opened JsValues
  import opened Messages
  import opened ChatState

  // ---------------------------------------------------------------------------
  // The invariant holds from mount on, through every feasible run of events.

  lemma InitialSatisfiesInv()
    ensures Inv(Initial())
  {
  }

  /** Extending a trace with calls that name existing channels and loads keeps it well-formed. */
  lemma TraceWithinAppend(a: seq<Effect>, b: seq<Effect>, n: nat, l: nat, n': nat, l': nat)
    requires TraceWithin(a, n, l) && n <= n' && l <= l' && TraceWithin(b, n', l')
    ensures TraceWithin(a + b, n', l')
  {
    forall i | 0 <= i < |a + b| ensures EffectWithin((a + b)[i], n', l') {
      if i < |a| {
        assert (a + b)[i] == a[i];
        assert EffectWithin(a[i], n, l);
      } else {
        assert (a + b)[i] == b[i - |a|];
      }
    }
  }

  /** A well-formed trace has not unsubscribed a channel that does not exist yet. */
  lemma NotClosedBeyond(effects: seq<Effect>, n: nat, l: nat)
    requires TraceWithin(effects, n, l)
    ensures !Closed(effects, n)
  {
  }

  lemma SessionStepPreservesInv(st: State, s: Option<Session>)
    requires Inv(st)
    ensures Inv(SessionStep(st, s))
  {
    var st' := SessionStep(st, s);
    var torn := st.effects + Teardown(st.cleanup);
    TraceWithinAppend(st.effects, Teardown(st.cleanup), |st.channels|, st.loadsStarted, |st.channels|, st.loadsStarted);
    if HasUser(s) {
      var ch := |st.channels|;
      TraceWithinAppend(torn, Setup(st.loadsStarted, ch, UserId(s)), |st.channels|, st.loadsStarted, ch + 1, st.loadsStarted + 1);
      NotClosedBeyond(st.effects, ch, st.loadsStarted);
      forall c | 0 <= c < |st'.channels| ensures Closed(st'.effects, c) <==> st'.cleanup != Some(c) {
        assert st'.effects == st.effects + Teardown(st.cleanup) + Setup(st.loadsStarted, ch, UserId(s));
        assert Closed(st'.effects, c) <==> Closed(st.effects, c) || Teardown(st.cleanup) == [Unsubscribe(c)];
      }
    } else {
      forall c | 0 <= c < |st'.channels| ensures Closed(st'.effects, c) <==> st'.cleanup != Some(c) {
        assert Closed(st'.effects, c) <==> Closed(st.effects, c) || Teardown(st.cleanup) == [Unsubscribe(c)];
      }
    }
  }

  /** Appending calls that unsubscribe nothing and name existing channels keeps the invariant. */
  lemma AppendedCallsPreserveInv(st: State, extra: seq<Effect>)
    requires Inv(st) && TraceWithin(extra, |st.channels|, st.loadsStarted)
    requires forall i :: 0 <= i < |extra| ==> !extra[i].Unsubscribe?
    ensures Inv(st.(effects := st.effects + extra))
  {
    TraceWithinAppend(st.effects, extra, |st.channels|, st.loadsStarted, |st.channels|, st.loadsStarted);
    forall c | 0 <= c < |st.channels| ensures Closed(st.effects + extra, c) <==> Closed(st.effects, c) {
    }
  }

  lemma SendStepPreservesInv(st: State, timestamp: string)
    requires Inv(st)
    ensures Inv(SendStep(st, timestamp))
  {
    if !Blank(st.newMessage) {
      var row := [Insert(OutgoingRow(st))];
      assert EffectWithin(row[0], |st.channels|, st.loadsStarted);
      AppendedCallsPreserveInv(st, row);
      if st.channelRef.Some? {
        var both := row + [Send(st.channelRef.value, "broadcast", MessageEvent, OutgoingPayload(st, timestamp))];
        assert EffectWithin(both[1], |st.channels|, st.loadsStarted);
        AppendedCallsPreserveInv(st, both);
        assert SendStep(st, timestamp) == st.(effects := st.effects + both).(
          messages := st.messages + [OutgoingPayload(st, timestamp)], newMessage := "");
      }
    }
  }

  lemma StatusStepPreservesInv(st: State, ch: nat, status: string)
    requires Inv(st) && ch < |st.channels|
    ensures Inv(StatusStep(st, ch, status))
  {
    if status == SubscribedStatus {
      var track := [Track(ch, st.channels[ch].presenceKey)];
      assert EffectWithin(track[0], |st.channels|, st.loadsStarted);
      AppendedCallsPreserveInv(st, track);
    }
  }

  lemma StepPreservesInv(st: State, ev: Event)
    requires Inv(st) && Enabled(st, ev)
    ensures Inv(Step(st, ev))
  {
    match ev
    case SessionChanged(s) => SessionStepPreservesInv(st, s);
    case StatusReported(ch, status) => StatusStepPreservesInv(st, ch, status);
    case SendPressed(ts) => SendStepPreservesInv(st, ts);
    case _ =>
  }

  /** Every state reached from a state satisfying the invariant satisfies it. */
  lemma {:induction false} RunPreservesInv(st: State, evs: seq<Event>)
    requires Inv(st) && Feasible(st, evs)
    ensures Inv(Run(st, evs))
    decreases |evs|
  {
    if evs != [] {
      StepPreservesInv(st, evs[0]);
      RunPreservesInv(Step(st, evs[0]), evs[1..]);
    }
  }

  /** Never two live transports: in every reachable state at most one created
      channel is not unsubscribed; while a user is signed in it is the one
      `channelRef.current` names, and once signed out every channel is
      unsubscribed although `channelRef.current` still names the last one. */
  lemma AtMostOneLiveChannel(evs: seq<Event>)
    requires Feasible(Initial(), evs)
    ensures var st := Run(Initial(), evs);
      (forall c1, c2 ::
         (0 <= c1 < |st.channels| && 0 <= c2 < |st.channels| && !Closed(st.effects, c1) && !Closed(st.effects, c2))
         ==> c1 == c2)
      && (HasUser(st.session) ==> st.channelRef.Some? && st.channelRef.value < |st.channels|
                                  && !Closed(st.effects, st.channelRef.value))
      && (!HasUser(st.session) ==> forall c :: 0 <= c < |st.channels| ==> Closed(st.effects, c))
  {
    RunPreservesInv(Initial(), evs);
  }

  // ---------------------------------------------------------------------------
  // Session changes.

  /** Signing in from no user starts exactly one history load and opens exactly one
      channel, "room_one" keyed by the user id, which `channelRef.current` then
      names; there is nothing to unsubscribe; messages and presence are untouched. */
  lemma SignInOpensOneChannel(st: State, s: Option<Session>)
    requires Inv(st) && !HasUser(st.session) && HasUser(s)
    ensures var st' := Step(st, SessionChanged(s));
      var ch := |st.channels|;
      st'.effects == st.effects + [LoadHistory(st.loadsStarted, "messages", "created_at", true), OpenChannel(ch, "room_one", UserId(s)),
                                   Listen(ch, "broadcast", "message"), Listen(ch, "presence", "sync"), Subscribe(ch)]
      && st'.channels == st.channels + [ChannelInfo("room_one", UserId(s))]
      && st'.channelRef == Some(ch)
      && st'.messages == st.messages && st'.usersOnline == st.usersOnline
  {
  }

  /** Switching from one user session to another unsubscribes the previous
      channel first, and only then loads history and opens the next one. The
      online list of the old channel and the typed text stay as they were until
      the new channel syncs. */
  lemma SwitchClosesBeforeOpening(st: State, s: Option<Session>)
    requires Inv(st) && HasUser(st.session) && HasUser(s)
    ensures st.channelRef.Some?
    ensures var st' := Step(st, SessionChanged(s));
      var ch := |st.channels|;
      st'.effects == st.effects + [Unsubscribe(st.channelRef.value)] + Setup(st.loadsStarted, ch, UserId(s))
      && Closed(st'.effects, st.channelRef.value) && !Closed(st'.effects, ch)
      && st'.channelRef == Some(ch)
      && st'.messages == st.messages
      && st'.usersOnline == st.usersOnline && st'.newMessage == st.newMessage
  {
    SessionStepPreservesInv(st, s);
  }

  /** Signing out (a session without a user) empties the online list and
      unsubscribes the channel, but keeps every message, starts no load, creates
      no channel and leaves `channelRef.current` on the old channel. */
  lemma SignOutKeepsMessages(st: State, s: Option<Session>)
    requires Inv(st) && !HasUser(s)
    ensures var st' := Step(st, SessionChanged(s));
      st'.usersOnline == []
      && st'.messages == st.messages
      && st'.channels == st.channels && st'.loadsStarted == st.loadsStarted
      && st'.channelRef == st.channelRef
      && st'.effects == st.effects + (if HasUser(st.session) then [Unsubscribe(st.channelRef.value)] else [])
      && forall c :: 0 <= c < |st'.channels| ==> Closed(st'.effects, c)
  {
    SessionStepPreservesInv(st, s);
  }

  // ---------------------------------------------------------------------------
  // History loads, broadcasts, presence and subscribe status.

  /** A successful history load replaces the messages wholesale with the rows;
      a failed one leaves them as they were. Either way nothing else changes. */
  lemma HistorySettleReplacesOrKeeps(st: State, load: nat, result: LoadResult)
    requires Enabled(st, HistorySettled(load, result))
    ensures var st' := Step(st, HistorySettled(load, result));
      st'.messages == (if result.Loaded? then result.rows else st.messages)
      && st'.effects == st.effects && st'.usersOnline == st.usersOnline
      && st'.channelRef == st.channelRef && st'.session == st.session
  {
  }

  /** History completion is not ordered with the channel: a broadcast admitted
      before the load settles is overwritten by the loaded rows. */
  lemma LateHistoryOverwritesBroadcast(st: State, ch: nat, payload: Msg, load: nat, rows: seq<Msg>)
    requires ch < |st.channels| && load < st.loadsStarted && load !in st.loadsSettled
    ensures var st1 := Step(st, BroadcastDelivered(ch, payload));
      Enabled(st1, HistorySettled(load, Loaded(rows)))
      && Step(st1, HistorySettled(load, Loaded(rows))).messages == rows
  {
  }

  /** A delivered broadcast appends exactly its payload at the end; every earlier
      entry stays where it was. This holds for any created channel, including one
      already unsubscribed: late callbacks are not discarded. */
  lemma BroadcastAppendsOne(st: State, ch: nat, payload: Msg)
    requires ch < |st.channels|
    ensures var st' := Step(st, BroadcastDelivered(ch, payload));
      |st'.messages| == |st.messages| + 1
      && st'.messages[|st.messages|] == payload
      && st'.messages[..|st.messages|] == st.messages
      && st'.effects == st.effects && st'.usersOnline == st.usersOnline
  {
  }

  /** A presence sync replaces the online list with the keys of the current
      presence state; nothing of the previous list is carried over. */
  lemma PresenceSyncReplaces(st: State, ch: nat, keys: seq<string>)
    requires ch < |st.channels|
    ensures var st' := Step(st, PresenceSynced(ch, keys));
      st'.usersOnline == keys && st'.messages == st.messages && st'.effects == st.effects
  {
  }

  /** Two syncs, `{A, B}` and then `{A}`, leave just `[A]`. */
  lemma PresenceSnapshotsDoNotAccumulate(st: State, ch: nat, a: string, b: string)
    requires ch < |st.channels|
    ensures var st1 := Step(st, PresenceSynced(ch, [a, b]));
      st1.usersOnline == [a, b] && Step(st1, PresenceSynced(ch, [a])).usersOnline == [a]
  {
  }

  /** Only the status "SUBSCRIBED" makes the channel track `{id}`, with the user id
      the channel was created for; any other status does nothing. */
  lemma StatusTracksOnlyWhenSubscribed(st: State, ch: nat, status: string)
    requires ch < |st.channels|
    ensures var st' := Step(st, StatusReported(ch, status));
      st'.effects == st.effects + (if status == "SUBSCRIBED" then [Track(ch, st.channels[ch].presenceKey)] else [])
      && st'.messages == st.messages && st'.usersOnline == st.usersOnline
  {
  }

  /** The id a channel tracks is the id of the user it was opened for. */
  lemma TrackedIdIsOpeningUser(st: State, s: Option<Session>)
    requires Inv(st) && HasUser(s)
    ensures var st' := Step(st, SessionChanged(s));
      st'.channels[|st.channels|].presenceKey == UserId(s)
      && Step(st', StatusReported(|st.channels|, "SUBSCRIBED")).effects == st'.effects + [Track(|st.channels|, UserId(s))]
  {
  }

  // ---------------------------------------------------------------------------
  // Sending.

  /** A blank input (empty or only whitespace) sends nothing: no insert, no
      broadcast, no append, and the input keeps its text. */
  lemma BlankSendDoesNothing(st: State, timestamp: string)
    requires Blank(st.newMessage)
    ensures Step(st, SendPressed(timestamp)) == st
  {
  }

  /** A non-blank send with a channel inserts the row, then broadcasts the payload
      on `channelRef.current`, then appends that payload as the one new last
      message and clears the input. The insert's outcome plays no part. */
  lemma SendInsertsBroadcastsAppends(st: State, timestamp: string)
    requires !Blank(st.newMessage) && st.channelRef.Some?
    ensures var st' := Step(st, SendPressed(timestamp));
      var payload := BroadcastPayload(st.newMessage, Email(st.session), Avatar(st.session), timestamp);
      st'.effects == st.effects + [Insert(InsertedRow(UserId(st.session), Email(st.session), Avatar(st.session), st.newMessage)),
                                   Send(st.channelRef.value, "broadcast", "message", payload)]
      && st'.messages == st.messages + [payload]
      && |st'.messages| == |st.messages| + 1
      && st'.newMessage == ""
      && st'.usersOnline == st.usersOnline && st'.channelRef == st.channelRef
  {
  }

  /** The entry a send appends shows the typed text and is drawn as the sender's own. */
  lemma SentEntryShowsTypedText(st: State, timestamp: string)
    requires !Blank(st.newMessage)
    ensures ShownText(OutgoingPayload(st, timestamp)) == Str(st.newMessage)
    ensures timestamp != "" ==> ShownTime(OutgoingPayload(st, timestamp)) == Str(timestamp)
    ensures IsOwn(OutgoingPayload(st, timestamp), Email(st.session))
  {
  }

  /** With no channel yet, a non-blank send inserts the row and then fails:
      `channelRef.current.send` throws, so nothing is broadcast or appended and the
      input keeps its text. */
  lemma SendWithoutChannelOnlyInserts(st: State, timestamp: string)
    requires !Blank(st.newMessage) && st.channelRef.None?
    ensures Step(st, SendPressed(timestamp))
         == st.(effects := st.effects + [Insert(InsertedRow(UserId(st.session), Email(st.session), Avatar(st.session), st.newMessage))])
  {
  }

  // ---------------------------------------------------------------------------
  // Runs of events.

  /** `evs` contains no successful history load. */
  predicate NoLoadedHistory(evs: seq<Event>) {
    forall i :: 0 <= i < |evs| ==> !(evs[i].HistorySettled? && evs[i].result.Loaded?)
  }

  /** The entries one event admits at the end of the messages: a broadcast's
      payload, the local copy of a non-blank send made while a channel exists,
      and nothing for any other event (a successful history load aside). */
  function AdmittedBy(st: State, ev: Event): seq<Msg> {
    match ev
    case BroadcastDelivered(_, payload) => [payload]
    case SendPressed(timestamp) =>
      if !Blank(st.newMessage) && st.channelRef.Some? then [OutgoingPayload(st, timestamp)] else []
    case _ => []
  }

  /** The entries a feasible run admits, in admission order. */
  function Admitted(st: State, evs: seq<Event>): seq<Msg>
    requires Feasible(st, evs)
    decreases |evs|
  {
    if evs == [] then [] else AdmittedBy(st, evs[0]) + Admitted(Step(st, evs[0]), evs[1..])
  }

  /** One event other than a successful history load appends exactly what it admits. */
  lemma StepAdmits(st: State, ev: Event)
    requires Enabled(st, ev) && !(ev.HistorySettled? && ev.result.Loaded?)
    ensures Step(st, ev).messages == st.messages + AdmittedBy(st, ev)
  {
  }

  /** The message log: over any run without a successful history load, the
      messages are the earlier ones followed by exactly the entries admitted,
      broadcasts and local copies mixed, in admission order. Nothing, signing out
      included, removes or reorders an entry. */
  lemma {:induction false} MessagesAreAdmissionLog(st: State, evs: seq<Event>)
    requires Feasible(st, evs) && NoLoadedHistory(evs)
    ensures Run(st, evs).messages == st.messages + Admitted(st, evs)
    ensures st.messages <= Run(st, evs).messages
    decreases |evs|
  {
    if evs != [] {
      var st1 := Step(st, evs[0]);
      assert !(evs[0].HistorySettled? && evs[0].result.Loaded?);
      StepAdmits(st, evs[0]);
      assert NoLoadedHistory(evs[1..]) by {
        forall i | 0 <= i < |evs[1..]| ensures !(evs[1..][i].HistorySettled? && evs[1..][i].result.Loaded?) {
          assert evs[1..][i] == evs[i + 1];
        }
      }
      MessagesAreAdmissionLog(st1, evs[1..]);
      assert Run(st, evs) == Run(st1, evs[1..]);
      assert Admitted(st, evs) == AdmittedBy(st, evs[0]) + Admitted(st1, evs[1..]);
      assert st.messages + AdmittedBy(st, evs[0]) + Admitted(st1, evs[1..]) == st.messages + Admitted(st, evs);
    }
  }

  /** History `[hi]`, then the local copy of a send of "yo", then a broadcast
      "hey" from someone else: the messages are `[hi, yo, hey]`. */
  lemma HistoryThenEchoThenBroadcast(st: State, load: nat, hi: Msg, hey: Msg, ch: nat, t1: string)
    requires load < st.loadsStarted && load !in st.loadsSettled
    requires st.newMessage == "yo" && st.channelRef.Some? && ch < |st.channels|
    ensures var st1 := Step(st, HistorySettled(load, Loaded([hi])));
      var st2 := Step(st1, SendPressed(t1));
      Enabled(st2, BroadcastDelivered(ch, hey))
      && Step(st2, BroadcastDelivered(ch, hey)).messages == [hi, OutgoingPayload(st, t1), hey]
  {
    var st1 := Step(st, HistorySettled(load, Loaded([hi])));
    assert st1.newMessage[0] == 'y' && !IsTrimmable('y');
    assert !Blank(st1.newMessage);
    assert OutgoingPayload(st1, t1) == OutgoingPayload(st, t1);
  }

  /** The payloads of a run of broadcast deliveries, in delivery order. */
  function Payloads(evs: seq<Event>): seq<Msg>
    requires forall i :: 0 <= i < |evs| ==> evs[i].BroadcastDelivered?
  {
    if evs == [] then [] else [evs[0].payload] + Payloads(evs[1..])
  }

  /** After a run of N broadcasts the messages are the earlier ones followed by
      the N payloads in arrival order. */
  lemma {:induction false} BroadcastsAppendInOrder(st: State, evs: seq<Event>)
    requires forall i :: 0 <= i < |evs| ==> evs[i].BroadcastDelivered?
    requires Feasible(st, evs)
    ensures Run(st, evs).messages == st.messages + Payloads(evs)
    ensures |Run(st, evs).messages| == |st.messages| + |evs|
    decreases |evs|
  {
    if evs != [] {
      var st1 := Step(st, evs[0]);
      assert st1.messages == st.messages + [evs[0].payload];
      assert Run(st, evs) == Run(st1, evs[1..]);
      assert Payloads(evs) == [evs[0].payload] + Payloads(evs[1..]);
      BroadcastsAppendInOrder(st1, evs[1..]);
      assert st.messages + [evs[0].payload] + Payloads(evs[1..]) == st.messages + Payloads(evs);
    }
  }
}
