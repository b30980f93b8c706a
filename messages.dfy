/** The entries of the chat's `messages` array and the expressions that display them.
    Two shapes of JavaScript object end up in that array: rows of the `messages`
    table (loaded history) and broadcast payloads (live messages and the sender's
    local copy). Both are modelled by one record whose fields a shape does not
    carry are `Undefined`. */
module Messages {
  import opened JsValues

  /** A message object, by the properties the chat component reads or writes.
      Row shape: `user_id`, `user_name`, `avatar`, `content`, `created_at`.
      Payload shape: `message`, `user_name`, `avatar`, `timestamp`. */
  datatype Msg = Msg(
    userId: JsVal,
    userName: JsVal,
    avatar: JsVal,
    content: JsVal,
    message: JsVal,
    createdAt: JsVal,
    timestamp: JsVal)

  /** The object handed to `insert`: `{user_id, user_name, avatar, content}`;
      `created_at` is left for the store to fill in. */
  function InsertedRow(userId: JsVal, userName: JsVal, avatar: JsVal, text: string): Msg {
    Msg(userId, userName, avatar, Str(text), Undefined, Undefined, Undefined)
  }

  /** A column value as the store keeps it: the insert body travels as JSON, which
      drops `undefined` properties, so such a column is stored, and read back, as `null`. */
  function Stored(v: JsVal): (r: JsVal)
    ensures r != Undefined
    ensures v.Undefined? ==> r == Null
    ensures v != Undefined ==> r == v
  {
    if v.Undefined? then Null else v
  }

  /** The row as a later history load returns it: the inserted columns as stored,
      with the `created_at` the store has assigned; the table has no `message` or
      `timestamp` column, so those properties are absent. */
  function Persisted(row: Msg, createdAt: JsVal): (r: Msg)
    ensures r.userId == Stored(row.userId) && r.userName == Stored(row.userName) && r.avatar == Stored(row.avatar)
    ensures r.content == Stored(row.content) && r.createdAt == createdAt
    ensures r.message == Undefined && r.timestamp == Undefined
  {
    Msg(Stored(row.userId), Stored(row.userName), Stored(row.avatar), Stored(row.content),
        Undefined, createdAt, Undefined)
  }

  /** The broadcast payload `{message, user_name, avatar, timestamp}` built by a send. */
  function BroadcastPayload(text: string, userName: JsVal, avatar: JsVal, timestamp: string): Msg {
    Msg(Undefined, userName, avatar, Undefined, Str(text), Undefined, Str(timestamp))
  }

  /** The text shown for a message, `msg.content || msg.message`: a row's non-empty
      `content` wins; otherwise the payload's `message`, which may itself be missing. */
  function ShownText(m: Msg): (r: JsVal)
    ensures r == m.content || r == m.message
    ensures Truthy(m.content) ==> r == m.content
    ensures !Truthy(m.content) ==> r == m.message
    ensures Truthy(r) <==> Truthy(m.content) || Truthy(m.message)
  {
    Or(m.content, m.message)
  }

  /** The time string handed to the formatter, `msg.created_at || msg.timestamp`. */
  function ShownTime(m: Msg): (r: JsVal)
    ensures r == m.createdAt || r == m.timestamp
    ensures Truthy(m.createdAt) ==> r == m.createdAt
    ensures !Truthy(m.createdAt) ==> r == m.timestamp
    ensures Truthy(r) <==> Truthy(m.createdAt) || Truthy(m.timestamp)
  {
    Or(m.createdAt, m.timestamp)
  }

  /** A message is drawn on the viewer's own side when `msg.user_name === email`,
      with strict equality: a missing name matches a missing email, `null` does
      not match `undefined`. */
  function IsOwn(m: Msg, viewerEmail: JsVal): (r: bool)
    ensures r <==> m.userName == viewerEmail
    ensures m.userName.Str? && viewerEmail.Str? ==> (r <==> m.userName.s == viewerEmail.s)
    ensures m.userName.Str? != viewerEmail.Str? ==> !r
  {
    m.userName == viewerEmail
  }

  /** The two copies of one send, the local payload and the row that a later
      history load returns, display the same text and, when an email was sent
      along, the same ownership. */
  lemma CopiesOfOneSendDisplayAlike(userId: JsVal, userName: JsVal, avatar: JsVal,
                                    text: string, timestamp: string, createdAt: JsVal, viewerEmail: JsVal)
    requires text != ""
    ensures ShownText(BroadcastPayload(text, userName, avatar, timestamp)) == Str(text)
    ensures ShownText(Persisted(InsertedRow(userId, userName, avatar, text), createdAt)) == Str(text)
    ensures userName != Undefined ==>
      IsOwn(BroadcastPayload(text, userName, avatar, timestamp), viewerEmail)
        == IsOwn(Persisted(InsertedRow(userId, userName, avatar, text), createdAt), viewerEmail)
  {
  }

  /** A sender whose metadata has no email sends `user_name: undefined`: the local
      copy is drawn as their own, but the reloaded row, whose `user_name` came back
      `null`, is drawn as someone else's. */
  lemma NamelessSendOwnOnlyLocally(userId: JsVal, avatar: JsVal, text: string,
                                   timestamp: string, createdAt: JsVal)
    ensures IsOwn(BroadcastPayload(text, Undefined, avatar, timestamp), Undefined)
    ensures !IsOwn(Persisted(InsertedRow(userId, Undefined, avatar, text), createdAt), Undefined)
  {
  }

  /** The time shown for the local payload is its send timestamp; for a loaded
      row it is the store's `created_at` whenever that is set. */
  lemma ShownTimeOfEachShape(row: Msg, createdAt: JsVal, text: string, userName: JsVal,
                             avatar: JsVal, timestamp: string)
    ensures timestamp != "" ==> ShownTime(BroadcastPayload(text, userName, avatar, timestamp)) == Str(timestamp)
    ensures Truthy(createdAt) ==> ShownTime(Persisted(row, createdAt)) == createdAt
  {
  }
}
