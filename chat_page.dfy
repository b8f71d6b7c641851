/**
 * The conversation engine of the chat page: the relevance test for pushed messages, the live
 * buffer with its de-duplication, the join events emitted on a context switch, the send pipeline
 * (validation, optional upload, one `sendMessage` emit, input reset) and the user-name effect.
 */
module ChatPage {
  import opened Wrappers
  import opened JsText
  import opened Responses
  import opened ChatHistory
  import opened ChatView
  import opened UserNames

  /**
   * Whether a pushed message belongs to the active context. The id comparisons are on optional
   * values, as JavaScript's `===` on possibly-undefined properties.
   */
  predicate Relevant(msg: Message, ctx: Context, userId: string)
  {
    || (msg.chatType == Some(Global) && ctx.chatType == Global)
    || (msg.roomId == ctx.selectedId && ctx.chatType == Room)
    || (msg.channelId == ctx.selectedId && ctx.chatType == Channel)
    || (ctx.chatType == Private &&
         ((msg.userId == userId && msg.recipientId == ctx.selectedId) ||
          (Some(msg.userId) == ctx.selectedId && msg.recipientId == Some(userId))))
  }

  /** Relevance per kind of context: each kind looks at its own stamp only. */
  lemma RelevanceByContext(msg: Message, ctx: Context, userId: string)
    ensures ctx.chatType == Global ==> (Relevant(msg, ctx, userId) <==> msg.chatType == Some(Global))
    ensures ctx.chatType == Room ==> (Relevant(msg, ctx, userId) <==> msg.roomId == ctx.selectedId)
    ensures ctx.chatType == Channel ==> (Relevant(msg, ctx, userId) <==> msg.channelId == ctx.selectedId)
    ensures ctx.chatType == Private && ctx.selectedId.Some? ==>
      (Relevant(msg, ctx, userId) <==>
        (msg.userId == userId && msg.recipientId == ctx.selectedId) ||
        (msg.userId == ctx.selectedId.value && msg.recipientId == Some(userId)))
  {
  }

  /** Both participants of a private thread accept exactly the same messages. */
  lemma PrivateThreadSymmetric(msg: Message, a: string, b: string)
    ensures Relevant(msg, Context(Private, Some(b)), a) == Relevant(msg, Context(Private, Some(a)), b)
  {
  }

  /** A room context with no id accepts every message that carries no room id. */
  lemma RoomWithoutIdAcceptsRoomless(msg: Message, userId: string)
    requires msg.roomId.None?
    ensures Relevant(msg, Context(Room, None), userId)
  {
  }

  predicate HasId(live: seq<Message>, id: string)
  {
    exists m :: m in live && m.id == id
  }

  ghost predicate DistinctIds(s: seq<Message>)
  {
    forall i, j :: 0 <= i < j < |s| ==> s[i].id != s[j].id
  }

  /** The live buffer after `receiveMessage` delivers `msg`. */
  function Received(live: seq<Message>, msg: Message, ctx: Context, userId: string): (r: seq<Message>)
    ensures r == live || r == live + [msg]
    ensures r != live <==> Relevant(msg, ctx, userId) && !HasId(live, msg.id)
    ensures Relevant(msg, ctx, userId) ==> HasId(r, msg.id)
    ensures DistinctIds(live) ==> DistinctIds(r)
  {
    if Relevant(msg, ctx, userId) then
      if HasId(live, msg.id) then live
      else
        assert (live + [msg])[|live|] == msg;
        live + [msg]
    else live
  }

  /** Delivering the same message twice has the effect of delivering it once. */
  lemma ReceiveIdempotent(live: seq<Message>, msg: Message, ctx: Context, userId: string)
    ensures Received(Received(live, msg, ctx, userId), msg, ctx, userId) == Received(live, msg, ctx, userId)
  {
  }

  /** The live buffer only ever holds messages relevant to its context. */
  lemma ReceivedStaysRelevant(live: seq<Message>, msg: Message, ctx: Context, userId: string)
    requires forall m :: m in live ==> Relevant(m, ctx, userId)
    ensures forall m :: m in Received(live, msg, ctx, userId) ==> Relevant(m, ctx, userId)
  {
  }

  /**
   * De-duplication looks at the live buffer only: a message already loaded as history and then
   * pushed again shows twice in the rendered list.
   */
  lemma HistoryOverlapShowsTwice(msg: Message, ctx: Context, userId: string)
    requires Relevant(msg, ctx, userId)
    ensures multiset(MergedView([msg], Received([], msg, ctx, userId)))[msg] == 2
  {
  }

  /** What the client sends: the `sendMessage` payload, with exactly one context stamp for non-global chats. */
  datatype Payload = Payload(
    userId: string,
    text: string,
    fileUrl: string,
    chatType: ChatType,
    roomId: Option<string>,
    channelId: Option<string>,
    recipientId: Option<string>)

  /** The push-channel events the page emits. */
  datatype Event =
    | JoinRoom(roomId: string, userId: string)
    | JoinChannel(channelId: string, userId: string)
    | SendMessage(payload: Payload)

  /** The join emitted when a context becomes active: one for a selected room or channel, none otherwise. */
  function JoinEvents(ctx: Context, userId: string): (r: seq<Event>)
    ensures |r| <= 1
    ensures r != [] <==> (ctx.chatType == Room || ctx.chatType == Channel) && HasSelection(ctx)
    ensures forall e :: e in r ==>
      match e
      case JoinRoom(room, u) => ctx.chatType == Room && ctx.selectedId == Some(room) && room != "" && u == userId
      case JoinChannel(channel, u) => ctx.chatType == Channel && ctx.selectedId == Some(channel) && channel != "" && u == userId
      case SendMessage(_) => false
  {
    if ctx.chatType == Room && HasSelection(ctx) then [JoinRoom(ctx.selectedId.value, userId)]
    else if ctx.chatType == Channel && HasSelection(ctx) then [JoinChannel(ctx.selectedId.value, userId)]
    else []
  }

  /** A file picked in the input; its contents are not modelled. */
  datatype Attachment = Attachment(name: string)

  /** The outcome of `POST /api/files`: the stored file's URL, or any failure (thrown, unparsable or non-2xx). */
  datatype UploadResult = Uploaded(url: string) | UploadFailed

  /** How a send attempt ends. */
  datatype SendOutcome = Ignored | NoChatSelected | UploadAborted | Sent(payload: Payload)

  /** `!text.trim()`: the text is empty or made only of whitespace. */
  predicate IsBlank(text: string)
    ensures IsBlank(text) <==> forall i :: 0 <= i < |text| ==> IsWhitespace(text[i])
  {
    Trim(text) == ""
  }

  /** The checks before anything leaves the client: something to send, and a selected chat unless global. */
  predicate PassesValidation(text: string, file: Option<Attachment>, ctx: Context)
  {
    !(IsBlank(text) && file.None?) && (ctx.chatType == Global || HasSelection(ctx))
  }

  /** The `messagePayload` object: the selected id goes in the one field named by the chat type. */
  function BuildPayload(userId: string, text: string, fileUrl: string, ctx: Context): (p: Payload)
    ensures p.roomId.Some? ==> ctx.chatType == Room && p.roomId == ctx.selectedId
    ensures p.channelId.Some? ==> ctx.chatType == Channel && p.channelId == ctx.selectedId
    ensures p.recipientId.Some? ==> ctx.chatType == Private && p.recipientId == ctx.selectedId
    ensures ctx.chatType != Global && ctx.selectedId.Some? ==> p.roomId.Some? || p.channelId.Some? || p.recipientId.Some?
  {
    Payload(userId, text, fileUrl, ctx.chatType,
      if ctx.chatType == Room then ctx.selectedId else None,
      if ctx.chatType == Channel then ctx.selectedId else None,
      if ctx.chatType == Private then ctx.selectedId else None)
  }

  /** `handleSend` as a function of its inputs and the upload's outcome. */
  function SendResult(text: string, file: Option<Attachment>, ctx: Context, userId: string, upload: UploadResult): (r: SendOutcome)
    ensures r == Ignored <==> IsBlank(text) && file.None?
    ensures r == NoChatSelected <==> !(IsBlank(text) && file.None?) && ctx.chatType != Global && !HasSelection(ctx)
    ensures r == UploadAborted <==> PassesValidation(text, file, ctx) && file.Some? && upload.UploadFailed?
    ensures r.Sent? <==> PassesValidation(text, file, ctx) && (file.Some? ==> upload.Uploaded?)
    ensures r.Sent? ==>
      && r.payload.userId == userId && r.payload.text == text && r.payload.chatType == ctx.chatType
      && r.payload.fileUrl == (if file.Some? then upload.url else "")
  {
    if IsBlank(text) && file.None? then Ignored
    else if ctx.chatType != Global && !HasSelection(ctx) then NoChatSelected
    else if file.Some? then
      match upload
      case UploadFailed => UploadAborted
      case Uploaded(url) => Sent(BuildPayload(userId, text, url, ctx))
    else Sent(BuildPayload(userId, text, "", ctx))
  }

  /** A message with only spaces, tabs or line breaks and no file never leaves the client. */
  lemma WhitespaceOnlyIsIgnored(text: string, ctx: Context, userId: string, upload: UploadResult)
    requires forall i :: 0 <= i < |text| ==> IsWhitespace(text[i])
    ensures SendResult(text, None, ctx, userId, upload) == Ignored
  {
  }

  /** A sent payload stamps the selected id in exactly the field of its kind, and none for global. */
  lemma SentPayloadStampsOneId(text: string, file: Option<Attachment>, ctx: Context, userId: string, upload: UploadResult)
    requires SendResult(text, file, ctx, userId, upload).Sent?
    ensures var p := SendResult(text, file, ctx, userId, upload).payload;
      && (p.roomId.Some? <==> ctx.chatType == Room)
      && (p.channelId.Some? <==> ctx.chatType == Channel)
      && (p.recipientId.Some? <==> ctx.chatType == Private)
      && (ctx.chatType != Global ==> HasSelection(ctx))
      && (p.roomId.Some? ==> p.roomId == ctx.selectedId)
      && (p.channelId.Some? ==> p.channelId == ctx.selectedId)
      && (p.recipientId.Some? ==> p.recipientId == ctx.selectedId)
  {
  }

  /** The message the server stores for a payload, keeping its fields as sent. */
  function Echo(p: Payload, id: string, createdAt: Option<int>): Message
  {
    Message(id, p.text, if p.fileUrl == "" then None else Some(p.fileUrl), p.userId,
      Some(p.chatType), createdAt, p.roomId, p.channelId, p.recipientId)
  }

  /** A sent message, echoed back on the push channel, is accepted by the sender's own context. */
  lemma SentMessageReturnsToSender(text: string, file: Option<Attachment>, ctx: Context, userId: string,
                                   upload: UploadResult, id: string, createdAt: Option<int>)
    requires SendResult(text, file, ctx, userId, upload).Sent?
    ensures Relevant(Echo(SendResult(text, file, ctx, userId, upload).payload, id, createdAt), ctx, userId)
  {
  }

  /** The label shown for an author whose name is still loading ("Loading..."). */
  const PendingName := "Завантаження..."

  /** The chat page's state: the active context, the live buffer, the input fields and the name cache. */
  class Page {
    const history: Hook
    var userId: string
    var context: Context
    var live: seq<Message>
    var emitted: seq<Event>
    var text: string
    var file: Option<Attachment>
    var uploads: seq<Attachment>
    var usernames: map<string, string>
    var lookups: seq<string>

    /** The live buffer holds distinct messages of the active context only; every cached name is non-empty. */
    ghost predicate Valid()
      reads this
    {
      && DistinctIds(live)
      && (forall m :: m in live ==> Relevant(m, context, userId))
      && NamesNonEmpty(usernames)
    }

    /** Mounting runs the context effect once for the initial context. */
    constructor(userId: string, ctx: Context)
      ensures Valid() && fresh(history) && history.messages == [] && history.requests == []
      ensures this.userId == userId && context == ctx && live == []
      ensures emitted == JoinEvents(ctx, userId)
      ensures text == "" && file == None && uploads == [] && usernames == map[] && lookups == []
    {
      history := new Hook();
      this.userId := userId;
      context := ctx;
      live := [];
      emitted := JoinEvents(ctx, userId);
      text := "";
      file := None;
      uploads := [];
      usernames := map[];
      lookups := [];
    }

    /**
     * The context effect, run when `(chatType, selectedId, userId)` changes: clear the live buffer,
     * then join a selected room or channel. Re-selecting the active context runs nothing.
     */
    method SwitchContext(ctx: Context, user: string)
      requires Valid()
      modifies this`context, this`userId, this`live, this`emitted
      ensures Valid()
      ensures context == ctx && userId == user
      ensures ctx == old(context) && user == old(userId) ==> live == old(live) && emitted == old(emitted)
      ensures !(ctx == old(context) && user == old(userId)) ==>
        live == [] && emitted == old(emitted) + JoinEvents(ctx, user)
    {
      if ctx == context && user == userId {
        return;
      }
      context := ctx;
      userId := user;
      live := [];
      if ctx.chatType == Room && HasSelection(ctx) {
        emitted := emitted + [JoinRoom(ctx.selectedId.value, user)];
      } else if ctx.chatType == Channel && HasSelection(ctx) {
        emitted := emitted + [JoinChannel(ctx.selectedId.value, user)];
      }
    }

    /** `handleReceiveMessage`: append a relevant message unless its id is already live. */
    method Receive(msg: Message)
      requires Valid()
      modifies this`live
      ensures Valid()
      ensures live == Received(old(live), msg, context, userId)
    {
      if Relevant(msg, context, userId) {
        if !HasId(live, msg.id) {
          live := live + [msg];
        }
      }
      ReceivedStaysRelevant(old(live), msg, context, userId);
    }

    /** The history hook's load for the active context, completed with `reply`. */
    method LoadHistory(reply: Reply<Message>)
      requires Valid()
      modifies history
      ensures Valid()
      ensures SkipsLoad(context, userId) ==> history.messages == [] && history.requests == old(history.requests)
      ensures !SkipsLoad(context, userId) ==>
        && history.requests == old(history.requests) + [HistoryUrl(context, userId)]
        && history.messages == LoadedMessages(reply)
    {
      history.LoadMessages(context, userId, reply);
    }

    /** The text input's `onChange`. */
    method EditText(t: string)
      requires Valid()
      modifies this`text
      ensures Valid() && text == t
    {
      text := t;
    }

    /** The file input's `onChange`. */
    method ChooseFile(f: Option<Attachment>)
      requires Valid()
      modifies this`file
      ensures Valid() && file == f
    {
      file := f;
    }

    /** `handleSend`, with `upload` the outcome of the upload should one be made. */
    method Send(upload: UploadResult) returns (outcome: SendOutcome)
      requires Valid()
      modifies this`emitted, this`uploads, this`text, this`file
      ensures Valid()
      ensures outcome == SendResult(old(text), old(file), context, userId, upload)
      ensures emitted == old(emitted) + (if outcome.Sent? then [SendMessage(outcome.payload)] else [])
      ensures uploads == old(uploads) +
        (if PassesValidation(old(text), old(file), context) && old(file).Some? then [old(file).value] else [])
      ensures outcome.Sent? ==> text == "" && file == None
      ensures !outcome.Sent? ==> text == old(text) && file == old(file)
    {
      var t, f := text, file;
      if IsBlank(t) && f.None? {
        return Ignored;
      }
      if context.chatType != Global && !HasSelection(context) {
        return NoChatSelected;
      }
      var fileUrl := "";
      if f.Some? {
        uploads := uploads + [f.value];
        if upload.UploadFailed? {
          return UploadAborted;
        }
        fileUrl := upload.url;
      }
      var payload := BuildPayload(userId, t, fileUrl, context);
      emitted := emitted + [SendMessage(payload)];
      text := "";
      file := None;
      outcome := Sent(payload);
    }

    /** The rendered list: history and live messages in stable time order. */
    function AllMessages(): (r: seq<Message>)
      reads this, history
      ensures Ascending(r)
      ensures multiset(r) == multiset(history.messages) + multiset(live)
    {
      MergedView(history.messages, live)
    }

    /** The user-name effect: look up every author with no cached name, then merge the results. */
    method ResolveUsernames(lookup: string -> LookupResult)
      requires Valid()
      modifies this`usernames, this`lookups
      ensures Valid()
      ensures lookups == old(lookups) + MissingIds(history.messages + live, old(usernames))
      ensures usernames.Keys == old(usernames).Keys + (set id | id in MissingIds(history.messages + live, old(usernames)))
      ensures forall m :: m in history.messages + live ==>
        m.userId in usernames && ShownName(usernames, m.userId, PendingName) == usernames[m.userId]
      ensures forall id :: id in old(usernames) ==> id in usernames && usernames[id] == old(usernames)[id]
      ensures forall id :: id in usernames && id !in old(usernames) ==> usernames[id] == ResolvedName(id, lookup(id))
    {
      var all := history.messages + live;
      var missing := MissingIds(all, usernames);
      if |missing| == 0 {
        ResolutionCoversAuthors(all, usernames, map[]);
        assert MergeNames(usernames, map[]) == usernames;
        return;
      }
      lookups := lookups + missing;
      var names := BuildNameMap(missing, lookup);
      ResolutionCoversAuthors(all, usernames, names);
      MergeKeepsNamesNonEmpty(usernames, names, lookup);
      usernames := MergeNames(usernames, names);
    }
  }
}
