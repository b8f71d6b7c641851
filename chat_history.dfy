/**
 * The message record, the conversation context and the history loader of the chat client
 * (the `useChatHistory` hook): which endpoint a context reads, how its reply is normalised,
 * and how every failure degrades to an empty history.
 */
module ChatHistory {
  import opened Wrappers
  import opened Responses

  /** The four kinds of conversation the client can show. */
  datatype ChatType = Global | Room | Channel | Private

  /**
   * A chat message as the server sends it. `createdAt` is the creation time in milliseconds;
   * the context stamps (`chatType`, `roomId`, `channelId`, `recipientId`) are all optional.
   */
  datatype Message = Message(
    id: string,
    text: string,
    fileUrl: Option<string>,
    userId: string,
    chatType: Option<ChatType>,
    createdAt: Option<int>,
    roomId: Option<string>,
    channelId: Option<string>,
    recipientId: Option<string>)

  /**
   * The active conversation: its kind and the selected room, channel or peer id (absent for the
   * global feed, and possibly absent for the others too).
   */
  datatype Context = Context(chatType: ChatType, selectedId: Option<string>)

  /** JavaScript truthiness of an optional string: present and non-empty. */
  predicate Truthy(o: Option<string>)
  {
    o.Some? && o.value != ""
  }

  predicate HasSelection(ctx: Context)
  {
    Truthy(ctx.selectedId)
  }

  /** The loader's guard: no user, or a non-global context with nothing selected. */
  predicate SkipsLoad(ctx: Context, userId: string)
  {
    userId == "" || (ctx.chatType != Global && !HasSelection(ctx))
  }

  const GlobalUrl: string := "/api/messages"
  const RoomsPrefix: string := "/api/rooms/"
  const ChannelsPrefix: string := "/api/channels/"
  const MessagesQuery: string := "/messages?userId="
  const PrivatePrefix: string := "/api/private-messages?userId="
  const OtherUserQuery: string := "&otherUserId="

  /** The history URL the loader requests; ids are interpolated without any encoding. */
  function HistoryUrl(ctx: Context, userId: string): (url: string)
    ensures ctx.chatType == Global || !HasSelection(ctx) ==> url == GlobalUrl
    ensures ctx.chatType == Room && HasSelection(ctx) ==> RoomsPrefix <= url
    ensures ctx.chatType == Channel && HasSelection(ctx) ==> ChannelsPrefix <= url
    ensures ctx.chatType == Private && HasSelection(ctx) ==> PrivatePrefix <= url
  {
    if ctx.chatType == Room && HasSelection(ctx) then
      RoomsPrefix + ctx.selectedId.value + MessagesQuery + userId
    else if ctx.chatType == Channel && HasSelection(ctx) then
      ChannelsPrefix + ctx.selectedId.value + MessagesQuery + userId
    else if ctx.chatType == Private && HasSelection(ctx) then
      PrivatePrefix + userId + OtherUserQuery + ctx.selectedId.value
    else
      GlobalUrl
  }

  /** The backend's history endpoints and the parameters each one is keyed by. */
  datatype Endpoint =
    | GlobalMessages
    | RoomMessages(roomId: string, userId: string)
    | ChannelMessages(channelId: string, userId: string)
    | PrivateMessages(userId: string, otherUserId: string)

  /** The endpoint a context is meant to read. */
  function Intended(ctx: Context, userId: string): Endpoint
    requires ctx.chatType == Global || HasSelection(ctx)
  {
    match ctx.chatType
    case Global => GlobalMessages
    case Room => RoomMessages(ctx.selectedId.value, userId)
    case Channel => ChannelMessages(ctx.selectedId.value, userId)
    case Private => PrivateMessages(userId, ctx.selectedId.value)
  }

  /** Index of the first `c` in `s`, or `|s|` when there is none. */
  function IndexOf(s: string, c: char): (k: nat)
    ensures k <= |s|
    ensures k < |s| ==> s[k] == c
    ensures forall i :: 0 <= i < k ==> s[i] != c
  {
    if s == [] then 0
    else if s[0] == c then 0
    else 1 + IndexOf(s[1..], c)
  }

  /** Splits `rest` where `sep` first starts (located by its first character). */
  function SplitAt(rest: string, sep: string): Option<(string, string)>
    requires sep != []
  {
    var k := IndexOf(rest, sep[0]);
    if sep <= rest[k..] then Some((rest[..k], rest[k + |sep|..])) else None
  }

  /** How the backend reads a history URL back into an endpoint. */
  function Route(url: string): Option<Endpoint>
  {
    if url == GlobalUrl then Some(GlobalMessages)
    else if RoomsPrefix <= url then
      match SplitAt(url[|RoomsPrefix|..], MessagesQuery)
      case Some((room, user)) => Some(RoomMessages(room, user))
      case None => None
    else if ChannelsPrefix <= url then
      match SplitAt(url[|ChannelsPrefix|..], MessagesQuery)
      case Some((channel, user)) => Some(ChannelMessages(channel, user))
      case None => None
    else if PrivatePrefix <= url then
      match SplitAt(url[|PrivatePrefix|..], OtherUserQuery)
      case Some((user, other)) => Some(PrivateMessages(user, other))
      case None => None
    else None
  }

  lemma {:induction false} SplitAtJoin(a: string, sep: string, b: string)
    requires sep != [] && sep[0] !in a
    ensures SplitAt(a + sep + b, sep) == Some((a, b))
  {
    var s := a + sep + b;
    var k := IndexOf(s, sep[0]);
    assert s[|a|] == sep[0];
    assert k == |a|;
    assert s[k..] == sep + b;
    assert s[..k] == a;
    assert s[k + |sep|..] == b;
  }

  /** Ids that survive interpolation unambiguously: no `/` in a room or channel id, no `&` in the user id of a private query. */
  predicate UrlSafe(ctx: Context, userId: string)
    requires ctx.chatType == Global || HasSelection(ctx)
  {
    match ctx.chatType
    case Global => true
    case Room => '/' !in ctx.selectedId.value
    case Channel => '/' !in ctx.selectedId.value
    case Private => '&' !in userId
  }

  /** Every context the loader does not skip requests exactly the endpoint it is meant to read. */
  lemma {:induction false} HistoryUrlRoutes(ctx: Context, userId: string)
    requires !SkipsLoad(ctx, userId)
    requires UrlSafe(ctx, userId)
    ensures Route(HistoryUrl(ctx, userId)) == Some(Intended(ctx, userId))
  {
    var url := HistoryUrl(ctx, userId);
    match ctx.chatType
    case Global =>
    case Room =>
      var id := ctx.selectedId.value;
      assert url == RoomsPrefix + (id + MessagesQuery + userId);
      assert url[5] == 'r';
      assert url != GlobalUrl;
      assert url[|RoomsPrefix|..] == id + MessagesQuery + userId;
      SplitAtJoin(id, MessagesQuery, userId);
    case Channel =>
      var id := ctx.selectedId.value;
      assert url == ChannelsPrefix + (id + MessagesQuery + userId);
      assert url[5] == 'c';
      assert url != GlobalUrl;
      assert !(RoomsPrefix <= url);
      assert url[|ChannelsPrefix|..] == id + MessagesQuery + userId;
      SplitAtJoin(id, MessagesQuery, userId);
    case Private =>
      var id := ctx.selectedId.value;
      assert url == PrivatePrefix + (userId + OtherUserQuery + id);
      assert url[5] == 'p';
      assert url != GlobalUrl;
      assert !(RoomsPrefix <= url);
      assert !(ChannelsPrefix <= url);
      assert url[|PrivatePrefix|..] == userId + OtherUserQuery + id;
      SplitAtJoin(userId, OtherUserQuery, id);
  }

  /** The history a reply leaves behind: non-empty only for a 2xx reply whose body parsed and carried messages. */
  function LoadedMessages(reply: Reply<Message>): (r: seq<Message>)
    ensures r != [] ==> reply.Response? && reply.ok && reply.body.Some? && Normalize(reply.body.value) == r
  {
    match reply
    case NetworkError => []
    case Response(ok, body) =>
      if !ok then []
      else if body.None? then []
      else Normalize(body.value)
  }

  /** Transport errors, error statuses and unparsable bodies all leave an empty history. */
  lemma FailuresLoadNothing(reply: Reply<Message>)
    requires reply.NetworkError? || !reply.ok || reply.body.None?
    ensures LoadedMessages(reply) == []
  {
  }

  /** Both response shapes load the messages they carry. */
  lemma BothShapesLoad(xs: seq<Message>)
    ensures LoadedMessages(Response(true, Some(BareArray(xs)))) == xs
    ensures LoadedMessages(Response(true, Some(Wrapped(Some(xs))))) == xs
    ensures LoadedMessages(Response(true, Some(Wrapped(None)))) == []
  {
  }

  /** The state of one `useChatHistory` hook: the loaded messages and the URLs it has fetched. */
  class Hook {
    var messages: seq<Message>
    var requests: seq<string>

    constructor()
      ensures messages == [] && requests == []
    {
      messages := [];
      requests := [];
    }

    /**
     * `loadMessages` for the context it was issued for, completed with `reply`. The reply is
     * consulted only when a request is made; there is no check that `ctx` is still current.
     */
    method LoadMessages(ctx: Context, userId: string, reply: Reply<Message>)
      modifies this
      ensures SkipsLoad(ctx, userId) ==> messages == [] && requests == old(requests)
      ensures !SkipsLoad(ctx, userId) ==>
        requests == old(requests) + [HistoryUrl(ctx, userId)] && messages == LoadedMessages(reply)
    {
      if userId == "" || (ctx.chatType != Global && !HasSelection(ctx)) {
        messages := [];
        return;
      }
      var url := HistoryUrl(ctx, userId);
      requests := requests + [url];
      match reply {
        case NetworkError =>
          messages := [];
        case Response(ok, body) =>
          if !ok {
            messages := [];
          } else if body.None? {
            messages := [];
          } else {
            messages := Normalize(body.value);
          }
      }
    }
  }
}
