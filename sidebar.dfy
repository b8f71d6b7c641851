/**
 * The sidebar's data: the room, channel and conversation lists loaded by `refreshData`, and the
 * case-insensitive name filters over rooms and channels.
 */
module Sidebar {
  import opened Wrappers
  import opened JsText
  import opened Responses
  import opened ChatHistory
  import opened UserNames
  import opened Subsequence

  /** A room, channel or conversation entry: its id and the label shown. */
  datatype ChatItem = ChatItem(id: string, name: string)

  /** A conversation as the server lists it: its own id, and optionally the peer's id and name. */
  datatype RawConversation = RawConversation(id: string, userId: Option<string>, username: Option<string>)

  const RoomsUrl := "/api/rooms?userId="
  const ChannelsUrl := "/api/channels?userId="
  const ConversationsUrl := "/api/private-messages/conversations?userId="
  const UsersPrefix := "/api/users/"

  /**
   * `res.json().then(data => Array.isArray(data) ? data : data.<field> || []).catch(() => [])`.
   * The HTTP status is not consulted: an error reply whose body parses is normalised like any other.
   */
  function ListOrEmpty<T>(reply: Reply<T>): (r: seq<T>)
    ensures reply.Response? && reply.body.Some? ==> r == Normalize(reply.body.value)
    ensures reply.NetworkError? || reply.body.None? ==> r == []
  {
    match reply
    case NetworkError => []
    case Response(_, body) => if body.Some? then Normalize(body.value) else []
  }

  /** Unlike the history loader, the sidebar lists a parsed error reply as if it had succeeded. */
  lemma SidebarIgnoresStatus<T>(b: Body<T>)
    ensures ListOrEmpty(Response(false, Some(b))) == ListOrEmpty(Response(true, Some(b))) == Normalize(b)
    ensures LoadedMessages(Response(false, Some(Wrapped(Some([]))))) == []
  {
  }

  /** `conv.userId || conv._id`. */
  function ConversationId(c: RawConversation): string
  {
    if Truthy(c.userId) then c.userId.value else c.id
  }

  /** Whether the entry needs `GET /api/users/<id>` because the conversation carries no name. */
  predicate NeedsLookup(c: RawConversation)
  {
    !Truthy(c.username)
  }

  /** The entry for one conversation: its name as listed, else the looked-up name, else `User <id>`. */
  function ConversationItem(c: RawConversation, lookup: string -> LookupResult): (item: ChatItem)
    ensures item.id == ConversationId(c)
    ensures item.name != ""
    ensures !NeedsLookup(c) ==> item.name == c.username.value
    ensures NeedsLookup(c) ==> item.name == ResolvedName(item.id, lookup(item.id))
  {
    var id := ConversationId(c);
    ChatItem(id, if NeedsLookup(c) then ResolvedName(id, lookup(id)) else c.username.value)
  }

  /** `Promise.all(raw.map(...))`: one entry per conversation, in the listed order. */
  function EnrichConversations(raw: seq<RawConversation>, lookup: string -> LookupResult): (r: seq<ChatItem>)
    ensures |r| == |raw|
    ensures forall i :: 0 <= i < |raw| ==> r[i] == ConversationItem(raw[i], lookup)
  {
    if raw == [] then [] else [ConversationItem(raw[0], lookup)] + EnrichConversations(raw[1..], lookup)
  }

  /** The user lookups the enrichment issues: one per conversation without a name, in order. */
  function LookupUrls(raw: seq<RawConversation>): (r: seq<string>)
    ensures |r| <= |raw|
    ensures forall c :: c in raw && NeedsLookup(c) ==> UsersPrefix + ConversationId(c) in r
    ensures forall u :: u in r ==> exists c :: c in raw && NeedsLookup(c) && u == UsersPrefix + ConversationId(c)
  {
    if raw == [] then []
    else (if NeedsLookup(raw[0]) then [UsersPrefix + ConversationId(raw[0])] else []) + LookupUrls(raw[1..])
  }

  /** `name.toLowerCase().includes(query.toLowerCase())`. */
  predicate NameMatches(item: ChatItem, query: string)
  {
    Includes(Lower(item.name), Lower(query))
  }

  /** `items.filter(NameMatches)`: the matching entries, in their order, each as often as listed. */
  function FilterByName(items: seq<ChatItem>, query: string): (r: seq<ChatItem>)
    ensures IsSubsequence(r, items)
    ensures forall x :: x in r <==> x in items && NameMatches(x, query)
  {
    if items == [] then []
    else
      var rest := FilterByName(items[1..], query);
      assert forall x :: x in items <==> x == items[0] || x in items[1..];
      if NameMatches(items[0], query) then
        var r := [items[0]] + rest;
        assert r[1..] == rest;
        r
      else rest
  }

  /** The filter keeps every matching entry as many times as it is listed, and nothing else. */
  lemma {:induction false} FilterByNameCounts(items: seq<ChatItem>, query: string)
    ensures forall x ::
      multiset(FilterByName(items, query))[x] == if NameMatches(x, query) then multiset(items)[x] else 0
  {
    if items != [] {
      FilterByNameCounts(items[1..], query);
      assert items == [items[0]] + items[1..];
      assert multiset(items) == multiset{items[0]} + multiset(items[1..]);
    }
  }

  /** Filtering a concatenation filters each part: the relative order of kept entries is unchanged. */
  lemma {:induction false} FilterConcat(a: seq<ChatItem>, b: seq<ChatItem>, query: string)
    ensures FilterByName(a + b, query) == FilterByName(a, query) + FilterByName(b, query)
  {
    if a == [] {
      assert a + b == b;
    } else {
      assert (a + b)[1..] == a[1..] + b;
      FilterConcat(a[1..], b, query);
    }
  }

  /** An empty search keeps every entry. */
  lemma {:induction false} EmptyQueryKeepsAll(items: seq<ChatItem>)
    ensures FilterByName(items, "") == items
  {
    if items != [] {
      IncludesEmpty(Lower(items[0].name));
      EmptyQueryKeepsAll(items[1..]);
    }
  }

  /** The search ignores the case of ASCII letters in the query: queries equal up to case filter alike. */
  lemma {:induction false} QueryCaseIgnored(items: seq<ChatItem>, q1: string, q2: string)
    ensures Lower(q1) == Lower(q2) ==> FilterByName(items, q1) == FilterByName(items, q2)
    ensures FilterByName(items, Lower(q1)) == FilterByName(items, q1)
  {
    LowerIdempotent(q1);
    if items != [] {
      QueryCaseIgnored(items[1..], q1, q2);
      QueryCaseIgnored(items[1..], Lower(q1), q1);
    }
  }

  /** The sidebar's lists, its two search fields and the requests it has made. */
  class Panel {
    var userId: string
    var rooms: seq<ChatItem>
    var channels: seq<ChatItem>
    var conversations: seq<ChatItem>
    var searchRoom: string
    var searchChannel: string
    var requests: seq<string>

    constructor(userId: string)
      ensures this.userId == userId && rooms == [] && channels == [] && conversations == []
      ensures searchRoom == "" && searchChannel == "" && requests == []
    {
      this.userId := userId;
      rooms := [];
      channels := [];
      conversations := [];
      searchRoom := "";
      searchChannel := "";
      requests := [];
    }

    /**
     * `refreshData` with the three replies and the user lookups given: each list is its reply's
     * array, or empty on any failure.
     */
    method RefreshData(roomsReply: Reply<ChatItem>, channelsReply: Reply<ChatItem>,
                       conversationsReply: Reply<RawConversation>, lookup: string -> LookupResult)
      modifies this`rooms, this`channels, this`conversations, this`requests
      ensures rooms == ListOrEmpty(roomsReply)
      ensures channels == ListOrEmpty(channelsReply)
      ensures conversations == EnrichConversations(ListOrEmpty(conversationsReply), lookup)
      ensures requests == old(requests) + [RoomsUrl + userId, ChannelsUrl + userId, ConversationsUrl + userId]
                          + LookupUrls(ListOrEmpty(conversationsReply))
    {
      requests := requests + [RoomsUrl + userId, ChannelsUrl + userId, ConversationsUrl + userId];
      rooms := ListOrEmpty(roomsReply);
      channels := ListOrEmpty(channelsReply);
      var raw := ListOrEmpty(conversationsReply);
      requests := requests + LookupUrls(raw);
      conversations := EnrichConversations(raw, lookup);
    }

    method SetSearchRoom(q: string)
      modifies this`searchRoom
      ensures searchRoom == q
    {
      searchRoom := q;
    }

    method SetSearchChannel(q: string)
      modifies this`searchChannel
      ensures searchChannel == q
    {
      searchChannel := q;
    }

    /** `filteredRooms`: the rooms whose name contains the room search, case-insensitively, in order. */
    function FilteredRooms(): (r: seq<ChatItem>)
      reads this
      ensures IsSubsequence(r, rooms)
      ensures forall x :: x in r <==> x in rooms && NameMatches(x, searchRoom)
      ensures forall x :: multiset(r)[x] == if NameMatches(x, searchRoom) then multiset(rooms)[x] else 0
      ensures searchRoom == "" ==> r == rooms
    {
      EmptyQueryKeepsAll(rooms);
      FilterByNameCounts(rooms, searchRoom);
      FilterByName(rooms, searchRoom)
    }

    /** `filteredChannels`: the same rule over the channels and their own search. */
    function FilteredChannels(): (r: seq<ChatItem>)
      reads this
      ensures IsSubsequence(r, channels)
      ensures forall x :: x in r <==> x in channels && NameMatches(x, searchChannel)
      ensures forall x :: multiset(r)[x] == if NameMatches(x, searchChannel) then multiset(channels)[x] else 0
      ensures searchChannel == "" ==> r == channels
    {
      EmptyQueryKeepsAll(channels);
      FilterByNameCounts(channels, searchChannel);
      FilterByName(channels, searchChannel)
    }
  }
}
