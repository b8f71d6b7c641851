/**
 * The reusable message list: its own user-name cache, and the read mark shown under the current
 * user's latest message.
 */
module MessageList {
  import opened Wrappers
  import opened ChatHistory
  import opened UserNames
  import opened Subsequence

  /** The label shown for an author whose name is still loading. */
  const PendingName := "..."

  /** `userId === currentUserId`, where an absent current user matches no message. */
  predicate IsOwn(m: Message, currentUserId: Option<string>)
  {
    currentUserId == Some(m.userId)
  }

  /** `messages.filter(m => m.userId === currentUserId)`: the own messages, in order, each as often as listed. */
  function OwnMessages(messages: seq<Message>, currentUserId: Option<string>): (r: seq<Message>)
    ensures IsSubsequence(r, messages)
    ensures forall m :: m in r <==> m in messages && IsOwn(m, currentUserId)
  {
    if messages == [] then []
    else
      var rest := OwnMessages(messages[1..], currentUserId);
      assert forall m :: m in messages <==> m == messages[0] || m in messages[1..];
      if IsOwn(messages[0], currentUserId) then
        var r := [messages[0]] + rest;
        assert r[1..] == rest;
        r
      else rest
  }

  /** The filter keeps every own message as many times as it is listed, and nothing else. */
  lemma {:induction false} OwnMessagesCounts(messages: seq<Message>, currentUserId: Option<string>)
    ensures forall m ::
      multiset(OwnMessages(messages, currentUserId))[m] == if IsOwn(m, currentUserId) then multiset(messages)[m] else 0
  {
    if messages != [] {
      OwnMessagesCounts(messages[1..], currentUserId);
      assert messages == [messages[0]] + messages[1..];
      assert multiset(messages) == multiset{messages[0]} + multiset(messages[1..]);
    }
  }

  /** Filtering a concatenation filters each part. */
  lemma {:induction false} OwnMessagesConcat(a: seq<Message>, b: seq<Message>, currentUserId: Option<string>)
    ensures OwnMessages(a + b, currentUserId) == OwnMessages(a, currentUserId) + OwnMessages(b, currentUserId)
  {
    if a == [] {
      assert a + b == b;
    } else {
      assert (a + b)[1..] == a[1..] + b;
      OwnMessagesConcat(a[1..], b, currentUserId);
    }
  }

  /** `.slice(-1)[0]?._id`: the id of the last own message, if any. */
  function LastOwnMessageId(messages: seq<Message>, currentUserId: Option<string>): Option<string>
  {
    var own := OwnMessages(messages, currentUserId);
    if own == [] then None else Some(own[|own| - 1].id)
  }

  /** Position `i` holds the current user's message and no later position does. */
  predicate IsLastOwnAt(messages: seq<Message>, currentUserId: Option<string>, i: int)
  {
    && 0 <= i < |messages|
    && IsOwn(messages[i], currentUserId)
    && forall j :: i < j < |messages| ==> !IsOwn(messages[j], currentUserId)
  }

  /** Appending one message either makes it the last own one or leaves the last own id as it was. */
  lemma LastOwnMessageIdSnoc(init: seq<Message>, last: Message, currentUserId: Option<string>)
    ensures LastOwnMessageId(init + [last], currentUserId) ==
      if IsOwn(last, currentUserId) then Some(last.id) else LastOwnMessageId(init, currentUserId)
  {
    OwnMessagesConcat(init, [last], currentUserId);
    assert [last][1..] == [];
  }

  /** The last own message id is absent exactly when the user wrote nothing. */
  lemma {:induction false} LastOwnMessageIdNone(messages: seq<Message>, currentUserId: Option<string>)
    ensures LastOwnMessageId(messages, currentUserId).None? <==>
      forall j :: 0 <= j < |messages| ==> !IsOwn(messages[j], currentUserId)
  {
    if messages != [] {
      var init := messages[..|messages| - 1];
      var last := messages[|messages| - 1];
      assert messages == init + [last];
      LastOwnMessageIdSnoc(init, last, currentUserId);
      LastOwnMessageIdNone(init, currentUserId);
      if !IsOwn(last, currentUserId) {
        assert forall j :: 0 <= j < |init| ==> messages[j] == init[j];
      }
    }
  }

  /** A present last own message id is the id at the last position holding an own message. */
  lemma {:induction false} LastOwnMessageIdSome(messages: seq<Message>, currentUserId: Option<string>)
    requires LastOwnMessageId(messages, currentUserId).Some?
    ensures exists i ::
      IsLastOwnAt(messages, currentUserId, i) && messages[i].id == LastOwnMessageId(messages, currentUserId).value
  {
    var init := messages[..|messages| - 1];
    var last := messages[|messages| - 1];
    assert messages == init + [last];
    LastOwnMessageIdSnoc(init, last, currentUserId);
    if IsOwn(last, currentUserId) {
      assert IsLastOwnAt(messages, currentUserId, |messages| - 1);
    } else {
      LastOwnMessageIdSome(init, currentUserId);
      var i :| IsLastOwnAt(init, currentUserId, i) && init[i].id == LastOwnMessageId(init, currentUserId).value;
      assert IsLastOwnAt(messages, currentUserId, i);
    }
  }

  /** `showReadStatus && msg._id === lastOwnMessageId`; an absent `showReadStatus` is false. */
  predicate ShowsReadMark(showReadStatus: bool, msg: Message, lastOwn: Option<string>)
  {
    showReadStatus && lastOwn == Some(msg.id)
  }

  /**
   * With distinct ids and the read status on, exactly one rendered message carries the read mark:
   * the current user's latest one. Without own messages, none does.
   */
  lemma ReadMarkOnLatestOwnOnly(messages: seq<Message>, currentUserId: Option<string>, k: int)
    requires forall i, j :: 0 <= i < j < |messages| ==> messages[i].id != messages[j].id
    requires 0 <= k < |messages|
    ensures ShowsReadMark(true, messages[k], LastOwnMessageId(messages, currentUserId)) <==>
      IsLastOwnAt(messages, currentUserId, k)
  {
    if IsLastOwnAt(messages, currentUserId, k) {
      LastOwnMessageIdNone(messages, currentUserId);
      LastOwnMessageIdSome(messages, currentUserId);
      var i :| IsLastOwnAt(messages, currentUserId, i) &&
        messages[i].id == LastOwnMessageId(messages, currentUserId).value;
      assert !(i < k) && !(k < i);
    } else if LastOwnMessageId(messages, currentUserId).Some? {
      LastOwnMessageIdSome(messages, currentUserId);
    }
  }

  /** The message list's name cache and the lookups it has issued. */
  class ListView {
    var usernames: map<string, string>
    var lookups: seq<string>

    ghost predicate Valid()
      reads this
    {
      NamesNonEmpty(usernames)
    }

    constructor()
      ensures Valid() && usernames == map[] && lookups == []
    {
      usernames := map[];
      lookups := [];
    }

    /** The effect run when `messages` changes: look up every author with no cached name, then merge. */
    method ResolveUsernames(messages: seq<Message>, lookup: string -> LookupResult)
      requires Valid()
      modifies this
      ensures Valid()
      ensures lookups == old(lookups) + MissingIds(messages, old(usernames))
      ensures usernames.Keys == old(usernames).Keys + (set id | id in MissingIds(messages, old(usernames)))
      ensures forall m :: m in messages ==>
        m.userId in usernames && ShownName(usernames, m.userId, PendingName) == usernames[m.userId]
      ensures forall id :: id in old(usernames) ==> id in usernames && usernames[id] == old(usernames)[id]
      ensures forall id :: id in usernames && id !in old(usernames) ==> usernames[id] == ResolvedName(id, lookup(id))
    {
      var missing := MissingIds(messages, usernames);
      if |missing| == 0 {
        ResolutionCoversAuthors(messages, usernames, map[]);
        assert MergeNames(usernames, map[]) == usernames;
        return;
      }
      lookups := lookups + missing;
      var names := BuildNameMap(missing, lookup);
      ResolutionCoversAuthors(messages, usernames, names);
      MergeKeepsNamesNonEmpty(usernames, names, lookup);
      usernames := MergeNames(usernames, names);
    }
  }
}
