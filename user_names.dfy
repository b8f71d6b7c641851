/**
 * The user-name cache shared by the chat page and the message list: which author ids still need a
 * lookup, the name each lookup yields (with its `User <id>` fallback), and the merge into the cache.
 */
module UserNames {
  import opened Wrappers
  import opened JsText
  import opened ChatHistory

  /** What `GET /api/users/<id>` yields: a body whose `username` may be missing, or a failure. */
  datatype LookupResult = UserFound(username: Option<string>) | LookupFailed

  function Placeholder(id: string): string
  {
    "User " + id
  }

  /** `data.username || 'User ' + id`, with a failed request caught as the placeholder too. */
  function ResolvedName(id: string, r: LookupResult): (name: string)
    ensures name != ""
    ensures name == Placeholder(id) || r == UserFound(Some(name))
    ensures r.LookupFailed? ==> name == Placeholder(id)
    ensures r.UserFound? && Truthy(r.username) ==> name == r.username.value
  {
    match r
    case UserFound(Some(u)) => if u != "" then u else Placeholder(id)
    case _ => Placeholder(id)
  }

  predicate NoDuplicates(s: seq<string>)
  {
    forall i, j :: 0 <= i < j < |s| ==> s[i] != s[j]
  }

  /** `[...new Set(messages.map(m => m.userId))]`: each author once, in order of first appearance. */
  function UniqueAuthors(messages: seq<Message>): (r: seq<string>)
    ensures NoDuplicates(r)
    ensures forall id :: id in r <==> exists m :: m in messages && m.userId == id
  {
    if messages == [] then []
    else
      var init := messages[..|messages| - 1];
      var last := messages[|messages| - 1];
      assert messages == init + [last];
      var u := UniqueAuthors(init);
      if last.userId in u then u else u + [last.userId]
  }

  /** `ids.filter(id => !(id in known))`. */
  function Unknown(ids: seq<string>, known: map<string, string>): (r: seq<string>)
    ensures forall id :: id in r <==> id in ids && id !in known
    ensures NoDuplicates(ids) ==> NoDuplicates(r)
  {
    if ids == [] then []
    else
      var rest := Unknown(ids[1..], known);
      assert forall id :: id in ids[1..] ==> id in ids;
      if ids[0] in known then rest else [ids[0]] + rest
  }

  /** The author ids of `messages` that have no cached name yet, each once. */
  function MissingIds(messages: seq<Message>, known: map<string, string>): (r: seq<string>)
    ensures NoDuplicates(r)
    ensures forall id :: id in r <==> id !in known && exists m :: m in messages && m.userId == id
  {
    Unknown(UniqueAuthors(messages), known)
  }

  /** The `forEach` that collects the lookup results into a fresh map, one entry per id. */
  method BuildNameMap(ids: seq<string>, lookup: string -> LookupResult) returns (names: map<string, string>)
    ensures forall id :: id in names <==> id in ids
    ensures forall id :: id in names ==> names[id] == ResolvedName(id, lookup(id))
  {
    names := map[];
    var i := 0;
    while i < |ids|
      invariant 0 <= i <= |ids|
      invariant forall id :: id in names <==> id in ids[..i]
      invariant forall id :: id in names ==> names[id] == ResolvedName(id, lookup(id))
    {
      names := names[ids[i] := ResolvedName(ids[i], lookup(ids[i]))];
      assert ids[..i + 1] == ids[..i] + [ids[i]];
      i := i + 1;
    }
    assert ids[..i] == ids;
  }

  /** `{ ...prev, ...names }`: new names win, every earlier entry keeps its key. */
  function MergeNames(prev: map<string, string>, names: map<string, string>): (r: map<string, string>)
    ensures r.Keys == prev.Keys + names.Keys
    ensures forall id :: id in names ==> r[id] == names[id]
    ensures forall id :: id in prev && id !in names ==> r[id] == prev[id]
  {
    prev + names
  }

  /**
   * Merging the names of exactly the missing ids covers every author and leaves every cached
   * name as it was (the missing ids are, by construction, not cached).
   */
  lemma ResolutionCoversAuthors(messages: seq<Message>, known: map<string, string>, names: map<string, string>)
    requires forall id :: id in names <==> id in MissingIds(messages, known)
    ensures forall m :: m in messages ==> m.userId in MergeNames(known, names)
    ensures forall id :: id in known ==> MergeNames(known, names)[id] == known[id]
  {
    forall m | m in messages
      ensures m.userId in MergeNames(known, names)
    {
      if m.userId !in known {
        assert m.userId in MissingIds(messages, known);
      }
    }
  }

  /** `usernames[id] || pending`: the cached name when there is a non-empty one, else the loading label. */
  function ShownName(usernames: map<string, string>, id: string, pending: string): string
  {
    if id in usernames && usernames[id] != "" then usernames[id] else pending
  }

  /** `usernames[id]?.[0]?.toUpperCase() || '?'`: the avatar letter. */
  function Initial(usernames: map<string, string>, id: string): char
  {
    if id in usernames && usernames[id] != "" then UpperChar(usernames[id][0]) else '?'
  }

  /** A cache filled only by lookups holds no empty name. */
  predicate NamesNonEmpty(usernames: map<string, string>)
  {
    forall id :: id in usernames ==> usernames[id] != ""
  }

  /**
   * Once an author's name is cached, the loading label is gone for it: name and avatar come from
   * the cache. Until then the label and `?` are shown.
   */
  lemma CachedAuthorIsShown(usernames: map<string, string>, id: string, pending: string)
    requires NamesNonEmpty(usernames)
    ensures id in usernames ==> ShownName(usernames, id, pending) == usernames[id]
    ensures id in usernames ==> Initial(usernames, id) == UpperChar(usernames[id][0])
    ensures id !in usernames ==> ShownName(usernames, id, pending) == pending && Initial(usernames, id) == '?'
  {
  }

  /** Merging resolved names into a cache of non-empty names keeps every name non-empty. */
  lemma MergeKeepsNamesNonEmpty(prev: map<string, string>, names: map<string, string>, lookup: string -> LookupResult)
    requires NamesNonEmpty(prev)
    requires forall id :: id in names ==> names[id] == ResolvedName(id, lookup(id))
    ensures NamesNonEmpty(MergeNames(prev, names))
  {
  }
}
