/**
 * The list the chat page renders: history followed by live messages, sorted by creation time
 * with a stable sort (`Array.prototype.sort` is stable), a missing time counting as 0.
 */
module ChatView {
  import opened Wrappers
  import opened ChatHistory

  /** `new Date(m.createdAt || 0).getTime()`. */
  function Time(m: Message): int
  {
    m.createdAt.GetOr(0)
  }

  ghost predicate Ascending(s: seq<Message>)
  {
    forall i, j :: 0 <= i < j < |s| ==> Time(s[i]) <= Time(s[j])
  }

  /** Places `m` before the first element that is not earlier than it. */
  function Insert(m: Message, s: seq<Message>): seq<Message>
  {
    if s == [] || Time(m) <= Time(s[0]) then [m] + s
    else [s[0]] + Insert(m, s[1..])
  }

  lemma {:induction false} InsertPermutes(m: Message, s: seq<Message>)
    ensures multiset(Insert(m, s)) == multiset(s) + multiset{m}
  {
    if s != [] && Time(s[0]) < Time(m) {
      InsertPermutes(m, s[1..]);
      assert s == [s[0]] + s[1..];
    }
  }

  /** Every time in `Insert(m, s)` is at least a bound that `m` and all of `s` respect. */
  lemma {:induction false} InsertAbove(m: Message, s: seq<Message>, lo: int)
    requires lo <= Time(m)
    requires forall i :: 0 <= i < |s| ==> lo <= Time(s[i])
    ensures forall i :: 0 <= i < |Insert(m, s)| ==> lo <= Time(Insert(m, s)[i])
  {
    if s != [] && Time(s[0]) < Time(m) {
      InsertAbove(m, s[1..], lo);
    }
  }

  lemma {:induction false} InsertAscending(m: Message, s: seq<Message>)
    requires Ascending(s)
    ensures Ascending(Insert(m, s))
  {
    if s != [] && Time(s[0]) < Time(m) {
      var tail := Insert(m, s[1..]);
      InsertAscending(m, s[1..]);
      InsertAbove(m, s[1..], Time(s[0]));
      var r := [s[0]] + tail;
      assert Insert(m, s) == r;
      forall i, j | 0 <= i < j < |r|
        ensures Time(r[i]) <= Time(r[j])
      {
        assert r[j] == tail[j - 1];
        if i > 0 {
          assert r[i] == tail[i - 1];
        }
      }
    }
  }

  /** Insertion sort from the back of the list: ascending by time, ties kept in input order. */
  function SortByTime(s: seq<Message>): seq<Message>
  {
    if s == [] then [] else Insert(s[0], SortByTime(s[1..]))
  }

  lemma {:induction false} SortPermutes(s: seq<Message>)
    ensures multiset(SortByTime(s)) == multiset(s)
  {
    if s != [] {
      SortPermutes(s[1..]);
      InsertPermutes(s[0], SortByTime(s[1..]));
      assert s == [s[0]] + s[1..];
    }
  }

  lemma {:induction false} SortAscending(s: seq<Message>)
    ensures Ascending(SortByTime(s))
  {
    if s != [] {
      SortAscending(s[1..]);
      InsertAscending(s[0], SortByTime(s[1..]));
    }
  }

  /** The messages of `s` stamped with time `t`, in their order in `s`. */
  function WithTime(s: seq<Message>, t: int): seq<Message>
  {
    if s == [] then [] else (if Time(s[0]) == t then [s[0]] else []) + WithTime(s[1..], t)
  }

  lemma {:induction false} WithTimeConcat(a: seq<Message>, b: seq<Message>, t: int)
    ensures WithTime(a + b, t) == WithTime(a, t) + WithTime(b, t)
  {
    if a != [] {
      assert (a + b)[1..] == a[1..] + b;
      WithTimeConcat(a[1..], b, t);
    } else {
      assert a + b == b;
    }
  }

  lemma WithTimeCons(x: Message, r: seq<Message>, t: int)
    ensures WithTime([x] + r, t) == (if Time(x) == t then [x] else []) + WithTime(r, t)
  {
    assert ([x] + r)[1..] == r;
  }

  lemma {:induction false} WithTimeInsert(m: Message, s: seq<Message>, t: int)
    ensures WithTime(Insert(m, s), t) == (if Time(m) == t then [m] else []) + WithTime(s, t)
  {
    if s == [] || Time(m) <= Time(s[0]) {
      WithTimeCons(m, s, t);
    } else {
      var tail := Insert(m, s[1..]);
      WithTimeInsert(m, s[1..], t);
      WithTimeCons(s[0], tail, t);
      WithTimeCons(s[0], s[1..], t);
      assert s == [s[0]] + s[1..];
    }
  }

  /** Stability: for every time, the messages carrying it keep their relative order. */
  lemma {:induction false} SortIsStable(s: seq<Message>, t: int)
    ensures WithTime(SortByTime(s), t) == WithTime(s, t)
  {
    if s != [] {
      SortIsStable(s[1..], t);
      WithTimeInsert(s[0], SortByTime(s[1..]), t);
    }
  }

  /** `[...messages, ...liveMessages].sort(byCreatedAt)`. */
  function MergedView(history: seq<Message>, live: seq<Message>): (r: seq<Message>)
    ensures multiset(r) == multiset(history) + multiset(live)
    ensures Ascending(r)
  {
    SortAscending(history + live);
    SortPermutes(history + live);
    SortByTime(history + live)
  }

  /** Among messages with the same time, history comes first, each part in its own order. */
  lemma MergedViewStable(history: seq<Message>, live: seq<Message>, t: int)
    ensures WithTime(MergedView(history, live), t) == WithTime(history, t) + WithTime(live, t)
  {
    SortIsStable(history + live, t);
    WithTimeConcat(history, live, t);
  }

  lemma {:induction false} WithTimeOfAscendingHead(s: seq<Message>)
    requires Ascending(s) && s != []
    ensures WithTime(s, Time(s[0])) != [] && WithTime(s, Time(s[0]))[0] == s[0]
    ensures forall t :: t < Time(s[0]) ==> WithTime(s, t) == []
  {
    forall t | t < Time(s[0])
      ensures WithTime(s, t) == []
    {
      WithTimeBelowAll(s, t);
    }
  }

  lemma {:induction false} WithTimeBelowAll(s: seq<Message>, t: int)
    requires forall i :: 0 <= i < |s| ==> t < Time(s[i])
    ensures WithTime(s, t) == []
  {
    if s != [] {
      WithTimeBelowAll(s[1..], t);
    }
  }

  lemma {:induction false} WithTimeNonEmpty(s: seq<Message>, i: int)
    requires 0 <= i < |s|
    ensures WithTime(s, Time(s[i])) != []
  {
    if i > 0 {
      WithTimeNonEmpty(s[1..], i - 1);
    }
  }

  lemma WithTimeTail(s: seq<Message>, t: int)
    requires s != []
    ensures WithTime(s[1..], t) == if Time(s[0]) == t then WithTime(s, t)[1..] else WithTime(s, t)
  {
  }

  /**
   * Uniqueness: an ascending list that keeps, for every time, the same messages in the same
   * order as `s` is the sorted `s`. So the rendered view is fully determined by the two rules.
   */
  lemma {:induction false} StableSortUnique(a: seq<Message>, b: seq<Message>)
    requires Ascending(a) && Ascending(b)
    requires forall t :: WithTime(a, t) == WithTime(b, t)
    ensures a == b
    decreases |a|
  {
    if a == [] {
      if b != [] {
        WithTimeNonEmpty(b, 0);
      }
    } else if b == [] {
      WithTimeNonEmpty(a, 0);
    } else {
      WithTimeOfAscendingHead(a);
      WithTimeOfAscendingHead(b);
      assert WithTime(a, Time(b[0])) == WithTime(b, Time(b[0]));
      assert WithTime(b, Time(a[0])) == WithTime(a, Time(a[0]));
      assert Time(a[0]) == Time(b[0]);
      assert a[0] == b[0];
      forall t
        ensures WithTime(a[1..], t) == WithTime(b[1..], t)
      {
        WithTimeTail(a, t);
        WithTimeTail(b, t);
        assert WithTime(a, t) == WithTime(b, t);
      }
      StableSortUnique(a[1..], b[1..]);
      assert a == [a[0]] + a[1..];
      assert b == [b[0]] + b[1..];
    }
  }

  /** The merged view is the only ascending list that is stable with history ahead of live. */
  lemma MergedViewCharacterised(history: seq<Message>, live: seq<Message>, r: seq<Message>)
    requires Ascending(r)
    requires forall t :: WithTime(r, t) == WithTime(history, t) + WithTime(live, t)
    ensures r == MergedView(history, live)
  {
    forall t
      ensures WithTime(r, t) == WithTime(MergedView(history, live), t)
    {
      MergedViewStable(history, live, t);
    }
    StableSortUnique(r, MergedView(history, live));
  }

  lemma MergeExample(m1: Message, m2: Message, m3: Message, m4: Message)
    requires Time(m1) == 10 && Time(m2) == 20 && Time(m3) == 20 && Time(m4) == 5
    ensures MergedView([m1, m2], [m3, m4]) == [m4, m1, m2, m3]
  {
    assert [m1, m2] + [m3, m4] == [m1, m2, m3, m4];
    assert SortByTime([m4]) == [m4] by {
      assert [m4][1..] == [];
      assert Insert(m4, []) == [m4];
    }
    assert SortByTime([m3, m4]) == [m4, m3] by {
      assert [m3, m4][1..] == [m4];
      assert Insert(m3, []) == [m3];
      assert Insert(m3, [m4]) == [m4] + Insert(m3, []);
    }
    assert SortByTime([m2, m3, m4]) == [m4, m2, m3] by {
      assert [m2, m3, m4][1..] == [m3, m4];
      assert Insert(m2, [m3]) == [m2, m3];
      assert Insert(m2, [m4, m3]) == [m4] + Insert(m2, [m3]);
    }
    assert SortByTime([m1, m2, m3, m4]) == [m4, m1, m2, m3] by {
      assert [m1, m2, m3, m4][1..] == [m2, m3, m4];
      assert Insert(m1, [m2, m3]) == [m1, m2, m3];
      assert Insert(m1, [m4, m2, m3]) == [m4] + Insert(m1, [m2, m3]);
    }
  }
}
