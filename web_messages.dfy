/**
 * The web front end's message store (apps/web/src/routes/whatsapp/-hooks/use-whatsapp-messages.tsx):
 * messages arriving on the `messagesSSE` stream are merged into one array,
 * deduplicated by `id.id`; the chat list and the selected chat are derived from it.
 */
module WebMessages {
  import opened Wrappers
  import opened WebJs

  // ---------------------------------------------------------------------------
  // Merging a streamed message
  // ---------------------------------------------------------------------------

  /** Some message of `s` carries identifier `key`. */
  ghost predicate HasId(s: seq<Message>, key: string) {
    exists k :: 0 <= k < |s| && s[k].id.id == key
  }

  /** No two messages of `s` share an identifier. */
  ghost predicate UniqueIds(s: seq<Message>) {
    forall i, j :: 0 <= i < j < |s| ==> s[i].id.id != s[j].id.id
  }

  /** `prev.find(msg => msg.id.id === key)`: the first message carrying `key`, if any. */
  function FindById(prev: seq<Message>, key: string): (r: Option<Message>)
    ensures r.None? <==> !HasId(prev, key)
    ensures r.Some? ==> exists j :: 0 <= j < |prev| && prev[j] == r.value && r.value.id.id == key &&
                                    forall k :: 0 <= k < j ==> prev[k].id.id != key
  {
    if prev == [] then None
    else if prev[0].id.id == key then Some(prev[0])
    else
      var r := FindById(prev[1..], key);
      assert HasId(prev, key) ==> HasId(prev[1..], key) by {
        if HasId(prev, key) {
          var k :| 0 <= k < |prev| && prev[k].id.id == key;
          assert prev[1..][k - 1].id.id == key;
        }
      }
      if r.Some? then
        var j :| 0 <= j < |prev[1..]| && prev[1..][j] == r.value && r.value.id.id == key &&
                 forall k :: 0 <= k < j ==> prev[1..][k].id.id != key;
        assert prev[j + 1] == r.value;
        r
      else r
  }

  /**
   * The `setMessages` updater: a message whose `id.id` is already present leaves the
   * array as it was; any other message is appended at the end.
   */
  function Merge(prev: seq<Message>, m: Message): (r: seq<Message>)
    ensures HasId(prev, m.id.id) ==> r == prev
    ensures !HasId(prev, m.id.id) ==> r == prev + [m]
  {
    if FindById(prev, m.id.id).Some? then prev else prev + [m]
  }

  /** Merging the same message twice is the same as merging it once. */
  lemma MergeIdempotent(prev: seq<Message>, m: Message)
    ensures Merge(Merge(prev, m), m) == Merge(prev, m)
  {
    if !HasId(prev, m.id.id) {
      assert (prev + [m])[|prev|].id.id == m.id.id;
    }
  }

  /** Merging keeps identifiers pairwise distinct. */
  lemma MergeKeepsIdsUnique(prev: seq<Message>, m: Message)
    requires UniqueIds(prev)
    ensures UniqueIds(Merge(prev, m))
  {
  }

  /** The store after a run of streamed messages, merged one by one. */
  function MergeAll(prev: seq<Message>, incoming: seq<Message>): seq<Message>
    decreases |incoming|
  {
    if incoming == [] then prev else MergeAll(Merge(prev, incoming[0]), incoming[1..])
  }

  /**
   * Any run of merges keeps identifiers unique, never changes or reorders what was
   * already stored, holds every identifier it was given, and invents nothing.
   */
  lemma {:induction false} MergeAllFacts(prev: seq<Message>, incoming: seq<Message>)
    requires UniqueIds(prev)
    ensures UniqueIds(MergeAll(prev, incoming))
    ensures prev <= MergeAll(prev, incoming)
    ensures forall k :: 0 <= k < |incoming| ==> HasId(MergeAll(prev, incoming), incoming[k].id.id)
    ensures forall x :: x in MergeAll(prev, incoming) ==> x in prev || x in incoming
    decreases |incoming|
  {
    if incoming != [] {
      var next := Merge(prev, incoming[0]);
      MergeKeepsIdsUnique(prev, incoming[0]);
      MergeAllFacts(next, incoming[1..]);
      var r := MergeAll(prev, incoming);
      assert r == MergeAll(next, incoming[1..]);
      assert HasId(next, incoming[0].id.id) by {
        if !HasId(prev, incoming[0].id.id) {
          assert next[|prev|] == incoming[0];
        }
      }
      assert HasId(r, incoming[0].id.id) by {
        var k :| 0 <= k < |next| && next[k].id.id == incoming[0].id.id;
        assert r[k] == next[k];
      }
      forall k | 0 <= k < |incoming|
        ensures HasId(r, incoming[k].id.id)
      {
        if k > 0 {
          assert incoming[k] == incoming[1..][k - 1];
        }
      }
    }
  }

  /** How many messages of `s` carry identifier `key`. */
  ghost function IdCount(s: seq<Message>, key: string): nat {
    if s == [] then 0 else (if s[0].id.id == key then 1 else 0) + IdCount(s[1..], key)
  }

  /** In a store with unique identifiers, a present identifier occurs exactly once. */
  lemma {:induction false} UniqueIdsCountOnce(s: seq<Message>, key: string)
    requires UniqueIds(s)
    ensures IdCount(s, key) == if HasId(s, key) then 1 else 0
  {
    if s != [] {
      assert UniqueIds(s[1..]) by {
        forall i, j | 0 <= i < j < |s[1..]| ensures s[1..][i].id.id != s[1..][j].id.id {
          assert s[1..][i] == s[i + 1] && s[1..][j] == s[j + 1];
        }
      }
      UniqueIdsCountOnce(s[1..], key);
      if s[0].id.id == key {
        forall k | 0 <= k < |s[1..]| ensures s[1..][k].id.id != key {
          assert s[1..][k] == s[k + 1];
        }
      } else {
        if HasId(s, key) {
          var k :| 0 <= k < |s| && s[k].id.id == key;
          assert s[1..][k - 1].id.id == key;
        }
        if HasId(s[1..], key) {
          var k :| 0 <= k < |s[1..]| && s[1..][k].id.id == key;
          assert s[k + 1].id.id == key;
        }
      }
    }
  }

  /**
   * However often one message is delivered, starting from an empty store, the store
   * ends up holding exactly one message with its identifier.
   */
  lemma DeliveredOnce(incoming: seq<Message>, k: nat)
    requires k < |incoming|
    ensures IdCount(MergeAll([], incoming), incoming[k].id.id) == 1
  {
    MergeAllFacts([], incoming);
    UniqueIdsCountOnce(MergeAll([], incoming), incoming[k].id.id);
  }

  // ---------------------------------------------------------------------------
  // Deriving the chat list
  // ---------------------------------------------------------------------------

  /** The local `chatMap`: the last message per chat, with the chats in key insertion order. */
  datatype ChatTable = ChatTable(last: map<string, Message>, order: seq<string>)

  /** One `forEach` step: a new chat is added; a known chat's entry is replaced only by a strictly newer message. */
  function Step(t: ChatTable, msg: Message): ChatTable {
    var c := msg.id.remote;
    if c !in t.last then ChatTable(t.last[c := msg], t.order + [c])
    else if msg.timestamp > t.last[c].timestamp then ChatTable(t.last[c := msg], t.order)
    else t
  }

  /** `chatMap` after the `forEach` over `msgs`. */
  function TableOf(msgs: seq<Message>): ChatTable
    decreases |msgs|
  {
    if msgs == [] then ChatTable(map[], []) else Step(TableOf(msgs[..|msgs| - 1]), msgs[|msgs| - 1])
  }

  /** Keys listed once each, exactly the map's keys, each mapped to a message of that chat. */
  ghost predicate WellFormed(t: ChatTable) {
    && (forall i, j :: 0 <= i < j < |t.order| ==> t.order[i] != t.order[j])
    && (forall c :: c in t.last <==> c in t.order)
    && (forall c :: c in t.last ==> t.last[c].id.remote == c)
  }

  /** Some message of `msgs` belongs to chat `c`. */
  ghost predicate InChat(msgs: seq<Message>, c: string) {
    exists k :: 0 <= k < |msgs| && msgs[k].id.remote == c
  }

  /**
   * `msgs[j]` is its chat's last message: no message of that chat is newer, and every
   * earlier one of that chat is strictly older (on equal timestamps the first wins).
   */
  ghost predicate IsLatest(msgs: seq<Message>, j: int) {
    && 0 <= j < |msgs|
    && (forall k :: 0 <= k < |msgs| && msgs[k].id.remote == msgs[j].id.remote ==>
          msgs[k].timestamp <= msgs[j].timestamp)
    && (forall k :: 0 <= k < j && msgs[k].id.remote == msgs[j].id.remote ==>
          msgs[k].timestamp < msgs[j].timestamp)
  }

  /** Appending a message to a chat's history extends `InChat` by that message's chat. */
  lemma InChatSnoc(p: seq<Message>, x: Message, c: string)
    ensures InChat(p + [x], c) <==> InChat(p, c) || x.id.remote == c
  {
    if InChat(p, c) {
      var k :| 0 <= k < |p| && p[k].id.remote == c;
      assert (p + [x])[k] == p[k];
    }
    if InChat(p + [x], c) && x.id.remote != c {
      var k :| 0 <= k < |p + [x]| && (p + [x])[k].id.remote == c;
      assert p[k] == (p + [x])[k];
    }
    if x.id.remote == c {
      assert (p + [x])[|p|] == x;
    }
  }

  /** One step keeps the table well formed. */
  lemma StepWellFormed(t: ChatTable, x: Message)
    requires WellFormed(t)
    ensures WellFormed(Step(t, x))
  {
    if x.id.remote !in t.last {
      assert x.id.remote !in t.order;
    }
  }

  lemma {:induction false} TableOfWellFormed(msgs: seq<Message>)
    ensures WellFormed(TableOf(msgs))
    decreases |msgs|
  {
    if msgs != [] {
      TableOfWellFormed(msgs[..|msgs| - 1]);
      StepWellFormed(TableOf(msgs[..|msgs| - 1]), msgs[|msgs| - 1]);
    }
  }

  /** `x` is the last message of its chat in `msgs`. */
  ghost predicate IsChatLast(msgs: seq<Message>, x: Message) {
    exists j :: IsLatest(msgs, j) && x == msgs[j]
  }

  /** The table has an entry for a chat exactly when some message belongs to it. */
  lemma {:induction false} TableOfKeys(msgs: seq<Message>)
    ensures forall c :: c in TableOf(msgs).last <==> InChat(msgs, c)
    decreases |msgs|
  {
    if msgs != [] {
      var n := |msgs| - 1;
      TableOfKeys(msgs[..n]);
      assert msgs == msgs[..n] + [msgs[n]];
      forall c ensures c in TableOf(msgs).last <==> InChat(msgs, c) {
        InChatSnoc(msgs[..n], msgs[n], c);
      }
    }
  }

  /** A later message of another chat, or an older one of the same chat, leaves a latest message latest. */
  lemma LatestKept(p: seq<Message>, x: Message, j: int)
    requires IsLatest(p, j)
    requires x.id.remote == p[j].id.remote ==> x.timestamp <= p[j].timestamp
    ensures IsLatest(p + [x], j) && (p + [x])[j] == p[j]
  {
    var q := p + [x];
    forall k | 0 <= k < |q| && q[k].id.remote == q[j].id.remote ensures q[k].timestamp <= q[j].timestamp {
      if k < |p| {
        assert q[k] == p[k];
      }
    }
  }

  /** A message strictly newer than every earlier one of its chat is that chat's latest. */
  lemma LatestNew(p: seq<Message>, x: Message)
    requires forall k :: 0 <= k < |p| && p[k].id.remote == x.id.remote ==> p[k].timestamp < x.timestamp
    ensures IsLatest(p + [x], |p|) && (p + [x])[|p|] == x
  {
    var q := p + [x];
    forall k | 0 <= k < |q| && q[k].id.remote == x.id.remote ensures q[k].timestamp <= x.timestamp {
      if k < |p| {
        assert q[k] == p[k];
      }
    }
  }

  /** Each table entry is its chat's last message in `msgs`. */
  lemma {:induction false} TableOfLatest(msgs: seq<Message>)
    ensures forall c :: c in TableOf(msgs).last ==> IsChatLast(msgs, TableOf(msgs).last[c])
    decreases |msgs|
  {
    if msgs != [] {
      var n := |msgs| - 1;
      var p := msgs[..n];
      var x := msgs[n];
      assert msgs == p + [x];
      TableOfLatest(p);
      TableOfKeys(p);
      TableOfWellFormed(p);
      forall c | c in TableOf(msgs).last
        ensures IsChatLast(msgs, TableOf(msgs).last[c])
      {
        StepKeepsLatest(TableOf(p), p, x, c);
      }
    }
  }

  /** One `forEach` step keeps every entry its chat's last message, given that the table before it did. */
  lemma StepKeepsLatest(t: ChatTable, p: seq<Message>, x: Message, c: string)
    requires WellFormed(t)
    requires forall d :: d in t.last ==> IsChatLast(p, t.last[d])
    requires forall d :: d in t.last <==> InChat(p, d)
    requires c in Step(t, x).last
    ensures IsChatLast(p + [x], Step(t, x).last[c])
  {
    var t' := Step(t, x);
    var msgs := p + [x];
    var n := |p|;
    if c != x.id.remote {
      var j :| IsLatest(p, j) && t.last[c] == p[j];
      LatestKept(p, x, j);
      assert IsLatest(msgs, j) && msgs[j] == t'.last[c];
    } else if c !in t.last {
      assert !InChat(p, c);
      LatestNew(p, x);
      assert IsLatest(msgs, n) && msgs[n] == t'.last[c];
    } else {
      var j :| IsLatest(p, j) && t.last[c] == p[j];
      if x.timestamp > t.last[c].timestamp {
        LatestNew(p, x);
        assert IsLatest(msgs, n) && msgs[n] == t'.last[c];
      } else {
        LatestKept(p, x, j);
        assert IsLatest(msgs, j) && msgs[j] == t'.last[c];
      }
    }
  }

  /** `Array.from(chatMap.values())`: the entries in key insertion order. */
  function Entries(t: ChatTable): (r: seq<Message>)
    requires forall c :: c in t.order ==> c in t.last
    ensures |r| == |t.order|
    ensures forall i :: 0 <= i < |r| ==> r[i] == t.last[t.order[i]]
  {
    seq(|t.order|, i requires 0 <= i < |t.order| => t.last[t.order[i]])
  }

  /** Newest first: timestamps never increase along `s`. */
  ghost predicate NewestFirst(s: seq<Message>) {
    forall i, j :: 0 <= i < j < |s| ==> s[i].timestamp >= s[j].timestamp
  }

  /** No two messages of `s` belong to the same chat. */
  ghost predicate OnePerChat(s: seq<Message>) {
    forall i, j :: 0 <= i < j < |s| ==> s[i].id.remote != s[j].id.remote
  }

  /** The table of `msgs` is characterised by well-formedness, its keys and its entries. */
  ghost predicate Describes(t: ChatTable, msgs: seq<Message>) {
    && WellFormed(t)
    && (forall c :: c in t.last <==> InChat(msgs, c))
    && (forall c :: c in t.last ==> IsChatLast(msgs, t.last[c]))
  }

  lemma TableOfDescribes(msgs: seq<Message>)
    ensures Describes(TableOf(msgs), msgs)
  {
    TableOfWellFormed(msgs);
    TableOfKeys(msgs);
    TableOfLatest(msgs);
  }

  /** A described table's entries: one per chat, one for every chat of `msgs`, each the chat's last message. */
  lemma EntriesOfTable(t: ChatTable, msgs: seq<Message>)
    requires Describes(t, msgs)
    ensures OnePerChat(Entries(t))
    ensures forall x :: x in Entries(t) ==> IsChatLast(msgs, x)
    ensures forall c :: InChat(msgs, c) ==> exists i :: 0 <= i < |Entries(t)| && Entries(t)[i].id.remote == c
  {
    var e := Entries(t);
    forall i, j | 0 <= i < j < |e| ensures e[i].id.remote != e[j].id.remote {
      assert e[i].id.remote == t.order[i] && e[j].id.remote == t.order[j];
    }
    forall x | x in e ensures IsChatLast(msgs, x) {
      var i :| 0 <= i < |e| && e[i] == x;
      assert t.order[i] in t.last;
    }
    forall c | InChat(msgs, c) ensures exists i :: 0 <= i < |e| && e[i].id.remote == c {
      assert c in t.order;
      var i :| 0 <= i < |t.order| && t.order[i] == c;
      assert e[i].id.remote == c;
    }
  }

  /** Places `x` after every message of `s` at least as new as it is. */
  function InsertByTime(x: Message, s: seq<Message>): seq<Message> {
    if s == [] then [x]
    else if s[0].timestamp >= x.timestamp then [s[0]] + InsertByTime(x, s[1..])
    else [x] + s
  }

  /**
   * `.sort((a, b) => b.timestamp - a.timestamp)`. Array.prototype.sort is stable, and
   * so is this insertion sort: equal timestamps keep their relative order.
   */
  function SortNewestFirst(s: seq<Message>): seq<Message>
    decreases |s|
  {
    if s == [] then [] else InsertByTime(s[|s| - 1], SortNewestFirst(s[..|s| - 1]))
  }

  lemma {:induction false} InsertByTimePermutes(x: Message, s: seq<Message>)
    ensures multiset(InsertByTime(x, s)) == multiset(s) + multiset{x}
    decreases |s|
  {
    if s != [] && s[0].timestamp >= x.timestamp {
      InsertByTimePermutes(x, s[1..]);
      assert s == [s[0]] + s[1..];
    }
  }

  lemma {:induction false} InsertByTimeSorted(x: Message, s: seq<Message>)
    requires NewestFirst(s)
    ensures NewestFirst(InsertByTime(x, s))
    decreases |s|
  {
    if s != [] && s[0].timestamp >= x.timestamp {
      var rest := InsertByTime(x, s[1..]);
      InsertByTimeSorted(x, s[1..]);
      InsertByTimePermutes(x, s[1..]);
      forall y | y in rest ensures s[0].timestamp >= y.timestamp {
        assert y in multiset(rest);
        if y != x {
          var k :| 0 <= k < |s[1..]| && s[1..][k] == y;
          assert s[k + 1] == y;
        }
      }
    }
  }

  lemma {:induction false} InsertByTimeOnePerChat(x: Message, s: seq<Message>)
    requires OnePerChat(s) && forall y :: y in s ==> y.id.remote != x.id.remote
    ensures OnePerChat(InsertByTime(x, s))
    decreases |s|
  {
    if s != [] && s[0].timestamp >= x.timestamp {
      var rest := InsertByTime(x, s[1..]);
      InsertByTimeOnePerChat(x, s[1..]);
      InsertByTimePermutes(x, s[1..]);
      forall y | y in rest ensures y.id.remote != s[0].id.remote {
        assert y in multiset(rest);
        if y != x {
          var k :| 0 <= k < |s[1..]| && s[1..][k] == y;
          assert s[k + 1] == y;
        }
      }
    }
  }

  /** Sorting yields a newest-first permutation. */
  lemma SortNewestFirstFacts(s: seq<Message>)
    ensures NewestFirst(SortNewestFirst(s))
    ensures multiset(SortNewestFirst(s)) == multiset(s)
  {
    SortNewestFirstSorted(s);
    SortNewestFirstPermutes(s);
  }

  lemma {:induction false} SortNewestFirstSorted(s: seq<Message>)
    ensures NewestFirst(SortNewestFirst(s))
    decreases |s|
  {
    if s != [] {
      var n := |s| - 1;
      SortNewestFirstSorted(s[..n]);
      InsertByTimeSorted(s[n], SortNewestFirst(s[..n]));
    }
  }

  lemma {:induction false} SortNewestFirstPermutes(s: seq<Message>)
    ensures multiset(SortNewestFirst(s)) == multiset(s)
    decreases |s|
  {
    if s != [] {
      var n := |s| - 1;
      var p := s[..n];
      var sorted := SortNewestFirst(p);
      SortNewestFirstPermutes(p);
      InsertByTimePermutes(s[n], sorted);
      assert SortNewestFirst(s) == InsertByTime(s[n], sorted);
      assert s == p + [s[n]];
      calc {
        multiset(SortNewestFirst(s));
        multiset(sorted) + multiset{s[n]};
        multiset(p) + multiset{s[n]};
        multiset(p + [s[n]]);
      }
    }
  }

  /** The messages of `s` stamped `t`, in order. */
  function WithTime(s: seq<Message>, t: int): seq<Message>
    decreases |s|
  {
    if s == [] then []
    else (if s[0].timestamp == t then [s[0]] else []) + WithTime(s[1..], t)
  }

  lemma {:induction false} WithTimeAppend(a: seq<Message>, b: seq<Message>, t: int)
    ensures WithTime(a + b, t) == WithTime(a, t) + WithTime(b, t)
    decreases |a|
  {
    if a == [] {
      assert a + b == b;
    } else {
      var h := if a[0].timestamp == t then [a[0]] else [];
      assert a + b == [a[0]] + (a[1..] + b);
      assert a == [a[0]] + a[1..];
      WithTimeAppend(a[1..], b, t);
      WithTimeCons(a[0], a[1..] + b, t);
      WithTimeCons(a[0], a[1..], t);
      AppendAssoc(h, WithTime(a[1..], t), WithTime(b, t));
    }
  }

  lemma {:induction false} WithTimeOlder(s: seq<Message>, t: int)
    requires forall i :: 0 <= i < |s| ==> s[i].timestamp < t
    ensures WithTime(s, t) == []
    decreases |s|
  {
    if s != [] {
      WithTimeOlder(s[1..], t);
    }
  }

  lemma WithTimeCons(y: Message, rest: seq<Message>, t: int)
    ensures WithTime([y] + rest, t) == (if y.timestamp == t then [y] else []) + WithTime(rest, t)
  {
    assert ([y] + rest)[1..] == rest;
  }

  lemma AppendAssoc<T>(a: seq<T>, b: seq<T>, c: seq<T>)
    ensures a + (b + c) == (a + b) + c
  {
  }

  /** Inserting `x` into a newest-first list puts it after every message stamped as `x` is. */
  lemma {:induction false} InsertByTimeWithTime(x: Message, s: seq<Message>, t: int)
    requires NewestFirst(s)
    ensures WithTime(InsertByTime(x, s), t) == WithTime(s, t) + (if x.timestamp == t then [x] else [])
    decreases |s|
  {
    var tail := if x.timestamp == t then [x] else [];
    if s == [] {
      WithTimeCons(x, [], t);
    } else if s[0].timestamp >= x.timestamp {
      var h := if s[0].timestamp == t then [s[0]] else [];
      assert NewestFirst(s[1..]) by {
        forall i, j | 0 <= i < j < |s[1..]| ensures s[1..][i].timestamp >= s[1..][j].timestamp {
          assert s[1..][i] == s[i + 1] && s[1..][j] == s[j + 1];
        }
      }
      InsertByTimeWithTime(x, s[1..], t);
      WithTimeCons(s[0], InsertByTime(x, s[1..]), t);
      WithTimeCons(s[0], s[1..], t);
      assert s == [s[0]] + s[1..];
      AppendAssoc(h, WithTime(s[1..], t), tail);
    } else {
      WithTimeCons(x, s, t);
      if x.timestamp == t {
        forall i | 0 <= i < |s| ensures s[i].timestamp < t {
          if i > 0 {
            assert s[0].timestamp >= s[i].timestamp;
          }
        }
        WithTimeOlder(s, t);
      }
    }
  }

  /**
   * The sort is stable: for every timestamp, the messages stamped with it come out
   * in the order they went in, each as often as it occurred.
   */
  lemma {:induction false} SortNewestFirstStable(s: seq<Message>, t: int)
    ensures WithTime(SortNewestFirst(s), t) == WithTime(s, t)
    decreases |s|
  {
    if s != [] {
      var n := |s| - 1;
      SortNewestFirstStable(s[..n], t);
      SortNewestFirstSorted(s[..n]);
      InsertByTimeWithTime(s[n], SortNewestFirst(s[..n]), t);
      assert s == s[..n] + [s[n]];
      WithTimeAppend(s[..n], [s[n]], t);
      assert WithTime([s[n]], t) == (if s[n].timestamp == t then [s[n]] else []) + WithTime([], t);
    }
  }

  /** Sorting keeps one message per chat. */
  lemma {:induction false} SortNewestFirstOnePerChat(s: seq<Message>)
    requires OnePerChat(s)
    ensures OnePerChat(SortNewestFirst(s))
    decreases |s|
  {
    if s != [] {
      var n := |s| - 1;
      OnePerChatInit(s);
      SortNewestFirstOnePerChat(s[..n]);
      SortNewestFirstFacts(s[..n]);
      forall y | y in SortNewestFirst(s[..n]) ensures y.id.remote != s[n].id.remote {
        assert y in multiset(s[..n]);
        OnePerChatLast(s, y);
      }
      InsertByTimeOnePerChat(s[n], SortNewestFirst(s[..n]));
    }
  }

  /** Dropping the last message keeps one message per chat. */
  lemma OnePerChatInit(s: seq<Message>)
    requires s != [] && OnePerChat(s)
    ensures OnePerChat(s[..|s| - 1])
  {
    var p := s[..|s| - 1];
    forall i, j | 0 <= i < j < |p| ensures p[i].id.remote != p[j].id.remote {
      assert p[i] == s[i] && p[j] == s[j];
    }
  }

  /** No earlier message shares the last message's chat. */
  lemma OnePerChatLast(s: seq<Message>, y: Message)
    requires s != [] && OnePerChat(s) && y in s[..|s| - 1]
    ensures y.id.remote != s[|s| - 1].id.remote
  {
    var k :| 0 <= k < |s| - 1 && s[..|s| - 1][k] == y;
    assert s[k] == y;
  }

  /** One row of the chat list. */
  datatype ChatsListItem = ChatsListItem(id: string, displayName: string, lastMessageBody: string, timestamp: int)

  /** The row a chat's last message yields. */
  function ItemOf(m: Message): ChatsListItem {
    ChatsListItem(m.id.remote, m.id.remote, m.body, m.timestamp)
  }

  function ItemsOf(s: seq<Message>): (r: seq<ChatsListItem>)
    ensures |r| == |s| && forall i :: 0 <= i < |s| ==> r[i] == ItemOf(s[i])
  {
    seq(|s|, i requires 0 <= i < |s| => ItemOf(s[i]))
  }

  /** `item` is the row of some chat's last message in `msgs`. */
  ghost predicate IsChatRow(msgs: seq<Message>, item: ChatsListItem) {
    exists j :: IsLatest(msgs, j) && ItemOf(msgs[j]) == item
  }

  /** The `chats` memo: the table's entries, newest first, as list rows. */
  function Chats(msgs: seq<Message>): seq<ChatsListItem> {
    TableOfWellFormed(msgs);
    ItemsOf(SortNewestFirst(Entries(TableOf(msgs))))
  }

  /** Sorting the entries of a described table: newest first, one per chat, one for every chat, each a chat's last message. */
  lemma SortedEntries(t: ChatTable, msgs: seq<Message>)
    requires Describes(t, msgs)
    ensures NewestFirst(SortNewestFirst(Entries(t)))
    ensures OnePerChat(SortNewestFirst(Entries(t)))
    ensures forall x :: x in SortNewestFirst(Entries(t)) ==> IsChatLast(msgs, x)
    ensures forall c :: InChat(msgs, c) ==>
              exists k :: 0 <= k < |SortNewestFirst(Entries(t))| && SortNewestFirst(Entries(t))[k].id.remote == c
  {
    EntriesOfTable(t, msgs);
    var e := Entries(t);
    var sorted := SortNewestFirst(e);
    SortNewestFirstFacts(e);
    SortNewestFirstOnePerChat(e);
    forall x | x in sorted ensures IsChatLast(msgs, x) {
      assert x in multiset(e);
    }
    forall c | InChat(msgs, c) ensures exists k :: 0 <= k < |sorted| && sorted[k].id.remote == c {
      var i :| 0 <= i < |e| && e[i].id.remote == c;
      assert e[i] in multiset(sorted);
      var k :| 0 <= k < |sorted| && sorted[k] == e[i];
    }
  }

  /**
   * The chat list has exactly one row per chat occurring in `msgs`, is sorted newest
   * first, and each row's id, body and timestamp come from that chat's last message.
   */
  lemma ChatsCharacterised(msgs: seq<Message>)
    ensures forall i, j :: 0 <= i < j < |Chats(msgs)| ==> Chats(msgs)[i].timestamp >= Chats(msgs)[j].timestamp
    ensures forall i, j :: 0 <= i < j < |Chats(msgs)| ==> Chats(msgs)[i].id != Chats(msgs)[j].id
    ensures forall c :: (exists i :: 0 <= i < |Chats(msgs)| && Chats(msgs)[i].id == c) <==> InChat(msgs, c)
    ensures forall i :: 0 <= i < |Chats(msgs)| ==> IsChatRow(msgs, Chats(msgs)[i])
  {
    TableOfDescribes(msgs);
    var t := TableOf(msgs);
    SortedEntries(t, msgs);
    var sorted := SortNewestFirst(Entries(t));
    var items := Chats(msgs);
    assert items == ItemsOf(sorted);
    forall i | 0 <= i < |items| ensures IsChatRow(msgs, items[i]) {
      assert sorted[i] in sorted;
      assert IsChatLast(msgs, sorted[i]);
    }
    ChatsIdsExactly(msgs, sorted, items);
  }

  /** The rows' IDs are exactly the chats occurring in `msgs`. */
  lemma ChatsIdsExactly(msgs: seq<Message>, sorted: seq<Message>, items: seq<ChatsListItem>)
    requires items == ItemsOf(sorted)
    requires forall x :: x in sorted ==> IsChatLast(msgs, x)
    requires forall c :: InChat(msgs, c) ==> exists k :: 0 <= k < |sorted| && sorted[k].id.remote == c
    ensures forall c :: (exists i :: 0 <= i < |items| && items[i].id == c) <==> InChat(msgs, c)
  {
    forall c ensures (exists i :: 0 <= i < |items| && items[i].id == c) <==> InChat(msgs, c) {
      if InChat(msgs, c) {
        var k :| 0 <= k < |sorted| && sorted[k].id.remote == c;
        assert items[k].id == c;
      }
      if exists i :: 0 <= i < |items| && items[i].id == c {
        var i :| 0 <= i < |items| && items[i].id == c;
        assert sorted[i] in sorted;
        assert IsChatLast(msgs, sorted[i]);
        var j :| IsLatest(msgs, j) && sorted[i] == msgs[j];
        assert msgs[j].id.remote == c;
      }
    }
  }

  /**
   * The `chats` memo as the hook computes it: a `forEach` that fills a local map,
   * then sort and map. The result is the chat list characterised above.
   */
  method DeriveChats(messages: seq<Message>) returns (items: seq<ChatsListItem>)
    ensures items == Chats(messages)
    ensures forall i, j :: 0 <= i < j < |items| ==> items[i].timestamp >= items[j].timestamp
    ensures forall i, j :: 0 <= i < j < |items| ==> items[i].id != items[j].id
    ensures forall c :: (exists i :: 0 <= i < |items| && items[i].id == c) <==> InChat(messages, c)
    ensures forall i :: 0 <= i < |items| ==> IsChatRow(messages, items[i])
  {
    var chatMap: map<string, Message> := map[];
    var order: seq<string> := [];
    var i := 0;
    while i < |messages|
      invariant 0 <= i <= |messages|
      invariant ChatTable(chatMap, order) == TableOf(messages[..i])
    {
      var msg := messages[i];
      var chatId := msg.id.remote;
      assert messages[..i + 1][..i] == messages[..i];
      if chatId !in chatMap || msg.timestamp > chatMap[chatId].timestamp {
        if chatId !in chatMap {
          order := order + [chatId];
        }
        chatMap := chatMap[chatId := msg];
      }
      i := i + 1;
    }
    assert messages[..i] == messages;
    TableOfWellFormed(messages);
    items := ItemsOf(SortNewestFirst(Entries(ChatTable(chatMap, order))));
    assert items == Chats(messages);
    ChatsCharacterised(messages);
  }

  // ---------------------------------------------------------------------------
  // The selected chat
  // ---------------------------------------------------------------------------

  /** `messages.filter(msg => msg.id.remote === selectedChatId)`; with no selection nothing matches. */
  function MessagesOfChat(msgs: seq<Message>, selectedChatId: Option<string>): seq<Message>
    decreases |msgs|
  {
    if msgs == [] then []
    else (if selectedChatId == Some(msgs[0].id.remote) then [msgs[0]] else [])
         + MessagesOfChat(msgs[1..], selectedChatId)
  }

  /** The filter keeps only messages of the selected chat, and never more than it was given. */
  lemma {:induction false} MessagesOfChatSound(msgs: seq<Message>, selectedChatId: Option<string>)
    ensures |MessagesOfChat(msgs, selectedChatId)| <= |msgs|
    ensures forall x :: x in MessagesOfChat(msgs, selectedChatId) ==> x in msgs && selectedChatId == Some(x.id.remote)
    decreases |msgs|
  {
    if msgs != [] {
      MessagesOfChatSound(msgs[1..], selectedChatId);
    }
  }

  /** The filter on a sequence that starts with `x`. */
  lemma MessagesOfChatCons(x: Message, rest: seq<Message>, selectedChatId: Option<string>)
    ensures MessagesOfChat([x] + rest, selectedChatId) ==
            (if selectedChatId == Some(x.id.remote) then [x] else []) + MessagesOfChat(rest, selectedChatId)
  {
    assert ([x] + rest)[1..] == rest;
  }

  /** Filtering distributes over concatenation, so it keeps the array's order. */
  lemma {:induction false} MessagesOfChatAppend(a: seq<Message>, b: seq<Message>, selectedChatId: Option<string>)
    ensures MessagesOfChat(a + b, selectedChatId) == MessagesOfChat(a, selectedChatId) + MessagesOfChat(b, selectedChatId)
    decreases |a|
  {
    if a != [] {
      var h := if selectedChatId == Some(a[0].id.remote) then [a[0]] else [];
      var fa := MessagesOfChat(a[1..], selectedChatId);
      var fb := MessagesOfChat(b, selectedChatId);
      assert a + b == [a[0]] + (a[1..] + b);
      assert a == [a[0]] + a[1..];
      MessagesOfChatCons(a[0], a[1..] + b, selectedChatId);
      MessagesOfChatCons(a[0], a[1..], selectedChatId);
      MessagesOfChatAppend(a[1..], b, selectedChatId);
      AppendAssoc(h, fa, fb);
    } else {
      assert a + b == b;
    }
  }

  /** Every message of the selected chat is kept. */
  lemma {:induction false} MessagesOfChatComplete(msgs: seq<Message>, selectedChatId: Option<string>)
    ensures forall k :: 0 <= k < |msgs| && selectedChatId == Some(msgs[k].id.remote) ==>
              msgs[k] in MessagesOfChat(msgs, selectedChatId)
    decreases |msgs|
  {
    if msgs != [] {
      MessagesOfChatComplete(msgs[1..], selectedChatId);
      forall k | 0 < k < |msgs| ensures msgs[k] == msgs[1..][k - 1] { }
    }
  }

  /**
   * The filter keeps each message of the selected chat as often as it occurs, and
   * no other; with `MessagesOfChatAppend` this makes it the order-preserving
   * subsequence of that chat's messages.
   */
  lemma {:induction false} MessagesOfChatCounts(msgs: seq<Message>, selectedChatId: Option<string>)
    ensures forall x :: multiset(MessagesOfChat(msgs, selectedChatId))[x] ==
              if selectedChatId == Some(x.id.remote) then multiset(msgs)[x] else 0
    decreases |msgs|
  {
    if msgs != [] {
      MessagesOfChatCounts(msgs[1..], selectedChatId);
      assert msgs == [msgs[0]] + msgs[1..];
      MessagesOfChatCons(msgs[0], msgs[1..], selectedChatId);
    }
  }

  /** `SelectedChatType`. */
  datatype SelectedChat = SelectedChat(id: string, messages: seq<Message>)

  /** `selectedChat`: none exactly when the selected id is falsy (null or empty). */
  function SelectedChatOf(msgs: seq<Message>, selectedChatId: Option<string>): (r: Option<SelectedChat>)
    ensures r.None? <==> selectedChatId.None? || selectedChatId.value == ""
    ensures r.Some? ==> r.value.id == selectedChatId.value
    ensures r.Some? ==> forall x :: x in r.value.messages ==> x in msgs && x.id.remote == r.value.id
    ensures r.Some? ==> r.value.messages == MessagesOfChat(msgs, selectedChatId)
  {
    if selectedChatId.None? || selectedChatId.value == "" then None
    else
      MessagesOfChatSound(msgs, selectedChatId);
      Some(SelectedChat(selectedChatId.value, MessagesOfChat(msgs, selectedChatId)))
  }

  // ---------------------------------------------------------------------------
  // The hook's state
  // ---------------------------------------------------------------------------

  /** The atoms the hook reads and writes. */
  class MessagesHook {
    /** `whatsappMessagesAtom`. */
    var messages: seq<Message>
    /** `selectedChatIdAtom`. */
    var selectedChatId: Option<string>

    constructor ()
      ensures messages == [] && selectedChatId == None
    {
      messages := [];
      selectedChatId := None;
    }

    /** The effect on new stream data: merge it when present; identifiers stay unique. */
    method OnLiveData(data: Option<Message>)
      modifies this`messages
      ensures data.None? ==> messages == old(messages)
      ensures data.Some? ==> messages == Merge(old(messages), data.value)
      ensures UniqueIds(old(messages)) ==> UniqueIds(messages)
    {
      if data.Some? {
        if UniqueIds(messages) {
          MergeKeepsIdsUnique(messages, data.value);
        }
        messages := Merge(messages, data.value);
      }
    }
  }
}
