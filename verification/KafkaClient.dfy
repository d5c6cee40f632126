/** The Kafka clients of a consumer, for one topic partition: the plain client over the log
    (go/worker/event/kafkaServer.go) and the LRU-cached one (go/worker/event/cachedKafkaClient.go). */
module KafkaClient {
  import opened Common

  datatype Tp = Tp(topic: string, partition: int)

  datatype Key = Key(tp: Tp, offset: nat)

  /** What a record's body holds for the lambda: {"number": n}, or something else. */
  datatype Value = Number(n: int) | Other

  datatype Record = Record(tp: Tp, offset: nat, value: Value)

  function KeyOf(r: Record): Key {
    Key(r.tp, r.offset)
  }

  function KeysOf(records: seq<Record>): seq<Key> {
    if records == [] then [] else KeysOf(records[..|records| - 1]) + [KeyOf(records[|records| - 1])]
  }

  datatype Fetches = Errors(count: nat) | Records(records: seq<Record>)

  /** The records of the log with offsets in [a, b), in order; offsets may have gaps. */
  function Slice(log: map<nat, Record>, a: nat, b: nat): seq<Record>
    decreases b - a
  {
    if a >= b then [] else (if a in log then [log[a]] else []) + Slice(log, a + 1, b)
  }

  ghost predicate IsLog(log: map<nat, Record>, tp: Tp) {
    forall o <- log :: log[o].tp == tp && log[o].offset == o
  }

  /** The first record of a slice is the log's first one there, and the rest follows it. */
  lemma {:induction false} SliceHead(log: map<nat, Record>, tp: Tp, a: nat, b: nat)
    requires IsLog(log, tp) && Slice(log, a, b) != []
    ensures var s := Slice(log, a, b); var o := s[0].offset;
      && a <= o < b && o in log && log[o] == s[0]
      && (forall x <- log :: !(a <= x < o))
      && s[1..] == Slice(log, o + 1, b)
    decreases b - a
  {
    if a !in log {
      SliceHead(log, tp, a + 1, b);
    }
  }

  lemma {:induction false} SliceMembers(log: map<nat, Record>, tp: Tp, a: nat, b: nat)
    requires IsLog(log, tp)
    ensures forall r <- Slice(log, a, b) :: r.tp == tp && r.offset in log && log[r.offset] == r
    decreases b - a
  {
    if a < b {
      SliceMembers(log, tp, a + 1, b);
    }
  }

  lemma {:induction false} SliceEmpty(log: map<nat, Record>, a: nat, b: nat)
    requires Slice(log, a, b) == []
    ensures forall x <- log :: !(a <= x < b)
    decreases b - a
  {
    if a < b {
      SliceEmpty(log, a + 1, b);
    }
  }

  // -------------------------------------------------------------- the plain client

  /** What the broker does with a poll: fails it, or has records up to some offset. */
  datatype Reply = Fails(errors: nat) | Reaches(offset: nat)

  function Fetched(log: map<nat, Record>, pos: nat, reply: Reply): Fetches {
    match reply
    case Fails(n) => Errors(n)
    case Reaches(o) => Records(Slice(log, pos, o))
  }

  /** A client positioned in the log. `broker` says what becomes of its n-th poll. A poll fails,
      or delivers every record from the position up to some offset and moves there. */
  class LogClient {
    const tp: Tp
    const log: map<nat, Record>
    const broker: nat -> Reply
    var pos: nat
    var polled: nat

    constructor (tp: Tp, log: map<nat, Record>, broker: nat -> Reply, start: nat)
      ensures this.tp == tp && this.log == log && this.broker == broker && pos == start && polled == 0
    {
      this.tp, this.log, this.broker, pos, polled := tp, log, broker, start, 0;
    }

    method Seek(offset: nat)
      modifies this`pos
      ensures pos == offset
    {
      pos := offset;
    }

    method PollFetches() returns (f: Fetches)
      modifies this
      ensures f == Fetched(log, old(pos), broker(old(polled))) && polled == old(polled) + 1
      ensures f.Errors? ==> pos == old(pos)
      ensures f.Records? ==> old(pos) <= pos && f.records == Slice(log, old(pos), pos)
    {
      var reply := broker(polled);
      polled := polled + 1;
      f := Fetched(log, pos, reply);
      if reply.Reaches? && reply.offset > pos {
        pos := reply.offset;
      }
    }
  }

  // ----------------------------------------------------------------- LRU order

  /** touchLRU: move a key to the back. */
  function Touched(order: seq<Key>, key: Key): seq<Key> {
    if key in order then Without(order, key) + [key] else order
  }

  /** put: a known key is touched, a new one goes to the back after the front made room. */
  function PutOrder(order: seq<Key>, maxSize: nat, key: Key): seq<Key>
    requires maxSize >= 1
  {
    if key in order then Touched(order, key)
    else (if |order| >= maxSize then order[1..] else order) + [key]
  }

  /** All keys ever used, each once, by their last use (least recent first). */
  function Recency(uses: seq<Key>): seq<Key> {
    if uses == [] then []
    else Without(Recency(uses[..|uses| - 1]), uses[|uses| - 1]) + [uses[|uses| - 1]]
  }

  /** The last `n` elements. */
  function LastN(s: seq<Key>, n: nat): seq<Key> {
    if |s| <= n then s else s[|s| - n..]
  }

  lemma RecencySnoc(uses: seq<Key>, key: Key)
    ensures Recency(uses + [key]) == Without(Recency(uses), key) + [key]
  {
    assert (uses + [key])[..|uses|] == uses;
  }

  lemma {:induction false} RecencyNoDup(uses: seq<Key>)
    ensures NoDup(Recency(uses))
    ensures forall k :: k in Recency(uses) <==> k in uses
  {
    if uses != [] {
      var init, last := uses[..|uses| - 1], uses[|uses| - 1];
      RecencyNoDup(init);
      WithoutNoDup(Recency(init), last);
      forall k ensures k in Without(Recency(init), last) <==> k in Recency(init) && k != last {
        WithoutMember(Recency(init), last, k);
      }
      NoDupSnoc(Without(Recency(init), last), last);
      assert uses == init + [last];
    }
  }

  lemma {:induction false} WithoutAppend(a: seq<Key>, b: seq<Key>, x: Key)
    ensures Without(a + b, x) == Without(a, x) + Without(b, x)
  {
    if a == [] {
      assert a + b == b;
    } else {
      assert (a + b)[1..] == a[1..] + b;
      WithoutAppend(a[1..], b, x);
    }
  }

  lemma LastNTail(a: seq<Key>, b: seq<Key>, n: nat)
    requires |b| >= n || a == []
    ensures LastN(a + b, n) == LastN(b, n)
  {
    if a == [] {
      assert a + b == b;
    } else {
      assert (a + b)[|a + b| - n..] == b[|b| - n..];
    }
  }

  lemma UseRecent(gone: seq<Key>, recent: seq<Key>, n: nat, key: Key)
    requires NoDup(recent) && key in recent && key !in gone
    requires |recent| == n || (gone == [] && |recent| <= n)
    ensures LastN(Without(gone + recent, key) + [key], n) == Without(recent, key) + [key]
  {
    var w := Without(recent, key);
    WithoutAppend(gone, recent, key);
    WithoutLength(recent, key);
    WithoutAbsent(gone, key);
    assert (gone + w) + [key] == gone + (w + [key]);
    LastNTail(gone, w + [key], n);
  }

  lemma UseNew(gone: seq<Key>, recent: seq<Key>, n: nat, key: Key)
    requires key !in recent && n >= 1
    requires |recent| == n || (gone == [] && |recent| <= n)
    ensures LastN(Without(gone + recent, key) + [key], n) == (if |recent| >= n then recent[1..] else recent) + [key]
  {
    var g := Without(gone, key);
    WithoutAppend(gone, recent, key);
    WithoutAbsent(recent, key);
    assert (g + recent) + [key] == g + (recent + [key]);
    LastNTail(g, recent + [key], n);
  }

  /** The n most recent keys, after one more use of `key`. */
  lemma LastNUse(r: seq<Key>, n: nat, key: Key)
    requires NoDup(r) && n >= 1
    ensures LastN(Without(r, key) + [key], n) == PutOrder(LastN(r, n), n, key)
  {
    var k := if |r| <= n then 0 else |r| - n;
    var gone, recent := r[..k], r[k..];
    assert r == gone + recent;
    assert LastN(r, n) == recent;
    if key in recent {
      assert key !in gone;
      UseRecent(gone, recent, n, key);
    } else {
      UseNew(gone, recent, n, key);
    }
  }

  lemma {:induction false} WithoutLength(s: seq<Key>, x: Key)
    requires NoDup(s) && x in s
    ensures |Without(s, x)| == |s| - 1
  {
    if s[0] == x {
      WithoutFront(s);
    } else {
      WithoutLength(s[1..], x);
    }
  }

  // ------------------------------------------------------------- the cached client

  /** The cache holds exactly the `maxSize` most recently used keys, listed by their last use,
      each with the record that the log has for it. */
  ghost predicate Lru(log: map<nat, Record>, tp: Tp, uses: seq<Key>, maxSize: int, order: seq<Key>, cache: map<Key, Record>) {
    && (maxSize < 1 ==> uses == [])
    && order == LastN(Recency(uses), if maxSize >= 1 then maxSize else 0)
    && (forall k :: k in cache <==> k in order)
    && (forall k <- cache :: k.tp == tp && k.offset in log && cache[k] == log[k.offset])
  }

  lemma LruTouch(log: map<nat, Record>, tp: Tp, uses: seq<Key>, maxSize: int, order: seq<Key>,
                 cache: map<Key, Record>, key: Key)
    requires Lru(log, tp, uses, maxSize, order, cache) && key in cache
    ensures Lru(log, tp, uses + [key], maxSize, Touched(order, key), cache)
  {
    assert maxSize >= 1 by { assert key in order; }
    Used(uses, maxSize, key);
    forall k ensures k in Touched(order, key) <==> k in order {
      WithoutMember(order, key, k);
    }
  }

  /** The cache after a new record: the front made room if there was none. */
  function Inserted(log: map<nat, Record>, maxSize: int, order: seq<Key>, cache: map<Key, Record>, key: Key): map<Key, Record>
    requires key.offset in log
  {
    (if |order| >= maxSize && order != [] then cache - {order[0]} else cache)[key := log[key.offset]]
  }

  lemma LruInsert(log: map<nat, Record>, tp: Tp, uses: seq<Key>, maxSize: int, order: seq<Key>,
                  cache: map<Key, Record>, key: Key)
    requires Lru(log, tp, uses, maxSize, order, cache) && key !in cache && maxSize >= 1
    requires key.tp == tp && key.offset in log
    ensures Lru(log, tp, uses + [key], maxSize, PutOrder(order, maxSize, key), Inserted(log, maxSize, order, cache, key))
  {
    Used(uses, maxSize, key);
    CacheSize(log, tp, uses, maxSize, order, cache);
    var c, o := Inserted(log, maxSize, order, cache, key), PutOrder(order, maxSize, key);
    HeadTail(order);
    forall k ensures k in c <==> k in o {
      InsertedMember(log, maxSize, order, cache, key, k);
    }
    InsertedValues(log, tp, maxSize, order, cache, key);
  }

  lemma HeadTail(order: seq<Key>)
    requires NoDup(order)
    ensures order != [] ==> order == [order[0]] + order[1..] && order[0] !in order[1..]
  {
  }

  lemma InsertedValues(log: map<nat, Record>, tp: Tp, maxSize: int, order: seq<Key>, cache: map<Key, Record>, key: Key)
    requires key.tp == tp && key.offset in log
    requires forall k <- cache :: k.tp == tp && k.offset in log && cache[k] == log[k.offset]
    ensures var c := Inserted(log, maxSize, order, cache, key);
      forall k <- c :: k.tp == tp && k.offset in log && c[k] == log[k.offset]
  {
  }

  lemma InsertedMember(log: map<nat, Record>, maxSize: int, order: seq<Key>, cache: map<Key, Record>, key: Key, k: Key)
    requires key.offset in log && maxSize >= 1 && key !in order && (k in cache <==> k in order)
    requires order != [] ==> order == [order[0]] + order[1..] && order[0] !in order[1..]
    ensures k in Inserted(log, maxSize, order, cache, key) <==> k in PutOrder(order, maxSize, key)
  {
  }

  /** `uses` is the history of cache uses: the keys put or served, in order; `polls` counts the
      calls of PollFetches. */
  class CachedKafkaClient {
    const underlying: LogClient
    const maxSize: int
    var cache: map<Key, Record>
    var evictOrder: seq<Key>
    var seekTarget: Option<nat>
    ghost var uses: seq<Key>
    ghost var polls: nat

    ghost predicate Valid()
      reads this
    {
      IsLog(underlying.log, underlying.tp) && Lru(underlying.log, underlying.tp, uses, maxSize, evictOrder, cache)
    }

    /** The offset the next delivered record will be looked for at. */
    function Position(): nat
      reads this, underlying
    {
      if seekTarget.Some? then seekTarget.value else underlying.pos
    }

    /** A seek is active and its record is in the cache. */
    predicate Hit()
      reads this
    {
      seekTarget.Some? && Key(underlying.tp, seekTarget.value) in cache
    }

    constructor (underlying: LogClient, maxSize: int)
      requires IsLog(underlying.log, underlying.tp)
      ensures Valid() && this.underlying == underlying && this.maxSize == maxSize
      ensures seekTarget == None && uses == [] && polls == 0
    {
      this.underlying, this.maxSize := underlying, maxSize;
      cache, evictOrder, seekTarget, uses, polls := map[], [], None, [], 0;
    }

    method Seek(offset: nat)
      requires Valid()
      modifies this`seekTarget
      ensures Valid() && Position() == offset
    {
      seekTarget := Some(offset);
    }

    method TouchLRU(key: Key)
      requires NoDup(evictOrder)
      modifies this`evictOrder
      ensures evictOrder == Touched(old(evictOrder), key)
    {
      for i := 0 to |evictOrder|
        invariant evictOrder == old(evictOrder)
        invariant key !in evictOrder[..i]
      {
        if evictOrder[i] == key {
          TouchAt(evictOrder, i);
          evictOrder := evictOrder[..i] + evictOrder[i + 1..];
          evictOrder := evictOrder + [key];
          return;
        }
      }
    }

    /** Adds a record. Evicting from an empty list panics: that is, with a size below one. */
    method Put(key: Key, record: Record) returns (panicked: bool)
      requires Valid() && key.tp == underlying.tp && key.offset in underlying.log
      requires record == underlying.log[key.offset]
      modifies this`cache, this`evictOrder, this`uses
      ensures panicked <==> maxSize < 1
      ensures !panicked ==> Valid() && uses == old(uses) + [key]
      ensures panicked ==> cache == old(cache) && evictOrder == old(evictOrder) && uses == old(uses)
    {
      CacheSize(underlying.log, underlying.tp, uses, maxSize, evictOrder, cache);
      if key in cache {
        LruTouch(underlying.log, underlying.tp, uses, maxSize, evictOrder, cache, key);
        TouchLRU(key);
        uses := uses + [key];
        return false;
      }
      if maxSize >= 1 {
        LruInsert(underlying.log, underlying.tp, uses, maxSize, evictOrder, cache, key);
      }
      if |cache| >= maxSize {
        if |evictOrder| == 0 {
          return true;
        }
        var evictKey := evictOrder[0];
        evictOrder := evictOrder[1..];
        cache := cache - {evictKey};
      }
      cache := cache[key := record];
      evictOrder := evictOrder + [key];
      uses := uses + [key];
      panicked := false;
    }

    /** A cache hit: the record becomes the most recently used one. */
    method FromCache(key: Key) returns (record: Record)
      requires Valid() && key in cache
      modifies this`evictOrder, this`uses
      ensures Valid() && uses == old(uses) + [key]
      ensures maxSize >= 1 && key.offset in underlying.log && record == underlying.log[key.offset] && KeyOf(record) == key
    {
      record := cache[key];
      CacheSize(underlying.log, underlying.tp, uses, maxSize, evictOrder, cache);
      LruTouch(underlying.log, underlying.tp, uses, maxSize, evictOrder, cache, key);
      TouchLRU(key);
      uses := uses + [key];
    }

    /** From the cache while seeking, else from the log: in both cases a contiguous run of log
        records from the present position, which moves past it, exactly like the plain client. */
    method PollFetches() returns (f: Fetches, panicked: bool)
      requires Valid()
      modifies this, underlying
      ensures panicked <==> maxSize < 1 && f.Records? && f.records != []
      ensures !panicked ==> Valid() && uses == old(uses) + (if f.Records? then KeysOf(f.records) else [])
      ensures f.Errors? ==> Position() == old(Position())
      ensures f.Records? ==> old(Position()) <= Position() && f.records == Slice(underlying.log, old(Position()), Position())
      ensures old(Hit()) ==>
                && old(Position()) in underlying.log && f == Records([underlying.log[old(Position())]])
                && seekTarget == Some(old(Position()) + 1)
                && underlying.pos == old(underlying.pos) && underlying.polled == old(underlying.polled)
      ensures !old(Hit()) ==>
                && f == Fetched(underlying.log, old(Position()), underlying.broker(old(underlying.polled)))
                && seekTarget == None && underlying.polled == old(underlying.polled) + 1
      ensures polls == old(polls) + 1
    {
      polls := polls + 1;
      if seekTarget.Some? {
        var offset := seekTarget.value;
        if Key(underlying.tp, offset) in cache {
          f := ServeCached(offset);
          return f, false;
        }
        underlying.Seek(offset);
        seekTarget := None;
      }
      f, panicked := PollUnderlying();
    }

    /** The part of PollFetches that serves a hit. */
    method ServeCached(offset: nat) returns (f: Fetches)
      requires Valid() && seekTarget == Some(offset) && Hit()
      modifies this`evictOrder, this`uses, this`seekTarget
      ensures Valid() && maxSize >= 1 && offset in underlying.log && f == Records([underlying.log[offset]])
      ensures f.records == Slice(underlying.log, offset, offset + 1) && uses == old(uses) + KeysOf(f.records)
      ensures seekTarget == Some(offset + 1)
    {
      var record := FromCache(Key(underlying.tp, offset));
      seekTarget := Some(offset + 1);
      OneRecord(underlying.log, offset);
      OneKey(record);
      f := Records([record]);
    }

    /** The part of PollFetches that goes to the underlying client. */
    method PollUnderlying() returns (f: Fetches, panicked: bool)
      requires Valid() && seekTarget == None
      modifies underlying, this`cache, this`evictOrder, this`uses
      ensures panicked <==> maxSize < 1 && f.Records? && f.records != []
      ensures !panicked ==> Valid() && uses == old(uses) + (if f.Records? then KeysOf(f.records) else [])
      ensures f == Fetched(underlying.log, old(underlying.pos), underlying.broker(old(underlying.polled)))
      ensures underlying.polled == old(underlying.polled) + 1
      ensures f.Errors? ==> underlying.pos == old(underlying.pos)
      ensures f.Records? ==> old(underlying.pos) <= underlying.pos && f.records == Slice(underlying.log, old(underlying.pos), underlying.pos)
    {
      panicked := false;
      f := underlying.PollFetches();
      if f.Records? {
        SliceMembers(underlying.log, underlying.tp, old(underlying.pos), underlying.pos);
        panicked := PutAll(f.records);
      } else {
        assert uses + [] == uses;
      }
    }

    /** Cache every fetched record. */
    method PutAll(records: seq<Record>) returns (panicked: bool)
      requires Valid()
      requires forall r <- records :: r.tp == underlying.tp && r.offset in underlying.log && underlying.log[r.offset] == r
      modifies this`cache, this`evictOrder, this`uses
      ensures panicked <==> maxSize < 1 && records != []
      ensures !panicked ==> Valid() && uses == old(uses) + KeysOf(records)
    {
      panicked := false;
      for i := 0 to |records|
        invariant Valid() && !panicked && (i > 0 ==> maxSize >= 1)
        invariant uses == old(uses) + KeysOf(records[..i])
      {
        panicked := Put(KeyOf(records[i]), records[i]);
        if panicked { return; }
        assert records[..i + 1][..i] == records[..i];
      }
      assert records[..|records|] == records;
    }
  }

  lemma OneKey(record: Record)
    ensures KeysOf([record]) == [KeyOf(record)]
  {
    assert [record][..0] == [];
  }

  lemma OneRecord(log: map<nat, Record>, offset: nat)
    requires offset in log
    ensures Slice(log, offset, offset + 1) == [log[offset]]
  {
    assert Slice(log, offset + 1, offset + 1) == [];
  }

  lemma TouchAt(order: seq<Key>, i: nat)
    requires NoDup(order) && i < |order|
    ensures order[..i] + order[i + 1..] + [order[i]] == Touched(order, order[i])
  {
    var x, a, b := order[i], order[..i], order[i..];
    assert order == a + b && b[0] == x;
    WithoutAppend(a, b, x);
    WithoutAbsent(a, x);
    WithoutFront(b);
  }

  /** One more use of a key keeps the LRU order. */
  lemma Used(uses: seq<Key>, maxSize: int, key: Key)
    requires maxSize >= 1
    ensures LastN(Recency(uses + [key]), maxSize) == PutOrder(LastN(Recency(uses), maxSize), maxSize, key)
  {
    RecencySnoc(uses, key);
    RecencyNoDup(uses);
    LastNUse(Recency(uses), maxSize, key);
  }

  lemma CacheSize(log: map<nat, Record>, tp: Tp, uses: seq<Key>, maxSize: int, order: seq<Key>, cache: map<Key, Record>)
    requires Lru(log, tp, uses, maxSize, order, cache)
    ensures NoDup(order) && |cache| == |order|
    ensures |order| <= if maxSize >= 1 then maxSize else 0
  {
    RecencyNoDup(uses);
    assert NoDup(order);
    assert cache.Keys == set k | k in order;
    KeysCard(order);
  }

  lemma {:induction false} KeysCard(s: seq<Key>)
    requires NoDup(s)
    ensures |(set k | k in s)| == |s|
  {
    if s != [] {
      KeysCard(s[1..]);
      assert (set k | k in s) == {s[0]} + (set k | k in s[1..]);
    }
  }

  /** The key a full cache evicts is the one whose last use is the oldest of all cached keys. */
  lemma EvictsLeastRecent(uses: seq<Key>, maxSize: nat, key: Key)
    requires maxSize >= 1
    ensures var order := LastN(Recency(uses), maxSize);
      key !in order && |order| == maxSize ==>
        && LastN(Recency(uses + [key]), maxSize) == order[1..] + [key]
        && forall k <- order :: LastUse(uses, order[0]) <= LastUse(uses, k)
  {
    Used(uses, maxSize, key);
    var r, order := Recency(uses), LastN(Recency(uses), maxSize);
    if |order| == maxSize {
      forall k <- order ensures LastUse(uses, order[0]) <= LastUse(uses, k) {
        var j :| 0 <= j < |order| && order[j] == k;
        var n := |r| - |order|;
        assert order[0] == r[n] && k == r[n + j];
        RecencyOrdered(uses, n, n + j);
      }
    }
  }

  /** The index of the last use of a key, or -1. */
  function LastUse(uses: seq<Key>, key: Key): int {
    if uses == [] then -1
    else if uses[|uses| - 1] == key then |uses| - 1
    else LastUse(uses[..|uses| - 1], key)
  }

  lemma {:induction false} LastUseBound(uses: seq<Key>, key: Key)
    ensures -1 <= LastUse(uses, key) < |uses|
  {
    if uses != [] {
      LastUseBound(uses[..|uses| - 1], key);
    }
  }

  /** Recency lists keys by last use. */
  lemma {:induction false} RecencyOrdered(uses: seq<Key>, i: nat, j: nat)
    requires i <= j < |Recency(uses)|
    ensures LastUse(uses, Recency(uses)[i]) <= LastUse(uses, Recency(uses)[j])
  {
    if uses != [] {
      var init, last := uses[..|uses| - 1], uses[|uses| - 1];
      var r, w := Recency(init), Without(Recency(init), last);
      LastUseBound(init, Recency(uses)[i]);
      if j < |w| {
        RecencyNoDup(init);
        WithoutMember(r, last, w[i]);
        WithoutMember(r, last, w[j]);
        var i', j' := WithoutOrder(r, last, i, j);
        RecencyOrdered(init, i', j');
      }
    }
  }

  lemma {:induction false} WithoutOrder(s: seq<Key>, x: Key, i: nat, j: nat) returns (i': nat, j': nat)
    requires i <= j < |Without(s, x)|
    ensures i' <= j' < |s| && s[i'] == Without(s, x)[i] && s[j'] == Without(s, x)[j]
  {
    if s[0] == x {
      var a, b := WithoutOrder(s[1..], x, i, j);
      i', j' := a + 1, b + 1;
    } else if i == 0 {
      i' := 0;
      if j == 0 {
        j' := 0;
      } else {
        var a, b := WithoutOrder(s[1..], x, j - 1, j - 1);
        j' := b + 1;
      }
    } else {
      var a, b := WithoutOrder(s[1..], x, i - 1, j - 1);
      i', j' := a + 1, b + 1;
    }
  }
}
