/** The memory pool of a worker: one task owns the free-memory counter and a
    FIFO of allocations that have to wait (go/worker/sandbox/memPool.go). */
module MemPool {

  /** `mb >= 0` returns memory (0 just asks how much is free); `mb < 0` allocates. */
  datatype Req<T> = Req(who: T, mb: int)

  datatype Pool<T> = Pool(availableMB: int, waiting: seq<Req<T>>)

  /** A pool, the requests answered so far, and the free memory each answer reported. */
  datatype Turned<T> = Turned(pool: Pool<T>, served: seq<Req<T>>, left: seq<int>)

  function From<T>(pool: Pool<T>): Turned<T> {
    Turned(pool, [], [])
  }

  /** First half of a turn: take a release at once, queue an allocation. */
  function Accept<T>(t: Turned<T>, req: Req<T>): Turned<T> {
    if req.mb >= 0 then
      var now := t.pool.availableMB + req.mb;
      Turned(Pool(now, t.pool.waiting), t.served + [req], t.left + [now])
    else
      Turned(Pool(t.pool.availableMB, t.pool.waiting + [req]), t.served, t.left)
  }

  predicate FrontFits<T>(pool: Pool<T>) {
    pool.waiting != [] && pool.availableMB + pool.waiting[0].mb >= 0
  }

  /** Second half: at most one waiter, the oldest, is served. */
  function ServeFront<T>(t: Turned<T>): Turned<T> {
    if FrontFits(t.pool) then
      var front := t.pool.waiting[0];
      var now := t.pool.availableMB + front.mb;
      Turned(Pool(now, t.pool.waiting[1..]), t.served + [front], t.left + [now])
    else t
  }

  /** One iteration of memTask, after what `t` says has been answered. */
  function Handle<T>(t: Turned<T>, req: Req<T>): Turned<T> {
    ServeFront(Accept(t, req))
  }

  function Turn<T>(pool: Pool<T>, req: Req<T>): Turned<T> {
    Handle(From(pool), req)
  }

  /** The state of memTask after a whole message history. */
  function Serve<T>(totalMB: int, msgs: seq<Req<T>>): Turned<T> {
    if msgs == [] then From(Pool(totalMB, []))
    else Handle(Serve(totalMB, msgs[..|msgs| - 1]), msgs[|msgs| - 1])
  }

  lemma ServeNext<T>(totalMB: int, msgs: seq<Req<T>>, n: nat)
    requires n < |msgs|
    ensures Serve(totalMB, msgs[..n + 1]) == Handle(Serve(totalMB, msgs[..n]), msgs[n])
  {
    assert msgs[..n + 1][..n] == msgs[..n];
  }

  /** The body of the task's loop, once the request is known to fit the pool. */
  method HandleRequest<T>(req: Req<T>, available: int, queue: seq<Req<T>>, answered: seq<Req<T>>, rests: seq<int>)
    returns (availableMB: int, waiting: seq<Req<T>>, served: seq<Req<T>>, left: seq<int>)
    ensures Turned(Pool(availableMB, waiting), served, left) == Handle(Turned(Pool(available, queue), answered, rests), req)
  {
    availableMB, waiting, served, left := available, queue, answered, rests;
    if req.mb >= 0 {
      availableMB := availableMB + req.mb;
      served, left := served + [req], left + [availableMB];
    } else {
      waiting := waiting + [req];
    }
    if |waiting| > 0 {
      var front := waiting[0];
      if availableMB + front.mb >= 0 {
        waiting := waiting[1..];
        availableMB := availableMB + front.mb;
        served, left := served + [front], left + [availableMB];
      }
    }
  }

  /** The task itself: `availableMB` and the waiting list are its local variables.
      It panics on an allocation larger than the whole pool. */
  method MemTask<T>(totalMB: int, msgs: seq<Req<T>>)
    returns (availableMB: int, waiting: seq<Req<T>>, served: seq<Req<T>>, left: seq<int>, handled: nat)
    ensures handled <= |msgs|
    ensures forall i :: 0 <= i < handled ==> totalMB + msgs[i].mb >= 0
    ensures handled < |msgs| ==> totalMB + msgs[handled].mb < 0
    ensures Serve(totalMB, msgs[..handled]) == Turned(Pool(availableMB, waiting), served, left)
  {
    availableMB, waiting, served, left, handled := totalMB, [], [], [], 0;
    while handled < |msgs|
      invariant 0 <= handled <= |msgs|
      invariant forall i :: 0 <= i < handled ==> totalMB + msgs[i].mb >= 0
      invariant Serve(totalMB, msgs[..handled]) == Turned(Pool(availableMB, waiting), served, left)
    {
      if totalMB + msgs[handled].mb < 0 {
        return;
      }
      ServeNext(totalMB, msgs, handled);
      availableMB, waiting, served, left := HandleRequest(msgs[handled], availableMB, waiting, served, left);
      handled := handled + 1;
    }
  }

  // ---------------------------------------------------------------- properties

  function Sum<T>(reqs: seq<Req<T>>): int {
    if reqs == [] then 0 else Sum(reqs[..|reqs| - 1]) + reqs[|reqs| - 1].mb
  }

  lemma {:induction false} SumAppend<T>(a: seq<Req<T>>, b: seq<Req<T>>)
    ensures Sum(a + b) == Sum(a) + Sum(b)
    decreases |b|
  {
    if b == [] {
      assert a + b == a;
    } else {
      assert (a + b)[..|a + b| - 1] == a + b[..|b| - 1];
      SumAppend(a, b[..|b| - 1]);
    }
  }

  /** The allocations in a history, in order of arrival. */
  function Allocations<T>(reqs: seq<Req<T>>): seq<Req<T>> {
    if reqs == [] then []
    else
      var last := reqs[|reqs| - 1];
      Allocations(reqs[..|reqs| - 1]) + (if last.mb < 0 then [last] else [])
  }

  /** The releases and polls in a history, in order of arrival. */
  function Releases<T>(reqs: seq<Req<T>>): seq<Req<T>> {
    if reqs == [] then []
    else
      var last := reqs[|reqs| - 1];
      Releases(reqs[..|reqs| - 1]) + (if last.mb >= 0 then [last] else [])
  }

  lemma {:induction false} SplitAppend<T>(a: seq<Req<T>>, b: seq<Req<T>>)
    ensures Allocations(a + b) == Allocations(a) + Allocations(b)
    ensures Releases(a + b) == Releases(a) + Releases(b)
    decreases |b|
  {
    if b == [] {
      assert a + b == a;
    } else {
      assert (a + b)[..|a + b| - 1] == a + b[..|b| - 1];
      SplitAppend(a, b[..|b| - 1]);
    }
  }

  ghost predicate Sound<T>(pool: Pool<T>) {
    pool.availableMB >= 0 && forall r <- pool.waiting :: r.mb < 0
  }

  lemma SingletonOrEmpty<T>(r: seq<Req<T>>)
    requires |r| <= 1
    ensures Sum(r) == if r == [] then 0 else r[0].mb
    ensures Allocations(r) == if r != [] && r[0].mb < 0 then r else []
    ensures Releases(r) == if r != [] && r[0].mb >= 0 then r else []
  {
    if r != [] {
      assert r[..0] == [] && r == [r[0]];
    }
  }

  /** From `pool`, the messages `incoming` have led to `t`: exactly what was answered has been
      moved, the queue keeps its order, and every release has been answered. */
  ghost predicate Accounts<T>(pool: Pool<T>, incoming: seq<Req<T>>, t: Turned<T>) {
    && Sound(t.pool)
    && t.pool.availableMB == pool.availableMB + Sum(t.served)
    && pool.waiting + Allocations(incoming) == Allocations(t.served) + t.pool.waiting
    && Releases(incoming) == Releases(t.served)
    && forall n <- t.left :: n >= 0
  }

  lemma Regroup<A>(w: seq<A>, x: seq<A>, p: seq<A>, v: seq<A>, y: seq<A>)
    requires w + x == p + v
    ensures w + (x + y) == p + (v + y)
  {
    assert w + (x + y) == (w + x) + y;
    assert (p + v) + y == p + (v + y);
  }

  /** A release is answered at once. */
  lemma ReleaseAccounts<T>(pool: Pool<T>, incoming: seq<Req<T>>, t: Turned<T>, req: Req<T>)
    requires Accounts(pool, incoming, t) && req.mb >= 0
    ensures Accounts(pool, incoming + [req], Accept(t, req))
  {
    SingletonOrEmpty([req]);
    SumAppend(t.served, [req]);
    SplitAppend(t.served, [req]);
    SplitAppend(incoming, [req]);
    assert Allocations(incoming) + [] == Allocations(incoming) && Allocations(t.served) + [] == Allocations(t.served);
  }

  /** An allocation goes to the end of the queue. */
  lemma AllocationAccounts<T>(pool: Pool<T>, incoming: seq<Req<T>>, t: Turned<T>, req: Req<T>)
    requires Accounts(pool, incoming, t) && req.mb < 0
    ensures Accounts(pool, incoming + [req], Accept(t, req))
  {
    SingletonOrEmpty([req]);
    SplitAppend(incoming, [req]);
    Regroup(pool.waiting, Allocations(incoming), Allocations(t.served), t.pool.waiting, [req]);
    assert Releases(incoming) + [] == Releases(incoming);
  }

  lemma AcceptAccounts<T>(pool: Pool<T>, incoming: seq<Req<T>>, t: Turned<T>, req: Req<T>)
    requires Accounts(pool, incoming, t)
    ensures Accounts(pool, incoming + [req], Accept(t, req))
  {
    if req.mb >= 0 {
      ReleaseAccounts(pool, incoming, t, req);
    } else {
      AllocationAccounts(pool, incoming, t, req);
    }
  }

  /** The oldest waiter goes from the queue to the served. */
  lemma FrontMoves<A>(p: seq<A>, v: seq<A>)
    requires v != []
    ensures p + v == (p + [v[0]]) + v[1..]
  {
  }

  lemma ServeFrontAccounts<T>(pool: Pool<T>, incoming: seq<Req<T>>, t: Turned<T>)
    requires Accounts(pool, incoming, t)
    ensures Accounts(pool, incoming, ServeFront(t))
  {
    if FrontFits(t.pool) {
      var front := t.pool.waiting[0];
      SingletonOrEmpty([front]);
      SumAppend(t.served, [front]);
      SplitAppend(t.served, [front]);
      FrontMoves(Allocations(t.served), t.pool.waiting);
    }
  }

  /** A turn never overdraws, moves exactly what it answers and keeps the queue order. */
  lemma HandleAccounts<T>(pool: Pool<T>, incoming: seq<Req<T>>, t: Turned<T>, req: Req<T>)
    requires Accounts(pool, incoming, t)
    ensures Accounts(pool, incoming + [req], Handle(t, req))
  {
    AcceptAccounts(pool, incoming, t, req);
    ServeFrontAccounts(pool, incoming + [req], Accept(t, req));
  }

  lemma TurnAccounts<T>(pool: Pool<T>, req: Req<T>)
    requires Sound(pool)
    ensures Accounts(pool, [req], Turn(pool, req))
  {
    assert pool.waiting + Allocations<T>([]) == Allocations<T>([]) + pool.waiting;
    HandleAccounts(pool, [], From(pool), req);
    assert [] + [req] == [req];
  }

  lemma AcceptKeeps<T>(pool: Pool<T>, req: Req<T>)
    ensures var a := Accept(From(pool), req);
      multiset(a.served) + multiset(a.pool.waiting) == multiset(pool.waiting) + multiset{req}
  {
    assert multiset([] + [req]) == multiset{req};
    assert multiset(pool.waiting + [req]) == multiset(pool.waiting) + multiset{req};
  }

  lemma ServeFrontKeeps<T>(t: Turned<T>)
    ensures var b := ServeFront(t); multiset(b.served) + multiset(b.pool.waiting) == multiset(t.served) + multiset(t.pool.waiting)
  {
    if FrontFits(t.pool) {
      var front, rest := t.pool.waiting[0], t.pool.waiting[1..];
      assert t.pool.waiting == [front] + rest;
      assert multiset(t.pool.waiting) == multiset{front} + multiset(rest);
      assert multiset(t.served + [front]) == multiset(t.served) + multiset{front};
    }
  }

  /** No request is lost or duplicated by a turn. */
  lemma TurnKeepsRequests<T>(pool: Pool<T>, req: Req<T>)
    ensures var t := Turn(pool, req);
      multiset(t.served) + multiset(t.pool.waiting) == multiset(pool.waiting) + multiset{req}
    ensures |Turn(pool, req).served| == |Turn(pool, req).left| <= 2
  {
    AcceptKeeps(pool, req);
    ServeFrontKeeps(Accept(From(pool), req));
  }

  /** Over any history: grants are FIFO (a prefix of the allocations received, the rest
      still waits in order), releases are answered at once and in order, every answer
      reports a non-negative rest, and the counter is the total plus all that was answered. */
  lemma {:induction false} GrantsAreFifo<T>(totalMB: nat, msgs: seq<Req<T>>)
    ensures var s := Serve(totalMB, msgs);
      && Allocations(msgs) == Allocations(s.served) + s.pool.waiting
      && Releases(msgs) == Releases(s.served)
      && s.pool.availableMB == totalMB + Sum(s.served)
      && (forall n <- s.left :: n >= 0)
      && Sound(s.pool)
  {
    HistoryAccounts(totalMB, msgs);
    assert [] + Allocations(msgs) == Allocations(msgs);
  }

  lemma {:induction false} HistoryAccounts<T>(totalMB: nat, msgs: seq<Req<T>>)
    ensures Accounts(Pool(totalMB, []), msgs, Serve(totalMB, msgs))
    decreases |msgs|
  {
    if msgs != [] {
      var init, last := msgs[..|msgs| - 1], msgs[|msgs| - 1];
      HistoryAccounts(totalMB, init);
      HandleAccounts(Pool(totalMB, []), init, Serve(totalMB, init), last);
      assert init + [last] == msgs;
    }
  }

  /** Each answer reports what is free once it, and all before it, have been granted. */
  ghost predicate Reports<T>(start: int, t: Turned<T>) {
    && |t.left| == |t.served|
    && t.pool.availableMB == start + Sum(t.served)
    && forall i :: 0 <= i < |t.left| ==> t.left[i] == start + Sum(t.served[..i + 1])
  }

  lemma ReportsOne<T>(start: int, t: Turned<T>, req: Req<T>, waiting: seq<Req<T>>)
    requires Reports(start, t)
    ensures var now := t.pool.availableMB + req.mb;
      Reports(start, Turned(Pool(now, waiting), t.served + [req], t.left + [now]))
  {
    var now := t.pool.availableMB + req.mb;
    var served, left := t.served + [req], t.left + [now];
    assert served[..|t.served|] == t.served && served[..|served|] == served;
    forall i | 0 <= i < |left| ensures left[i] == start + Sum(served[..i + 1]) {
      if i < |t.left| {
        assert served[..i + 1] == t.served[..i + 1];
      }
    }
  }

  lemma AcceptReports<T>(start: int, t: Turned<T>, req: Req<T>)
    requires Reports(start, t)
    ensures Reports(start, Accept(t, req))
  {
    if req.mb >= 0 {
      ReportsOne(start, t, req, t.pool.waiting);
    }
  }

  lemma ServeFrontReports<T>(start: int, t: Turned<T>)
    requires Reports(start, t)
    ensures Reports(start, ServeFront(t))
  {
    if FrontFits(t.pool) {
      ReportsOne(start, t, t.pool.waiting[0], t.pool.waiting[1..]);
    }
  }

  lemma HandleReports<T>(start: int, t: Turned<T>, req: Req<T>)
    requires Reports(start, t)
    ensures Reports(start, Handle(t, req))
  {
    AcceptReports(start, t, req);
    ServeFrontReports(start, Accept(t, req));
  }

  /** Over any history the i-th answer goes to the i-th request served and tells it what is
      left after it. */
  lemma {:induction false} AnswersReport<T>(totalMB: int, msgs: seq<Req<T>>)
    ensures Reports(totalMB, Serve(totalMB, msgs))
    decreases |msgs|
  {
    if msgs != [] {
      AnswersReport(totalMB, msgs[..|msgs| - 1]);
      HandleReports(totalMB, Serve(totalMB, msgs[..|msgs| - 1]), msgs[|msgs| - 1]);
    }
  }

  /** `k` zero-MB polls in a row. */
  function Polls<T>(pool: Pool<T>, who: T, k: nat): Turned<T>
    decreases k
  {
    if k == 0 then Turned(pool, [], [])
    else
      var t := Turn(pool, Req(who, 0));
      var rest := Polls(t.pool, who, k - 1);
      Turned(rest.pool, t.served + rest.served, t.left + rest.left)
  }

  /** `k` polls of `pool` that end in `end` granted exactly the first `j` waiters, and `j` is
      where the polls run out, the queue runs out, or the next waiter does not fit. */
  ghost predicate Drained<T>(pool: Pool<T>, k: nat, j: nat, end: Pool<T>, granted: seq<Req<T>>) {
    && j <= k && j <= |pool.waiting|
    && granted == pool.waiting[..j]
    && end.waiting == pool.waiting[j..]
    && end.availableMB == pool.availableMB + Sum(granted) >= 0
    && (j == k || j == |pool.waiting| || end.availableMB + pool.waiting[j].mb < 0)
  }

  /** The pool after its front, if that fits, is served. */
  function Served<T>(pool: Pool<T>): Pool<T> {
    ServeFront(From(pool)).pool
  }

  /** Polling drains the queue one waiter a poll, in order. */
  lemma {:induction false} PollsGrant<T>(pool: Pool<T>, who: T, k: nat) returns (j: nat)
    requires Sound(pool)
    ensures Drained(pool, k, j, Polls(pool, who, k).pool, Allocations(Polls(pool, who, k).served))
    decreases k
  {
    if k == 0 {
      j := 0;
    } else {
      PollsUnfold(pool, who, k);
      j := PollsGrant(Served(pool), who, k - 1);
      var rest := Polls(Served(pool), who, k - 1);
      j := DrainedMore(pool, k - 1, j, rest.pool, Allocations(rest.served));
    }
  }

  lemma DrainedMore<T>(pool: Pool<T>, k: nat, j: nat, end: Pool<T>, granted: seq<Req<T>>) returns (n: nat)
    requires Sound(pool) && Drained(Served(pool), k, j, end, granted)
    ensures Drained(pool, k + 1, n, end, if FrontFits(pool) then [pool.waiting[0]] + granted else granted)
  {
    if FrontFits(pool) {
      DrainedOne(pool, k, j, end, granted);
      n := j + 1;
    } else {
      DrainedNone(pool, k, j, end, granted);
      n := j;
    }
  }

  lemma PollsUnfold<T>(pool: Pool<T>, who: T, k: nat)
    requires Sound(pool) && k > 0
    ensures Sound(Served(pool))
    ensures var rest := Polls(Served(pool), who, k - 1);
      && Polls(pool, who, k).pool == rest.pool
      && Allocations(Polls(pool, who, k).served) ==
         if FrontFits(pool) then [pool.waiting[0]] + Allocations(rest.served) else Allocations(rest.served)
  {
    PollTurn(pool, who);
    SplitAppend(Turn(pool, Req(who, 0)).served, Polls(Served(pool), who, k - 1).served);
  }

  lemma DrainedOne<T>(pool: Pool<T>, k: nat, j: nat, end: Pool<T>, granted: seq<Req<T>>)
    requires FrontFits(pool)
    requires Drained(Pool(pool.availableMB + pool.waiting[0].mb, pool.waiting[1..]), k, j, end, granted)
    ensures Drained(pool, k + 1, j + 1, end, [pool.waiting[0]] + granted)
  {
    var w := pool.waiting;
    SumAppend([w[0]], granted);
    SingletonOrEmpty([w[0]]);
    FrontSlices(w, j);
  }

  lemma FrontSlices<A>(w: seq<A>, j: nat)
    requires j < |w|
    ensures [w[0]] + w[1..][..j] == w[..j + 1] && w[1..][j..] == w[j + 1..]
  {
  }

  lemma DrainedNone<T>(pool: Pool<T>, k: nat, j: nat, end: Pool<T>, granted: seq<Req<T>>)
    requires Sound(pool) && !FrontFits(pool)
    requires Drained(pool, k, j, end, granted)
    ensures j == 0 && Drained(pool, k + 1, j, end, granted)
  {
    if j > 0 {
      PrefixFits(pool, j);
    }
  }

  lemma AcceptPoll<T>(pool: Pool<T>, poll: Req<T>)
    requires poll.mb == 0
    ensures Accept(From(pool), poll) == Turned(pool, [poll], [pool.availableMB])
  {
    assert [] + [poll] == [poll] && [] + [pool.availableMB] == [pool.availableMB];
  }

  lemma PollTurn<T>(pool: Pool<T>, who: T)
    requires Sound(pool)
    ensures Turn(pool, Req(who, 0)).pool == Served(pool)
    ensures Allocations(Turn(pool, Req(who, 0)).served) == if FrontFits(pool) then [pool.waiting[0]] else []
  {
    var poll := Req(who, 0);
    AcceptPoll(pool, poll);
    SingletonOrEmpty([poll]);
    if FrontFits(pool) {
      SplitAppend([poll], [pool.waiting[0]]);
      SingletonOrEmpty([pool.waiting[0]]);
    }
  }

  /** Waiters ask for something, so if a non-empty prefix fits then the first one does. */
  lemma {:induction false} PrefixFits<T>(pool: Pool<T>, j: nat)
    requires Sound(pool) && 0 < j <= |pool.waiting|
    requires pool.availableMB + Sum(pool.waiting[..j]) >= 0
    ensures FrontFits(pool)
    decreases j
  {
    assert pool.waiting[..j][..j - 1] == pool.waiting[..j - 1];
    if j == 1 {
      SingletonOrEmpty(pool.waiting[..1]);
    } else {
      PrefixFits(pool, j - 1);
    }
  }

  /** If the first `k` waiters fit together, `k` polls grant exactly those. */
  lemma PollsDrain<T>(pool: Pool<T>, who: T, k: nat)
    requires Sound(pool) && k <= |pool.waiting|
    requires pool.availableMB + Sum(pool.waiting[..k]) >= 0
    ensures Allocations(Polls(pool, who, k).served) == pool.waiting[..k]
    ensures Polls(pool, who, k).pool.waiting == pool.waiting[k..]
  {
    var j := PollsGrant(pool, who, k);
    if j < k {
      AllFit(pool, j, k);
    }
  }

  lemma AllFit<T>(pool: Pool<T>, j: nat, k: nat)
    requires Sound(pool) && j < k <= |pool.waiting|
    requires pool.availableMB + Sum(pool.waiting[..k]) >= 0
    ensures pool.availableMB + Sum(pool.waiting[..j]) + pool.waiting[j].mb >= 0
  {
    assert pool.waiting[..j + 1][..j] == pool.waiting[..j];
    SumShrinks(pool.waiting, j + 1, k);
  }

  lemma {:induction false} SumShrinks<T>(w: seq<Req<T>>, i: nat, j: nat)
    requires i <= j <= |w| && forall r <- w :: r.mb < 0
    ensures Sum(w[..i]) >= Sum(w[..j])
    decreases j
  {
    if i < j {
      assert w[..j][..j - 1] == w[..j - 1];
      SumShrinks(w, i, j - 1);
    }
  }

  /** No waiter that could be served is left waiting. */
  ghost predicate Quiet<T>(pool: Pool<T>) {
    !FrontFits(pool)
  }

  /** After a message a waiter that fits is left waiting exactly when, with the message taken
      in, there is memory for the two oldest waiters together: a message wakes only one. */
  lemma LeftWaitingIff<T>(pool: Pool<T>, req: Req<T>)
    requires Sound(pool)
    ensures var w := if req.mb < 0 then pool.waiting + [req] else pool.waiting;
      var free := pool.availableMB + if req.mb < 0 then 0 else req.mb;
      !Quiet(Turn(pool, req).pool) <==> |w| >= 2 && free + w[0].mb + w[1].mb >= 0
  {
    var a := Accept(From(pool), req).pool;
    assert |a.waiting| >= 2 ==> a.waiting[1].mb < 0 && a.waiting[1..][0] == a.waiting[1];
  }

  /** In particular quietness is not invariant: it is lost exactly when a release frees enough
      for the two oldest waiters together. */
  lemma QuietLostIff<T>(pool: Pool<T>, req: Req<T>)
    requires Sound(pool) && Quiet(pool)
    ensures !Quiet(Turn(pool, req).pool) <==>
            && req.mb >= 0
            && |pool.waiting| >= 2
            && pool.availableMB + req.mb + pool.waiting[0].mb + pool.waiting[1].mb >= 0
  {
    LeftWaitingIff(pool, req);
    if req.mb < 0 && pool.waiting != [] {
      assert (pool.waiting + [req])[0] == pool.waiting[0];
    }
  }

  /** A reachable loss: two 2 MB waiters behind a full 4 MB pool, all of it returned at once. */
  lemma QuietCanBeLost()
    ensures var s := Serve(4, [Req(0, -4), Req(1, -2), Req(2, -2), Req(0, 4)]);
      s.pool == Pool(2, [Req(2, -2)]) && !Quiet(s.pool)
  {
    var m := [Req(0, -4), Req(1, -2), Req(2, -2), Req(0, 4)];
    assert m[..3] == [Req(0, -4), Req(1, -2), Req(2, -2)];
    assert m[..3][..2] == [Req(0, -4), Req(1, -2)];
    assert m[..3][..2][..1] == [Req(0, -4)];
    assert m[..3][..2][..1][..0] == [];
    assert Serve(4, m[..3][..2][..1]).pool == Pool(0, []);
    assert Serve(4, m[..3][..2]).pool == Pool(0, [Req(1, -2)]);
    assert Serve(4, m[..3]).pool == Pool(0, [Req(1, -2), Req(2, -2)]);
  }
}
