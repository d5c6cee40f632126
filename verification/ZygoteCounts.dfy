/** What every step of the import cache keeps: hold counts, pausing, locks, no stray Zygotes. */
module ZygoteCounts {
  import opened Common
  import opened ZygoteHolds

  /** Whether the goroutine holds Zygote `s`. */
  function Holds(th: Caller, s: nat): nat {
    if th.stack != [] && Top(th).zygote == Some(s) then 1 else 0
  }

  /** How many goroutines hold Zygote `s`. */
  function HoldCount(callers: seq<Caller>, s: nat): nat {
    if callers == [] then 0 else HoldCount(callers[..|callers| - 1], s) + Holds(callers[|callers| - 1], s)
  }

  lemma {:induction false} CountUpdate(callers: seq<Caller>, k: nat, th: Caller, s: nat)
    requires k < |callers|
    ensures HoldCount(callers[k := th], s) == HoldCount(callers, s) - Holds(callers[k], s) + Holds(th, s)
    ensures HoldCount(callers, s) >= Holds(callers[k], s)
    decreases |callers|
  {
    var n := |callers| - 1;
    if k < n {
      CountUpdate(callers[..n], k, th, s);
      assert callers[k := th][..n] == callers[..n][k := th];
    } else {
      assert callers[k := th][..n] == callers[..n];
    }
  }

  lemma {:induction false} CountNone(callers: seq<Caller>, s: nat)
    requires forall k :: 0 <= k < |callers| ==> Holds(callers[k], s) == 0
    ensures HoldCount(callers, s) == 0
    decreases |callers|
  {
    if callers != [] {
      CountNone(callers[..|callers| - 1], s);
    }
  }

  /** The call is in its slow path, with the mutex of its node. */
  predicate Locks(f: Frame) {
    f.pc == Slow || f.pc == Waiting
  }

  /** A live Zygote of a node is paused exactly when the count is 0; a locked node has none. */
  predicate NodeOk(bs: seq<Box>, nd: Node, n: nat) {
    && Homed(bs, nd, n)
    && (nd.sb.Some? ==> nd.refs >= 0)
    && (nd.sb.Some? && bs[nd.sb.value].alive ==> (bs[nd.sb.value].paused <==> nd.refs == 0))
    && (nd.lock.Some? ==> nd.sb.None?)
  }

  /** The count goes up and down with the holds of the goroutine that makes the step; a new
      Zygote starts with one hold and none before. */
  predicate Ledger(l: Local, l': Local) {
    l'.nd.sb.Some? ==>
      var s := l'.nd.sb.value;
      if l.nd.sb == l'.nd.sb then l'.nd.refs == l.nd.refs - Holds(l.th, s) + Holds(l'.th, s)
      else l'.nd.refs == Holds(l'.th, s) && (s < |l.bs| ==> !l.bs[s].installed)
  }

  /** The step of a goroutine at node `n` touches only sandboxes of that node, and afterwards
      the goroutine holds at most such a sandbox. */
  ghost predicate Nearby(l: Local, l': Local, n: nat) {
    && Grown(l.bs, l'.bs)
    && (forall b :: 0 <= b < |l.bs| && l.bs[b].home != n ==> l'.bs[b] == l.bs[b])
    && (l'.th.stack != [] && Top(l'.th).zygote.Some? ==> Top(l'.th).node == n)
  }

  /** What the step may rely on: the node is in order, it counts this goroutine's hold, and a
      goroutine in the slow path has the lock. */
  ghost predicate Ready(up: seq<nat>, k: nat, l: Local) {
    && WellUp(up) && CallerOk(up, l.bs, l.th) && l.th.stack != []
    && NodeOk(l.bs, l.nd, Top(l.th).node)
    && (l.nd.sb.Some? ==> l.nd.refs >= Holds(l.th, l.nd.sb.value))
    && (Locks(Top(l.th)) ==> l.nd.lock == Some(k))
  }

  ghost predicate Fine(l: Local, l': Local, n: nat) {
    NodeOk(l'.bs, l'.nd, n) && Ledger(l, l') && Nearby(l, l', n)
  }

  lemma GetFine(up: seq<nat>, k: nat, l: Local, ok: bool)
    requires Ready(up, k, l) && Can(l, Get(ok))
    ensures Fine(l, GetStep(k, l, ok), Top(l.th).node)
  {
    ReturnChain(up, l.th, Failed);
  }

  lemma InstallFine(up: seq<nat>, k: nat, l: Local, bs: seq<Box>, b: nat, th: Caller)
    requires Ready(up, k, l) && Locks(Top(l.th)) && th.stack == l.th.stack
    requires Grown(l.bs, bs) && b < |bs| && bs[b].home == Top(l.th).node && !bs[b].paused && (b < |l.bs| ==> !l.bs[b].installed)
    requires forall c :: 0 <= c < |l.bs| ==> bs[c] == l.bs[c]
    ensures Fine(l, Install(th, l.nd, bs, b), Top(l.th).node)
  {
  }

  lemma PutFine(up: seq<nat>, k: nat, l: Local, ok: bool)
    requires Ready(up, k, l) && Can(l, Put(ok))
    ensures Fine(l, Do(up, k, l, Put(ok)), Top(l.th).node)
    ensures l.nd.sb == Top(l.th).zygote ==> l.nd.refs >= 1
  {
    ReturnChain(up, l.th, Failed);
  }

  lemma RootFine(up: seq<nat>, k: nat, l: Local, ok: bool)
    requires Ready(up, k, l) && Can(l, RootCreate(ok))
    ensures Fine(l, Do(up, k, l, RootCreate(ok)), Top(l.th).node)
  {
    if ok {
      InstallFine(up, k, l, l.bs + [Box(0, k, true, false, true, false)], |l.bs|, l.th.(creates := l.th.creates + 1));
    } else {
      ReturnChain(up, l.th, Failed);
    }
  }

  lemma DeliverFine(up: seq<nat>, k: nat, l: Local)
    requires Ready(up, k, l) && Can(l, Deliver)
    ensures Fine(l, Do(up, k, l, Deliver), Top(l.th).node)
  {
    if l.th.ret.value.Made? {
      InstallFine(up, k, l, l.bs, l.th.ret.value.box, l.th);
    } else {
      ReturnChain(up, l.th, l.th.ret.value);
    }
  }

  lemma CreateFine(up: seq<nat>, k: nat, l: Local, res: Result)
    requires Ready(up, k, l) && Can(l, Create(res))
    ensures Fine(l, CreateStep(k, l, res), Top(l.th).node)
  {
  }

  lemma StepFine(up: seq<nat>, k: nat, l: Local, a: Act)
    requires Ready(up, k, l) && Can(l, a)
    ensures Fine(l, Do(up, k, l, a), Top(l.th).node)
  {
    match a
    case Get(ok) => GetFine(up, k, l, ok);
    case Push =>
    case InstallFails => ReturnChain(up, l.th, Failed);
    case RootCreate(ok) => RootFine(up, k, l, ok);
    case Deliver => DeliverFine(up, k, l);
    case Create(res) => CreateFine(up, k, l, res);
    case Put(ok) => PutFine(up, k, l, ok);
  }

  ghost predicate HasLock(th: Caller, n: nat) {
    exists i :: 0 <= i < |th.stack| && th.stack[i].node == n && Locks(th.stack[i])
  }

  /** The outer calls stay as they are, and the innermost has the lock it should have. */
  ghost predicate LockFine(k: nat, l: Local, l': Local, n: nat) {
    && |l.th.stack| - 1 <= |l'.th.stack|
    && (forall i :: 0 <= i < |l.th.stack| - 1 ==> l'.th.stack[i] == l.th.stack[i])
    && (forall i: nat :: |l.th.stack| - 1 <= i < |l'.th.stack| && Locks(l'.th.stack[i])
                    ==> l'.th.stack[i].node == n && l'.nd.lock == Some(k))
    && (l'.nd.lock == Some(k) ==> HasLock(l'.th, n))
    && (l'.nd.lock != l.nd.lock ==> l'.nd.lock == None || l'.nd.lock == Some(k))
  }

  lemma GetLocks(up: seq<nat>, k: nat, l: Local, ok: bool)
    requires Ready(up, k, l) && Can(l, Get(ok))
    ensures LockFine(k, l, GetStep(k, l, ok), Top(l.th).node)
  {
    var l' := GetStep(k, l, ok);
    if l'.nd.lock == Some(k) {
      assert Locks(l'.th.stack[|l.th.stack| - 1]);
    }
  }

  lemma PutLocks(up: seq<nat>, k: nat, l: Local, ok: bool)
    requires Ready(up, k, l) && Can(l, Put(ok))
    ensures LockFine(k, l, Do(up, k, l, Put(ok)), Top(l.th).node)
  {
  }

  lemma StepLocks(up: seq<nat>, k: nat, l: Local, a: Act)
    requires Ready(up, k, l) && Can(l, a) && (l.nd.lock == Some(k) ==> Locks(Top(l.th)))
    ensures LockFine(k, l, Do(up, k, l, a), Top(l.th).node)
  {
    var l' := Do(up, k, l, a);
    match a
    case Get(ok) => GetLocks(up, k, l, ok);
    case Push => assert Locks(l'.th.stack[|l.th.stack| - 1]);
    case InstallFails =>
    case RootCreate(_) =>
    case Deliver =>
    case Create(_) =>
    case Put(ok) => PutLocks(up, k, l, ok);
  }

  /** Another goroutine's lock on the node leaves only creating from a Zygote already held. */
  lemma LockedOut(up: seq<nat>, k: nat, l: Local, a: Act)
    requires Ready(up, k, l) && Can(l, a) && l.nd.lock.Some? && l.nd.lock != Some(k)
    ensures a.Create? && Do(up, k, l, a).nd == l.nd
    ensures forall b :: 0 <= b < |l.bs| ==> b < |Do(up, k, l, a).bs| && Do(up, k, l, a).bs[b] == l.bs[b]
  {
  }

  predicate Settled(bs: seq<Box>, nd: Node, b: nat)
    requires b < |bs|
  {
    bs[b].installed && bs[b].alive && !bs[b].doomed ==> nd.sb == Some(b)
  }

  /** A Zygote the node no longer has is dead or doomed; one on its way stays on its way or
      arrives; a new one is on its way or is the node's. */
  ghost predicate StrayFine(k: nat, l: Local, l': Local, n: nat) {
    && |l.bs| <= |l'.bs|
    && (forall b :: 0 <= b < |l.bs| ==> l'.bs[b].maker == l.bs[b].maker)
    && (forall b :: 0 <= b < |l.bs| && l.bs[b].home == n && Settled(l.bs, l.nd, b) ==> Settled(l'.bs, l'.nd, b))
    && (forall b :: 0 <= b < |l.bs| && Carries(l.th, b) ==> Carries(l'.th, b) || l'.bs[b].installed)
    && (forall b :: |l.bs| <= b < |l'.bs| ==>
          if l'.bs[b].installed then l'.bs[b].home == n && l'.nd.sb == Some(b)
          else l'.bs[b].maker == k && Carries(l'.th, b))
  }

  lemma GetStray(up: seq<nat>, k: nat, l: Local, ok: bool)
    requires Ready(up, k, l) && Can(l, Get(ok))
    ensures StrayFine(k, l, GetStep(k, l, ok), Top(l.th).node)
  {
  }

  lemma PutStray(up: seq<nat>, k: nat, l: Local, ok: bool)
    requires Ready(up, k, l) && Can(l, Put(ok))
    ensures StrayFine(k, l, Do(up, k, l, Put(ok)), Top(l.th).node)
  {
    PutGrown(l.nd, l.bs, Top(l.th).zygote, ok);
  }

  lemma CreateStray(up: seq<nat>, k: nat, l: Local, res: Result)
    requires Ready(up, k, l) && Can(l, Create(res))
    ensures StrayFine(k, l, CreateStep(k, l, res), Top(l.th).node)
  {
  }

  lemma SlowStray(up: seq<nat>, k: nat, l: Local, a: Act)
    requires Ready(up, k, l) && Can(l, a) && Locks(Top(l.th))
    ensures StrayFine(k, l, Do(up, k, l, a), Top(l.th).node)
  {
  }

  lemma StepStray(up: seq<nat>, k: nat, l: Local, a: Act)
    requires Ready(up, k, l) && Can(l, a)
    ensures StrayFine(k, l, Do(up, k, l, a), Top(l.th).node)
  {
    match a
    case Get(ok) => GetStray(up, k, l, ok);
    case Create(res) => CreateStray(up, k, l, res);
    case Put(ok) => PutStray(up, k, l, ok);
    case Push => SlowStray(up, k, l, a);
    case InstallFails => SlowStray(up, k, l, a);
    case RootCreate(_) => SlowStray(up, k, l, a);
    case Deliver => SlowStray(up, k, l, a);
  }

  // ------------------------------------------------------------------ the whole cache

  ghost predicate CallersOk(w: World) {
    forall k :: 0 <= k < |w.callers| ==> CallerOk(w.up, w.boxes, w.callers[k])
  }

  /** Goroutine `k` has the mutex of every node in whose slow path it is. */
  ghost predicate LockedBy(nodes: seq<Node>, th: Caller, k: nat) {
    forall i :: 0 <= i < |th.stack| && Locks(th.stack[i]) ==>
      th.stack[i].node < |nodes| && nodes[th.stack[i].node].lock == Some(k)
  }

  ghost predicate LocksHeld(w: World) {
    forall k: nat :: k < |w.callers| ==> LockedBy(w.nodes, w.callers[k], k)
  }

  /** And every locked mutex is some goroutine's. */
  ghost predicate LocksUsed(w: World) {
    forall n :: 0 <= n < |w.nodes| && w.nodes[n].lock.Some? ==>
      w.nodes[n].lock.value < |w.callers| && HasLock(w.callers[w.nodes[n].lock.value], n)
  }

  ghost predicate NodesOk(w: World) {
    forall n: nat :: n < |w.nodes| ==> NodeOk(w.boxes, w.nodes[n], n)
  }

  ghost predicate Counted(w: World) {
    forall n :: 0 <= n < |w.nodes| && w.nodes[n].sb.Some? ==> w.nodes[n].refs == HoldCount(w.callers, w.nodes[n].sb.value)
  }

  /** A live Zygote is its node's, or is about to be destroyed, or is on its way to its node. */
  ghost predicate Accounted(w: World, b: nat)
    requires b < |w.boxes|
  {
    var x := w.boxes[b];
    && x.home < |w.nodes|
    && (x.installed && x.alive && !x.doomed ==> w.nodes[x.home].sb == Some(b))
    && (!x.installed ==> x.maker < |w.callers| && Carries(w.callers[x.maker], b))
  }

  ghost predicate NoneStray(w: World) {
    forall b :: 0 <= b < |w.boxes| ==> Accounted(w, b)
  }

  ghost predicate Inv(w: World) {
    && WellUp(w.up) && |w.nodes| == |w.up|
    && CallersOk(w) && LocksHeld(w) && LocksUsed(w) && NodesOk(w) && Counted(w) && NoneStray(w)
  }

  lemma {:induction false} ChainFalls(up: seq<nat>, stack: seq<Frame>, i: nat, j: nat)
    requires WellUp(up) && Chain(up, stack) && i < j < |stack|
    ensures stack[j].node < stack[i].node
    decreases j
  {
    if i < j - 1 {
      ChainFalls(up, stack, i, j - 1);
    }
  }

  /** In a reachable state a goroutine's step may rely on what it should. */
  lemma InvReady(w: World, k: nat)
    requires Inv(w) && Placed(w, k)
    ensures Ready(w.up, k, Here(w, k))
    ensures Here(w, k).nd.lock == Some(k) ==> Locks(Top(w.callers[k]))
  {
    var th := w.callers[k];
    var f := Top(th);
    var nd := w.nodes[f.node];
    if nd.sb.Some? {
      CountUpdate(w.callers, k, th, nd.sb.value);
    }
    assert LockedBy(w.nodes, th, k);
    if nd.lock == Some(k) {
      var i :| 0 <= i < |th.stack| && th.stack[i].node == f.node && Locks(th.stack[i]);
      if i < |th.stack| - 1 {
        ChainFalls(w.up, th.stack, i, |th.stack| - 1);
      }
    }
  }

  /** A Zygote on its way is carried by the goroutine that has its node's lock. */
  lemma CarriedLocked(w: World, j: nat, b: nat)
    requires Inv(w) && j < |w.callers| && Carries(w.callers[j], b)
    ensures b < |w.boxes| && w.boxes[b].home < |w.nodes| && w.nodes[w.boxes[b].home].lock == Some(j)
    ensures !w.boxes[b].installed && !w.boxes[b].paused
  {
    var th := w.callers[j];
    assert CallerOk(w.up, w.boxes, th) && LockedBy(w.nodes, th, j);
    if Top(th).pc.Putting? {
      assert th.stack[|th.stack| - 2].pc == Waiting;
    }
  }

  /** Everything the step of goroutine `k` promises. */
  ghost predicate Moved(w: World, k: nat, l': Local) {
    && Inv(w) && Placed(w, k)
    && var n := Top(w.callers[k]).node;
    && CallerOk(w.up, l'.bs, l'.th)
    && Fine(Here(w, k), l', n) && LockFine(k, Here(w, k), l', n) && StrayFine(k, Here(w, k), l', n)
    && (w.nodes[n].lock.Some? && w.nodes[n].lock != Some(k) ==>
          l'.nd == w.nodes[n] && forall b :: 0 <= b < |w.boxes| ==> l'.bs[b] == w.boxes[b])
  }

  lemma StepMoved(w: World, k: nat, a: Act)
    requires Inv(w) && Enabled(w, Step(k, a))
    ensures Moved(w, k, Do(w.up, k, Here(w, k), a))
  {
    var l := Here(w, k);
    InvReady(w, k);
    CallerStep(w.up, k, l, a);
    StepFine(w.up, k, l, a);
    StepLocks(w.up, k, l, a);
    StepStray(w.up, k, l, a);
    if l.nd.lock.Some? && l.nd.lock != Some(k) {
      LockedOut(w.up, k, l, a);
    }
  }

  lemma MovedCallers(w: World, k: nat, l': Local)
    requires Moved(w, k, l')
    ensures CallersOk(Back(w, k, l'))
  {
    forall j | 0 <= j < |w.callers| && j != k ensures CallerOk(w.up, l'.bs, w.callers[j]) {
      forall b | 0 <= b < |w.boxes| && Carries(w.callers[j], b) ensures !l'.bs[b].installed && !l'.bs[b].paused {
        CarriedLocked(w, j, b);
      }
      OtherCaller(w.up, w.boxes, l'.bs, w.callers[j]);
    }
  }

  lemma MovedLocksHeld(w: World, k: nat, l': Local)
    requires Moved(w, k, l')
    ensures LocksHeld(Back(w, k, l'))
  {
    var w' := Back(w, k, l');
    var th := w.callers[k];
    forall j: nat | j < |w'.callers| ensures LockedBy(w'.nodes, w'.callers[j], j) {
      assert LockedBy(w.nodes, w.callers[j], j);
      if j == k {
        forall i | 0 <= i < |th.stack| - 1 ensures th.stack[i].node != Top(th).node {
          ChainFalls(w.up, th.stack, i, |th.stack| - 1);
        }
      }
    }
  }

  lemma MovedLocksUsed(w: World, k: nat, l': Local)
    requires Moved(w, k, l')
    ensures LocksUsed(Back(w, k, l'))
  {
    var w' := Back(w, k, l');
    var n := Top(w.callers[k]).node;
    forall m | 0 <= m < |w'.nodes| && w'.nodes[m].lock.Some?
      ensures w'.nodes[m].lock.value < |w'.callers| && HasLock(w'.callers[w'.nodes[m].lock.value], m)
    {
      var j := w'.nodes[m].lock.value;
      if m != n && j == k {
        var i :| 0 <= i < |w.callers[k].stack| && w.callers[k].stack[i].node == m && Locks(w.callers[k].stack[i]);
        assert l'.th.stack[i] == w.callers[k].stack[i];
      }
    }
  }

  lemma MovedNodes(w: World, k: nat, l': Local)
    requires Moved(w, k, l')
    ensures NodesOk(Back(w, k, l'))
  {
    var w' := Back(w, k, l');
    forall m: nat | m < |w'.nodes| ensures NodeOk(w'.boxes, w'.nodes[m], m) {
      assert NodeOk(w.boxes, w.nodes[m], m);
    }
  }

  /** Nobody holds a Zygote that has not been installed. */
  lemma UnheldBefore(w: World, s: nat)
    requires Inv(w) && (s < |w.boxes| ==> !w.boxes[s].installed)
    ensures HoldCount(w.callers, s) == 0
  {
    forall k | 0 <= k < |w.callers| ensures Holds(w.callers[k], s) == 0 {
      assert CallerOk(w.up, w.boxes, w.callers[k]);
    }
    CountNone(w.callers, s);
  }

  lemma MovedCounted(w: World, k: nat, l': Local)
    requires Moved(w, k, l')
    ensures Counted(Back(w, k, l'))
  {
    var w' := Back(w, k, l');
    var n := Top(w.callers[k]).node;
    forall m | 0 <= m < |w'.nodes| && w'.nodes[m].sb.Some?
      ensures w'.nodes[m].refs == HoldCount(w'.callers, w'.nodes[m].sb.value)
    {
      var s := w'.nodes[m].sb.value;
      CountUpdate(w.callers, k, l'.th, s);
      if m == n && w.nodes[n].sb != Some(s) {
        UnheldBefore(w, s);
      }
      if m != n {
        assert NodeOk(w.boxes, w.nodes[m], m);
        assert CallerOk(w.up, w.boxes, w.callers[k]);
      }
    }
  }

  lemma MovedNoneStray(w: World, k: nat, l': Local)
    requires Moved(w, k, l')
    ensures NoneStray(Back(w, k, l'))
  {
    var w' := Back(w, k, l');
    forall b | 0 <= b < |w'.boxes| ensures Accounted(w', b) {
      if b < |w.boxes| {
        assert Accounted(w, b);
      }
    }
  }
}
