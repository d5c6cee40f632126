/** What holds through every run of the import cache. */
module ZygoteTheorems {
  import opened Common
  import opened ZygoteHolds
  import opened ZygoteCounts

  lemma StepInv(w: World, k: nat, a: Act)
    requires Inv(w) && Enabled(w, Step(k, a))
    ensures Inv(Next(w, Step(k, a)))
  {
    var l' := Do(w.up, k, Here(w, k), a);
    StepMoved(w, k, a);
    MovedCallers(w, k, l');
    MovedLocksHeld(w, k, l');
    MovedLocksUsed(w, k, l');
    MovedNodes(w, k, l');
    MovedCounted(w, k, l');
    MovedNoneStray(w, k, l');
  }

  lemma CallCallers(w: World, node: nat)
    requires Inv(w) && node < |w.nodes|
    ensures var w' := Next(w, Call(node)); CallersOk(w') && LocksHeld(w') && LocksUsed(w') && NoneStray(w')
  {
    var w' := Next(w, Call(node));
    forall k: nat | k < |w'.callers| ensures LockedBy(w'.nodes, w'.callers[k], k) {
      if k < |w.callers| {
        assert LockedBy(w.nodes, w.callers[k], k);
      }
    }
    forall b | 0 <= b < |w'.boxes| ensures Accounted(w', b) {
      assert Accounted(w, b);
    }
  }

  lemma CallInv(w: World, node: nat)
    requires Inv(w) && node < |w.nodes|
    ensures Inv(Next(w, Call(node)))
  {
    var w' := Next(w, Call(node));
    CallCallers(w, node);
    forall n | 0 <= n < |w'.nodes| && w'.nodes[n].sb.Some?
      ensures w'.nodes[n].refs == HoldCount(w'.callers, w'.nodes[n].sb.value)
    {
      assert w'.callers[..|w.callers|] == w.callers;
    }
    assert NodesOk(w');
  }

  /** Sandboxes die without anyone's doing. */
  lemma DieCallers(w: World, b: nat)
    requires Inv(w) && b < |w.boxes|
    ensures CallersOk(Next(w, Die(b)))
  {
    var w' := Next(w, Die(b));
    forall k | 0 <= k < |w'.callers| ensures CallerOk(w'.up, w'.boxes, w'.callers[k]) {
      forall c | 0 <= c < |w.boxes| && Carries(w.callers[k], c) ensures !w'.boxes[c].installed && !w'.boxes[c].paused {
        CarriedLocked(w, k, c);
      }
      OtherCaller(w.up, w.boxes, w'.boxes, w.callers[k]);
    }
  }

  lemma DieInv(w: World, b: nat)
    requires Inv(w) && b < |w.boxes|
    ensures Inv(Next(w, Die(b)))
  {
    var w' := Next(w, Die(b));
    DieCallers(w, b);
    forall n: nat | n < |w'.nodes| ensures NodeOk(w'.boxes, w'.nodes[n], n) {
      assert NodeOk(w.boxes, w.nodes[n], n);
    }
    forall c | 0 <= c < |w'.boxes| ensures Accounted(w', c) {
      assert Accounted(w, c);
    }
    forall k: nat | k < |w'.callers| ensures LockedBy(w'.nodes, w'.callers[k], k) {
      assert LockedBy(w.nodes, w.callers[k], k);
    }
  }

  /** recursiveKill at a node: its Zygote dies and the node forgets it. */
  lemma KillInv(w: World, n: nat)
    requires Inv(w) && Enabled(w, Kill(n))
    ensures Inv(Next(w, Kill(n)))
  {
    if w.nodes[n].sb.Some? {
      var b := w.nodes[n].sb.value;
      DieInv(w, b);
      ForgetInv(Next(w, Die(b)), n);
    }
  }

  lemma ForgetInv(w: World, n: nat)
    requires Inv(w) && n < |w.nodes| && w.nodes[n].sb.Some? && !w.boxes[w.nodes[n].sb.value].alive
    ensures Inv(w.(nodes := w.nodes[n := w.nodes[n].(sb := None)]))
  {
    var w' := w.(nodes := w.nodes[n := w.nodes[n].(sb := None)]);
    forall m: nat | m < |w'.nodes| ensures NodeOk(w'.boxes, w'.nodes[m], m) {
      assert NodeOk(w.boxes, w.nodes[m], m);
    }
    forall c | 0 <= c < |w'.boxes| ensures Accounted(w', c) {
      assert Accounted(w, c);
    }
    forall k: nat | k < |w'.callers| ensures LockedBy(w'.nodes, w'.callers[k], k) {
      assert LockedBy(w.nodes, w.callers[k], k);
    }
  }

  // ------------------------------------------------------------------ runs

  predicate Legal(w: World, ls: seq<Label>)
    decreases |ls|
  {
    ls == [] || (Enabled(w, ls[0]) && Legal(Next(w, ls[0]), ls[1..]))
  }

  function Run(w: World, ls: seq<Label>): World
    requires Legal(w, ls)
    decreases |ls|
  {
    if ls == [] then w else Run(Next(w, ls[0]), ls[1..])
  }

  function Start(up: seq<nat>): World {
    World(up, seq(|up|, _ => Node(None, 0, None)), [], [])
  }

  lemma InvStep(w: World, l: Label)
    requires Inv(w) && Enabled(w, l)
    ensures Inv(Next(w, l))
  {
    match l
    case Call(node) => CallInv(w, node);
    case Step(k, a) => StepInv(w, k, a);
    case Die(b) => DieInv(w, b);
    case Kill(n) => KillInv(w, n);
  }

  lemma {:induction false} InvRun(w: World, ls: seq<Label>)
    requires Inv(w) && Legal(w, ls)
    ensures Inv(Run(w, ls))
    decreases |ls|
  {
    if ls != [] {
      InvStep(w, ls[0]);
      InvRun(Next(w, ls[0]), ls[1..]);
    }
  }

  ghost predicate Reached(up: seq<nat>, ls: seq<Label>, w: World) {
    WellUp(up) && Legal(Start(up), ls) && w == Run(Start(up), ls)
  }

  lemma ReachedInv(up: seq<nat>, ls: seq<Label>, w: World)
    requires Reached(up, ls, w)
    ensures Inv(w)
  {
    InvRun(Start(up), ls);
  }

  /** Whenever a node has a Zygote, its count is the number of goroutines that hold that very
      Zygote; while it lives it is unpaused exactly when there are any. */
  lemma HoldCounts(up: seq<nat>, ls: seq<Label>, w: World, n: nat)
    requires Reached(up, ls, w) && n < |w.nodes| && w.nodes[n].sb.Some?
    ensures var s := w.nodes[n].sb.value;
            w.nodes[n].refs == HoldCount(w.callers, s)
            && s < |w.boxes| && (w.boxes[s].alive ==> (!w.boxes[s].paused <==> w.nodes[n].refs > 0))
  {
    ReachedInv(up, ls, w);
    assert NodeOk(w.boxes, w.nodes[n], n);
  }

  /** Putting back a Zygote that is still the node's finds a count of at least one, so the
      count never goes negative. */
  lemma NeverNegative(up: seq<nat>, ls: seq<Label>, w: World, k: nat, ok: bool)
    requires Reached(up, ls, w) && Enabled(w, Step(k, Put(ok)))
    ensures var f := Top(w.callers[k]); w.nodes[f.node].sb == f.zygote ==> w.nodes[f.node].refs - 1 >= 0
  {
    ReachedInv(up, ls, w);
    InvReady(w, k);
    PutFine(w.up, k, Here(w, k), ok);
  }

  /** A call never begins a third attempt, its second attempt has a new Zygote, and it calls
      on the parent at most once. */
  lemma TwoAttempts(up: seq<nat>, ls: seq<Label>, w: World, k: nat, i: nat)
    requires Reached(up, ls, w) && k < |w.callers| && i < |w.callers[k].stack|
    ensures var f := w.callers[k].stack[i];
            f.attempt <= 1 && f.recursions <= 1 && (f.attempt == 1 && f.zygote.Some? ==> f.isNew)
  {
    ReachedInv(up, ls, w);
    assert CallerOk(w.up, w.boxes, w.callers[k]);
    assert FrameOk(w.boxes, w.callers[k].stack[i]);
  }

  /** No live Zygote is lost: it is its node's, or its Destroy is under way, or a goroutine is
      bringing it to its node, whose lock that goroutine has. */
  lemma NoStrayZygote(up: seq<nat>, ls: seq<Label>, w: World, b: nat)
    requires Reached(up, ls, w) && b < |w.boxes| && w.boxes[b].alive && !w.boxes[b].doomed
    ensures w.boxes[b].home < |w.nodes|
    ensures var x := w.boxes[b];
            w.nodes[x.home].sb == Some(b)
            || (!x.installed && x.maker < |w.callers| && Carries(w.callers[x.maker], b) && w.nodes[x.home].lock == Some(x.maker))
  {
    ReachedInv(up, ls, w);
    assert Accounted(w, b);
    if !w.boxes[b].installed {
      CarriedLocked(w, w.boxes[b].maker, b);
    }
  }

  // ------------------------------------------------------------------ new Zygotes

  /** Who carries a Zygote has made it. */
  lemma CarriedMine(w: World, k: nat, b: nat)
    requires Inv(w) && k < |w.callers| && Carries(w.callers[k], b)
    ensures b < |w.boxes| && w.boxes[b].maker == k
  {
    CarriedLocked(w, k, b);
    assert Accounted(w, b);
    CarriedLocked(w, w.boxes[b].maker, b);
  }

  /** A new Zygote in a goroutine's hands was made by it. */
  predicate MineAt(bs: seq<Box>, th: Caller, k: nat) {
    th.stack != [] && Top(th).zygote.Some? && Top(th).isNew ==>
      Top(th).zygote.value < |bs| && bs[Top(th).zygote.value].maker == k
  }

  ghost predicate Mine(w: World) {
    forall k: nat :: k < |w.callers| ==> MineAt(w.boxes, w.callers[k], k)
  }

  lemma ReturnMine(up: seq<nat>, bs: seq<Box>, bs': seq<Box>, th: Caller, out: Outcome, k: nat)
    requires CallerOk(up, bs, th) && th.stack != []
    ensures MineAt(bs', Return(th, out), k)
  {
    ReturnChain(up, th, out);
    if |th.stack| > 1 {
      assert FrameOk(bs, th.stack[|th.stack| - 2]);
    }
  }

  /** The slow path ends with a Zygote that the goroutine was bringing or has just made. */
  lemma InstallMine(th: Caller, nd: Node, bs: seq<Box>, b: nat, k: nat)
    requires th.stack != [] && b < |bs| && bs[b].maker == k
    ensures MineAt(Install(th, nd, bs, b).bs, Install(th, nd, bs, b).th, k)
  {
  }

  lemma SlowMine(up: seq<nat>, k: nat, l: Local, a: Act)
    requires WellUp(up) && CallerOk(up, l.bs, l.th) && Can(l, a) && (a.RootCreate? || a.Deliver? || a.InstallFails? || a.Push?)
    requires forall b :: 0 <= b < |l.bs| && Carries(l.th, b) ==> l.bs[b].maker == k
    ensures MineAt(Do(up, k, l, a).bs, Do(up, k, l, a).th, k)
  {
    if a.RootCreate? && a.ok {
      InstallMine(l.th.(creates := l.th.creates + 1), l.nd, l.bs + [Box(0, k, true, false, true, false)], |l.bs|, k);
    } else if a.RootCreate? {
      ReturnMine(up, l.bs, l.bs, l.th.(creates := l.th.creates + 1), Failed, k);
    } else if a.Deliver? && l.th.ret.value.Made? {
      InstallMine(l.th, l.nd, l.bs, l.th.ret.value.box, k);
    } else if a.Deliver? {
      ReturnMine(up, l.bs, l.bs, l.th, l.th.ret.value, k);
    } else if a.InstallFails? {
      ReturnMine(up, l.bs, l.bs, l.th, Failed, k);
    }
  }

  lemma PutMine(up: seq<nat>, k: nat, l: Local, ok: bool)
    requires WellUp(up) && CallerOk(up, l.bs, l.th) && Can(l, Put(ok))
    ensures MineAt(Do(up, k, l, Put(ok)).bs, Do(up, k, l, Put(ok)).th, k)
  {
    ReturnMine(up, l.bs, Do(up, k, l, Put(ok)).bs, l.th, Top(l.th).pc.out, k);
  }

  lemma GetMine(up: seq<nat>, k: nat, l: Local, ok: bool)
    requires WellUp(up) && CallerOk(up, l.bs, l.th) && Can(l, Get(ok))
    ensures MineAt(GetStep(k, l, ok).bs, GetStep(k, l, ok).th, k)
  {
    ReturnMine(up, l.bs, GetStep(k, l, ok).bs, l.th, Failed, k);
  }

  /** What a goroutine has new after its step it had new before, or it was bringing it, or it has
      just made it. */
  lemma StepMineAt(up: seq<nat>, k: nat, l: Local, a: Act)
    requires WellUp(up) && CallerOk(up, l.bs, l.th) && Can(l, a) && MineAt(l.bs, l.th, k)
    requires forall b :: 0 <= b < |l.bs| && Carries(l.th, b) ==> l.bs[b].maker == k
    ensures MineAt(Do(up, k, l, a).bs, Do(up, k, l, a).th, k)
  {
    if a.Get? {
      GetMine(up, k, l, a.ok);
    } else if a.Put? {
      PutMine(up, k, l, a.ok);
    } else if !a.Create? {
      SlowMine(up, k, l, a);
    }
  }

  /** What the others have stays as it is. */
  lemma OtherMine(w: World, l: Label, k: nat)
    requires Inv(w) && Mine(w) && Enabled(w, l) && k < |w.callers| && !(l.Step? && l.k == k)
    ensures k < |Next(w, l).callers| && MineAt(Next(w, l).boxes, Next(w, l).callers[k], k)
  {
    assert MineAt(w.boxes, w.callers[k], k);
    if l.Step? {
      StepMoved(w, l.k, l.act);
    }
  }

  lemma MineStep(w: World, l: Label)
    requires Inv(w) && Mine(w) && Enabled(w, l)
    ensures Mine(Next(w, l))
  {
    var w' := Next(w, l);
    forall k: nat | k < |w'.callers| ensures MineAt(w'.boxes, w'.callers[k], k) {
      if l.Step? && l.k == k {
        OwnMine(w, k, l.act);
      } else if k < |w.callers| {
        OtherMine(w, l, k);
      }
    }
  }

  lemma OwnMine(w: World, k: nat, a: Act)
    requires Inv(w) && Mine(w) && Enabled(w, Step(k, a))
    ensures var w' := Next(w, Step(k, a)); MineAt(w'.boxes, w'.callers[k], k)
  {
    forall b | 0 <= b < |w.boxes| && Carries(w.callers[k], b) ensures w.boxes[b].maker == k {
      CarriedMine(w, k, b);
    }
    assert MineAt(w.boxes, w.callers[k], k) && CallerOk(w.up, w.boxes, w.callers[k]);
    StepMineAt(w.up, k, Here(w, k), a);
  }

  lemma {:induction false} MineRun(w: World, ls: seq<Label>)
    requires Inv(w) && Mine(w) && Legal(w, ls)
    ensures Mine(Run(w, ls))
    decreases |ls|
  {
    if ls != [] {
      InvStep(w, ls[0]);
      MineStep(w, ls[0]);
      MineRun(Next(w, ls[0]), ls[1..]);
    }
  }

  /** In every run: a Zygote a call holds is called new exactly if it was made after the attempt
      began to get one, and then this goroutine made it; the second attempt's is new, and is not
      the one that could not fork in the first. */
  lemma NewIsNew(up: seq<nat>, ls: seq<Label>, w: World, k: nat)
    requires Reached(up, ls, w) && k < |w.callers| && w.callers[k].stack != [] && Top(w.callers[k]).zygote.Some?
    ensures var f := Top(w.callers[k]); var b := f.zygote.value;
      && b < |w.boxes|
      && (f.isNew <==> b >= f.gotAt)
      && (f.isNew ==> w.boxes[b].maker == k)
      && (f.attempt == 1 ==> f.isNew && f.first.Some? && f.first.value != b)
  {
    ReachedInv(up, ls, w);
    MineRun(Start(up), ls);
    assert CallerOk(w.up, w.boxes, w.callers[k]) && MineAt(w.boxes, w.callers[k], k);
    assert FrameOk(w.boxes, Top(w.callers[k]));
  }

  /** In every run: a get of the second attempt leaves the node's old Zygote to its Destroy, the
      node without one, and the goroutine in the slow path with the node's mutex. */
  lemma ForcedReplaces(up: seq<nat>, ls: seq<Label>, w: World, k: nat, ok: bool)
    requires Reached(up, ls, w) && Enabled(w, Step(k, Get(ok))) && Top(w.callers[k]).attempt > 0
    ensures var n := Top(w.callers[k]).node; var w' := Next(w, Step(k, Get(ok)));
      && w'.nodes[n].sb == None && w'.nodes[n].lock == Some(k)
      && |w'.callers[k].stack| == |w.callers[k].stack| && Top(w'.callers[k]).pc == Slow
      && (w.nodes[n].sb.Some? ==> w.nodes[n].sb.value < |w'.boxes| && w'.boxes[w.nodes[n].sb.value].doomed)
  {
  }

  /** In every run: a get of the first attempt takes the node's Zygote if there is one, unpaused,
      fails if that cannot be unpaused and leaves the node without one, and takes the slow path
      if there is none. */
  lemma FirstGet(up: seq<nat>, ls: seq<Label>, w: World, k: nat, ok: bool)
    requires Reached(up, ls, w) && Enabled(w, Step(k, Get(ok))) && Top(w.callers[k]).attempt == 0
    ensures var n := Top(w.callers[k]).node; var sb := w.nodes[n].sb; var w' := Next(w, Step(k, Get(ok)));
      if sb.None? then w'.nodes[n].lock == Some(k) && w'.callers[k].stack != [] && Top(w'.callers[k]).pc == Slow
      else if HoldCount(w.callers, sb.value) == 0 && !ok then
        w'.nodes[n].sb == None && w'.callers[k].ret == Some(Failed) && |w'.callers[k].stack| == |w.callers[k].stack| - 1
      else
        && w'.nodes[n].sb == sb && w'.callers[k].stack != [] && Top(w'.callers[k]).pc == Creating
        && Top(w'.callers[k]).zygote == sb && !Top(w'.callers[k]).isNew
        && sb.value < |w'.boxes| && (w.boxes[sb.value].alive ==> !w'.boxes[sb.value].paused)
  {
    ReachedInv(up, ls, w);
    var n := Top(w.callers[k]).node;
    assert NodeOk(w.boxes, w.nodes[n], n);
  }

  /** In every run: what a put leads to. A fork that failed from a Zygote that was there before is
      tried again at the same node, and that Zygote is remembered; any other outcome, and a fork
      that failed from a new Zygote, is what the call returns. */
  lemma PutLeadsTo(up: seq<nat>, ls: seq<Label>, w: World, k: nat, ok: bool)
    requires Reached(up, ls, w) && Enabled(w, Step(k, Put(ok)))
    ensures var f := Top(w.callers[k]); var th' := Next(w, Step(k, Put(ok))).callers[k];
      if f.pc.out == ForkFailed && f.zygote.Some? && f.zygote.value < f.gotAt then
        && |th'.stack| == |w.callers[k].stack| && Top(th').pc == Want && Top(th').node == f.node
        && Top(th').attempt == 1 && Top(th').first == f.zygote
      else |th'.stack| == |w.callers[k].stack| - 1 && th'.ret == Some(f.pc.out)
  {
    ReachedInv(up, ls, w);
    assert CallerOk(w.up, w.boxes, w.callers[k]);
    assert FrameOk(w.boxes, Top(w.callers[k]));
  }

  /** In every run: what a put does to the node. If the Zygote has been replaced, nothing. If others
      hold it too, it stays as it is. If this was the last hold, it is paused and stays the
      node's, or, if it cannot be paused, the node is left without one. */
  lemma PutPauses(up: seq<nat>, ls: seq<Label>, w: World, k: nat, ok: bool)
    requires Reached(up, ls, w) && Enabled(w, Step(k, Put(ok)))
    ensures var f := Top(w.callers[k]); var w' := Next(w, Step(k, Put(ok))); var n := f.node;
      && f.zygote.Some? && f.zygote.value < |w.boxes| && |w'.boxes| == |w.boxes|
      && var b := f.zygote.value;
      if w.nodes[n].sb != Some(b) then w'.nodes == w.nodes && w'.boxes == w.boxes
      else if HoldCount(w.callers, b) > 1 then w'.nodes[n].sb == Some(b) && w'.boxes == w.boxes
      else if ok then w'.nodes[n].sb == Some(b) && w'.boxes[b] == w.boxes[b].(paused := true)
      else w'.nodes[n].sb == None && !w'.boxes[b].alive
  {
    ReachedInv(up, ls, w);
    assert CallerOk(w.up, w.boxes, w.callers[k]);
    assert FrameOk(w.boxes, Top(w.callers[k]));
    InvReady(w, k);
  }

  /** In every run: a slow path that fails, in installing packages or in creating the root's Zygote,
      gives the error back, the mutex free and the node without a Zygote. */
  lemma SlowFails(up: seq<nat>, ls: seq<Label>, w: World, k: nat, a: Act)
    requires Reached(up, ls, w) && Enabled(w, Step(k, a)) && (a == InstallFails || a == RootCreate(false))
    ensures var n := Top(w.callers[k]).node; var w' := Next(w, Step(k, a));
      && |w'.callers[k].stack| == |w.callers[k].stack| - 1 && w'.callers[k].ret == Some(Failed)
      && w'.nodes[n].lock == None && w'.nodes[n].sb == None && w'.boxes == w.boxes
  {
    ReachedInv(up, ls, w);
    InvReady(w, k);
  }

  /** In every run: what comes of a pool Create is what the call will return or retry: a Zygote for
      the waiting call's node, a leaf if nobody waits, or the pool's error. */
  lemma CreateGives(up: seq<nat>, ls: seq<Label>, w: World, k: nat, res: Result)
    requires Reached(up, ls, w) && Enabled(w, Step(k, Create(res)))
    ensures var st := w.callers[k].stack; var w' := Next(w, Step(k, Create(res)));
      && |w'.callers[k].stack| == |st| && Top(w'.callers[k]).pc.Putting?
      && var out := Top(w'.callers[k]).pc.out;
      && (res == Fork <==> out == ForkFailed) && (res == Err <==> out == Failed)
      && (res == Ok && |st| == 1 <==> out == Leaf)
      && (res == Ok && |st| > 1 ==>
            out == Made(|w.boxes|) && |w'.boxes| == |w.boxes| + 1 && w'.boxes[|w.boxes|].alive
            && w'.boxes[|w.boxes|].home == st[|st| - 2].node && !w'.boxes[|w.boxes|].paused)
      && (!(res == Ok && |st| > 1) ==> w'.boxes == w.boxes)
  {
  }

  /** In every run: a call that waits for its parent node's call goes on with the Zygote that
      made, or returns that call's error unchanged. */
  lemma DeliverGives(up: seq<nat>, ls: seq<Label>, w: World, k: nat)
    requires Reached(up, ls, w) && Enabled(w, Step(k, Deliver))
    ensures var th := w.callers[k]; var w' := Next(w, Step(k, Deliver)); var n := Top(th).node;
      && w'.nodes[n].lock == None
      && if th.ret.value.Made? then
           && w'.nodes[n].sb == Some(th.ret.value.box) && w'.callers[k].stack != []
           && Top(w'.callers[k]).zygote == Some(th.ret.value.box) && Top(w'.callers[k]).pc == Creating
         else |w'.callers[k].stack| == |th.stack| - 1 && w'.callers[k].ret == th.ret
  {
  }

  /** recursiveKill at a node: its Zygote dies, the node has none, all others stay. */
  lemma KillEmpties(up: seq<nat>, ls: seq<Label>, w: World, n: nat)
    requires Reached(up, ls, w) && Enabled(w, Kill(n))
    ensures var w' := Next(w, Kill(n));
      && w'.nodes[n].sb == None
      && (w.nodes[n].sb.Some? ==> w.nodes[n].sb.value < |w'.boxes| && !w'.boxes[w.nodes[n].sb.value].alive)
      && (forall m :: 0 <= m < |w.nodes| && m != n ==> w'.nodes[m] == w.nodes[m])
      && w'.callers == w.callers
  {
  }

  /** In every run: with no goroutine inside and every node emptied, every Zygote ever made is dead
      or about to be destroyed. */
  lemma CleanupLeavesNone(up: seq<nat>, ls: seq<Label>, w: World, b: nat)
    requires Reached(up, ls, w) && b < |w.boxes|
    requires forall k :: 0 <= k < |w.callers| ==> w.callers[k].stack == []
    requires forall n :: 0 <= n < |w.nodes| ==> w.nodes[n].sb == None
    ensures !w.boxes[b].alive || w.boxes[b].doomed
  {
    if w.boxes[b].alive && !w.boxes[b].doomed {
      NoStrayZygote(up, ls, w, b);
      assert false;
    }
  }
}
