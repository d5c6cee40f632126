/** Cgroups from creation to shutdown
    (go/worker/sandbox: cgroups/pool.go, cgroups/cgroup.go, sockPool.go Cleanup). */
module SandboxShutdown {
  import opened Common
  import opened MemPool
  import opened Sandboxes
  import opened SandboxTree
  import opened SandboxMemory

  function Uses(b: Box, name: nat): nat {
    if b.cg == Cg(name) then 1 else 0
  }

  /** How many sandboxes use a cgroup. */
  function InUse(bs: seq<Box>, name: nat): nat {
    if bs == [] then 0 else InUse(bs[..|bs| - 1], name) + Uses(bs[|bs| - 1], name)
  }

  function InPool(cgs: CgPool, name: nat): nat {
    Occurs(cgs.ready, name) + (if cgs.hand == Some(name) then 1 else 0) + Occurs(cgs.destroyed, name)
  }

  /** Every cgroup ever created is in exactly one place: ready, in cgTask's hands, used by
      one sandbox, or destroyed once. */
  ghost predicate OnePlace(cgs: CgPool, bs: seq<Box>) {
    forall name: nat :: InPool(cgs, name) + InUse(bs, name) == if name < cgs.created then 1 else 0
  }

  ghost predicate Stopping(w: World) {
    && (w.cgs.phase != Serving ==> w.cgs.hand == None && w.cleanup != NotCalled && w.cleanup != AskedAll)
    && (w.cgs.phase == Stopped ==> w.cgs.ready == [])
    && (w.cleanup == Done ==> w.cgs.phase == Stopped)
  }

  ghost predicate CgsOk(w: World) {
    OnePlace(w.cgs, w.boxes) && Stopping(w)
  }

  lemma {:induction false} InUseUpdate(bs: seq<Box>, i: nat, b: Box, name: nat)
    requires i < |bs|
    ensures InUse(bs[i := b], name) == InUse(bs, name) - Uses(bs[i], name) + Uses(b, name)
    decreases |bs|
  {
    var n := |bs| - 1;
    if i < n {
      InUseUpdate(bs[..n], i, b, name);
      assert bs[i := b][..n] == bs[..n][i := b];
    } else {
      assert bs[i := b][..n] == bs[..n];
    }
  }

  lemma SameName(cgs: CgPool, bs: seq<Box>, i: nat, b: Box)
    requires i < |bs| && b.cg == bs[i].cg && OnePlace(cgs, bs)
    ensures OnePlace(cgs, bs[i := b])
  {
    forall name: nat ensures InUse(bs[i := b], name) == InUse(bs, name) {
      InUseUpdate(bs, i, b, name);
    }
  }

  lemma DoKeepsCg(conf: Conf, b: Box, act: Act)
    requires Can(conf, b, act) && !act.GetCg? && act != KillCg
    ensures Do(conf, b, act).cg == b.cg
  {
  }

  /** GetCg: the oldest ready cgroup goes to the sandbox. */
  lemma GetPlaced(cgs: CgPool, bs: seq<Box>, i: nat, d: Box)
    requires i < |bs| && bs[i].cg == NoCg && cgs.ready != [] && d.cg == Cg(cgs.ready[0]) && OnePlace(cgs, bs)
    ensures OnePlace(cgs.(ready := cgs.ready[1..]), bs[i := d])
  {
    var cgs', bs' := cgs.(ready := cgs.ready[1..]), bs[i := d];
    forall name: nat ensures InPool(cgs', name) + InUse(bs', name) == InPool(cgs, name) + InUse(bs, name) {
      InUseUpdate(bs, i, d, name);
      OccursTail(cgs.ready, name);
    }
  }

  /** KillAndRelease: the sandbox's cgroup is destroyed. */
  lemma KillPlaced(cgs: CgPool, bs: seq<Box>, i: nat, d: Box)
    requires i < |bs| && bs[i].cg.Cg? && d.cg == Freed && OnePlace(cgs, bs)
    ensures OnePlace(cgs.(destroyed := cgs.destroyed + [bs[i].cg.name]), bs[i := d])
  {
    var cgs', bs' := cgs.(destroyed := cgs.destroyed + [bs[i].cg.name]), bs[i := d];
    forall name: nat ensures InPool(cgs', name) + InUse(bs', name) == InPool(cgs, name) + InUse(bs, name) {
      InUseUpdate(bs, i, d, name);
      OccursSnoc(cgs.destroyed, bs[i].cg.name, name);
    }
  }

  lemma SoloCgs(w: World, i: nat, act: Act)
    requires Tree(w.boxes) && CgsOk(w) && SoloEnabled(w, i, act)
    ensures CgsOk(SoloNext(w, i, act))
  {
    var d := Do(w.conf, w.boxes[i], act);
    SoloFields(w, i, act);
    assert Local(w.boxes[i]);
    if act.GetCg? {
      GetPlaced(w.cgs, w.boxes, i, d);
    } else if act == KillCg {
      KillPlaced(w.cgs, w.boxes, i, d);
    } else {
      DoKeepsCg(w.conf, w.boxes[i], act);
      SameName(w.cgs, w.boxes, i, d);
    }
  }

  lemma PairCgs(w: World, t: Two)
    requires CgsOk(w) && t.p < t.i < |w.boxes| && t.q.cg == w.boxes[t.p].cg && t.c.cg == w.boxes[t.i].cg
    ensures CgsOk(PairNext(w, t))
  {
    SameName(w.cgs, w.boxes, t.p, t.q);
    SameName(w.cgs, w.boxes[t.p := t.q], t.i, t.c);
  }

  lemma {:induction false} DeliverAllCgs(w: World, served: seq<Req<Who>>, left: seq<int>)
    requires |served| == |left| && OnePlace(w.cgs, w.boxes)
    ensures OnePlace(w.cgs, DeliverAll(w, served, left).boxes)
    decreases |served|
  {
    if served != [] {
      var r := served[0];
      if r.who.Sb? && r.who.id < |w.boxes| {
        SameName(w.cgs, w.boxes, r.who.id, Answered(w.boxes[r.who.id]));
      }
      DeliverAllCgs(Deliver(w, r, left[0]), served[1..], left[1..]);
    }
  }

  lemma {:induction false} DeliverAllCleanup(w: World, served: seq<Req<Who>>, left: seq<int>)
    requires |served| == |left|
    ensures var c := DeliverAll(w, served, left).cleanup;
      c == w.cleanup || (c == GotAll && exists r <- served :: r.who == CleanupTask)
    decreases |served|
  {
    if served != [] {
      var w1 := Deliver(w, served[0], left[0]);
      DeliverAllCleanup(w1, served[1..], left[1..]);
      assert served[0] in served;
      forall s <- served[1..] ensures s in served {}
    }
  }

  lemma MemTurnCgs(w: World)
    requires Conserved(w) && CgsOk(w) && Enabled(w, MemTurn)
    ensures CgsOk(Next(w, MemTurn))
  {
    var t := Turn(w.mem, w.inbox[0]);
    var w1 := w.(mem := t.pool, inbox := w.inbox[1..]);
    TurnKeepsRequests(w.mem, w.inbox[0]);
    DeliverAllFields(w1, t.served, t.left);
    DeliverAllCgs(w1, t.served, t.left);
    DeliverAllCleanup(w1, t.served, t.left);
  }

  lemma NewCgs(cgs: CgPool, bs: seq<Box>)
    requires OnePlace(cgs, bs) && cgs.hand == None
    ensures OnePlace(cgs.(created := cgs.created + 1, hand := Some(cgs.created)), bs)
  {
    var cgs' := cgs.(created := cgs.created + 1, hand := Some(cgs.created));
    forall name: nat ensures InPool(cgs', name) + InUse(bs, name) == if name < cgs'.created then 1 else 0 {
      assert InPool(cgs, name) + InUse(bs, name) == if name < cgs.created then 1 else 0;
    }
  }

  /** A move inside the pool. */
  lemma MovePool(cgs: CgPool, cgs': CgPool, bs: seq<Box>)
    requires OnePlace(cgs, bs) && cgs'.created == cgs.created
    requires forall name: nat :: InPool(cgs', name) == InPool(cgs, name)
    ensures OnePlace(cgs', bs)
  {
    forall name: nat ensures InPool(cgs', name) + InUse(bs, name) == if name < cgs.created then 1 else 0 {
      assert InPool(cgs, name) + InUse(bs, name) == if name < cgs.created then 1 else 0;
    }
  }

  lemma ReadyPooled(cgs: CgPool, bs: seq<Box>)
    requires cgs.hand.Some? && OnePlace(cgs, bs)
    ensures OnePlace(cgs.(hand := None, ready := cgs.ready + [cgs.hand.value]), bs)
  {
    var cgs' := cgs.(hand := None, ready := cgs.ready + [cgs.hand.value]);
    forall name: nat ensures InPool(cgs', name) == InPool(cgs, name) {
      OccursSnoc(cgs.ready, cgs.hand.value, name);
    }
    MovePool(cgs, cgs', bs);
  }

  lemma QuitOne(cgs: CgPool, cgs': CgPool, name: nat)
    requires cgs.hand.Some? && cgs'.hand == None && cgs'.ready == cgs.ready
    requires cgs'.destroyed == cgs.destroyed + [cgs.hand.value]
    ensures InPool(cgs', name) == InPool(cgs, name)
  {
    OccursSnoc(cgs.destroyed, cgs.hand.value, name);
  }

  lemma QuitPooled(cgs: CgPool, bs: seq<Box>)
    requires cgs.hand.Some? && OnePlace(cgs, bs)
    ensures OnePlace(cgs.(hand := None, destroyed := cgs.destroyed + [cgs.hand.value], phase := Draining), bs)
  {
    var cgs' := cgs.(hand := None, destroyed := cgs.destroyed + [cgs.hand.value], phase := Draining);
    forall name: nat ensures InPool(cgs', name) == InPool(cgs, name) {
      QuitOne(cgs, cgs', name);
    }
    MovePool(cgs, cgs', bs);
  }

  lemma DrainPooled(cgs: CgPool, bs: seq<Box>)
    requires cgs.ready != [] && OnePlace(cgs, bs)
    ensures OnePlace(cgs.(ready := cgs.ready[1..], destroyed := cgs.destroyed + [cgs.ready[0]]), bs)
  {
    var cgs' := cgs.(ready := cgs.ready[1..], destroyed := cgs.destroyed + [cgs.ready[0]]);
    forall name: nat ensures InPool(cgs', name) == InPool(cgs, name) {
      OccursTail(cgs.ready, name);
      OccursSnoc(cgs.destroyed, cgs.ready[0], name);
    }
    MovePool(cgs, cgs', bs);
  }

  lemma RunTaskCgs(w: World, k: nat)
    requires CgsOk(w) && Enabled(w, RunTask(k))
    ensures CgsOk(Next(w, RunTask(k)))
  {
    var i := w.tasks[k].sb;
    SameName(w.cgs, w.boxes, i, Evict(w.boxes[i], w.tasks[k].force));
  }

  /** No step loses, shares or destroys a cgroup twice. */
  lemma PoolCgs(w: World, l: Label)
    requires Tree(w.boxes) && CgsOk(w) && Enabled(w, l) && (l.CgNew? || l.CgReady? || l.CgQuit? || l.CgDrain? || l.CgDone?)
    ensures CgsOk(Next(w, l))
  {
    match l {
      case CgNew => NewCgs(w.cgs, w.boxes);
      case CgReady => ReadyPooled(w.cgs, w.boxes);
      case CgQuit => QuitPooled(w.cgs, w.boxes);
      case CgDrain => DrainPooled(w.cgs, w.boxes);
      case CgDone =>
    }
  }

  lemma CgsStep(w: World, l: Label)
    requires Tree(w.boxes) && Conserved(w) && CgsOk(w) && Enabled(w, l)
    ensures CgsOk(Next(w, l))
  {
    if l.CgNew? || l.CgReady? || l.CgQuit? || l.CgDrain? || l.CgDone? {
      PoolCgs(w, l);
    } else {
      match l {
        case StartCreate(from, mb) =>
          var w' := Next(w, l);
          assert w'.boxes[..|w.boxes|] == w.boxes;
          assert forall name: nat :: InUse(w'.boxes, name) == InUse(w.boxes, name);
        case Solo(i, act) => SoloCgs(w, i, act);
        case Pair(act2, id) =>
          PairTree(w.boxes, act2, id);
          PairCgs(w, PairDo(w.boxes, act2, id));
        case MemTurn => MemTurnCgs(w);
        case RunTask(k) => RunTaskCgs(w, k);
        case _ =>
      }
    }
  }

  // ---------------------------------------------------------------- clean shutdown

  lemma ChargePositive(conf: Conf, b: Box)
    requires Checked(conf) && Local(b)
    ensures Charge(conf, b) >= 0
    ensures b.cg.Cg? ==> Charge(conf, b) >= 1
  {
  }

  lemma {:induction false} ChargesZero(conf: Conf, bs: seq<Box>, name: nat)
    requires Checked(conf) && Locals(bs)
    ensures SumCharge(conf, bs) >= 0
    ensures SumCharge(conf, bs) == 0 ==> InUse(bs, name) == 0
    decreases |bs|
  {
    if bs != [] {
      var n := |bs| - 1;
      assert Locals(bs[..n]);
      ChargesZero(conf, bs[..n], name);
      assert Local(bs[n]);
      ChargePositive(conf, bs[n]);
    }
  }

  /** Once Cleanup owns the whole pool, no sandbox has a cgroup. */
  lemma WholePool(w: World, name: nat)
    requires Checked(w.conf) && Tree(w.boxes) && Conserved(w)
    requires w.cleanup != NotCalled && w.cleanup != AskedAll
    ensures w.mem.availableMB == 0 && InUse(w.boxes, name) == 0
  {
    ChargesZero(w.conf, w.boxes, name);
  }

  lemma ShutdownDestroys(w: World, name: nat)
    requires Checked(w.conf) && Tree(w.boxes) && Conserved(w) && CgsOk(w) && w.cleanup == Done
    ensures Occurs(w.cgs.destroyed, name) == if name < w.cgs.created then 1 else 0
  {
    WholePool(w, name);
    assert InPool(w.cgs, name) + InUse(w.boxes, name) == if name < w.cgs.created then 1 else 0;
  }
}
