/** What whole operations on a sandbox come to, and who may destroy one
    (go/worker/sandbox: safeSandbox.go, sock.go, evictors.go). */
module SandboxOperations {
  import opened Common
  import opened MemPool
  import opened Evictor
  import opened Sandboxes
  import opened SandboxTree
  import opened SandboxMemory
  import opened SandboxEvents
  import opened SandboxTheorems

  // ------------------------------------------------------------------ who changes a sandbox

  lemma AnsweredTwice(b: Box)
    ensures Answered(Answered(b)) == Answered(b)
  {
  }

  lemma {:induction false} DeliverAllBox(w: World, served: seq<Req<Who>>, left: seq<int>, i: nat)
    requires |served| == |left| && i < |w.boxes|
    ensures var d := DeliverAll(w, served, left); i < |d.boxes| && (d.boxes[i] == w.boxes[i] || d.boxes[i] == Answered(w.boxes[i]))
    decreases |served|
  {
    if served != [] {
      AnsweredTwice(w.boxes[i]);
      DeliverAllBox(Deliver(w, served[0], left[0]), served[1..], left[1..], i);
    }
  }

  /** A step leaves sandbox `i` alone, or is a step of its own operation, the answer to its
      request, a step with its parent or a child, or an eviction of it. */
  ghost predicate Touches(w: World, l: Label, i: nat, d: Box)
    requires i < |w.boxes|
  {
    var b := w.boxes[i];
    || d == b
    || (l.Solo? && l.id == i && Can(w.conf, b, l.act) && d == Do(w.conf, b, l.act))
    || (l == MemTurn && d == Answered(b))
    || (l.Pair? && PairCan(w.boxes, l.act2, l.id) &&
        var t := PairDo(w.boxes, l.act2, l.id); (t.p == i && d == t.q) || (t.i == i && d == t.c))
    || (l.RunTask? && l.k < |w.tasks| && w.tasks[l.k].sb == i && b.phase == Idle && d == Evict(b, w.tasks[l.k].force))
  }

  lemma BoxChanges(w: World, l: Label, i: nat)
    requires Inv(w) && Enabled(w, l) && i < |w.boxes|
    ensures i < |Next(w, l).boxes| && Touches(w, l, i, Next(w, l).boxes[i])
  {
    if l.Solo? {
      SoloFields(w, l.id, l.act);
    } else if l.MemTurn? {
      var t := Turn(w.mem, w.inbox[0]);
      TurnKeepsRequests(w.mem, w.inbox[0]);
      DeliverAllBox(w.(mem := t.pool, inbox := w.inbox[1..]), t.served, t.left, i);
    } else if l.Pair? {
      PairTree(w.boxes, l.act2, l.id);
    }
  }

  // ------------------------------------------------------------------ whole operations

  /** Pause: with downsizing, a limit above what is used plus 1 MB drops to that, and exactly the
      difference goes back to the pool before the sandbox counts as paused. */
  lemma PauseEffect(conf: Conf, b: Box, usageMB: nat)
    requires Local(b) && Can(conf, b, PauseBegin(usageMB))
    ensures var b1 := Do(conf, b, PauseBegin(usageMB));
      var shrinks := conf.downsize && usageMB + 1 < b.limit;
      && (shrinks <==> Can(conf, b1, PauseAsk))
      && (shrinks ==> Want(conf, Do(conf, b1, PauseAsk)) == Some(b.limit - (usageMB + 1)))
      && var b2 := if shrinks then Answered(Do(conf, b1, PauseAsk)) else b1;
      && Can(conf, b2, PauseDone) && Says(PauseDone) == Some(EvPause)
      && Do(conf, b2, PauseDone) ==
         b.(paused := true, awake := false, limit := if shrinks then usageMB + 1 else b.limit)
  {
  }

  /** Unpause: announced first; with downsizing, the memory up to the normal limit is asked for
      and granted before the limit is raised. */
  function Woken(conf: Conf, b: Box): Box
    requires Can(conf, b, WakeBegin)
  {
    var b3 := Do(conf, Do(conf, Do(conf, b, WakeBegin), WakeSay), WakeAskMem);
    if conf.downsize then Do(conf, Answered(b3), WakeSetLimit) else b3
  }

  lemma UnpauseAsks(conf: Conf, b: Box)
    requires Can(conf, b, WakeBegin)
    ensures Can(conf, Do(conf, b, WakeBegin), WakeSay) && Says(WakeSay) == Some(EvUnpause) && Says(WakeBegin) == None
    ensures var b3 := Do(conf, Do(conf, Do(conf, b, WakeBegin), WakeSay), WakeAskMem);
      && (Want(conf, b3) == if conf.downsize then Some(b.limit - conf.memMB) else None)
      && (conf.downsize <==> Can(conf, Answered(b3), WakeSetLimit))
  {
  }

  /** Then it runs, with the normal limit if it had been downsized, or is destroyed. */
  lemma UnpauseEffect(conf: Conf, b: Box)
    requires Local(b) && Can(conf, b, WakeBegin)
    ensures Can(conf, Woken(conf, b), WakeOk) && Can(conf, Woken(conf, b), WakeFail)
    ensures Do(conf, Woken(conf, b), WakeOk) ==
            b.(paused := false, awake := true, limit := if conf.downsize then conf.memMB else b.limit)
    ensures IsDying(Do(conf, Woken(conf, b), WakeFail)) && Do(conf, Woken(conf, b), WakeFail).refs == b.refs - 1
  {
  }

  /** Create without a parent: asks for the memory, takes a cgroup, and ends published and
      running with that limit and one reference. */
  lemma CreateEffect(conf: Conf, mb: nat, name: nat)
    ensures var b := Box(None, None, {}, {}, 1, mb, NoCg, NewAskMem, false, false, true, false);
      && Want(conf, b) == Some(-(mb as int))
      && Can(conf, Answered(b), GetCg(name))
      && var b1 := Do(conf, Answered(b), GetCg(name));
      && Can(conf, b1, SetupOk) && Can(conf, Do(conf, b1, SetupOk), FreshOk)
      && var b2 := Do(conf, Do(conf, b1, SetupOk), FreshOk);
      && Can(conf, b2, Publish) && Says(Publish) == Some(EvCreate)
      && Do(conf, b2, Publish) == Box(None, None, {}, {}, 1, mb, Cg(name), Idle, true, false, true, false)
  {
  }

  // ------------------------------------------------------------------ what an eviction does

  /** In every run, an eviction goroutine that gets the lock of a live sandbox starts to destroy
      it if and only if it is forced or the sandbox is paused; otherwise it leaves everything
      as it is and has only to say so. */
  lemma EvictionRuns(conf: Conf, ls: seq<Label>, w: World, k: nat)
    requires Reached(conf, ls, w) && Enabled(w, RunTask(k)) && !w.boxes[w.tasks[k].sb].dead
    ensures var i := w.tasks[k].sb; var b := w.boxes[i]; var w' := Next(w, RunTask(k));
      && i < |w'.boxes|
      && (IsDying(w'.boxes[i]) <==> w.tasks[k].force || b.paused)
      && (IsDying(w'.boxes[i]) ==> w'.boxes[i].refs == b.refs - 1)
      && (!IsDying(w'.boxes[i]) ==> w'.boxes[i] == b.(phase := Ignoring))
      && w'.tasks == w.tasks[..k] + w.tasks[k + 1..]
      && (forall j :: 0 <= j < |w.boxes| && j != i ==> w'.boxes[j] == w.boxes[j])
  {
  }

  lemma IgnoringActs(w: World, l: Label, i: nat, d: Box)
    requires Tree(w.boxes) && i < |w.boxes| && w.boxes[i].phase == Ignoring && Touches(w, l, i, d)
    ensures d == w.boxes[i] || (l == Solo(i, SayIgnored) && d == w.boxes[i].(phase := Idle))
  {
    assert Local(w.boxes[i]);
    if l.Pair? && PairCan(w.boxes, l.act2, l.id) {
      PairAges(w.boxes, l.act2, l.id);
    }
  }

  /** In every run, an eviction that was ignored says so next, and nothing else happens to the
      sandbox before. */
  lemma IgnoredSays(conf: Conf, ls: seq<Label>, w: World, l: Label, i: nat)
    requires Reached(conf, ls, w) && Enabled(w, l) && i < |w.boxes| && w.boxes[i].phase == Ignoring
    ensures i < |Next(w, l).boxes|
    ensures l == Solo(i, SayIgnored) ==>
              Next(w, l).boxes[i] == w.boxes[i].(phase := Idle) && Next(w, l).sent == w.sent + [Event(EvDestroyIgnored, i)]
    ensures l != Solo(i, SayIgnored) ==> Next(w, l).boxes[i] == w.boxes[i]
  {
    ReachedInv(conf, ls, w);
    BoxChanges(w, l, i);
    IgnoringActs(w, l, i, Next(w, l).boxes[i]);
    if l == Solo(i, SayIgnored) {
      assert Local(w.boxes[i]);
      SoloFields(w, i, SayIgnored);
    }
  }

  // ------------------------------------------------------------------ who destroys a running sandbox

  lemma {:induction false} LastStep(w: World, ls: seq<Label>)
    requires Legal(w, ls) && ls != []
    ensures var init := ls[..|ls| - 1];
      Legal(w, init) && Enabled(Run(w, init), ls[|ls| - 1]) && Run(w, ls) == Next(Run(w, init), ls[|ls| - 1])
    decreases |ls|
  {
    var init := ls[..|ls| - 1];
    if |ls| > 1 {
      LastStep(Next(w, ls[0]), ls[1..]);
      assert ls[1..][..|ls| - 2] == init[1..];
    } else {
      assert init == [] && ls[1..] == [];
    }
  }

  lemma ReachedInit(conf: Conf, ls: seq<Label>, w: World)
    requires Reached(conf, ls, w) && ls != []
    ensures Legal(Init(conf), ls[..|ls| - 1])
    ensures var w0 := Run(Init(conf), ls[..|ls| - 1]);
      Reached(conf, ls[..|ls| - 1], w0) && Enabled(w0, ls[|ls| - 1]) && w == Next(w0, ls[|ls| - 1])
  {
    LastStep(Init(conf), ls);
  }

  /** The pass of the evictor in which it spawned `t`: a forced task when it saw no paused sandbox,
      nothing on its way out and less free memory than one sandbox needs, for the oldest running
      sandbox without children; any other for a paused one. */
  ghost predicate Spawns(u: World, t: Task) {
    && u.evictor.EvDeciding? && |u.view.lists| == 4
    && if t.force then
         && u.view.lists[0] == [] && u.view.lists[EVICTING] == [] && u.evictor.left < u.conf.memMB
         && u.view.lists[1] != [] && t.sb == u.view.lists[1][0]
       else t.sb in u.view.lists[0]
  }

  lemma DecideSpawns(w: World, t: Task)
    requires Evicts(w) && Checked(w.conf) && Enabled(w, EvDecide)
    requires t in Decide(w.view, w.evictor.left, w.conf.totalMB, w.conf.memMB).tasks
    ensures Spawns(w, t)
  {
    var n, goal := PassExactly(w.view, w.evictor.left, w.conf.totalMB, w.conf.memMB);
  }

  /** Only a pass adds tasks. */
  lemma TasksKept(w: World, l: Label, t: Task)
    requires Enabled(w, l) && l != EvDecide && t in Next(w, l).tasks
    ensures t in w.tasks
  {
    if l.Solo? {
      SoloFields(w, l.id, l.act);
    } else if l.MemTurn? {
      var u := Turn(w.mem, w.inbox[0]);
      DeliverAllFields(w.(mem := u.pool, inbox := w.inbox[1..]), u.served, u.left);
    }
  }

  lemma NewTask(w: World, l: Label, t: Task)
    requires Inv(w) && Enabled(w, l) && t in Next(w, l).tasks && t !in w.tasks
    ensures l == EvDecide && Spawns(w, t)
  {
    if l == EvDecide {
      DecideSpawns(w, t);
    } else {
      TasksKept(w, l, t);
    }
  }

  /** In every run, every eviction goroutine was spawned by a pass that had reason to. */
  lemma {:induction false} TaskOrigin(conf: Conf, ls: seq<Label>, w: World, t: Task) returns (j: nat)
    requires Reached(conf, ls, w) && t in w.tasks
    ensures j < |ls| && ls[j] == EvDecide && Legal(Init(conf), ls[..j]) && Spawns(Run(Init(conf), ls[..j]), t)
    decreases |ls|
  {
    var init := ls[..|ls| - 1];
    ReachedInit(conf, ls, w);
    var w0 := Run(Init(conf), init);
    if t in w0.tasks {
      j := TaskOrigin(conf, init, w0, t);
      assert init[..j] == ls[..j] && init[j] == ls[j];
    } else {
      LastSpawns(conf, init, w0, ls[|ls| - 1], t);
      j := |ls| - 1;
    }
  }

  lemma LastSpawns(conf: Conf, ls: seq<Label>, w: World, l: Label, t: Task)
    requires Reached(conf, ls, w) && Enabled(w, l) && t in Next(w, l).tasks && t !in w.tasks
    ensures l == EvDecide && Spawns(w, t)
  {
    ReachedInv(conf, ls, w);
    NewTask(w, l, t);
  }

  /** A live sandbox that is not dying yet. */
  predicate Unharmed(b: Box) {
    b.published && !b.dead && !IsDying(b)
  }

  lemma DoDies(conf: Conf, b: Box, act: Act)
    requires Local(b) && Can(conf, b, act) && Unharmed(b) && IsDying(Do(conf, b, act))
    ensures act == Destroy || (act == WakeFail && b.paused)
  {
  }

  lemma PairSpares(bs: seq<Box>, act: PairAct, id: nat)
    requires Tree(bs) && PairCan(bs, act, id)
    ensures var t := PairDo(bs, act, id);
      && t.p < |bs| && t.i < |bs|
      && (IsDying(t.q) ==> IsDying(bs[t.p])) && (IsDying(t.c) ==> IsDying(bs[t.i]))
  {
    PairPhases(bs, act, id);
  }

  /** What makes a live sandbox start to die: a caller's Destroy, a failed Unpause, or an eviction
      that is forced or finds it paused. */
  lemma StartsDying(w: World, l: Label, i: nat)
    requires Inv(w) && Enabled(w, l) && i < |w.boxes| && i < |Next(w, l).boxes|
    requires Unharmed(w.boxes[i]) && IsDying(Next(w, l).boxes[i])
    ensures || l == Solo(i, Destroy)
            || (l == Solo(i, WakeFail) && w.boxes[i].paused)
            || (l.RunTask? && w.tasks[l.k].sb == i && (w.boxes[i].paused || w.tasks[l.k].force))
  {
    BoxChanges(w, l, i);
    assert Local(w.boxes[i]);
    if l.Pair? {
      PairSpares(w.boxes, l.act2, l.id);
    } else if l.Solo? && l.id == i {
      DoDies(w.conf, w.boxes[i], l.act);
    }
  }

  /** In every run, a sandbox that is running starts to die only by a caller's Destroy or by a
      forced eviction, which a pass spawned that saw nothing paused, nothing on its way out and
      less free memory than one sandbox needs. */
  lemma RunningDies(conf: Conf, ls: seq<Label>, w: World, l: Label, i: nat) returns (j: nat)
    requires Reached(conf, ls, w) && Enabled(w, l) && i < |w.boxes| && i < |Next(w, l).boxes|
    requires Unharmed(w.boxes[i]) && !w.boxes[i].paused && IsDying(Next(w, l).boxes[i])
    ensures || l == Solo(i, Destroy)
            || (&& l.RunTask? && w.tasks[l.k] == Task(i, true)
                && j < |ls| && ls[j] == EvDecide && Legal(Init(conf), ls[..j]) && Spawns(Run(Init(conf), ls[..j]), Task(i, true)))
  {
    ReachedInv(conf, ls, w);
    StartsDying(w, l, i);
    j := 0;
    if l.RunTask? {
      j := TaskOrigin(conf, ls, w, w.tasks[l.k]);
    }
  }

  // ------------------------------------------------------------------ what the evictor is told

  lemma OnlyPoll(w: World, r: Req<Who>)
    requires Inv(w) && r in w.mem.waiting
    ensures !r.who.EvictorTask?
  {
    assert r in multiset(w.inbox) + multiset(w.mem.waiting);
    assert r in AllWanted(w);
    if r in Wanted(w.conf, w.boxes) {
      WantedMember(w.conf, w.boxes, r);
    } else {
      assert r in EvictorWants(w.evictor) || r in CleanupWants(w.cleanup, w.conf.totalMB);
    }
  }

  lemma {:induction false} OthersDelivered(w: World, served: seq<Req<Who>>, left: seq<int>)
    requires |served| == |left| && forall r <- served :: !r.who.EvictorTask?
    ensures DeliverAll(w, served, left).evictor == w.evictor
    decreases |served|
  {
    if served != [] {
      OthersDelivered(Deliver(w, served[0], left[0]), served[1..], left[1..]);
    }
  }

  lemma PollDelivered(w: World, served: seq<Req<Who>>, left: seq<int>)
    requires |served| == |left| > 0 && served[0].who == EvictorTask
    requires forall r <- served[1..] :: !r.who.EvictorTask?
    ensures DeliverAll(w, served, left).evictor == EvDeciding(left[0])
  {
    OthersDelivered(Deliver(w, served[0], left[0]), served[1..], left[1..]);
  }

  /** A poll is answered first, with what is free; then at most one waiter is served. */
  lemma PollTurned(pool: Pool<Who>, poll: Req<Who>)
    requires poll.mb == 0
    ensures var t := Turn(pool, poll);
      && |t.served| == |t.left| > 0 && t.served[0] == poll && t.left[0] == pool.availableMB
      && forall r <- t.served[1..] :: r in pool.waiting
  {
    AcceptPoll(pool, poll);
    var t := Turn(pool, poll);
    if FrontFits(pool) {
      assert t.served == [poll] + [pool.waiting[0]] && t.served[1..] == [pool.waiting[0]];
    } else {
      assert t.served[1..] == [];
    }
  }

  /** In every run, the evictor's poll is answered with the memory that is free when memTask
      gets to it. */
  lemma PollTellsFree(conf: Conf, ls: seq<Label>, w: World)
    requires Reached(conf, ls, w) && w.inbox != [] && w.inbox[0].who == EvictorTask
    ensures Enabled(w, MemTurn) && Next(w, MemTurn).evictor == EvDeciding(w.mem.availableMB)
  {
    ReachedInv(conf, ls, w);
    MemoryConserved(conf, ls, w);
    PollZero(w, w.inbox[0]);
    PollTurned(w.mem, w.inbox[0]);
    var t := Turn(w.mem, w.inbox[0]);
    forall r <- t.served[1..] ensures !r.who.EvictorTask? {
      OnlyPoll(w, r);
    }
    PollDelivered(w.(mem := t.pool, inbox := w.inbox[1..]), t.served, t.left);
  }

  lemma PollZero(w: World, r: Req<Who>)
    requires Inv(w) && r in w.inbox && r.who == EvictorTask
    ensures r.mb == 0
  {
    assert r in multiset(w.inbox) + multiset(w.mem.waiting);
    assert r in AllWanted(w);
    if r in Wanted(w.conf, w.boxes) {
      WantedMember(w.conf, w.boxes, r);
    } else {
      assert r in EvictorWants(w.evictor) || r in CleanupWants(w.cleanup, w.conf.totalMB);
    }
  }
}
