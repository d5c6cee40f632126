/** No deadlock among sandbox locks, and no endless cascade
    (go/worker/sandbox: safeSandbox.go, sock.go, sockPool.go). */
module SandboxProgress {
  import opened Common
  import opened MemPool
  import opened Sandboxes
  import opened SandboxTree
  import opened SandboxMemory
  import opened SandboxEvents
  import opened SandboxTheorems

  /** Steps by which callers start something new. */
  predicate Calls(l: Label) {
    || l.StartCreate? || l.RunTask? || l == CleanupBegin
    || (l.Solo? && (l.act == Destroy || l.act.PauseBegin? || l.act == WakeBegin))
  }

  // ------------------------------------------------------------------ no deadlock

  /** The sandbox whose lock `b`'s goroutine waits for, or inside whose fork or childExit it is. */
  function WaitsFor(b: Box): Option<nat> {
    match b.phase
    case NewProc => b.from
    case NewForkWait => b.from
    case ExitParent(_) => b.parent
    case ExitCalled(_) => b.parent
    case _ => None
  }

  /** From `i`, going on to the sandbox whose lock is waited for and held, leads to `root`. */
  ghost predicate Leads(bs: seq<Box>, i: nat, root: nat)
    decreases i
  {
    && i < |bs|
    && (root == i ||
        match WaitsFor(bs[i])
        case None => false
        case Some(p) => p < i && bs[p].phase != Idle && Leads(bs, p, root))
  }

  /** The request of sandbox `i`, once it has one. */
  function RequestOf(w: World, i: nat): Option<Req<Who>>
    requires i < |w.boxes|
  {
    match Want(w.conf, w.boxes[i])
    case None => None
    case Some(mb) => Some(Req(Sb(i), mb))
  }

  /** A goroutine that memTask has put on its waiting list. */
  ghost predicate WaitsForMemory(w: World, i: nat) {
    i < |w.boxes| && RequestOf(w, i).Some? && RequestOf(w, i).value in w.mem.waiting && RequestOf(w, i).value.mb < 0
  }

  /** A step of the operation that is in progress on sandbox `i`. */
  predicate StepOf(w: World, l: Label, i: nat) {
    match l
    case Solo(id, _) => id == i
    case Pair(act2, id) => PairCan(w.boxes, act2, id) && (PairDo(w.boxes, act2, id).p == i || PairDo(w.boxes, act2, id).i == i)
    case _ => false
  }

  /** The next step on `b` sends an event. */
  predicate MustSpeak(b: Box) {
    match b.phase
    case NewConnect => true
    case Ignoring => true
    case PauseNotify => true
    case WakeCalled => true
    case ForkRun(_) => true
    case Finish(y) => if y == ByDestroy then b.published else !b.dead
    case _ => false
  }

  /** The next step on `b` sends a request to memTask. */
  predicate MustAsk(conf: Conf, b: Box) {
    b.phase.PauseShrunk? || b.phase.Killed? || (b.phase == WakeSaid && conf.downsize)
  }

  /** An outcome that the environment chooses and that makes an operation fail. */
  predicate Fails(w: World, l: Label) {
    match l
    case Solo(i, act) =>
      i < |w.boxes| &&
      (match act
       case WakeFail => true
       case Abort => w.boxes[i].phase != NewFailed
       case ForkReject => !(ParentFree(w, i) && w.boxes[w.boxes[i].from.value].dead)
       case _ => false)
    case Pair(act2, _) => act2 == ForkFail
    case _ => false
  }

  /** The step is the one that sandbox `i` waits for: a step of its own operation; memTask's, if
      `i` has a request in the channel or has to put one into a full one; the evictor's, if `i`
      has to put an event into a full channel, or memTask's, if the evictor waits for that;
      the cgroup task's, if `i` has to take a cgroup and there is none. */
  ghost predicate Helps(w: World, i: nat, l: Label)
    requires i < |w.boxes|
  {
    var b := w.boxes[i];
    || StepOf(w, l, i)
    || (l == MemTurn && RequestOf(w, i).Some? && RequestOf(w, i).value in w.inbox)
    || (l == MemTurn && MustAsk(w.conf, b) && !MemRoom(w))
    || (MustSpeak(b) && !EventRoom(w) && (l == EvTake || l == EvPoll || l == EvDecide))
    || (MustSpeak(b) && !EventRoom(w) && (w.evictor == EvPolling || (w.evictor == EvAsking && !MemRoom(w))) && l == MemTurn)
    || (b.phase == NewGetCg && w.cgs.ready == [] && (l == CgNew || l == CgReady))
  }

  /** The step continues what is in progress and is no failure. */
  ghost predicate CanGo(w: World, l: Label) {
    !Calls(l) && Enabled(w, l) && !Fails(w, l)
  }

  /** What `i` waits for can happen now. */
  ghost predicate Moves(w: World, i: nat, l: Label) {
    i < |w.boxes| && CanGo(w, l) && Helps(w, i, l)
  }

  lemma {:induction false} WantIsWanted(conf: Conf, bs: seq<Box>, i: nat)
    requires i < |bs| && Want(conf, bs[i]).Some?
    ensures Req(Sb(i), Want(conf, bs[i]).value) in Wanted(conf, bs)
    decreases |bs|
  {
    if i < |bs| - 1 {
      WantIsWanted(conf, bs[..|bs| - 1], i);
    }
  }

  lemma MemTurnGoes(w: World)
    requires Inv(w) && w.inbox != []
    ensures CanGo(w, MemTurn)
  {
    RequestFits(w, w.inbox[0]);
  }

  /** Whoever is blocked on memory has its request in the channel or on the waiting list; on
      the list it is an allocation. */
  lemma BlockedGoes(w: World, i: nat)
    requires Inv(w) && i < |w.boxes| && Want(w.conf, w.boxes[i]).Some?
    ensures Moves(w, i, MemTurn) || WaitsForMemory(w, i)
  {
    var r := RequestOf(w, i).value;
    WantIsWanted(w.conf, w.boxes, i);
    assert r in AllWanted(w);
    assert r in multiset(w.inbox) + multiset(w.mem.waiting);
    if r in w.inbox {
      MemTurnGoes(w);
    } else {
      assert r in w.mem.waiting;
    }
  }

  /** A poll never waits: while the evictor polls, its request is in the channel. */
  lemma PollAnswered(w: World)
    requires Inv(w) && w.evictor == EvPolling
    ensures w.inbox != []
  {
    var r := Req(EvictorTask, 0);
    assert r in EvictorWants(w.evictor);
    assert r in AllWanted(w);
    assert r in multiset(w.inbox) + multiset(w.mem.waiting);
    assert r !in w.mem.waiting;
  }

  /** A full event channel means that the evictor can go on, or gets its answer. */
  lemma EvictorGoes(w: World, i: nat) returns (l: Label)
    requires Inv(w) && i < |w.boxes| && MustSpeak(w.boxes[i]) && !EventRoom(w)
    ensures Moves(w, i, l)
  {
    match w.evictor {
      case EvWait => NoPanic(w); l := EvTake;
      case EvDrain => NoPanic(w); l := EvTake;
      case EvDeciding(_) => l := EvDecide;
      case EvAsking =>
        l := EvPoll;
        if !MemRoom(w) {
          MemTurnGoes(w);
          l := MemTurn;
        }
      case EvPolling =>
        PollAnswered(w);
        MemTurnGoes(w);
        l := MemTurn;
    }
  }

  lemma CgroupGoes(w: World, i: nat) returns (l: Label)
    requires Inv(w) && w.cleanup == NotCalled && i < |w.boxes| && w.boxes[i].phase == NewGetCg
    ensures Moves(w, i, l)
  {
    if w.cgs.ready != [] {
      TakeGoes(w, i);
      l := Solo(i, GetCg(w.cgs.ready[0]));
    } else if w.cgs.hand.Some? {
      l := CgReady;
    } else {
      l := CgNew;
    }
  }

  lemma TakeGoes(w: World, i: nat)
    requires i < |w.boxes| && w.boxes[i].phase == NewGetCg && w.cgs.ready != []
    ensures Moves(w, i, Solo(i, GetCg(w.cgs.ready[0])))
  {
  }

  /** A step of sandbox `i` that needs no other lock. */
  function OwnAct(b: Box): Option<Act> {
    match b.phase
    case NewSetup => Some(SetupOk)
    case NewFailed => Some(Abort)
    case NewConnect => Some(Publish)
    case NewProc => if b.from == None then Some(FreshOk) else None
    case Ignoring => Some(SayIgnored)
    case PauseShrunk(_) => Some(PauseAsk)
    case PauseNotify => Some(PauseDone)
    case WakeCalled => Some(WakeSay)
    case WakeSaid => Some(WakeAskMem)
    case WakeGranted => Some(WakeSetLimit)
    case WakeThaw => Some(WakeOk)
    case Kill(_) => Some(KillCg)
    case Killed(_) => Some(ReturnMem)
    case ExitParent(_) => if b.parent == None then Some(NoParent) else None
    case Finish(y) => if y == ByDestroy then Some(FinishDestroy) else None
    case _ => None
  }

  lemma OwnEnabled(w: World, i: nat)
    requires i < |w.boxes| && OwnAct(w.boxes[i]).Some?
    requires (MustSpeak(w.boxes[i]) ==> EventRoom(w)) && (MustAsk(w.conf, w.boxes[i]) ==> MemRoom(w))
    ensures CanGo(w, Solo(i, OwnAct(w.boxes[i]).value))
  {
  }

  lemma OwnGoes(w: World, i: nat) returns (l: Label)
    requires Inv(w) && i < |w.boxes| && OwnAct(w.boxes[i]).Some?
    ensures Moves(w, i, l)
  {
    if MustSpeak(w.boxes[i]) && !EventRoom(w) {
      l := EvictorGoes(w, i);
    } else if MustAsk(w.conf, w.boxes[i]) && !MemRoom(w) {
      MemTurnGoes(w);
      l := MemTurn;
    } else {
      OwnEnabled(w, i);
      l := Solo(i, OwnAct(w.boxes[i]).value);
    }
  }

  /** Locks are only waited for downwards in age: the awaited sandbox is older. */
  lemma WaitsForOlder(w: World, i: nat)
    requires Inv(w) && i < |w.boxes| && WaitsFor(w.boxes[i]).Some?
    ensures WaitsFor(w.boxes[i]).value < i
    ensures w.boxes[i].phase.ExitCalled? || w.boxes[i].phase == NewForkWait ==>
              w.boxes[WaitsFor(w.boxes[i]).value].phase != Idle
  {
    assert Upward(Faces(w.boxes), i) && Local(w.boxes[i]);
  }

  /** With its parent's lock free, a new sandbox can begin its fork, unless the parent is dead,
      and a released one can tell its parent. */
  lemma ParentGoes(w: World, i: nat) returns (l: Label)
    requires Inv(w) && i < |w.boxes| && WaitsFor(w.boxes[i]).Some?
    requires WaitsFor(w.boxes[i]).value < |w.boxes| && w.boxes[WaitsFor(w.boxes[i]).value].phase == Idle
    ensures Moves(w, i, l)
  {
    WaitsForOlder(w, i);
    if w.boxes[i].phase == NewProc {
      l := BeginGoes(w, i);
    } else {
      l := Pair(ExitCall, i);
    }
  }

  lemma BeginGoes(w: World, i: nat) returns (l: Label)
    requires i < |w.boxes| && w.boxes[i].phase == NewProc && ParentFree(w, i)
    ensures Moves(w, i, l)
  {
    l := if w.boxes[w.boxes[i].from.value].dead then Solo(i, ForkReject) else Pair(ForkBegin, i);
  }

  /** A fork in progress can succeed as soon as its event can be sent. */
  lemma ForkGoes(w: World, i: nat) returns (l: Label)
    requires Inv(w) && i < |w.boxes| && w.boxes[i].phase.ForkRun?
    ensures Moves(w, i, l)
  {
    if EventRoom(w) {
      ForkEnabled(w, i);
      l := Pair(ForkOk, i);
    } else {
      l := EvictorGoes(w, i);
    }
  }

  lemma ForkEnabled(w: World, i: nat)
    requires Tree(w.boxes) && EventRoom(w) && i < |w.boxes| && w.boxes[i].phase.ForkRun?
    ensures Moves(w, i, Pair(ForkOk, i))
  {
    assert Downward(Faces(w.boxes), i);
  }

  lemma ExitGoes(w: World, i: nat) returns (l: Label)
    requires Inv(w) && i < |w.boxes| && w.boxes[i].phase.Finish? && w.boxes[i].phase.why != ByDestroy
    ensures Moves(w, i, l)
  {
    if MustSpeak(w.boxes[i]) && !EventRoom(w) {
      l := EvictorGoes(w, i);
    } else {
      ExitEnabled(w, i);
      l := Pair(FinishExit, i);
    }
  }

  lemma ExitEnabled(w: World, i: nat)
    requires Tree(w.boxes) && i < |w.boxes| && w.boxes[i].phase.Finish? && w.boxes[i].phase.why != ByDestroy
    requires MustSpeak(w.boxes[i]) ==> EventRoom(w)
    ensures Moves(w, i, Pair(FinishExit, i))
  {
    assert Downward(Faces(w.boxes), i);
  }

  /** In every reachable state, an operation in progress leads, along a chain of locks that are
      waited for and held, to one for which the step it waits for can be taken, or that waits
      for memory to be freed. */
  lemma {:induction false} Progress(w: World, i: nat) returns (l: Label, root: nat)
    requires Inv(w) && w.cleanup == NotCalled && i < |w.boxes| && w.boxes[i].phase != Idle
    ensures Leads(w.boxes, i, root) && (Moves(w, root, l) || WaitsForMemory(w, root))
    decreases i
  {
    l, root := MemTurn, i;
    var b := w.boxes[i];
    if Want(w.conf, b).Some? {
      BlockedGoes(w, i);
    } else if OwnAct(b).Some? {
      l := OwnGoes(w, i);
    } else if b.phase == NewGetCg {
      l := CgroupGoes(w, i);
    } else if WaitsFor(b).Some? {
      WaitsForOlder(w, i);
      var p := WaitsFor(b).value;
      assert p < |w.boxes|;
      if w.boxes[p].phase == Idle {
        l := ParentGoes(w, i);
      } else {
        l, root := Progress(w, p);
      }
    } else if b.phase.ForkRun? {
      l := ForkGoes(w, i);
    } else {
      assert Upward(Faces(w.boxes), i);
      PhaseLeft(b);
      l := ExitGoes(w, i);
    }
  }

  lemma PhaseLeft(b: Box)
    requires Local(b) && b.phase != Idle && OwnAct(b) == None && b.phase != NewGetCg && WaitsFor(b) == None
    requires !b.phase.ForkRun? && b.phase != NewAskMem && b.phase != WakeAsk && (b.phase == NewForkWait ==> b.from.Some?)
    requires !b.phase.PauseReturn? && !b.phase.Returning?
    ensures b.phase.Finish? && b.phase.why != ByDestroy
  {
  }

  /** Deadlock freedom over every run: what holds an operation up is, along locks held by ever
      older sandboxes, one that can go on or that waits for memory. */
  lemma NoDeadlock(conf: Conf, ls: seq<Label>, w: World, i: nat) returns (l: Label, root: nat)
    requires Reached(conf, ls, w) && w.cleanup == NotCalled && i < |w.boxes| && w.boxes[i].phase != Idle
    ensures Leads(w.boxes, i, root) && (Moves(w, root, l) || WaitsForMemory(w, root))
  {
    ReachedInv(conf, ls, w);
    l, root := Progress(w, i);
  }

  /** In every run no lock wait goes to a younger sandbox, so there is no cycle of them. */
  lemma LocksAcyclic(conf: Conf, ls: seq<Label>, w: World, i: nat)
    requires Reached(conf, ls, w) && i < |w.boxes| && WaitsFor(w.boxes[i]).Some?
    ensures WaitsFor(w.boxes[i]).value < i
  {
    ReachedInv(conf, ls, w);
    WaitsForOlder(w, i);
  }

  // --------------------------------------------------------------- no endless cascade

  /** A bound on the steps a sandbox's operation has left. */
  function PhaseRank(phase: Phase): nat {
    match phase
    case NewAskMem => 13
    case NewGetCg => 12
    case NewSetup => 11
    case NewProc => 10
    case NewForkWait => 8
    case NewFailed => 7
    case NewConnect => 7
    case Idle => 0
    case Ignoring => 1
    case PauseShrunk(_) => 3
    case PauseReturn(_) => 2
    case PauseNotify => 1
    case WakeCalled => 11
    case WakeSaid => 10
    case WakeAsk => 9
    case WakeGranted => 8
    case WakeThaw => 7
    case ForkRun(_) => 1
    case Kill(_) => 6
    case Killed(_) => 5
    case Returning(_) => 4
    case ExitParent(_) => 3
    case ExitCalled(_) => 2
    case Finish(_) => 1
  }

  /** A sandbox that has not exited may yet start the release of its parent, once. */
  function Rank(b: Box): nat {
    PhaseRank(b.phase) + (if Exited(b) then 0 else 6)
  }

  function TotalRank(bs: seq<Box>): nat {
    if bs == [] then 0 else TotalRank(bs[..|bs| - 1]) + Rank(bs[|bs| - 1])
  }

  lemma {:induction false} RankUpdate(bs: seq<Box>, i: nat, b: Box)
    requires i < |bs|
    ensures TotalRank(bs[i := b]) == TotalRank(bs) - Rank(bs[i]) + Rank(b)
    decreases |bs|
  {
    var n := |bs| - 1;
    if i < n {
      RankUpdate(bs[..n], i, b);
      assert bs[i := b][..n] == bs[..n][i := b];
    } else {
      assert bs[i := b][..n] == bs[..n];
    }
  }

  predicate CallsAct(act: Act) {
    act == Destroy || act.PauseBegin? || act == WakeBegin
  }

  lemma CallRank(conf: Conf, b: Box, act: Act)
    requires Local(b) && Can(conf, b, act) && CallsAct(act)
    ensures Rank(Do(conf, b, act)) <= Rank(b) + 11
  {
  }

  lemma DropRank(b: Box)
    requires PhaseRank(b.phase) >= 7 && b.cg != Freed
    ensures Rank(DropSelf(b)) < Rank(b)
  {
  }

  lemma FreeRank(conf: Conf, b: Box, act: Act)
    requires Local(b) && Can(conf, b, act) && Frees(act)
    ensures Rank(Do(conf, b, act)) < Rank(b)
  {
  }

  lemma WorkRank(conf: Conf, b: Box, act: Act)
    requires Local(b) && Can(conf, b, act) && !CallsAct(act) && !DropsSelf(act) && !Frees(act)
    ensures Rank(Do(conf, b, act)) < Rank(b)
  {
  }

  lemma DoRank(conf: Conf, b: Box, act: Act)
    requires Local(b) && Can(conf, b, act)
    ensures if CallsAct(act) then Rank(Do(conf, b, act)) <= Rank(b) + 11 else Rank(Do(conf, b, act)) < Rank(b)
  {
    if CallsAct(act) {
      CallRank(conf, b, act);
    } else if DropsSelf(act) {
      DropRank(b);
    } else if Frees(act) {
      FreeRank(conf, b, act);
    } else {
      WorkRank(conf, b, act);
    }
  }

  lemma AnsweredRank(b: Box)
    requires Local(b)
    ensures Rank(Answered(b)) <= Rank(b)
  {
  }

  lemma ForkRank(bs: seq<Box>, act: PairAct, id: nat)
    requires PairCan(bs, act, id) && PairDo(bs, act, id).p < |bs| && PairDo(bs, act, id).i < |bs|
    requires PairStands(bs, act, PairDo(bs, act, id)) && act != ExitCall && act != FinishExit
    ensures var t := PairDo(bs, act, id); Rank(t.q) + Rank(t.c) < Rank(bs[t.p]) + Rank(bs[t.i])
  {
  }

  lemma ExitRank(bs: seq<Box>, act: PairAct, id: nat)
    requires Locals(bs) && PairCan(bs, act, id) && PairDo(bs, act, id).p < |bs| && PairDo(bs, act, id).i < |bs|
    requires PairStands(bs, act, PairDo(bs, act, id)) && (act == ExitCall || act == FinishExit)
    ensures var t := PairDo(bs, act, id); Rank(t.q) + Rank(t.c) < Rank(bs[t.p]) + Rank(bs[t.i])
  {
    var t := PairDo(bs, act, id);
    assert Local(bs[t.p]) && Local(bs[t.i]);
  }

  lemma PairRank(bs: seq<Box>, act: PairAct, id: nat)
    requires Tree(bs) && PairCan(bs, act, id)
    ensures var t := PairDo(bs, act, id);
      t.p < t.i < |bs| && Rank(t.q) + Rank(t.c) < Rank(bs[t.p]) + Rank(bs[t.i])
  {
    PairTree(bs, act, id);
    PairPhases(bs, act, id);
    if act == ExitCall || act == FinishExit {
      ExitRank(bs, act, id);
    } else {
      ForkRank(bs, act, id);
    }
  }

  lemma {:induction false} DeliverAllRank(w: World, served: seq<Req<Who>>, left: seq<int>)
    requires |served| == |left| && Tree(w.boxes)
    ensures TotalRank(DeliverAll(w, served, left).boxes) <= TotalRank(w.boxes)
    decreases |served|
  {
    if served != [] {
      var r := served[0];
      if r.who.Sb? && r.who.id < |w.boxes| {
        assert Local(w.boxes[r.who.id]);
        AnsweredRank(w.boxes[r.who.id]);
        RankUpdate(w.boxes, r.who.id, Answered(w.boxes[r.who.id]));
      }
      DeliverTree(w, r, left[0]);
      DeliverAllRank(Deliver(w, r, left[0]), served[1..], left[1..]);
    }
  }

  /** A step of an operation in progress. */
  predicate Works(l: Label) {
    (l.Solo? || l.Pair?) && !Calls(l)
  }

  lemma PairRankStep(w: World, act: PairAct, id: nat)
    requires Tree(w.boxes) && PairCan(w.boxes, act, id)
    ensures PairDo(w.boxes, act, id).p < |w.boxes| && PairDo(w.boxes, act, id).i < |w.boxes|
    ensures TotalRank(PairNext(w, PairDo(w.boxes, act, id)).boxes) < TotalRank(w.boxes)
  {
    var t := PairDo(w.boxes, act, id);
    PairRank(w.boxes, act, id);
    RankUpdate(w.boxes, t.p, t.q);
    RankUpdate(w.boxes[t.p := t.q], t.i, t.c);
  }

  lemma RunTaskRank(w: World, k: nat)
    requires Tree(w.boxes) && TasksKnown(w) && Enabled(w, RunTask(k))
    ensures TotalRank(Next(w, RunTask(k)).boxes) <= TotalRank(w.boxes) + 19
  {
    var i := w.tasks[k].sb;
    assert Local(w.boxes[i]);
    EvictRank(w.boxes[i], w.tasks[k].force);
    RankUpdate(w.boxes, i, Evict(w.boxes[i], w.tasks[k].force));
  }

  lemma EvictRank(b: Box, force: bool)
    requires Local(b) && b.phase == Idle
    ensures Rank(Evict(b, force)) <= Rank(b) + 6
  {
  }

  lemma SoloRank(w: World, i: nat, act: Act)
    requires Tree(w.boxes) && SoloEnabled(w, i, act)
    ensures TotalRank(SoloNext(w, i, act).boxes) <= TotalRank(w.boxes) + (if CallsAct(act) then 19 else -1)
  {
    SoloFields(w, i, act);
    assert Local(w.boxes[i]);
    DoRank(w.conf, w.boxes[i], act);
    RankUpdate(w.boxes, i, Do(w.conf, w.boxes[i], act));
  }

  /** Every step of an operation in progress uses up rank; only calls add some. */
  lemma RankStep(w: World, l: Label)
    requires Inv(w) && Enabled(w, l)
    ensures TotalRank(Next(w, l).boxes) <= TotalRank(w.boxes) + (if Calls(l) then 19 else if Works(l) then -1 else 0)
  {
    match l {
      case StartCreate(from, mb) =>
        var w' := Next(w, l);
        assert w'.boxes[..|w.boxes|] == w.boxes;
      case Solo(i, act) => SoloRank(w, i, act);
      case Pair(act2, id) => PairRankStep(w, act2, id);
      case MemTurn =>
        var t := Turn(w.mem, w.inbox[0]);
        DeliverAllRank(w.(mem := t.pool, inbox := w.inbox[1..]), t.served, t.left);
      case RunTask(k) => RunTaskRank(w, k);
      case _ =>
    }
  }

  function CountCalls(ls: seq<Label>): nat {
    if ls == [] then 0 else (if Calls(ls[0]) then 1 else 0) + CountCalls(ls[1..])
  }

  function CountWork(ls: seq<Label>): nat {
    if ls == [] then 0 else (if Works(ls[0]) then 1 else 0) + CountWork(ls[1..])
  }

  lemma {:induction false} WorkBounded(w: World, ls: seq<Label>)
    requires Inv(w) && Legal(w, ls)
    ensures CountWork(ls) <= TotalRank(w.boxes) + 19 * CountCalls(ls)
    decreases |ls|
  {
    if ls != [] {
      RankStep(w, ls[0]);
      InvStep(w, ls[0]);
      WorkBounded(Next(w, ls[0]), ls[1..]);
    }
  }

  /** Over every run from start-up: however deep the tree, the steps that operations and their
      release cascades take are at most 19 per call that was made. */
  lemma CascadesTerminate(conf: Conf, ls: seq<Label>)
    requires Checked(conf) && Legal(Init(conf), ls)
    ensures CountWork(ls) <= 19 * CountCalls(ls)
  {
    InitInv(conf);
    WorkBounded(Init(conf), ls);
  }
}
