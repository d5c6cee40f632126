/** A run in which a fork fails after it has raised its parent's count, so that destroying
    every sandbox does not release everything (go/worker/sandbox/sock.go:344-417,
    sockPool.go:168-172). */
module SandboxLeak {
  import opened Common
  import opened MemPool
  import opened Evictor
  import opened Sandboxes
  import opened SandboxTheorems

  const CONF := Conf(2, 1, false)

  /** `ls` leads from `w` to `w'`. */
  ghost predicate Goes(w: World, ls: seq<Label>, w': World) {
    Legal(w, ls) && Run(w, ls) == w'
  }

  lemma One(w: World, l: Label, w': World)
    requires Enabled(w, l) && Next(w, l) == w'
    ensures Goes(w, [l], w')
  {
    assert [l][1..] == [];
  }

  lemma First(w: World, l: Label, w1: World, ls: seq<Label>, w2: World)
    requires Enabled(w, l) && Next(w, l) == w1 && Goes(w1, ls, w2)
    ensures Goes(w, [l] + ls, w2)
  {
    assert ([l] + ls)[1..] == ls;
  }

  lemma {:induction false} Trans(w: World, a: seq<Label>, w1: World, b: seq<Label>, w2: World)
    requires Goes(w, a, w1) && Goes(w1, b, w2)
    ensures Goes(w, a + b, w2)
    decreases |a|
  {
    if a == [] {
      assert a + b == b;
    } else {
      var w0 := Next(w, a[0]);
      Trans(w0, a[1..], w1, b, w2);
      First(w, a[0], w0, a[1..] + b, w2);
      assert [a[0]] + (a[1..] + b) == a + b;
    }
  }

  lemma Then1(w: World, a: seq<Label>, w1: World, l: Label, w2: World)
    requires Goes(w, a, w1) && Enabled(w1, l) && Next(w1, l) == w2
    ensures Goes(w, a + [l], w2)
  {
    One(w1, l, w2);
    Trans(w, a, w1, [l], w2);
  }

  // the sandboxes at the interesting points

  function Zygote(children: set<nat>, refs: int, phase: Phase, dead: bool): Box {
    Box(None, None, children, {}, refs, 1, Cg(0), phase, true, false, true, dead)
  }

  function Unborn0(phase: Phase, cg: Cg): Box {
    Box(None, None, {}, {}, 1, 1, cg, phase, false, false, true, false)
  }

  function Child(phase: Phase, refs: int, cg: Cg, dead: bool): Box {
    Box(Some(0), None, {}, {}, refs, 1, cg, phase, false, false, true, dead)
  }

  function At(boxes: seq<Box>, free: int, inbox: seq<Req<Who>>, sent: seq<Event>, cgs: CgPool): World {
    World(CONF, boxes, Pool(free, []), inbox, sent, 0, EMPTY, EvWait, [], cgs, NotCalled)
  }

  const MADE := CgPool(2, None, [0, 1], [], Serving)
  const ONE_LEFT := CgPool(2, None, [1], [], Serving)
  const TAKEN := CgPool(2, None, [], [], Serving)
  const KILLED := CgPool(2, None, [], [1], Serving)
  const BORN := [Event(EvCreate, 0)]
  const ZYGOTE_UP := At([Zygote({}, 1, Idle, false)], 1, [], BORN, ONE_LEFT)
  const CHILD_READY := At([Zygote({}, 1, Idle, false), Child(NewProc, 1, Cg(1), false)], 0, [], BORN, TAKEN)
  const FORK_FAILED := At([Zygote({1}, 2, Idle, false), Child(ExitParent(ByDestroy), 0, Freed, false)], 1, [], BORN, KILLED)

  lemma Cgroups() returns (ls: seq<Label>)
    ensures Goes(Init(CONF), ls,
                 At([], 2, [], [], MADE))
  {
    var w0 := Init(CONF);
    var w1 := At([], 2, [], [], CgPool(1, Some(0), [], [], Serving));
    One(w0, CgNew, w1);
    var w2 := At([], 2, [], [], CgPool(1, None, [0], [], Serving));
    var w3 := At([], 2, [], [], CgPool(2, Some(1), [0], [], Serving));
    var w4 := At([], 2, [], [], MADE);
    ls := [CgNew];
    Then1(w0, ls, w1, CgReady, w2);
    ls := ls + [CgReady];
    Then1(w0, ls, w2, CgNew, w3);
    ls := ls + [CgNew];
    Then1(w0, ls, w3, CgReady, w4);
    ls := ls + [CgReady];
  }

  const ZYGOTE_SETUP := At([Unborn0(NewSetup, Cg(0))], 1, [], [], ONE_LEFT)

  lemma StartZygote() returns (ls: seq<Label>)
    ensures Goes(At([], 2, [], [], MADE), ls, ZYGOTE_SETUP)
  {
    var w0 := At([], 2, [], [], MADE);
    var w1 := At([Unborn0(NewAskMem, NoCg)], 2, [Req(Sb(0), -1)], [], MADE);
    One(w0, StartCreate(None, 1), w1);
    var w2 := At([Unborn0(NewGetCg, NoCg)], 1, [], [], MADE);
    ls := [StartCreate(None, 1)];
    Then1(w0, ls, w1, MemTurn, w2);
    ls := ls + [MemTurn];
    Then1(w0, ls, w2, Solo(0, GetCg(0)), ZYGOTE_SETUP);
    ls := ls + [Solo(0, GetCg(0))];
  }

  lemma MakeZygote() returns (ls: seq<Label>)
    ensures Goes(At([], 2, [], [], MADE), ls, ZYGOTE_UP)
  {
    var w0 := At([], 2, [], [], MADE);
    var w4 := At([Unborn0(NewProc, Cg(0))], 1, [], [], ONE_LEFT);
    var w5 := At([Unborn0(NewConnect, Cg(0))], 1, [], [], ONE_LEFT);
    ls := StartZygote();
    Then1(w0, ls, ZYGOTE_SETUP, Solo(0, SetupOk), w4);
    ls := ls + [Solo(0, SetupOk)];
    Then1(w0, ls, w4, Solo(0, FreshOk), w5);
    ls := ls + [Solo(0, FreshOk)];
    Then1(w0, ls, w5, Solo(0, Publish), ZYGOTE_UP);
    ls := ls + [Solo(0, Publish)];
  }

  lemma StartChild() returns (ls: seq<Label>)
    ensures Goes(ZYGOTE_UP, ls, CHILD_READY)
  {
    var w0 := ZYGOTE_UP;
    var w1 := At([Zygote({}, 1, Idle, false), Child(NewAskMem, 1, NoCg, false)], 1, [Req(Sb(1), -1)], BORN, ONE_LEFT);
    One(w0, StartCreate(Some(0), 1), w1);
    var w2 := At([Zygote({}, 1, Idle, false), Child(NewGetCg, 1, NoCg, false)], 0, [], BORN, ONE_LEFT);
    var w3 := At([Zygote({}, 1, Idle, false), Child(NewSetup, 1, Cg(1), false)], 0, [], BORN, TAKEN);
    var w4 := CHILD_READY;
    ls := [StartCreate(Some(0), 1)];
    Then1(w0, ls, w1, MemTurn, w2);
    ls := ls + [MemTurn];
    Then1(w0, ls, w2, Solo(1, GetCg(1)), w3);
    ls := ls + [Solo(1, GetCg(1))];
    Then1(w0, ls, w3, Solo(1, SetupOk), w4);
    ls := ls + [Solo(1, SetupOk)];
  }

  lemma FailFork() returns (ls: seq<Label>)
    ensures Goes(CHILD_READY, ls, FORK_FAILED)
  {
    var w0 := CHILD_READY;
    var w1 := At([Zygote({1}, 2, ForkRun(1), false), Child(NewForkWait, 1, Cg(1), false)], 0, [], BORN, TAKEN);
    assert {} + {1} == {1};
    assert ForkRaise(w0.boxes[0], 1) == w1.boxes[0];
    assert Next(w0, Pair(ForkBegin, 1)).boxes == w1.boxes;
    One(w0, Pair(ForkBegin, 1), w1);
    var w2 := At([Zygote({1}, 2, Idle, false), Child(NewFailed, 1, Cg(1), false)], 0, [], BORN, TAKEN);
    var w3 := At([Zygote({1}, 2, Idle, false), Child(Kill(ByDestroy), 0, Cg(1), false)], 0, [], BORN, TAKEN);
    var w4 := At([Zygote({1}, 2, Idle, false), Child(Killed(ByDestroy), 0, Freed, false)], 0, [], BORN, KILLED);
    ls := [Pair(ForkBegin, 1)];
    Then1(w0, ls, w1, Pair(ForkFail, 0), w2);
    ls := ls + [Pair(ForkFail, 0)];
    Then1(w0, ls, w2, Solo(1, Abort), w3);
    ls := ls + [Solo(1, Abort)];
    Then1(w0, ls, w3, Solo(1, KillCg), w4);
    ls := ls + [Solo(1, KillCg)];
    FreeMem(w0, ls, w4);
    ls := ls + [Solo(1, ReturnMem)] + [MemTurn];
  }

  /** The killed child's memory goes back to the pool. */
  lemma FreeMem(w: World, ls: seq<Label>, w3: World)
    requires w3 == At([Zygote({1}, 2, Idle, false), Child(Killed(ByDestroy), 0, Freed, false)], 0, [], BORN, KILLED)
    requires Goes(w, ls, w3)
    ensures Goes(w, ls + [Solo(1, ReturnMem)] + [MemTurn], FORK_FAILED)
  {
    var w4 := At([Zygote({1}, 2, Idle, false), Child(Returning(ByDestroy), 0, Freed, false)], 0, [Req(Sb(1), 1)], BORN, KILLED);
    Then1(w, ls, w3, Solo(1, ReturnMem), w4);
    var w5 := FORK_FAILED;
    assert Turn(w4.mem, w4.inbox[0]) == Turned(Pool(1, []), [Req(Sb(1), 1)], [1]);
    assert Next(w4, MemTurn).boxes == w5.boxes;
    Then1(w, ls + [Solo(1, ReturnMem)], w4, MemTurn, w5);
  }

  lemma DestroyBoth() returns (ls: seq<Label>)
    ensures Goes(FORK_FAILED, ls,
                 At([Zygote({1}, 1, Idle, true), Child(Idle, 0, Freed, true)], 1, [], BORN + [Event(EvDestroy, 0)], KILLED))
  {
    var w0 := FORK_FAILED;
    var w1 := At([Zygote({1}, 2, Idle, false), Child(Finish(ByDestroy), 0, Freed, false)], 1, [], BORN, KILLED);
    One(w0, Solo(1, NoParent), w1);
    var w2 := At([Zygote({1}, 2, Idle, false), Child(Idle, 0, Freed, true)], 1, [], BORN, KILLED);
    var w3 := At([Zygote({1}, 1, Finish(ByDestroy), false), Child(Idle, 0, Freed, true)], 1, [], BORN, KILLED);
    var w4 := At([Zygote({1}, 1, Idle, true), Child(Idle, 0, Freed, true)], 1, [], BORN + [Event(EvDestroy, 0)], KILLED);
    ls := [Solo(1, NoParent)];
    Then1(w0, ls, w1, Solo(1, FinishDestroy), w2);
    ls := ls + [Solo(1, FinishDestroy)];
    Then1(w0, ls, w2, Solo(0, Destroy), w3);
    ls := ls + [Solo(0, Destroy)];
    Then1(w0, ls, w3, Solo(0, FinishDestroy), w4);
    ls := ls + [Solo(0, FinishDestroy)];
  }

  /** Both sandboxes are destroyed, nothing is in progress, and 1 MB of 2 is gone for good. */
  lemma ForkFailureLeaks() returns (ls: seq<Label>, w: World)
    ensures Reached(CONF, ls, w) && AllDestroyed(w)
    ensures !AllReleased(w) && w.mem.availableMB == 1
  {
    var a := Cgroups();
    var b := MakeZygote();
    Trans(Init(CONF), a, At([], 2, [], [], MADE), b, ZYGOTE_UP);
    var c := StartChild();
    var d := FailFork();
    Trans(Init(CONF), a + b, ZYGOTE_UP, c, CHILD_READY);
    Trans(Init(CONF), a + b + c, CHILD_READY, d, FORK_FAILED);
    var e := DestroyBoth();
    w := At([Zygote({1}, 1, Idle, true), Child(Idle, 0, Freed, true)], 1, [], BORN + [Event(EvDestroy, 0)], KILLED);
    Trans(Init(CONF), a + b + c + d, FORK_FAILED, e, w);
    ls := a + b + c + d + e;
    assert w.boxes[0].cg == Cg(0);
  }
}
