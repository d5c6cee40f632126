/** The sandboxes of one worker as a step machine: every interleaving of Create, Pause,
    Unpause, Destroy, fork and childExit with the memory task, the evictor and the cgroup
    pool (go/worker/sandbox: sock.go, safeSandbox.go, sockPool.go, evictors.go, memPool.go,
    cgroups/pool.go).

    A sandbox's mutex is represented by its phase: any phase but Idle means that some
    goroutine is inside one of its locked operations. A goroutine that holds several mutexes
    (a release cascade) is the chain of sandboxes waiting for their parents. */
module Sandboxes {
  import opened Common
  import opened MemPool
  import opened Evictor

  /** totalMB: pool size; memMB: Limits.Mem_mb; downsize: Features.Downsize_paused_mem. */
  datatype Conf = Conf(totalMB: nat, memMB: nat, downsize: bool)

  /** What checkConf accepts, for a limit that is not zero. */
  predicate Checked(conf: Conf) {
    1 <= conf.memMB && CheckConf(conf.totalMB, 0, conf.memMB)
  }

  const EVENT_CAP := 64
  const MEM_CAP := 32
  const CGROUP_RESERVE := 16

  // ------------------------------------------------------------------- one sandbox

  datatype Cg = NoCg | Cg(name: nat) | Freed

  /** Why decCgRefCount was called: by a Destroy, or by a child's exit. */
  datatype Why = ByDestroy | ByChildExit(child: nat)

  datatype Phase =
      // Create, up to the point where the sandbox is published
    | NewAskMem
    | NewGetCg
    | NewSetup
    | NewProc
    | NewForkWait
    | NewFailed
    | NewConnect
      // mutex free
    | Idle
      // DestroyIfPaused of a sandbox that is not paused
    | Ignoring
      // Pause
    | PauseShrunk(diff: int)
    | PauseReturn(diff: int)
    | PauseNotify
      // Unpause
    | WakeCalled
    | WakeSaid
    | WakeAsk
    | WakeGranted
    | WakeThaw
      // fork of a child, past the reference count increment
    | ForkRun(child: nat)
      // decCgRefCount reached zero: kill, return memory, tell the parent
    | Kill(why: Why)
    | Killed(why: Why)
    | Returning(why: Why)
    | ExitParent(why: Why)
    | ExitCalled(why: Why)
    | Finish(why: Why)

  /** `from` is Create's parent argument, `parent` the link set once the fork succeeded;
      `limit` is the cgroup limit (the requested one while there is no cgroup yet).
      `kids` (successful forks minus child exits) and `awake` (not paused, or about to wake
      and already announced) are history, not fields of the source. */
  datatype Box = Box(from: Option<nat>, parent: Option<nat>, children: set<nat>, kids: set<nat>, refs: int,
                     limit: int, cg: Cg, phase: Phase, published: bool, paused: bool, awake: bool, dead: bool)

  function WhyOf(phase: Phase): Option<Why> {
    match phase
    case Kill(y) => Some(y)
    case Killed(y) => Some(y)
    case Returning(y) => Some(y)
    case ExitParent(y) => Some(y)
    case ExitCalled(y) => Some(y)
    case Finish(y) => Some(y)
    case _ => None
  }

  /** decCgRefCount for the sandbox's own reference. */
  function DropSelf(b: Box): Box {
    b.(refs := b.refs - 1, phase := if b.refs - 1 == 0 then Kill(ByDestroy) else Finish(ByDestroy))
  }

  /** An eviction goroutine gets the lock: Destroy, or DestroyIfPaused, which only reports that
      it ignored a sandbox that is not paused. */
  function Evict(b: Box, force: bool): Box {
    if b.dead then b
    else if force || b.paused then DropSelf(b)
    else b.(phase := Ignoring)
  }

  /** Steps that touch a single sandbox, with the outcomes the environment decides. */
  datatype Act =
    | GetCg(name: nat)
    | SetupOk
    | FreshOk
    | ForkReject
    | Publish
    | Abort
    | Destroy
    | SayIgnored
    | PauseBegin(usageMB: nat)
    | PauseAsk
    | PauseDone
    | WakeBegin
    | WakeSay
    | WakeAskMem
    | WakeSetLimit
    | WakeOk
    | WakeFail
    | KillCg
    | ReturnMem
    | NoParent
    | FinishDestroy

  /** When the goroutine on `b` may take the step. Destroy also stands for the error path of
      Pause, which destroys under the same lock; ForkReject for a fork refused before the
      increment (parent dead, or less than 3 MB to spare). */
  predicate Can(conf: Conf, b: Box, act: Act) {
    match act
    case GetCg(_) => b.phase == NewGetCg
    case SetupOk => b.phase == NewSetup
    case FreshOk => b.phase == NewProc && b.from == None
    case ForkReject => b.phase == NewProc && b.from.Some?
    case Publish => b.phase == NewConnect
    case Abort => b.phase == NewSetup || (b.phase == NewProc && b.from == None) || b.phase == NewFailed || b.phase == NewConnect
    case Destroy => b.phase == Idle && b.published && !b.dead
    case PauseBegin(_) => b.phase == Idle && b.published && !b.dead && !b.paused
    case SayIgnored => b.phase == Ignoring
    case PauseAsk => b.phase.PauseShrunk?
    case PauseDone => b.phase == PauseNotify
    case WakeBegin => b.phase == Idle && b.published && !b.dead && b.paused
    case WakeSay => b.phase == WakeCalled
    case WakeAskMem => b.phase == WakeSaid
    case WakeSetLimit => b.phase == WakeGranted
    case WakeOk => b.phase == WakeThaw
    case WakeFail => b.phase == WakeThaw
    case KillCg => b.phase.Kill?
    case ReturnMem => b.phase.Killed?
    case NoParent => b.phase.ExitParent? && b.parent == None
    case FinishDestroy => b.phase == Finish(ByDestroy)
  }

  function Do(conf: Conf, b: Box, act: Act): Box
    requires Can(conf, b, act)
  {
    match act
    case GetCg(name) => b.(cg := Cg(name), phase := NewSetup)
    case SetupOk => b.(phase := NewProc)
    case FreshOk => b.(phase := NewConnect)
    case ForkReject => b.(phase := NewFailed)
    case Publish => b.(published := true, phase := Idle)
    case Abort => DropSelf(b)
    case Destroy => DropSelf(b)
    case PauseBegin(usageMB) =>
      if conf.downsize && usageMB + 1 < b.limit
      then b.(limit := usageMB + 1, phase := PauseShrunk(b.limit - (usageMB + 1)))
      else b.(phase := PauseNotify)
    case SayIgnored => b.(phase := Idle)
    case PauseAsk => b.(phase := PauseReturn(b.phase.diff))
    case PauseDone => b.(paused := true, awake := false, phase := Idle)
    case WakeBegin => b.(phase := WakeCalled)
    case WakeSay => b.(awake := true, phase := WakeSaid)
    case WakeAskMem => b.(phase := if conf.downsize then WakeAsk else WakeThaw)
    case WakeSetLimit => b.(limit := conf.memMB, phase := WakeThaw)
    case WakeOk => b.(paused := false, phase := Idle)
    case WakeFail => DropSelf(b)
    case KillCg => b.(cg := Freed, phase := Killed(b.phase.why))
    case ReturnMem => b.(phase := Returning(b.phase.why))
    case NoParent => b.(phase := Finish(b.phase.why))
    case FinishDestroy => b.(dead := true, phase := Idle)
  }

  /** The event the step sends, if listeners are registered. */
  function Says(act: Act): Option<Kind> {
    match act
    case Publish => Some(EvCreate)
    case SayIgnored => Some(EvDestroyIgnored)
    case PauseDone => Some(EvPause)
    case WakeSay => Some(EvUnpause)
    case FinishDestroy => Some(EvDestroy)
    case _ => None
  }

  /** What a sandbox blocked in adjustAvailableMB has asked for. */
  function Want(conf: Conf, b: Box): Option<int> {
    match b.phase
    case NewAskMem => Some(-b.limit)
    case PauseReturn(diff) => Some(diff)
    case WakeAsk => Some(b.limit - conf.memMB)
    case Returning(_) => Some(b.limit)
    case _ => None
  }

  /** The response arrives and the goroutine goes on. */
  function Answered(b: Box): Box {
    match b.phase
    case NewAskMem => b.(phase := NewGetCg)
    case PauseReturn(_) => b.(phase := PauseNotify)
    case WakeAsk => b.(phase := WakeGranted)
    case Returning(y) => b.(phase := ExitParent(y))
    case _ => b
  }

  // ------------------------------------------------------------- a parent and a child

  /** The parent's side of a fork: the count is raised before any process is started. */
  function ForkRaise(p: Box, child: nat): Box {
    p.(children := p.children + {child}, refs := p.refs + 1, phase := ForkRun(child))
  }

  function ForkDone(p: Box, child: nat): Box {
    p.(kids := p.kids + {child}, phase := Idle)
  }

  /** childExit: forget the child, drop its reference. */
  function ChildExit(p: Box, child: nat): Box {
    p.(children := p.children - {child}, kids := p.kids - {child}, refs := p.refs - 1,
       phase := if p.refs - 1 == 0 then Kill(ByChildExit(child)) else Finish(ByChildExit(child)))
  }

  /** Steps that touch a parent and one child. ForkBegin: the parent's lock is taken and the
      count raised; ForkOk, ForkFail: the fork returns; ExitCall: a released child takes its
      parent's lock and exits; FinishExit: that childExit returns. */
  datatype PairAct = ForkBegin | ForkOk | ForkFail | ExitCall | FinishExit

  /** New values `q` of parent `p` and `c` of child `i`, and the event the parent sends. */
  datatype Two = Two(p: nat, q: Box, i: nat, c: Box, say: Option<Kind>)

  predicate PairCan(bs: seq<Box>, act: PairAct, id: nat) {
    id < |bs| &&
    match act
    case ForkBegin =>
      && bs[id].phase == NewProc && bs[id].from.Some? && bs[id].from.value < |bs|
      && bs[bs[id].from.value].phase == Idle && !bs[bs[id].from.value].dead
    case ForkOk => bs[id].phase.ForkRun? && bs[id].phase.child < |bs|
    case ForkFail => bs[id].phase.ForkRun? && bs[id].phase.child < |bs|
    case ExitCall =>
      && bs[id].phase.ExitParent? && bs[id].parent.Some? && bs[id].parent.value < |bs|
      && bs[bs[id].parent.value].phase == Idle
    case FinishExit =>
      && bs[id].phase.Finish? && bs[id].phase.why.ByChildExit? && bs[id].phase.why.child < |bs|
      && bs[bs[id].phase.why.child].phase.ExitCalled?
  }

  function PairDo(bs: seq<Box>, act: PairAct, id: nat): Two
    requires PairCan(bs, act, id)
  {
    match act
    case ForkBegin =>
      var p := bs[id].from.value;
      Two(p, ForkRaise(bs[p], id), id, bs[id].(phase := NewForkWait), None)
    case ForkOk =>
      var i := bs[id].phase.child;
      Two(id, ForkDone(bs[id], i), i, bs[i].(parent := Some(id), phase := NewConnect), Some(EvFork))
    case ForkFail =>
      var i := bs[id].phase.child;
      Two(id, bs[id].(phase := Idle), i, bs[i].(phase := NewFailed), None)
    case ExitCall =>
      var p := bs[id].parent.value;
      Two(p, ChildExit(bs[p], id), id, bs[id].(phase := ExitCalled(bs[id].phase.why)), None)
    case FinishExit =>
      var i := bs[id].phase.why.child;
      Two(id, bs[id].(phase := Idle), i, bs[i].(phase := Finish(bs[i].phase.why)),
          if bs[id].dead then None else Some(EvChildExit))
  }

  // --------------------------------------------------------------------- the worker

  datatype Who = Sb(id: nat) | EvictorTask | CleanupTask

  /** updateState blocks for an event, reads on until there is none; doEvictions asks for the
      free memory, waits for the answer, decides. */
  datatype EvPhase = EvWait | EvDrain | EvAsking | EvPolling | EvDeciding(left: int)

  datatype CgPhase = Serving | Draining | Stopped

  /** Cgroups are named 0, 1, ...; `created` of them exist or existed, `destroyed` were removed, in order. */
  datatype CgPool = CgPool(created: nat, hand: Option<nat>, ready: seq<nat>, destroyed: seq<nat>, phase: CgPhase)

  datatype Cleanup = NotCalled | AskedAll | GotAll | Quitting | Done

  /** `sent` is every event ever sent to the evictor's channel, `taken` how many it has read;
      `tasks` are the eviction goroutines that have not run yet. */
  datatype World = World(conf: Conf, boxes: seq<Box>, mem: Pool<Who>, inbox: seq<Req<Who>>,
                         sent: seq<Event>, taken: nat, view: View, evictor: EvPhase, tasks: seq<Task>,
                         cgs: CgPool, cleanup: Cleanup)

  function Init(conf: Conf): World {
    World(conf, [], Pool(conf.totalMB, []), [], [], 0, EMPTY, EvWait, [],
          CgPool(0, None, [], [], Serving), NotCalled)
  }

  datatype Label =
    | StartCreate(from: Option<nat>, mb: nat)
    | Solo(id: nat, act: Act)
    | Pair(act2: PairAct, id: nat)
    | MemTurn
    | EvTake
    | EvDrained
    | EvPoll
    | EvDecide
    | RunTask(k: nat)
    | CgNew
    | CgReady
    | CleanupBegin
    | CgQuit
    | CgDrain
    | CgDone

  predicate EventRoom(w: World) {
    |w.sent| - w.taken < EVENT_CAP
  }

  predicate MemRoom(w: World) {
    |w.inbox| < MEM_CAP
  }

  function Put(w: World, i: nat, b: Box): World
    requires i < |w.boxes|
  {
    w.(boxes := w.boxes[i := b])
  }

  function Ask(w: World, req: Req<Who>): World {
    w.(inbox := w.inbox + [req])
  }

  function Send(w: World, kind: Kind, sb: nat): World {
    w.(sent := w.sent + [Event(kind, sb)])
  }

  /** The cgroup side of a single-sandbox step. */
  function CgEffect(cgs: CgPool, b: Box, act: Act): CgPool {
    match act
    case GetCg(_) => if cgs.ready != [] then cgs.(ready := cgs.ready[1..]) else cgs
    case KillCg => if b.cg.Cg? then cgs.(destroyed := cgs.destroyed + [b.cg.name]) else cgs
    case _ => cgs
  }

  predicate SoloEnabled(w: World, i: nat, act: Act) {
    && i < |w.boxes|
    && Can(w.conf, w.boxes[i], act)
    && (Says(act).Some? && w.boxes[i].published ==> EventRoom(w))
    && (act == Publish ==> EventRoom(w))
    && (Want(w.conf, Do(w.conf, w.boxes[i], act)).Some? ==> MemRoom(w))
    && (act.GetCg? ==> w.cgs.ready != [] && act.name == w.cgs.ready[0])
    && (act.ForkReject? ==> ParentFree(w, i))
  }

  /** The sandbox that `i` is created from has its mutex free. */
  predicate ParentFree(w: World, i: nat)
    requires i < |w.boxes|
  {
    var from := w.boxes[i].from;
    from.Some? && from.value < |w.boxes| && w.boxes[from.value].phase == Idle
  }

  function SoloNext(w: World, i: nat, act: Act): World
    requires SoloEnabled(w, i, act)
  {
    var b := w.boxes[i];
    var d := Do(w.conf, b, act);
    var w1 := Put(w, i, d).(cgs := CgEffect(w.cgs, b, act));
    var w2 := if Says(act).Some? && d.published then Send(w1, Says(act).value, i) else w1;
    if Want(w.conf, d).Some? then Ask(w2, Req(Sb(i), Want(w.conf, d).value)) else w2
  }

  function PairNext(w: World, t: Two): World
    requires t.p < |w.boxes| && t.i < |w.boxes|
  {
    var w1 := w.(boxes := w.boxes[t.p := t.q][t.i := t.c]);
    if t.say.Some? then Send(w1, t.say.value, t.p) else w1
  }

  function Deliver(w: World, req: Req<Who>, left: int): World {
    match req.who
    case Sb(i) => if i < |w.boxes| then Put(w, i, Answered(w.boxes[i])) else w
    case EvictorTask => w.(evictor := EvDeciding(left))
    case CleanupTask => w.(cleanup := GotAll)
  }

  function DeliverAll(w: World, served: seq<Req<Who>>, left: seq<int>): World
    requires |served| == |left|
    decreases |served|
  {
    if served == [] then w else DeliverAll(Deliver(w, served[0], left[0]), served[1..], left[1..])
  }

  predicate Enabled(w: World, l: Label) {
    match l
    case StartCreate(from, mb) =>
      && 1 <= mb <= w.conf.totalMB && MemRoom(w)
      && (from.Some? ==> from.value < |w.boxes| && w.boxes[from.value].published)
    case Solo(i, act) => SoloEnabled(w, i, act)
    case Pair(act2, id) => PairCan(w.boxes, act2, id) && (PairDo(w.boxes, act2, id).say.Some? ==> EventRoom(w))
    case MemTurn => w.inbox != [] && w.conf.totalMB + w.inbox[0].mb >= 0
    case EvTake =>
      && (w.evictor == EvWait || w.evictor == EvDrain) && w.taken < |w.sent|
      && Shape(w.view) && !Panics(w.view, w.sent[w.taken])
    case EvDrained => w.evictor == EvDrain && w.taken == |w.sent|
    case EvPoll => w.evictor == EvAsking && MemRoom(w)
    case EvDecide => w.evictor.EvDeciding? && Shape(w.view) && w.conf.memMB != 0
    case RunTask(k) => k < |w.tasks| && w.tasks[k].sb < |w.boxes| && w.boxes[w.tasks[k].sb].phase == Idle
    case CgNew => w.cgs.phase == Serving && w.cgs.hand == None
    case CgReady => w.cgs.phase == Serving && w.cgs.hand.Some? && |w.cgs.ready| < CGROUP_RESERVE
    case CleanupBegin => w.cleanup == NotCalled && MemRoom(w)
    case CgQuit => w.cleanup == GotAll && w.cgs.phase == Serving && w.cgs.hand.Some?
    case CgDrain => w.cgs.phase == Draining && w.cgs.ready != []
    case CgDone => w.cgs.phase == Draining && w.cgs.ready == [] && w.cleanup == Quitting
  }

  function Next(w: World, l: Label): World
    requires Enabled(w, l)
  {
    match l
    case StartCreate(from, mb) =>
      var b := Box(from, None, {}, {}, 1, mb, NoCg, NewAskMem, false, false, true, false);
      Ask(w.(boxes := w.boxes + [b]), Req(Sb(|w.boxes|), -(mb as int)))
    case Solo(i, act) => SoloNext(w, i, act)
    case Pair(act2, id) => PairNext(w, PairDo(w.boxes, act2, id))
    case MemTurn =>
      var t := Turn(w.mem, w.inbox[0]);
      DeliverAll(w.(mem := t.pool, inbox := w.inbox[1..]), t.served, t.left)
    case EvTake => w.(view := Observe(w.view, w.sent[w.taken]), taken := w.taken + 1, evictor := EvDrain)
    case EvDrained => w.(evictor := EvAsking)
    case EvPoll => Ask(w.(evictor := EvPolling), Req(EvictorTask, 0))
    case EvDecide =>
      var d := Decide(w.view, w.evictor.left, w.conf.totalMB, w.conf.memMB);
      w.(view := d.view, tasks := w.tasks + d.tasks, evictor := EvWait)
    case RunTask(k) =>
      var t := w.tasks[k];
      var rest := w.(tasks := w.tasks[..k] + w.tasks[k + 1..]);
      Put(rest, t.sb, Evict(w.boxes[t.sb], t.force))
    case CgNew => w.(cgs := w.cgs.(created := w.cgs.created + 1, hand := Some(w.cgs.created)))
    case CgReady => w.(cgs := w.cgs.(hand := None, ready := w.cgs.ready + [w.cgs.hand.value]))
    case CleanupBegin => Ask(w.(cleanup := AskedAll), Req(CleanupTask, -(w.conf.totalMB as int)))
    case CgQuit =>
      w.(cleanup := Quitting,
         cgs := w.cgs.(hand := None, destroyed := w.cgs.destroyed + [w.cgs.hand.value], phase := Draining))
    case CgDrain =>
      w.(cgs := w.cgs.(ready := w.cgs.ready[1..], destroyed := w.cgs.destroyed + [w.cgs.ready[0]]))
    case CgDone => w.(cgs := w.cgs.(phase := Stopped), cleanup := Done)
  }

  // ----------------------------------------------------------------------- runs

  predicate Legal(w: World, ls: seq<Label>)
    decreases |ls|
  {
    ls == [] || (Enabled(w, ls[0]) && Legal(Next(w, ls[0]), ls[1..]))
  }

  function Run(w: World, ls: seq<Label>): World
    requires Legal(w, ls)
    decreases |ls|
  {
    if ls == [] then w else Run(Next(w, ls[0]), ls[1..])
  }
}
