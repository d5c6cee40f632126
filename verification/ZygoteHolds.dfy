/** Goroutines getting, using and returning the Zygotes of the import cache, climbing the tree
    where a node has none (go/worker/lambda/zygote/importCache.go). A node's mutex is held
    from start to end of its slow path; what happens under it otherwise is one step. */
module ZygoteHolds {
  import opened Common

  /** What a pool's Create gave: a Zygote (by number), a sandbox for a client, FORK_FAILED or
      another error. */
  datatype Outcome = Made(box: nat) | Leaf | ForkFailed | Failed

  /** Where createChildSandboxFromNode stands: about to get the node's Zygote; in the slow
      path, with the node's mutex; waiting there for the call on the parent; creating the child
      from the Zygote it holds; about to put the Zygote back. */
  datatype Pc = Want | Slow | Waiting | Creating | Putting(out: Outcome)

  /** One call of createChildSandboxFromNode. `attempt` is its loop counter, so forceNew is
      attempt > 0. The rest is history: `recursions` counts this attempt's calls on the parent,
      `gotAt` is how many Zygotes there were when it began to get one, `first` is the Zygote that
      the first attempt had. */
  datatype Frame = Frame(node: nat, pc: Pc, attempt: nat, zygote: Option<nat>, isNew: bool,
                         recursions: nat, gotAt: nat, first: Option<nat>)

  /** A goroutine in ImportCache.Create: the calls it is in, innermost last, and what the last
      one to return gave. */
  datatype Caller = Caller(start: nat, stack: seq<Frame>, ret: Option<Outcome>, creates: nat)

  datatype Node = Node(sb: Option<nat>, refs: int, lock: Option<nat>)

  /** A Zygote made for node `home` by goroutine `maker`; `installed` once it has been the
      node's, `doomed` once an asynchronous Destroy is under way. */
  datatype Box = Box(home: nat, maker: nat, alive: bool, paused: bool, installed: bool, doomed: bool)

  /** What a step of one goroutine touches. */
  datatype Local = Local(th: Caller, nd: Node, bs: seq<Box>)

  datatype Result = Ok | Fork | Err

  datatype Act = Get(ok: bool) | Push | InstallFails | RootCreate(ok: bool) | Deliver | Create(res: Result) | Put(ok: bool)

  function Top(th: Caller): Frame
    requires th.stack != []
  {
    th.stack[|th.stack| - 1]
  }

  function SetTop(th: Caller, f: Frame): Caller
    requires th.stack != []
  {
    th.(stack := th.stack[|th.stack| - 1 := f])
  }

  /** The innermost call returns `out`. */
  function Return(th: Caller, out: Outcome): Caller
    requires th.stack != []
  {
    th.(stack := th.stack[..|th.stack| - 1], ret := Some(out))
  }

  function Opened(th: Caller, f: Frame): Caller {
    th.(stack := th.stack + [f])
  }

  predicate Known(bs: seq<Box>, b: Option<nat>) {
    b.Some? ==> b.value < |bs|
  }

  function Attempt(node: nat): Frame {
    Frame(node, Want, 0, None, false, 0, 0, None)
  }

  /** The next turn of the loop, after the Zygote of this one could not fork. */
  function Retry(f: Frame): Frame {
    Frame(f.node, Want, f.attempt + 1, None, false, 0, 0, f.zygote)
  }

  /** A call on a sandbox that has died cannot succeed. */
  predicate Possible(bs: seq<Box>, b: nat, ok: bool)
    requires b < |bs|
  {
    ok ==> bs[b].alive
  }

  predicate Can(l: Local, a: Act) {
    && l.th.stack != [] && Known(l.bs, l.nd.sb)
    && var f := Top(l.th);
    match a
    case Get(ok) =>
      f.pc == Want && l.nd.lock == None
      && (f.attempt == 0 && l.nd.sb.Some? && l.nd.refs == 0 ==> Possible(l.bs, l.nd.sb.value, ok))
    case Push => f.pc == Slow && f.node > 0
    case InstallFails => f.pc == Slow
    case RootCreate(_) => f.pc == Slow && f.node == 0
    case Deliver => f.pc == Waiting && l.th.ret.Some? && (l.th.ret.value.Made? ==> l.th.ret.value.box < |l.bs|)
    case Create(_) => f.pc == Creating
    case Put(ok) =>
      f.pc.Putting? && l.nd.lock == None && Known(l.bs, f.zygote)
      && (f.zygote.Some? ==> Possible(l.bs, f.zygote.value, ok))
  }

  /** getSandboxInNode up to its slow path, by goroutine `k`. */
  function GetStep(k: nat, l: Local, ok: bool): Local
    requires Can(l, Get(ok))
  {
    var f := Top(l.th).(gotAt := |l.bs|);
    if l.nd.sb.None? then
      l.(th := SetTop(l.th, f.(pc := Slow)), nd := l.nd.(lock := Some(k)))
    else
      var b := l.nd.sb.value;
      if f.attempt > 0 then
        Local(SetTop(l.th, f.(pc := Slow)), l.nd.(sb := None, lock := Some(k)), l.bs[b := l.bs[b].(doomed := true)])
      else if l.nd.refs == 0 && !ok then
        Local(Return(l.th, Failed), l.nd.(sb := None), l.bs[b := l.bs[b].(alive := false)])
      else
        Local(SetTop(l.th, f.(pc := Creating, zygote := Some(b), isNew := false)), l.nd.(refs := l.nd.refs + 1),
              if l.nd.refs == 0 then l.bs[b := l.bs[b].(paused := false)] else l.bs)
  }

  /** The end of the slow path: `b` becomes the node's Zygote, held by the caller. */
  function Install(th: Caller, nd: Node, bs: seq<Box>, b: nat): Local
    requires th.stack != [] && b < |bs|
  {
    Local(SetTop(th, Top(th).(pc := Creating, zygote := Some(b), isNew := true)).(ret := None),
          nd.(sb := Some(b), refs := 1, lock := None), bs[b := bs[b].(installed := true)])
  }

  function CreateStep(k: nat, l: Local, res: Result): Local
    requires Can(l, Create(res))
  {
    var f := Top(l.th);
    var n := |l.th.stack|;
    var th := l.th.(creates := l.th.creates + 1);
    match res
    case Fork => l.(th := SetTop(th, f.(pc := Putting(ForkFailed))))
    case Err => l.(th := SetTop(th, f.(pc := Putting(Failed))))
    case Ok =>
      if n == 1 then
        l.(th := SetTop(th, f.(pc := Putting(Leaf))))
      else
        l.(th := SetTop(th, f.(pc := Putting(Made(|l.bs|)))),
           bs := l.bs + [Box(l.th.stack[n - 2].node, k, true, false, false, false)])
  }

  /** putSandboxInNode, on the node and the sandboxes. */
  function PutNode(nd: Node, bs: seq<Box>, b: Option<nat>, ok: bool): (Node, seq<Box>)
    requires Known(bs, b)
  {
    if nd.sb != b || b.None? then (nd, bs)
    else if nd.refs - 1 != 0 then (nd.(refs := nd.refs - 1), bs)
    else if ok then (nd.(refs := 0), bs[b.value := bs[b.value].(paused := true)])
    else (nd.(refs := 0, sb := None), bs[b.value := bs[b.value].(alive := false)])
  }

  /** After the put: another attempt, or the result. */
  function AfterPut(th: Caller): Caller
    requires th.stack != [] && Top(th).pc.Putting?
  {
    var f := Top(th);
    if f.pc.out == ForkFailed && !f.isNew then SetTop(th, Retry(f))
    else Return(th, f.pc.out)
  }

  /** The call goes on to the parent node. */
  function Climb(up: seq<nat>, th: Caller): Caller
    requires th.stack != [] && Top(th).node < |up|
  {
    var f := Top(th);
    Opened(SetTop(th, f.(pc := Waiting, recursions := f.recursions + 1)), Attempt(up[f.node]))
  }

  function Do(up: seq<nat>, k: nat, l: Local, a: Act): Local
    requires Can(l, a) && Top(l.th).node < |up|
  {
    var f := Top(l.th);
    match a
    case Get(ok) => GetStep(k, l, ok)
    case Push =>
      l.(th := Climb(up, l.th))
    case InstallFails => l.(th := Return(l.th, Failed), nd := l.nd.(lock := None))
    case RootCreate(ok) =>
      var th := l.th.(creates := l.th.creates + 1);
      if ok then Install(th, l.nd, l.bs + [Box(0, k, true, false, true, false)], |l.bs|)
      else l.(th := Return(th, Failed), nd := l.nd.(lock := None))
    case Deliver =>
      if l.th.ret.value.Made? then Install(l.th, l.nd, l.bs, l.th.ret.value.box)
      else l.(th := Return(l.th, l.th.ret.value), nd := l.nd.(lock := None))
    case Create(res) => CreateStep(k, l, res)
    case Put(ok) =>
      var (nd, bs) := PutNode(l.nd, l.bs, f.zygote, ok);
      Local(AfterPut(l.th), nd, bs)
  }

  // ------------------------------------------------------------------ the whole cache

  datatype World = World(up: seq<nat>, nodes: seq<Node>, boxes: seq<Box>, callers: seq<Caller>)

  /** `Die` is a Zygote killed from outside (by the evictor, or by the pending Destroy of a
      replaced one); `Kill` is recursiveKill at one node. */
  datatype Label = Call(node: nat) | Step(k: nat, act: Act) | Die(box: nat) | Kill(node: nat)

  predicate Placed(w: World, k: nat) {
    k < |w.callers| && w.callers[k].stack != [] && Top(w.callers[k]).node < |w.nodes| && |w.up| == |w.nodes|
  }

  function Here(w: World, k: nat): Local
    requires Placed(w, k)
  {
    Local(w.callers[k], w.nodes[Top(w.callers[k]).node], w.boxes)
  }

  predicate Enabled(w: World, l: Label) {
    match l
    case Call(node) => node < |w.nodes|
    case Step(k, a) => Placed(w, k) && Can(Here(w, k), a)
    case Die(b) => b < |w.boxes|
    case Kill(n) => n < |w.nodes| && w.nodes[n].lock == None && Known(w.boxes, w.nodes[n].sb)
  }

  function Back(w: World, k: nat, l: Local): World
    requires Placed(w, k)
  {
    w.(callers := w.callers[k := l.th], nodes := w.nodes[Top(w.callers[k]).node := l.nd], boxes := l.bs)
  }

  function Killed(w: World, n: nat): World
    requires Enabled(w, Kill(n))
  {
    if w.nodes[n].sb.None? then w
    else
      var b := w.nodes[n].sb.value;
      w.(nodes := w.nodes[n := w.nodes[n].(sb := None)], boxes := w.boxes[b := w.boxes[b].(alive := false)])
  }

  function Next(w: World, l: Label): World
    requires Enabled(w, l)
  {
    match l
    case Call(node) => w.(callers := w.callers + [Caller(node, [Attempt(node)], None, 0)])
    case Step(k, a) => Back(w, k, Do(w.up, k, Here(w, k), a))
    case Die(b) => w.(boxes := w.boxes[b := w.boxes[b].(alive := false)])
    case Kill(n) => Killed(w, n)
  }

  // ------------------------------------------------------------------ one goroutine

  ghost predicate WellUp(up: seq<nat>) {
    |up| > 0 && forall n: nat :: 0 < n < |up| ==> up[n] < n
  }

  /** The innermost call holds a Zygote exactly while it creates from it and puts it back; it
      makes at most two attempts, the second with a new Zygote, and one call on the parent. */
  predicate FrameOk(bs: seq<Box>, f: Frame) {
    && f.attempt <= 1 && f.recursions <= 1
    && (f.zygote.Some? <==> f.pc == Creating || f.pc.Putting?)
    && (f.zygote.Some? ==> f.zygote.value < |bs| && bs[f.zygote.value].home == f.node && bs[f.zygote.value].installed)
    && (f.zygote.Some? && !f.isNew ==> f.attempt == 0)
    && (f.zygote.None? || !f.isNew ==> f.recursions == if f.pc == Waiting then 1 else 0)
    && HistoryOk(bs, f)
  }

  /** A Zygote is new exactly if it was made after the attempt began to get one; the first
      attempt's Zygote was made before. */
  predicate HistoryOk(bs: seq<Box>, f: Frame) {
    && f.gotAt <= |bs|
    && (f.zygote.Some? ==> (f.isNew <==> f.zygote.value >= f.gotAt))
    && (f.attempt == 0 <==> f.first == None)
    && (f.first.Some? ==> f.first.value < |bs| && (f.pc != Want ==> f.first.value < f.gotAt))
  }

  /** A Zygote on its way to the node of call `f`, made for it. */
  predicate InFlight(bs: seq<Box>, b: nat, f: Frame) {
    b < |bs| && bs[b].home == f.node && !bs[b].installed && !bs[b].paused && b >= f.gotAt
  }

  /** Each call but the innermost waits for the next, which is on its node's parent. */
  ghost predicate Chain(up: seq<nat>, stack: seq<Frame>) {
    && (forall i :: 0 <= i < |stack| ==> stack[i].node < |up|)
    && (forall i :: 0 <= i < |stack| - 1 ==> stack[i].node > 0 && stack[i + 1].node == up[stack[i].node])
    && (forall i :: 0 <= i < |stack| - 1 ==> stack[i].pc == Waiting)
  }

  ghost predicate FramesOk(bs: seq<Box>, stack: seq<Frame>) {
    forall i :: 0 <= i < |stack| ==> FrameOk(bs, stack[i])
  }

  predicate RetOk(bs: seq<Box>, th: Caller) {
    if th.stack == [] then th.ret.Some?
    else
      && (th.ret.Some? <==> Top(th).pc == Waiting)
      && (th.ret.Some? ==> th.ret.value != Leaf)
      && (th.ret.Some? && th.ret.value.Made? ==> InFlight(bs, th.ret.value.box, Top(th)))
  }

  predicate OutOk(bs: seq<Box>, th: Caller) {
    th.stack != [] && Top(th).pc.Putting? ==>
      match Top(th).pc.out
      case Made(b) => |th.stack| >= 2 && InFlight(bs, b, th.stack[|th.stack| - 2])
      case Leaf => |th.stack| == 1
      case ForkFailed => true
      case Failed => true
  }

  ghost predicate CallerOk(up: seq<nat>, bs: seq<Box>, th: Caller) {
    && Chain(up, th.stack) && FramesOk(bs, th.stack) && RetOk(bs, th) && OutOk(bs, th)
    && th.start < |up| && (th.stack != [] ==> th.stack[0].node == th.start)
  }

  lemma SetTopChain(up: seq<nat>, th: Caller, f: Frame)
    requires th.stack != [] && Chain(up, th.stack) && f.node == Top(th).node
    ensures Chain(up, SetTop(th, f).stack)
  {
  }

  lemma ReturnChain(up: seq<nat>, th: Caller, out: Outcome)
    requires th.stack != [] && Chain(up, th.stack)
    ensures Chain(up, Return(th, out).stack)
    ensures Return(th, out).stack != [] ==> Top(Return(th, out)).pc == Waiting
  {
  }

  /** Sandboxes are added, keep their home, and stay installed. */
  ghost predicate Grown(bs: seq<Box>, bs': seq<Box>) {
    && |bs| <= |bs'|
    && forall b :: 0 <= b < |bs| ==> bs'[b].home == bs[b].home && (bs[b].installed ==> bs'[b].installed)
  }

  lemma FramesGrown(bs: seq<Box>, bs': seq<Box>, stack: seq<Frame>)
    requires FramesOk(bs, stack) && Grown(bs, bs')
    ensures FramesOk(bs', stack)
  {
  }

  /** The call returns what is not a new Zygote, or one that is on its way to the caller's node. */
  lemma ReturnOk(up: seq<nat>, bs: seq<Box>, bs': seq<Box>, th: Caller, out: Outcome)
    requires th.stack != [] && CallerOk(up, bs, th) && Grown(bs, bs')
    requires out == Leaf ==> |th.stack| == 1
    requires out.Made? ==> |th.stack| >= 2 && InFlight(bs', out.box, th.stack[|th.stack| - 2])
    ensures CallerOk(up, bs', Return(th, out))
  {
    ReturnChain(up, th, out);
    FramesGrown(bs, bs', th.stack);
  }

  lemma SetTopOk(up: seq<nat>, bs: seq<Box>, bs': seq<Box>, th: Caller, f: Frame)
    requires th.stack != [] && CallerOk(up, bs, th) && Grown(bs, bs')
    requires f.node == Top(th).node && FrameOk(bs', f) && f.pc != Waiting && !f.pc.Putting?
    ensures CallerOk(up, bs', SetTop(th, f).(ret := None))
  {
    SetTopChain(up, th, f);
    FramesGrown(bs, bs', th.stack);
  }

  lemma GetOk(up: seq<nat>, k: nat, l: Local, ok: bool)
    requires CallerOk(up, l.bs, l.th) && Can(l, Get(ok))
    requires l.nd.sb.Some? ==> l.bs[l.nd.sb.value].home == Top(l.th).node && l.bs[l.nd.sb.value].installed
    ensures CallerOk(up, GetStep(k, l, ok).bs, GetStep(k, l, ok).th)
  {
    var r := GetStep(k, l, ok);
    assert Grown(l.bs, r.bs);
    assert l.th.ret == None;
    if r.th.stack == l.th.stack[..|l.th.stack| - 1] {
      ReturnOk(up, l.bs, r.bs, l.th, Failed);
    } else {
      SetTopOk(up, l.bs, r.bs, l.th, Top(r.th));
    }
  }

  lemma PushOk(up: seq<nat>, bs: seq<Box>, th: Caller)
    requires WellUp(up) && CallerOk(up, bs, th) && th.stack != [] && Top(th).pc == Slow && Top(th).node > 0
    ensures CallerOk(up, bs, Climb(up, th))
  {
    SetTopChain(up, th, Top(th).(pc := Waiting, recursions := Top(th).recursions + 1));
  }

  lemma InstallOk(up: seq<nat>, bs: seq<Box>, bs': seq<Box>, th: Caller, nd: Node, b: nat)
    requires CallerOk(up, bs, th) && th.stack != [] && (Top(th).pc == Slow || Top(th).pc == Waiting)
    requires b < |bs'| && Grown(bs, bs') && bs'[b].home == Top(th).node && b >= Top(th).gotAt
    ensures CallerOk(up, Install(th, nd, bs', b).bs, Install(th, nd, bs', b).th)
  {
    SetTopOk(up, bs, Install(th, nd, bs', b).bs, th, Top(Install(th, nd, bs', b).th));
  }

  lemma PuttingOk(up: seq<nat>, bs: seq<Box>, bs': seq<Box>, th: Caller, out: Outcome)
    requires th.stack != [] && CallerOk(up, bs, th) && Grown(bs, bs') && Top(th).pc == Creating
    requires out == Leaf ==> |th.stack| == 1
    requires out.Made? ==> |th.stack| >= 2 && InFlight(bs', out.box, th.stack[|th.stack| - 2])
    ensures CallerOk(up, bs', SetTop(th, Top(th).(pc := Putting(out))))
  {
    SetTopChain(up, th, Top(th).(pc := Putting(out)));
    FramesGrown(bs, bs', th.stack);
    assert FrameOk(bs', Top(th));
  }

  lemma CreateOk(up: seq<nat>, k: nat, l: Local, res: Result)
    requires CallerOk(up, l.bs, l.th) && Can(l, Create(res))
    ensures CallerOk(up, CreateStep(k, l, res).bs, CreateStep(k, l, res).th)
  {
    var r := CreateStep(k, l, res);
    PuttingOk(up, l.bs, r.bs, l.th.(creates := l.th.creates + 1), Top(r.th).pc.out);
  }

  lemma PutGrown(nd: Node, bs: seq<Box>, b: Option<nat>, ok: bool)
    requires Known(bs, b)
    ensures var bs' := PutNode(nd, bs, b, ok).1;
            |bs'| == |bs|
            && (forall c :: 0 <= c < |bs| ==> bs'[c].home == bs[c].home && bs'[c].installed == bs[c].installed)
            && (forall c :: 0 <= c < |bs| && Some(c) != b ==> bs'[c] == bs[c])
  {
  }

  lemma PutOk(up: seq<nat>, l: Local, ok: bool)
    requires CallerOk(up, l.bs, l.th) && Can(l, Put(ok))
    ensures var bs' := PutNode(l.nd, l.bs, Top(l.th).zygote, ok).1; CallerOk(up, bs', AfterPut(l.th))
  {
    var f := Top(l.th);
    PutGrown(l.nd, l.bs, f.zygote, ok);
    var bs' := PutNode(l.nd, l.bs, f.zygote, ok).1;
    assert Grown(l.bs, bs');
    if f.pc.out == ForkFailed && !f.isNew {
      assert l.th.ret == None;
      SetTopOk(up, l.bs, bs', l.th, Retry(f));
    } else {
      ReturnOk(up, l.bs, bs', l.th, f.pc.out);
    }
  }

  /** The node's Zygote belongs to the node. */
  predicate Homed(bs: seq<Box>, nd: Node, n: nat) {
    nd.sb.Some? ==> nd.sb.value < |bs| && bs[nd.sb.value].home == n && bs[nd.sb.value].installed
  }

  lemma RootOk(up: seq<nat>, k: nat, l: Local, ok: bool)
    requires CallerOk(up, l.bs, l.th) && Can(l, RootCreate(ok))
    ensures CallerOk(up, Do(up, k, l, RootCreate(ok)).bs, Do(up, k, l, RootCreate(ok)).th)
  {
    var th := l.th.(creates := l.th.creates + 1);
    if ok {
      InstallOk(up, l.bs, l.bs + [Box(0, k, true, false, true, false)], th, l.nd, |l.bs|);
    } else {
      ReturnOk(up, l.bs, l.bs, th, Failed);
    }
  }

  lemma DeliverOk(up: seq<nat>, k: nat, l: Local)
    requires CallerOk(up, l.bs, l.th) && Can(l, Deliver)
    ensures CallerOk(up, Do(up, k, l, Deliver).bs, Do(up, k, l, Deliver).th)
  {
    if l.th.ret.value.Made? {
      InstallOk(up, l.bs, l.bs, l.th, l.nd, l.th.ret.value.box);
    } else {
      ReturnOk(up, l.bs, l.bs, l.th, l.th.ret.value);
    }
  }

  lemma CallerStep(up: seq<nat>, k: nat, l: Local, a: Act)
    requires WellUp(up) && CallerOk(up, l.bs, l.th) && Can(l, a) && Homed(l.bs, l.nd, Top(l.th).node)
    ensures CallerOk(up, Do(up, k, l, a).bs, Do(up, k, l, a).th)
  {
    match a
    case Get(ok) => GetOk(up, k, l, ok);
    case Push => PushOk(up, l.bs, l.th);
    case InstallFails => ReturnOk(up, l.bs, l.bs, l.th, Failed);
    case RootCreate(ok) => RootOk(up, k, l, ok);
    case Deliver => DeliverOk(up, k, l);
    case Create(res) => CreateOk(up, k, l, res);
    case Put(ok) => PutOk(up, l, ok);
  }

  /** `th` has a Zygote that its caller's node is still to get. */
  predicate Carries(th: Caller, b: nat) {
    th.stack != [] && (th.ret == Some(Made(b)) || Top(th).pc == Putting(Made(b)))
  }

  /** What others do to sandboxes that `th` does not carry does not concern it. */
  lemma OtherCaller(up: seq<nat>, bs: seq<Box>, bs': seq<Box>, th: Caller)
    requires CallerOk(up, bs, th) && Grown(bs, bs')
    requires forall b :: 0 <= b < |bs| && Carries(th, b) ==> !bs'[b].installed && !bs'[b].paused
    ensures CallerOk(up, bs', th)
  {
    FramesGrown(bs, bs', th.stack);
  }
}
