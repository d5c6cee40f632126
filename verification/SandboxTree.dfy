/** Reference counts on the tree of sandboxes (go/worker/sandbox/sock.go). */
module SandboxTree {
  import opened Common
  import opened MemPool
  import opened Sandboxes

  /** The sandbox's own reference has not been dropped. */
  predicate SelfHeld(b: Box) {
    !b.dead && WhyOf(b.phase) != Some(ByDestroy)
  }

  /** The sandbox has told its parent, if any, that it is gone. */
  predicate Exited(b: Box) {
    b.cg == Freed && !b.phase.Killed? && !b.phase.Returning? && !b.phase.ExitParent?
  }

  predicate Owing(b: Box) {
    b.parent.Some? && !Exited(b)
  }

  function ExitingChild(phase: Phase): Option<nat> {
    match WhyOf(phase)
    case Some(ByChildExit(c)) => Some(c)
    case _ => None
  }

  // -------------------------------------------------------- what one sandbox keeps

  predicate Fresh(b: Box) {
    !b.published && !b.dead && !b.paused && b.awake && b.children == {}
  }

  predicate Live(b: Box) {
    b.published && !b.dead
  }

  predicate Dying(b: Box, y: Why) {
    match y
    case ByDestroy => !b.dead && (!b.published ==> b.children == {})
    case ByChildExit(_) => b.published && (!b.dead ==> b.awake == !b.paused)
  }

  predicate PhaseOk(b: Box) {
    match b.phase
    case NewAskMem => Fresh(b) && b.parent == None
    case NewGetCg => Fresh(b) && b.parent == None
    case NewSetup => Fresh(b) && b.parent == None
    case NewProc => Fresh(b) && b.parent == None
    case NewForkWait => Fresh(b) && b.parent == None
    case NewFailed => Fresh(b) && b.parent == None
    case NewConnect => Fresh(b) && b.parent == b.from
    case Idle => (if b.published then !b.dead ==> b.awake == !b.paused else b.dead && b.children == {})
    case Ignoring => Live(b) && !b.paused && b.awake
    case PauseShrunk(diff) => Live(b) && !b.paused && b.awake && diff > 0
    case PauseReturn(diff) => Live(b) && !b.paused && b.awake && diff > 0
    case PauseNotify => Live(b) && !b.paused && b.awake
    case WakeCalled => Live(b) && b.paused && !b.awake
    case WakeSaid => Live(b) && b.paused && b.awake
    case WakeAsk => Live(b) && b.paused && b.awake
    case WakeGranted => Live(b) && b.paused && b.awake
    case WakeThaw => Live(b) && b.paused && b.awake
    case ForkRun(c) => Live(b) && b.awake == !b.paused && c in b.children && c !in b.kids
    case Kill(y) => Dying(b, y) && b.refs == 0
    case Killed(y) => Dying(b, y) && b.refs == 0
    case Returning(y) => Dying(b, y) && b.refs == 0
    case ExitParent(y) => Dying(b, y) && b.refs == 0
    case ExitCalled(y) => Dying(b, y) && b.refs == 0 && b.parent.Some?
    case Finish(y) => Dying(b, y)
  }

  /** cgRefCount is one for the sandbox itself until it is destroyed, plus one per child;
      the cgroup is gone exactly when the count is zero and the release has got that far. */
  predicate Counted(b: Box) {
    && b.refs == (if SelfHeld(b) then 1 else 0) + |b.children|
    && (b.cg == Freed <==> b.refs == 0 && !b.phase.Kill?)
    && (b.cg == NoCg <==> b.phase == NewAskMem || b.phase == NewGetCg)
  }

  predicate Local(b: Box) {
    && Counted(b)
    && b.kids <= b.children
    && b.limit >= 1
    && (b.parent == None || b.parent == b.from)
    && PhaseOk(b)
  }

  /** Every step keeps what one sandbox keeps. */
  lemma DoLocal(conf: Conf, b: Box, act: Act)
    requires Checked(conf) && Local(b) && Can(conf, b, act)
    ensures Local(Do(conf, b, act))
  {
    if DropsSelf(act) {
      DropSelfLocal(b);
    } else if Creates(act) {
      CreateLocal(conf, b, act);
    } else if Frees(act) {
      FreeLocal(conf, b, act);
    } else {
      DoKeeps(conf, b, act);
    }
  }

  predicate Creates(act: Act) {
    act.GetCg? || act == SetupOk || act == FreshOk || act == ForkReject || act == Publish
  }

  predicate Frees(act: Act) {
    act == KillCg || act == ReturnMem || act == NoParent || act == FinishDestroy
  }

  lemma FreeLocal(conf: Conf, b: Box, act: Act)
    requires Checked(conf) && Local(b) && Can(conf, b, act) && Frees(act)
    ensures Local(Do(conf, b, act))
  {
  }

  lemma CreateLocal(conf: Conf, b: Box, act: Act)
    requires Checked(conf) && Local(b) && Can(conf, b, act) && Creates(act)
    ensures Local(Do(conf, b, act))
  {
  }

  predicate DropsSelf(act: Act) {
    act == Abort || act == Destroy || act == WakeFail
  }

  lemma DropSelfLocal(b: Box)
    requires Local(b) && SelfHeld(b) && WhyOf(b.phase) == None && b.cg.Cg?
    requires !b.published ==> b.children == {}
    ensures Local(DropSelf(b))
  {
  }

  lemma DoKeeps(conf: Conf, b: Box, act: Act)
    requires Checked(conf) && Local(b) && Can(conf, b, act) && !DropsSelf(act) && !Creates(act) && !Frees(act)
    ensures Local(Do(conf, b, act))
  {
  }

  lemma AnsweredLocal(b: Box)
    requires Local(b)
    ensures Local(Answered(b))
  {
  }

  // --------------------------------------------------------- how sandboxes are linked

  /** The part of a sandbox that others depend on. `unborn`: its fork has not begun. */
  datatype Face = Face(from: Option<nat>, parent: Option<nat>, children: set<nat>, kids: set<nat>, published: bool,
                       unborn: bool, owing: bool, awaitsFork: bool, forks: Option<nat>,
                       awaitsExit: bool, exits: Option<nat>)

  predicate Unborn(phase: Phase) {
    phase == NewAskMem || phase == NewGetCg || phase == NewSetup || phase == NewProc
  }

  function FaceOf(b: Box): Face {
    Face(b.from, b.parent, b.children, b.kids, b.published, Unborn(b.phase), Owing(b), b.phase == NewForkWait,
         if b.phase.ForkRun? then Some(b.phase.child) else None, b.phase.ExitCalled?, ExitingChild(b.phase))
  }

  ghost function Faces(bs: seq<Box>): (fs: seq<Face>)
    ensures |fs| == |bs|
    ensures forall j :: 0 <= j < |bs| ==> fs[j] == FaceOf(bs[j])
  {
    seq(|bs|, j requires 0 <= j < |bs| => FaceOf(bs[j]))
  }

  lemma FacesUpdate(bs: seq<Box>, i: nat, b: Box)
    requires i < |bs|
    ensures Faces(bs[i := b]) == Faces(bs)[i := FaceOf(b)]
  {
  }

  ghost predicate Upward(fs: seq<Face>, j: nat)
    requires j < |fs|
  {
    var f := fs[j];
    && (f.from.Some? ==> f.from.value < j && fs[f.from.value].published)
    && (f.parent.Some? ==> f.parent == f.from)
    && (f.owing ==> f.parent.Some? && j in fs[f.parent.value].kids)
    && (f.awaitsFork ==> f.from.Some? && fs[f.from.value].forks == Some(j))
    && (f.awaitsExit ==> f.parent.Some? && fs[f.parent.value].exits == Some(j))
  }

  ghost predicate Downward(fs: seq<Face>, j: nat)
    requires j < |fs|
  {
    var f := fs[j];
    && (forall c <- f.children :: j < c < |fs| && fs[c].from == Some(j) && !fs[c].unborn)
    && (forall c <- f.kids :: j < c < |fs| && fs[c].owing && fs[c].parent == Some(j))
    && (f.forks.Some? ==> var c := f.forks.value; c < |fs| && fs[c].awaitsFork && fs[c].from == Some(j))
    && (f.exits.Some? ==> var c := f.exits.value; c < |fs| && fs[c].awaitsExit && fs[c].parent == Some(j))
  }

  ghost predicate Links(fs: seq<Face>) {
    forall j: nat :: j < |fs| ==> Upward(fs, j) && Downward(fs, j)
  }

  ghost predicate Locals(bs: seq<Box>) {
    forall j: nat :: j < |bs| ==> Local(bs[j])
  }

  ghost predicate Tree(bs: seq<Box>) {
    Locals(bs) && Links(Faces(bs))
  }

  // --------------------------------------------------------- steps on one sandbox

  predicate Grows(f: Face, g: Face) {
    && (f.published ==> g.published)
    && (g.unborn ==> f.unborn)
    && g == f.(published := g.published, unborn := g.unborn)
  }

  lemma DropFace(b: Box)
    requires b.cg != Freed && WhyOf(b.phase) == None && b.phase != NewForkWait && !b.phase.ForkRun?
    ensures Grows(FaceOf(b), FaceOf(DropSelf(b)))
  {
  }

  lemma KillFace(b: Box)
    requires b.phase.Kill? && b.cg != Freed
    ensures Grows(FaceOf(b), FaceOf(b.(cg := Freed, phase := Killed(b.phase.why))))
  {
  }

  lemma FreeFace(conf: Conf, b: Box, act: Act)
    requires Local(b) && Can(conf, b, act) && (act == ReturnMem || act == NoParent || act == FinishDestroy)
    ensures Grows(FaceOf(b), FaceOf(Do(conf, b, act)))
  {
  }

  lemma OtherFace(conf: Conf, b: Box, act: Act)
    requires Local(b) && Can(conf, b, act) && !DropsSelf(act) && !Frees(act)
    ensures Grows(FaceOf(b), FaceOf(Do(conf, b, act)))
  {
  }

  lemma DoFace(conf: Conf, b: Box, act: Act)
    requires Local(b) && Can(conf, b, act)
    ensures Grows(FaceOf(b), FaceOf(Do(conf, b, act)))
  {
    if DropsSelf(act) {
      DropFace(b);
    } else if act == KillCg {
      KillFace(b);
    } else if Frees(act) {
      FreeFace(conf, b, act);
    } else {
      OtherFace(conf, b, act);
    }
  }

  lemma AnsweredFace(b: Box)
    requires Local(b)
    ensures FaceOf(Answered(b)) == FaceOf(b)
  {
  }

  lemma GrowsLinks(fs: seq<Face>, i: nat, g: Face)
    requires Links(fs) && i < |fs| && Grows(fs[i], g)
    ensures Links(fs[i := g])
  {
    var fs' := fs[i := g];
    forall j: nat | j < |fs'| ensures Upward(fs', j) && Downward(fs', j) {
      assert Upward(fs, j) && Downward(fs, j);
    }
  }

  lemma SoloTree(conf: Conf, bs: seq<Box>, i: nat, act: Act)
    requires Checked(conf) && Tree(bs) && i < |bs| && Can(conf, bs[i], act)
    ensures Tree(bs[i := Do(conf, bs[i], act)])
  {
    var b := Do(conf, bs[i], act);
    DoLocal(conf, bs[i], act);
    DoFace(conf, bs[i], act);
    GrowsLinks(Faces(bs), i, FaceOf(b));
    FacesUpdate(bs, i, b);
  }

  lemma AnsweredTree(bs: seq<Box>, i: nat)
    requires Tree(bs) && i < |bs|
    ensures Tree(bs[i := Answered(bs[i])])
  {
    AnsweredLocal(bs[i]);
    AnsweredFace(bs[i]);
    GrowsLinks(Faces(bs), i, FaceOf(bs[i]));
    FacesUpdate(bs, i, Answered(bs[i]));
  }

  lemma NewLinks(fs: seq<Face>, f: Face)
    requires Links(fs)
    requires f == Face(f.from, None, {}, {}, false, true, false, false, None, false, None)
    requires f.from.Some? ==> f.from.value < |fs| && fs[f.from.value].published
    ensures Links(fs + [f])
  {
    var fs' := fs + [f];
    forall j: nat | j < |fs'| ensures Upward(fs', j) && Downward(fs', j) {
      if j < |fs| {
        assert Upward(fs, j) && Downward(fs, j);
      }
    }
  }

  lemma NewTree(bs: seq<Box>, b: Box)
    requires Tree(bs) && b.limit >= 1
    requires b == Box(b.from, None, {}, {}, 1, b.limit, NoCg, NewAskMem, false, false, true, false)
    requires b.from.Some? ==> b.from.value < |bs| && bs[b.from.value].published
    ensures Tree(bs + [b])
  {
    NewLinks(Faces(bs), FaceOf(b));
    assert Faces(bs + [b]) == Faces(bs) + [FaceOf(b)];
    assert Local(b);
  }

  // --------------------------------------------------------- steps on two sandboxes

  /** Replace sandboxes `p` and `i`. */
  function Put2(bs: seq<Box>, p: nat, q: Box, i: nat, c: Box): seq<Box>
    requires p < |bs| && i < |bs|
  {
    bs[p := q][i := c]
  }

  lemma Put2Tree(bs: seq<Box>, p: nat, q: Box, i: nat, c: Box)
    requires Locals(bs) && p < |bs| && i < |bs| && Local(q) && Local(c)
    requires Links(Faces(bs)[p := FaceOf(q)][i := FaceOf(c)])
    ensures Tree(Put2(bs, p, q, i, c))
  {
    FacesUpdate(bs, p, q);
    FacesUpdate(bs[p := q], i, c);
  }

  /** Only the relation to child `i` may differ. */
  predicate SameButChild(f: Face, g: Face, i: nat) {
    && g == f.(children := g.children, kids := g.kids, forks := g.forks, exits := g.exits)
    && g.children - {i} == f.children - {i}
    && g.kids - {i} == f.kids - {i}
    && (f.forks != Some(i) && f.forks != None ==> g.forks == f.forks)
    && (g.forks == f.forks || g.forks == None || g.forks == Some(i))
    && (f.exits != Some(i) && f.exits != None ==> g.exits == f.exits)
    && (g.exits == f.exits || g.exits == None || g.exits == Some(i))
  }

  /** Only the relation to parent `p` may differ. */
  predicate SameButParent(c: Face, d: Face, p: nat) {
    && c.from == Some(p)
    && d == c.(parent := d.parent, unborn := d.unborn, owing := d.owing, awaitsFork := d.awaitsFork, awaitsExit := d.awaitsExit)
    && (d.unborn ==> c.unborn)
  }

  lemma OthersLinked(fs: seq<Face>, p: nat, g: Face, i: nat, d: Face, j: nat)
    requires Links(fs) && p < |fs| && i < |fs| && j < |fs| && p != i && j != p && j != i
    requires SameButChild(fs[p], g, i) && SameButParent(fs[i], d, p)
    ensures Upward(fs[p := g][i := d], j) && Downward(fs[p := g][i := d], j)
  {
    assert Upward(fs, j) && Downward(fs, j) && Upward(fs, i);
    assert i !in fs[j].children;
    assert j in g.kids - {i} <==> j in fs[p].kids - {i};
  }

  lemma PairLinks(fs: seq<Face>, p: nat, g: Face, i: nat, d: Face)
    requires Links(fs) && p < |fs| && i < |fs| && p != i
    requires SameButChild(fs[p], g, i) && SameButParent(fs[i], d, p)
    requires Upward(fs[p := g][i := d], p) && Downward(fs[p := g][i := d], p)
    requires Upward(fs[p := g][i := d], i) && Downward(fs[p := g][i := d], i)
    ensures Links(fs[p := g][i := d])
  {
    var fs' := fs[p := g][i := d];
    forall j: nat | j < |fs'| ensures Upward(fs', j) && Downward(fs', j) {
      if j != p && j != i {
        OthersLinked(fs, p, g, i, d, j);
      }
    }
  }

  lemma ForkBeginLinks(fs: seq<Face>, p: nat, i: nat)
    requires Links(fs) && p < i < |fs| && fs[i].from == Some(p) && fs[p].forks == None
    requires !fs[i].owing && !fs[i].awaitsFork
    ensures Links(fs[p := fs[p].(children := fs[p].children + {i}, forks := Some(i))]
                    [i := fs[i].(awaitsFork := true, unborn := false)])
  {
    var g, d := fs[p].(children := fs[p].children + {i}, forks := Some(i)), fs[i].(awaitsFork := true, unborn := false);
    assert Upward(fs, p) && Downward(fs, p) && Upward(fs, i) && Downward(fs, i);
    PairLinks(fs, p, g, i, d);
  }

  lemma ForkBeginTree(bs: seq<Box>, p: nat, i: nat)
    requires Tree(bs) && i < |bs| && p < |bs| && bs[i].phase == NewProc && bs[i].from == Some(p)
    requires bs[p].phase == Idle && !bs[p].dead
    ensures Tree(Put2(bs, p, ForkRaise(bs[p], i), i, bs[i].(phase := NewForkWait)))
  {
    var fs := Faces(bs);
    assert Upward(fs, i) && Downward(fs, p);
    ForkBeginLinks(fs, p, i);
    ForkBeginLocal(bs[p], bs[i], i);
    Put2Tree(bs, p, ForkRaise(bs[p], i), i, bs[i].(phase := NewForkWait));
  }

  lemma ForkBeginLocal(p: Box, b: Box, i: nat)
    requires Local(p) && p.phase == Idle && !p.dead && i !in p.children && p.published
    requires Local(b) && b.phase == NewProc
    ensures Local(ForkRaise(p, i)) && Local(b.(phase := NewForkWait))
    ensures FaceOf(ForkRaise(p, i)) == FaceOf(p).(children := p.children + {i}, forks := Some(i))
    ensures FaceOf(b.(phase := NewForkWait)) == FaceOf(b).(awaitsFork := true, unborn := false)
    ensures !FaceOf(b).owing && !FaceOf(b).awaitsFork && FaceOf(p).forks == None
  {
  }

  lemma ForkOkLinks(fs: seq<Face>, p: nat, i: nat)
    requires Links(fs) && p < |fs| && i < |fs| && fs[p].forks == Some(i) && i in fs[p].children
    requires fs[i].parent == None && !fs[i].awaitsExit
    ensures Links(fs[p := fs[p].(kids := fs[p].kids + {i}, forks := None)]
                    [i := fs[i].(awaitsFork := false, parent := Some(p), owing := true)])
  {
    var g, d := fs[p].(kids := fs[p].kids + {i}, forks := None), fs[i].(awaitsFork := false, parent := Some(p), owing := true);
    assert Upward(fs, p) && Downward(fs, p) && Upward(fs, i) && Downward(fs, i);
    PairLinks(fs, p, g, i, d);
  }

  lemma ForkOkLocal(p: Box, b: Box, pid: nat, i: nat)
    requires Local(p) && p.phase == ForkRun(i)
    requires Local(b) && b.phase == NewForkWait && b.from == Some(pid)
    ensures Local(ForkDone(p, i)) && Local(b.(parent := Some(pid), phase := NewConnect))
    ensures FaceOf(ForkDone(p, i)) == FaceOf(p).(kids := p.kids + {i}, forks := None)
    ensures FaceOf(b.(parent := Some(pid), phase := NewConnect)) ==
            FaceOf(b).(awaitsFork := false, parent := Some(pid), owing := true)
    ensures !FaceOf(b).awaitsExit
  {
  }

  lemma ForkOkTree(bs: seq<Box>, p: nat, i: nat)
    requires Tree(bs) && p < |bs| && i < |bs| && bs[p].phase == ForkRun(i)
    ensures bs[i].phase == NewForkWait && bs[i].from == Some(p) && p != i
    ensures Tree(Put2(bs, p, ForkDone(bs[p], i), i, bs[i].(parent := Some(p), phase := NewConnect)))
  {
    var fs := Faces(bs);
    assert Downward(fs, p) && Upward(fs, i);
    ForkOkLocal(bs[p], bs[i], p, i);
    ForkOkLinks(fs, p, i);
    Put2Tree(bs, p, ForkDone(bs[p], i), i, bs[i].(parent := Some(p), phase := NewConnect));
  }

  lemma ForkFailLinks(fs: seq<Face>, p: nat, i: nat)
    requires Links(fs) && p < |fs| && i < |fs| && fs[p].forks == Some(i)
    ensures Links(fs[p := fs[p].(forks := None)][i := fs[i].(awaitsFork := false)])
  {
    var g, d := fs[p].(forks := None), fs[i].(awaitsFork := false);
    assert Upward(fs, p) && Downward(fs, p) && Upward(fs, i) && Downward(fs, i);
    PairLinks(fs, p, g, i, d);
  }

  lemma ForkFailLocal(p: Box, b: Box, i: nat)
    requires Local(p) && p.phase == ForkRun(i) && Local(b) && b.phase == NewForkWait
    ensures Local(p.(phase := Idle)) && Local(b.(phase := NewFailed))
    ensures FaceOf(p.(phase := Idle)) == FaceOf(p).(forks := None)
    ensures FaceOf(b.(phase := NewFailed)) == FaceOf(b).(awaitsFork := false)
  {
  }

  lemma ForkFailTree(bs: seq<Box>, p: nat, i: nat)
    requires Tree(bs) && p < |bs| && i < |bs| && bs[p].phase == ForkRun(i)
    ensures bs[i].phase == NewForkWait && bs[i].from == Some(p) && p != i
    ensures Tree(Put2(bs, p, bs[p].(phase := Idle), i, bs[i].(phase := NewFailed)))
  {
    var fs := Faces(bs);
    assert Downward(fs, p) && Upward(fs, i);
    ForkFailLocal(bs[p], bs[i], i);
    ForkFailLinks(fs, p, i);
    Put2Tree(bs, p, bs[p].(phase := Idle), i, bs[i].(phase := NewFailed));
  }

  lemma ExitCallLinks(fs: seq<Face>, p: nat, i: nat)
    requires Links(fs) && p < i < |fs| && fs[i].parent == Some(p) && fs[i].owing
    requires fs[p].exits == None && fs[p].forks == None && !fs[i].awaitsExit && !fs[i].awaitsFork
    ensures Links(fs[p := fs[p].(children := fs[p].children - {i}, kids := fs[p].kids - {i}, exits := Some(i))]
                    [i := fs[i].(owing := false, awaitsExit := true)])
  {
    var g, d := fs[p].(children := fs[p].children - {i}, kids := fs[p].kids - {i}, exits := Some(i)), fs[i].(owing := false, awaitsExit := true);
    assert Upward(fs, p) && Downward(fs, p) && Upward(fs, i) && Downward(fs, i);
    PairLinks(fs, p, g, i, d);
  }

  lemma ChildExitLocal(p: Box, i: nat)
    requires Local(p) && p.phase == Idle && i in p.kids && p.published
    ensures Local(ChildExit(p, i))
    ensures FaceOf(ChildExit(p, i)) ==
            FaceOf(p).(children := p.children - {i}, kids := p.kids - {i}, exits := Some(i))
    ensures FaceOf(p).exits == None && FaceOf(p).forks == None
  {
    assert |p.children| >= 1;
  }

  lemma ExitCalledLocal(b: Box)
    requires Local(b) && b.phase.ExitParent? && b.parent.Some?
    ensures Local(b.(phase := ExitCalled(b.phase.why)))
    ensures FaceOf(b.(phase := ExitCalled(b.phase.why))) == FaceOf(b).(owing := false, awaitsExit := true)
    ensures FaceOf(b).owing && !FaceOf(b).awaitsExit && !FaceOf(b).awaitsFork
  {
  }

  lemma ExitCallTree(bs: seq<Box>, p: nat, i: nat)
    requires Tree(bs) && p < |bs| && i < |bs| && bs[i].phase.ExitParent? && bs[i].parent == Some(p)
    requires bs[p].phase == Idle
    ensures p != i && i in bs[p].kids
    ensures Tree(Put2(bs, p, ChildExit(bs[p], i), i, bs[i].(phase := ExitCalled(bs[i].phase.why))))
  {
    var fs := Faces(bs);
    assert Upward(fs, i);
    assert FaceOf(bs[i]).owing;
    ChildExitLocal(bs[p], i);
    ExitCalledLocal(bs[i]);
    ExitCallLinks(fs, p, i);
    Put2Tree(bs, p, ChildExit(bs[p], i), i, bs[i].(phase := ExitCalled(bs[i].phase.why)));
  }

  lemma FinishExitLinks(fs: seq<Face>, p: nat, i: nat)
    requires Links(fs) && p < |fs| && i < |fs| && fs[p].exits == Some(i)
    ensures Links(fs[p := fs[p].(exits := None)][i := fs[i].(awaitsExit := false)])
  {
    var g, d := fs[p].(exits := None), fs[i].(awaitsExit := false);
    assert Upward(fs, p) && Downward(fs, p) && Upward(fs, i) && Downward(fs, i);
    PairLinks(fs, p, g, i, d);
  }

  lemma ExitReturned(p: Box, i: nat)
    requires Local(p) && p.phase == Finish(ByChildExit(i))
    ensures Local(p.(phase := Idle)) && FaceOf(p.(phase := Idle)) == FaceOf(p).(exits := None)
  {
  }

  lemma ExitSeen(b: Box)
    requires Local(b) && b.phase.ExitCalled?
    ensures Local(b.(phase := Finish(b.phase.why)))
    ensures FaceOf(b.(phase := Finish(b.phase.why))) == FaceOf(b).(awaitsExit := false)
  {
  }

  lemma FinishExitTree(bs: seq<Box>, p: nat, i: nat)
    requires Tree(bs) && p < |bs| && i < |bs| && bs[p].phase == Finish(ByChildExit(i))
    ensures bs[i].phase.ExitCalled? && bs[i].parent == Some(p) && p != i
    ensures Tree(Put2(bs, p, bs[p].(phase := Idle), i, bs[i].(phase := Finish(bs[i].phase.why))))
  {
    var fs := Faces(bs);
    assert Downward(fs, p) && Upward(fs, i);
    ExitReturned(bs[p], i);
    ExitSeen(bs[i]);
    FinishExitLinks(fs, p, i);
    Put2Tree(bs, p, bs[p].(phase := Idle), i, bs[i].(phase := Finish(bs[i].phase.why)));
  }

  lemma PairTree(bs: seq<Box>, act: PairAct, id: nat)
    requires Tree(bs) && PairCan(bs, act, id)
    ensures var t := PairDo(bs, act, id); t.p < t.i < |bs| && Tree(Put2(bs, t.p, t.q, t.i, t.c))
  {
    var t := PairDo(bs, act, id);
    assert Upward(Faces(bs), t.i);
    match act {
      case ForkBegin => ForkBeginTree(bs, t.p, t.i);
      case ForkOk => ForkOkTree(bs, t.p, t.i);
      case ForkFail => ForkFailTree(bs, t.p, t.i);
      case ExitCall => ExitCallTree(bs, t.p, t.i);
      case FinishExit => FinishExitTree(bs, t.p, t.i);
    }
  }

  // ------------------------------------------------------------------ every step

  lemma {:induction false} DeliverAllTree(w: World, served: seq<Req<Who>>, left: seq<int>)
    requires |served| == |left| && Tree(w.boxes)
    ensures Tree(DeliverAll(w, served, left).boxes)
    ensures |DeliverAll(w, served, left).boxes| == |w.boxes|
    decreases |served|
  {
    if served != [] {
      if served[0].who.Sb? && served[0].who.id < |w.boxes| {
        AnsweredTree(w.boxes, served[0].who.id);
      }
      DeliverAllTree(Deliver(w, served[0], left[0]), served[1..], left[1..]);
    }
  }

  /** A task that has not run names a sandbox that is or was published. */
  ghost predicate TasksKnown(w: World) {
    forall t <- w.tasks :: t.sb < |w.boxes| && w.boxes[t.sb].published
  }

  lemma EvictTree(conf: Conf, bs: seq<Box>, i: nat, force: bool)
    requires Checked(conf) && Tree(bs) && i < |bs| && bs[i].phase == Idle && bs[i].published
    ensures Tree(bs[i := Evict(bs[i], force)])
  {
    var b := bs[i];
    assert Local(b);
    if b.dead {
      assert bs[i := b] == bs;
    } else if force || b.paused {
      SoloTree(conf, bs, i, Destroy);
    } else {
      var d := b.(phase := Ignoring);
      GrowsLinks(Faces(bs), i, FaceOf(d));
      FacesUpdate(bs, i, d);
    }
  }

  /** Reference counts and links survive every step. */
  lemma TreeStep(w: World, l: Label)
    requires Checked(w.conf) && Tree(w.boxes) && TasksKnown(w) && Enabled(w, l)
    ensures Tree(Next(w, l).boxes)
  {
    match l {
      case StartCreate(from, mb) =>
        NewTree(w.boxes, Box(from, None, {}, {}, 1, mb, NoCg, NewAskMem, false, false, true, false));
      case Solo(i, act) => SoloTree(w.conf, w.boxes, i, act);
      case Pair(act2, id) => PairTree(w.boxes, act2, id);
      case MemTurn =>
        var t := Turn(w.mem, w.inbox[0]);
        DeliverAllTree(w.(mem := t.pool, inbox := w.inbox[1..]), t.served, t.left);
      case RunTask(k) => EvictTree(w.conf, w.boxes, w.tasks[k].sb, w.tasks[k].force);
      case _ =>
    }
  }
}
