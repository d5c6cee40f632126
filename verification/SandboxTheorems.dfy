/** What holds in every run of the worker's sandboxes. */
module SandboxTheorems {
  import opened Common
  import opened MemPool
  import opened Evictor
  import opened Sandboxes
  import opened SandboxTree
  import opened SandboxMemory
  import opened SandboxEvents
  import opened SandboxShutdown

  ghost predicate Inv(w: World) {
    && Checked(w.conf)
    && Tree(w.boxes)
    && Limits(w.conf, w.boxes)
    && Conserved(w)
    && Evicts(w)
    && CgsOk(w)
  }

  lemma InitInv(conf: Conf)
    requires Checked(conf)
    ensures Inv(Init(conf))
  {
    var w := Init(conf);
    EmptyValid();
    assert Truthful(w.boxes, w.sent);
    assert OnePlace(w.cgs, w.boxes);
  }

  lemma {:induction false} DeliverAllLimits(w: World, served: seq<Req<Who>>, left: seq<int>)
    requires |served| == |left| && Limits(w.conf, w.boxes)
    ensures Limits(w.conf, DeliverAll(w, served, left).boxes)
    decreases |served|
  {
    if served != [] {
      DeliverAllLimits(Deliver(w, served[0], left[0]), served[1..], left[1..]);
    }
  }

  lemma SoloLimits(w: World, i: nat, act: Act)
    requires Checked(w.conf) && Limits(w.conf, w.boxes) && SoloEnabled(w, i, act)
    ensures Limits(w.conf, SoloNext(w, i, act).boxes)
  {
    SoloFields(w, i, act);
    DoLimit(w.conf, w.boxes[i], act);
  }

  lemma PairLimits(w: World, act: PairAct, id: nat)
    requires Tree(w.boxes) && Limits(w.conf, w.boxes) && PairCan(w.boxes, act, id)
    ensures PairDo(w.boxes, act, id).p < |w.boxes| && PairDo(w.boxes, act, id).i < |w.boxes|
    ensures Limits(w.conf, PairNext(w, PairDo(w.boxes, act, id)).boxes)
  {
    PairTree(w.boxes, act, id);
  }

  lemma LimitsStep(w: World, l: Label)
    requires Checked(w.conf) && Tree(w.boxes) && Limits(w.conf, w.boxes) && Enabled(w, l)
    ensures Limits(w.conf, Next(w, l).boxes)
  {
    match l {
      case Solo(i, act) => SoloLimits(w, i, act);
      case Pair(act2, id) => PairLimits(w, act2, id);
      case MemTurn =>
        var t := Turn(w.mem, w.inbox[0]);
        DeliverAllLimits(w.(mem := t.pool, inbox := w.inbox[1..]), t.served, t.left);
      case _ =>
    }
  }

  lemma ConfKept(w: World, l: Label)
    requires Enabled(w, l)
    ensures Next(w, l).conf == w.conf
  {
    match l {
      case Solo(i, act) => SoloFields(w, i, act);
      case MemTurn =>
        var t := Turn(w.mem, w.inbox[0]);
        DeliverAllFields(w.(mem := t.pool, inbox := w.inbox[1..]), t.served, t.left);
      case _ =>
    }
  }

  lemma InvStep(w: World, l: Label)
    requires Inv(w) && Enabled(w, l)
    ensures Inv(Next(w, l)) && Next(w, l).conf == w.conf
  {
    ConfKept(w, l);
    TreeStep(w, l);
    LimitsStep(w, l);
    MemoryStep(w, l);
    EvictsStep(w, l);
    CgsStep(w, l);
  }

  lemma {:induction false} InvRun(w: World, ls: seq<Label>)
    requires Inv(w) && Legal(w, ls)
    ensures Inv(Run(w, ls)) && Run(w, ls).conf == w.conf
    decreases |ls|
  {
    if ls != [] {
      InvStep(w, ls[0]);
      InvRun(Next(w, ls[0]), ls[1..]);
    }
  }

  /** The worker after a run from start-up. */
  ghost predicate Reached(conf: Conf, ls: seq<Label>, w: World) {
    Checked(conf) && Legal(Init(conf), ls) && w == Run(Init(conf), ls)
  }

  lemma ReachedInv(conf: Conf, ls: seq<Label>, w: World)
    requires Reached(conf, ls, w)
    ensures Inv(w) && w.conf == conf
  {
    InitInv(conf);
    InvRun(Init(conf), ls);
  }

  // --------------------------------------------------------------- memory conservation

  /** In every run: free memory plus what every sandbox and Cleanup hold is the pool, no
      holding and no counter is ever negative, and memTask never gets a request it panics on. */
  lemma MemoryConserved(conf: Conf, ls: seq<Label>, w: World)
    requires Reached(conf, ls, w)
    ensures w.mem.availableMB + SumCharge(conf, w.boxes) + CleanupCharge(w.cleanup, conf.totalMB) == conf.totalMB
    ensures w.mem.availableMB >= 0
    ensures forall i :: 0 <= i < |w.boxes| ==> Charge(conf, w.boxes[i]) >= 0
    ensures w.inbox != [] ==> Enabled(w, MemTurn)
  {
    ReachedInv(conf, ls, w);
    forall i | 0 <= i < |w.boxes| ensures Charge(conf, w.boxes[i]) >= 0 {
      assert Local(w.boxes[i]);
      ChargePositive(conf, w.boxes[i]);
    }
    if w.inbox != [] {
      RequestFits(w, w.inbox[0]);
    }
  }

  lemma RequestFits(w: World, r: Req<Who>)
    requires Inv(w) && r in w.inbox
    ensures w.conf.totalMB + r.mb >= 0
  {
    assert r in multiset(w.inbox) + multiset(w.mem.waiting);
    if r in Wanted(w.conf, w.boxes) {
      WantedMember(w.conf, w.boxes, r);
      assert Local(w.boxes[r.who.id]) && w.boxes[r.who.id].limit <= w.conf.totalMB;
    } else {
      assert r in EvictorWants(w.evictor) || r in CleanupWants(w.cleanup, w.conf.totalMB);
    }
  }

  // ---------------------------------------------------------------- reference counts

  /** `p` is a proper ancestor of `c` by the links that successful forks set. */
  ghost predicate Ancestor(bs: seq<Box>, p: nat, c: nat)
    decreases c
  {
    && c < |bs| && bs[c].parent.Some? && bs[c].parent.value < c
    && (bs[c].parent.value == p || Ancestor(bs, p, bs[c].parent.value))
  }

  /** In every run: the count is one while not destroyed plus one per child, never negative,
      and the cgroup is killed exactly when it reaches zero. */
  lemma RefCounts(conf: Conf, ls: seq<Label>, w: World, i: nat)
    requires Reached(conf, ls, w) && i < |w.boxes|
    ensures var b := w.boxes[i];
      && b.refs == (if SelfHeld(b) then 1 else 0) + |b.children|
      && b.refs >= 0
      && (b.cg == Freed <==> b.refs == 0 && !b.phase.Kill?)
      && (forall c <- b.children :: i < c < |w.boxes| && w.boxes[c].from == Some(i))
  {
    ReachedInv(conf, ls, w);
    assert Local(w.boxes[i]) && Downward(Faces(w.boxes), i);
  }

  /** A sandbox is released only after all its descendants are. */
  lemma {:induction false} ReleasedAfterDescendants(conf: Conf, ls: seq<Label>, w: World, p: nat, c: nat)
    requires Reached(conf, ls, w) && p < |w.boxes| && w.boxes[p].cg == Freed && Ancestor(w.boxes, p, c)
    ensures w.boxes[c].cg == Freed && Exited(w.boxes[c])
    decreases c
  {
    ReachedInv(conf, ls, w);
    var q := w.boxes[c].parent.value;
    if q != p {
      ReleasedAfterDescendants(conf, ls, w, p, q);
    }
    ChildrenFirst(w.boxes, c);
  }

  lemma ChildrenFirst(bs: seq<Box>, c: nat)
    requires Tree(bs) && c < |bs| && bs[c].parent.Some? && bs[c].parent.value < c
    requires bs[bs[c].parent.value].cg == Freed
    ensures Exited(bs[c])
  {
    var q := bs[c].parent.value;
    assert Local(bs[q]) && Local(bs[c]) && Upward(Faces(bs), c);
    assert bs[q].children == {};
  }

  /** What is never undone: a release is final and happens at most once. */
  ghost predicate Persists(bs: seq<Box>, bs': seq<Box>) {
    |bs| <= |bs'| && forall i: nat :: i < |bs| ==>
      && (bs[i].cg == Freed ==> bs'[i].cg == Freed)
      && (bs[i].dead ==> bs'[i].dead)
      && (bs[i].parent.Some? ==> bs'[i].parent == bs[i].parent)
  }

  lemma {:induction false} DeliverAllPersists(w: World, served: seq<Req<Who>>, left: seq<int>)
    requires |served| == |left|
    ensures Persists(w.boxes, DeliverAll(w, served, left).boxes)
    decreases |served|
  {
    if served != [] {
      DeliverAllPersists(Deliver(w, served[0], left[0]), served[1..], left[1..]);
    }
  }

  lemma DoPersists(conf: Conf, b: Box, act: Act)
    requires Local(b) && Can(conf, b, act)
    ensures var d := Do(conf, b, act);
      (b.cg == Freed ==> d.cg == Freed) && (b.dead ==> d.dead) && d.parent == b.parent
  {
  }

  lemma PairPersists(bs: seq<Box>, act: PairAct, id: nat)
    requires Tree(bs) && PairCan(bs, act, id)
    ensures var t := PairDo(bs, act, id);
      t.p < t.i < |bs| && Persists(bs, Put2(bs, t.p, t.q, t.i, t.c))
  {
    PairTree(bs, act, id);
    PairPhases(bs, act, id);
    assert Local(bs[PairDo(bs, act, id).i]);
  }

  lemma SoloPersists(w: World, i: nat, act: Act)
    requires Tree(w.boxes) && SoloEnabled(w, i, act)
    ensures Persists(w.boxes, SoloNext(w, i, act).boxes)
  {
    SoloFields(w, i, act);
    assert Local(w.boxes[i]);
    DoPersists(w.conf, w.boxes[i], act);
  }

  lemma PersistsStep(w: World, l: Label)
    requires Tree(w.boxes) && Enabled(w, l)
    ensures Persists(w.boxes, Next(w, l).boxes)
  {
    match l {
      case Solo(i, act) => SoloPersists(w, i, act);
      case Pair(act2, id) => PairPersists(w.boxes, act2, id);
      case MemTurn =>
        var t := Turn(w.mem, w.inbox[0]);
        DeliverAllPersists(w.(mem := t.pool, inbox := w.inbox[1..]), t.served, t.left);
      case _ =>
    }
  }

  ghost predicate Released(w: World, i: nat) {
    Inv(w) && i < |w.boxes| && w.boxes[i].cg == Freed
  }

  lemma NotKilledAgain(w: World, i: nat)
    requires Released(w, i)
    ensures !SoloEnabled(w, i, KillCg)
  {
    assert Local(w.boxes[i]);
  }

  lemma StaysReleased(bs: seq<Box>, bs': seq<Box>, i: nat)
    requires Persists(bs, bs') && i < |bs| && bs[i].cg == Freed
    ensures i < |bs'| && bs'[i].cg == Freed
  {
  }

  lemma ReleasedStep(w: World, l: Label, i: nat)
    requires Released(w, i) && Enabled(w, l)
    ensures Released(Next(w, l), i) && l != Solo(i, KillCg)
  {
    var w' := Next(w, l);
    InvStep(w, l);
    PersistsStep(w, l);
    StaysReleased(w.boxes, w'.boxes, i);
    NotKilledAgain(w, i);
  }

  /** Once released, a sandbox stays released and is never killed again. */
  lemma {:induction false} ReleasedOnce(w: World, ls: seq<Label>, i: nat)
    requires Released(w, i) && Legal(w, ls)
    ensures Released(Run(w, ls), i)
    ensures forall k :: 0 <= k < |ls| ==> ls[k] != Solo(i, KillCg)
    decreases |ls|
  {
    if ls != [] {
      ReleasedStep(w, ls[0], i);
      ReleasedOnce(Next(w, ls[0]), ls[1..], i);
      Uncons(ls, Solo(i, KillCg));
    }
  }

  lemma Uncons(ls: seq<Label>, l: Label)
    requires ls != [] && ls[0] != l && forall k :: 0 <= k < |ls[1..]| ==> ls[1..][k] != l
    ensures forall k :: 0 <= k < |ls| ==> ls[k] != l
  {
    forall k | 0 <= k < |ls| ensures ls[k] != l {
      assert k > 0 ==> ls[k] == ls[1..][k - 1];
    }
  }

  /** Everything was destroyed and no operation is in progress. */
  ghost predicate AllDestroyed(w: World) {
    forall i: nat :: i < |w.boxes| ==> w.boxes[i].dead && w.boxes[i].phase == Idle
  }

  ghost predicate AllReleased(w: World) {
    forall i: nat :: i < |w.boxes| ==> w.boxes[i].cg == Freed
  }

  /** A fork fails after it has raised its parent's count. */
  predicate FailsFork(l: Label) {
    l.Pair? && l.act2 == ForkFail
  }

  /** Children counted by a sandbox that will never tell it of their exit: counted, not
      successfully forked, and not being forked. */
  function Strays(b: Box): set<nat> {
    b.children - b.kids - (if b.phase.ForkRun? then {b.phase.child} else {})
  }

  ghost predicate Strayed(bs: seq<Box>) {
    exists i: nat :: i < |bs| && Strays(bs[i]) != {}
  }

  ghost predicate SameStrays(bs: seq<Box>, bs': seq<Box>) {
    && |bs| <= |bs'|
    && (forall i :: 0 <= i < |bs| ==> Strays(bs'[i]) == Strays(bs[i]))
    && (forall i :: |bs| <= i < |bs'| ==> Strays(bs'[i]) == {})
  }

  lemma SameStrayed(bs: seq<Box>, bs': seq<Box>)
    requires SameStrays(bs, bs')
    ensures Strayed(bs') <==> Strayed(bs)
  {
    if Strayed(bs) {
      var i: nat :| i < |bs| && Strays(bs[i]) != {};
      assert Strays(bs'[i]) != {};
    }
  }

  lemma DoStrays(conf: Conf, b: Box, act: Act)
    requires Can(conf, b, act)
    ensures Strays(Do(conf, b, act)) == Strays(b)
  {
  }

  lemma {:induction false} DeliverAllStrays(w: World, served: seq<Req<Who>>, left: seq<int>)
    requires |served| == |left|
    ensures SameStrays(w.boxes, DeliverAll(w, served, left).boxes)
    decreases |served|
  {
    if served != [] {
      var w1 := Deliver(w, served[0], left[0]);
      assert SameStrays(w.boxes, w1.boxes);
      DeliverAllStrays(w1, served[1..], left[1..]);
    }
  }

  lemma ForkRaiseStrays(p: Box, i: nat)
    requires p.phase == Idle && i !in p.children
    ensures Strays(ForkRaise(p, i)) == Strays(p)
  {
  }

  lemma ForkDoneStrays(p: Box, i: nat)
    requires p.phase == ForkRun(i)
    ensures Strays(ForkDone(p, i)) == Strays(p)
  {
  }

  lemma ForkFailStrays(p: Box, i: nat)
    requires p.phase == ForkRun(i) && i in p.children && i !in p.kids
    ensures Strays(p.(phase := Idle)) == Strays(p) + {i}
  {
  }

  lemma ChildExitStrays(p: Box, i: nat)
    requires p.phase == Idle && i in p.kids
    ensures Strays(ChildExit(p, i)) == Strays(p)
  {
  }

  /** A child to be forked is not among the children yet. */
  lemma NotYetChild(bs: seq<Box>, p: nat, i: nat)
    requires Tree(bs) && p < |bs| && i < |bs| && bs[i].phase == NewProc
    ensures i !in bs[p].children
  {
    assert Downward(Faces(bs), p) && FaceOf(bs[i]).unborn;
  }

  lemma ParentStrays(bs: seq<Box>, act: PairAct, t: Two)
    requires Tree(bs) && t.p < |bs| && t.i < |bs| && PairStands(bs, act, t) && ParentBecomes(bs, act, t) && act != ForkFail
    ensures Strays(t.q) == Strays(bs[t.p])
  {
    if act == ForkBegin {
      NotYetChild(bs, t.p, t.i);
      ForkRaiseStrays(bs[t.p], t.i);
    } else if act == ForkOk {
      ForkDoneStrays(bs[t.p], t.i);
    } else if act == ExitCall {
      ChildExitStrays(bs[t.p], t.i);
    }
  }

  lemma FailedStrays(bs: seq<Box>, t: Two)
    requires Tree(bs) && t.p < |bs| && t.i < |bs| && PairStands(bs, ForkFail, t) && ParentBecomes(bs, ForkFail, t)
    ensures t.i in Strays(t.q)
  {
    assert Local(bs[t.p]);
    ForkFailStrays(bs[t.p], t.i);
  }

  predicate ParentBecomes(bs: seq<Box>, act: PairAct, t: Two)
    requires t.p < |bs| && t.i < |bs|
  {
    match act
    case ForkBegin => t.q == ForkRaise(bs[t.p], t.i)
    case ForkOk => t.q == ForkDone(bs[t.p], t.i)
    case ForkFail => t.q == bs[t.p].(phase := Idle)
    case ExitCall => t.q == ChildExit(bs[t.p], t.i)
    case FinishExit => t.q == bs[t.p].(phase := Idle)
  }

  lemma ChildStrays(bs: seq<Box>, act: PairAct, id: nat)
    requires Tree(bs) && PairCan(bs, act, id)
    ensures var t := PairDo(bs, act, id);
      t.p < |bs| && t.i < |bs| && t.p != t.i && PairStands(bs, act, t) && ParentBecomes(bs, act, t) && Strays(t.c) == Strays(bs[t.i])
  {
    PairTree(bs, act, id);
    PairPhases(bs, act, id);
  }

  lemma PairStrayed(w: World, act: PairAct, id: nat)
    requires Tree(w.boxes) && PairCan(w.boxes, act, id)
    ensures PairDo(w.boxes, act, id).p < |w.boxes| && PairDo(w.boxes, act, id).i < |w.boxes|
    ensures Strayed(PairNext(w, PairDo(w.boxes, act, id)).boxes) <==> Strayed(w.boxes) || act == ForkFail
  {
    var t := PairDo(w.boxes, act, id);
    var bs' := w.boxes[t.p := t.q][t.i := t.c];
    ChildStrays(w.boxes, act, id);
    if act == ForkFail {
      FailedStrays(w.boxes, t);
      assert t.i in Strays(bs'[t.p]);
    } else {
      ParentStrays(w.boxes, act, t);
      SameStrayed(w.boxes, bs');
    }
  }

  lemma SoloStrayed(w: World, i: nat, act: Act)
    requires SoloEnabled(w, i, act)
    ensures Strayed(SoloNext(w, i, act).boxes) <==> Strayed(w.boxes)
  {
    SoloFields(w, i, act);
    DoStrays(w.conf, w.boxes[i], act);
    SameStrayed(w.boxes, SoloNext(w, i, act).boxes);
  }

  lemma OtherStrayed(w: World, l: Label)
    requires Enabled(w, l) && !l.Solo? && !l.Pair?
    ensures Strayed(Next(w, l).boxes) <==> Strayed(w.boxes)
  {
    if l.MemTurn? {
      var t := Turn(w.mem, w.inbox[0]);
      DeliverAllStrays(w.(mem := t.pool, inbox := w.inbox[1..]), t.served, t.left);
    }
    SameStrayed(w.boxes, Next(w, l).boxes);
  }

  lemma StrayedStep(w: World, l: Label)
    requires Tree(w.boxes) && Enabled(w, l)
    ensures Strayed(Next(w, l).boxes) <==> Strayed(w.boxes) || FailsFork(l)
  {
    if l.Solo? {
      SoloStrayed(w, l.id, l.act);
    } else if l.Pair? {
      PairStrayed(w, l.act2, l.id);
    } else {
      OtherStrayed(w, l);
    }
  }

  /** Over every run, some sandbox counts a child that will never exit exactly when a fork has
      failed after the increment. */
  lemma {:induction false} StrayedIff(w: World, ls: seq<Label>)
    requires Inv(w) && Legal(w, ls)
    ensures Strayed(Run(w, ls).boxes) <==> Strayed(w.boxes) || exists k :: 0 <= k < |ls| && FailsFork(ls[k])
    decreases |ls|
  {
    if ls != [] {
      StrayedStep(w, ls[0]);
      InvStep(w, ls[0]);
      StrayedIff(Next(w, ls[0]), ls[1..]);
      FailsForkCons(ls);
    }
  }

  lemma FailsForkCons(ls: seq<Label>)
    requires ls != []
    ensures (exists k :: 0 <= k < |ls| && FailsFork(ls[k])) <==>
            FailsFork(ls[0]) || exists k :: 0 <= k < |ls[1..]| && FailsFork(ls[1..][k])
  {
    forall k | 0 < k < |ls| ensures ls[1..][k - 1] == ls[k] {
    }
  }

  /** Destroying every sandbox releases everything, and returns all memory, if and only if
      no fork failed after it had raised its parent's count. */
  lemma AllReleasedIff(conf: Conf, ls: seq<Label>, w: World)
    requires Reached(conf, ls, w) && AllDestroyed(w)
    ensures AllReleased(w) <==> forall k :: 0 <= k < |ls| ==> !FailsFork(ls[k])
    ensures AllReleased(w) && w.cleanup == NotCalled ==> w.mem.availableMB == conf.totalMB
  {
    ReachedInv(conf, ls, w);
    InitInv(conf);
    StrayedIff(Init(conf), ls);
    ReleasedUnlessStrayed(w);
    if AllReleased(w) {
      NoCharge(conf, w.boxes);
    }
  }

  lemma ReleasedUnlessStrayed(w: World)
    requires Inv(w) && AllDestroyed(w)
    ensures AllReleased(w) <==> !Strayed(w.boxes)
  {
    if !Strayed(w.boxes) {
      forall i: nat | i < |w.boxes| ensures w.boxes[i].cg == Freed {
        ReleasedFromTop(w, i);
      }
    }
    if AllReleased(w) {
      forall i: nat | i < |w.boxes| ensures Strays(w.boxes[i]) == {} {
        assert Local(w.boxes[i]);
      }
    }
  }

  lemma {:induction false} ReleasedFromTop(w: World, i: nat)
    requires Inv(w) && AllDestroyed(w) && !Strayed(w.boxes) && i < |w.boxes|
    ensures w.boxes[i].cg == Freed
    decreases |w.boxes| - i
  {
    var b := w.boxes[i];
    assert Local(b) && Downward(Faces(w.boxes), i) && Strays(b) == {};
    if b.children != {} {
      var c :| c in b.children;
      assert c !in Strays(b);
      assert c in b.kids && FaceOf(w.boxes[c]).owing;
      ReleasedFromTop(w, c);
    }
  }

  lemma {:induction false} NoCharge(conf: Conf, bs: seq<Box>)
    requires forall i: nat :: i < |bs| ==> bs[i].cg == Freed && bs[i].phase == Idle
    ensures SumCharge(conf, bs) == 0
    decreases |bs|
  {
    if bs != [] {
      NoCharge(conf, bs[..|bs| - 1]);
    }
  }

  // -------------------------------------------------------------------- delayed view

  /** Reading the rest of the channel never makes the evictor panic, and leaves it with the
      priorities that all events add up to. */
  lemma {:induction false} DrainsToTruth(w: World)
    requires EvTruthful(w)
    ensures Drains(w.view, w.sent[w.taken..])
    ensures forall i: nat :: Follows(After(w.view, w.sent[w.taken..]), i, TrackOf(w.sent, i))
    decreases |w.sent| - w.taken
  {
    var rest := w.sent[w.taken..];
    if rest == [] {
      assert w.sent[..w.taken] == w.sent;
    } else {
      TakeWatching(w);
      var w' := w.(view := Observe(w.view, w.sent[w.taken]), taken := w.taken + 1);
      assert w'.sent[w'.taken..] == rest[1..];
      DrainsToTruth(w');
    }
  }

  /** Between the announcement of an Unpause and its end. */
  predicate Waking(phase: Phase) {
    phase == WakeSaid || phase == WakeAsk || phase == WakeGranted || phase == WakeThaw
  }

  /** In every run, for every live sandbox and whatever operation is in progress on it: the
      evictor's priority with the queued events applied is 2 per successfully forked child
      whose exit has not been announced yet, plus one while it counts as awake, which is from
      the announcement of an Unpause to the end of a Pause. A destroy in progress leaves it
      as it was. A sandbox never published or already dead is not tracked. */
  lemma DelayedView(conf: Conf, ls: seq<Label>, w: World, i: nat)
    requires Reached(conf, ls, w) && i < |w.boxes|
    ensures w.taken <= |w.sent| && Valid(w.view) && Drains(w.view, w.sent[w.taken..])
    ensures var b := w.boxes[i]; var v := After(w.view, w.sent[w.taken..]);
      && (b.published && !b.dead ==>
            i in v.priority
            && v.priority[i] == 2 * (|b.kids| + (if ExitingChild(b.phase).Some? then 1 else 0)) + (if b.awake then 1 else 0))
      && (b.published && !b.dead && !IsDying(b) ==> (b.awake <==> !b.paused || Waking(b.phase)))
      && (!b.published || b.dead ==> i !in v.priority)
  {
    ReachedInv(conf, ls, w);
    DrainsToTruth(w);
    assert Local(w.boxes[i]);
    assert Follows(After(w.view, w.sent[w.taken..]), i, TrackOf(w.sent, i));
  }

  /** While its lock is free, that is 2 per child plus one if it is not paused. */
  lemma IdleView(conf: Conf, ls: seq<Label>, w: World, i: nat)
    requires Reached(conf, ls, w) && i < |w.boxes|
    requires w.boxes[i].published && !w.boxes[i].dead && w.boxes[i].phase == Idle
    ensures w.taken <= |w.sent| && Valid(w.view) && Drains(w.view, w.sent[w.taken..])
    ensures var v := After(w.view, w.sent[w.taken..]);
      i in v.priority && v.priority[i] == 2 * |w.boxes[i].kids| + (if w.boxes[i].paused then 0 else 1)
  {
    DelayedView(conf, ls, w, i);
  }

  /** In every run: neither panic of updateState is reachable, every tracked sandbox is on
      exactly one list, which is `evicting` or the queue of its priority, and at most eight
      evictions are in flight. */
  lemma EvictorNeverPanics(conf: Conf, ls: seq<Label>, w: World)
    requires Reached(conf, ls, w)
    ensures w.taken <= |w.sent| && (w.taken < |w.sent| ==> !Panics(w.view, w.sent[w.taken]))
    ensures Valid(w.view)
    ensures |w.view.lists[EVICTING]| <= 8
  {
    ReachedInv(conf, ls, w);
    if w.taken < |w.sent| {
      NoPanic(w);
    }
  }

  /** In every run, the events of a sandbox start with EvCreate, and none follows its
      EvDestroy. */
  lemma NothingAfterDestroy(conf: Conf, ls: seq<Label>, w: World, j: nat, k: nat)
    requires Reached(conf, ls, w) && j < k < |w.sent| && w.sent[j].sb == w.sent[k].sb
    ensures w.sent[j].kind != EvDestroy && w.sent[k].kind != EvCreate
  {
    ReachedInv(conf, ls, w);
    var sb := w.sent[j].sb;
    if sb < |w.boxes| { ShownGood(w.boxes[sb]); }
    DestroyIsLast(w.sent, j, k);
    CreateIsFirst(w.sent, j, k);
  }

  lemma DestroyIsLast(sent: seq<Event>, j: nat, k: nat)
    requires j < k < |sent| && sent[j].sb == sent[k].sb && TrackOf(sent, sent[j].sb) != Bad
    ensures sent[j].kind != EvDestroy
  {
    var sb := sent[j].sb;
    TrackPrefix(sent, j + 1, sb);
    assert sent[..j + 1] == sent[..j] + [sent[j]];
    TrackSnoc(sent[..j], sent[j], sb);
    if sent[j].kind == EvDestroy {
      TrackEnded(sent, j + 1, sb);
    }
  }

  lemma CreateIsFirst(sent: seq<Event>, j: nat, k: nat)
    requires j < k < |sent| && sent[j].sb == sent[k].sb && TrackOf(sent, sent[j].sb) != Bad
    ensures sent[k].kind != EvCreate
  {
    var sb := sent[j].sb;
    var before := sent[..k];
    TrackPrefix(sent, k + 1, sb);
    assert sent[..k + 1] == before + [sent[k]];
    TrackSnoc(before, sent[k], sb);
    assert before[..j + 1] == sent[..j] + [sent[j]];
    TrackSnoc(sent[..j], sent[j], sb);
    AdvanceSeen(TrackOf(sent[..j], sb), sent[j].kind);
    TrackStarted(before, j + 1, sb);
  }

  lemma AdvanceSeen(t: Track, kind: Kind)
    ensures Advance(t, kind) != Unseen
  {
  }

  // ---------------------------------------------------------------- no stuck eviction

  lemma {:induction false} EndedInSuffix(sent: seq<Event>, n: nat, i: nat) returns (k: nat)
    requires n <= |sent| && TrackOf(sent[..n], i) != Ended && TrackOf(sent, i) == Ended
    ensures n <= k < |sent| && sent[k] == Event(EvDestroy, i)
    decreases |sent|
  {
    assert sent[..|sent|] == sent;
    var init := sent[..|sent| - 1];
    if TrackOf(init, i) == Ended {
      assert init[..n] == sent[..n];
      k := EndedInSuffix(init, n, i);
    } else {
      k := |sent| - 1;
    }
  }

  /** In every run, for every sandbox on `evicting`: its destroy goroutine has not run, or a
      destroy or an ignored destroy holds its lock, or an EvDestroy or EvDestroyIgnored for it
      is in the channel. */
  lemma NoStuckEviction(conf: Conf, ls: seq<Label>, w: World, i: nat)
    requires Reached(conf, ls, w) && |w.view.lists| == 4 && i in w.view.lists[EVICTING]
    ensures i < |w.boxes|
    ensures || HasTask(w, i) || IsDying(w.boxes[i]) || w.boxes[i].phase == Ignoring
            || InChannel(w, EvDestroy, i) || InChannel(w, EvDestroyIgnored, i)
  {
    ReachedInv(conf, ls, w);
    assert Linked(w.view, EVICTING) && Placed(w.view, i);
    TrackedPublished(w, i);
    assert Underway(w, i);
    if w.boxes[i].dead {
      assert Follows(w.view, i, TrackOf(w.sent[..w.taken], i));
      var k := EndedInSuffix(w.sent, w.taken, i);
    }
  }

  // ---------------------------------------------------------------- eviction policy

  /** In every run: a pass does exactly what the policy says, to the view the evictor has and the
      free memory it was told. It evicts paused sandboxes, oldest first, until there are none,
      eight evictions are in flight or enough is free; it forces out the oldest running sandbox
      without children exactly when it found nothing paused, no eviction in flight and less
      free memory than one sandbox needs; it never touches sandboxes with children. */
  lemma EvictionPolicy(conf: Conf, ls: seq<Label>, w: World) returns (n: nat, goal: int)
    requires Reached(conf, ls, w) && Enabled(w, EvDecide)
    ensures w.evictor.left >= 0 && |w.view.lists| == 4 && conf.memMB > 0
    ensures w.tasks <= Next(w, EvDecide).tasks
    ensures var d := Decision(Next(w, EvDecide).view, Next(w, EvDecide).tasks[|w.tasks|..]);
      && Passes(w.view, w.evictor.left, conf.totalMB, conf.memMB, d, n, goal)
      && (forall t <- d.tasks :: t.sb !in w.view.lists[2])
  {
    ReachedInv(conf, ls, w);
    n, goal := PassExactly(w.view, w.evictor.left, conf.totalMB, conf.memMB);
    Policy(w.view, w.evictor.left, conf.totalMB, conf.memMB);
    assert Linked(w.view, 0) && Linked(w.view, 1) && Linked(w.view, 2);
    var d := Decide(w.view, w.evictor.left, conf.totalMB, conf.memMB);
    assert (w.tasks + d.tasks)[|w.tasks|..] == d.tasks;
  }

  // ------------------------------------------------------------------ clean shutdown

  /** In every run: no cgroup is destroyed twice or while a sandbox uses it, and when Cleanup
      has returned every cgroup ever created has been destroyed exactly once. */
  lemma CleanShutdown(conf: Conf, ls: seq<Label>, w: World, name: nat)
    requires Reached(conf, ls, w)
    ensures Occurs(w.cgs.destroyed, name) + InUse(w.boxes, name) <= 1
    ensures w.cleanup == Done ==> Occurs(w.cgs.destroyed, name) == if name < w.cgs.created then 1 else 0
  {
    ReachedInv(conf, ls, w);
    assert InPool(w.cgs, name) + InUse(w.boxes, name) == if name < w.cgs.created then 1 else 0;
    if w.cleanup == Done {
      ShutdownDestroys(w, name);
    }
  }
}
