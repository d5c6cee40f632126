/** Bounded retries up the tree, and no deadlock among the node mutexes. */
module ZygoteProgress {
  import opened Common
  import opened ZygoteHolds
  import opened ZygoteCounts
  import opened ZygoteTheorems

  function Depth(up: seq<nat>, n: nat): nat
    requires WellUp(up) && n < |up|
  {
    if n == 0 then 0 else 1 + Depth(up, up[n])
  }

  predicate Retries(f: Frame) {
    f.pc.Putting? && f.pc.out == ForkFailed && !f.isNew
  }

  /** How many pool Create calls a call at depth `d` may still make itself or through the
      parent call it has not yet made. */
  function CreatesLeft(f: Frame, d: nat): nat {
    match f.pc
    case Want => if f.attempt == 0 then 2 * d + 3 else 2 * d + 2
    case Slow => 2 * d + 2
    case Waiting => 1
    case Creating => if f.isNew then 1 else 2 * d + 3
    case Putting(_) => if Retries(f) then 2 * d + 2 else 0
  }

  /** The same for steps of any kind. */
  function StepsLeft(f: Frame, d: nat): nat {
    match f.pc
    case Want => if f.attempt == 0 then 8 * d + 7 else 8 * d + 4
    case Slow => 8 * d + 3
    case Waiting => 3
    case Creating => if f.isNew then 2 else 8 * d + 6
    case Putting(_) => if Retries(f) then 8 * d + 5 else 1
  }

  function AllCreates(up: seq<nat>, stack: seq<Frame>): nat
    requires WellUp(up) && forall i :: 0 <= i < |stack| ==> stack[i].node < |up|
  {
    if stack == [] then 0
    else AllCreates(up, stack[..|stack| - 1]) + CreatesLeft(stack[|stack| - 1], Depth(up, stack[|stack| - 1].node))
  }

  function AllSteps(up: seq<nat>, stack: seq<Frame>): nat
    requires WellUp(up) && forall i :: 0 <= i < |stack| ==> stack[i].node < |up|
  {
    if stack == [] then 0
    else AllSteps(up, stack[..|stack| - 1]) + StepsLeft(stack[|stack| - 1], Depth(up, stack[|stack| - 1].node))
  }

  /** The step uses up one of the steps left, and no more Create calls than it makes. */
  ghost predicate Spends(up: seq<nat>, th: Caller, th': Caller)
    requires WellUp(up) && Chain(up, th.stack)
  {
    && Chain(up, th'.stack) && th'.start == th.start
    && th'.creates + AllCreates(up, th'.stack) <= th.creates + AllCreates(up, th.stack)
    && AllSteps(up, th'.stack) < AllSteps(up, th.stack)
  }

  lemma SetTopSpends(up: seq<nat>, th: Caller, th': Caller, f: Frame)
    requires WellUp(up) && Chain(up, th.stack) && th.stack != [] && f.node == Top(th).node
    requires th'.stack == SetTop(th, f).stack && th'.start == th.start
    requires th'.creates + CreatesLeft(f, Depth(up, f.node)) <= th.creates + CreatesLeft(Top(th), Depth(up, f.node))
    requires StepsLeft(f, Depth(up, f.node)) < StepsLeft(Top(th), Depth(up, f.node))
    ensures Spends(up, th, th')
  {
    SetTopChain(up, th, f);
    assert th'.stack[..|th.stack| - 1] == th.stack[..|th.stack| - 1];
  }

  lemma ReturnSpends(up: seq<nat>, th: Caller, th': Caller, out: Outcome)
    requires WellUp(up) && Chain(up, th.stack) && th.stack != []
    requires th' == Return(th.(creates := th'.creates), out)
    requires th'.creates <= th.creates + CreatesLeft(Top(th), Depth(up, Top(th).node))
    ensures Spends(up, th, th')
  {
    ReturnChain(up, th, out);
  }

  lemma OpenedSums(up: seq<nat>, s: seq<Frame>, f: Frame)
    requires WellUp(up) && f.node < |up| && forall i :: 0 <= i < |s| ==> s[i].node < |up|
    ensures AllCreates(up, s + [f]) == AllCreates(up, s) + CreatesLeft(f, Depth(up, f.node))
    ensures AllSteps(up, s + [f]) == AllSteps(up, s) + StepsLeft(f, Depth(up, f.node))
  {
    assert (s + [f])[..|s|] == s;
  }

  /** Frame `f` gives way to `g` and, above it, `h`. */
  lemma PushSums(up: seq<nat>, s: seq<Frame>, f: Frame, g: Frame, h: Frame)
    requires WellUp(up) && f.node < |up| && g.node == f.node && h.node < |up|
    requires forall i :: 0 <= i < |s| ==> s[i].node < |up|
    ensures AllCreates(up, s + [g] + [h]) - AllCreates(up, s + [f])
            == CreatesLeft(g, Depth(up, g.node)) + CreatesLeft(h, Depth(up, h.node)) - CreatesLeft(f, Depth(up, f.node))
    ensures AllSteps(up, s + [g] + [h]) - AllSteps(up, s + [f])
            == StepsLeft(g, Depth(up, g.node)) + StepsLeft(h, Depth(up, h.node)) - StepsLeft(f, Depth(up, f.node))
  {
    OpenedSums(up, s, f);
    OpenedSums(up, s, g);
    OpenedSums(up, s + [g], h);
  }

  lemma OpenSpends(up: seq<nat>, th: Caller, th': Caller, s: seq<Frame>, f: Frame, g: Frame, h: Frame)
    requires WellUp(up) && Chain(up, th.stack) && Chain(up, th'.stack)
    requires th.stack == s + [f] && th'.stack == s + [g] + [h] && g.node == f.node
    requires th'.start == th.start && th'.creates == th.creates && f.node < |up| && h.node < |up|
    requires CreatesLeft(g, Depth(up, g.node)) + CreatesLeft(h, Depth(up, h.node)) <= CreatesLeft(f, Depth(up, f.node))
    requires StepsLeft(g, Depth(up, g.node)) + StepsLeft(h, Depth(up, h.node)) < StepsLeft(f, Depth(up, f.node))
    ensures Spends(up, th, th')
  {
    forall i | 0 <= i < |s| ensures s[i].node < |up| {
      assert s[i] == th.stack[i];
    }
    PushSums(up, s, f, g, h);
  }

  lemma PushChain(up: seq<nat>, th: Caller, g: Frame)
    requires WellUp(up) && Chain(up, th.stack) && th.stack != [] && Top(th).node > 0
    requires g.node == Top(th).node && g.pc == Waiting
    ensures Chain(up, Opened(SetTop(th, g), Attempt(up[g.node])).stack)
  {
    SetTopChain(up, th, g);
  }

  lemma PushSpends(up: seq<nat>, th: Caller)
    requires WellUp(up) && Chain(up, th.stack) && th.stack != [] && Top(th).pc == Slow && Top(th).node > 0
    ensures Spends(up, th, Climb(up, th))
  {
    var f := Top(th);
    var g := f.(pc := Waiting, recursions := f.recursions + 1);
    var h := Attempt(up[f.node]);
    PushChain(up, th, g);
    OpenSpends(up, th, Opened(SetTop(th, g), h), th.stack[..|th.stack| - 1], f, g, h);
  }

  lemma GetSpends(up: seq<nat>, k: nat, l: Local, ok: bool)
    requires WellUp(up) && CallerOk(up, l.bs, l.th) && Can(l, Get(ok))
    ensures Spends(up, l.th, GetStep(k, l, ok).th)
  {
    var th' := GetStep(k, l, ok).th;
    if |th'.stack| < |l.th.stack| {
      ReturnSpends(up, l.th, th', Failed);
    } else {
      SetTopSpends(up, l.th, th', Top(th'));
    }
  }

  lemma CreateSpends(up: seq<nat>, k: nat, l: Local, res: Result)
    requires WellUp(up) && CallerOk(up, l.bs, l.th) && Can(l, Create(res))
    ensures Spends(up, l.th, CreateStep(k, l, res).th)
  {
    var th' := CreateStep(k, l, res).th;
    SetTopSpends(up, l.th, th', Top(th'));
  }

  lemma PutSpends(up: seq<nat>, bs: seq<Box>, th: Caller)
    requires WellUp(up) && CallerOk(up, bs, th) && th.stack != [] && Top(th).pc.Putting?
    ensures Spends(up, th, AfterPut(th))
  {
    var f := Top(th);
    if Retries(f) {
      SetTopSpends(up, th, AfterPut(th), Retry(f));
    } else {
      ReturnSpends(up, th, AfterPut(th), f.pc.out);
    }
  }

  lemma SlowSpends(up: seq<nat>, k: nat, l: Local, a: Act)
    requires WellUp(up) && CallerOk(up, l.bs, l.th) && Can(l, a) && (a.InstallFails? || a.RootCreate? || a.Deliver?)
    ensures Spends(up, l.th, Do(up, k, l, a).th)
  {
    var th' := Do(up, k, l, a).th;
    if |th'.stack| < |l.th.stack| {
      ReturnSpends(up, l.th, th', th'.ret.value);
    } else {
      SetTopSpends(up, l.th, th', Top(th'));
    }
  }

  lemma PutStepSpends(up: seq<nat>, k: nat, l: Local, a: Act)
    requires WellUp(up) && CallerOk(up, l.bs, l.th) && Can(l, a) && a.Put?
    ensures Spends(up, l.th, Do(up, k, l, a).th)
  {
    PutSpends(up, l.bs, l.th);
    assert Do(up, k, l, a).th == AfterPut(l.th);
  }

  lemma PushStepSpends(up: seq<nat>, k: nat, l: Local, a: Act)
    requires WellUp(up) && CallerOk(up, l.bs, l.th) && Can(l, a) && a.Push?
    ensures Spends(up, l.th, Do(up, k, l, a).th)
  {
    PushSpends(up, l.th);
  }

  lemma FastSpends(up: seq<nat>, k: nat, l: Local, a: Act)
    requires WellUp(up) && CallerOk(up, l.bs, l.th) && Can(l, a) && (a.Get? || a.Create?)
    ensures Spends(up, l.th, Do(up, k, l, a).th)
  {
    if a.Get? {
      GetSpends(up, k, l, a.ok);
    } else {
      CreateSpends(up, k, l, a.res);
    }
  }

  lemma StepSpends(up: seq<nat>, k: nat, l: Local, a: Act)
    requires WellUp(up) && CallerOk(up, l.bs, l.th) && Can(l, a)
    ensures Spends(up, l.th, Do(up, k, l, a).th)
  {
    if a.Put? {
      PutStepSpends(up, k, l, a);
    } else if a.Push? {
      PushStepSpends(up, k, l, a);
    } else if a.Get? || a.Create? {
      FastSpends(up, k, l, a);
    } else {
      SlowSpends(up, k, l, a);
    }
  }

  // ------------------------------------------------------------------ over whole runs

  /** How many of the steps are goroutine `k`'s. */
  function StepsOf(ls: seq<Label>, k: nat): nat {
    if ls == [] then 0 else (if ls[0].Step? && ls[0].k == k then 1 else 0) + StepsOf(ls[1..], k)
  }

  /** How many of them are its pool Create calls. */
  function CreatesOf(ls: seq<Label>, k: nat): nat {
    if ls == [] then 0
    else (if ls[0].Step? && ls[0].k == k && (ls[0].act.Create? || ls[0].act.RootCreate?) then 1 else 0) + CreatesOf(ls[1..], k)
  }

  lemma CreatesStep(w: World, l: Label, k: nat)
    requires Enabled(w, l)
    ensures k < |Next(w, l).callers| ==>
      Next(w, l).callers[k].creates ==
        (if k < |w.callers| then w.callers[k].creates else 0) + CreatesOf([l], k)
  {
    assert [l][1..] == [];
  }

  lemma {:induction false} CreatesCounted(w: World, ls: seq<Label>, k: nat)
    requires Legal(w, ls) && k < |Run(w, ls).callers|
    ensures Run(w, ls).callers[k].creates == (if k < |w.callers| then w.callers[k].creates else 0) + CreatesOf(ls, k)
    decreases |ls|
  {
    if ls != [] {
      CreatesStep(w, ls[0], k);
      CreatesCounted(Next(w, ls[0]), ls[1..], k);
      assert CreatesOf([ls[0]], k) + CreatesOf(ls[1..], k) == CreatesOf(ls, k) by {
        assert [ls[0]][1..] == [];
      }
      if k >= |w.callers| {
        NoStepsYet(w, ls[0], k);
      }
    }
  }

  /** A goroutine that has not begun takes no step. */
  lemma NoStepsYet(w: World, l: Label, k: nat)
    requires Enabled(w, l) && k >= |w.callers|
    ensures CreatesOf([l], k) == 0
  {
    assert [l][1..] == [];
  }

  /** What goroutine `k` may still do is at most what it could before the step. */
  lemma LabelSpends(w: World, l: Label, k: nat)
    requires Inv(w) && Enabled(w, l) && k < |w.callers|
    ensures k < |Next(w, l).callers| && Next(w, l).up == w.up
    ensures if l.Step? && l.k == k then Spends(w.up, w.callers[k], Next(w, l).callers[k])
            else Next(w, l).callers[k] == w.callers[k]
  {
    if l.Step? && l.k == k {
      StepSpends(w.up, k, Here(w, k), l.act);
    }
  }

  /** The bounds for goroutine `k`, given `done` steps taken. */
  ghost predicate Bounded(w: World, k: nat, done: nat)
    requires Inv(w)
  {
    k < |w.callers| ==>
      var th := w.callers[k];
      && CallerOk(w.up, w.boxes, th)
      && th.creates + AllCreates(w.up, th.stack) <= 2 * Depth(w.up, th.start) + 3
      && done + AllSteps(w.up, th.stack) <= 8 * Depth(w.up, th.start) + 7
  }

  lemma BoundedStep(w: World, l: Label, k: nat, done: nat)
    requires Inv(w) && Enabled(w, l) && Bounded(w, k, done) && (k >= |w.callers| ==> done == 0)
    ensures Inv(Next(w, l)) && Bounded(Next(w, l), k, done + (if l.Step? && l.k == k then 1 else 0))
  {
    InvStep(w, l);
    var w' := Next(w, l);
    if k < |w.callers| {
      LabelSpends(w, l, k);
      assert CallerOk(w'.up, w'.boxes, w'.callers[k]);
    } else if k < |w'.callers| {
      NewCaller(w, l, k);
    }
  }

  lemma NewCaller(w: World, l: Label, k: nat)
    requires Inv(w) && Enabled(w, l) && Inv(Next(w, l)) && |w.callers| <= k < |Next(w, l).callers|
    ensures l.Call? && Bounded(Next(w, l), k, 0)
  {
    var w' := Next(w, l);
    var f := Attempt(l.node);
    assert w'.callers[k].stack == [f] && [f][..0] == [];
    assert CallerOk(w'.up, w'.boxes, w'.callers[k]);
    assert AllCreates(w'.up, [f]) == CreatesLeft(f, Depth(w'.up, l.node));
    assert AllSteps(w'.up, [f]) == StepsLeft(f, Depth(w'.up, l.node));
  }

  lemma {:induction false} BoundedRun(w: World, ls: seq<Label>, k: nat, done: nat)
    requires Inv(w) && Legal(w, ls) && Bounded(w, k, done) && (k >= |w.callers| ==> done == 0)
    ensures Inv(Run(w, ls)) && Bounded(Run(w, ls), k, done + StepsOf(ls, k))
    decreases |ls|
  {
    if ls != [] {
      BoundedStep(w, ls[0], k, done);
      BoundedRun(Next(w, ls[0]), ls[1..], k, done + (if ls[0].Step? && ls[0].k == k then 1 else 0));
    }
  }

  /** For a node at depth d, ImportCache.Create makes at most 2d + 3 pool Create calls and
      takes at most 8d + 7 steps, whatever fails and whatever other goroutines do. */
  lemma BoundedRetry(up: seq<nat>, ls: seq<Label>, w: World, k: nat)
    requires Reached(up, ls, w) && k < |w.callers|
    ensures w.callers[k].start < |up|
    ensures CreatesOf(ls, k) <= 2 * Depth(up, w.callers[k].start) + 3
    ensures StepsOf(ls, k) <= 8 * Depth(up, w.callers[k].start) + 7
  {
    BoundedRun(Start(up), ls, k, 0);
    CreatesCounted(Start(up), ls, k);
    SameTree(Start(up), ls);
  }

  lemma {:induction false} SameTree(w: World, ls: seq<Label>)
    requires Legal(w, ls)
    ensures Run(w, ls).up == w.up
    decreases |ls|
  {
    if ls != [] {
      SameTree(Next(w, ls[0]), ls[1..]);
    }
  }

  // ------------------------------------------------------------------ no deadlock

  /** The goroutine `h` whose lock goroutine `k` waits for: `k` wants to get or put a Zygote at a
      node in whose slow path `h` is. */
  ghost predicate WaitsFor(w: World, k: nat, h: nat) {
    && Placed(w, k) && h < |w.callers| && w.callers[h].stack != []
    && (Top(w.callers[k]).pc == Want || Top(w.callers[k]).pc.Putting?)
    && w.nodes[Top(w.callers[k]).node].lock == Some(h)
  }

  /** From `k`, going on to the goroutine that is waited for, leads to `j`; the nodes at which
      they stand go up the tree, the last one at most staying where its waiter waits. */
  ghost predicate Leads(w: World, k: nat, j: nat)
    requires k < |w.callers| && w.callers[k].stack != []
    decreases Top(w.callers[k]).node
  {
    || j == k
    || WaitsFor(w, k, j)
    || exists h: nat :: WaitsFor(w, k, h) && Top(w.callers[h]).node < Top(w.callers[k]).node && Leads(w, h, j)
  }

  /** The step is not a failure, unless it is one of a sandbox that has died. */
  predicate Succeeds(l: Local, a: Act)
    requires Can(l, a)
  {
    match a
    case Get(ok) => ok || (l.nd.sb.Some? && !l.bs[l.nd.sb.value].alive)
    case Push => true
    case InstallFails => false
    case RootCreate(ok) => ok
    case Deliver => true
    case Create(res) => res == Ok
    case Put(ok) => ok || (Top(l.th).zygote.Some? && !l.bs[Top(l.th).zygote.value].alive)
  }

  ghost predicate Goes(w: World, j: nat, a: Act) {
    Enabled(w, Step(j, a)) && Succeeds(Here(w, j), a)
  }

  function GoodAct(l: Local): Act
    requires l.th.stack != []
  {
    var f := Top(l.th);
    match f.pc
    case Slow => if f.node == 0 then RootCreate(true) else Push
    case Waiting => Deliver
    case Creating => Create(Ok)
    case Want => Get(l.nd.sb.Some? && l.nd.sb.value < |l.bs| ==> l.bs[l.nd.sb.value].alive)
    case Putting(_) => Put(f.zygote.Some? && f.zygote.value < |l.bs| ==> l.bs[f.zygote.value].alive)
  }

  /** A goroutine that needs no lock, or one that is free, can go on. */
  lemma FreeGoes(w: World, k: nat)
    requires Inv(w) && Placed(w, k)
    requires Top(w.callers[k]).pc == Want || Top(w.callers[k]).pc.Putting? ==> w.nodes[Top(w.callers[k]).node].lock == None
    ensures Goes(w, k, GoodAct(Here(w, k)))
  {
    var th := w.callers[k];
    assert CallerOk(w.up, w.boxes, th) && FrameOk(w.boxes, Top(th));
    assert NodeOk(w.boxes, w.nodes[Top(th).node], Top(th).node);
  }

  /** The goroutine that has a node's lock is at that node, in its slow path, or further up. */
  lemma HolderAbove(w: World, n: nat)
    requires Inv(w) && n < |w.nodes| && w.nodes[n].lock.Some?
    ensures var h := w.nodes[n].lock.value;
      Placed(w, h) && (Top(w.callers[h]).node < n || (Top(w.callers[h]).node == n && Locks(Top(w.callers[h]))))
  {
    var h := w.nodes[n].lock.value;
    var th := w.callers[h];
    var i :| 0 <= i < |th.stack| && th.stack[i].node == n && Locks(th.stack[i]);
    assert CallerOk(w.up, w.boxes, th);
    if i < |th.stack| - 1 {
      ChainFalls(w.up, th.stack, i, |th.stack| - 1);
    }
  }

  /** A goroutine that waits for a node's mutex waits for one further up the tree, and so
      on; the last in line can go on. */
  lemma {:induction false} LastGoes(w: World, k: nat) returns (j: nat)
    requires Inv(w) && Placed(w, k)
    ensures Leads(w, k, j) && Placed(w, j) && Goes(w, j, GoodAct(Here(w, j)))
    decreases Top(w.callers[k]).node
  {
    var f := Top(w.callers[k]);
    j := k;
    if (f.pc == Want || f.pc.Putting?) && w.nodes[f.node].lock.Some? {
      var h := w.nodes[f.node].lock.value;
      HolderAbove(w, f.node);
      assert WaitsFor(w, k, h);
      if Top(w.callers[h]).node < f.node {
        j := LastGoes(w, h);
      } else {
        FreeGoes(w, h);
        j := h;
      }
    } else {
      FreeGoes(w, k);
    }
  }

  /** The node mutexes never deadlock: a goroutine inside ImportCache.Create leads, along the
      mutexes that are waited for, to one that can take a step, and one that does not fail. */
  lemma NoDeadlock(up: seq<nat>, ls: seq<Label>, w: World, k: nat) returns (j: nat, a: Act)
    requires Reached(up, ls, w) && k < |w.callers| && w.callers[k].stack != []
    ensures Leads(w, k, j) && Goes(w, j, a)
  {
    ReachedInv(up, ls, w);
    assert CallerOk(w.up, w.boxes, w.callers[k]);
    j := LastGoes(w, k);
    a := GoodAct(Here(w, j));
  }
}
