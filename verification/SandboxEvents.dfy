/** The evictor's delayed view of the sandboxes, and its evictions
    (go/worker/sandbox: safeSandbox.go, evictors.go). */
module SandboxEvents {
  import opened Common
  import opened MemPool
  import opened Evictor
  import opened Sandboxes
  import opened SandboxTree
  import opened SandboxMemory

  /** What the events of a sandbox must have said by now: a child exit is announced only at
      the end of childExit, and not at all by a dead sandbox. */
  function Shown(b: Box): Track {
    if !b.published then Unseen
    else if b.dead then Ended
    else Seen(b.awake, |b.kids| + (if ExitingChild(b.phase).Some? then 1 else 0))
  }

  function Told(t: Track, say: Option<Kind>): Track {
    match say
    case None => t
    case Some(kind) => Advance(t, kind)
  }

  function SaidBy(act: Act, d: Box): Option<Kind> {
    if d.published then Says(act) else None
  }

  /** The listeners' guarantee (api.go): the events of every sandbox form a legal word, and
      they add up to its present state. */
  ghost predicate Truthful(bs: seq<Box>, sent: seq<Event>) {
    forall i: nat :: TrackOf(sent, i) == if i < |bs| then Shown(bs[i]) else Unseen
  }

  lemma ShownGood(b: Box)
    ensures Shown(b) != Bad
  {
  }

  lemma TrackSnoc(sent: seq<Event>, e: Event, i: nat)
    ensures TrackOf(sent + [e], i) == if e.sb == i then Advance(TrackOf(sent, i), e.kind) else TrackOf(sent, i)
  {
    assert (sent + [e])[..|sent|] == sent;
  }

  // -------------------------------------------------------- events follow the state

  lemma DoShown(conf: Conf, b: Box, act: Act)
    requires Local(b) && Can(conf, b, act)
    ensures Shown(Do(conf, b, act)) == Told(Shown(b), SaidBy(act, Do(conf, b, act)))
  {
  }

  lemma AnsweredShown(b: Box)
    ensures Shown(Answered(b)) == Shown(b)
  {
  }

  lemma ForkOkShown(p: Box, i: nat)
    requires Local(p) && p.phase == ForkRun(i)
    ensures Shown(ForkDone(p, i)) == Advance(Shown(p), EvFork)
  {
  }

  lemma ExitCallShown(p: Box, i: nat)
    requires Local(p) && p.phase == Idle && i in p.kids
    ensures Shown(ChildExit(p, i)) == Shown(p)
  {
    assert |p.kids - {i}| == |p.kids| - 1;
  }

  lemma FinishExitShown(p: Box, i: nat)
    requires Local(p) && p.phase == Finish(ByChildExit(i))
    ensures Shown(p.(phase := Idle)) == Told(Shown(p), if p.dead then None else Some(EvChildExit))
  {
  }

  lemma PairShown(bs: seq<Box>, act: PairAct, id: nat)
    requires Tree(bs) && PairCan(bs, act, id)
    ensures var t := PairDo(bs, act, id);
      t.p < t.i < |bs| && Shown(t.q) == Told(Shown(bs[t.p]), t.say) && Shown(t.c) == Shown(bs[t.i])
  {
    PairTree(bs, act, id);
    PairPhases(bs, act, id);
    PairShownAt(bs, act, id);
  }

  lemma PairShownAt(bs: seq<Box>, act: PairAct, id: nat)
    requires Locals(bs) && PairCan(bs, act, id)
    requires PairDo(bs, act, id).p < |bs| && PairDo(bs, act, id).i < |bs|
    requires PairStands(bs, act, PairDo(bs, act, id))
    ensures var t := PairDo(bs, act, id);
      Shown(t.q) == Told(Shown(bs[t.p]), t.say) && Shown(t.c) == Shown(bs[t.i])
  {
    var t := PairDo(bs, act, id);
    assert Local(bs[t.i]);
    match act {
      case ForkBegin =>
      case ForkOk => ForkOkShown(bs[t.p], t.i);
      case ForkFail =>
      case ExitCall => ExitCallShown(bs[t.p], t.i);
      case FinishExit => FinishExitShown(bs[t.p], t.i);
    }
  }

  function SayTo(sent: seq<Event>, say: Option<Kind>, i: nat): seq<Event> {
    match say
    case None => sent
    case Some(kind) => sent + [Event(kind, i)]
  }

  lemma OneBoxTruth(bs: seq<Box>, sent: seq<Event>, i: nat, d: Box, say: Option<Kind>)
    requires Truthful(bs, sent) && i < |bs| && Shown(d) == Told(Shown(bs[i]), say)
    ensures Truthful(bs[i := d], SayTo(sent, say, i))
  {
    forall j: nat ensures TrackOf(SayTo(sent, say, i), j) == if j < |bs| then Shown(bs[i := d][j]) else Unseen {
      if say.Some? {
        TrackSnoc(sent, Event(say.value, i), j);
      }
    }
  }

  lemma {:induction false} DeliverAllTruth(w: World, served: seq<Req<Who>>, left: seq<int>)
    requires |served| == |left| && Truthful(w.boxes, w.sent)
    ensures Truthful(DeliverAll(w, served, left).boxes, w.sent)
    decreases |served|
  {
    if served != [] {
      var r := served[0];
      if r.who.Sb? && r.who.id < |w.boxes| {
        AnsweredShown(w.boxes[r.who.id]);
        OneBoxTruth(w.boxes, w.sent, r.who.id, Answered(w.boxes[r.who.id]), None);
      }
      DeliverAllTruth(Deliver(w, r, left[0]), served[1..], left[1..]);
    }
  }

  lemma SoloTruth(w: World, i: nat, act: Act)
    requires Tree(w.boxes) && Truthful(w.boxes, w.sent) && SoloEnabled(w, i, act)
    ensures Truthful(SoloNext(w, i, act).boxes, SoloNext(w, i, act).sent)
  {
    var d := Do(w.conf, w.boxes[i], act);
    SoloFields(w, i, act);
    DoShown(w.conf, w.boxes[i], act);
    OneBoxTruth(w.boxes, w.sent, i, d, SaidBy(act, d));
    assert SayTo(w.sent, SaidBy(act, d), i) == SoloNext(w, i, act).sent;
  }

  lemma PairTruth(w: World, act: PairAct, id: nat)
    requires Tree(w.boxes) && Truthful(w.boxes, w.sent) && PairCan(w.boxes, act, id)
    ensures PairDo(w.boxes, act, id).p < |w.boxes| && PairDo(w.boxes, act, id).i < |w.boxes|
    ensures var w' := PairNext(w, PairDo(w.boxes, act, id)); Truthful(w'.boxes, w'.sent)
  {
    var t := PairDo(w.boxes, act, id);
    PairShown(w.boxes, act, id);
    OneBoxTruth(w.boxes, w.sent, t.p, t.q, t.say);
    OneBoxTruth(w.boxes[t.p := t.q], SayTo(w.sent, t.say, t.p), t.i, t.c, None);
  }

  lemma NewTruth(bs: seq<Box>, sent: seq<Event>, b: Box)
    requires Truthful(bs, sent) && !b.published
    ensures Truthful(bs + [b], sent)
  {
  }

  lemma RunTaskTruth(w: World, k: nat)
    requires Tree(w.boxes) && Truthful(w.boxes, w.sent) && TasksKnown(w) && Enabled(w, RunTask(k))
    ensures var w' := Next(w, RunTask(k)); Truthful(w'.boxes, w'.sent)
  {
    var i := w.tasks[k].sb;
    assert Local(w.boxes[i]);
    OneBoxTruth(w.boxes, w.sent, i, Evict(w.boxes[i], w.tasks[k].force), None);
  }

  /** Events keep adding up to the state, whatever step is taken. */
  lemma TruthStep(w: World, l: Label)
    requires Tree(w.boxes) && TasksKnown(w) && Truthful(w.boxes, w.sent) && Enabled(w, l)
    ensures Truthful(Next(w, l).boxes, Next(w, l).sent)
  {
    match l {
      case StartCreate(from, mb) =>
        NewTruth(w.boxes, w.sent, Box(from, None, {}, {}, 1, mb, NoCg, NewAskMem, false, false, true, false));
      case Solo(i, act) => SoloTruth(w, i, act);
      case Pair(act2, id) => PairTruth(w, act2, id);
      case MemTurn =>
        var t := Turn(w.mem, w.inbox[0]);
        var w1 := w.(mem := t.pool, inbox := w.inbox[1..]);
        DeliverAllTruth(w1, t.served, t.left);
        DeliverAllFields(w1, t.served, t.left);
      case RunTask(k) => RunTaskTruth(w, k);
      case _ =>
    }
  }

  // ------------------------------------------------------------ the evictor's view

  /** The evictor's lists are consistent and its priorities are what the events it has read
      add up to. */
  ghost predicate Watching(w: World) {
    && w.taken <= |w.sent|
    && Valid(w.view)
    && |w.view.lists[EVICTING]| <= CONCURRENT_EVICTIONS
    && forall i: nat :: Follows(w.view, i, TrackOf(w.sent[..w.taken], i))
  }

  ghost predicate EvTruthful(w: World) {
    Truthful(w.boxes, w.sent) && Watching(w)
  }

  /** The next event never makes the evictor panic. */
  lemma NoPanic(w: World)
    requires EvTruthful(w) && w.taken < |w.sent|
    ensures !Panics(w.view, w.sent[w.taken])
    ensures var e := w.sent[w.taken]; var t := TrackOf(w.sent[..w.taken], e.sb);
      Follows(Observe(w.view, e), e.sb, Advance(t, e.kind)) && TrackOf(w.sent[..w.taken + 1], e.sb) == Advance(t, e.kind)
  {
    var e := w.sent[w.taken];
    var i := e.sb;
    if i < |w.boxes| {
      ShownGood(w.boxes[i]);
    }
    TrackPrefix(w.sent, w.taken + 1, i);
    assert w.sent[..w.taken + 1] == w.sent[..w.taken] + [e];
    TrackSnoc(w.sent[..w.taken], e, i);
    assert Follows(w.view, i, TrackOf(w.sent[..w.taken], i));
    ObserveFollows(w.view, e, TrackOf(w.sent[..w.taken], i));
  }

  lemma TakeWatching(w: World)
    requires EvTruthful(w) && w.taken < |w.sent|
    ensures !Panics(w.view, w.sent[w.taken])
    ensures Watching(w.(view := Observe(w.view, w.sent[w.taken]), taken := w.taken + 1))
  {
    NoPanic(w);
    var e := w.sent[w.taken];
    var v := Observe(w.view, e);
    ObserveValid(w.view, e);
    var read := w.sent[..w.taken + 1];
    assert read == w.sent[..w.taken] + [e];
    forall i: nat ensures Follows(v, i, TrackOf(read, i)) {
      assert Follows(w.view, i, TrackOf(w.sent[..w.taken], i));
      TrackSnoc(w.sent[..w.taken], e, i);
    }
  }

  lemma DecideWatching(w: World, left: nat)
    requires EvTruthful(w) && Checked(w.conf)
    ensures var d := Decide(w.view, left, w.conf.totalMB, w.conf.memMB);
      Watching(w.(view := d.view)) && forall t <- d.tasks :: t.sb < |w.boxes| && w.boxes[t.sb].published
  {
    var d := Decide(w.view, left, w.conf.totalMB, w.conf.memMB);
    Policy(w.view, left, w.conf.totalMB, w.conf.memMB);
    DecideValid(w.view, left, w.conf.totalMB, w.conf.memMB);
    forall i: nat ensures Follows(d.view, i, TrackOf(w.sent[..w.taken], i)) {
      assert Follows(w.view, i, TrackOf(w.sent[..w.taken], i));
    }
    forall t <- d.tasks ensures t.sb < |w.boxes| && w.boxes[t.sb].published {
      TrackedPublished(w, t.sb);
    }
  }

  /** The evictor only knows sandboxes that were published. */
  lemma TrackedPublished(w: World, i: nat)
    requires EvTruthful(w) && i in w.view.priority
    ensures i < |w.boxes| && w.boxes[i].published
  {
    assert Follows(w.view, i, TrackOf(w.sent[..w.taken], i));
    TrackStarted(w.sent, w.taken, i);
  }

  lemma {:induction false} TrackStarted(sent: seq<Event>, n: nat, i: nat)
    requires n <= |sent| && TrackOf(sent[..n], i) != Unseen
    ensures TrackOf(sent, i) != Unseen
    decreases |sent|
  {
    if n < |sent| {
      assert sent[..|sent| - 1][..n] == sent[..n];
      TrackStarted(sent[..|sent| - 1], n, i);
    } else {
      assert sent[..n] == sent;
    }
  }

  lemma PrefixWatching(w: World, w': World)
    requires Watching(w) && w'.view == w.view && w'.taken == w.taken && w.sent <= w'.sent
    ensures Watching(w')
  {
    assert w'.sent[..w.taken] == w.sent[..w.taken];
  }

  // ------------------------------------------------------------- no stuck eviction

  predicate IsDying(b: Box) {
    WhyOf(b.phase) == Some(ByDestroy)
  }

  /** What a step never undoes. */
  predicate Ages(b: Box, d: Box) {
    && (b.published ==> d.published)
    && (b.dead ==> d.dead)
    && (IsDying(b) ==> IsDying(d) || d.dead)
  }

  ghost predicate AllAge(bs: seq<Box>, bs': seq<Box>) {
    |bs| <= |bs'| && forall i: nat :: i < |bs| ==> Ages(bs[i], bs'[i])
  }

  lemma DoAges(conf: Conf, b: Box, act: Act)
    requires Can(conf, b, act)
    ensures Ages(b, Do(conf, b, act))
  {
  }

  lemma PairAges(bs: seq<Box>, act: PairAct, id: nat)
    requires Tree(bs) && PairCan(bs, act, id)
    ensures var t := PairDo(bs, act, id);
      t.p < t.i < |bs| && Ages(bs[t.p], t.q) && Ages(bs[t.i], t.c)
      && bs[t.p].phase != Ignoring && bs[t.i].phase != Ignoring
  {
    PairTree(bs, act, id);
    PairPhases(bs, act, id);
  }

  ghost predicate SameIgnoring(bs: seq<Box>, bs': seq<Box>) {
    |bs| <= |bs'| && forall i: nat :: i < |bs| && bs[i].phase == Ignoring ==> bs'[i].phase == Ignoring
  }

  lemma {:induction false} DeliverAllAges(w: World, served: seq<Req<Who>>, left: seq<int>)
    requires |served| == |left|
    ensures AllAge(w.boxes, DeliverAll(w, served, left).boxes)
    ensures SameIgnoring(w.boxes, DeliverAll(w, served, left).boxes)
    decreases |served|
  {
    if served != [] {
      var w1 := Deliver(w, served[0], left[0]);
      DeliverAllAges(w1, served[1..], left[1..]);
      var bs, bs1, bs2 := w.boxes, w1.boxes, DeliverAll(w, served, left).boxes;
      forall i: nat | i < |bs| ensures Ages(bs[i], bs2[i]) {
        assert Ages(bs[i], bs1[i]) && Ages(bs1[i], bs2[i]);
      }
    }
  }

  lemma RunTaskAges(w: World, k: nat)
    requires Enabled(w, RunTask(k))
    ensures AllAge(w.boxes, Next(w, RunTask(k)).boxes)
  {
  }

  ghost predicate HasTask(w: World, i: nat) {
    exists t <- w.tasks :: t.sb == i
  }

  /** An event of kind `kind` for sandbox `i` is still in the channel. */
  ghost predicate InChannel(w: World, kind: Kind, i: nat) {
    exists k :: w.taken <= k < |w.sent| && w.sent[k] == Event(kind, i)
  }

  /** Somebody still has to do something about the eviction of `i`. */
  ghost predicate Underway(w: World, i: nat) {
    || HasTask(w, i)
    || (i < |w.boxes| && (IsDying(w.boxes[i]) || w.boxes[i].dead || w.boxes[i].phase == Ignoring))
    || InChannel(w, EvDestroyIgnored, i)
  }

  /** A DestroyIfPaused that found its sandbox running goes on until it has said so. */
  ghost predicate IgnoringKept(w: World, w': World) {
    |w.boxes| <= |w'.boxes| && forall i: nat :: i < |w.boxes| && w.boxes[i].phase == Ignoring ==>
      w'.boxes[i].phase == Ignoring || InChannel(w', EvDestroyIgnored, i)
  }

  ghost predicate NoneStuck(w: World) {
    Shape(w.view) && forall i <- w.view.lists[EVICTING] :: Underway(w, i)
  }

  ghost predicate Evicts(w: World) {
    && EvTruthful(w)
    && TasksKnown(w)
    && (w.evictor.EvDeciding? ==> w.evictor.left >= 0)
    && NoneStuck(w)
  }

  /** Steps that leave the evictor's own state alone. */
  lemma OutsideStep(w: World, w': World)
    requires Evicts(w) && Truthful(w'.boxes, w'.sent) && AllAge(w.boxes, w'.boxes)
    requires w.sent <= w'.sent && w'.taken == w.taken && w'.view == w.view && w'.tasks == w.tasks
    requires w'.evictor.EvDeciding? ==> w'.evictor.left >= 0
    requires IgnoringKept(w, w')
    ensures Evicts(w')
  {
    PrefixWatching(w, w');
    forall i <- w'.view.lists[EVICTING] ensures Underway(w', i) {
      assert Underway(w, i);
      if i < |w.boxes| { assert Ages(w.boxes[i], w'.boxes[i]); }
      if InChannel(w, EvDestroyIgnored, i) {
        var k :| w.taken <= k < |w.sent| && w.sent[k] == Event(EvDestroyIgnored, i);
        assert w'.sent[k] == w.sent[k];
      }
    }
    forall t <- w'.tasks ensures t.sb < |w'.boxes| && w'.boxes[t.sb].published {
      assert Ages(w.boxes[t.sb], w'.boxes[t.sb]);
    }
  }

  lemma TakeStep(w: World)
    requires Evicts(w) && Enabled(w, EvTake)
    ensures Evicts(Next(w, EvTake))
  {
    var w' := Next(w, EvTake);
    TakeWatching(w);
    ObserveValid(w.view, w.sent[w.taken]);
    forall i <- w'.view.lists[EVICTING] ensures Underway(w', i) {
      assert Underway(w, i);
      if InChannel(w, EvDestroyIgnored, i) {
        var k :| w.taken <= k < |w.sent| && w.sent[k] == Event(EvDestroyIgnored, i);
        assert w'.sent[k] == Event(EvDestroyIgnored, i);
      }
    }
  }

  lemma DecideStep(w: World)
    requires Evicts(w) && Checked(w.conf) && Enabled(w, EvDecide)
    ensures Evicts(Next(w, EvDecide))
  {
    var w' := Next(w, EvDecide);
    var d := Decide(w.view, w.evictor.left, w.conf.totalMB, w.conf.memMB);
    DecideWatching(w, w.evictor.left);
    DecideValid(w.view, w.evictor.left, w.conf.totalMB, w.conf.memMB);
    forall i <- w'.view.lists[EVICTING] ensures Underway(w', i) {
      if i in w.view.lists[EVICTING] {
        assert Underway(w, i);
        if InChannel(w, EvDestroyIgnored, i) {
          assert InChannel(w', EvDestroyIgnored, i);
        } else if HasTask(w, i) {
          var t :| t in w.tasks && t.sb == i;
          assert t in w'.tasks;
        }
      } else {
        var t :| t in d.tasks && t.sb == i;
        assert t in w'.tasks;
      }
    }
  }

  lemma RunTaskKnown(w: World, k: nat)
    requires TasksKnown(w) && Enabled(w, RunTask(k)) && AllAge(w.boxes, Next(w, RunTask(k)).boxes)
    ensures TasksKnown(Next(w, RunTask(k)))
  {
    var w' := Next(w, RunTask(k));
    assert w.tasks == w.tasks[..k] + [w.tasks[k]] + w.tasks[k + 1..];
    forall u <- w'.tasks ensures u.sb < |w'.boxes| && w'.boxes[u.sb].published {
      assert u in w.tasks;
      assert Ages(w.boxes[u.sb], w'.boxes[u.sb]);
    }
  }

  lemma RunTaskStep(w: World, k: nat)
    requires Evicts(w) && Tree(w.boxes) && Enabled(w, RunTask(k))
    ensures Evicts(Next(w, RunTask(k)))
  {
    var w' := Next(w, RunTask(k));
    RunTaskTruth(w, k);
    RunTaskAges(w, k);
    PrefixWatching(w, w');
    RunTaskKnown(w, k);
    forall i <- w'.view.lists[EVICTING] ensures Underway(w', i) {
      assert Underway(w, i);
      RunTaskUnderway(w, k, i);
    }
  }

  lemma RunTaskUnderway(w: World, k: nat, i: nat)
    requires w.taken <= |w.sent| && Enabled(w, RunTask(k)) && Underway(w, i) && AllAge(w.boxes, Next(w, RunTask(k)).boxes)
    ensures Underway(Next(w, RunTask(k)), i)
  {
    var w' := Next(w, RunTask(k));
    var t := w.tasks[k];
    if i < |w.boxes| && (IsDying(w.boxes[i]) || w.boxes[i].dead || w.boxes[i].phase == Ignoring) {
      assert Ages(w.boxes[i], w'.boxes[i]);
    } else if InChannel(w, EvDestroyIgnored, i) {
      var n :| w.taken <= n < |w.sent| && w.sent[n] == Event(EvDestroyIgnored, i);
      assert w'.sent[n] == w.sent[n];
    } else if t.sb != i {
      var u :| u in w.tasks && u.sb == i;
      assert w.tasks == w.tasks[..k] + [t] + w.tasks[k + 1..];
      assert u in w'.tasks;
    }
  }

  lemma {:induction false} DeliverAllLeft(w: World, served: seq<Req<Who>>, left: seq<int>)
    requires |served| == |left| && forall n <- left :: n >= 0
    requires w.evictor.EvDeciding? ==> w.evictor.left >= 0
    ensures var w' := DeliverAll(w, served, left); w'.evictor.EvDeciding? ==> w'.evictor.left >= 0
    decreases |served|
  {
    if served != [] {
      assert left[0] in left;
      forall n <- left[1..] ensures n in left {}
      DeliverAllLeft(Deliver(w, served[0], left[0]), served[1..], left[1..]);
    }
  }

  lemma MemTurnStep(w: World)
    requires Evicts(w) && Tree(w.boxes) && Sound(w.mem) && Enabled(w, MemTurn)
    ensures Evicts(Next(w, MemTurn))
  {
    var t := Turn(w.mem, w.inbox[0]);
    var w1 := w.(mem := t.pool, inbox := w.inbox[1..]);
    TurnAccounts(w.mem, w.inbox[0]);
    DeliverAllLeft(w1, t.served, t.left);
    DeliverAllFields(w1, t.served, t.left);
    DeliverAllTruth(w1, t.served, t.left);
    DeliverAllAges(w1, t.served, t.left);
    OutsideStep(w, DeliverAll(w1, t.served, t.left));
  }

  lemma SoloIgnoring(w: World, i: nat, act: Act)
    requires w.taken <= |w.sent| && Tree(w.boxes) && SoloEnabled(w, i, act)
    ensures IgnoringKept(w, SoloNext(w, i, act))
  {
    SoloFields(w, i, act);
    var w' := SoloNext(w, i, act);
    if w.boxes[i].phase == Ignoring {
      assert Local(w.boxes[i]) && act == SayIgnored;
      assert w'.sent[|w.sent|] == Event(EvDestroyIgnored, i);
    }
  }

  lemma SoloStep(w: World, i: nat, act: Act)
    requires Evicts(w) && Tree(w.boxes) && SoloEnabled(w, i, act)
    ensures Evicts(SoloNext(w, i, act))
  {
    SoloFields(w, i, act);
    SoloTruth(w, i, act);
    DoAges(w.conf, w.boxes[i], act);
    SoloIgnoring(w, i, act);
    OutsideStep(w, SoloNext(w, i, act));
  }

  lemma PairStep(w: World, act: PairAct, id: nat)
    requires Evicts(w) && Tree(w.boxes) && PairCan(w.boxes, act, id)
    ensures PairDo(w.boxes, act, id).p < |w.boxes| && PairDo(w.boxes, act, id).i < |w.boxes|
    ensures Evicts(PairNext(w, PairDo(w.boxes, act, id)))
  {
    PairTruth(w, act, id);
    PairAges(w.boxes, act, id);
    PairOutside(w, PairDo(w.boxes, act, id));
  }

  lemma PairOutside(w: World, t: Two)
    requires Evicts(w) && t.p < t.i < |w.boxes| && Ages(w.boxes[t.p], t.q) && Ages(w.boxes[t.i], t.c)
    requires Truthful(PairNext(w, t).boxes, PairNext(w, t).sent)
    requires w.boxes[t.p].phase != Ignoring && w.boxes[t.i].phase != Ignoring
    ensures Evicts(PairNext(w, t))
  {
    AgesPut2(w.boxes, t.p, t.q, t.i, t.c);
    var w' := PairNext(w, t);
    assert w'.boxes == Put2(w.boxes, t.p, t.q, t.i, t.c);
    assert w.sent <= w'.sent;
    OutsideStep(w, w');
  }

  lemma AgesPut2(bs: seq<Box>, p: nat, q: Box, i: nat, c: Box)
    requires p < i < |bs| && Ages(bs[p], q) && Ages(bs[i], c)
    ensures AllAge(bs, Put2(bs, p, q, i, c))
  {
  }

  /** The evictor's view and its evictions stay sound under every step. */
  lemma EvictsStep(w: World, l: Label)
    requires Evicts(w) && Tree(w.boxes) && Checked(w.conf) && Sound(w.mem) && Enabled(w, l)
    ensures Evicts(Next(w, l))
  {
    match l {
      case StartCreate(from, mb) =>
        TruthStep(w, l);
        OutsideStep(w, Next(w, l));
      case Solo(i, act) => SoloStep(w, i, act);
      case Pair(act2, id) => PairStep(w, act2, id);
      case MemTurn => MemTurnStep(w);
      case EvTake => TakeStep(w);
      case EvDecide => DecideStep(w);
      case RunTask(k) => RunTaskStep(w, k);
      case EvDrained => OutsideStep(w, Next(w, l));
      case EvPoll => OutsideStep(w, Next(w, l));
      case CgNew => OutsideStep(w, Next(w, l));
      case CgReady => OutsideStep(w, Next(w, l));
      case CleanupBegin => OutsideStep(w, Next(w, l));
      case CgQuit => OutsideStep(w, Next(w, l));
      case CgDrain => OutsideStep(w, Next(w, l));
      case CgDone => OutsideStep(w, Next(w, l));
    }
  }
}
