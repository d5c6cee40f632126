/** Memory conservation between the pool and the sandboxes
    (go/worker/sandbox: memPool.go, sock.go, sockPool.go). */
module SandboxMemory {
  import opened Common
  import opened MemPool
  import opened Evictor
  import opened Sandboxes
  import opened SandboxTree

  /** The pool memory a sandbox holds: its limit from the grant until the return, plus what
      a Pause has not given back yet, or as much as an Unpause has already obtained. */
  function Charge(conf: Conf, b: Box): int {
    match b.phase
    case NewAskMem => 0
    case NewGetCg => b.limit
    case PauseShrunk(diff) => b.limit + diff
    case PauseReturn(diff) => b.limit + diff
    case WakeGranted => conf.memMB
    case Killed(_) => b.limit
    case Returning(_) => b.limit
    case _ => if b.cg.Cg? then b.limit else 0
  }

  function SumCharge(conf: Conf, bs: seq<Box>): int {
    if bs == [] then 0 else SumCharge(conf, bs[..|bs| - 1]) + Charge(conf, bs[|bs| - 1])
  }

  function CleanupCharge(cleanup: Cleanup, totalMB: nat): int {
    if cleanup == NotCalled || cleanup == AskedAll then 0 else totalMB
  }

  function Held(w: World): int {
    SumCharge(w.conf, w.boxes) + CleanupCharge(w.cleanup, w.conf.totalMB)
  }

  /** The requests that goroutines are blocked on. */
  function WantReq(conf: Conf, b: Box, i: nat): multiset<Req<Who>> {
    match Want(conf, b)
    case None => multiset{}
    case Some(mb) => multiset{Req(Sb(i), mb)}
  }

  function Wanted(conf: Conf, bs: seq<Box>): multiset<Req<Who>> {
    if bs == [] then multiset{}
    else Wanted(conf, bs[..|bs| - 1]) + WantReq(conf, bs[|bs| - 1], |bs| - 1)
  }

  function EvictorWants(phase: EvPhase): multiset<Req<Who>> {
    if phase == EvPolling then multiset{Req(EvictorTask, 0)} else multiset{}
  }

  function CleanupWants(cleanup: Cleanup, totalMB: nat): multiset<Req<Who>> {
    if cleanup == AskedAll then multiset{Req(CleanupTask, -(totalMB as int))} else multiset{}
  }

  function TaskWants(phase: EvPhase, cleanup: Cleanup, totalMB: nat): multiset<Req<Who>> {
    EvictorWants(phase) + CleanupWants(cleanup, totalMB)
  }

  function AllWanted(w: World): multiset<Req<Who>> {
    Wanted(w.conf, w.boxes) + TaskWants(w.evictor, w.cleanup, w.conf.totalMB)
  }

  /** The pool plus everything held is the total, and each blocked goroutine has exactly its
      one request in the channel or the waiting list. */
  ghost predicate Conserved(w: World) {
    && Sound(w.mem)
    && w.mem.availableMB + Held(w) == w.conf.totalMB
    && multiset(w.inbox) + multiset(w.mem.waiting) == AllWanted(w)
  }

  ghost predicate Limits(conf: Conf, bs: seq<Box>) {
    forall j: nat :: j < |bs| ==> bs[j].limit <= conf.totalMB
  }

  // ------------------------------------------------------------ one sandbox changes

  lemma {:induction false} SumUpdate(conf: Conf, bs: seq<Box>, i: nat, b: Box)
    requires i < |bs|
    ensures SumCharge(conf, bs[i := b]) == SumCharge(conf, bs) - Charge(conf, bs[i]) + Charge(conf, b)
    decreases |bs|
  {
    var n := |bs| - 1;
    if i < n {
      SumUpdate(conf, bs[..n], i, b);
      assert bs[i := b][..n] == bs[..n][i := b];
    } else {
      assert bs[i := b][..n] == bs[..n];
    }
  }

  /** How often sandbox `i` asks for `r`. */
  function Asks(conf: Conf, b: Box, i: nat, r: Req<Who>): nat {
    WantReq(conf, b, i)[r]
  }

  function Total(s: seq<nat>): nat {
    if s == [] then 0 else Total(s[..|s| - 1]) + s[|s| - 1]
  }

  lemma {:induction false} TotalUpdate(s: seq<nat>, i: nat, x: nat)
    requires i < |s|
    ensures Total(s[i := x]) + s[i] == Total(s) + x
    decreases |s|
  {
    var n := |s| - 1;
    if i < n {
      TotalUpdate(s[..n], i, x);
      assert s[i := x][..n] == s[..n][i := x];
    } else {
      assert s[i := x][..n] == s[..n];
    }
  }

  ghost function AskCounts(conf: Conf, bs: seq<Box>, r: Req<Who>): (s: seq<nat>)
    ensures |s| == |bs| && forall i :: 0 <= i < |s| ==> s[i] == Asks(conf, bs[i], i, r)
  {
    seq(|bs|, i requires 0 <= i < |bs| => Asks(conf, bs[i], i, r))
  }

  lemma {:induction false} WantedCounts(conf: Conf, bs: seq<Box>, r: Req<Who>)
    ensures Wanted(conf, bs)[r] == Total(AskCounts(conf, bs, r))
    decreases |bs|
  {
    if bs != [] {
      var init := bs[..|bs| - 1];
      WantedCounts(conf, init, r);
      assert AskCounts(conf, bs, r)[..|bs| - 1] == AskCounts(conf, init, r);
    }
  }

  lemma AskCountsUpdate(conf: Conf, bs: seq<Box>, i: nat, b: Box, r: Req<Who>)
    requires i < |bs|
    ensures AskCounts(conf, bs[i := b], r) == AskCounts(conf, bs, r)[i := Asks(conf, b, i, r)]
  {
    var s, t := AskCounts(conf, bs[i := b], r), AskCounts(conf, bs, r)[i := Asks(conf, b, i, r)];
    forall j | 0 <= j < |s| ensures s[j] == t[j] {
      assert s[j] == Asks(conf, bs[i := b][j], j, r);
    }
  }

  lemma WantedUpdateAt(conf: Conf, bs: seq<Box>, i: nat, b: Box, r: Req<Who>)
    requires i < |bs|
    ensures Wanted(conf, bs[i := b])[r] + WantReq(conf, bs[i], i)[r] == Wanted(conf, bs)[r] + WantReq(conf, b, i)[r]
  {
    WantedCounts(conf, bs, r);
    WantedCounts(conf, bs[i := b], r);
    AskCountsUpdate(conf, bs, i, b, r);
    TotalUpdate(AskCounts(conf, bs, r), i, Asks(conf, b, i, r));
  }

  lemma SameCounts<T(!new)>(a: multiset<T>, x: multiset<T>, b: multiset<T>, y: multiset<T>)
    requires forall r :: a[r] + x[r] == b[r] + y[r]
    ensures a + x == b + y
  {
    assert forall r :: (a + x)[r] == (b + y)[r];
  }

  lemma WantedUpdate(conf: Conf, bs: seq<Box>, i: nat, b: Box)
    requires i < |bs|
    ensures Wanted(conf, bs[i := b]) + WantReq(conf, bs[i], i) == Wanted(conf, bs) + WantReq(conf, b, i)
  {
    var a, x, c, y := Wanted(conf, bs[i := b]), WantReq(conf, bs[i], i), Wanted(conf, bs), WantReq(conf, b, i);
    forall r ensures a[r] + x[r] == c[r] + y[r] {
      WantedUpdateAt(conf, bs, i, b, r);
    }
    SameCounts(a, x, c, y);
  }

  /** A sandbox that was not blocked changes; it may block now. */
  lemma BlockUpdate(conf: Conf, bs: seq<Box>, i: nat, b: Box)
    requires i < |bs| && Want(conf, bs[i]) == None
    ensures Wanted(conf, bs[i := b]) == Wanted(conf, bs) + WantReq(conf, b, i)
  {
    WantedUpdate(conf, bs, i, b);
    assert Wanted(conf, bs[i := b]) + multiset{} == Wanted(conf, bs[i := b]);
  }

  lemma UnblockUpdate(conf: Conf, bs: seq<Box>, i: nat, b: Box)
    requires i < |bs| && Want(conf, b) == None
    ensures Wanted(conf, bs[i := b]) + WantReq(conf, bs[i], i) == Wanted(conf, bs)
  {
    WantedUpdate(conf, bs, i, b);
    assert Wanted(conf, bs) + multiset{} == Wanted(conf, bs);
  }

  lemma {:induction false} WantedMember(conf: Conf, bs: seq<Box>, r: Req<Who>)
    requires r in Wanted(conf, bs)
    ensures r.who.Sb? && r.who.id < |bs| && Want(conf, bs[r.who.id]) == Some(r.mb)
    decreases |bs|
  {
    var n := |bs| - 1;
    if r in Wanted(conf, bs[..n]) {
      WantedMember(conf, bs[..n], r);
    }
  }

  /** A step on one sandbox moves no memory; if it blocks, it was not blocked before. */
  lemma DoCharge(conf: Conf, b: Box, act: Act)
    requires Local(b) && Can(conf, b, act)
    ensures Charge(conf, Do(conf, b, act)) == Charge(conf, b)
    ensures Want(conf, b) == None
  {
  }

  lemma DoLimit(conf: Conf, b: Box, act: Act)
    requires Checked(conf) && Can(conf, b, act) && b.limit <= conf.totalMB
    ensures Do(conf, b, act).limit <= conf.totalMB
  {
  }

  /** A response moves exactly what was asked for. */
  lemma AnsweredCharge(conf: Conf, b: Box)
    requires Local(b) && Want(conf, b).Some?
    ensures Charge(conf, Answered(b)) == Charge(conf, b) - Want(conf, b).value
    ensures Want(conf, Answered(b)) == None
  {
  }

  /** Nobody blocks and no memory moves. */
  ghost predicate Still(conf: Conf, b: Box, d: Box) {
    Charge(conf, d) == Charge(conf, b) && Want(conf, b) == None && Want(conf, d) == None
  }

  lemma StillUpdate(conf: Conf, bs: seq<Box>, i: nat, b: Box)
    requires i < |bs| && Still(conf, bs[i], b)
    ensures SumCharge(conf, bs[i := b]) == SumCharge(conf, bs)
    ensures Wanted(conf, bs[i := b]) == Wanted(conf, bs)
  {
    SumUpdate(conf, bs, i, b);
    BlockUpdate(conf, bs, i, b);
    assert Wanted(conf, bs) + multiset{} == Wanted(conf, bs);
  }

  lemma StillUpdate2(conf: Conf, bs: seq<Box>, p: nat, q: Box, i: nat, c: Box)
    requires p < |bs| && i < |bs| && p != i && Still(conf, bs[p], q) && Still(conf, bs[i], c)
    ensures SumCharge(conf, Put2(bs, p, q, i, c)) == SumCharge(conf, bs)
    ensures Wanted(conf, Put2(bs, p, q, i, c)) == Wanted(conf, bs)
  {
    StillUpdate(conf, bs, p, q);
    StillUpdate(conf, bs[p := q], i, c);
  }

  // ---------------------------------------------------------------- single steps

  /** A step that moves no memory and adds the requests `extra` to the channel. */
  ghost predicate Neutral(w: World, w': World, extra: seq<Req<Who>>) {
    && w'.conf == w.conf && w'.mem == w.mem
    && w'.inbox == w.inbox + extra
    && Held(w') == Held(w)
    && AllWanted(w') == AllWanted(w) + multiset(extra)
  }

  lemma NeutralConserves(w: World, w': World, extra: seq<Req<Who>>)
    requires Conserved(w) && Neutral(w, w', extra)
    ensures Conserved(w')
  {
    assert multiset(w'.inbox) == multiset(w.inbox) + multiset(extra);
    var a, b, c := multiset(w.inbox), multiset(w.mem.waiting), multiset(extra);
    assert (a + c) + b == (a + b) + c;
  }

  lemma SoloFields(w: World, i: nat, act: Act)
    requires SoloEnabled(w, i, act)
    ensures var w' := SoloNext(w, i, act); var d := Do(w.conf, w.boxes[i], act);
      && w'.conf == w.conf && w'.mem == w.mem && w'.evictor == w.evictor && w'.cleanup == w.cleanup
      && w'.taken == w.taken && w'.view == w.view && w'.tasks == w.tasks
      && w'.boxes == w.boxes[i := d]
      && w'.inbox == w.inbox + (if Want(w.conf, d).Some? then [Req(Sb(i), Want(w.conf, d).value)] else [])
      && w'.sent == w.sent + (if Says(act).Some? && d.published then [Event(Says(act).value, i)] else [])
      && w'.cgs == CgEffect(w.cgs, w.boxes[i], act)
  {
    assert w.inbox + [] == w.inbox && w.sent + [] == w.sent;
  }

  /** One sandbox changes and may block on a request. */
  lemma OneBoxMem(w: World, w': World, i: nat, d: Box, extra: seq<Req<Who>>)
    requires Conserved(w) && i < |w.boxes|
    requires Charge(w.conf, d) == Charge(w.conf, w.boxes[i]) && Want(w.conf, w.boxes[i]) == None
    requires multiset(extra) == WantReq(w.conf, d, i)
    requires w'.conf == w.conf && w'.mem == w.mem && w'.evictor == w.evictor && w'.cleanup == w.cleanup
    requires w'.boxes == w.boxes[i := d] && w'.inbox == w.inbox + extra
    ensures Conserved(w')
  {
    SumUpdate(w.conf, w.boxes, i, d);
    assert AllWanted(w') == AllWanted(w) + multiset(extra) by {
      BlockUpdate(w.conf, w.boxes, i, d);
      Shift(Wanted(w.conf, w.boxes), multiset(extra), TaskWants(w.evictor, w.cleanup, w.conf.totalMB));
    }
    NeutralConserves(w, w', extra);
  }

  lemma SoloMem(w: World, i: nat, act: Act)
    requires Tree(w.boxes) && Conserved(w) && SoloEnabled(w, i, act)
    ensures Conserved(SoloNext(w, i, act))
  {
    var d := Do(w.conf, w.boxes[i], act);
    SoloFields(w, i, act);
    DoCharge(w.conf, w.boxes[i], act);
    OneBoxMem(w, SoloNext(w, i, act), i, d,
              if Want(w.conf, d).Some? then [Req(Sb(i), Want(w.conf, d).value)] else []);
  }

  lemma Shift<T>(a: multiset<T>, b: multiset<T>, c: multiset<T>)
    ensures (a + b) + c == (a + c) + b
  {
  }

  lemma NewMem(w: World, from: Option<nat>, mb: nat)
    requires Conserved(w) && Enabled(w, StartCreate(from, mb))
    ensures Conserved(Next(w, StartCreate(from, mb)))
  {
    var w' := Next(w, StartCreate(from, mb));
    assert w'.boxes[..|w.boxes|] == w.boxes;
    var extra := [Req(Sb(|w.boxes|), -(mb as int))];
    assert multiset(extra) == WantReq(w.conf, w'.boxes[|w.boxes|], |w.boxes|);
    Shift(Wanted(w.conf, w.boxes), multiset(extra), TaskWants(w.evictor, w.cleanup, w.conf.totalMB));
    NeutralConserves(w, w', extra);
  }

  lemma DeliverBox(w: World, r: Req<Who>, left: int)
    requires Locals(w.boxes) && r in Wanted(w.conf, w.boxes)
    ensures Held(Deliver(w, r, left)) == Held(w) - r.mb
    ensures AllWanted(Deliver(w, r, left)) + multiset{r} == AllWanted(w)
  {
    WantedMember(w.conf, w.boxes, r);
    var i := r.who.id;
    AnsweredCharge(w.conf, w.boxes[i]);
    UnblockMem(w, Deliver(w, r, left), i, Answered(w.boxes[i]), r);
  }

  lemma UnblockMem(w: World, w': World, i: nat, b: Box, r: Req<Who>)
    requires i < |w.boxes| && w' == w.(boxes := w.boxes[i := b])
    requires Want(w.conf, w.boxes[i]) == Some(r.mb) && r.who == Sb(i) && Want(w.conf, b) == None
    requires Charge(w.conf, b) == Charge(w.conf, w.boxes[i]) - r.mb
    ensures Held(w') == Held(w) - r.mb
    ensures AllWanted(w') + multiset{r} == AllWanted(w)
  {
    SumUpdate(w.conf, w.boxes, i, b);
    UnblockUpdate(w.conf, w.boxes, i, b);
    Shift(Wanted(w.conf, w.boxes[i := b]), multiset{r}, TaskWants(w.evictor, w.cleanup, w.conf.totalMB));
  }

  lemma DeliverTask(w: World, r: Req<Who>, left: int)
    requires r in TaskWants(w.evictor, w.cleanup, w.conf.totalMB)
    ensures Held(Deliver(w, r, left)) == Held(w) - r.mb
    ensures AllWanted(Deliver(w, r, left)) + multiset{r} == AllWanted(w)
  {
    var w' := Deliver(w, r, left);
    var x, e, c := Wanted(w.conf, w.boxes), EvictorWants(w.evictor), CleanupWants(w.cleanup, w.conf.totalMB);
    if r in e {
      assert r == Req(EvictorTask, 0) && e == multiset{r};
      Regroup(x, multiset{}, c, multiset{r});
      assert multiset{} + multiset{r} == multiset{r};
    } else {
      assert r.who == CleanupTask && c == multiset{r};
      Regroup(x, e, multiset{}, multiset{r});
      assert multiset{} + multiset{r} == multiset{r};
    }
  }

  lemma Regroup<T>(x: multiset<T>, e: multiset<T>, c: multiset<T>, r: multiset<T>)
    ensures (x + (e + c)) + r == x + ((e + r) + c)
    ensures (x + (e + c)) + r == x + (e + (c + r))
  {
  }

  lemma DeliverMem(w: World, r: Req<Who>, left: int)
    requires Locals(w.boxes) && r in AllWanted(w)
    ensures Held(Deliver(w, r, left)) == Held(w) - r.mb
    ensures AllWanted(Deliver(w, r, left)) + multiset{r} == AllWanted(w)
  {
    if r in Wanted(w.conf, w.boxes) {
      DeliverBox(w, r, left);
    } else {
      DeliverTask(w, r, left);
    }
  }

  lemma {:induction false} DeliverAllFields(w: World, served: seq<Req<Who>>, left: seq<int>)
    requires |served| == |left|
    ensures var w' := DeliverAll(w, served, left);
      && w'.conf == w.conf && w'.mem == w.mem && w'.inbox == w.inbox && |w'.boxes| == |w.boxes|
      && w'.sent == w.sent && w'.taken == w.taken && w'.view == w.view && w'.tasks == w.tasks && w'.cgs == w.cgs
    decreases |served|
  {
    if served != [] {
      DeliverAllFields(Deliver(w, served[0], left[0]), served[1..], left[1..]);
    }
  }

  lemma {:induction false} DeliverAllMem(w: World, served: seq<Req<Who>>, left: seq<int>)
    requires |served| == |left| && Tree(w.boxes) && multiset(served) <= AllWanted(w)
    ensures Held(DeliverAll(w, served, left)) == Held(w) - Sum(served)
    ensures AllWanted(DeliverAll(w, served, left)) + multiset(served) == AllWanted(w)
    decreases |served|
  {
    if served == [] {
      assert AllWanted(w) + multiset(served) == AllWanted(w);
    } else {
      var r, rest, w1 := served[0], served[1..], Deliver(w, served[0], left[0]);
      SumCons(r, rest, served);
      assert r in multiset(served);
      DeliverMem(w, r, left[0]);
      DeliverTree(w, r, left[0]);
      Peel(AllWanted(w1), multiset{r}, multiset(rest), AllWanted(w), multiset(served));
      DeliverAllMem(w1, rest, left[1..]);
      var a := AllWanted(DeliverAll(w1, rest, left[1..]));
      assert a + multiset(served) == (a + multiset(rest)) + multiset{r};
    }
  }

  lemma Peel<T>(a: multiset<T>, r: multiset<T>, rest: multiset<T>, all: multiset<T>, served: multiset<T>)
    requires a + r == all && served == r + rest && served <= all
    ensures rest <= a
  {
    forall x ensures rest[x] <= a[x] {
      assert (a + r)[x] == all[x] && served[x] == r[x] + rest[x] && served[x] <= all[x];
    }
  }

  lemma SumCons<T>(r: Req<T>, rest: seq<Req<T>>, served: seq<Req<T>>)
    requires served != [] && r == served[0] && rest == served[1..]
    ensures Sum(served) == r.mb + Sum(rest)
    ensures multiset(served) == multiset{r} + multiset(rest)
  {
    assert served == [r] + rest;
    SumAppend([r], rest);
    SingletonOrEmpty([r]);
  }

  lemma DeliverTree(w: World, r: Req<Who>, left: int)
    requires Tree(w.boxes)
    ensures Tree(Deliver(w, r, left).boxes)
  {
    if r.who.Sb? && r.who.id < |w.boxes| {
      AnsweredTree(w.boxes, r.who.id);
    }
  }

  lemma MemTurnMem(w: World)
    requires Tree(w.boxes) && Conserved(w) && Enabled(w, MemTurn)
    ensures Conserved(Next(w, MemTurn))
  {
    var req := w.inbox[0];
    var t := Turn(w.mem, req);
    TurnAccounts(w.mem, req);
    TurnKeepsRequests(w.mem, req);
    DeliverTurn(w, req, t);
  }

  lemma DeliverTurn(w: World, req: Req<Who>, t: Turned<Who>)
    requires Tree(w.boxes) && Conserved(w) && w.inbox != [] && req == w.inbox[0]
    requires Sound(t.pool) && t.pool.availableMB == w.mem.availableMB + Sum(t.served) && |t.served| == |t.left|
    requires multiset(t.served) + multiset(t.pool.waiting) == multiset(w.mem.waiting) + multiset{req}
    ensures Conserved(DeliverAll(w.(mem := t.pool, inbox := w.inbox[1..]), t.served, t.left))
  {
    var w1 := w.(mem := t.pool, inbox := w.inbox[1..]);
    var w2 := DeliverAll(w1, t.served, t.left);
    SumCons(req, w.inbox[1..], w.inbox);
    assert AllWanted(w1) == AllWanted(w);
    Turnover(multiset(w1.inbox), multiset{req}, multiset(w.mem.waiting), multiset(t.served), multiset(t.pool.waiting),
             AllWanted(w1), AllWanted(w2));
    DeliverAllMem(w1, t.served, t.left);
    DeliverAllFields(w1, t.served, t.left);
  }

  lemma Turnover<T>(inbox: multiset<T>, req: multiset<T>, waiting: multiset<T>, served: multiset<T>,
                    waiting': multiset<T>, wanted: multiset<T>, wanted': multiset<T>)
    requires (req + inbox) + waiting == wanted && served + waiting' == waiting + req
    ensures served <= wanted
    ensures wanted' + served == wanted ==> inbox + waiting' == wanted'
  {
    forall x ensures served[x] <= wanted[x] {
      assert (served + waiting')[x] == (waiting + req)[x];
      assert ((req + inbox) + waiting)[x] == wanted[x];
    }
    if wanted' + served == wanted {
      forall x ensures (inbox + waiting')[x] == wanted'[x] {
        assert (served + waiting')[x] == (waiting + req)[x];
        assert ((req + inbox) + waiting)[x] == wanted[x] == (wanted' + served)[x];
      }
    }
  }

  lemma ParentStill(conf: Conf, bs: seq<Box>, act: PairAct, id: nat)
    requires Locals(bs) && PairCan(bs, act, id) && PairDo(bs, act, id).p < |bs| && PairDo(bs, act, id).i < |bs|
    requires PairStands(bs, act, PairDo(bs, act, id))
    ensures Still(conf, bs[PairDo(bs, act, id).p], PairDo(bs, act, id).q)
  {
    assert Local(bs[PairDo(bs, act, id).p]);
  }

  lemma ChildStill(conf: Conf, bs: seq<Box>, act: PairAct, id: nat)
    requires Locals(bs) && PairCan(bs, act, id) && PairDo(bs, act, id).p < |bs| && PairDo(bs, act, id).i < |bs|
    requires PairStands(bs, act, PairDo(bs, act, id))
    ensures Still(conf, bs[PairDo(bs, act, id).i], PairDo(bs, act, id).c)
  {
    assert Local(bs[PairDo(bs, act, id).i]);
  }

  lemma PairStill(conf: Conf, bs: seq<Box>, act: PairAct, id: nat)
    requires Tree(bs) && PairCan(bs, act, id)
    ensures var t := PairDo(bs, act, id);
      t.p < t.i < |bs| && Still(conf, bs[t.p], t.q) && Still(conf, bs[t.i], t.c)
  {
    PairTree(bs, act, id);
    PairPhases(bs, act, id);
    ParentStill(conf, bs, act, id);
    ChildStill(conf, bs, act, id);
  }

  /** Where the two sandboxes of a pair step stand. */
  predicate PairStands(bs: seq<Box>, act: PairAct, t: Two)
    requires t.p < |bs| && t.i < |bs|
  {
    match act
    case ForkBegin => bs[t.p].phase == Idle && bs[t.i].phase == NewProc
    case ForkOk => bs[t.p].phase == ForkRun(t.i) && bs[t.i].phase == NewForkWait
    case ForkFail => bs[t.p].phase == ForkRun(t.i) && bs[t.i].phase == NewForkWait
    case ExitCall => bs[t.p].phase == Idle && bs[t.i].phase.ExitParent? && t.i in bs[t.p].kids
    case FinishExit => bs[t.p].phase == Finish(ByChildExit(t.i)) && bs[t.i].phase.ExitCalled?
  }

  lemma PairPhases(bs: seq<Box>, act: PairAct, id: nat)
    requires Tree(bs) && PairCan(bs, act, id)
    ensures PairDo(bs, act, id).p < |bs| && PairDo(bs, act, id).i < |bs| && PairStands(bs, act, PairDo(bs, act, id))
  {
    var t := PairDo(bs, act, id);
    match act {
      case ForkBegin =>
      case ForkOk => ForkOkTree(bs, t.p, t.i);
      case ForkFail => ForkFailTree(bs, t.p, t.i);
      case ExitCall => ExitCallTree(bs, t.p, t.i);
      case FinishExit => FinishExitTree(bs, t.p, t.i);
    }
  }

  lemma PairMem(w: World, act: PairAct, id: nat)
    requires Tree(w.boxes) && Conserved(w) && PairCan(w.boxes, act, id)
    ensures PairDo(w.boxes, act, id).p < |w.boxes| && PairDo(w.boxes, act, id).i < |w.boxes|
    ensures Conserved(PairNext(w, PairDo(w.boxes, act, id)))
  {
    var t := PairDo(w.boxes, act, id);
    PairStill(w.conf, w.boxes, act, id);
    TwoBoxMem(w, PairNext(w, t), t);
  }

  lemma TwoBoxMem(w: World, w': World, t: Two)
    requires Conserved(w) && t.p < t.i < |w.boxes|
    requires Still(w.conf, w.boxes[t.p], t.q) && Still(w.conf, w.boxes[t.i], t.c)
    requires w'.conf == w.conf && w'.mem == w.mem && w'.evictor == w.evictor && w'.cleanup == w.cleanup
    requires w'.boxes == Put2(w.boxes, t.p, t.q, t.i, t.c) && w'.inbox == w.inbox
    ensures Conserved(w')
  {
    StillUpdate2(w.conf, w.boxes, t.p, t.q, t.i, t.c);
  }

  lemma RunTaskMem(w: World, k: nat)
    requires Tree(w.boxes) && Conserved(w) && TasksKnown(w) && Enabled(w, RunTask(k))
    ensures Conserved(Next(w, RunTask(k)))
  {
    var i := w.tasks[k].sb;
    assert Local(w.boxes[i]);
    EvictStill(w.conf, w.boxes[i], w.tasks[k].force);
    assert w.inbox + [] == w.inbox;
    OneBoxMem(w, Next(w, RunTask(k)), i, Evict(w.boxes[i], w.tasks[k].force), []);
  }

  lemma EvictStill(conf: Conf, b: Box, force: bool)
    requires Local(b) && b.phase == Idle && b.published
    ensures Still(conf, b, Evict(b, force))
  {
  }

  lemma AskMem(w: World, l: Label)
    requires Conserved(w) && Enabled(w, l) && (l == EvPoll || l == CleanupBegin)
    ensures Conserved(Next(w, l))
  {
    var w' := Next(w, l);
    var x, e, c := Wanted(w.conf, w.boxes), EvictorWants(w.evictor), CleanupWants(w.cleanup, w.conf.totalMB);
    if l == EvPoll {
      var r := Req(EvictorTask, 0);
      assert EvictorWants(w'.evictor) == e + multiset{r};
      Regroup(x, e, c, multiset{r});
      NeutralConserves(w, w', [r]);
    } else {
      var r := Req(CleanupTask, -(w.conf.totalMB as int));
      assert CleanupWants(w'.cleanup, w.conf.totalMB) == c + multiset{r};
      Regroup(x, e, c, multiset{r});
      NeutralConserves(w, w', [r]);
    }
  }

  lemma IdleMem(w: World, w': World)
    requires Conserved(w) && w'.conf == w.conf && w'.boxes == w.boxes && w'.mem == w.mem && w'.inbox == w.inbox
    requires CleanupCharge(w'.cleanup, w'.conf.totalMB) == CleanupCharge(w.cleanup, w.conf.totalMB) && TaskWants(w'.evictor, w'.cleanup, w'.conf.totalMB) == TaskWants(w.evictor, w.cleanup, w.conf.totalMB)
    ensures Conserved(w')
  {
  }

  /** Memory is conserved by every step. */
  lemma MemoryStep(w: World, l: Label)
    requires Tree(w.boxes) && Conserved(w) && TasksKnown(w) && Enabled(w, l)
    ensures Conserved(Next(w, l))
  {
    if l.Solo? {
      SoloMem(w, l.id, l.act);
    } else if l.Pair? {
      PairMem(w, l.act2, l.id);
    } else {
      TaskMem(w, l);
    }
  }

  lemma TaskMem(w: World, l: Label)
    requires Tree(w.boxes) && Conserved(w) && TasksKnown(w) && Enabled(w, l) && !l.Solo? && !l.Pair?
    ensures Conserved(Next(w, l))
  {
    if l.StartCreate? {
      NewMem(w, l.from, l.mb);
    } else if l.MemTurn? {
      MemTurnMem(w);
    } else if l.RunTask? {
      RunTaskMem(w, l.k);
    } else if l.EvPoll? || l.CleanupBegin? {
      AskMem(w, l);
    } else {
      IdleMem(w, Next(w, l));
    }
  }
}
