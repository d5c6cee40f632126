/** Invocation dispatch: clients, the function task and its instances pass requests over
    funcChan, instChan, doneChan and each request's own done channel
    (go/worker/lambda/lambdaFunction.go, lambdaInstance.go). */
module Dispatch {
  import opened Common

  const CAP := 1024

  /** Where LambdaInstance.Task stands: blocked for a request or a kill; holding a request and
      making its sandbox ready; forwarding it; request handed back, about to look for a kill;
      about to grab another request; returned. */
  datatype Pc = Waiting | Preparing | Serving | Finished | Grabbing | Stopped

  /** `req` is the request in the instance's hands, `sb` whether it has a sandbox, `killed`
      whether a kill signal is in its killChan, `listed` whether the function still lists it. */
  datatype Inst = Inst(pc: Pc, req: Option<nat>, sb: bool, reuse: bool, killed: bool, listed: bool)

  /** What the function task holds: a new request, or one that came back done. */
  datatype Hand = Empty | Fresh(req: nat) | Back(req: nat)

  /** Requests are numbered by acceptance. `answered` are the requests whose done channel was
      signalled, `dropped` those nobody will ever signal, both in order. */
  datatype State = State(accepted: nat, funcChan: seq<nat>, hand: Hand, instChan: seq<nat>, insts: seq<Inst>,
                         doneChan: seq<nat>, answered: seq<nat>, dropped: seq<nat>, outstanding: int, running: bool)

  const INIT := State(0, [], Empty, [], [], [], [], [], 0, true)

  datatype Label =
    | Invoke
    | TaskTake
    | TaskReject
    | TaskForward
    | TaskDone
    | TaskAnswer
    | NewInst(reuse: bool)
    | KillInst(j: nat)
    | Shutdown
    | Receive(j: nat)
    | KillWaiting(j: nat)
    | Prepared(j: nat)
    | CreateFailed(j: nat)
    | Served(j: nat, sandboxOk: bool)
    | KillFinished(j: nat)
    | CheckKill(j: nat)
    | Grab(j: nat, pauseOk: bool)

  predicate At(s: State, j: nat, pc: Pc) {
    j < |s.insts| && s.insts[j].pc == pc
  }

  predicate Enabled(s: State, l: Label) {
    match l
    case Invoke => |s.funcChan| < CAP
    case TaskTake => s.running && s.hand == Empty && s.funcChan != []
    case TaskReject => s.running && s.hand.Fresh?
    case TaskForward => s.running && s.hand.Fresh? && |s.instChan| < CAP
    case TaskDone => s.running && s.hand == Empty && s.doneChan != []
    case TaskAnswer => s.running && s.hand.Back?
    case NewInst(_) => s.running
    case KillInst(j) => s.running && j < |s.insts| && s.insts[j].listed
    case Shutdown => s.running && s.hand == Empty
    case Receive(j) => At(s, j, Waiting) && s.instChan != []
    case KillWaiting(j) => At(s, j, Waiting) && s.insts[j].killed
    case Prepared(j) => At(s, j, Preparing)
    case CreateFailed(j) => At(s, j, Preparing) && s.insts[j].req.Some? && |s.doneChan| < CAP
    case Served(j, _) => At(s, j, Serving) && s.insts[j].req.Some? && |s.doneChan| < CAP
    case KillFinished(j) => At(s, j, Finished) && s.insts[j].killed
    case CheckKill(j) => At(s, j, Finished) && !s.insts[j].killed
    case Grab(j, _) => At(s, j, Grabbing)
  }

  function Put(s: State, j: nat, i: Inst): State
    requires j < |s.insts|
  {
    s.(insts := s.insts[j := i])
  }

  /** The non-blocking grab, and what follows: with a sandbox the instance serves the request,
      or pauses if there was none; without one it breaks out, and a request it has just taken
      is forgotten. */
  function GrabNext(s: State, j: nat, pauseOk: bool): State
    requires At(s, j, Grabbing)
  {
    var i := s.insts[j];
    if s.instChan == [] then
      Put(s, j, i.(pc := Waiting, sb := i.sb && pauseOk))
    else if i.sb then
      Put(s, j, i.(pc := Serving, req := Some(s.instChan[0]))).(instChan := s.instChan[1..])
    else
      Put(s, j, i.(pc := Waiting)).(instChan := s.instChan[1..], dropped := s.dropped + [s.instChan[0]])
  }

  function Killed(i: Inst): Inst {
    if i.listed then i.(killed := true, listed := false) else i
  }

  function KillAll(insts: seq<Inst>): (r: seq<Inst>)
    ensures |r| == |insts| && forall j :: 0 <= j < |r| ==> r[j] == Killed(insts[j])
  {
    if insts == [] then [] else KillAll(insts[..|insts| - 1]) + [Killed(insts[|insts| - 1])]
  }

  function Next(s: State, l: Label): State
    requires Enabled(s, l)
  {
    match l
    case Invoke => s.(accepted := s.accepted + 1, funcChan := s.funcChan + [s.accepted])
    case TaskTake => s.(funcChan := s.funcChan[1..], hand := Fresh(s.funcChan[0]))
    case TaskReject => s.(hand := Empty, answered := s.answered + [s.hand.req])
    case TaskForward => s.(hand := Empty, instChan := s.instChan + [s.hand.req], outstanding := s.outstanding + 1)
    case TaskDone => s.(doneChan := s.doneChan[1..], hand := Back(s.doneChan[0]), outstanding := s.outstanding - 1)
    case TaskAnswer => s.(hand := Empty, answered := s.answered + [s.hand.req])
    case NewInst(reuse) => s.(insts := s.insts + [Inst(Waiting, None, false, reuse, false, true)])
    case KillInst(j) => Put(s, j, Killed(s.insts[j]))
    case Shutdown => s.(running := false, insts := KillAll(s.insts))
    case Receive(j) =>
      Put(s, j, s.insts[j].(pc := Preparing, req := Some(s.instChan[0]))).(instChan := s.instChan[1..])
    case KillWaiting(j) => Put(s, j, s.insts[j].(pc := Stopped, sb := false))
    case Prepared(j) => Put(s, j, s.insts[j].(pc := Serving, sb := true))
    case CreateFailed(j) =>
      Put(s, j, s.insts[j].(pc := Waiting, req := None, sb := false)).(doneChan := s.doneChan + [s.insts[j].req.value])
    case Served(j, sandboxOk) =>
      Put(s, j, s.insts[j].(pc := Finished, req := None, sb := sandboxOk && s.insts[j].reuse))
        .(doneChan := s.doneChan + [s.insts[j].req.value])
    case KillFinished(j) => Put(s, j, s.insts[j].(pc := Stopped, sb := false))
    case CheckKill(j) => Put(s, j, s.insts[j].(pc := Grabbing))
    case Grab(j, pauseOk) => GrabNext(s, j, pauseOk)
  }

  // ------------------------------------------------------------------ conservation

  function Holds(i: Inst, r: nat): nat {
    if i.req == Some(r) then 1 else 0
  }

  /** How many instances hold request `r`, and how many hold any request. */
  function Held(insts: seq<Inst>, r: nat): nat {
    if insts == [] then 0 else Held(insts[..|insts| - 1], r) + Holds(insts[|insts| - 1], r)
  }

  function Busy(insts: seq<Inst>): nat {
    if insts == [] then 0 else Busy(insts[..|insts| - 1]) + (if insts[|insts| - 1].req.Some? then 1 else 0)
  }

  function InHand(h: Hand, r: nat): nat {
    if h != Empty && h.req == r then 1 else 0
  }

  /** Everything handed to the function task or beyond. */
  function Elsewhere(s: State, r: nat): nat {
    InHand(s.hand, r) + Occurs(s.instChan, r) + Held(s.insts, r) + Occurs(s.doneChan, r)
    + Occurs(s.answered, r) + Occurs(s.dropped, r)
  }

  /** Every accepted request is in exactly one place. */
  ghost predicate OnePlace(s: State) {
    forall r: nat :: Occurs(s.funcChan, r) + Elsewhere(s, r) == if r < s.accepted then 1 else 0
  }

  /** An instance holds a request exactly while it prepares for it or serves it; without reuse
      it has no sandbox once it is done with one; a stopped instance has none. */
  predicate InstOk(i: Inst) {
    && (i.req.Some? <==> i.pc == Preparing || i.pc == Serving)
    && (i.pc == Serving ==> i.sb)
    && (!i.reuse && i.pc != Serving ==> !i.sb)
    && (i.pc == Stopped ==> !i.sb)
  }

  ghost predicate InstsOk(insts: seq<Inst>) {
    forall j: nat :: j < |insts| ==> InstOk(insts[j])
  }

  ghost predicate Inv(s: State) {
    && OnePlace(s)
    && InstsOk(s.insts)
    && s.outstanding == |s.instChan| + Busy(s.insts) + |s.doneChan| + |s.dropped|
  }

  lemma {:induction false} HeldUpdate(insts: seq<Inst>, j: nat, i: Inst, r: nat)
    requires j < |insts|
    ensures Held(insts[j := i], r) == Held(insts, r) - Holds(insts[j], r) + Holds(i, r)
    decreases |insts|
  {
    var n := |insts| - 1;
    if j < n {
      HeldUpdate(insts[..n], j, i, r);
      assert insts[j := i][..n] == insts[..n][j := i];
    } else {
      assert insts[j := i][..n] == insts[..n];
    }
  }

  lemma {:induction false} BusyUpdate(insts: seq<Inst>, j: nat, i: Inst)
    requires j < |insts|
    ensures Busy(insts[j := i]) == Busy(insts) - (if insts[j].req.Some? then 1 else 0) + (if i.req.Some? then 1 else 0)
    decreases |insts|
  {
    var n := |insts| - 1;
    if j < n {
      BusyUpdate(insts[..n], j, i);
      assert insts[j := i][..n] == insts[..n][j := i];
    } else {
      assert insts[j := i][..n] == insts[..n];
    }
  }

  lemma {:induction false} SameHeld(insts: seq<Inst>, insts': seq<Inst>, r: nat)
    requires |insts'| == |insts| && forall j :: 0 <= j < |insts| ==> insts'[j].req == insts[j].req
    ensures Held(insts', r) == Held(insts, r) && Busy(insts') == Busy(insts)
    decreases |insts|
  {
    if insts != [] {
      SameHeld(insts[..|insts| - 1], insts'[..|insts| - 1], r);
    }
  }

  function Total(s: State, r: nat): nat {
    Occurs(s.funcChan, r) + Elsewhere(s, r)
  }

  /** A client's or the function task's step moves requests, and loses none. */
  lemma TaskTotal(s: State, l: Label, r: nat)
    requires Enabled(s, l)
    requires l.Invoke? || l.TaskTake? || l.TaskReject? || l.TaskForward? || l.TaskDone? || l.TaskAnswer?
    ensures Total(Next(s, l), r) == Total(s, r) + if l.Invoke? && r == s.accepted then 1 else 0
  {
    match l
    case Invoke => OccursSnoc(s.funcChan, s.accepted, r);
    case TaskTake => OccursTail(s.funcChan, r);
    case TaskReject => OccursSnoc(s.answered, s.hand.req, r);
    case TaskForward => OccursSnoc(s.instChan, s.hand.req, r);
    case TaskDone => OccursTail(s.doneChan, r);
    case TaskAnswer => OccursSnoc(s.answered, s.hand.req, r);
  }

  /** Starting and stopping instances moves no request. */
  lemma ScaleTotal(s: State, l: Label, r: nat)
    requires Enabled(s, l)
    requires l.NewInst? || l.KillInst? || l.Shutdown?
    ensures Total(Next(s, l), r) == Total(s, r) && Busy(Next(s, l).insts) == Busy(s.insts)
  {
    match l
    case NewInst(_) => assert Next(s, l).insts[..|s.insts|] == s.insts;
    case KillInst(j) => SameHeld(s.insts, Next(s, l).insts, r);
    case Shutdown => SameHeld(s.insts, Next(s, l).insts, r);
  }

  /** What an instance's step can touch: the two channels it shares, what it drops, its hands. */
  function Near(s: State, j: nat, r: nat): nat
    requires j < |s.insts|
  {
    Occurs(s.instChan, r) + Occurs(s.doneChan, r) + Occurs(s.dropped, r) + Holds(s.insts[j], r)
  }

  lemma NearTotal(s: State, s': State, j: nat, r: nat)
    requires j < |s.insts| && |s'.insts| == |s.insts| && s'.insts == s.insts[j := s'.insts[j]]
    requires s'.hand == s.hand && s'.funcChan == s.funcChan && s'.answered == s.answered
    requires Near(s', j, r) == Near(s, j, r)
    ensures Total(s', r) == Total(s, r)
  {
    HeldUpdate(s.insts, j, s'.insts[j], r);
  }

  predicate OfInst(l: Label) {
    l.Receive? || l.KillWaiting? || l.Prepared? || l.CreateFailed? || l.Served? || l.KillFinished? || l.CheckKill? || l.Grab?
  }

  lemma StepInsts(s: State, l: Label)
    requires Enabled(s, l) && OfInst(l)
    ensures l.j < |s.insts| && |Next(s, l).insts| == |s.insts|
    ensures Next(s, l).insts == s.insts[l.j := Next(s, l).insts[l.j]]
    ensures Next(s, l).hand == s.hand && Next(s, l).funcChan == s.funcChan && Next(s, l).answered == s.answered
    ensures Next(s, l).accepted == s.accepted && Next(s, l).outstanding == s.outstanding
  {
  }

  lemma ReceiveNear(s: State, j: nat, r: nat)
    requires Enabled(s, Receive(j)) && InstOk(s.insts[j])
    ensures Near(Next(s, Receive(j)), j, r) == Near(s, j, r)
  {
    OccursTail(s.instChan, r);
  }

  lemma GrabNear(s: State, j: nat, pauseOk: bool, r: nat)
    requires At(s, j, Grabbing) && InstOk(s.insts[j])
    ensures Near(GrabNext(s, j, pauseOk), j, r) == Near(s, j, r)
  {
    if s.instChan != [] {
      OccursTail(s.instChan, r);
      OccursSnoc(s.dropped, s.instChan[0], r);
    }
  }

  /** Any other step of an instance. */
  lemma OtherNear(s: State, l: Label, r: nat)
    requires Enabled(s, l) && OfInst(l) && !l.Receive? && !l.Grab? && InstOk(s.insts[l.j])
    ensures l.j < |Next(s, l).insts| && Near(Next(s, l), l.j, r) == Near(s, l.j, r)
  {
    if l.CreateFailed? || l.Served? {
      OccursSnoc(s.doneChan, s.insts[l.j].req.value, r);
    }
  }

  lemma InstStepTotal(s: State, l: Label, r: nat)
    requires Enabled(s, l) && OfInst(l) && InstOk(s.insts[l.j])
    ensures Total(Next(s, l), r) == Total(s, r)
  {
    StepInsts(s, l);
    if l.Receive? {
      ReceiveNear(s, l.j, r);
    } else if l.Grab? {
      GrabNear(s, l.j, l.pauseOk, r);
    } else {
      OtherNear(s, l, r);
    }
    NearTotal(s, Next(s, l), l.j, r);
  }

  lemma InstStepOk(s: State, l: Label)
    requires Enabled(s, l) && OfInst(l) && InstOk(s.insts[l.j])
    ensures l.j < |Next(s, l).insts| && InstOk(Next(s, l).insts[l.j])
  {
  }

  lemma OnePlaceStep(s: State, l: Label)
    requires Enabled(s, l) && OnePlace(s) && InstsOk(s.insts)
    ensures OnePlace(Next(s, l))
  {
    var s' := Next(s, l);
    forall r: nat ensures Occurs(s'.funcChan, r) + Elsewhere(s', r) == if r < s'.accepted then 1 else 0 {
      assert Total(s, r) == if r < s.accepted then 1 else 0;
      if OfInst(l) {
        StepInsts(s, l);
        InstStepTotal(s, l, r);
      } else if l.NewInst? || l.KillInst? || l.Shutdown? {
        ScaleTotal(s, l, r);
      } else {
        TaskTotal(s, l, r);
      }
      assert Total(s', r) == if r < s'.accepted then 1 else 0;
    }
  }

  lemma InstsOkStep(s: State, l: Label)
    requires Enabled(s, l) && InstsOk(s.insts)
    ensures InstsOk(Next(s, l).insts)
  {
    if OfInst(l) {
      StepInsts(s, l);
      InstStepOk(s, l);
    }
  }

  lemma OutstandingStep(s: State, l: Label)
    requires Enabled(s, l) && InstsOk(s.insts)
    requires s.outstanding == |s.instChan| + Busy(s.insts) + |s.doneChan| + |s.dropped|
    ensures var s' := Next(s, l); s'.outstanding == |s'.instChan| + Busy(s'.insts) + |s'.doneChan| + |s'.dropped|
  {
    if OfInst(l) {
      StepInsts(s, l);
      BusyUpdate(s.insts, l.j, Next(s, l).insts[l.j]);
    } else if l.NewInst? || l.KillInst? || l.Shutdown? {
      ScaleTotal(s, l, 0);
    }
  }

  // ------------------------------------------------------------------ runs

  predicate Legal(s: State, ls: seq<Label>)
    decreases |ls|
  {
    ls == [] || (Enabled(s, ls[0]) && Legal(Next(s, ls[0]), ls[1..]))
  }

  function Run(s: State, ls: seq<Label>): State
    requires Legal(s, ls)
    decreases |ls|
  {
    if ls == [] then s else Run(Next(s, ls[0]), ls[1..])
  }

  lemma InvStep(s: State, l: Label)
    requires Enabled(s, l) && Inv(s)
    ensures Inv(Next(s, l))
  {
    OnePlaceStep(s, l);
    InstsOkStep(s, l);
    OutstandingStep(s, l);
  }

  lemma {:induction false} InvRun(s: State, ls: seq<Label>)
    requires Legal(s, ls) && Inv(s)
    ensures Inv(Run(s, ls))
    decreases |ls|
  {
    if ls != [] {
      InvStep(s, ls[0]);
      InvRun(Next(s, ls[0]), ls[1..]);
    }
  }

  /** Through every run every accepted request is in exactly one place, and the count of
      outstanding requests is exact, dropped requests included. */
  lemma RequestsConserved(ls: seq<Label>)
    requires Legal(INIT, ls)
    ensures Inv(Run(INIT, ls))
  {
    assert OnePlace(INIT);
    InvRun(INIT, ls);
  }

  lemma {:induction false} OccursMember(s: seq<nat>, i: nat)
    requires i < |s|
    ensures Occurs(s, s[i]) >= 1
    decreases |s|
  {
    if i < |s| - 1 {
      OccursMember(s[..|s| - 1], i);
    }
  }

  lemma {:induction false} OccursTwice(s: seq<nat>, i: nat, k: nat)
    requires i < k < |s| && s[i] == s[k]
    ensures Occurs(s, s[i]) >= 2
    decreases |s|
  {
    if k < |s| - 1 {
      OccursTwice(s[..|s| - 1], i, k);
    } else {
      OccursMember(s[..|s| - 1], i);
    }
  }

  lemma {:induction false} OccursNone(s: seq<nat>, r: nat)
    requires r !in s
    ensures Occurs(s, r) == 0
    decreases |s|
  {
    if s != [] {
      OccursNone(s[..|s| - 1], r);
    }
  }

  /** No request gets two done signals, and none that was dropped gets one. */
  lemma AnsweredOnce(ls: seq<Label>)
    requires Legal(INIT, ls)
    ensures forall i, k :: 0 <= i < k < |Run(INIT, ls).answered| ==> Run(INIT, ls).answered[i] != Run(INIT, ls).answered[k]
    ensures forall r :: r in Run(INIT, ls).dropped ==> r !in Run(INIT, ls).answered
  {
    RequestsConserved(ls);
    var s := Run(INIT, ls);
    forall i, k | 0 <= i < k < |s.answered| ensures s.answered[i] != s.answered[k] {
      var r := s.answered[i];
      assert Occurs(s.funcChan, r) + Elsewhere(s, r) <= 1;
      if r == s.answered[k] {
        OccursTwice(s.answered, i, k);
        assert false;
      }
    }
    forall r | r in s.dropped ensures r !in s.answered {
      assert Occurs(s.funcChan, r) + Elsewhere(s, r) <= 1;
      var i :| 0 <= i < |s.dropped| && s.dropped[i] == r;
      OccursMember(s.dropped, i);
      if r in s.answered {
        var k :| 0 <= k < |s.answered| && s.answered[k] == r;
        OccursMember(s.answered, k);
        assert false;
      }
    }
  }

  // ------------------------------------------------------------------ lost requests

  /** The instance has lost its sandbox and still grabs a request. */
  predicate Discards(s: State, l: Label) {
    l.Grab? && At(s, l.j, Grabbing) && !s.insts[l.j].sb && s.instChan != []
  }

  /** The requests taken in such steps, in order. */
  function Discarded(s: State, ls: seq<Label>): seq<nat>
    requires Legal(s, ls)
    decreases |ls|
  {
    if ls == [] then []
    else (if Discards(s, ls[0]) then [s.instChan[0]] else []) + Discarded(Next(s, ls[0]), ls[1..])
  }

  lemma DroppedStep(s: State, l: Label)
    requires Enabled(s, l)
    ensures Next(s, l).dropped == s.dropped + if Discards(s, l) then [s.instChan[0]] else []
  {
    if !Discards(s, l) {
      assert s.dropped + [] == s.dropped;
    }
  }

  /** The requests lost are exactly those at the front of instChan in such a step, and no
      other step loses one. */
  lemma {:induction false} LostExactly(s: State, ls: seq<Label>)
    requires Legal(s, ls)
    ensures Run(s, ls).dropped == s.dropped + Discarded(s, ls)
    decreases |ls|
  {
    if ls != [] {
      DroppedStep(s, ls[0]);
      LostExactly(Next(s, ls[0]), ls[1..]);
      var d := if Discards(s, ls[0]) then [s.instChan[0]] else [];
      assert (s.dropped + d) + Discarded(Next(s, ls[0]), ls[1..]) == s.dropped + (d + Discarded(Next(s, ls[0]), ls[1..]));
    } else {
      assert s.dropped + [] == s.dropped;
    }
  }

  /** The sandbox is kept: the instance reuses it and the round trip did not fail. */
  predicate Keeps(l: Label) {
    && (l.NewInst? ==> l.reuse)
    && (l.Served? ==> l.sandboxOk)
  }

  predicate Kept(i: Inst) {
    i.reuse && (i.pc == Finished || i.pc == Grabbing ==> i.sb)
  }

  lemma KeptStep(s: State, l: Label)
    requires Enabled(s, l) && Keeps(l) && forall j :: 0 <= j < |s.insts| ==> Kept(s.insts[j])
    ensures var s' := Next(s, l); (forall j :: 0 <= j < |s'.insts| ==> Kept(s'.insts[j])) && s'.dropped == s.dropped
  {
  }

  /** With reusable sandboxes and no failed round trip no request is ever lost. */
  lemma {:induction false} NothingLost(s: State, ls: seq<Label>)
    requires Legal(s, ls) && forall j :: 0 <= j < |s.insts| ==> Kept(s.insts[j])
    requires forall i :: 0 <= i < |ls| ==> Keeps(ls[i])
    ensures Run(s, ls).dropped == s.dropped
    decreases |ls|
  {
    if ls != [] {
      KeptStep(s, ls[0]);
      NothingLost(Next(s, ls[0]), ls[1..]);
    }
  }

  ghost predicate Reached(ls: seq<Label>, s: State) {
    Legal(INIT, ls) && Run(INIT, ls) == s
  }

  lemma {:induction false} Extend(s: State, ls: seq<Label>, l: Label)
    requires Legal(s, ls) && Enabled(Run(s, ls), l)
    ensures Legal(s, ls + [l]) && Run(s, ls + [l]) == Next(Run(s, ls), l)
    decreases |ls|
  {
    if ls == [] {
      assert ls + [l] == [l];
    } else {
      Extend(Next(s, ls[0]), ls[1..], l);
      assert (ls + [l])[1..] == ls[1..] + [l];
    }
  }

  lemma Then(ls: seq<Label>, s: State, l: Label, s': State, ls': seq<Label>)
    requires Reached(ls, s) && Enabled(s, l) && Next(s, l) == s' && ls' == ls + [l]
    ensures Reached(ls', s')
  {
    Extend(INIT, ls, l);
  }

  const TWO_QUEUED := [Invoke, TaskTake, TaskForward, Invoke, TaskTake, TaskForward]

  lemma QueueTwo()
    ensures Reached(TWO_QUEUED, State(2, [], Empty, [0, 1], [], [], [], [], 2, true))
  {
    var q := TWO_QUEUED;
    Then([], INIT, Invoke, State(1, [0], Empty, [], [], [], [], [], 0, true), q[..1]);
    Then(q[..1], State(1, [0], Empty, [], [], [], [], [], 0, true), TaskTake,
         State(1, [], Fresh(0), [], [], [], [], [], 0, true), q[..2]);
    Then(q[..2], State(1, [], Fresh(0), [], [], [], [], [], 0, true), TaskForward,
         State(1, [], Empty, [0], [], [], [], [], 1, true), q[..3]);
    Then(q[..3], State(1, [], Empty, [0], [], [], [], [], 1, true), Invoke,
         State(2, [1], Empty, [0], [], [], [], [], 1, true), q[..4]);
    Then(q[..4], State(2, [1], Empty, [0], [], [], [], [], 1, true), TaskTake,
         State(2, [], Fresh(1), [0], [], [], [], [], 1, true), q[..5]);
    Then(q[..5], State(2, [], Fresh(1), [0], [], [], [], [], 1, true), TaskForward,
         State(2, [], Empty, [0, 1], [], [], [], [], 2, true), q);
  }

  /** One instance serves the first of two queued requests and looks for the second. */
  function ServeOne(reuse: bool, ok: bool): seq<Label> {
    TWO_QUEUED + [NewInst(reuse)] + [Receive(0)] + [Prepared(0)] + [Served(0, ok)] + [CheckKill(0)] + [Grab(0, true)]
  }

  /** Without reuse, or when the round trip fails, the second request is lost. */
  lemma SecondLost(reuse: bool, ok: bool)
    requires !(reuse && ok)
    ensures Legal(INIT, ServeOne(reuse, ok)) && Run(INIT, ServeOne(reuse, ok)).dropped == [1]
  {
    QueueTwo();
    var s := State(2, [], Empty, [0, 1], [], [], [], [], 2, true);
    var q := TWO_QUEUED + [NewInst(reuse)];
    var i := Inst(Waiting, None, false, reuse, false, true);
    var s1 := s.(insts := [i]);
    Then(TWO_QUEUED, s, NewInst(reuse), s1, q);
    var s2 := s.(insts := [i.(pc := Preparing, req := Some(0))], instChan := [1]);
    Then(q, s1, Receive(0), s2, q + [Receive(0)]);
    var s3 := s2.(insts := [i.(pc := Serving, req := Some(0), sb := true)]);
    Then(q + [Receive(0)], s2, Prepared(0), s3, q + [Receive(0)] + [Prepared(0)]);
    FinishOne(q + [Receive(0)] + [Prepared(0)], s3, ok);
  }

  lemma FinishOne(q: seq<Label>, s: State, ok: bool)
    requires Reached(q, s) && |s.insts| == 1 && s.insts[0].pc == Serving && s.insts[0].req.Some? && s.instChan != []
    requires !s.insts[0].killed && s.doneChan == []
    requires !(s.insts[0].reuse && ok)
    ensures Legal(INIT, q + [Served(0, ok)] + [CheckKill(0)] + [Grab(0, true)])
    ensures Run(INIT, q + [Served(0, ok)] + [CheckKill(0)] + [Grab(0, true)]).dropped == s.dropped + [s.instChan[0]]
  {
    var i := s.insts[0].(pc := Finished, req := None, sb := false);
    var s1 := s.(insts := [i], doneChan := [s.insts[0].req.value]);
    Then(q, s, Served(0, ok), s1, q + [Served(0, ok)]);
    var s2 := s1.(insts := [i.(pc := Grabbing)]);
    Then(q + [Served(0, ok)], s1, CheckKill(0), s2, q + [Served(0, ok)] + [CheckKill(0)]);
    Extend(INIT, q + [Served(0, ok)] + [CheckKill(0)], Grab(0, true));
  }

  // ------------------------------------------------------------------ progress

  /** Steps of the function task and the instances, as opposed to clients, scaling and shutdown. */
  predicate Internal(l: Label) {
    !l.Invoke? && !l.NewInst? && !l.KillInst? && !l.Shutdown?
  }

  function Steps(i: Inst): nat {
    match i.pc
    case Waiting => 1
    case Preparing => 9
    case Serving => 8
    case Finished => 3
    case Grabbing => 2
    case Stopped => 0
  }

  function AllSteps(insts: seq<Inst>): nat {
    if insts == [] then 0 else AllSteps(insts[..|insts| - 1]) + Steps(insts[|insts| - 1])
  }

  /** A bound on the steps still to come without new requests or instances. */
  function Rank(s: State): nat {
    12 * |s.funcChan| + (match s.hand case Empty => 0 case Fresh(_) => 11 case Back(_) => 1) + 10 * |s.instChan|
    + AllSteps(s.insts) + 2 * |s.doneChan|
  }

  lemma {:induction false} StepsUpdate(insts: seq<Inst>, j: nat, i: Inst)
    requires j < |insts|
    ensures AllSteps(insts[j := i]) == AllSteps(insts) - Steps(insts[j]) + Steps(i)
    decreases |insts|
  {
    var n := |insts| - 1;
    if j < n {
      StepsUpdate(insts[..n], j, i);
      assert insts[j := i][..n] == insts[..n][j := i];
    } else {
      assert insts[j := i][..n] == insts[..n];
    }
  }

  lemma InstSteps(s: State, l: Label)
    requires Enabled(s, l) && OfInst(l)
    ensures l.j < |Next(s, l).insts|
    ensures Steps(Next(s, l).insts[l.j]) + 10 * |Next(s, l).instChan| + 2 * |Next(s, l).doneChan|
            < Steps(s.insts[l.j]) + 10 * |s.instChan| + 2 * |s.doneChan|
  {
  }

  lemma RankStep(s: State, l: Label)
    requires Enabled(s, l) && Internal(l)
    ensures Rank(Next(s, l)) < Rank(s)
  {
    if OfInst(l) {
      StepInsts(s, l);
      InstSteps(s, l);
      StepsUpdate(s.insts, l.j, Next(s, l).insts[l.j]);
    }
  }

  /** Some instance that nobody has told to stop. */
  predicate Alive(i: Inst) {
    i.pc != Stopped && !i.killed
  }

  lemma AliveStep(s: State, l: Label, j: nat)
    requires Enabled(s, l) && Internal(l) && j < |s.insts| && Alive(s.insts[j])
    ensures j < |Next(s, l).insts| && Alive(Next(s, l).insts[j])
    ensures Next(s, l).running == s.running && Next(s, l).accepted == s.accepted
  {
  }

  ghost predicate Quiet(s: State) {
    forall l: Label :: Internal(l) ==> !Enabled(s, l)
  }

  lemma QuietTask(s: State)
    requires s.running && Quiet(s)
    ensures s.hand == Empty && s.funcChan == [] && s.doneChan == []
  {
    assert !Enabled(s, TaskReject) && !Enabled(s, TaskAnswer);
    assert !Enabled(s, TaskTake) && !Enabled(s, TaskDone);
  }

  lemma QuietInst(s: State, j: nat)
    requires Quiet(s) && j < |s.insts| && InstOk(s.insts[j]) && s.doneChan == []
    ensures s.insts[j].req == None
    ensures Alive(s.insts[j]) ==> s.instChan == []
  {
    assert !Enabled(s, Prepared(j)) && !Enabled(s, Served(j, true));
    assert !Enabled(s, Receive(j)) && !Enabled(s, CheckKill(j)) && !Enabled(s, Grab(j, true));
  }

  lemma {:induction false} NoneHeld(insts: seq<Inst>, r: nat)
    requires forall j: nat :: j < |insts| ==> insts[j].req == None
    ensures Held(insts, r) == 0 && Busy(insts) == 0
    decreases |insts|
  {
    if insts != [] {
      NoneHeld(insts[..|insts| - 1], r);
    }
  }

  /** Every accepted request has been answered or lost, each exactly once, and the count of
      outstanding requests is what was lost. */
  ghost predicate Settled(s: State) {
    && (forall r: nat :: r < s.accepted ==> Occurs(s.answered, r) + Occurs(s.dropped, r) == 1)
    && s.outstanding == |s.dropped|
  }

  lemma QuietSettled(s: State, j: nat)
    requires Inv(s) && s.running && Quiet(s) && j < |s.insts| && Alive(s.insts[j])
    ensures Settled(s)
  {
    QuietTask(s);
    forall k: nat | k < |s.insts| ensures s.insts[k].req == None {
      QuietInst(s, k);
    }
    QuietInst(s, j);
    NoneHeld(s.insts, 0);
    forall r: nat | r < s.accepted ensures Occurs(s.answered, r) + Occurs(s.dropped, r) == 1 {
      NoneHeld(s.insts, r);
      assert Occurs(s.funcChan, r) + Elsewhere(s, r) == 1;
    }
  }

  lemma {:induction false} Drains(s: State, more: seq<Label>, j: nat)
    requires Inv(s) && s.running && j < |s.insts| && Alive(s.insts[j])
    requires Legal(s, more) && forall i :: 0 <= i < |more| ==> Internal(more[i])
    ensures |more| <= Rank(s) && Run(s, more).accepted == s.accepted
    ensures Quiet(Run(s, more)) ==> Settled(Run(s, more))
    decreases |more|
  {
    if more == [] {
      if Quiet(s) {
        QuietSettled(s, j);
      }
    } else {
      InvStep(s, more[0]);
      RankStep(s, more[0]);
      AliveStep(s, more[0], j);
      Drains(Next(s, more[0]), more[1..], j);
    }
  }

  /** From every reachable state in which the task runs and some instance has not been told to
      stop, the function task and the instances take boundedly many steps on their own, and
      when they can take no more every accepted request has been answered or lost. */
  lemma EveryRequestSettles(ls: seq<Label>, more: seq<Label>, j: nat)
    requires Legal(INIT, ls) && Legal(Run(INIT, ls), more)
    requires Run(INIT, ls).running && j < |Run(INIT, ls).insts| && Alive(Run(INIT, ls).insts[j])
    requires forall i :: 0 <= i < |more| ==> Internal(more[i])
    ensures |more| <= Rank(Run(INIT, ls))
    ensures Quiet(Run(Run(INIT, ls), more)) ==> Settled(Run(Run(INIT, ls), more))
  {
    RequestsConserved(ls);
    Drains(Run(INIT, ls), more, j);
  }

  /** Once they can take no more, every accepted request has been answered if and only if no
      step has discarded one. */
  lemma AllAnsweredIff(ls: seq<Label>, more: seq<Label>, j: nat)
    requires Legal(INIT, ls) && Legal(Run(INIT, ls), more)
    requires Run(INIT, ls).running && j < |Run(INIT, ls).insts| && Alive(Run(INIT, ls).insts[j])
    requires forall i :: 0 <= i < |more| ==> Internal(more[i])
    requires Quiet(Run(Run(INIT, ls), more))
    ensures (forall r: nat :: r < Run(INIT, ls).accepted ==> r in Run(Run(INIT, ls), more).answered) <==>
            Discarded(INIT, ls) == [] && Discarded(Run(INIT, ls), more) == []
  {
    var s := Run(INIT, ls);
    var s' := Run(s, more);
    RequestsConserved(ls);
    Drains(s, more, j);
    InvRun(s, more);
    LostInAll(ls, more);
    SettledAnswered(s');
  }

  lemma LostInAll(ls: seq<Label>, more: seq<Label>)
    requires Legal(INIT, ls) && Legal(Run(INIT, ls), more)
    ensures Run(Run(INIT, ls), more).dropped == [] <==> Discarded(INIT, ls) == [] && Discarded(Run(INIT, ls), more) == []
  {
    LostExactly(INIT, ls);
    LostExactly(Run(INIT, ls), more);
  }

  lemma SettledAnswered(s: State)
    requires Inv(s) && Settled(s)
    ensures (forall r: nat :: r < s.accepted ==> r in s.answered) <==> s.dropped == []
  {
    if s.dropped == [] {
      forall r: nat | r < s.accepted ensures r in s.answered {
        assert Occurs(s.answered, r) + Occurs(s.dropped, r) == 1;
        if r !in s.answered {
          OccursNone(s.answered, r);
          assert false;
        }
      }
    } else {
      var r := s.dropped[0];
      OccursMember(s.dropped, 0);
      assert Occurs(s.funcChan, r) + Elsewhere(s, r) == if r < s.accepted then 1 else 0;
      assert r < s.accepted && Occurs(s.answered, r) == 0;
      if r in s.answered {
        var k :| 0 <= k < |s.answered| && s.answered[k] == r;
        OccursMember(s.answered, k);
        assert false;
      }
    }
  }

  /** With reusable sandboxes and no failed round trip, they have all been answered. */
  lemma EveryRequestAnswered(ls: seq<Label>, more: seq<Label>, j: nat)
    requires Legal(INIT, ls) && Legal(Run(INIT, ls), more)
    requires Run(INIT, ls).running && j < |Run(INIT, ls).insts| && Alive(Run(INIT, ls).insts[j])
    requires forall i :: 0 <= i < |more| ==> Internal(more[i])
    requires forall i :: 0 <= i < |ls| ==> Keeps(ls[i])
    requires forall i :: 0 <= i < |more| ==> Keeps(more[i])
    requires Quiet(Run(Run(INIT, ls), more))
    ensures forall r: nat :: r < Run(INIT, ls).accepted ==> r in Run(Run(INIT, ls), more).answered
  {
    var s := Run(INIT, ls);
    var s' := Run(s, more);
    RequestsConserved(ls);
    Drains(s, more, j);
    NothingLost(INIT, ls);
    KeptRun(INIT, ls);
    NothingLost(s, more);
    forall r: nat | r < s.accepted ensures r in s'.answered {
      assert Occurs(s'.answered, r) + Occurs(s'.dropped, r) == 1;
      if r !in s'.answered {
        OccursNone(s'.answered, r);
        assert false;
      }
    }
  }

  lemma {:induction false} KeptRun(s: State, ls: seq<Label>)
    requires Legal(s, ls) && forall j :: 0 <= j < |s.insts| ==> Kept(s.insts[j])
    requires forall i :: 0 <= i < |ls| ==> Keeps(ls[i])
    ensures forall j :: 0 <= j < |Run(s, ls).insts| ==> Kept(Run(s, ls).insts[j])
    decreases |ls|
  {
    if ls != [] {
      KeptStep(s, ls[0]);
      KeptRun(Next(s, ls[0]), ls[1..]);
    }
  }

  // ------------------------------------------------------------------ first come, first served

  /** The requests no instance has taken yet, in line. */
  function Pending(s: State): seq<nat> {
    s.instChan + (if s.hand.Fresh? then [s.hand.req] else []) + s.funcChan
  }

  /** Rising, and below `bound`. */
  ghost predicate Rising(p: seq<nat>, bound: nat) {
    && (forall i, k :: 0 <= i < k < |p| ==> p[i] < p[k])
    && (forall i :: 0 <= i < |p| ==> p[i] < bound)
  }

  lemma RisingSnoc(p: seq<nat>, bound: nat)
    requires Rising(p, bound)
    ensures Rising(p + [bound], bound + 1)
  {
  }

  lemma RisingWithout(p: seq<nat>, bound: nat, n: nat)
    requires Rising(p, bound) && n < |p|
    ensures Rising(p[..n] + p[n + 1..], bound)
  {
    var q := p[..n] + p[n + 1..];
    forall i | 0 <= i < |q| ensures q[i] == p[if i < n then i else i + 1] {
    }
  }

  lemma RisingTail(p: seq<nat>, bound: nat)
    requires Rising(p, bound) && p != []
    ensures Rising(p[1..], bound)
  {
  }

  /** They stand in line in the order in which they were accepted. */
  ghost predicate InLine(s: State) {
    Rising(Pending(s), s.accepted)
  }

  /** An instance takes a request. */
  predicate Takes(s: State, l: Label) {
    (l.Receive? || l.Grab?) && s.instChan != []
  }

  lemma TaskPending(s: State, l: Label)
    requires Enabled(s, l) && !OfInst(l)
    ensures Pending(Next(s, l)) ==
            if l.Invoke? then Pending(s) + [s.accepted]
            else if l.TaskReject? then Pending(s)[..|s.instChan|] + Pending(s)[|s.instChan| + 1..]
            else Pending(s)
  {
  }

  lemma TakePending(s: State, l: Label)
    requires Enabled(s, l) && OfInst(l)
    ensures Pending(Next(s, l)) == if Takes(s, l) then Pending(s)[1..] else Pending(s)
  {
  }

  lemma InLineStep(s: State, l: Label)
    requires InLine(s) && Enabled(s, l)
    ensures InLine(Next(s, l))
  {
    var p := Pending(s);
    if OfInst(l) {
      StepInsts(s, l);
      TakePending(s, l);
      if Takes(s, l) {
        RisingTail(p, s.accepted);
      }
    } else {
      TaskPending(s, l);
      if l.Invoke? {
        RisingSnoc(p, s.accepted);
      } else if l.TaskReject? {
        RisingWithout(p, s.accepted, |s.instChan|);
      }
    }
  }

  lemma {:induction false} InLineRun(s: State, ls: seq<Label>)
    requires InLine(s) && Legal(s, ls)
    ensures InLine(Run(s, ls))
    decreases |ls|
  {
    if ls != [] {
      InLineStep(s, ls[0]);
      InLineRun(Next(s, ls[0]), ls[1..]);
    }
  }

  lemma FrontFirst(p: seq<nat>, before: seq<nat>, x: nat, after: seq<nat>, bound: nat)
    requires Rising(p, bound) && p == before + [x] + after
    ensures (forall r <- after :: x < r) && (forall r <- before :: r < x)
  {
    var n := |before|;
    assert p[n] == x && (forall i :: 0 <= i < n ==> p[i] == before[i]) && forall i :: 0 <= i < |after| ==> p[n + 1 + i] == after[i];
  }

  /** In every run no request overtakes another: the one that an instance takes was accepted before
      all that are still in line. */
  lemma NoOvertaking(ls: seq<Label>, l: Label)
    requires Legal(INIT, ls) && Enabled(Run(INIT, ls), l) && Takes(Run(INIT, ls), l)
    ensures var s := Run(INIT, ls); var s' := Next(s, l);
      && (l.Receive? || s.insts[l.j].sb ==> s'.insts[l.j].req.Some? && forall r <- Pending(s') :: s'.insts[l.j].req.value < r)
      && (l.Grab? && !s.insts[l.j].sb ==> s'.dropped != [] && forall r <- Pending(s') :: s'.dropped[|s'.dropped| - 1] < r)
  {
    InLineRun(INIT, ls);
    var s := Run(INIT, ls);
    TakePending(s, l);
    var p := Pending(s);
    assert p == [] + [s.instChan[0]] + p[1..];
    FrontFirst(p, [], s.instChan[0], p[1..], s.accepted);
  }

  /** And the one that the function task takes was accepted before all that still wait for it, and
      after all that wait for an instance. */
  lemma TaskInOrder(ls: seq<Label>)
    requires Legal(INIT, ls) && Enabled(Run(INIT, ls), TaskTake)
    ensures var s' := Next(Run(INIT, ls), TaskTake);
      s'.hand.Fresh? && (forall r <- s'.funcChan :: s'.hand.req < r) && (forall r <- s'.instChan :: r < s'.hand.req)
  {
    InLineRun(INIT, ls);
    FrontOfLine(Run(INIT, ls));
  }

  lemma FrontOfLine(s: State)
    requires InLine(s) && s.hand == Empty && s.funcChan != []
    ensures (forall r <- s.funcChan[1..] :: s.funcChan[0] < r) && (forall r <- s.instChan :: r < s.funcChan[0])
  {
    assert Pending(s) == s.instChan + [s.funcChan[0]] + s.funcChan[1..];
    FrontFirst(Pending(s), s.instChan, s.funcChan[0], s.funcChan[1..], s.accepted);
  }

  // ------------------------------------------------------------------ stopping

  /** Told to stop exactly when it is off the function's list; with the task gone, all are. */
  ghost predicate Told(s: State) {
    && (forall j :: 0 <= j < |s.insts| ==> (s.insts[j].listed <==> !s.insts[j].killed))
    && (!s.running ==> forall j :: 0 <= j < |s.insts| ==> s.insts[j].killed)
  }

  lemma ToldStep(s: State, l: Label)
    requires Told(s) && Enabled(s, l)
    ensures Told(Next(s, l))
  {
  }

  lemma {:induction false} ToldRun(s: State, ls: seq<Label>)
    requires Told(s) && Legal(s, ls)
    ensures Told(Run(s, ls))
    decreases |ls|
  {
    if ls != [] {
      ToldStep(s, ls[0]);
      ToldRun(Next(s, ls[0]), ls[1..]);
    }
  }

  /** An instance that was told to stop stays told, and one that has stopped stays stopped. */
  lemma StoppedStep(s: State, l: Label, j: nat)
    requires Enabled(s, l) && j < |s.insts|
    ensures j < |Next(s, l).insts|
    ensures s.insts[j].killed ==> Next(s, l).insts[j].killed
    ensures s.insts[j].pc == Stopped ==> Next(s, l).insts[j].pc == Stopped && Next(s, l).insts[j].req == s.insts[j].req
  {
  }

  lemma {:induction false} StoppedRun(s: State, ls: seq<Label>, j: nat)
    requires Legal(s, ls) && j < |s.insts|
    ensures j < |Run(s, ls).insts|
    ensures s.insts[j].killed ==> Run(s, ls).insts[j].killed
    ensures s.insts[j].pc == Stopped ==> Run(s, ls).insts[j].pc == Stopped
    decreases |ls|
  {
    if ls != [] {
      StoppedStep(s, ls[0], j);
      StoppedRun(Next(s, ls[0]), ls[1..], j);
    }
  }

  /** Nothing more to do and told to stop: it has stopped, unless it cannot hand back a request. */
  lemma QuietStopped(s: State, j: nat)
    requires Quiet(s) && j < |s.insts| && InstOk(s.insts[j]) && s.insts[j].killed
    ensures s.insts[j].pc == Stopped || (s.insts[j].pc == Serving && |s.doneChan| >= CAP)
  {
    assert !Enabled(s, KillWaiting(j)) && !Enabled(s, KillFinished(j)) && !Enabled(s, Prepared(j));
    assert !Enabled(s, Served(j, true)) && !Enabled(s, Grab(j, true));
  }

  /** In every run: an instance told to stop does. Once the task and the instances have taken
      the boundedly many steps they can on their own, it has stopped; only with the function task
      gone and doneChan full can it still hold a request. */
  lemma KilledStops(ls: seq<Label>, more: seq<Label>, j: nat)
    requires Legal(INIT, ls) && Legal(Run(INIT, ls), more) && forall i :: 0 <= i < |more| ==> Internal(more[i])
    requires j < |Run(INIT, ls).insts| && Run(INIT, ls).insts[j].killed && Quiet(Run(Run(INIT, ls), more))
    ensures var s' := Run(Run(INIT, ls), more);
      && j < |s'.insts|
      && (s'.insts[j].pc == Stopped || (!s'.running && s'.insts[j].pc == Serving && |s'.doneChan| >= CAP))
  {
    RequestsConserved(ls);
    InvRun(Run(INIT, ls), more);
    StoppedRun(Run(INIT, ls), more, j);
    var s' := Run(Run(INIT, ls), more);
    QuietStopped(s', j);
    if s'.running {
      QuietTask(s');
    }
  }

  /** Shutting the function down tells every instance to stop. */
  lemma ShutdownTellsAll(ls: seq<Label>, j: nat)
    requires Legal(INIT, ls) && !Run(INIT, ls).running && j < |Run(INIT, ls).insts|
    ensures Run(INIT, ls).insts[j].killed
  {
    ToldRun(INIT, ls);
  }

  /** So does taking one off the list. */
  lemma KillTells(ls: seq<Label>, j: nat)
    requires Legal(INIT, ls) && Enabled(Run(INIT, ls), KillInst(j))
    ensures j < |Next(Run(INIT, ls), KillInst(j)).insts| && Next(Run(INIT, ls), KillInst(j)).insts[j].killed
    ensures !Next(Run(INIT, ls), KillInst(j)).insts[j].listed
  {
  }
}
