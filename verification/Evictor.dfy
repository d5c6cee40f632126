/** The evictor: a task that follows sandbox events, keeps every sandbox it knows on one of
    four lists, and picks victims when memory runs low (go/worker/sandbox/evictors.go). */
module Evictor {
  import opened Common

  datatype Kind = EvCreate | EvDestroy | EvDestroyIgnored | EvPause | EvUnpause | EvFork | EvChildExit

  datatype Event = Event(kind: Kind, sb: nat)

  /** A goroutine spawned by evictFront: Destroy when `force`, else DestroyIfPaused. */
  datatype Task = Task(sb: nat, force: bool)

  const CONCURRENT_EVICTIONS := 8
  const FREE_SANDBOXES_PERCENT_GOAL := 20

  /** Lists 0, 1 and 2 are the priority queues; list EVICTING holds sandboxes being evicted. */
  const EVICTING := 3

  /** `state` is the stateMap: which list a sandbox is linked on. */
  datatype View = View(priority: map<nat, int>, lists: seq<seq<nat>>, state: map<nat, nat>)

  const EMPTY := View(map[], [[], [], [], []], map[])

  // ------------------------------------------------------------ following events

  function Prio(v: View, sb: nat): int {
    if sb in v.priority then v.priority[sb] else 0
  }

  function Delta(kind: Kind): int {
    match kind
    case EvCreate => 1
    case EvUnpause => 1
    case EvPause => -1
    case EvFork => 2
    case EvChildExit => -2
    case EvDestroy => 0
    case EvDestroyIgnored => 0
  }

  /** The two panics of updateState. */
  predicate Panics(v: View, e: Event) {
    || (e.kind == EvCreate && Prio(v, e.sb) != 0)
    || Prio(v, e.sb) + Delta(e.kind) < 0
  }

  function Saturate(prio: nat): nat {
    if prio >= 3 then 2 else prio
  }

  predicate Shape(v: View) {
    && |v.lists| == 4
    && forall sb <- v.state :: v.state[sb] < 4
  }

  /** Unlink a sandbox, then append it to `target` unless that is None. */
  function Move(v: View, sb: nat, target: Option<nat>): View
    requires Shape(v) && (target.Some? ==> target.value < 4)
  {
    var lists := if sb in v.state then v.lists[v.state[sb] := Without(v.lists[v.state[sb]], sb)] else v.lists;
    match target
    case None => View(v.priority, lists, v.state - {sb})
    case Some(t) => View(v.priority, lists[t := lists[t] + [sb]], v.state[sb := t])
  }

  function Observe(v: View, e: Event): View
    requires Shape(v) && !Panics(v, e)
  {
    var prio := Prio(v, e.sb) + Delta(e.kind);
    if e.kind == EvDestroy then
      var w := Move(v, e.sb, None);
      w.(priority := w.priority - {e.sb})
    else
      Move(v.(priority := v.priority[e.sb := prio]), e.sb, Some(Saturate(prio)))
  }

  // ---------------------------------------------------------- list structure

  ghost predicate Linked(v: View, l: nat)
    requires Shape(v) && l < 4
  {
    && NoDup(v.lists[l])
    && forall sb :: sb in v.lists[l] <==> sb in v.state && v.state[sb] == l
  }

  /** A tracked sandbox is on exactly one list: `evicting`, or the queue of its priority. */
  ghost predicate Placed(v: View, sb: nat) {
    && (sb in v.state <==> sb in v.priority)
    && (sb in v.priority ==>
          v.priority[sb] >= 0 && (v.state[sb] == EVICTING || v.state[sb] == Saturate(v.priority[sb])))
  }

  ghost predicate Valid(v: View) {
    && Shape(v)
    && (forall l: nat :: l < 4 ==> Linked(v, l))
    && forall sb: nat :: Placed(v, sb)
  }

  lemma EmptyValid()
    ensures Valid(EMPTY)
  {
  }

  lemma MoveLinks(v: View, sb: nat, target: Option<nat>, l: nat)
    requires Shape(v) && (forall l: nat :: l < 4 ==> Linked(v, l)) && l < 4
    requires target.Some? ==> target.value < 4
    ensures Shape(Move(v, sb, target)) && Linked(Move(v, sb, target), l)
  {
    var w := Move(v, sb, target);
    assert Linked(v, l);
    if sb in v.state && v.state[sb] == l {
      WithoutNoDup(v.lists[l], sb);
      forall x ensures x in Without(v.lists[l], sb) <==> x in v.lists[l] && x != sb {
        WithoutMember(v.lists[l], sb, x);
      }
      if target == Some(l) {
        NoDupSnoc(Without(v.lists[l], sb), sb);
      }
    } else if target == Some(l) {
      NoDupSnoc(v.lists[l], sb);
    }
  }

  /** updateState keeps the lists consistent with the priorities. */
  lemma ObserveValid(v: View, e: Event)
    requires Valid(v) && !Panics(v, e)
    ensures Valid(Observe(v, e))
    ensures Observe(v, e).priority ==
            if e.kind == EvDestroy then v.priority - {e.sb} else v.priority[e.sb := Prio(v, e.sb) + Delta(e.kind)]
    ensures forall sb :: sb in Observe(v, e).lists[EVICTING] <==> sb in v.lists[EVICTING] && sb != e.sb
    ensures |Observe(v, e).lists[EVICTING]| <= |v.lists[EVICTING]|
  {
    WithoutShorter(v.lists[EVICTING], e.sb);
    var w := Observe(v, e);
    forall l: nat | l < 4 ensures Shape(w) && Linked(w, l) {
      ObserveLinks(v, e, l);
    }
    forall sb: nat ensures Placed(w, sb) {
      assert Placed(v, sb);
    }
    assert Linked(v, EVICTING) && Linked(w, EVICTING);
  }

  lemma ObserveLinks(v: View, e: Event, l: nat)
    requires Valid(v) && !Panics(v, e) && l < 4
    ensures Shape(Observe(v, e)) && Linked(Observe(v, e), l)
  {
    var prio := Prio(v, e.sb) + Delta(e.kind);
    if e.kind == EvDestroy {
      MoveLinks(v, e.sb, None, l);
      assert Linked(Move(v, e.sb, None), l);
    } else {
      var u := v.(priority := v.priority[e.sb := prio]);
      forall k: nat | k < 4 ensures Linked(u, k) { assert Linked(v, k); }
      MoveLinks(u, e.sb, Some(Saturate(prio)), l);
    }
  }

  /** Queue 0 holds priority 0 (paused, no children), queue 1 priority 1 (running, no children),
      queue 2 everything above; a sandbox on `evicting` is on none of them. */
  lemma QueueMeans(v: View, sb: nat)
    requires Valid(v) && sb in v.priority
    ensures sb in v.lists[EVICTING] || (sb in v.lists[0] <==> v.priority[sb] == 0)
    ensures sb in v.lists[EVICTING] || (sb in v.lists[1] <==> v.priority[sb] == 1)
    ensures sb in v.lists[EVICTING] || (sb in v.lists[2] <==> v.priority[sb] >= 2)
    ensures sb in v.lists[EVICTING] ==> sb !in v.lists[0] && sb !in v.lists[1] && sb !in v.lists[2]
  {
    assert Placed(v, sb) && Linked(v, EVICTING) && Linked(v, 0) && Linked(v, 1) && Linked(v, 2);
  }

  /** An event puts its sandbox at the back of the queue of its new priority, or off all lists if
      it is EvDestroy, and leaves all others where they are, in their order. */
  lemma ObserveOrder(v: View, e: Event)
    requires Valid(v) && !Panics(v, e)
    ensures var w := Observe(v, e); var prio := Prio(v, e.sb) + Delta(e.kind);
      && |w.lists| == 4
      && (forall l :: 0 <= l < 4 ==> Without(w.lists[l], e.sb) == Without(v.lists[l], e.sb))
      && (forall l :: 0 <= l < 4 ==>
            w.lists[l] == Without(v.lists[l], e.sb) +
              if e.kind != EvDestroy && ((l < 2 && prio == l) || (l == 2 && prio >= 2)) then [e.sb] else [])
  {
    var w := Observe(v, e);
    ObserveValid(v, e);
    forall l | 0 <= l < 4
      ensures Without(w.lists[l], e.sb) == Without(v.lists[l], e.sb)
      ensures w.lists[l] == Without(v.lists[l], e.sb) +
                if e.kind != EvDestroy && ((l < 2 && Prio(v, e.sb) + Delta(e.kind) == l) || (l == 2 && Prio(v, e.sb) + Delta(e.kind) >= 2))
                then [e.sb] else []
    {
      assert Linked(v, l);
      if !(e.sb in v.state && v.state[e.sb] == l) {
        WithoutAbsent(v.lists[l], e.sb);
      }
      WithoutAgain(v.lists[l], e.sb);
    }
  }

  /** Taking an element out twice, or out of what it was appended to, changes nothing more. */
  lemma WithoutAgain(s: seq<nat>, x: nat)
    ensures Without(Without(s, x), x) == Without(s, x)
    ensures Without(Without(s, x) + [x], x) == Without(s, x)
  {
    WithoutMember(s, x, x);
    WithoutAbsent(Without(s, x), x);
    WithoutSnoc(Without(s, x), x);
  }

  lemma {:induction false} WithoutSnoc(s: seq<nat>, x: nat)
    ensures Without(s + [x], x) == Without(s, x)
  {
    if s != [] {
      assert (s + [x])[1..] == s[1..] + [x];
      WithoutSnoc(s[1..], x);
    }
  }

  // -------------------------------------------------------------- what a listener sees

  /** What the events sent so far say about one sandbox. */
  datatype Track = Unseen | Seen(awake: bool, kids: nat) | Ended | Bad

  function Advance(t: Track, kind: Kind): Track {
    match t
    case Unseen => if kind == EvCreate then Seen(true, 0) else Bad
    case Seen(awake, kids) =>
      (match kind
       case EvCreate => Bad
       case EvPause => if awake then Seen(false, kids) else Bad
       case EvUnpause => if awake then Bad else Seen(true, kids)
       case EvDestroyIgnored => if awake then t else Bad
       case EvFork => Seen(awake, kids + 1)
       case EvChildExit => if kids > 0 then Seen(awake, kids - 1) else Bad
       case EvDestroy => Ended)
    case Ended => Bad
    case Bad => Bad
  }

  function TrackOf(events: seq<Event>, sb: nat): Track {
    if events == [] then Unseen
    else
      var t := TrackOf(events[..|events| - 1], sb);
      var e := events[|events| - 1];
      if e.sb == sb then Advance(t, e.kind) else t
  }

  lemma {:induction false} TrackPrefix(events: seq<Event>, n: nat, sb: nat)
    requires n <= |events| && TrackOf(events, sb) != Bad
    ensures TrackOf(events[..n], sb) != Bad
    decreases |events|
  {
    if n < |events| {
      TrackPrefix(events[..|events| - 1], n, sb);
      assert events[..|events| - 1][..n] == events[..n];
    } else {
      assert events[..n] == events;
    }
  }

  lemma {:induction false} TrackEnded(events: seq<Event>, n: nat, sb: nat)
    requires n <= |events| && TrackOf(events, sb) != Bad && TrackOf(events[..n], sb) == Ended
    ensures TrackOf(events, sb) == Ended
    ensures forall k :: n <= k < |events| ==> events[k].sb != sb
    decreases |events|
  {
    if n < |events| {
      var init := events[..|events| - 1];
      assert init[..n] == events[..n];
      TrackEnded(init, n, sb);
      forall k | n <= k < |events| - 1 ensures events[k].sb != sb {
        assert init[k].sb != sb;
      }
    } else {
      assert events[..n] == events;
    }
  }

  /** The priority the evictor should hold for a sandbox: 2 per child, +1 while awake. */
  ghost predicate Follows(v: View, sb: nat, t: Track) {
    match t
    case Unseen => sb !in v.priority
    case Ended => sb !in v.priority
    case Seen(a, k) => sb in v.priority && v.priority[sb] == 2 * k + (if a then 1 else 0)
    case Bad => false
  }

  lemma ObserveFollows(v: View, e: Event, t: Track)
    requires Valid(v) && Follows(v, e.sb, t) && Advance(t, e.kind) != Bad
    ensures !Panics(v, e)
    ensures Follows(Observe(v, e), e.sb, Advance(t, e.kind))
  {
  }

  /** The panics fire on a second EvCreate while the priority is not zero, and on an EvPause or
      EvChildExit that would take it below zero; on no other event. */
  lemma PanicsIff(v: View, e: Event, t: Track)
    requires Valid(v) && Follows(v, e.sb, t)
    ensures Panics(v, e) <==>
      match t
      case Seen(awake, kids) =>
        || (e.kind == EvCreate && (awake || kids > 0))
        || (e.kind == EvPause && !awake && kids == 0)
        || (e.kind == EvChildExit && kids == 0)
      case _ => e.kind == EvPause || e.kind == EvChildExit
  {
  }

  // ------------------------------------------------------------------ the policy

  /** Go's integer division truncates toward zero. */
  function GoDiv(a: int, b: int): int
    requires b != 0
  {
    if (a >= 0) == (b > 0) || a == 0 then (if a >= 0 then a else -a) / (if b > 0 then b else -b)
    else -((if a >= 0 then a else -a) / (if b > 0 then b else -b))
  }

  function FreeGoal(totalMB: int, memMB: int): int
    requires memMB != 0
  {
    1 + GoDiv((GoDiv(totalMB, memMB) - 2) * FREE_SANDBOXES_PERCENT_GOAL, 100)
  }

  /** The memory part of checkConf (go/common/config.go). */
  predicate CheckConf(poolMB: int, installerMB: int, userMB: int) {
    2 * (if installerMB > userMB then installerMB else userMB) <= poolMB
  }

  /** The free goal lies between one sandbox and all but one exactly when the quotient of
      pool and limit is at least two, whatever the signs. */
  lemma GoalBounds(totalMB: int, memMB: int)
    requires memMB != 0
    ensures 1 <= FreeGoal(totalMB, memMB) <= GoDiv(totalMB, memMB) - 1 <==> GoDiv(totalMB, memMB) >= 2
  {
    var n := GoDiv(totalMB, memMB);
    if n >= 2 {
      assert 0 <= (n - 2) * 20 / 100 <= n - 2;
    } else {
      assert GoDiv((n - 2) * 20, 100) <= 0;
    }
  }

  /** For a positive limit: exactly when the pool holds two sandboxes. */
  lemma FreeGoalBounds(totalMB: nat, memMB: int)
    requires memMB > 0
    ensures 1 <= FreeGoal(totalMB, memMB) <= GoDiv(totalMB, memMB) - 1 <==> totalMB >= 2 * memMB
  {
    GoalBounds(totalMB, memMB);
    DivAtLeast(totalMB, memMB, 2);
  }

  lemma DivAtLeast(a: nat, b: nat, k: nat)
    requires b > 0
    ensures a / b >= k <==> a >= k * b
  {
    assert a == b * (a / b) + a % b;
    if a / b >= k {
      assert b * (a / b) >= b * k;
    } else {
      assert b * (a / b) <= b * (k - 1);
      assert b * (k - 1) == b * k - b;
    }
  }

  /** For every configuration that checkConf accepts: a positive limit gives the policy its
      bounds; a negative one does so only if the pool is exactly twice as negative. */
  lemma CheckConfSuffices(poolMB: int, installerMB: int, userMB: int)
    requires CheckConf(poolMB, installerMB, userMB) && userMB != 0
    ensures 1 <= FreeGoal(poolMB, userMB) <= GoDiv(poolMB, userMB) - 1 <==> userMB > 0 || poolMB == 2 * userMB
  {
    GoalBounds(poolMB, userMB);
    if userMB > 0 {
      DivAtLeast(poolMB, userMB, 2);
    } else if poolMB < 0 {
      DivAtLeast(-poolMB, -userMB, 2);
    }
  }

  /** A limit of zero, by which the policy divides, is accepted for every pool that holds two
      installers. */
  lemma ZeroLimitAccepted(poolMB: int, installerMB: int)
    ensures CheckConf(poolMB, installerMB, 0) <==> poolMB >= 0 && poolMB >= 2 * installerMB
  {
  }

  /** Move the first `n` sandboxes of queue `q` to `evicting`. */
  function Evicted(v: View, q: nat, n: nat): View
    requires Shape(v) && q < 3 && n <= |v.lists[q]|
  {
    View(v.priority,
         v.lists[q := v.lists[q][n..]][EVICTING := v.lists[EVICTING] + v.lists[q][..n]],
         map sb | sb in v.state :: if sb in v.lists[q][..n] then EVICTING else v.state[sb])
  }

  function Min(a: int, b: int): int {
    if a < b then a else b
  }

  /** How many paused sandboxes a pass evicts. */
  function IdleCount(v: View, available: int, totalMB: int, memMB: int): (n: nat)
    requires Shape(v) && memMB != 0
    ensures n <= |v.lists[0]|
    ensures |v.lists[EVICTING]| <= CONCURRENT_EVICTIONS ==> |v.lists[EVICTING]| + n <= CONCURRENT_EVICTIONS
  {
    var wanted := FreeGoal(totalMB, memMB) - GoDiv(available, memMB);
    var capped := Min(Min(wanted, CONCURRENT_EVICTIONS - |v.lists[EVICTING]|), |v.lists[0]|);
    if capped < 0 then 0 else capped
  }

  /** A pass evicts a running sandbox only with no memory for one sandbox and nothing
      on its way out. */
  predicate Forces(v: View, available: int, memMB: int)
    requires Shape(v) && memMB != 0
  {
    GoDiv(available, memMB) <= 0 && v.lists[EVICTING] == [] && v.lists[1] != []
  }

  function IdleTasks(sbs: seq<nat>): (ts: seq<Task>)
    ensures |ts| == |sbs|
    ensures forall i :: 0 <= i < |sbs| ==> ts[i] == Task(sbs[i], false)
  {
    if sbs == [] then [] else IdleTasks(sbs[..|sbs| - 1]) + [Task(sbs[|sbs| - 1], false)]
  }

  datatype Decision = Decision(view: View, tasks: seq<Task>)

  /** doEvictions, in closed form. */
  function Decide(v: View, available: int, totalMB: int, memMB: int): Decision
    requires Shape(v) && memMB != 0
  {
    var n := IdleCount(v, available, totalMB, memMB);
    var w := Evicted(v, 0, n);
    if Forces(w, available, memMB) then
      Decision(Evicted(w, 1, 1), IdleTasks(v.lists[0][..n]) + [Task(v.lists[1][0], true)])
    else
      Decision(w, IdleTasks(v.lists[0][..n]))
  }

  lemma EvictedValid(v: View, q: nat, n: nat)
    requires Valid(v) && q < 3 && n <= |v.lists[q]|
    ensures Valid(Evicted(v, q, n))
  {
    var w := Evicted(v, q, n);
    assert Shape(w);
    forall l: nat | l < 4 ensures Linked(w, l) {
      EvictedLinks(v, q, n, l);
    }
    forall sb: nat ensures Placed(w, sb) {
      assert Placed(v, sb);
    }
  }

  lemma EvictedLinks(v: View, q: nat, n: nat, l: nat)
    requires Valid(v) && q < 3 && n <= |v.lists[q]| && l < 4
    ensures Shape(Evicted(v, q, n)) && Linked(Evicted(v, q, n), l)
  {
    var w := Evicted(v, q, n);
    var front, rest := v.lists[q][..n], v.lists[q][n..];
    assert Linked(v, l) && Linked(v, q) && Linked(v, EVICTING);
    assert v.lists[q] == front + rest;
    assert forall sb :: sb in front ==> sb in v.lists[q] && sb !in rest;
    assert forall sb :: sb in v.lists[q] ==> sb in front || sb in rest;
    if l == EVICTING {
      NoDupAppend(v.lists[EVICTING], front);
    }
  }

  /** What a pass may do: it never takes from queue 2, keeps at most eight evictions in
      flight, evicts paused sandboxes oldest first, and forces out a running one only if it
      began with nothing paused, nothing in flight and no room for one sandbox. */
  lemma Policy(v: View, available: nat, totalMB: nat, memMB: nat)
    requires Valid(v) && |v.lists[EVICTING]| <= CONCURRENT_EVICTIONS
    requires memMB > 0 && totalMB >= 2 * memMB
    ensures var d := Decide(v, available, totalMB, memMB);
      && |d.view.lists| == 4
      && d.view.priority == v.priority
      && |d.view.lists[EVICTING]| <= CONCURRENT_EVICTIONS
      && d.view.lists[2] == v.lists[2]
      && |d.tasks| == |d.view.lists[EVICTING]| - |v.lists[EVICTING]|
      && (forall t <- d.tasks :: t.sb in d.view.lists[EVICTING])
      && (forall t <- d.tasks :: !t.force ==> t.sb in v.lists[0])
      && (forall t <- d.tasks :: t.force ==>
            t.sb in v.lists[1] && v.lists[0] == [] && v.lists[EVICTING] == [] && available < memMB && d.tasks == [t])
  {
    FreeGoalBounds(totalMB, memMB);
    var n := IdleCount(v, available, totalMB, memMB);
    var w := Evicted(v, 0, n);
    if Forces(w, available, memMB) {
      DivAtLeast(available, memMB, 1);
      assert GoDiv(available, memMB) == available / memMB;
      assert n == 0;
    }
  }

  /** A pass over view `v` that turns it into `w`: how many paused sandboxes it evicts, which
      running one it forces out, and why it stops. `goal` is how many sandboxes there should be
      memory for: one, and a fifth of what the pool holds beyond two. */
  ghost predicate Passes(v: View, available: nat, totalMB: nat, memMB: nat, d: Decision, n: nat, goal: int)
    requires |v.lists| == 4 && memMB > 0
  {
    var forced := available < memMB && v.lists[0] == [] && v.lists[EVICTING] == [] && v.lists[1] != [];
    var free := available / memMB;
    && 5 * (goal - 1) <= totalMB / memMB - 2 < 5 * goal
    && n <= |v.lists[0]|
    && (n < |v.lists[0]| ==> |v.lists[EVICTING]| + n >= 8 || free + n >= goal)
    && (n > 0 ==> |v.lists[EVICTING]| + n <= 8 && free + n <= goal)
    && |d.tasks| == n + (if forced then 1 else 0)
    && (forall i :: 0 <= i < n ==> d.tasks[i] == Task(v.lists[0][i], false))
    && (forced ==> d.tasks[n] == Task(v.lists[1][0], true))
    && d.view.priority == v.priority && |d.view.lists| == 4
    && d.view.lists[0] == v.lists[0][n..]
    && d.view.lists[1] == (if forced then v.lists[1][1..] else v.lists[1])
    && d.view.lists[2] == v.lists[2]
    && d.view.lists[EVICTING] == v.lists[EVICTING] + (if forced then [v.lists[1][0]] else v.lists[0][..n])
  }

  lemma GoalMeans(totalMB: nat, memMB: nat)
    requires memMB > 0 && totalMB >= 2 * memMB
    ensures var g := FreeGoal(totalMB, memMB); 5 * (g - 1) <= totalMB / memMB - 2 < 5 * g && g >= 1
  {
    DivAtLeast(totalMB, memMB, 2);
    var n := totalMB / memMB;
    assert GoDiv(totalMB, memMB) == n;
    assert GoDiv((n - 2) * 20, 100) == (n - 2) * 20 / 100;
  }

  lemma IdleCountMeans(v: View, available: nat, totalMB: nat, memMB: nat)
    requires Shape(v) && memMB > 0 && totalMB >= 2 * memMB
    ensures var n := IdleCount(v, available, totalMB, memMB); var goal := FreeGoal(totalMB, memMB); var free := available / memMB;
      && (n < |v.lists[0]| ==> |v.lists[EVICTING]| + n >= CONCURRENT_EVICTIONS || free + n >= goal)
      && (n > 0 ==> |v.lists[EVICTING]| + n <= CONCURRENT_EVICTIONS && free + n <= goal)
  {
    assert GoDiv(available, memMB) == available / memMB;
  }

  /** What a pass does, exactly. */
  lemma PassExactly(v: View, available: nat, totalMB: nat, memMB: nat) returns (n: nat, goal: int)
    requires Valid(v) && |v.lists[EVICTING]| <= CONCURRENT_EVICTIONS
    requires memMB > 0 && totalMB >= 2 * memMB
    ensures Passes(v, available, totalMB, memMB, Decide(v, available, totalMB, memMB), n, goal)
  {
    goal := FreeGoal(totalMB, memMB);
    n := IdleCount(v, available, totalMB, memMB);
    GoalMeans(totalMB, memMB);
    IdleCountMeans(v, available, totalMB, memMB);
    DivAtLeast(available, memMB, 1);
    assert GoDiv(available, memMB) == available / memMB;
    PassForced(v, available, totalMB, memMB, n);
    PassLists(v, available, totalMB, memMB);
  }

  /** With no memory for one sandbox, nothing paused and nothing on its way out, and only then,
      the pass goes on to a running sandbox. */
  lemma PassForced(v: View, available: nat, totalMB: nat, memMB: nat, n: nat)
    requires Shape(v) && memMB > 0 && totalMB >= 2 * memMB && |v.lists[EVICTING]| <= CONCURRENT_EVICTIONS
    requires n == IdleCount(v, available, totalMB, memMB)
    ensures Forces(Evicted(v, 0, n), available, memMB) <==>
            available < memMB && v.lists[0] == [] && v.lists[EVICTING] == [] && v.lists[1] != []
  {
    IdleCountMeans(v, available, totalMB, memMB);
    GoalMeans(totalMB, memMB);
    DivAtLeast(available, memMB, 1);
    assert GoDiv(available, memMB) == available / memMB;
    assert |Evicted(v, 0, n).lists[EVICTING]| == |v.lists[EVICTING]| + n;
  }

  lemma PassLists(v: View, available: nat, totalMB: nat, memMB: nat)
    requires Shape(v) && memMB > 0
    ensures var n := IdleCount(v, available, totalMB, memMB); var d := Decide(v, available, totalMB, memMB);
      var forced := Forces(Evicted(v, 0, n), available, memMB);
      && d.view.priority == v.priority && |d.view.lists| == 4
      && d.view.lists[0] == v.lists[0][n..]
      && d.view.lists[1] == (if forced then v.lists[1][1..] else v.lists[1])
      && d.view.lists[2] == v.lists[2]
      && (n == 0 ==> d.view.lists[EVICTING] == v.lists[EVICTING] + (if forced then [v.lists[1][0]] else []))
      && (!forced ==> d.view.lists[EVICTING] == v.lists[EVICTING] + v.lists[0][..n])
      && |d.tasks| == n + (if forced then 1 else 0)
      && (forall i :: 0 <= i < n ==> d.tasks[i] == Task(v.lists[0][i], false))
      && (forced ==> d.tasks[n] == Task(v.lists[1][0], true))
  {
    var n := IdleCount(v, available, totalMB, memMB);
    var w := Evicted(v, 0, n);
    assert w.lists[1] == v.lists[1];
    if Forces(w, available, memMB) {
      assert v.lists[1][..1] == [v.lists[1][0]];
      assert n == 0 ==> v.lists[0][..n] == [] && v.lists[EVICTING] + [] == v.lists[EVICTING];
    }
  }

  lemma DecideValid(v: View, available: int, totalMB: int, memMB: int)
    requires Valid(v) && memMB != 0
    ensures Valid(Decide(v, available, totalMB, memMB).view)
    ensures forall sb :: sb in Decide(v, available, totalMB, memMB).view.lists[EVICTING] ==>
              sb in v.lists[EVICTING] || exists t <- Decide(v, available, totalMB, memMB).tasks :: t.sb == sb
    ensures forall t <- Decide(v, available, totalMB, memMB).tasks :: t.sb in v.priority
  {
    var n := IdleCount(v, available, totalMB, memMB);
    var w := Evicted(v, 0, n);
    EvictedValid(v, 0, n);
    var d := Decide(v, available, totalMB, memMB);
    assert forall i :: 0 <= i < n ==> d.tasks[i].sb == v.lists[0][i];
    if Forces(w, available, memMB) {
      EvictedValid(w, 1, 1);
    }
    assert Linked(v, 0) && Linked(v, 1);
    forall sb | sb in d.view.lists[EVICTING] && sb !in v.lists[EVICTING]
      ensures exists t <- d.tasks :: t.sb == sb
    {
      if sb in v.lists[0][..n] {
        var i :| 0 <= i < n && v.lists[0][i] == sb;
        assert d.tasks[i].sb == sb;
      } else {
        assert d.tasks[n].sb == sb;
      }
    }
    forall t <- d.tasks ensures t.sb in v.priority {
      assert Placed(v, t.sb);
    }
  }

  // ------------------------------------------------------------------- the task

  class SOCKEvictor {
    var priority: map<nat, int>
    var lists: seq<seq<nat>>
    var stateMap: map<nat, nat>

    ghost function Seen(): View
      reads this
    {
      View(priority, lists, stateMap)
    }

    constructor ()
      ensures Seen() == EMPTY
    {
      priority, lists, stateMap := map[], [[], [], [], []], map[];
    }

    method MoveTo(sb: nat, target: Option<nat>)
      requires Shape(Seen()) && (target.Some? ==> target.value < 4)
      modifies this
      ensures Seen() == Move(old(Seen()), sb, target)
    {
      if sb in stateMap {
        var prev := stateMap[sb];
        lists := lists[prev := Without(lists[prev], sb)];
      }
      match target
      case Some(t) =>
        lists := lists[t := lists[t] + [sb]];
        stateMap := stateMap[sb := t];
      case None =>
        stateMap := stateMap - {sb};
    }

    /** The body of updateState's loop: one event. */
    method Handle(event: Event) returns (panicked: bool)
      requires Valid(Seen())
      modifies this
      ensures panicked <==> Panics(old(Seen()), event)
      ensures panicked ==> Seen() == old(Seen())
      ensures !panicked ==> Seen() == Observe(old(Seen()), event)
    {
      var sb := event.sb;
      var prio := if sb in priority then priority[sb] else 0;
      match event.kind {
        case EvCreate =>
          if prio != 0 { return true; }
          prio := prio + 1;
        case EvUnpause => prio := prio + 1;
        case EvPause => prio := prio - 1;
        case EvFork => prio := prio + 2;
        case EvChildExit => prio := prio - 2;
        case EvDestroy =>
        case EvDestroyIgnored =>
      }
      if prio < 0 { return true; }
      if event.kind == EvDestroy {
        MoveTo(sb, None);
        priority := priority - {sb};
      } else {
        priority := priority[sb := prio];
        MoveTo(sb, Some(if prio >= 3 then 2 else prio));
      }
      panicked := false;
    }

    /** updateState over the events it drains before the channel is empty. */
    method UpdateState(events: seq<Event>) returns (panicked: bool)
      requires Valid(Seen())
      modifies this
      ensures panicked <==> !Drains(old(Seen()), events)
      ensures !panicked ==> Valid(Seen()) && Seen() == After(old(Seen()), events)
    {
      var i := 0;
      panicked := false;
      while i < |events|
        invariant 0 <= i <= |events| && !panicked
        invariant Valid(Seen())
        invariant Drains(old(Seen()), events) == Drains(Seen(), events[i..])
        invariant Drains(Seen(), events[i..]) ==> After(old(Seen()), events) == After(Seen(), events[i..])
      {
        ghost var v := Seen();
        panicked := Handle(events[i]);
        if panicked { return; }
        ObserveValid(v, events[i]);
        assert events[i..][1..] == events[i + 1..];
        i := i + 1;
      }
    }

    method EvictFront(q: nat, force: bool) returns (t: Task)
      requires Valid(Seen()) && q < 3 && lists[q] != []
      modifies this
      ensures t == Task(old(lists)[q][0], force)
      ensures Seen() == Evicted(old(Seen()), q, 1) && Valid(Seen())
    {
      var sb := lists[q][0];
      EvictedValid(Seen(), q, 1);
      MoveIsEvicted(Seen(), q);
      MoveTo(sb, Some(EVICTING));
      t := Task(sb, force);
    }

    method DoEvictions(availableMB: int, totalMB: int, memMB: int) returns (tasks: seq<Task>)
      requires Valid(Seen()) && memMB != 0
      modifies this
      ensures Decision(Seen(), tasks) == Decide(old(Seen()), availableMB, totalMB, memMB)
      ensures Valid(Seen())
    {
      var freeSandboxes := GoDiv(availableMB, memMB);
      var freeGoal := 1 + GoDiv((GoDiv(totalMB, memMB) - 2) * FREE_SANDBOXES_PERCENT_GOAL, 100);
      var evictCount := freeGoal - freeSandboxes;
      var evictCap := CONCURRENT_EVICTIONS - |lists[EVICTING]|;
      if evictCap < evictCount {
        evictCount := evictCap;
      }
      ghost var v, k := Seen(), evictCount;
      var n := 0;
      tasks := [];
      EvictedNone(v, 0);
      while evictCount > 0 && |lists[0]| > 0
        invariant 0 <= n <= |v.lists[0]| && Valid(Seen())
        invariant Seen() == Evicted(v, 0, n)
        invariant tasks == IdleTasks(v.lists[0][..n])
        invariant evictCount == k - n && (n > 0 ==> evictCount >= 0)
      {
        var t := EvictFront(0, false);
        EvictedNext(v, 0, n);
        assert v.lists[0][..n + 1][..n] == v.lists[0][..n];
        tasks := tasks + [t];
        n := n + 1;
        evictCount := evictCount - 1;
      }
      assert n == IdleCount(v, availableMB, totalMB, memMB);
      if freeSandboxes <= 0 && |lists[EVICTING]| == 0 {
        if |lists[1]| > 0 {
          var t := EvictFront(1, true);
          tasks := tasks + [t];
        }
      }
    }
  }

  /** Events that updateState can follow without a panic, and where they lead. */
  ghost predicate Drains(v: View, events: seq<Event>)
    requires Valid(v)
    decreases |events|
  {
    events == [] || (!Panics(v, events[0]) && (ObserveValid(v, events[0]); Drains(Observe(v, events[0]), events[1..])))
  }

  ghost function After(v: View, events: seq<Event>): View
    requires Valid(v) && Drains(v, events)
    decreases |events|
  {
    if events == [] then v else ObserveValid(v, events[0]); After(Observe(v, events[0]), events[1..])
  }

  lemma MoveIsEvicted(v: View, q: nat)
    requires Valid(v) && q < 3 && v.lists[q] != []
    ensures Move(v, v.lists[q][0], Some(EVICTING)) == Evicted(v, q, 1)
  {
    assert Linked(v, q);
    WithoutFront(v.lists[q]);
    assert v.lists[q][..1] == [v.lists[q][0]];
  }

  lemma EvictedNone(v: View, q: nat)
    requires Valid(v) && q < 3
    ensures Evicted(v, q, 0) == v
  {
    assert v.lists[q][..0] == [] && v.lists[q][0..] == v.lists[q];
    assert v.lists[EVICTING] + [] == v.lists[EVICTING];
    assert Evicted(v, q, 0).lists == v.lists;
    assert Evicted(v, q, 0).state == v.state;
  }

  lemma EvictedNext(v: View, q: nat, n: nat)
    requires Valid(v) && q < 3 && n < |v.lists[q]|
    ensures Evicted(v, q, n + 1) == Evicted(Evicted(v, q, n), q, 1)
  {
    var s := v.lists[q];
    assert s[n..][..1] == [s[n]] && s[..n + 1] == s[..n] + [s[n]];
    assert s[n..][1..] == s[n + 1..];
    assert v.lists[EVICTING] + s[..n + 1] == (v.lists[EVICTING] + s[..n]) + [s[n]];
  }
}
