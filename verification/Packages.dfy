/** Installing a list of packages with everything they depend on
    (go/worker/lambda/packages/packagePuller.go). */
module Packages {
  import opened Common

  /** What the installer reports for each package it can install, by normalised name. */
  type Index = map<string, seq<string>>

  function LowerDash(c: char): char {
    if 'A' <= c <= 'Z' then (c as int + 32) as char else if c == '_' then '-' else c
  }

  /** NormalizePkg, on ASCII. */
  function Normalize(s: string): (r: string)
    ensures |r| == |s| && forall i :: 0 <= i < |s| ==> r[i] == LowerDash(s[i])
  {
    if s == "" then "" else [LowerDash(s[0])] + Normalize(s[1..])
  }

  predicate Letters(c: char, d: char) {
    'a' <= d <= 'z' && c as int == d as int - 32
  }

  predicate Dashes(c: char) {
    c == '-' || c == '_'
  }

  /** Equal up to case, with hyphen and underscore the same. */
  predicate SameChar(c: char, d: char) {
    c == d || Letters(c, d) || Letters(d, c) || (Dashes(c) && Dashes(d))
  }

  lemma LowerDashDecides(c: char, d: char)
    ensures LowerDash(c) == LowerDash(d) <==> SameChar(c, d)
    ensures LowerDash(LowerDash(c)) == LowerDash(c)
  {
  }

  predicate Same(a: string, b: string) {
    |a| == |b| && forall i :: 0 <= i < |a| ==> SameChar(a[i], b[i])
  }

  /** Normalised names are equal exactly when the names are equal up to case, hyphens and
      underscores. */
  lemma NormalizeDecides(a: string, b: string)
    ensures Normalize(a) == Normalize(b) <==> Same(a, b)
  {
    if |a| == |b| {
      forall i | 0 <= i < |a| ensures Normalize(a)[i] == Normalize(b)[i] <==> SameChar(a[i], b[i]) {
        LowerDashDecides(a[i], b[i]);
      }
    }
  }

  /** What is normalised has no upper-case letter and no underscore. */
  lemma NormalForm(a: string)
    ensures forall i :: 0 <= i < |a| ==> !('A' <= Normalize(a)[i] <= 'Z') && Normalize(a)[i] != '_'
  {
    forall i | 0 <= i < |a| ensures !('A' <= Normalize(a)[i] <= 'Z') && Normalize(a)[i] != '_' {
      assert Normalize(a)[i] == LowerDash(a[i]);
    }
  }

  /** Normalising twice changes nothing. */
  lemma NormalizeTwice(a: string)
    ensures Normalize(Normalize(a)) == Normalize(a)
  {
    forall i | 0 <= i < |a| ensures Normalize(Normalize(a))[i] == Normalize(a)[i] {
      LowerDashDecides(a[i], a[i]);
    }
  }

  predicate Pin(s: string) {
    |s| >= 2 && s[0] == '=' && s[1] == '='
  }

  /** The part of an install before its first "==". */
  function NameOf(s: string): string {
    if s == "" || Pin(s) then "" else [s[0]] + NameOf(s[1..])
  }

  /** "==" at position `i`. */
  predicate PinAt(s: string, i: nat) {
    i + 1 < |s| && s[i] == '=' && s[i + 1] == '='
  }

  /** The name is what stands before the first "==", or all of it if there is none. */
  lemma {:induction false} NameOfMeans(s: string)
    ensures var k := |NameOf(s)|;
      && k <= |s| && NameOf(s) == s[..k]
      && (forall i: nat :: i < k ==> !PinAt(s, i))
      && (k == |s| || PinAt(s, k))
  {
    if s != "" && !Pin(s) {
      NameOfMeans(s[1..]);
      var k := |NameOf(s)|;
      assert s[..k] == [s[0]] + s[1..][..k - 1];
      forall i: nat | i < k ensures !PinAt(s, i) {
        assert i > 0 ==> !PinAt(s[1..], i - 1);
      }
    }
  }

  /** So a pinned install is reduced to its name. */
  lemma PinStripped(n: string, v: string)
    requires (forall i: nat :: !PinAt(n, i)) && (n == "" || n[|n| - 1] != '=')
    ensures NameOf(n + "==" + v) == n
  {
    var s := n + "==" + v;
    NameOfMeans(s);
    var k := |NameOf(s)|;
    assert PinAt(s, |n|);
    assert k < |n| ==> PinAt(s, k) && (k + 1 < |n| ==> PinAt(n, k));
    assert s[..|n|] == n;
  }

  function Names(installs: seq<string>): (r: set<string>)
    ensures forall n :: n in r <==> exists i :: 0 <= i < |installs| && NameOf(installs[i]) == n
  {
    set i | 0 <= i < |installs| :: NameOf(installs[i])
  }

  predicate Installable(index: Index, pkg: string) {
    Normalize(pkg) in index
  }

  /** Dependencies are kept normalised. */
  function Normalized(names: seq<string>): (r: seq<string>)
    ensures |r| == |names| && forall i :: 0 <= i < |r| ==> r[i] == Normalize(names[i])
  {
    if names == [] then [] else [Normalize(names[0])] + Normalized(names[1..])
  }

  function Deps(index: Index, pkg: string): seq<string>
    requires Installable(index, pkg)
  {
    Normalized(index[Normalize(pkg)])
  }

  /** Package `pkg` can be installed, and each of its dependencies is in `S` or is named by
      the original request. */
  predicate Served(index: Index, installs: seq<string>, S: set<string>, pkg: string) {
    && Installable(index, pkg)
    && forall k :: 0 <= k < |Deps(index, pkg)| ==> Deps(index, pkg)[k] in S + Names(installs)
  }

  ghost predicate Closed(index: Index, installs: seq<string>, S: set<string>) {
    && (forall i :: 0 <= i < |installs| ==> installs[i] in S)
    && (forall pkg :: pkg in S ==> Served(index, installs, S, pkg))
  }

  function Elems(r: seq<string>): set<string> {
    set k | 0 <= k < |r| :: r[k]
  }

  /** In every closed set. */
  ghost predicate Least(index: Index, installs: seq<string>, r: seq<string>) {
    forall S: set<string> :: Closed(index, installs, S) ==> Elems(r) <= S
  }

  /** `r` starts with the request; what it adds is named nowhere in the request and is never
      added twice; nothing in it is there without need. */
  ghost predicate Needed(index: Index, installs: seq<string>, r: seq<string>) {
    && installs <= r
    && NoDup(r[|installs|..])
    && Elems(r[|installs|..]) !! Names(installs)
    && Least(index, installs, r)
  }

  /** The packages of `r` are moreover closed, so they are the smallest closed set. */
  ghost predicate Installed(index: Index, installs: seq<string>, r: seq<string>) {
    Needed(index, installs, r) && Closed(index, installs, Elems(r))
  }

  /** Every dependency any package reports. */
  function AllDeps(index: Index): set<string> {
    set p, k | p in index && 0 <= k < |index[p]| :: Normalize(index[p][k])
  }

  lemma DepKnown(index: Index, pkg: string, k: nat)
    requires Installable(index, pkg) && k < |Deps(index, pkg)|
    ensures Deps(index, pkg)[k] in AllDeps(index)
  {
    assert Deps(index, pkg)[k] == Normalize(index[Normalize(pkg)][k]);
  }

  /** A dependency of a package that is needed is needed, unless the request names it. */
  lemma DepNeeded(index: Index, installs: seq<string>, r: seq<string>, i: nat, k: nat)
    requires Least(index, installs, r) && i < |r| && Installable(index, r[i]) && k < |Deps(index, r[i])|
    requires Deps(index, r[i])[k] !in Names(installs)
    ensures Least(index, installs, r + [Deps(index, r[i])[k]])
  {
    var d := Deps(index, r[i])[k];
    forall S: set<string> | Closed(index, installs, S) ensures Elems(r + [d]) <= S {
      assert r[i] in Elems(r);
      assert Served(index, installs, S, r[i]);
      forall x | x in Elems(r + [d]) ensures x in S {
        assert x in Elems(r) || x == d;
      }
    }
  }

  lemma Grow(index: Index, installs: seq<string>, r: seq<string>, i: nat, k: nat)
    requires Needed(index, installs, r) && i < |r| && Installable(index, r[i]) && k < |Deps(index, r[i])|
    requires Deps(index, r[i])[k] !in Names(installs) + Elems(r[|installs|..])
    ensures Needed(index, installs, r + [Deps(index, r[i])[k]])
  {
    var d := Deps(index, r[i])[k];
    DepNeeded(index, installs, r, i, k);
    var added := r[|installs|..];
    assert (r + [d])[|installs|..] == added + [d];
    assert forall j :: 0 <= j < |added| ==> added[j] in Elems(added);
    NoDupSnoc(added, d);
  }

  ghost predicate Unclosable(index: Index, installs: seq<string>) {
    forall S: set<string> :: !Closed(index, installs, S)
  }

  /** A request that needs a package that cannot be installed has no closed set. */
  lemma Stuck(index: Index, installs: seq<string>, r: seq<string>, i: nat)
    requires Least(index, installs, r) && i < |r| && !Installable(index, r[i])
    ensures Unclosable(index, installs)
  {
    assert r[i] in Elems(r);
    assert forall S: set<string> :: r[i] in S ==> !Closed(index, installs, S);
  }

  lemma ElemsSnoc(r: seq<string>, d: string)
    ensures Elems(r + [d]) == Elems(r) + {d}
  {
    var t := r + [d];
    assert t[|r|] == d;
    forall x | x in Elems(r) ensures x in Elems(t) {
      var k :| 0 <= k < |r| && r[k] == x;
      assert t[k] == x;
    }
  }

  /** The first `i` packages of `r` and their dependencies are taken care of. */
  ghost predicate Covered(index: Index, installs: seq<string>, r: seq<string>, i: nat) {
    i <= |r| && forall j :: 0 <= j < i ==> Served(index, installs, Elems(r), r[j])
  }

  lemma CoveredGrows(index: Index, installs: seq<string>, r: seq<string>, d: string, i: nat)
    requires Covered(index, installs, r, i)
    ensures Covered(index, installs, r + [d], i)
  {
    ElemsSnoc(r, d);
  }

  lemma SeenServed(index: Index, installs: seq<string>, r: seq<string>, i: nat, seen: set<string>)
    requires Covered(index, installs, r, i) && i < |r| && |installs| <= |r| && Installable(index, r[i])
    requires seen == Names(installs) + Elems(r[|installs|..])
    requires forall k :: 0 <= k < |Deps(index, r[i])| ==> Deps(index, r[i])[k] in seen
    ensures Covered(index, installs, r, i + 1)
  {
    var added := r[|installs|..];
    forall k | 0 <= k < |Deps(index, r[i])| ensures Deps(index, r[i])[k] in Elems(r) + Names(installs) {
      var d := Deps(index, r[i])[k];
      if d in Elems(added) {
        var j :| 0 <= j < |added| && added[j] == d;
        assert r[|installs| + j] == d;
      }
    }
  }

  lemma AllCovered(index: Index, installs: seq<string>, r: seq<string>)
    requires Needed(index, installs, r) && Covered(index, installs, r, |r|)
    ensures Installed(index, installs, r)
  {
    forall i | 0 <= i < |installs| ensures installs[i] in Elems(r) {
      assert r[i] in Elems(r);
    }
  }

  lemma FewerLeft(all: set<string>, seen: set<string>, seen': set<string>)
    requires seen < seen' <= seen + all
    ensures |all - seen'| < |all - seen|
  {
    var d :| d in seen' && d !in seen;
    assert d in all - seen && d !in all - seen';
    assert all - seen' <= (all - seen) - {d};
    SubsetCard(all - seen', (all - seen) - {d});
  }

  lemma {:induction false} SubsetCard(a: set<string>, b: set<string>)
    requires a <= b
    ensures |a| <= |b|
  {
    if a != {} {
      var x :| x in a;
      SubsetCard(a - {x}, b - {x});
    }
  }

  /** The names the request mentions. */
  method NameSet(installs: seq<string>) returns (seen: set<string>)
    ensures seen == Names(installs)
  {
    seen := {};
    for i := 0 to |installs|
      invariant seen == Names(installs[..i])
    {
      seen := seen + {NameOf(installs[i])};
      assert installs[..i + 1] == installs[..i] + [installs[i]];
    }
    assert installs[..|installs|] == installs;
  }

  // ------------------------------------------------------------------ order of discovery

  /** All dependencies of the packages of `r`, package after package. */
  function AllDepsOf(index: Index, r: seq<string>): seq<string> {
    if r == [] then []
    else AllDepsOf(index, r[..|r| - 1]) + (if Installable(index, r[|r| - 1]) then Deps(index, r[|r| - 1]) else [])
  }

  /** The first occurrences in `s`, leaving out what is in `known`. */
  function FirstOf(s: seq<string>, known: set<string>): seq<string> {
    if s == [] then []
    else
      var init := FirstOf(s[..|s| - 1], known);
      if s[|s| - 1] in known || s[|s| - 1] in init then init else init + [s[|s| - 1]]
  }

  lemma FirstOfSnoc(s: seq<string>, d: string, known: set<string>)
    ensures FirstOf(s + [d], known) ==
            if d in known || d in FirstOf(s, known) then FirstOf(s, known) else FirstOf(s, known) + [d]
  {
    assert (s + [d])[..|s|] == s;
  }

  lemma AllDepsOfNext(index: Index, r: seq<string>, i: nat)
    requires i < |r| && Installable(index, r[i])
    ensures AllDepsOf(index, r[..i + 1]) == AllDepsOf(index, r[..i]) + Deps(index, r[i])
  {
    assert r[..i + 1][..i] == r[..i];
  }

  /** What was added is, in order, what `done` brings up for the first time. */
  ghost predicate InOrder(installs: seq<string>, r: seq<string>, done: seq<string>) {
    installs <= r && r[|installs|..] == FirstOf(done, Names(installs))
  }

  lemma InOrderNext(installs: seq<string>, r: seq<string>, done: seq<string>, d: string, seen: set<string>)
    requires InOrder(installs, r, done) && seen == Names(installs) + Elems(r[|installs|..])
    ensures InOrder(installs, if d in seen then r else r + [d], done + [d])
  {
    var added := r[|installs|..];
    FirstOfSnoc(done, d, Names(installs));
    assert d in Elems(added) <==> d in added;
    assert (r + [d])[|installs|..] == added + [d];
  }

  /** The result: the request, and then every dependency of its packages when it first comes up. */
  ghost predicate Discovered(index: Index, installs: seq<string>, r: seq<string>) {
    r == installs + FirstOf(AllDepsOf(index, r), Names(installs))
  }

  lemma AllInOrder(index: Index, installs: seq<string>, r: seq<string>)
    requires InOrder(installs, r, AllDepsOf(index, r[..|r|]))
    ensures Discovered(index, installs, r)
  {
    assert r[..|r|] == r && r == installs + r[|installs|..];
  }

  /** The loop's state: the list so far, the names seen, and how far it got. */
  ghost predicate Working(index: Index, installs: seq<string>, r: seq<string>, seen: set<string>, i: nat, done: seq<string>) {
    && Needed(index, installs, r) && Covered(index, installs, r, i)
    && seen == Names(installs) + Elems(r[|installs|..]) && InOrder(installs, r, done)
  }

  lemma PushOne(index: Index, installs: seq<string>, r: seq<string>, seen: set<string>, i: nat, k: nat, done: seq<string>)
    requires Working(index, installs, r, seen, i, done) && i < |r| && Installable(index, r[i]) && k < |Deps(index, r[i])|
    requires Deps(index, r[i])[k] !in seen
    ensures Working(index, installs, r + [Deps(index, r[i])[k]], seen + {Deps(index, r[i])[k]}, i, done + [Deps(index, r[i])[k]])
    ensures Deps(index, r[i])[k] in AllDeps(index)
  {
    var d := Deps(index, r[i])[k];
    DepKnown(index, r[i], k);
    Grow(index, installs, r, i, k);
    CoveredGrows(index, installs, r, d, i);
    ElemsSnoc(r[|installs|..], d);
    InOrderNext(installs, r, done, d, seen);
    assert (r + [d])[|installs|..] == r[|installs|..] + [d];
  }

  lemma SkipOne(index: Index, installs: seq<string>, r: seq<string>, seen: set<string>, i: nat, done: seq<string>, d: string)
    requires Working(index, installs, r, seen, i, done) && d in seen
    ensures Working(index, installs, r, seen, i, done + [d])
  {
    InOrderNext(installs, r, done, d, seen);
  }

  /** The first `k` dependencies have been seen; nothing else was added to what was seen. */
  ghost predicate Pushed(index: Index, deps: seq<string>, k: nat, r: seq<string>, seen: set<string>, r': seq<string>, seen': set<string>) {
    && k <= |deps| && r <= r'
    && (forall j :: 0 <= j < k ==> deps[j] in seen')
    && (if r' == r then seen' == seen else seen < seen' <= seen + AllDeps(index))
  }

  lemma PushedNext(index: Index, deps: seq<string>, k: nat, r: seq<string>, seen: set<string>, r': seq<string>, seen': set<string>)
    requires Pushed(index, deps, k, r, seen, r', seen') && k < |deps|
    ensures deps[k] in seen' ==> Pushed(index, deps, k + 1, r, seen, r', seen')
    ensures deps[k] !in seen' && deps[k] in AllDeps(index) ==>
              Pushed(index, deps, k + 1, r, seen, r' + [deps[k]], seen' + {deps[k]})
  {
  }

  lemma TakeNext(done: seq<string>, deps: seq<string>, k: nat)
    requires k < |deps|
    ensures done + deps[..k + 1] == (done + deps[..k]) + [deps[k]]
  {
  }

  /** Pushes the dependencies of `r[i]` that were not seen before. */
  method PushDeps(index: Index, installs: seq<string>, r: seq<string>, seen: set<string>, i: nat, ghost done: seq<string>)
    returns (r': seq<string>, seen': set<string>)
    requires Working(index, installs, r, seen, i, done) && i < |r| && Installable(index, r[i])
    ensures Working(index, installs, r', seen', i + 1, done + Deps(index, r[i])) && r <= r'
    ensures if r' == r then seen' == seen else seen < seen' <= seen + AllDeps(index)
  {
    r', seen' := r, seen;
    var deps := Deps(index, r[i]);
    ghost var done' := done;
    assert done + deps[..0] == done;
    for k := 0 to |deps|
      invariant Working(index, installs, r', seen', i, done') && done' == done + deps[..k]
      invariant Pushed(index, deps, k, r, seen, r', seen')
    {
      TakeNext(done, deps, k);
      PushedNext(index, deps, k, r, seen, r', seen');
      if deps[k] !in seen' {
        PushOne(index, installs, r', seen', i, k, done');
        r', seen' := r' + [deps[k]], seen' + {deps[k]};
      } else {
        SkipOne(index, installs, r', seen', i, done', deps[k]);
      }
      done' := done' + [deps[k]];
    }
    SeenServed(index, installs, r', i, seen');
    assert deps[..|deps|] == deps;
  }

  lemma NextDone(index: Index, r: seq<string>, r': seq<string>, i: nat)
    requires r <= r' && i < |r| && Installable(index, r[i])
    ensures AllDepsOf(index, r'[..i + 1]) == AllDepsOf(index, r[..i]) + Deps(index, r[i])
  {
    AllDepsOfNext(index, r, i);
    assert r'[..i + 1] == r[..i + 1];
  }

  /** Every closed set has the request itself. */
  lemma RequestNeeded(index: Index, installs: seq<string>)
    ensures Needed(index, installs, installs)
  {
    assert installs[|installs|..] == [];
  }

  lemma StartWorking(index: Index, installs: seq<string>)
    ensures Working(index, installs, installs, Names(installs), 0, [])
  {
    RequestNeeded(index, installs);
    assert installs[|installs|..] == [];
    assert Names(installs) + Elems([]) == Names(installs);
  }

  /** What InstallRecursive returns. */
  ghost predicate Outcome(index: Index, installs: seq<string>, r: Option<seq<string>>) {
    match r
    case Some(list) => Installed(index, installs, list) && Discovered(index, installs, list) && !Unclosable(index, installs)
    case None => Unclosable(index, installs)
  }

  lemma EndWorking(index: Index, installs: seq<string>, r: seq<string>, seen: set<string>)
    requires Reached(index, installs, r, seen, |r|)
    ensures Outcome(index, installs, Some(r))
  {
    AllCovered(index, installs, r);
    AllInOrder(index, installs, r);
  }

  /** The loop has got to package `i` of `r`. */
  ghost predicate Reached(index: Index, installs: seq<string>, r: seq<string>, seen: set<string>, i: nat) {
    i <= |r| && Working(index, installs, r, seen, i, AllDepsOf(index, r[..i]))
  }

  /** How many dependencies have not come up yet. */
  ghost function Left(index: Index, seen: set<string>): nat {
    |AllDeps(index) - seen|
  }

  /** The body of the loop: installs `r[i]`, unless that fails, and pushes its dependencies. */
  method InstallNext(index: Index, installs: seq<string>, r: seq<string>, seen: set<string>, i: nat)
    returns (ok: bool, r': seq<string>, seen': set<string>)
    requires Reached(index, installs, r, seen, i) && i < |r|
    ensures !ok ==> Outcome(index, installs, None)
    ensures ok ==> Reached(index, installs, r', seen', i + 1) && |r| <= |r'|
    ensures ok ==> Left(index, seen') < Left(index, seen) || (|r'| == |r| && seen' == seen)
  {
    r', seen' := r, seen;
    ok := Installable(index, r[i]);
    if !ok {
      Stuck(index, installs, r, i);
      return;
    }
    r', seen' := PushDeps(index, installs, r, seen, i, AllDepsOf(index, r[..i]));
    NextDone(index, r, r', i);
    if r' != r {
      FewerLeft(AllDeps(index), seen, seen');
    }
  }

  /** InstallRecursive: the smallest closed set of packages, in order of discovery after the
      request itself; an error exactly when there is no such set. */
  method InstallRecursive(index: Index, installs: seq<string>) returns (r: Option<seq<string>>)
    ensures Outcome(index, installs, r)
  {
    var seen := NameSet(installs);
    var list := installs;
    var i := 0;
    StartWorking(index, installs);
    ghost var left := Left(index, seen);
    while i < |list|
      invariant Reached(index, installs, list, seen, i) && left == Left(index, seen)
      decreases left, |list| - i
    {
      var ok;
      ok, list, seen := InstallNext(index, installs, list, seen, i);
      if !ok {
        return None;
      }
      i := i + 1;
      left := Left(index, seen);
    }
    EndWorking(index, installs, list, seen);
    return Some(list);
  }

  // ------------------------------------------------------------------ differently spelled names

  /** An added package is the normalised name of one that the request already has. */
  ghost predicate Repeats(installs: seq<string>, r: seq<string>) {
    exists i, k :: 0 <= i < |installs| && |installs| <= k < |r| && Spells(installs[i], r[k])
  }

  predicate Spells(install: string, added: string) {
    Normalize(NameOf(install)) == added
  }

  /** Each name in the request appears in the request as normalised. */
  predicate Spelled(installs: seq<string>) {
    forall i :: 0 <= i < |installs| ==> Normalize(NameOf(installs[i])) in Names(installs)
  }

  lemma SpelledOnce(index: Index, installs: seq<string>, r: seq<string>)
    requires Spelled(installs) && Installed(index, installs, r)
    ensures !Repeats(installs, r)
  {
    var added := r[|installs|..];
    forall i, k | 0 <= i < |installs| && |installs| <= k < |r| ensures !Spells(installs[i], r[k]) {
      assert added[k - |installs|] == r[k];
      assert r[k] in Elems(added);
    }
  }

  /** Everything in the request depends on `d`, and so does `d` itself. */
  function AllNeed(installs: seq<string>, d: string): (index: Index)
    ensures forall i :: 0 <= i < |installs| ==> Normalize(installs[i]) in index
    ensures d in index && forall p :: p in index ==> index[p] == [d]
  {
    (map i | 0 <= i < |installs| :: Normalize(installs[i]) := [d])[d := [d]]
  }

  lemma NeedD(installs: seq<string>, d: string, pkg: string)
    requires Normalize(d) == d && pkg in Elems(installs + [d])
    ensures Installable(AllNeed(installs, d), pkg) && Deps(AllNeed(installs, d), pkg) == [d]
    ensures Served(AllNeed(installs, d), installs, Elems(installs + [d]), pkg)
  {
    ElemsSnoc(installs, d);
  }

  lemma NeedClosed(installs: seq<string>, d: string)
    requires Normalize(d) == d
    ensures Closed(AllNeed(installs, d), installs, Elems(installs + [d]))
  {
    forall pkg | pkg in Elems(installs + [d]) ensures Served(AllNeed(installs, d), installs, Elems(installs + [d]), pkg) {
      NeedD(installs, d, pkg);
    }
    ElemsSnoc(installs, d);
  }

  lemma NeedNeeded(installs: seq<string>, i: nat, d: string)
    requires Normalize(d) == d && i < |installs| && d !in Names(installs)
    ensures Needed(AllNeed(installs, d), installs, installs + [d])
  {
    ElemsSnoc(installs, d);
    assert installs[i] in Elems(installs + [d]);
    NeedD(installs, d, installs[i]);
    RequestNeeded(AllNeed(installs, d), installs);
    assert installs[|installs|..] == [];
    Grow(AllNeed(installs, d), installs, installs, i, 0);
  }

  /** The specification fixes the packages of the result. */
  lemma InstalledUnique(index: Index, installs: seq<string>, r: seq<string>, s: seq<string>)
    requires Installed(index, installs, r) && Installed(index, installs, s)
    ensures Elems(r) == Elems(s)
  {
  }

  /** For a request with a name spelled differently there is a dependency graph on which every
      result adds that package a second time. */
  lemma MisspelledTwice(installs: seq<string>, i: nat, r: seq<string>)
    requires i < |installs| && Normalize(NameOf(installs[i])) !in Names(installs)
    ensures var index := AllNeed(installs, Normalize(NameOf(installs[i])));
      !Unclosable(index, installs) && (Installed(index, installs, r) ==> Repeats(installs, r))
  {
    var d := Normalize(NameOf(installs[i]));
    var index := AllNeed(installs, d);
    NormalizeTwice(NameOf(installs[i]));
    NeedClosed(installs, d);
    NeedNeeded(installs, i, d);
    if Installed(index, installs, r) {
      InstalledUnique(index, installs, r, installs + [d]);
      ElemsSnoc(installs, d);
      NotRequested(installs, i, d);
      assert forall k :: 0 <= k < |installs| ==> r[k] == installs[k];
      var k :| 0 <= k < |r| && r[k] == d;
      assert Spells(installs[i], r[k]);
    }
  }

  /** A normalised name that the request does not have is none of its entries. */
  lemma NotRequested(installs: seq<string>, i: nat, d: string)
    requires i < |installs| && d == Normalize(NameOf(installs[i])) && d !in Names(installs)
    ensures forall k :: 0 <= k < |installs| ==> installs[k] != d
  {
    NameOfNormalized(installs[i]);
    forall k | 0 <= k < |installs| ensures installs[k] != d {
      assert NameOf(installs[k]) in Names(installs);
    }
  }

  /** A normalised name has no version pin to strip. */
  lemma {:induction false} NameOfNormalized(s: string)
    ensures NameOf(Normalize(NameOf(s))) == Normalize(NameOf(s))
  {
    if s != "" && !Pin(s) {
      var n := Normalize(NameOf(s));
      NameOfNormalized(s[1..]);
      assert n[1..] == Normalize(NameOf(s[1..]));
      assert !Pin(n) by {
        NoPin(s);
      }
    }
  }

  lemma NoPin(s: string)
    requires s != "" && !Pin(s)
    ensures !Pin(Normalize(NameOf(s)))
  {
    var n := NameOf(s);
    if |n| >= 2 {
      assert n[1] == NameOf(s[1..])[0] == s[1];
    }
  }

  /** Some dependency graph makes every result of InstallRecursive repeat a requested package. */
  ghost predicate Repeatable(installs: seq<string>) {
    exists index :: !Unclosable(index, installs) && forall r :: Installed(index, installs, r) ==> Repeats(installs, r)
  }

  /** On no dependency graph does InstallRecursive add what the request already has under
      another spelling, exactly when the request has each of its names as normalised;
      otherwise there is one on which it succeeds and always does. */
  lemma NoRepeatIff(installs: seq<string>)
    ensures Spelled(installs) <==> forall index, r :: Installed(index, installs, r) ==> !Repeats(installs, r)
    ensures !Spelled(installs) ==> Repeatable(installs)
  {
    if Spelled(installs) {
      forall index, r | Installed(index, installs, r) ensures !Repeats(installs, r) {
        SpelledOnce(index, installs, r);
      }
    } else {
      var i :| 0 <= i < |installs| && Normalize(NameOf(installs[i])) !in Names(installs);
      AlwaysRepeats(installs, i);
    }
  }

  lemma AlwaysRepeats(installs: seq<string>, i: nat)
    requires i < |installs| && Normalize(NameOf(installs[i])) !in Names(installs)
    ensures Repeatable(installs)
    ensures exists index, r :: Installed(index, installs, r) && Repeats(installs, r)
  {
    var d := Normalize(NameOf(installs[i]));
    var index := AllNeed(installs, d);
    forall r ensures !Unclosable(index, installs) && (Installed(index, installs, r) ==> Repeats(installs, r)) {
      MisspelledTwice(installs, i, r);
    }
    NormalizeTwice(NameOf(installs[i]));
    NeedClosed(installs, d);
    NeedNeeded(installs, i, d);
    assert Installed(index, installs, installs + [d]);
  }
}
