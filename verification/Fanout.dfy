/** Archive fan-out: one download, then direct hops along the cabled chain, each rank's
    archive promoted only after its checksum. */
module Fanout {
  import opened Wrappers

  type Rank = nat
  type Content = seq<int>

  // ---- the chain ----

  /** Direct links: which ranks a rank is cabled to, and how many usable ports lead there. */
  datatype Site = Site(ranks: set<Rank>, neighbours: map<Rank, set<Rank>>, ports: map<(Rank, Rank), nat>)

  predicate WellFormed(site: Site) {
    && site.neighbours.Keys == site.ranks
    && forall r | r in site.ranks :: site.neighbours[r] <= site.ranks && r !in site.neighbours[r]
  }

  predicate HasPort(site: Site, a: Rank, b: Rank) {
    (a, b) in site.ports && site.ports[(a, b)] == 1
  }

  predicate NoRepeat(order: seq<Rank>) {
    forall i, j | 0 <= i < j < |order| :: order[i] != order[j]
  }

  /** Consecutive ranks are cabled directly. */
  predicate Linked(site: Site, order: seq<Rank>) {
    && (forall i | 0 <= i < |order| :: order[i] in site.ranks && order[i] in site.neighbours)
    && (forall i | 0 <= i < |order| - 1 :: order[i + 1] in site.neighbours[order[i]])
  }

  function Elems(order: seq<Rank>): set<Rank> {
    set r | r in order
  }

  lemma {:induction false} NoRepeatSize(order: seq<Rank>)
    requires NoRepeat(order)
    ensures |Elems(order)| == |order|
  {
    if order != [] {
      var init, last := order[..|order| - 1], order[|order| - 1];
      NoRepeatSize(init);
      assert Elems(order) == Elems(init) + {last};
    }
  }

  lemma SubsetSize(a: set<Rank>, b: set<Rank>)
    requires a <= b
    ensures |a| <= |b| && (|a| == |b| ==> a == b)
  {
    var rest := b - a;
    assert b == a + rest && |b| == |a| + |rest|;
  }

  /** Walk the cables from the seed, always to the one neighbour not visited yet. */
  method FabricChain(site: Site, seed: Rank, first: Option<Rank>) returns (order: Option<seq<Rank>>)
    requires WellFormed(site)
    ensures order.Some? ==>
              && NoRepeat(order.value) && Linked(site, order.value) && Elems(order.value) == site.ranks
              && |order.value| >= 2 && order.value[0] == seed && (first.Some? ==> order.value[1] == first.value)
              && (first.None? ==> forall r | r in site.neighbours[seed] :: order.value[1] <= r)
              // over exactly one usable port each
              && forall i | 0 <= i < |order.value| - 1 ::
                   (order.value[i], order.value[i + 1]) in site.ports && site.ports[(order.value[i], order.value[i + 1])] == 1
    ensures order.None? ==> !Cyclic(site, seed, first) || !AllPorts(site)
  {
    if seed !in site.ranks || |site.neighbours[seed]| != 2 {
      if Cyclic(site, seed, first) {
        CycleDegree(site, seed, first);
      }
      return None;
    }
    var start: Rank;
    if first.Some? {
      start := first.value;
    } else {
      start := Lower(site.neighbours[seed]);
    }
    if start !in site.neighbours[seed] {
      return None;
    }
    var path := [seed, start];
    while |path| < |site.ranks|
      invariant |path| >= 2 && NoRepeat(path) && Linked(site, path)
      invariant path[0] == seed && path[1] == start
      decreases |site.ranks| - |path|
    {
      hide NoRepeat, Linked, Cyclic, AllPorts, HasPort, WellFormed;
      var next := Onward(site, path, seed, first);
      if next.None? {
        return None;
      }
      path := path + [next.value];
    }
    NoRepeatSize(path);
    SubsetSize(Elems(path), site.ranks);
    if exists i | 0 <= i < |path| - 1 :: !HasPort(site, path[i], path[i + 1]) {
      return None;
    }
    return Some(path);
  }

  /** The one neighbour of the last rank that was not visited yet. */
  method Onward(site: Site, path: seq<Rank>, ghost seed: Rank, ghost first: Option<Rank>) returns (next: Option<Rank>)
    requires WellFormed(site) && 2 <= |path| < |site.ranks| && NoRepeat(path) && Linked(site, path)
    ensures next.Some? ==> NoRepeat(path + [next.value]) && Linked(site, path + [next.value])
    ensures next.None? ==> !Cyclic(site, seed, first)
  {
    hide Cyclic;
    var candidates := site.neighbours[path[|path| - 1]] - Elems(path);
    if |candidates| != 1 {
      if Cyclic(site, seed, first) {
        NeverStuck(site, seed, first, path);
      }
      return None;
    }
    var rank :| rank in candidates;
    return Some(rank);
  }

  /** The lower of two neighbours. */
  method Lower(s: set<Rank>) returns (m: Rank)
    requires |s| == 2
    ensures m in s && forall r | r in s :: m <= r
  {
    var x :| x in s;
    var rest := s - {x};
    assert |rest| == 1;
    var y :| y in rest;
    assert |rest - {y}| == 0;
    assert s == {x, y};
    m := if x <= y then x else y;
  }

  ghost predicate Closed(s: set<Rank>, ranks: set<Rank>, next: map<Rank, Rank>) {
    s != {} && s <= ranks && forall r | r in s :: r in next && next[r] in s
  }

  /** A map that leads from every rank through all ranks: no smaller set is closed under it. */
  ghost predicate OneCycle(ranks: set<Rank>, next: map<Rank, Rank>) {
    next.Keys == ranks && forall s: set<Rank> | Closed(s, ranks, next) :: s == ranks
  }

  /** The two cables of one rank lead to the next rank and back to the previous one. */
  ghost predicate RingAt(site: Site, next: map<Rank, Rank>, prev: map<Rank, Rank>, r: Rank) {
    && r in next && r in prev && next[r] in prev && prev[r] in next
    && prev[next[r]] == r && next[prev[r]] == r
    && r in site.neighbours && site.neighbours[r] == {next[r], prev[r]}
  }

  /** The cables form one ring of three or more ranks, read in one direction and the other. */
  ghost predicate IsRing(site: Site, next: map<Rank, Rank>, prev: map<Rank, Rank>) {
    && |site.ranks| >= 3
    && OneCycle(site.ranks, next) && OneCycle(site.ranks, prev)
    && forall r | r in site.ranks :: RingAt(site, next, prev, r)
  }

  /** The cables form a ring, and the first hop, if asked for, follows one of them. */
  ghost predicate Cyclic(site: Site, seed: Rank, first: Option<Rank>) {
    && (exists next, prev :: IsRing(site, next, prev))
    && seed in site.ranks && seed in site.neighbours && (first.Some? ==> first.value in site.neighbours[seed])
  }

  ghost predicate AllPorts(site: Site) {
    forall a, b | a in site.neighbours && b in site.neighbours[a] ::
      (a, b) in site.ports && site.ports[(a, b)] == 1
  }

  lemma PairSize(a: Rank, b: Rank)
    ensures |{a, b}| <= 2 && (a != b ==> |{a, b}| == 2)
  {
  }

  lemma DirectionsDiffer(site: Site, next: map<Rank, Rank>, prev: map<Rank, Rank>, r: Rank)
    requires IsRing(site, next, prev) && r in site.ranks
    ensures next[r] != prev[r]
  {
    assert RingAt(site, next, prev, r);
    if next[r] == prev[r] {
      var pair := {r, next[r]};
      assert Closed(pair, site.ranks, next);
      PairSize(r, next[r]);
    }
  }

  lemma CycleDegree(site: Site, seed: Rank, first: Option<Rank>)
    requires Cyclic(site, seed, first)
    ensures |site.neighbours[seed]| == 2
  {
    hide OneCycle, WellFormed;
    var next, prev :| IsRing(site, next, prev);
    assert RingAt(site, next, prev, seed);
    DirectionsDiffer(site, next, prev, seed);
    PairSize(next[seed], prev[seed]);
  }

  ghost predicate Follows(path: seq<Rank>, next: map<Rank, Rank>) {
    forall i | 0 <= i < |path| - 1 :: path[i] in next && path[i + 1] == next[path[i]]
  }

  /** A path without repetition on a ring keeps its direction. */
  lemma {:induction false} PathKeepsDirection(site: Site, next: map<Rank, Rank>, prev: map<Rank, Rank>, path: seq<Rank>)
    requires NoRepeat(path) && Linked(site, path) && |path| >= 2
    requires forall r | r in site.ranks :: RingAt(site, next, prev, r)
    ensures Follows(path, next) || Follows(path, prev)
  {
    var m := |path| - 1;
    assert path[m] in site.neighbours[path[m - 1]];
    assert RingAt(site, next, prev, path[m - 1]);
    if m > 1 {
      var init := path[..m];
      assert Linked(site, init) by {
        assert forall i | 0 <= i < |init| :: init[i] == path[i];
      }
      PathKeepsDirection(site, next, prev, init);
      assert path[m - 2] == init[m - 2] && path[m - 1] == init[m - 1];
      assert RingAt(site, next, prev, path[m - 2]);
      assert path[m] != path[m - 2];
      if Follows(init, next) {
        assert path[m - 1] == next[path[m - 2]];
      } else {
        assert path[m - 1] == prev[path[m - 2]];
      }
    }
  }

  predicate Undoes(next: map<Rank, Rank>, prev: map<Rank, Rank>, r: Rank) {
    r in next && next[r] in prev && prev[next[r]] == r
  }

  /** The end of a path in one direction leads to a new rank until all are visited. */
  lemma NextIsNew(ranks: set<Rank>, next: map<Rank, Rank>, prev: map<Rank, Rank>, path: seq<Rank>)
    requires OneCycle(ranks, next) && forall r | r in ranks :: Undoes(next, prev, r)
    requires path != [] && NoRepeat(path) && Follows(path, next) && |path| < |ranks|
    requires forall i | 0 <= i < |path| :: path[i] in ranks
    ensures next[path[|path| - 1]] !in path
  {
    var m := |path| - 1;
    var ahead := next[path[m]];
    assert Undoes(next, prev, path[m]);
    forall i | 0 < i < |path| ensures path[i] != ahead {
      assert Undoes(next, prev, path[i - 1]);
      assert path[i - 1 + 1] == next[path[i - 1]];
    }
    if path[0] == ahead {
      WholePath(ranks, next, path);
    }
  }

  /** A path whose end leads back to its beginning visits every rank. */
  lemma WholePath(ranks: set<Rank>, next: map<Rank, Rank>, path: seq<Rank>)
    requires OneCycle(ranks, next) && path != [] && NoRepeat(path) && Follows(path, next)
    requires forall i | 0 <= i < |path| :: path[i] in ranks
    requires next[path[|path| - 1]] == path[0]
    ensures |path| == |ranks|
  {
    var all := Elems(path);
    forall r | r in all ensures r in next && next[r] in all {
      var i :| 0 <= i < |path| && path[i] == r;
      assert path[0] in all;
      if i < |path| - 1 {
        assert path[i + 1] in all;
      }
    }
    assert path[0] in all;
    assert Closed(all, ranks, next);
    NoRepeatSize(path);
  }

  lemma OneLeft(s: set<Rank>, path: seq<Rank>, a: Rank, b: Rank)
    requires s == {a, b} && a !in path && b in path
    ensures |s - Elems(path)| == 1
  {
    assert s - Elems(path) == {a};
  }

  lemma NeverStuck(site: Site, seed: Rank, first: Option<Rank>, path: seq<Rank>)
    requires 2 <= |path| < |site.ranks| && NoRepeat(path) && Linked(site, path) && Cyclic(site, seed, first)
    ensures |site.neighbours[path[|path| - 1]] - Elems(path)| == 1
  {
    hide OneCycle, WellFormed, RingAt, Elems, NoRepeat;
    var next, prev :| IsRing(site, next, prev);
    PathKeepsDirection(site, next, prev, path);
    if Follows(path, next) {
      OneWayOut(site, next, prev, path);
    } else {
      forall r | r in site.ranks ensures RingAt(site, prev, next, r) {
        RingReversed(site, next, prev, r);
      }
      OneWayOut(site, prev, next, path);
    }
  }

  lemma RingReversed(site: Site, next: map<Rank, Rank>, prev: map<Rank, Rank>, r: Rank)
    requires RingAt(site, next, prev, r)
    ensures RingAt(site, prev, next, r)
  {
    assert {next[r], prev[r]} == {prev[r], next[r]};
  }

  lemma OneWayOut(site: Site, next: map<Rank, Rank>, prev: map<Rank, Rank>, path: seq<Rank>)
    requires OneCycle(site.ranks, next) && forall r | r in site.ranks :: RingAt(site, next, prev, r)
    requires NoRepeat(path) && Linked(site, path) && Follows(path, next) && 2 <= |path| < |site.ranks|
    ensures |site.neighbours[path[|path| - 1]] - Elems(path)| == 1
  {
    hide OneCycle, NoRepeat, Elems;
    var m := |path| - 1;
    var last := path[m];
    assert RingAt(site, next, prev, path[m - 1]) && RingAt(site, next, prev, last);
    forall r | r in site.ranks ensures Undoes(next, prev, r) {
      assert RingAt(site, next, prev, r);
    }
    NextIsNew(site.ranks, next, prev, path);
    assert path[m - 1 + 1] == next[path[m - 1]];
    OneLeft(site.neighbours[last], path, next[last], prev[last]);
  }

  // ---- running the plan ----

  datatype Probe = Missing | Exact | Conflict

  type Inode = nat

  /** A transfer that was started at a step, the source rank's archive and what was in it. */
  datatype Transfer = Transfer(source: Rank, destination: Rank, inode: Inode, content: Content, step: nat)

  /** How far a remote script gets: it may stop before or after it fills the partial file,
      with anything in it, or between the two names it changes; its success may go
      unreported; and the command that fills the file may outlive its run and keep it open.
      `late` is what such left-over writers wrote until this step. */
  datatype Fate = Fate(
    starts: bool,
    leaves: Content,
    outlives: bool,
    goesOn: bool,
    unlinks: bool,
    reported: bool,
    late: map<Inode, Content>)

  datatype World = World(fate: nat -> Fate)

  /** What left-over writers make of the files they hold open. */
  function Written(contents: map<Inode, Content>, held: set<Inode>, late: map<Inode, Content>): map<Inode, Content> {
    map i | i in contents :: if i in held && i in late then late[i] else contents[i]
  }

  /** An exact file stays exact, whatever left-over writers do, exactly when none of them
      holds it open. */
  lemma StaysExactly(contents: map<Inode, Content>, held: set<Inode>, i: Inode)
    requires i in contents
    ensures (forall late :: Written(contents, held, late)[i] == contents[i]) <==> i !in held
  {
    if i in held {
      assert Written(contents, held, map[i := contents[i] + [0]])[i] != contents[i];
    }
  }

  /** Between two steps a left-over writer put this into the file. */
  ghost predicate WrittenLate(w: World, from: nat, to: nat, i: Inode, content: Content) {
    exists t: nat :: from <= t < to && i in w.fate(t).late && w.fate(t).late[i] == content
  }

  /** No command of these steps outlives its run. */
  ghost predicate NoneOutlives(w: World, from: nat, to: nat) {
    forall t: nat | from <= t < to :: !w.fate(t).outlives
  }

  /** The archives' names and everything behind them at one moment; also which file was left
      open by the command of which step, and which rank's archive was found exact at which. */
  datatype Archives = Archives(
    names: map<Rank, Inode>,
    contents: map<Inode, Content>,
    held: set<Inode>,
    clock: nat,
    left: map<nat, Inode>,
    found: map<nat, Rank>)
  {
    predicate Has(r: Rank, content: Content) {
      r in names && names[r] in contents && contents[names[r]] == content
    }
  }

  /** A record was only added to, at steps from `from` on. */
  predicate Grows<T(==)>(was: map<nat, T>, now: map<nat, T>, from: nat) {
    && (forall t | t in was :: t in now && now[t] == was[t])
    && (forall t | t in now && t !in was :: t >= from)
  }

  /** The rank's archive has this content, or what a left-over writer that has it open put
      there since `from`. */
  ghost predicate HasSince(w: World, from: nat, a: Archives, r: Rank, content: Content) {
    && r in a.names && a.names[r] in a.contents
    && (a.contents[a.names[r]] == content
        || (a.names[r] in a.held && WrittenLate(w, from, a.clock, a.names[r], a.contents[a.names[r]])))
  }

  /** What steps from `from` on make of the archives. Their names are as they were but for new
      ones. A file is open to a left-over writer if it was, or because the command of one of
      these steps outlived its run; no archive becomes so once it is in place. Every archive
      has what it had, and every new one the exact content, unless such a writer wrote. */
  ghost predicate Kept(w: World, from: nat, was: Archives, now: Archives, expected: Content) {
    && was.clock <= now.clock && was.held <= now.held
    && Grows(was.left, now.left, from) && Grows(was.found, now.found, from)
    && (forall i | i in now.held && i !in was.held :: exists t :: t in now.left && t !in was.left && now.left[t] == i)
    && (forall r | r in was.names :: r in now.names && now.names[r] == was.names[r] && (was.names[r] in now.held ==> was.names[r] in was.held))
    && (forall r | r in was.names && was.names[r] in was.contents :: HasSince(w, from, now, r, was.contents[was.names[r]]))
    && (forall r | r in now.names && r !in was.names :: HasSince(w, from, now, r, expected))
  }

  lemma HasSinceTwice(w: World, from: nat, later: nat, mid: Archives, now: Archives, r: Rank, content: Content)
    requires from <= later && mid.clock <= now.clock && mid.held <= now.held
    requires HasSince(w, from, mid, r, content) && r in now.names && now.names[r] == mid.names[r]
    requires HasSince(w, later, now, r, mid.contents[mid.names[r]])
    ensures HasSince(w, from, now, r, content)
  {
  }

  lemma KeptTwice(w: World, from: nat, later: nat, was: Archives, mid: Archives, now: Archives, expected: Content)
    requires from <= later && Kept(w, from, was, mid, expected) && Kept(w, later, mid, now, expected)
    ensures Kept(w, from, was, now, expected)
  {
    hide HasSince;
    forall i | i in now.held && i !in was.held ensures exists t :: t in now.left && t !in was.left && now.left[t] == i {
      if i in mid.held {
        var t: nat :| t in mid.left && t !in was.left && mid.left[t] == i;
        assert t in now.left;
      } else {
        var t: nat :| t in now.left && t !in mid.left && now.left[t] == i;
        assert t !in was.left;
      }
    }
    forall r | r in now.names && (r in was.names ==> was.names[r] in was.contents)
      ensures HasSince(w, from, now, r, if r in was.names then was.contents[was.names[r]] else expected)
    {
      if r in mid.names {
        InContents(w, from, mid, r, if r in was.names then was.contents[was.names[r]] else expected);
        HasSinceTwice(w, from, later, mid, now, r, if r in was.names then was.contents[was.names[r]] else expected);
      } else {
        HasSinceEarlier(w, from, later, now, r, expected);
      }
    }
  }

  lemma InContents(w: World, from: nat, a: Archives, r: Rank, content: Content)
    requires HasSince(w, from, a, r, content)
    ensures r in a.names && a.names[r] in a.contents
  {
  }

  lemma HasSinceEarlier(w: World, from: nat, later: nat, a: Archives, r: Rank, content: Content)
    requires from <= later && HasSince(w, later, a, r, content)
    ensures HasSince(w, from, a, r, content)
  {
  }

  /** An archive found or made exact stays so, but for what left-over writers write. */
  lemma StillHas(w: World, from: nat, later: nat, was: Archives, now: Archives, r: Rank, expected: Content)
    requires from <= later && Kept(w, later, was, now, expected) && HasSince(w, from, was, r, expected)
    ensures HasSince(w, from, now, r, expected)
  {
    HasSinceTwice(w, from, later, was, now, r, expected);
  }

  /** The rank's archive was found exact at some step from `from` on. */
  ghost predicate FoundExact(a: Archives, from: nat, r: Rank) {
    exists t: nat :: t in a.found && a.found[t] == r && t >= from
  }

  lemma StillFound(w: World, from: nat, later: nat, was: Archives, now: Archives, r: Rank, expected: Content)
    requires Kept(w, later, was, now, expected) && FoundExact(was, from, r)
    ensures FoundExact(now, from, r)
  {
    var t: nat :| t in was.found && was.found[t] == r && t >= from;
    assert t in now.found;
  }

  /** When no command outlives its run, no more files are open to left-over writers; and when
      none was, every archive is what it was and every new one exact. */
  lemma CleanRun(w: World, was: Archives, now: Archives, expected: Content)
    requires Kept(w, was.clock, was, now, expected)
    requires forall t | t in now.left :: t < now.clock && w.fate(t).outlives
    ensures NoneOutlives(w, was.clock, now.clock) ==> now.held == was.held
    ensures NoneOutlives(w, was.clock, now.clock) && was.held == {} ==>
              && Untouched(was, now)
              && (forall r | r in now.names && r !in was.names :: now.Has(r, expected))
              && (forall r | HasSince(w, was.clock, now, r, expected) :: now.Has(r, expected))
  {
    forall i | i in now.held && i !in was.held ensures !NoneOutlives(w, was.clock, now.clock) {
      var t: nat :| t in now.left && t !in was.left && now.left[t] == i;
      assert w.fate(t).outlives;
    }
  }

  /** Late writes of one step. */
  lemma TickKept(w: World, was: Archives, now: Archives, expected: Content)
    requires now == was.(contents := Written(was.contents, was.held, w.fate(was.clock).late), clock := was.clock + 1)
    requires forall r | r in was.names :: was.names[r] in was.contents
    ensures Kept(w, was.clock, was, now, expected)
    ensures w.fate(was.clock).late == map[] ==> Untouched(was, now)
  {
    forall r | r in was.names ensures HasSince(w, was.clock, now, r, was.contents[was.names[r]]) {
      var i := was.names[r];
      assert i in was.held && i in w.fate(was.clock).late ==> WrittenLate(w, was.clock, now.clock, i, now.contents[i]);
    }
  }

  /** Filling a file that is nobody's archive. */
  lemma FillKept(w: World, step: nat, was: Archives, now: Archives, i: Inode, expected: Content)
    requires forall r | r in was.names :: was.names[r] in was.contents && was.names[r] != i
    requires i in now.contents && now.contents == was.contents[i := now.contents[i]]
    requires now.names == was.names && now.clock == was.clock && now.found == was.found && step !in was.left
    requires (now.held == was.held && now.left == was.left) || (now.held == was.held + {i} && now.left == was.left[step := i])
    ensures Kept(w, step, was, now, expected) && Untouched(was, now)
  {
    hide WrittenLate;
    if now.left != was.left {
      assert step in now.left && now.left[step] == i;
    }
  }

  /** Putting an exact file in place of no archive. */
  lemma LinkKept(w: World, was: Archives, now: Archives, r: Rank, i: Inode, expected: Content)
    requires forall s | s in was.names :: was.names[s] in was.contents
    requires r !in was.names && i in was.contents && was.contents[i] == expected && now == was.(names := was.names[r := i])
    ensures Kept(w, was.clock, was, now, expected) && Untouched(was, now)
  {
    hide WrittenLate;
  }

  /** Noting an exact archive. */
  lemma FindKept(w: World, from: nat, was: Archives, now: Archives, step: nat, r: Rank, expected: Content)
    requires forall s | s in was.names :: was.names[s] in was.contents
    requires step >= from && step !in was.found && now == was.(found := was.found[step := r])
    ensures Kept(w, from, was, now, expected) && FoundExact(now, from, r) && Untouched(was, now)
  {
    hide WrittenLate;
    assert step in now.found;
  }

  /** What a transfer read was exact, but for what a left-over writer wrote. */
  ghost predicate Sources(w: World, transfers: seq<Transfer>, held: set<Inode>, expected: Content) {
    forall k | 0 <= k < |transfers| ::
      var t := transfers[k];
      t.content == expected || (t.inode in held && WrittenLate(w, 0, t.step + 1, t.inode, t.content))
  }

  lemma SourcesLater(w: World, transfers: seq<Transfer>, held: set<Inode>, more: set<Inode>, expected: Content)
    requires Sources(w, transfers, held, expected) && held <= more
    ensures Sources(w, transfers, more, expected)
  {
  }

  /** Every archive there was is still what it was. */
  ghost predicate Untouched(was: Archives, now: Archives) {
    forall r, content | was.Has(r, content) :: now.Has(r, content)
  }

  /** The archive and the partial file of every rank: names of inodes, of which one may have
      both names. */
  class Fleet {
    const world: World
    const expected: Content  // the content whose SHA-256 the plan carries
    var finals: map<Rank, Inode>
    var partials: map<Rank, Inode>
    var contents: map<Inode, Content>
    var held: set<Inode>  // opened by a writer that outlived its run
    var next: Inode
    var clock: nat
    ghost var transfers: seq<Transfer>
    ghost var left: map<nat, Inode>
    ghost var found: map<nat, Rank>

    ghost predicate Valid()
      reads this
    {
      && (forall i | i in contents :: i < next)
      && (forall r | r in finals :: finals[r] in contents)
      && (forall r | r in partials :: partials[r] in contents)
      && (forall r, s | r in finals && s in finals && r != s :: finals[r] != finals[s])
      && (forall r, s | r in finals && s in partials && r != s :: finals[r] != partials[s])
      && (forall r, s | r in partials && s in partials && r != s :: partials[r] != partials[s])
      && (forall t: nat | t in left :: t < clock && world.fate(t).outlives && left[t] in held)
      && (forall t: nat | t in found :: t < clock)
    }

    constructor (world: World, expected: Content)
      ensures Valid() && this.world == world && this.expected == expected && transfers == [] && clock == 0
      ensures finals == map[] && partials == map[] && held == {} && next == 0
    {
      this.world, this.expected := world, expected;
      finals, partials, contents, held, next := map[], map[], map[], {}, 0;
      clock, transfers, left, found := 0, [], map[], map[];
    }

    ghost function Now(): Archives
      reads this
    {
      Archives(finals, contents, held, clock, left, found)
    }

    ghost predicate ExactSources()
      reads this
    {
      Sources(world, transfers, held, expected)
    }

    function ProbeOf(r: Rank): Probe
      requires Valid()
      reads this
    {
      if r !in finals then Missing else if contents[finals[r]] == expected then Exact else Conflict
    }

    /** A step at which nothing goes wrong and no left-over writer writes. */
    ghost predicate SmoothAt(t: nat) {
      var f := world.fate(t);
      f.starts && f.goesOn && f.unlinks && f.reported && !f.outlives && f.leaves == expected && f.late == map[]
    }

    ghost predicate Smooth(start: nat) {
      forall t: nat | t >= start :: SmoothAt(t)
    }

    /** The next step begins: left-over writers have written meanwhile. */
    method Tick() returns (fate: Fate)
      requires Valid()
      modifies `contents, `clock
      ensures Valid() && clock == old(clock) + 1 && fate == world.fate(old(clock))
      ensures contents == Written(old(contents), held, fate.late) && old(clock) !in left && old(clock) !in found
      ensures Kept(world, old(clock), old(Now()), Now(), expected)
      ensures SmoothAt(old(clock)) ==> contents == old(contents) && Untouched(old(Now()), Now())
    {
      hide Kept, Untouched;
      ghost var was := Now();
      fate := world.fate(clock);
      contents := Written(contents, held, fate.late);
      clock := clock + 1;
      TickKept(world, was, Now(), expected);
    }

    method ProbeRank(r: Rank) returns (probe: Option<Probe>)
      requires Valid()
      modifies `contents, `clock, `found
      ensures Valid() && clock == old(clock) + 1 && Kept(world, old(clock), old(Now()), Now(), expected)
      ensures contents == Written(old(contents), held, world.fate(old(clock)).late)
      ensures probe == if world.fate(old(clock)).reported then Some(ProbeOf(r)) else None
      ensures probe == Some(Exact) ==> FoundExact(Now(), old(clock), r) && HasSince(world, old(clock), Now(), r, expected)
      ensures Smooth(old(clock)) ==> probe == Some(ProbeOf(r)) && contents == old(contents) && Smooth(clock)
    {
      hide Kept, Untouched, FoundExact;
      assert Smooth(clock) ==> SmoothAt(clock);
      ghost var step, was := clock, Now();
      var fate := Tick();
      probe := if fate.reported then Some(ProbeOf(r)) else None;
      if probe == Some(Exact) {
        ghost var ticked := Now();
        found := found[step := r];
        FindKept(world, step, ticked, Now(), step, r, expected);
        KeptTwice(world, step, step, was, ticked, Now(), expected);
      }
    }

    /** Fill the partial file of a rank that has no archive; a file that is there is gone on
        with in place. True when the command ended. */
    method Fill(r: Rank, fate: Fate) returns (ended: bool)
      requires Valid() && r !in finals && fate.starts && clock > 0 && fate == world.fate(clock - 1) && clock - 1 !in left
      modifies `partials, `contents, `held, `next, `left
      ensures Valid() && Kept(world, clock - 1, old(Now()), Now(), expected) && Untouched(old(Now()), Now())
      ensures r in partials && partials[r] == (if r in old(partials) then old(partials)[r] else old(next))
      ensures partials[r] in contents && contents[partials[r]] == fate.leaves
      ensures held == if fate.outlives then old(held) + {partials[r]} else old(held)
      ensures ended <==> !fate.outlives
    {
      hide Kept, Untouched;
      ghost var was := Now();
      Open(r, fate.leaves);
      if fate.outlives {
        LeaveOpen(partials[r]);
      }
      FillKept(world, clock - 1, was, Now(), partials[r], expected);
      return !fate.outlives;
    }

    /** Write the partial file; it is made if there is none. */
    method Open(r: Rank, content: Content)
      requires Valid() && r !in finals
      modifies `partials, `contents, `next
      ensures Valid() && r in partials && partials[r] == (if r in old(partials) then old(partials)[r] else old(next))
      ensures contents == old(contents)[partials[r] := content]
      ensures forall s | s in finals :: finals[s] != partials[r]
    {
      if r !in partials {
        partials := partials[r := next];
        next := next + 1;
      }
      contents := contents[partials[r] := content];
    }

    /** The command of the step just begun goes on after its run, with this file open. */
    method LeaveOpen(i: Inode)
      requires Valid() && clock > 0 && world.fate(clock - 1).outlives && clock - 1 !in left
      modifies `held, `left
      ensures Valid() && held == old(held) + {i} && left == old(left)[clock - 1 := i]
    {
      held := held + {i};
      ghost var step: nat := clock - 1;
      left := left[step := i];
    }

    /** Check the partial file and link it as the archive, if there is none; then remove the
        partial name. */
    method Promote(r: Rank) returns (ok: bool)
      requires Valid()
      modifies `finals, `partials, `contents, `clock
      ensures Valid() && Kept(world, old(clock), old(Now()), Now(), expected) && clock == old(clock) + 1
      ensures finals == old(finals) || (r !in old(finals) && r in old(partials) && finals == old(finals)[r := old(partials)[r]])
      ensures ok ==> r !in old(finals) && ProbeOf(r) == Exact
      ensures finals != old(finals) ==> ProbeOf(r) == Exact
      ensures r in finals && r !in old(finals) <==>
                && r !in old(finals) && r in old(partials)
                && old(partials)[r] in contents && contents[old(partials)[r]] == expected
                && world.fate(old(clock)).goesOn
      // a success is one that was reported, with the partial name removed
      ensures ok <==> r in finals && r !in old(finals) && world.fate(old(clock)).unlinks && world.fate(old(clock)).reported
      ensures partials == if r in finals && r !in old(finals) && world.fate(old(clock)).unlinks then old(partials) - {r} else old(partials)
      ensures SmoothAt(old(clock)) && r !in old(finals) && r in old(partials) && old(contents)[old(partials)[r]] == expected ==>
                ok && r in finals && finals[r] == old(partials)[r] && Untouched(old(Now()), Now())
    {
      hide Kept, Untouched;
      ghost var was := Now();
      var fate := Tick();
      if r in finals || r !in partials || contents[partials[r]] != expected || !fate.goesOn {
        return false;
      }
      ghost var ticked := Now();
      Link(r, fate);
      KeptTwice(world, clock - 1, clock, was, ticked, Now(), expected);
      UntouchedTwice(was, ticked, Now());
      return fate.unlinks && fate.reported;
    }

    method Link(r: Rank, fate: Fate)
      requires Valid() && r !in finals && r in partials && contents[partials[r]] == expected
      modifies `finals, `partials
      ensures Valid() && Kept(world, clock, old(Now()), Now(), expected) && Untouched(old(Now()), Now())
      ensures finals == old(finals)[r := old(partials)[r]]
      ensures partials == if fate.unlinks then old(partials) - {r} else old(partials)
    {
      hide Kept, Untouched;
      ghost var was, i := Now(), partials[r];
      finals := finals[r := partials[r]];
      if fate.unlinks {
        partials := partials - {r};
      }
      LinkKept(world, was, Now(), r, i, expected);
    }

    /** Fetch the archive to the seed: fill the partial file, then promote it. */
    method Download(r: Rank) returns (ok: bool)
      requires Valid()
      modifies `finals, `partials, `contents, `held, `next, `clock, `left
      ensures Valid() && Kept(world, old(clock), old(Now()), Now(), expected) && clock >= old(clock)
      ensures finals.Keys <= old(finals).Keys + {r} && (ok ==> ProbeOf(r) == Exact)
      ensures r !in old(finals) && world.fate(old(clock)).starts && world.fate(old(clock)).outlives ==>
                && !ok && clock == old(clock) + 1 && finals == old(finals) && r in partials && partials[r] in held
                && partials[r] == if r in old(partials) then old(partials)[r] else old(next)
      ensures r !in old(finals) && SmoothAt(old(clock)) && SmoothAt(old(clock) + 1) ==>
                && ok && clock == old(clock) + 2 && held == old(held) && Untouched(old(Now()), Now())
                && (r in old(partials) ==> finals[r] == old(partials)[r])
    {
      hide Valid, Kept, Untouched, HasSince;
      ghost var start, was := clock, Now();
      var fate := Tick();
      if r in finals || !fate.starts {
        return false;
      }
      ghost var ticked := Now();
      ok := Fill(r, fate);
      ghost var filled := Now();
      KeptTwice(world, start, start, was, ticked, filled, expected);
      if !ok {
        return;
      }
      ok := Promote(r);
      KeptTwice(world, start, start + 1, was, filled, Now(), expected);
      UntouchedTwice(was, ticked, filled);
      UntouchedTwice(was, filled, Now());
    }

    /** Note a transfer that starts, and what it reads. */
    ghost method Record(source: Rank, destination: Rank, from: nat)
      requires Valid() && clock > 0 && HasSince(world, from, Now(), source, expected) && ExactSources()
      modifies `transfers
      ensures Valid() && ExactSources() && source in finals && finals[source] in contents
      ensures transfers == old(transfers) + [Transfer(source, destination, finals[source], contents[finals[source]], clock - 1)]
    {
      hide HasSince, Sources;
      InContents(world, from, Now(), source, expected);
      NoteTransfer(world, from, Now(), transfers, source, destination, expected);
      transfers := transfers + [Transfer(source, destination, finals[source], contents[finals[source]], clock - 1)];
    }

    /** Copy the archive of one rank into the partial file of the next. */
    method Copy(source: Rank, destination: Rank, ghost from: nat) returns (ok: bool)
      requires Valid() && from <= clock && HasSince(world, from, Now(), source, expected)
      requires destination !in finals && ExactSources()
      modifies `partials, `contents, `held, `next, `clock, `transfers, `left
      ensures Valid() && Kept(world, old(clock), old(Now()), Now(), expected) && clock == old(clock) + 1
      ensures ExactSources() && old(transfers) <= transfers
      ensures ok ==> destination in partials
      ensures ok <==> var fate := world.fate(old(clock)); fate.starts && !fate.outlives && fate.reported
      ensures SmoothAt(old(clock)) ==>
                && ok && Untouched(old(Now()), Now())
                && destination in partials && partials[destination] in contents && contents[partials[destination]] == expected
    {
      hide Valid, Kept, Untouched, HasSince, Sources, WrittenLate;
      ghost var start, was := clock, Now();
      var fate := Tick();
      ghost var ticked := Now();
      StillHas(world, from, start, was, ticked, source, expected);
      SourcesLater(world, transfers, was.held, held, expected);
      Record(source, destination, from);
      if !fate.starts {
        return false;
      }
      var ended := Fill(destination, fate);
      KeptTwice(world, start, start, was, ticked, Now(), expected);
      UntouchedTwice(was, ticked, Now());
      SourcesLater(world, transfers, ticked.held, held, expected);
      return ended && fate.reported;
    }

    /** Transfer an archive and promote it. */
    method Deliver(source: Rank, destination: Rank, ghost from: nat) returns (ok: bool)
      requires Valid() && from <= clock && HasSince(world, from, Now(), source, expected)
      requires destination !in finals && ExactSources()
      modifies this
      ensures Valid() && Kept(world, old(clock), old(Now()), Now(), expected) && clock >= old(clock)
      ensures ExactSources() && old(transfers) <= transfers
      ensures finals.Keys <= old(finals).Keys + {destination}
      ensures Smooth(old(clock)) ==>
                ok && Untouched(old(Now()), Now()) && ProbeOf(destination) == Exact && Smooth(clock)
    {
      hide Valid, Sources, Kept, Untouched, HasSince;
      assert Smooth(clock) ==> SmoothAt(clock) && SmoothAt(clock + 1);
      ghost var start, was := clock, Now();
      ok := Copy(source, destination, from);
      if !ok {
        return;
      }
      ghost var copied := Now();
      ok := Promote(destination);
      KeptTwice(world, start, start + 1, was, copied, Now(), expected);
      UntouchedTwice(was, copied, Now());
    }

    /** A smooth download is one that finds the archive in place afterwards. */
    method Fetch(r: Rank) returns (ok: bool)
      requires Valid() && r !in finals
      modifies `finals, `partials, `contents, `held, `next, `clock, `left
      ensures Valid() && Kept(world, old(clock), old(Now()), Now(), expected) && clock >= old(clock)
      ensures finals.Keys <= old(finals).Keys + {r} && (ok ==> ProbeOf(r) == Exact)
      ensures Smooth(old(clock)) ==> ok && Untouched(old(Now()), Now()) && Smooth(clock)
    {
      hide Kept, Untouched;
      assert Smooth(clock) ==> SmoothAt(clock) && SmoothAt(clock + 1);
      ok := Download(r);
    }

    /** Transfer, promote and look. */
    method Provide(source: Rank, destination: Rank, ghost from: nat) returns (exact: bool)
      requires Valid() && from <= clock && HasSince(world, from, Now(), source, expected)
      requires destination !in finals && ExactSources()
      modifies this
      ensures Valid() && Kept(world, old(clock), old(Now()), Now(), expected) && clock >= old(clock)
      ensures ExactSources() && old(transfers) <= transfers
      ensures finals.Keys <= old(finals).Keys + {destination}
      ensures exact ==> FoundExact(Now(), old(clock), destination) && HasSince(world, old(clock), Now(), destination, expected)
      ensures Smooth(old(clock)) ==> exact && Untouched(old(Now()), Now()) && Smooth(clock)
    {
      hide Valid, Sources, Smooth, SmoothAt, Kept, Untouched, HasSince, FoundExact;
      ghost var start, was := clock, Now();
      exact := Deliver(source, destination, from);
      if !exact {
        return;
      }
      ghost var later, delivered := clock, Now();
      var probe := ProbeRank(destination);
      exact := probe == Some(Exact);
      ThenLook(world, start, later, was, delivered, Now(), destination, expected, exact);
    }

    /** Download, promote and look. */
    method Obtain(r: Rank) returns (exact: bool)
      requires Valid() && r !in finals
      modifies `finals, `partials, `contents, `held, `next, `clock, `left, `found
      ensures Valid() && Kept(world, old(clock), old(Now()), Now(), expected) && clock >= old(clock)
      ensures finals.Keys <= old(finals).Keys + {r}
      ensures exact ==> FoundExact(Now(), old(clock), r) && HasSince(world, old(clock), Now(), r, expected)
      ensures Smooth(old(clock)) ==> exact && Untouched(old(Now()), Now()) && Smooth(clock)
    {
      hide Valid, Smooth, SmoothAt, Kept, Untouched, HasSince, FoundExact;
      ghost var start, was := clock, Now();
      exact := Fetch(r);
      if !exact {
        return;
      }
      ghost var later, fetched := clock, Now();
      var probe := ProbeRank(r);
      exact := probe == Some(Exact);
      ThenLook(world, start, later, was, fetched, Now(), r, expected, exact);
    }

    /** One hop: reuse an exact archive, refuse a conflicting one, else transfer and promote. */
    method Hop(source: Rank, destination: Rank, ghost from: nat) returns (ok: bool)
      requires Valid() && from <= clock && HasSince(world, from, Now(), source, expected) && ExactSources()
      modifies this
      ensures Valid() && Kept(world, old(clock), old(Now()), Now(), expected) && clock >= old(clock)
      ensures ExactSources() && old(transfers) <= transfers
      ensures ok ==> FoundExact(Now(), old(clock), destination) && HasSince(world, old(clock), Now(), destination, expected)
      ensures finals.Keys <= old(finals).Keys + {destination}
      ensures Smooth(old(clock)) ==> Untouched(old(Now()), Now()) && Smooth(clock)
      ensures Smooth(old(clock)) ==> (ok <==> destination !in old(finals) || old(Now()).Has(destination, expected))
    {
      hide Valid, Sources, Smooth, SmoothAt, Kept, Untouched, HasSince, FoundExact;
      ghost var start, was := clock, Now();
      NamesHaveContents();
      var probe := ProbeRank(destination);
      ghost var probed := Now();
      UntouchedSame(was, probed);
      if probe.None? || probe.value == Conflict {
        SourcesAfter(world, start, transfers, was, probed, expected);
        return false;
      }
      SourcesAfter(world, start, transfers, was, probed, expected);
      if probe.value == Exact {
        return true;
      }
      StillHas(world, from, start, was, probed, source, expected);
      ok := Provide(source, destination, from);
      ThenProvide(world, start, start + 1, was, probed, Now(), destination, expected, ok);
    }

    /** The seed holds or gets the archive. */
    method Seed(r: Rank) returns (ok: bool)
      requires Valid()
      modifies `finals, `partials, `contents, `held, `next, `clock, `left, `found
      ensures Valid() && Kept(world, old(clock), old(Now()), Now(), expected) && clock >= old(clock)
      ensures ok ==> FoundExact(Now(), old(clock), r) && HasSince(world, old(clock), Now(), r, expected)
      ensures finals.Keys <= old(finals).Keys + {r}
      ensures Smooth(old(clock)) ==> Untouched(old(Now()), Now()) && Smooth(clock)
      ensures Smooth(old(clock)) ==> (ok <==> r !in old(finals) || old(Now()).Has(r, expected))
    {
      hide Valid, Smooth, SmoothAt, Kept, Untouched, HasSince, FoundExact;
      ghost var start, was := clock, Now();
      NamesHaveContents();
      var probe := ProbeRank(r);
      ghost var probed := Now();
      UntouchedSame(was, probed);
      if probe.None? || probe.value == Conflict {
        return false;
      }
      if probe.value == Exact {
        return true;
      }
      ok := Obtain(r);
      ThenProvide(world, start, start + 1, was, probed, Now(), r, expected, ok);
    }

    /** Provide the seed, then follow the chain; stop at the first failure. At a normal end
        every rank's archive was found exact during the run and has the exact content, unless
        a left-over writer wrote to it since. When none is left over from before and no
        command of this run outlives it, archives are exact at a normal end, unchanged or
        newly exact at any end, and every transfer read an exact one. */
    method Execute(order: seq<Rank>) returns (ok: bool)
      requires Valid() && order != [] && NoRepeat(order) && ExactSources()
      modifies this
      ensures Valid() && Kept(world, old(clock), old(Now()), Now(), expected) && clock >= old(clock)
      ensures ExactSources() && old(transfers) <= transfers
      ensures ok ==> forall r | r in order ::
                FoundExact(Now(), old(clock), r) && HasSince(world, old(clock), Now(), r, expected)
      ensures NoneOutlives(world, old(clock), clock) ==> held == old(held)
      ensures NoneOutlives(world, old(clock), clock) && old(held) == {} ==>
                && Untouched(old(Now()), Now())
                && (forall r | r in finals && r !in old(finals) :: Now().Has(r, expected))
                && (forall t | t in transfers :: t.content == expected)
                && (ok ==> forall r | r in order :: Now().Has(r, expected))
      ensures Smooth(old(clock)) ==>
                (ok <==> forall r | r in order && r in old(finals) :: old(Now()).Has(r, expected))
    {
      hide Valid, Kept, Untouched, HasSince, FoundExact, NoneOutlives, Sources, WrittenLate, Smooth, SmoothAt, NoRepeat, Archives.Has;
      ghost var was := Now();
      ok := Follow(order);
      ValidLeft();
      CleanRun(world, was, Now(), expected);
      CleanSources(world, transfers, held, expected);
    }

    /** The seed and the chain. */
    method Follow(order: seq<Rank>) returns (ok: bool)
      requires Valid() && order != [] && NoRepeat(order) && ExactSources()
      modifies this
      ensures Valid() && Kept(world, old(clock), old(Now()), Now(), expected) && clock >= old(clock)
      ensures ExactSources() && old(transfers) <= transfers
      ensures ok ==> forall r | r in order ::
                FoundExact(Now(), old(clock), r) && HasSince(world, old(clock), Now(), r, expected)
      ensures Smooth(old(clock)) ==>
                (ok <==> forall r | r in order && r in old(finals) :: old(Now()).Has(r, expected))
    {
      hide Valid, Sources, Smooth, SmoothAt, Kept, Untouched, HasSince, FoundExact, Archives.Has, AllFound;
      ghost var start, was := clock, Now();
      NamesHaveContents();
      ok := Seed(order[0]);
      SourcesAfter(world, start, transfers, was, Now(), expected);
      if !ok {
        return;
      }
      FirstFound(world, start, Now(), order, expected);
      for i := 1 to |order|
        invariant Valid() && Kept(world, start, was, Now(), expected) && ExactSources() && old(transfers) <= transfers
        invariant start <= clock && AllFound(world, start, Now(), order, i, expected)
        invariant forall k | i <= k < |order| && order[k] in finals :: order[k] in old(finals)
        invariant Smooth(start) ==> Untouched(was, Now()) && Smooth(clock)
        invariant Smooth(start) ==> forall k | 0 <= k < i && order[k] in old(finals) :: was.Has(order[k], expected)
      {
        ghost var at, before := clock, Now();
        LastFound(world, start, Now(), order, i, expected);
        ok := Hop(order[i - 1], order[i], start);
        KeptTwice(world, start, at, was, before, Now(), expected);
        UntouchedTwice(was, before, Now());
        SameVerdict(was, before, order[i], expected);
        if !ok {
          return;
        }
        StillAllFound(world, start, at, before, Now(), order, i, expected);
      }
      EachFound(world, start, Now(), order, expected);
      return true;
    }

    lemma NamesHaveContents()
      requires Valid()
      ensures forall r | r in finals :: finals[r] in contents
    {
    }

    lemma ValidLeft()
      requires Valid()
      ensures forall t: nat | t in Now().left :: t < Now().clock && world.fate(t).outlives
    {
    }
  }

  lemma NoteTransfer(w: World, from: nat, a: Archives, transfers: seq<Transfer>, source: Rank, destination: Rank, expected: Content)
    requires a.clock > 0 && HasSince(w, from, a, source, expected) && Sources(w, transfers, a.held, expected)
    ensures Sources(w, transfers + [Transfer(source, destination, a.names[source], a.contents[a.names[source]], a.clock - 1)], a.held, expected)
  {
  }

  lemma UntouchedTwice(was: Archives, mid: Archives, now: Archives)
    ensures Untouched(was, mid) && Untouched(mid, now) ==> Untouched(was, now)
  {
  }

  lemma UntouchedSame(was: Archives, now: Archives)
    ensures now.names == was.names && now.contents == was.contents ==> Untouched(was, now)
  {
  }

  lemma FoundEarlier(w: World, from: nat, later: nat, a: Archives, r: Rank, expected: Content)
    requires from <= later && FoundExact(a, later, r) && HasSince(w, later, a, r, expected)
    ensures FoundExact(a, from, r) && HasSince(w, from, a, r, expected)
  {
  }

  /** Steps after which the archives are looked at. */
  lemma ThenLook(w: World, start: nat, later: nat, was: Archives, mid: Archives, now: Archives, r: Rank, expected: Content, exact: bool)
    requires start <= later && Kept(w, start, was, mid, expected) && Kept(w, later, mid, now, expected)
    requires exact ==> FoundExact(now, later, r) && HasSince(w, later, now, r, expected)
    ensures Kept(w, start, was, now, expected)
    ensures Untouched(was, mid) && now.names == mid.names && now.contents == mid.contents ==> Untouched(was, now)
    ensures exact ==> FoundExact(now, start, r) && HasSince(w, start, now, r, expected)
  {
    hide Kept, HasSince, FoundExact;
    KeptTwice(w, start, later, was, mid, now, expected);
    UntouchedSame(mid, now);
    UntouchedTwice(was, mid, now);
    if exact {
      FoundEarlier(w, start, later, now, r, expected);
    }
  }

  /** A look, and then steps that provide an archive. */
  lemma ThenProvide(w: World, start: nat, later: nat, was: Archives, mid: Archives, now: Archives, r: Rank, expected: Content, exact: bool)
    requires start <= later && Kept(w, start, was, mid, expected) && Kept(w, later, mid, now, expected)
    requires exact ==> FoundExact(now, later, r) && HasSince(w, later, now, r, expected)
    ensures Kept(w, start, was, now, expected)
    ensures Untouched(was, mid) && Untouched(mid, now) ==> Untouched(was, now)
    ensures exact ==> FoundExact(now, start, r) && HasSince(w, start, now, r, expected)
  {
    hide Kept, HasSince, FoundExact;
    KeptTwice(w, start, later, was, mid, now, expected);
    UntouchedTwice(was, mid, now);
    if exact {
      FoundEarlier(w, start, later, now, r, expected);
    }
  }

  lemma SourcesAfter(w: World, from: nat, transfers: seq<Transfer>, was: Archives, now: Archives, expected: Content)
    requires Kept(w, from, was, now, expected) && Sources(w, transfers, was.held, expected)
    ensures Sources(w, transfers, now.held, expected) && was.clock <= now.clock
  {
  }

  lemma CleanSources(w: World, transfers: seq<Transfer>, held: set<Inode>, expected: Content)
    requires Sources(w, transfers, held, expected)
    ensures held == {} ==> forall t | t in transfers :: t.content == expected
  {
  }

  lemma SameVerdict(was: Archives, now: Archives, r: Rank, content: Content)
    requires r in now.names ==> r in was.names
    requires r in was.names ==> was.names[r] in was.contents
    ensures Untouched(was, now) ==> ((r !in now.names || now.Has(r, content)) <==> (r in was.names ==> was.Has(r, content)))
  {
    if r in was.names {
      assert was.Has(r, was.contents[was.names[r]]);
    }
  }

  /** Any number of runs over one fleet, each interrupted anywhere and leaving writers behind:
      no archive's name is ever given away, and every archive is what it was or, if it is new,
      exact, but for what left-over writers wrote to it; every transfer read an exact archive
      with the same exception. When there is none left over from before and no command
      outlives its run, there is no exception. */
  method Repeat(fleet: Fleet, order: seq<Rank>, runs: nat) returns (ok: bool)
    requires fleet.Valid() && order != [] && NoRepeat(order) && fleet.transfers == []
    modifies fleet
    ensures fleet.Valid() && Kept(fleet.world, old(fleet.clock), old(fleet.Now()), fleet.Now(), fleet.expected) && fleet.ExactSources()
    ensures ok ==> forall r | r in order ::
              && FoundExact(fleet.Now(), old(fleet.clock), r)
              && HasSince(fleet.world, old(fleet.clock), fleet.Now(), r, fleet.expected)
    ensures NoneOutlives(fleet.world, old(fleet.clock), fleet.clock) ==> fleet.held == old(fleet.held)
    ensures NoneOutlives(fleet.world, old(fleet.clock), fleet.clock) && old(fleet.held) == {} ==>
              && Untouched(old(fleet.Now()), fleet.Now())
              && (forall r | r in fleet.finals && r !in old(fleet.finals) :: fleet.Now().Has(r, fleet.expected))
              && (forall t | t in fleet.transfers :: t.content == fleet.expected)
              && (ok ==> forall r | r in order :: fleet.Now().Has(r, fleet.expected))
  {
    hide Kept, Untouched, HasSince, FoundExact, NoneOutlives, Archives.Has, Sources, WrittenLate;
    ok := false;
    ghost var start, was := fleet.clock, fleet.Now();
    NothingKept(fleet.world, was, fleet.expected);
    NoSources(fleet.world, fleet.held, fleet.expected);
    for k := 0 to runs
      invariant fleet.Valid() && Kept(fleet.world, start, was, fleet.Now(), fleet.expected) && fleet.ExactSources()
      invariant start <= fleet.clock
      invariant ok ==> forall r | r in order ::
                  && FoundExact(fleet.Now(), start, r)
                  && HasSince(fleet.world, start, fleet.Now(), r, fleet.expected)
    {
      ghost var at, before := fleet.clock, fleet.Now();
      ok := fleet.Follow(order);
      KeptTwice(fleet.world, start, at, was, before, fleet.Now(), fleet.expected);
      if ok {
        forall r | r in order
          ensures FoundExact(fleet.Now(), start, r) && HasSince(fleet.world, start, fleet.Now(), r, fleet.expected)
        {
          FoundEarlier(fleet.world, start, at, fleet.Now(), r, fleet.expected);
        }
      }
      ClockKept(fleet.world, start, was, fleet.Now(), fleet.expected);
    }
    fleet.ValidLeft();
    CleanRun(fleet.world, was, fleet.Now(), fleet.expected);
    CleanSources(fleet.world, fleet.transfers, fleet.held, fleet.expected);
  }

  lemma NothingKept(w: World, was: Archives, expected: Content)
    requires forall r | r in was.names :: was.names[r] in was.contents
    ensures Kept(w, was.clock, was, was, expected)
  {
  }

  lemma NoSources(w: World, held: set<Inode>, expected: Content)
    ensures Sources(w, [], held, expected)
  {
  }

  /** The first `i` ranks of the order were found exact since `from`. */
  ghost predicate AllFound(w: World, from: nat, a: Archives, order: seq<Rank>, i: nat, expected: Content)
    requires i <= |order|
  {
    forall k | 0 <= k < i :: FoundExact(a, from, order[k]) && HasSince(w, from, a, order[k], expected)
  }

  lemma FirstFound(w: World, from: nat, a: Archives, order: seq<Rank>, expected: Content)
    requires order != [] && FoundExact(a, from, order[0]) && HasSince(w, from, a, order[0], expected)
    ensures AllFound(w, from, a, order, 1, expected)
  {
  }

  lemma LastFound(w: World, from: nat, a: Archives, order: seq<Rank>, i: nat, expected: Content)
    requires 0 < i <= |order| && AllFound(w, from, a, order, i, expected)
    ensures HasSince(w, from, a, order[i - 1], expected)
  {
  }

  lemma StillAllFound(w: World, from: nat, later: nat, was: Archives, now: Archives, order: seq<Rank>, i: nat, expected: Content)
    requires from <= later && i < |order| && Kept(w, later, was, now, expected) && AllFound(w, from, was, order, i, expected)
    requires FoundExact(now, later, order[i]) && HasSince(w, later, now, order[i], expected)
    ensures AllFound(w, from, now, order, i + 1, expected)
  {
    hide Kept, HasSince, FoundExact;
    forall k | 0 <= k < i ensures FoundExact(now, from, order[k]) && HasSince(w, from, now, order[k], expected) {
      StillHas(w, from, later, was, now, order[k], expected);
      StillFound(w, from, later, was, now, order[k], expected);
    }
    FoundEarlier(w, from, later, now, order[i], expected);
  }

  lemma EachFound(w: World, from: nat, a: Archives, order: seq<Rank>, expected: Content)
    requires AllFound(w, from, a, order, |order|, expected)
    ensures forall r | r in order :: FoundExact(a, from, r) && HasSince(w, from, a, r, expected)
  {
  }

  lemma ClockKept(w: World, from: nat, was: Archives, now: Archives, expected: Content)
    requires Kept(w, from, was, now, expected)
    ensures was.clock <= now.clock
  {
  }

  /** The fates of a download that times out while its command goes on, a run that completes
      the same file, a look, and one more write of the left-over command. */
  function LeftOver(t: nat): Fate {
    var smooth := Fate(true, [1], false, true, true, true, map[]);
    if t == 0 then smooth.(outlives := true, reported := false)
    else if t == 4 then smooth.(late := map[0 := [2]])
    else smooth
  }

  /** A download whose command goes on, and a run that completes its file. */
  method TwoDownloads() returns (f: Fleet)
    ensures fresh(f) && f.Valid() && f.world == World(LeftOver) && f.expected == [1] && f.clock == 3
    ensures 0 in f.finals && f.finals[0] == 0 && 0 in f.held && f.ProbeOf(0) == Exact
  {
    hide Kept, Untouched, HasSince, FoundExact;
    f := new Fleet(World(LeftOver), [1]);
    var first := f.Download(0);
    assert f.SmoothAt(1) && f.SmoothAt(2);
    var second := f.Download(0);
  }

  /** An archive that was checked, put in place and found exact, and is not any more. */
  method LeftOverCorrupts() returns (f: Fleet, good: Option<Probe>, later: Option<Probe>)
    ensures fresh(f) && f.Valid() && good == Some(Exact) && later == Some(Conflict)
  {
    hide Kept, Untouched, HasSince, FoundExact;
    f := TwoDownloads();
    good := f.ProbeRank(0);
    assert [2] != [1];
    later := f.ProbeRank(0);
  }
}
