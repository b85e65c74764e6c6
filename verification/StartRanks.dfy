/** Ranked start with rollback: workers first, the head last, and on any failure only
    containers that this very invocation launched are removed. */
module StartRanks {
  import opened Wrappers

  type Rank = nat

  /** What a remote query or command comes back with. */
  datatype Answer = Yes | No | Lost  // `Lost`: the connection failed or timed out

  /** What the rollback script's reply says. */
  datatype Rolled = Removed | Foreign | Unsettled

  datatype Event =
    | Seen(rank: Rank)  // its container was observed running
    | Launched(rank: Rank)  // the launch command was sent; it may take effect now, later or never
    | RolledBack(rank: Rank, result: Rolled)
    | Reported(rank: Rank)  // the operator is told that removal was not established

  function Decimal(n: nat): string {
    if n < 10 then ["0123456789"[n]] else Decimal(n / 10) + ["0123456789"[n % 10]]
  }

  function Name(prefix: string, r: Rank): string {
    prefix + Decimal(r)
  }

  // ---- Docker hosts ----

  /** One Docker host: names point at containers, and a container's label never changes. */
  datatype Docker = Docker(names: map<string, string>, labels: map<string, string>, running: set<string>)

  predicate Hex64(id: string) {
    |id| == 64 && forall c | c in id :: '0' <= c <= '9' || 'a' <= c <= 'f'
  }

  /** `docker rm -f` of an existing container. */
  function RemoveFrom(d: Docker, id: string): Docker {
    Docker(map n | n in d.names && d.names[n] != id :: d.names[n], d.labels - {id}, d.running - {id})
  }

  /** Does a running container have this name? */
  predicate Up(d: Docker, name: string) {
    name in d.names && d.names[name] in d.running
  }

  predicate Held(d: Docker, name: string) {
    name in d.names && d.names[name] in d.labels
  }

  /** The name is held by a container of another launch, or of none. */
  predicate HeldByOther(d: Docker, name: string, launch: string) {
    Held(d, name) && d.labels[d.names[name]] != launch
  }

  /** How far a rollback command got. */
  datatype Fate = NotRun | RmRefused | ReplyLost | Ran

  /** The remote side, by step number: what others, and launches that take effect, have made
      of a rank's host when it is next looked at; the fate of queries and commands. */
  datatype World = World(
    disturb: (nat, Rank, Docker) -> Docker,
    queryLost: (nat, Rank) -> bool,
    launch: (nat, Rank) -> Answer,
    fate: (nat, Rank) -> Fate,
    api: nat -> Answer)

  /** A container keeps its label for as long as it exists. */
  ghost predicate LabelsKept(world: World) {
    forall n, r, d: Docker, id | id in d.labels && id in world.disturb(n, r, d).labels :: world.disturb(n, r, d).labels[id] == d.labels[id]
  }

  lemma NameOfHead()
    ensures Name("sparkring-", 0) == "sparkring-0"
  {
  }

  // ---- the rollback script ----

  /** Inspect by name, compare the label, remove by immutable identifier. Between the two
      accesses anything may have happened to the host. The identifier removed, if any, and
      what the script's exit says. */
  function RollbackScript(inspected: Docker, removing: Docker, name: string, launch: string, fate: Fate): (r: (Option<string>, Rolled)) {
    if fate == NotRun || !Held(inspected, name) then (None, Unsettled)
    else
      var id := inspected.names[name];
      if inspected.labels[id] != launch then (None, if fate == ReplyLost then Unsettled else Foreign)
      else if !Hex64(id) || id !in removing.labels || fate == RmRefused then (None, Unsettled)
      else (Some(id), if fate == ReplyLost then Unsettled else Removed)
  }

  /** The script removes exactly the container that the name held at the inspection, if it has
      this launch's label, a full hexadecimal identifier and still exists; a reply that
      arrives says so, or that the container is another launch's. */
  lemma ScriptExactly(inspected: Docker, removing: Docker, name: string, launch: string, fate: Fate)
    ensures var (removed, result) := RollbackScript(inspected, removing, name, launch, fate);
            && (removed.Some? <==>
                 && (fate == Ran || fate == ReplyLost)
                 && name in inspected.names && inspected.names[name] in inspected.labels
                 && inspected.labels[inspected.names[name]] == launch
                 && |inspected.names[name]| == 64
                 && (forall c | c in inspected.names[name] :: '0' <= c <= '9' || 'a' <= c <= 'f')
                 && inspected.names[name] in removing.labels)
            && (removed.Some? ==> removed.value == inspected.names[name])
            && (result == Removed <==> removed.Some? && fate == Ran)
            && (result == Foreign <==>
                 && (fate == Ran || fate == RmRefused)
                 && name in inspected.names && inspected.names[name] in inspected.labels
                 && inspected.labels[inspected.names[name]] != launch)
  {
  }

  /** What others did to a rank's host, or a removal by this invocation. */
  datatype Step = Others(rank: Rank, docker: Docker) | Remove(rank: Rank, id: string)

  function At(hosts: map<Rank, Docker>, r: Rank): Docker {
    if r in hosts then hosts[r] else Docker(map[], map[], {})
  }

  function After(hosts: map<Rank, Docker>, step: Step): map<Rank, Docker> {
    hosts[step.rank := if step.Others? then step.docker else RemoveFrom(At(hosts, step.rank), step.id)]
  }

  /** The hosts after these steps. */
  function Replay(hosts: map<Rank, Docker>, steps: seq<Step>): map<Rank, Docker> {
    if steps == [] then hosts else After(Replay(hosts, steps[..|steps| - 1]), steps[|steps| - 1])
  }

  /** The containers of other launches, as a rank's host shows them: label, whether it runs, and names. */
  ghost predicate SameOthers(d: Docker, e: Docker, launch: string) {
    && (forall id | id in d.labels && d.labels[id] != launch ::
          && id in e.labels && e.labels[id] == d.labels[id]
          && (id in e.running <==> id in d.running)
          && forall n | n in d.names && d.names[n] == id :: n in e.names && e.names[n] == id)
  }

  /** Each removal by this invocation hit, at that very moment, a container of this launch. */
  ghost predicate OwnRemovals(hosts: map<Rank, Docker>, steps: seq<Step>, launch: string) {
    forall i | 0 <= i < |steps| && steps[i].Remove? ::
      var d := At(Replay(hosts, steps[..i]), steps[i].rank);
      steps[i].id in d.labels && d.labels[steps[i].id] == launch
  }

  /** Every other change is one of the world's, made to what was there. */
  ghost predicate Told(world: World, hosts: map<Rank, Docker>, steps: seq<Step>) {
    forall i | 0 <= i < |steps| && steps[i].Others? ::
      exists n :: steps[i].docker == world.disturb(n, steps[i].rank, At(Replay(hosts, steps[..i]), steps[i].rank))
  }

  lemma Prefixes(steps: seq<Step>, step: Step)
    ensures (steps + [step])[..|steps|] == steps
    ensures forall i | 0 <= i < |steps| :: (steps + [step])[..i] == steps[..i]
  {
  }

  /** Appending a step keeps the record. */
  lemma StepKeepsOwn(hosts: map<Rank, Docker>, steps: seq<Step>, step: Step, launch: string)
    requires OwnRemovals(hosts, steps, launch)
    requires step.Remove? ==>
               var d := At(Replay(hosts, steps), step.rank);
               step.id in d.labels && d.labels[step.id] == launch
    ensures OwnRemovals(hosts, steps + [step], launch)
    ensures Replay(hosts, steps + [step]) == After(Replay(hosts, steps), step)
  {
    hide After, At;
    Prefixes(steps, step);
  }

  lemma StepKeepsTold(world: World, hosts: map<Rank, Docker>, steps: seq<Step>, step: Step, n: nat)
    requires Told(world, hosts, steps)
    requires step.Others? ==> step.docker == world.disturb(n, step.rank, At(Replay(hosts, steps), step.rank))
    ensures Told(world, hosts, steps + [step])
  {
    hide At, Replay;
    Prefixes(steps, step);
    var longer := steps + [step];
    forall i | 0 <= i < |longer| && longer[i].Others?
      ensures exists m :: longer[i].docker == world.disturb(m, longer[i].rank, At(Replay(hosts, longer[..i]), longer[i].rank))
    {
      if i < |steps| {
        assert longer[i] == steps[i] && longer[..i] == steps[..i];
        var m :| steps[i].docker == world.disturb(m, steps[i].rank, At(Replay(hosts, steps[..i]), steps[i].rank));
      }
    }
  }

  /** Whatever happens to a container of another launch, others did it: this invocation's
      steps leave its existence, label, names and whether it runs as they are. */
  lemma OthersSurvive(hosts: map<Rank, Docker>, steps: seq<Step>, launch: string, i: nat, r: Rank)
    requires OwnRemovals(hosts, steps, launch) && i < |steps|
    requires !SameOthers(At(Replay(hosts, steps[..i]), r), At(Replay(hosts, steps[..i + 1]), r), launch)
    ensures steps[i].Others? && steps[i].rank == r
  {
    assert steps[..i + 1][..i] == steps[..i];
  }

  // ---- ordering ----

  function Insert(r: Rank, rs: seq<Rank>): (s: seq<Rank>)
    ensures multiset(s) == multiset{r} + multiset(rs)
  {
    if rs == [] || Before(r, rs[0]) then [r] + rs
    else
      assert rs == [rs[0]] + rs[1..];
      [rs[0]] + Insert(r, rs[1..])
  }

  /** Workers by number, the head after all of them. */
  predicate Before(a: Rank, b: Rank) {
    a != 0 && (b == 0 || a <= b)
  }

  function Ordered(rs: seq<Rank>): (s: seq<Rank>)
    ensures multiset(s) == multiset(rs)
  {
    if rs == [] then []
    else
      assert rs == [rs[0]] + rs[1..];
      Insert(rs[0], Ordered(rs[1..]))
  }

  /** No worker comes after the head, and workers ascend. */
  predicate HeadLast(s: seq<Rank>) {
    && (forall i, j | 0 <= i < j < |s| && s[i] == 0 :: s[j] == 0)
    && (forall i, j | 0 <= i < j < |s| && s[j] != 0 :: s[i] <= s[j])
  }

  /** No worker in the list is to go before `r`. */
  predicate AllAfter(r: Rank, s: seq<Rank>) {
    forall k | 0 <= k < |s| :: r == s[k] || Before(r, s[k])
  }

  lemma ConsHeadLast(r: Rank, s: seq<Rank>)
    requires AllAfter(r, s) && HeadLast(s)
    ensures HeadLast([r] + s)
  {
    forall j | 0 < j < |s| + 1 ensures r == ([r] + s)[j] || Before(r, ([r] + s)[j]) {
      assert ([r] + s)[j] == s[j - 1];
    }
  }

  lemma HeadLastTail(s: seq<Rank>)
    requires HeadLast(s) && s != []
    ensures HeadLast(s[1..]) && AllAfter(s[0], s[1..])
  {
    assert forall k | 0 <= k < |s[1..]| :: s[1..][k] == s[k + 1];
  }

  lemma {:induction false} InsertHeadLast(r: Rank, rs: seq<Rank>)
    requires HeadLast(rs)
    ensures HeadLast(Insert(r, rs))
  {
    hide HeadLast;
    if rs != [] {
      HeadLastTail(rs);
    }
    if rs == [] || Before(r, rs[0]) {
      assert AllAfter(r, rs) by {
        forall k | 0 <= k < |rs| ensures r == rs[k] || Before(r, rs[k]) {
          assert k > 0 ==> rs[k] == rs[1..][k - 1];
        }
      }
      ConsHeadLast(r, rs);
    } else {
      InsertHeadLast(r, rs[1..]);
      var s := Insert(r, rs[1..]);
      forall k | 0 <= k < |s| ensures rs[0] == s[k] || Before(rs[0], s[k]) {
        assert s[k] in multiset(s);
        assert s[k] == r || s[k] in rs[1..];
      }
      ConsHeadLast(rs[0], s);
    }
  }

  lemma {:induction false} OrderedHeadLast(rs: seq<Rank>)
    ensures HeadLast(Ordered(rs))
  {
    if rs != [] {
      OrderedHeadLast(rs[1..]);
      InsertHeadLast(rs[0], Ordered(rs[1..]));
    }
  }

  /** No rank occurs twice. */
  ghost predicate Distinct(s: seq<Rank>) {
    forall r :: multiset(s)[r] <= 1
  }

  lemma PrefixCounts(s: seq<Rank>, i: nat)
    requires i < |s|
    ensures multiset(s[..i + 1]) == multiset(s[..i]) + multiset{s[i]}
    ensures multiset(s[..i + 1]) <= multiset(s)
  {
    assert s[..i + 1] == s[..i] + [s[i]];
    assert s == s[..i + 1] + s[i + 1..];
  }

  lemma SameMembers(s: seq<Rank>, ranks: seq<Rank>)
    requires multiset(s) == multiset(ranks)
    ensures forall r :: r in s <==> r in ranks
  {
    forall r ensures r in s <==> r in ranks {
      assert r in s <==> r in multiset(s);
      assert r in ranks <==> r in multiset(ranks);
    }
  }

  lemma WorkersPrecede(s: seq<Rank>, ranks: seq<Rank>, i: nat)
    requires i < |s| && s[i] == 0 && HeadLast(s) && multiset(s) == multiset(ranks)
    ensures forall w | w in ranks && w != 0 :: w in s[..i]
  {
    SameMembers(s, ranks);
    forall w | w in ranks && w != 0 ensures w in s[..i] {
      var k :| 0 <= k < |s| && s[k] == w;
      assert s[..i][k] == w;
    }
  }

  lemma SingleDistinct(r: Rank)
    ensures Distinct([r])
  {
  }

  lemma DistinctParts(s: seq<Rank>, ranks: seq<Rank>, k: nat)
    requires k < |s| && Distinct(ranks) && multiset(s) <= multiset(ranks)
    ensures s[k] !in s[..k] && s[k] !in s[k + 1..]
  {
    assert s == s[..k] + [s[k]] + s[k + 1..];
    assert multiset(s)[s[k]] == multiset(s[..k])[s[k]] + 1 + multiset(s[k + 1..])[s[k]];
    assert multiset(ranks)[s[k]] <= 1;
  }

  // ---- what a log promises ----

  predicate Saw(log: seq<Event>, r: Rank) {
    Seen(r) in log
  }

  /** The head is launched only after every worker was observed running. */
  ghost predicate WorkersFirst(log: seq<Event>, ranks: seq<Rank>) {
    forall i, r | 0 <= i < |log| && log[i] == Launched(0) && r in ranks && r != 0 :: Saw(log[..i], r)
  }

  /** Nothing is rolled back or reported that was not launched before. */
  ghost predicate OnlyOwn(log: seq<Event>) {
    forall i | 0 <= i < |log| && (log[i].RolledBack? || log[i].Reported?) :: Launched(log[i].rank) in log[..i]
  }

  /** Every launch was dealt with: its container was removed, the name holds a container
      launched by someone else, or the operator was told. */
  ghost predicate Settled(log: seq<Event>) {
    forall r | Launched(r) in log :: RolledBack(r, Removed) in log || RolledBack(r, Foreign) in log || Reported(r) in log
  }

  /** Every launch was removed, or the operator was told. */
  ghost predicate AllCovered(log: seq<Event>) {
    forall r | Launched(r) in log :: RolledBack(r, Removed) in log || Reported(r) in log
  }

  /** One answer per rank, and a report exactly for an unsettled one. */
  ghost predicate OneAnswer(log: seq<Event>) {
    && (forall r, a, b | RolledBack(r, a) in log && RolledBack(r, b) in log :: a == b)
    && (forall r | Reported(r) in log :: RolledBack(r, Unsettled) in log)
  }

  /** A launch goes without removal and without a report exactly when the script found its
      name held by a container of another launch. */
  lemma CoveredExactly(log: seq<Event>)
    requires Settled(log) && OnlyOwn(log) && OneAnswer(log)
    ensures AllCovered(log) <==> forall r :: RolledBack(r, Foreign) !in log
  {
    forall r | RolledBack(r, Foreign) in log ensures !AllCovered(log) {
      var i :| 0 <= i < |log| && log[i] == RolledBack(r, Foreign);
      assert Launched(r) in log[..i];
      assert Launched(r) in log;
    }
  }

  lemma WorkersFirstLater(log: seq<Event>, ranks: seq<Rank>, e: Event)
    requires WorkersFirst(log, ranks)
    requires e == Launched(0) ==> forall r | r in ranks && r != 0 :: Saw(log, r)
    ensures WorkersFirst(log + [e], ranks)
  {
    hide Saw;
    forall i | 0 <= i < |log + [e]| ensures (log + [e])[..i] == if i < |log| then log[..i] else log {
    }
  }

  lemma OnlyOwnLater(log: seq<Event>, e: Event)
    requires OnlyOwn(log) && (e.RolledBack? || e.Reported? ==> Launched(e.rank) in log)
    ensures OnlyOwn(log + [e])
  {
    forall i | 0 <= i < |log + [e]| ensures (log + [e])[..i] == if i < |log| then log[..i] else log {
    }
  }

  lemma OneAnswerLater(log: seq<Event>, e: Event)
    requires OneAnswer(log)
    requires e.RolledBack? ==> forall x :: RolledBack(e.rank, x) !in log
    requires e.Reported? ==> RolledBack(e.rank, Unsettled) in log
    ensures OneAnswer(log + [e])
  {
    assert forall x :: x in log + [e] <==> x in log || x == e;
  }

  /** The event is what a rank's host showed at some moment of the record. */
  ghost predicate Shown(world: World, prefix: string, launch: string, steps: seq<Step>, e: Event) {
    && (e.Seen? ==> exists i :: SeenAt(steps, i, e.rank) && Up(steps[i].docker, Name(prefix, e.rank)))
    && (e.RolledBack? ==> exists i, j, n ::
          && SeenAt(steps, i, e.rank) && SeenAt(steps, j, e.rank)
          && RollbackScript(steps[i].docker, steps[j].docker, Name(prefix, e.rank), launch, world.fate(n, e.rank)).1 == e.result)
    && (e.RolledBack? && e.result.Removed? ==> RemovedIn(steps, e.rank))
  }

  /** An answer of removal stands for a removal. */
  ghost predicate RemovedIn(steps: seq<Step>, r: Rank) {
    exists i :: 0 <= i < |steps| && steps[i].Remove? && steps[i].rank == r
  }

  predicate SeenAt(steps: seq<Step>, i: int, r: Rank) {
    0 <= i < |steps| && steps[i].Others? && steps[i].rank == r
  }

  ghost predicate AllShown(world: World, prefix: string, launch: string, steps: seq<Step>, log: seq<Event>) {
    forall e | e in log :: Shown(world, prefix, launch, steps, e)
  }

  lemma AlwaysShown(world: World, prefix: string, launch: string, steps: seq<Step>, e: Event)
    requires e.Launched? || e.Reported?
    ensures Shown(world, prefix, launch, steps, e)
  {
  }

  lemma SeenShown(world: World, prefix: string, launch: string, steps: seq<Step>, r: Rank)
    requires steps != [] && steps[|steps| - 1].Others? && steps[|steps| - 1].rank == r
    requires Up(steps[|steps| - 1].docker, Name(prefix, r))
    ensures Shown(world, prefix, launch, steps, Seen(r))
  {
    hide Up, Name;
    assert SeenAt(steps, |steps| - 1, r);
  }

  lemma ShownLater(world: World, prefix: string, launch: string, steps: seq<Step>, step: Step, log: seq<Event>)
    requires AllShown(world, prefix, launch, steps, log)
    ensures AllShown(world, prefix, launch, steps + [step], log)
  {
    hide RollbackScript, Up, Name;
    var longer := steps + [step];
    forall e | e in log ensures Shown(world, prefix, launch, longer, e) {
      assert Shown(world, prefix, launch, steps, e);
      if e.Seen? {
        var i :| SeenAt(steps, i, e.rank) && Up(steps[i].docker, Name(prefix, e.rank));
        assert SeenAt(longer, i, e.rank);
      } else if e.RolledBack? {
        var i, j, n :| && SeenAt(steps, i, e.rank) && SeenAt(steps, j, e.rank)
                       && RollbackScript(steps[i].docker, steps[j].docker, Name(prefix, e.rank), launch, world.fate(n, e.rank)).1 == e.result;
        assert SeenAt(longer, i, e.rank) && SeenAt(longer, j, e.rank);
        if e.result.Removed? {
          var k :| 0 <= k < |steps| && steps[k].Remove? && steps[k].rank == e.rank;
          assert longer[k] == steps[k];
        }
      }
    }
  }

  /** The name is taken by a stopped container of another launch. */
  predicate Taken(d: Docker, name: string, launch: string) {
    HeldByOther(d, name, launch) && !Up(d, name)
  }

  /** Others leave the name taken, and every connection to the rank works. */
  ghost predicate StaysTaken(world: World, name: string, launch: string, r: Rank) {
    && (forall n, d | Taken(d, name, launch) :: Taken(world.disturb(n, r, d), name, launch))
    && (forall n :: !world.queryLost(n, r) && world.fate(n, r) == Ran)
  }

  lemma RemovalLeavesTaken(d: Docker, id: string, name: string, launch: string)
    requires Taken(d, name, launch) && id in d.labels && d.labels[id] == launch
    ensures Taken(RemoveFrom(d, id), name, launch)
  {
  }

  /** This invocation never frees a name that another launch's stopped container holds. */
  lemma {:induction false} TakenThroughout(world: World, hosts: map<Rank, Docker>, steps: seq<Step>, name: string, launch: string, r: Rank, k: nat)
    requires OwnRemovals(hosts, steps, launch) && Told(world, hosts, steps) && k <= |steps|
    requires Taken(At(hosts, r), name, launch) && StaysTaken(world, name, launch, r)
    ensures Taken(At(Replay(hosts, steps[..k]), r), name, launch)
  {
    hide Taken, RemoveFrom;
    if k > 0 {
      TakenThroughout(world, hosts, steps, name, launch, r, k - 1);
      assert steps[..k][..k - 1] == steps[..k - 1];
      var d := At(Replay(hosts, steps[..k - 1]), r);
      if steps[k - 1].Remove? && steps[k - 1].rank == r {
        RemovalLeavesTaken(d, steps[k - 1].id, name, launch);
      }
    }
  }

  /** On such a rank a launch fails: its container is never seen running, nothing is
      removed, and the operator is not told. */
  lemma TakenIsUnreported(world: World, hosts: map<Rank, Docker>, steps: seq<Step>, prefix: string, launch: string, log: seq<Event>, r: Rank)
    requires OwnRemovals(hosts, steps, launch) && Told(world, hosts, steps)
    requires Taken(At(hosts, r), Name(prefix, r), launch) && StaysTaken(world, Name(prefix, r), launch, r)
    requires AllShown(world, prefix, launch, steps, log)
    ensures Seen(r) !in log
    ensures Settled(log) && OneAnswer(log) && Launched(r) in log ==>
              RolledBack(r, Foreign) in log && RolledBack(r, Removed) !in log && Reported(r) !in log
  {
    hide OwnRemovals, Told, Replay, Name;
    forall i | SeenAt(steps, i, r) ensures Taken(steps[i].docker, Name(prefix, r), launch) {
      TakenThroughout(world, hosts, steps, Name(prefix, r), launch, r, i + 1);
      ReplayLast(hosts, steps, i);
    }
    assert !Shown(world, prefix, launch, steps, Seen(r));
    forall result | RolledBack(r, result) in log ensures result == Foreign {
      assert Shown(world, prefix, launch, steps, RolledBack(r, result));
    }
  }

  lemma ReplayLast(hosts: map<Rank, Docker>, steps: seq<Step>, i: nat)
    requires i < |steps| && steps[i].Others?
    ensures At(Replay(hosts, steps[..i + 1]), steps[i].rank) == steps[i].docker
  {
    assert steps[..i + 1][..i] == steps[..i];
  }

  /** No rollback has begun. */
  ghost predicate Forward(log: seq<Event>) {
    forall e | e in log :: e.Seen? || e.Launched?
  }

  // ---- what a rank's host will show ----

  /** The host of rank `r` after `k` more looks, the first of them at step `n`. */
  ghost function Looked(world: World, n: nat, r: Rank, d: Docker, k: nat): Docker {
    if k == 0 then d else world.disturb(n + k - 1, r, Looked(world, n, r, d, k - 1))
  }

  /** Look number `k`, counted from 0, shows a running container of this name, and neither it
      nor a look before it was lost. */
  ghost predicate ShownAt(world: World, name: string, n: nat, r: Rank, d: Docker, k: nat) {
    Up(Looked(world, n, r, d, k + 1), name) && forall j: nat | j <= k :: !LostAt(world, n, r, j)
  }

  predicate LostAt(world: World, n: nat, r: Rank, j: nat) {
    world.queryLost(n + j, r)
  }

  /** Look number `j` was answered and shows no running container of this name. */
  ghost predicate Misses(world: World, name: string, n: nat, r: Rank, d: Docker, j: nat) {
    !LostAt(world, n, r, j) && !Up(Looked(world, n, r, d, j + 1), name)
  }

  /** One of the first `tries` looks from step `n` on shows the container running. */
  ghost predicate ShowsUp(world: World, name: string, n: nat, r: Rank, d: Docker, tries: nat) {
    exists k: nat :: k < tries && ShownAt(world, name, n, r, d, k)
  }

  /** Asked at step `n`, the rank runs already; or its launch is acknowledged and its container
      shows up within `tries` looks. */
  ghost predicate Starts(world: World, name: string, n: nat, r: Rank, d: Docker, tries: nat) {
    && !world.queryLost(n, r)
    && var seen := world.disturb(n, r, d);
       Up(seen, name) || (world.launch(n + 1, r) == Yes && ShowsUp(world, name, n + 2, r, seen, tries))
  }

  /** Asked at step `n`, with its host as it was at some moment of the record, the rank does
      not start. */
  ghost predicate FailsAt(world: World, prefix: string, hosts: map<Rank, Docker>, steps: seq<Step>, tries: nat, r: Rank, n: nat) {
    exists i: nat :: i <= |steps| && !Starts(world, Name(prefix, r), n, r, At(Replay(hosts, steps[..i]), r), tries)
  }

  lemma FailsLater(world: World, prefix: string, hosts: map<Rank, Docker>, was: seq<Step>, steps: seq<Step>, tries: nat, r: Rank, n: nat)
    requires was <= steps && FailsAt(world, prefix, hosts, was, tries, r, n)
    ensures FailsAt(world, prefix, hosts, steps, tries, r, n)
  {
    hide Starts, Replay, Name;
    var i: nat :| i <= |was| && !Starts(world, Name(prefix, r), n, r, At(Replay(hosts, was[..i]), r), tries);
    assert steps[..i] == was[..i];
  }

  lemma FailsNow(world: World, prefix: string, hosts: map<Rank, Docker>, was: seq<Step>, steps: seq<Step>, tries: nat, r: Rank, n: nat)
    requires was <= steps && !Starts(world, Name(prefix, r), n, r, At(Replay(hosts, was), r), tries)
    ensures FailsAt(world, prefix, hosts, steps, tries, r, n)
  {
    hide Starts, Replay, Name;
    assert steps[..|was|] == was;
  }

  lemma ShownInTime(world: World, name: string, n: nat, r: Rank, d: Docker, k: nat, tries: nat)
    requires forall j: nat | j < k :: Misses(world, name, n, r, d, j)
    requires !LostAt(world, n, r, k) && Up(Looked(world, n, r, d, k + 1), name) && k < tries
    ensures ShowsUp(world, name, n, r, d, tries)
  {
    hide Up, Looked, LostAt;
    forall j: nat | j <= k ensures !LostAt(world, n, r, j) {
      assert j < k ==> Misses(world, name, n, r, d, j);
    }
    assert ShownAt(world, name, n, r, d, k);
  }

  lemma NoLookYet(world: World, n: nat, r: Rank, d: Docker)
    ensures Looked(world, n, r, d, 0) == d
  {
  }

  lemma OneMoreLook(world: World, name: string, n: nat, r: Rank, d: Docker, k: nat)
    ensures Looked(world, n, r, d, k + 1) == world.disturb(n + k, r, Looked(world, n, r, d, k))
    ensures !LostAt(world, n, r, k) && !Up(Looked(world, n, r, d, k + 1), name) ==> Misses(world, name, n, r, d, k)
  {
  }

  /** Looks without a sighting, then the end of the tries or a lost one. */
  lemma NeverShown(world: World, name: string, n: nat, r: Rank, d: Docker, tries: nat, looks: nat)
    requires forall j: nat | j < looks :: Misses(world, name, n, r, d, j)
    requires looks >= tries || LostAt(world, n, r, looks)
    ensures !ShowsUp(world, name, n, r, d, tries)
  {
    hide Up, Looked, LostAt;
    forall k: nat | k < tries ensures !ShownAt(world, name, n, r, d, k) {
      assert k < looks ==> Misses(world, name, n, r, d, k);
    }
  }

  // ---- the procedure ----

  datatype Outcome =
    | Done
    | Failed  // exit code 1
    | NoHead  // an uncaught exception: the API is to be waited for, and there is no rank 0

  lemma KeepsLabel(world: World, inspected: Docker, removing: Docker, n: nat, r: Rank, id: string)
    requires LabelsKept(world) && removing == world.disturb(n, r, inspected) && id in inspected.labels && id in removing.labels
    ensures removing.labels[id] == inspected.labels[id]
  {
  }

  lemma ScriptShown(world: World, prefix: string, launch: string, looked: seq<Step>, steps: seq<Step>, r: Rank, n: nat)
    requires |looked| >= 2 && SeenAt(looked, |looked| - 2, r) && SeenAt(looked, |looked| - 1, r)
    requires var (removed, _) := RollbackScript(looked[|looked| - 2].docker, looked[|looked| - 1].docker, Name(prefix, r), launch, world.fate(n, r));
             steps == looked + if removed.Some? then [Remove(r, removed.value)] else []
    ensures var (_, answer) := RollbackScript(looked[|looked| - 2].docker, looked[|looked| - 1].docker, Name(prefix, r), launch, world.fate(n, r));
            Shown(world, prefix, launch, steps, RolledBack(r, answer))
  {
    assert SeenAt(steps, |looked| - 2, r) && SeenAt(steps, |looked| - 1, r);
    assert |steps| > |looked| ==> steps[|looked|].Remove?;
  }

  class Starter {
    const world: World
    const prefix: string
    const launch: string  // this invocation's label
    ghost const before: map<Rank, Docker>
    var hosts: map<Rank, Docker>
    var clock: nat
    var log: seq<Event>
    ghost var steps: seq<Step>

    constructor (world: World, hosts: map<Rank, Docker>, prefix: string, launch: string)
      requires LabelsKept(world)
      ensures this.world == world && this.prefix == prefix && this.launch == launch && before == hosts && log == []
      ensures Valid()
    {
      this.world, this.prefix, this.launch, this.before := world, prefix, launch, hosts;
      this.hosts, clock, log, steps := hosts, 0, [], [];
    }

    /** The hosts are what the recorded steps made of them, and this invocation's removals
        were of its own containers. */
    ghost predicate Valid()
      reads this
    {
      && LabelsKept(world) && hosts == Replay(before, steps)
      && OwnRemovals(before, steps, launch) && Told(world, before, steps)
      && AllShown(world, prefix, launch, steps, log)
    }

    ghost predicate Sound(ranks: seq<Rank>)
      reads this
    {
      Valid() && WorkersFirst(log, ranks) && OnlyOwn(log) && OneAnswerIf(ranks)
    }

    ghost predicate OneAnswerIf(ranks: seq<Rank>)
      reads this
    {
      Distinct(ranks) ==> OneAnswer(log)
    }

    /** The launches so far, newest last. */
    ghost predicate Started(started: seq<Rank>)
      reads this
    {
      forall r :: Launched(r) in log <==> r in started
    }

    lemma StartsSound(ranks: seq<Rank>)
      requires Valid() && log == []
      ensures Sound(ranks) && Forward(log) && Started([])
    {
      hide Valid;
    }

    method Note(e: Event, ghost ranks: seq<Rank>)
      requires Sound(ranks) && Shown(world, prefix, launch, steps, e)
      requires e == Launched(0) ==> forall r | r in ranks && r != 0 :: Saw(log, r)
      requires e.RolledBack? || e.Reported? ==> Launched(e.rank) in log
      requires e.RolledBack? && Distinct(ranks) ==> forall x :: RolledBack(e.rank, x) !in log
      requires e.Reported? ==> RolledBack(e.rank, Unsettled) in log
      modifies `log
      ensures log == old(log) + [e] && Sound(ranks)
    {
      hide Shown, OwnRemovals, Told, Replay, LabelsKept, Distinct, WorkersFirst, OnlyOwn, OneAnswer, Saw;
      WorkersFirstLater(log, ranks, e);
      OnlyOwnLater(log, e);
      if Distinct(ranks) {
        OneAnswerLater(log, e);
      }
      log := log + [e];
    }

    /** Look at a rank's host: whatever others did to it meanwhile shows now. */
    method Look(r: Rank) returns (d: Docker)
      requires Valid()
      modifies `hosts, `clock, `steps
      ensures Valid() && d == At(hosts, r) == world.disturb(old(clock), r, At(old(hosts), r))
      ensures clock == old(clock) + 1 && steps == old(steps) + [Others(r, d)]
    {
      hide OwnRemovals, Told, Replay, LabelsKept, AllShown;
      d := world.disturb(clock, r, At(hosts, r));
      StepKeepsOwn(before, steps, Others(r, d), launch);
      StepKeepsTold(world, before, steps, Others(r, d), clock);
      ShownLater(world, prefix, launch, steps, Others(r, d), log);
      hosts := hosts[r := d];
      clock := clock + 1;
      steps := steps + [Others(r, d)];
    }

    method RemoveOwn(r: Rank, id: string)
      requires Valid() && id in At(hosts, r).labels && At(hosts, r).labels[id] == launch
      modifies `hosts, `steps
      ensures Valid() && At(hosts, r) == RemoveFrom(At(old(hosts), r), id) && steps == old(steps) + [Remove(r, id)]
    {
      hide OwnRemovals, Told, Replay, LabelsKept, AllShown;
      StepKeepsOwn(before, steps, Remove(r, id), launch);
      StepKeepsTold(world, before, steps, Remove(r, id), clock);
      ShownLater(world, prefix, launch, steps, Remove(r, id), log);
      hosts := hosts[r := RemoveFrom(At(hosts, r), id)];
      steps := steps + [Remove(r, id)];
    }

    /** `docker ps` on a rank's host: is a container of this name running? */
    method Running(r: Rank, ghost ranks: seq<Rank>) returns (running: Answer)
      requires Sound(ranks)
      modifies `hosts, `clock, `steps
      ensures Sound(ranks)
      ensures running == Lost <==> world.queryLost(old(clock), r)
      ensures running == Yes ==> Shown(world, prefix, launch, steps, Seen(r))
      ensures running != Lost ==> running == if Up(At(hosts, r), Name(prefix, r)) then Yes else No
      ensures clock == old(clock) + 1 && old(steps) <= steps
      ensures running != Lost ==> At(hosts, r) == world.disturb(old(clock), r, At(old(hosts), r))
    {
      hide OwnRemovals, Told, Replay, AllShown, WorkersFirst, OnlyOwn, OneAnswer, LabelsKept, Shown, Distinct, Up, Name;
      if world.queryLost(clock, r) {
        clock := clock + 1;
        return Lost;
      }
      var d := Look(r);
      if Up(d, Name(prefix, r)) {
        SeenShown(world, prefix, launch, steps, r);
      }
      running := if Up(d, Name(prefix, r)) then Yes else No;
    }

    /** The rollback script on a rank's host: a look by name, then a removal by identifier. */
    method RunScript(r: Rank, ghost ranks: seq<Rank>) returns (result: Rolled)
      requires Sound(ranks)
      modifies `hosts, `clock, `steps
      ensures Sound(ranks) && Shown(world, prefix, launch, steps, RolledBack(r, result)) && old(steps) <= steps
      ensures |steps| >= |old(steps)| + 2 && SeenAt(steps, |old(steps)|, r) && SeenAt(steps, |old(steps)| + 1, r)
      ensures var (removed, answer) := RollbackScript(steps[|old(steps)|].docker, steps[|old(steps)| + 1].docker,
                                                      Name(prefix, r), launch, world.fate(old(clock), r));
              && result == answer
              && steps == old(steps) + steps[|old(steps)|..|old(steps)| + 2] + if removed.Some? then [Remove(r, removed.value)] else []
    {
      hide OwnRemovals, Told, Replay, AllShown, WorkersFirst, OnlyOwn, OneAnswer, LabelsKept, Shown;
      var fate, n := world.fate(clock, r), clock;
      var inspected := Look(r);
      var removing := Look(r);
      ghost var looked := steps;
      var (removed, answer) := RollbackScript(inspected, removing, Name(prefix, r), launch, fate);
      result := answer;
      if removed.Some? {
        KeepsLabel(world, inspected, removing, n + 1, r, removed.value);
        RemoveOwn(r, removed.value);
      }
      ScriptShown(world, prefix, launch, looked, steps, r, n);
    }

    /** Undo this invocation's launches, newest first. */
    method RollBack(started: seq<Rank>, ghost ranks: seq<Rank>)
      requires Sound(ranks) && Started(started) && Forward(log)
      requires multiset(started) <= multiset(ranks)
      modifies `log, `clock, `hosts, `steps
      ensures Sound(ranks) && Settled(log) && old(log) <= log && old(steps) <= steps
      ensures forall e | e in log && e !in old(log) :: e.RolledBack? || e.Reported?
    {
      hide Sound, Valid, Shown, Distinct, RollbackScript, SeenAt, Name;
      for k := |started| downto 0
        invariant Sound(ranks) && Started(started) && old(log) <= log && old(steps) <= steps
        invariant forall e | e in log && e !in old(log) :: e.RolledBack? || e.Reported?
        invariant Distinct(ranks) ==> forall j, x | 0 <= j < k :: RolledBack(started[j], x) !in log
        invariant forall j | k <= j < |started| ::
                    RolledBack(started[j], Removed) in log || RolledBack(started[j], Foreign) in log || Reported(started[j]) in log
      {
        var r := started[k];
        if Distinct(ranks) {
          DistinctParts(started, ranks, k);
        }
        var result := RunScript(r, ranks);
        Note(RolledBack(r, result), ranks);
        if result == Unsettled {
          AlwaysShown(world, prefix, launch, steps, Reported(r));
          Note(Reported(r), ranks);
        }
      }
    }

    /** Wait for a launched container, at most `tries` looks. */
    method WaitFor(r: Rank, tries: nat, ghost ranks: seq<Rank>, ghost started: seq<Rank>) returns (up: bool)
      requires Sound(ranks) && Started(started) && Forward(log)
      modifies `log, `clock, `hosts, `steps
      ensures Sound(ranks) && Started(started) && Forward(log) && old(log) <= log && old(steps) <= steps && clock >= old(clock)
      ensures up <==> ShowsUp(world, Name(prefix, r), old(clock), r, At(old(hosts), r), tries)
      ensures up <==> Saw(log[|old(log)|..], r)
    {
      hide Valid, Shown, Up, ShowsUp, Name, Misses, Looked, ShownAt;
      up := false;
      NoLookYet(world, old(clock), r, At(old(hosts), r));
      for k := 0 to tries
        invariant Sound(ranks) && Started(started) && log == old(log) && old(steps) <= steps && clock == old(clock) + k
        invariant At(hosts, r) == Looked(world, old(clock), r, At(old(hosts), r), k)
        invariant forall j: nat | j < k :: Misses(world, Name(prefix, r), old(clock), r, At(old(hosts), r), j)
      {
        OneMoreLook(world, Name(prefix, r), old(clock), r, At(old(hosts), r), k);
        var running := Running(r, ranks);
        if running == Yes {
          ShownInTime(world, Name(prefix, r), old(clock), r, At(old(hosts), r), k, tries);
          Note(Seen(r), ranks);
          return true;
        }
        if running == Lost {
          NeverShown(world, Name(prefix, r), old(clock), r, At(old(hosts), r), tries, k);
          return false;
        }
      }
      NeverShown(world, Name(prefix, r), old(clock), r, At(old(hosts), r), tries, tries);
    }

    /** One rank: skip it if it runs already, else launch it and wait for its container. */
    method StartOne(r: Rank, tries: nat, started: seq<Rank>, ghost ranks: seq<Rank>) returns (ok: bool, now: seq<Rank>)
      requires Sound(ranks) && Started(started) && Forward(log)
      requires r == 0 ==> forall w | w in ranks && w != 0 :: Saw(log, w)
      modifies `log, `clock, `hosts, `steps
      ensures Sound(ranks) && Started(now) && Forward(log) && old(log) <= log && old(steps) <= steps && clock >= old(clock)
      ensures now == started || now == started + [r]
      ensures ok <==> Starts(world, Name(prefix, r), old(clock), r, At(old(hosts), r), tries)
      ensures ok ==> Saw(log, r)
      ensures !ok ==> Attempted(r, old(clock))
    {
      hide OwnRemovals, Told, Replay, AllShown, WorkersFirst, OnlyOwn, OneAnswer, LabelsKept, Shown, Distinct, Up, ShowsUp, Name;
      var running := Running(r, ranks);
      if running == Lost {
        return false, started;
      }
      if running == Yes {
        Note(Seen(r), ranks);
        return true, started;
      }
      var launched := world.launch(clock, r);
      clock := clock + 1;
      AlwaysShown(world, prefix, launch, steps, Launched(r));
      Note(Launched(r), ranks);
      now := started + [r];
      if launched != Yes {
        return false, now;
      }
      ok := WaitFor(r, tries, ranks, now);
    }

    /** The rank was launched, or it could not be asked whether it runs. */
    ghost predicate Attempted(r: Rank, n: nat)
      reads this
    {
      Launched(r) in log || world.queryLost(n, r)
    }

    /** Some rank did not start: asked at a step since `from`, with its host as it was then. */
    ghost predicate SomeFails(ranks: seq<Rank>, tries: nat, from: nat)
      reads this
    {
      exists r, n: nat :: r in ranks && n >= from && Attempted(r, n) && FailsAt(world, prefix, before, steps, tries, r, n)
    }

    /** Start the ranks in the given order, up to the first that fails. */
    method StartAll(ordered: seq<Rank>, tries: nat, ghost ranks: seq<Rank>) returns (ok: bool, started: seq<Rank>)
      requires Valid() && log == [] && HeadLast(ordered) && multiset(ordered) == multiset(ranks)
      modifies `log, `clock, `hosts, `steps
      ensures Sound(ranks) && Started(started) && Forward(log) && multiset(started) <= multiset(ranks) && clock >= old(clock)
      ensures ok ==> forall r | r in ranks :: Saw(log, r)
      ensures !ok ==> SomeFails(ranks, tries, old(clock))
    {
      hide Valid, Sound, Shown, HeadLast, Forward, Started, FailsAt, Starts, Replay, Attempted;
      started := [];
      StartsSound(ranks);
      SameMembers(ordered, ranks);
      for i := 0 to |ordered|
        invariant Sound(ranks) && Started(started) && Forward(log) && clock >= old(clock)
        invariant multiset(started) <= multiset(ordered[..i])
        invariant forall r | r in ordered[..i] :: Saw(log, r)
      {
        if ordered[i] == 0 {
          WorkersPrecede(ordered, ranks, i);
        }
        PrefixCounts(ordered, i);
        assert ordered[..i + 1] == ordered[..i] + [ordered[i]];
        ghost var n, was := clock, steps;
        SoundReplays(ranks);
        ok, started := StartOne(ordered[i], tries, started, ranks);
        if !ok {
          FailsNow(world, prefix, before, was, steps, tries, ordered[i], n);
          assert ordered[i] in ranks && Attempted(ordered[i], n);
          return;
        }
      }
      assert ordered[..|ordered|] == ordered;
      ok := true;
    }

    lemma SoundReplays(ranks: seq<Rank>)
      requires Sound(ranks)
      ensures hosts == Replay(before, steps)
    {
    }

    /** Did the head's API answer before the polls ran out and before any poll failed? */
    ghost predicate Answers(start: nat, polls: nat) {
      exists t: nat :: start <= t < start + polls && world.api(t) == Yes && forall u: nat | start <= u < t :: world.api(u) == No
    }

    method AwaitApi(polls: nat) returns (ready: bool)
      modifies `clock
      ensures ready <==> Answers(old(clock), polls)
      ensures clock >= old(clock)
    {
      for k := 0 to polls
        invariant clock == old(clock) + k
        invariant forall u: nat | old(clock) <= u < clock :: world.api(u) == No
      {
        var answer := world.api(clock);
        clock := clock + 1;
        if answer != No {
          return answer == Yes;
        }
      }
      return false;
    }

    /** Start every rank and, if asked, wait for the head's API; `polls` is how many polls
        fit into the time allowed. */
    method Start(ranks: seq<Rank>, dryRun: bool, tries: nat, waits: bool, polls: nat) returns (outcome: Outcome)
      requires Valid() && log == []
      modifies `log, `clock, `hosts, `steps
      // over the whole run, removals hit containers of this launch only
      ensures hosts == Replay(before, steps) && OwnRemovals(before, steps, launch) && Told(world, before, steps)
      ensures WorkersFirst(log, ranks) && OnlyOwn(log) && AllShown(world, prefix, launch, steps, log)
      ensures outcome != Failed && !dryRun ==> forall r | r in ranks :: Saw(log, r)
      ensures outcome != Failed ==> Forward(log)
      // the exception for a missing head comes after everything was started, and nothing is rolled back
      ensures outcome == NoHead ==> waits && 0 !in ranks && !dryRun
      ensures outcome == Done && waits && !dryRun ==> 0 in ranks
      ensures outcome == Failed ==> Settled(log)
      ensures outcome == Failed && Distinct(ranks) ==>
                OneAnswer(log) && (AllCovered(log) <==> forall r :: RolledBack(r, Foreign) !in log)
      // it fails only for a rank that did not start, or a head whose API did not answer in time
      ensures outcome == Failed ==>
                || (waits && (forall r | r in ranks :: Saw(log, r)) && exists t: nat :: t >= old(clock) && !Answers(t, polls))
                || SomeFails(ranks, tries, old(clock))
      ensures dryRun ==> outcome == Done && log == [] && hosts == old(hosts)
    {
      hide Told, OwnRemovals, AllShown, Replay, LabelsKept, WorkersFirst, OnlyOwn, Settled, AllCovered, OneAnswer, HeadLast, Distinct, FailsAt, Answers;
      StartsSound(ranks);
      if dryRun {
        return Done;
      }
      var ordered := Ordered(ranks);
      OrderedHeadLast(ranks);
      var ok, started := StartAll(ordered, tries, ranks);
      if ok {
        if !waits {
          return Done;
        }
        if 0 !in ranks {
          return NoHead;
        }
        var ready := AwaitApi(polls);
        if ready {
          return Done;
        }
      }
      ghost var r0: nat, n0: nat := 0, 0;
      if !ok {
        r0, n0 :| r0 in ranks && n0 >= old(clock) && Attempted(r0, n0) && FailsAt(world, prefix, before, steps, tries, r0, n0);
      }
      ghost var forward, was := log, steps;
      RollBack(started, ranks);
      assert forall e | e in forward :: e in log;
      if !ok {
        FailsLater(world, prefix, before, was, steps, tries, r0, n0);
        assert Attempted(r0, n0);
      }
      if Distinct(ranks) {
        CoveredExactly(log);
      }
      return Failed;
    }
  }

  /** Nothing is lost, every launch is acknowledged, and the container of a rank that did not
      run when asked shows up within `tries` looks after its launch. */
  ghost predicate Launchable(world: World, prefix: string, ranks: seq<Rank>, tries: nat) {
    && (forall n, r :: !world.queryLost(n, r))
    && (forall n, r :: world.launch(n, r) == Yes)
    && (forall n: nat, r, d | r in ranks && !Up(world.disturb(n, r, d), Name(prefix, r)) ::
          ShowsUp(world, Name(prefix, r), n + 2, r, world.disturb(n, r, d), tries))
  }

  lemma LaunchableStarts(world: World, prefix: string, ranks: seq<Rank>, tries: nat, hosts: map<Rank, Docker>, steps: seq<Step>, r: Rank, n: nat)
    requires Launchable(world, prefix, ranks, tries) && r in ranks
    ensures !FailsAt(world, prefix, hosts, steps, tries, r, n)
  {
    hide ShowsUp, Up, Name, Replay;
    forall i: nat | i <= |steps| ensures Starts(world, Name(prefix, r), n, r, At(Replay(hosts, steps[..i]), r), tries) {
      var seen := world.disturb(n, r, At(Replay(hosts, steps[..i]), r));
    }
  }

  /** A cluster that can be launched is started: every rank is observed running, nothing is
      rolled back, and the head's API answered if it was waited for. */
  method StartLaunchable(s: Starter, ranks: seq<Rank>, tries: nat, waits: bool, polls: nat) returns (outcome: Outcome)
    requires s.Valid() && s.log == [] && Launchable(s.world, s.prefix, ranks, tries)
    requires waits ==> 0 in ranks && forall t: nat | t >= s.clock :: s.Answers(t, polls)
    modifies s
    ensures outcome == Done && Forward(s.log) && forall r | r in ranks :: Saw(s.log, r)
  {
    hide Launchable, FailsAt, OwnRemovals, Told, Replay, AllShown, WorkersFirst, OnlyOwn, OneAnswer, Settled, AllCovered, LabelsKept, Distinct;
    ghost var from := s.clock;
    outcome := s.Start(ranks, false, tries, waits, polls);
    forall r, n: nat | r in ranks && n >= from ensures !FailsAt(s.world, s.prefix, s.before, s.steps, tries, r, n) {
      LaunchableStarts(s.world, s.prefix, ranks, tries, s.before, s.steps, r, n);
    }
  }

  /** A host on which the head's container runs from step 2 on. */
  function WithHead(n: nat, d: Docker): Docker {
    if n < 2 then d else Docker(d.names["sparkring-0" := "c"], map["c" := "this launch"] + d.labels, d.running + {"c"})
  }

  lemma HeadShows(w: World, n: nat, d: Docker)
    requires (forall m, r: Rank, e: Docker :: w.disturb(m, r, e) == WithHead(m, e)) && (forall m, r: Rank :: !w.queryLost(m, r))
    ensures ShowsUp(w, "sparkring-0", n + 2, 0, w.disturb(n, 0, d), 12)
  {
    var seen := w.disturb(n, 0, d);
    assert Looked(w, n + 2, 0, seen, 1) == WithHead(n + 2, seen) by {
      assert Looked(w, n + 2, 0, seen, 0) == seen;
    }
    assert ShownAt(w, "sparkring-0", n + 2, 0, seen, 0);
  }

  /** A fresh head whose container is up at the look after its launch is started. */
  method FreshStart() returns (s: Starter, outcome: Outcome)
    ensures fresh(s) && outcome == Done && Seen(0) in s.log
  {
    hide Name, ShowsUp, OwnRemovals, Told, Replay, AllShown;
    var world := World((n: nat, r, d) => WithHead(n, d), (n, r) => false, (n, r) => Yes, (n, r) => Ran, n => No);
    s := new Starter(world, map[], "sparkring-", "this launch");
    NameOfHead();
    forall n: nat, d | !Up(world.disturb(n, 0, d), "sparkring-0")
      ensures ShowsUp(world, "sparkring-0", n + 2, 0, world.disturb(n, 0, d), 12)
    {
      HeadShows(world, n, d);
    }
    var ranks := [0];
    assert ranks[0] in ranks;
    outcome := StartLaunchable(s, ranks, 12, false, 0);
  }

  /** A whole run in which a launch goes unreported: the head's name is held by somebody's
      stopped container, so the launch cannot work; it is neither removed nor reported. */
  method UnreportedLaunch(tries: nat) returns (s: Starter)
    ensures fresh(s) && Launched(0) in s.log && RolledBack(0, Foreign) in s.log
    ensures RolledBack(0, Removed) !in s.log && Reported(0) !in s.log
  {
    hide OwnRemovals, Told, Replay, AllShown, WorkersFirst, OnlyOwn, OneAnswer, Settled, Name, Distinct;
    var stopped := Docker(map["sparkring-0" := "f00"], map["f00" := "another launch"], {});
    var world := World((n, r, d) => d, (n, r) => false, (n, r) => Yes, (n, r) => Ran, n => No);
    s := new Starter(world, map[0 := stopped], "sparkring-", "this launch");
    NameOfHead();
    var ranks := [0];
    assert ranks[0] in ranks && Distinct(ranks) by { SingleDistinct(0); }
    var outcome := s.Start(ranks, false, tries, false, 0);
    TakenIsUnreported(world, s.before, s.steps, "sparkring-", "this launch", s.log, 0);
  }
}
