/** The staging lock: any number of controllers stage overlapping sets of hosts at once,
    each taking one lock directory per host, and any of them may die at any step while
    its last remote process goes on. */
module StagingLock {

  /** A dedicated workspace on one host. */
  type Place = string

  /** The random token of a staging names its controller. */
  type Token = nat

  /** The lock directory: absent, present without its owner file, or with one. Who made a
      directory without an owner file cannot be read; no step depends on it. */
  datatype Lock = Free | Made(token: Token) | Held(token: Token)

  /** What a controller is doing; the commented ones have a remote process under way. */
  datatype Stage =
    | NextCheck(i: nat)
    | Checking(i: nat)            // read-only ownership check
    | NextAcquire(i: nat)
    | MakingLock(i: nat)          // about to make the lock directory
    | WritingOwner(i: nat)        // about to write the owner file
    | Working
    | Guarding(qs: seq<Place>, j: nat)  // about to verify the lock of place j
    | Running(qs: seq<Place>)     // the guarded command
    | NextRelease(i: nat)
    | Verifying(i: nat)           // about to verify the lock before releasing it
    | Unlinking(i: nat)           // about to remove the owner file
    | Removing(i: nat)            // about to remove the lock directory
    | Done
    | Failed(at: Stage)           // an error was raised; nothing more is started

  /** `alive` is false once the controller has died or stopped waiting. */
  datatype Controller = Controller(places: seq<Place>, stage: Stage, alive: bool)

  datatype State = State(locks: map<Place, Lock>, controllers: map<Token, Controller>)

  function LockAt(s: State, p: Place): Lock {
    if p in s.locks then s.locks[p] else Free
  }

  predicate Distinct(ps: seq<Place>) {
    forall i, j | 0 <= i < j < |ps| :: ps[i] != ps[j]
  }

  predicate Initial(s: State) {
    && (forall p | p in s.locks :: s.locks[p] == Free)
    && (forall c | c in s.controllers ::
          s.controllers[c].stage == NextCheck(0) && s.controllers[c].alive && Distinct(s.controllers[c].places))
  }

  /** Stages whose next step is a remote process's, not the controller's. */
  predicate Remote(g: Stage) {
    g.Checking? || g.MakingLock? || g.WritingOwner? || g.Guarding? || g.Running? || g.Verifying? || g.Unlinking? || g.Removing?
  }

  /** What the controller may start next. */
  predicate Starts(c: Controller, next: Stage) {
    var n := |c.places|;
    match c.stage
    case NextCheck(i) => next == if i < n then Checking(i) else NextAcquire(0)
    case NextAcquire(i) => next == if i < n then MakingLock(i) else Working
    case Working =>
      || next == NextRelease(0)
      || (next.Guarding? && next.j == 0 && next.qs != [] && forall q | q in next.qs :: q in c.places)
    case NextRelease(i) => next == if i < n then Verifying(i) else Done
    case _ => false
  }

  /** The place a remote process is about to touch. */
  function Target(c: Controller): Place
    requires Remote(c.stage) && !c.stage.Running? && InRange(c.places, c.stage)
  {
    match c.stage
    case Checking(i) => c.places[i]
    case MakingLock(i) => c.places[i]
    case WritingOwner(i) => c.places[i]
    case Verifying(i) => c.places[i]
    case Unlinking(i) => c.places[i]
    case Removing(i) => c.places[i]
    case Guarding(qs, j) => qs[j]
  }

  /** What a remote process does to the lock it touches and where that leads; refusing is
      always possible too. */
  predicate Acts(t: Token, c: Controller, was: Lock, now: Lock, next: Stage)
    requires Remote(c.stage) && !c.stage.Running?
  {
    match c.stage
    case Checking(i) => was == now == Free && next == NextCheck(i + 1)
    case MakingLock(i) => was == Free && now == Made(t) && next == WritingOwner(i)
    case WritingOwner(i) => was.Made? && now == Held(t) && next == NextAcquire(i + 1)
    case Guarding(qs, j) => was == now == Held(t) && next == if j + 1 < |qs| then Guarding(qs, j + 1) else Running(qs)
    case Verifying(i) => was == now == Held(t) && next == Unlinking(i)
    case Unlinking(i) => was.Held? && now == Made(t) && next == Removing(i)
    case Removing(i) => was.Made? && now == Free && next == NextRelease(i + 1)
  }

  predicate InRange(ps: seq<Place>, g: Stage) {
    match g
    case Checking(i) => i < |ps|
    case MakingLock(i) => i < |ps|
    case WritingOwner(i) => i < |ps|
    case Verifying(i) => i < |ps|
    case Unlinking(i) => i < |ps|
    case Removing(i) => i < |ps|
    case NextAcquire(i) => i <= |ps|
    case NextRelease(i) => i <= |ps|
    case Guarding(qs, j) => j < |qs| && forall q | q in qs :: q in ps
    case Running(qs) => forall q | q in qs :: q in ps
    case _ => true
  }

  predicate Become(s: State, t: Token, c: Controller, s': State)
    requires t in s.controllers
  {
    s'.controllers == s.controllers[t := c]
  }

  /** The controller starts something. */
  ghost predicate Launches(s: State, t: Token, c: Controller, next: Stage, s': State)
    requires t in s.controllers
  {
    c.alive && Starts(c, next) && Become(s, t, c.(stage := next), s') && s'.locks == s.locks
  }

  /** The controller's remote process acts on the lock of its place. It needs no living
      controller, except that what follows a guard is started by the controller. */
  ghost predicate Touches(s: State, t: Token, c: Controller, now: Lock, next: Stage, s': State)
    requires t in s.controllers && Remote(c.stage) && !c.stage.Running? && InRange(c.places, c.stage)
  {
    && Acts(t, c, LockAt(s, Target(c)), now, next)
    && (c.stage.Guarding? ==> c.alive)
    && Become(s, t, c.(stage := next), s')
    && s'.locks == s.locks[Target(c) := now]
  }

  /** One step of controller `t` or of its remote process: the controller dies or stops
      waiting, starts something, or its command ends; its remote process fails or acts. */
  ghost predicate Step(s: State, t: Token, s': State) {
    && t in s.controllers
    && InRange(s.controllers[t].places, s.controllers[t].stage)
    && var c := s.controllers[t];
       || (c.alive && Become(s, t, c.(alive := false), s') && s'.locks == s.locks)
       || (exists next :: Launches(s, t, c, next, s'))
       || (c.stage.Running? && Become(s, t, c.(stage := Working), s') && s'.locks == s.locks)
       || (Remote(c.stage) && Become(s, t, c.(stage := Failed(c.stage)), s') && s'.locks == s.locks)
       || (Remote(c.stage) && !c.stage.Running? && exists now, next :: Touches(s, t, c, now, next, s'))
  }

  /** A run: `movers[k]` moves between the states `k` and `k + 1`. */
  ghost predicate Run(states: seq<State>, movers: seq<Token>) {
    && |states| == |movers| + 1
    && Initial(states[0])
    && forall k | 0 <= k < |movers| :: Step(states[k], movers[k], states[k + 1])
  }

  // ---- what a stage implies about locks ----

  function Elems(ps: seq<Place>): set<Place> {
    set p | p in ps
  }

  /** The places whose lock carries the controller's token. */
  function Holds(ps: seq<Place>, g: Stage): set<Place>
    requires InRange(ps, g)
  {
    match g
    case NextAcquire(i) => Elems(ps[..i])
    case MakingLock(i) => Elems(ps[..i])
    case WritingOwner(i) => Elems(ps[..i])
    case Working => Elems(ps)
    case Guarding(_, _) => Elems(ps)
    case Running(_) => Elems(ps)
    case NextRelease(i) => Elems(ps[i..])
    case Verifying(i) => Elems(ps[i..])
    case Unlinking(i) => Elems(ps[i..])
    case Removing(i) => Elems(ps[i + 1..])
    case _ => {}
  }

  /** The place whose lock directory is without its owner file because of this controller. */
  function Making(ps: seq<Place>, g: Stage): set<Place>
    requires InRange(ps, g)
  {
    match g
    case WritingOwner(i) => {ps[i]}
    case Removing(i) => {ps[i]}
    case _ => {}
  }

  /** A failed controller's locks are as they were before its last remote process failed. */
  function Last(g: Stage): Stage {
    if g.Failed? then g.at else g
  }

  predicate Sane(c: Controller) {
    Distinct(c.places) && InRange(c.places, Last(c.stage))
  }

  /** Locks and one controller's stage agree exactly, both ways. */
  ghost predicate Fits(s: State, t: Token, ps: seq<Place>, g: Stage)
    requires InRange(ps, g)
  {
    && (forall p :: LockAt(s, p) == Held(t) <==> p in Holds(ps, g))
    && (forall p :: LockAt(s, p) == Made(t) <==> p in Making(ps, g))
  }

  ghost predicate Agrees(s: State, t: Token) {
    && t in s.controllers
    && Sane(s.controllers[t])
    && Fits(s, t, s.controllers[t].places, Last(s.controllers[t].stage))
  }

  ghost predicate Inv(s: State) {
    && (forall t | t in s.controllers :: Agrees(s, t))
    && (forall p | LockAt(s, p) != Free :: LockAt(s, p).token in s.controllers)
  }

  lemma InitialInv(s: State)
    requires Initial(s)
    ensures Inv(s)
  {
  }

  /** Splitting a list of distinct places at one of them. */
  lemma DistinctParts(ps: seq<Place>, i: nat)
    requires Distinct(ps) && i < |ps|
    ensures Elems(ps[..i + 1]) == Elems(ps[..i]) + {ps[i]} && ps[i] !in Elems(ps[..i])
    ensures Elems(ps[i..]) == {ps[i]} + Elems(ps[i + 1..]) && ps[i] !in Elems(ps[i + 1..])
  {
    assert ps[..i + 1] == ps[..i] + [ps[i]] && ps[i..] == [ps[i]] + ps[i + 1..];
  }

  lemma LaunchFits(s: State, t: Token, c: Controller, next: Stage)
    requires InRange(c.places, c.stage) && Fits(s, t, c.places, c.stage) && Starts(c, next)
    ensures InRange(c.places, next) && Fits(s, t, c.places, next)
  {
    var ps := c.places;
    assert ps[..|ps|] == ps && ps[0..] == ps && Elems(ps[..0]) == {} == Elems(ps[|ps|..]);
  }

  /** What the acting process does to the places its controller holds. */
  lemma TouchHolds(t: Token, c: Controller, was: Lock, now: Lock, next: Stage)
    requires Remote(c.stage) && !c.stage.Running? && Distinct(c.places) && InRange(c.places, c.stage)
    requires Acts(t, c, was, now, next)
    requires was == Held(t) <==> Target(c) in Holds(c.places, c.stage)
    ensures InRange(c.places, next) && !next.Failed?
    ensures var h, q := Holds(c.places, c.stage), {Target(c)};
            Holds(c.places, next) == if now == Held(t) then h + q else h - q
  {
    hide Elems, Distinct;
    var ps, h, q := c.places, Holds(c.places, c.stage), {Target(c)};
    match c.stage {
      case Checking(i) => assert h - q == {};
      case Guarding(_, _) => assert h + q == h;
      case Verifying(i) => assert h + q == h;
      case Unlinking(i) => ReleaseHolds(t, c, was, now, next);
      case Removing(i) => ReleaseHolds(t, c, was, now, next);
      case _ => AcquireHolds(t, c, was, now, next);
    }
  }

  lemma ReleaseHolds(t: Token, c: Controller, was: Lock, now: Lock, next: Stage)
    requires (c.stage.Unlinking? || c.stage.Removing?) && Distinct(c.places) && InRange(c.places, c.stage)
    requires Acts(t, c, was, now, next)
    ensures InRange(c.places, next) && !next.Failed?
    ensures var h, q := Holds(c.places, c.stage), {c.places[c.stage.i]};
            Holds(c.places, next) == if now == Held(t) then h + q else h - q
  {
    hide Elems, Distinct;
    var ps, h, q, i := c.places, Holds(c.places, c.stage), {c.places[c.stage.i]}, c.stage.i;
    DistinctParts(ps, i);
    assert h - q == Elems(ps[i + 1..]);
  }

  lemma AcquireHolds(t: Token, c: Controller, was: Lock, now: Lock, next: Stage)
    requires (c.stage.MakingLock? || c.stage.WritingOwner?) && Distinct(c.places) && InRange(c.places, c.stage)
    requires Acts(t, c, was, now, next)
    ensures InRange(c.places, next) && !next.Failed?
    ensures var h, q := Holds(c.places, c.stage), {c.places[c.stage.i]};
            Holds(c.places, next) == if now == Held(t) then h + q else h - q
  {
    hide Elems, Distinct;
    DistinctParts(c.places, c.stage.i);
  }

  lemma TouchMaking(t: Token, c: Controller, was: Lock, now: Lock, next: Stage)
    requires Remote(c.stage) && !c.stage.Running? && InRange(c.places, c.stage) && InRange(c.places, next)
    requires Acts(t, c, was, now, next)
    requires was == Made(t) <==> Target(c) in Making(c.places, c.stage)
    ensures var m, q := Making(c.places, c.stage), {Target(c)};
            Making(c.places, next) == if now == Made(t) then m + q else m - q
  {
  }

  lemma TouchFits(s: State, t: Token, c: Controller, now: Lock, next: Stage, s': State)
    requires t in s.controllers && Remote(c.stage) && !c.stage.Running? && Distinct(c.places) && InRange(c.places, c.stage)
    requires Fits(s, t, c.places, c.stage) && Touches(s, t, c, now, next, s')
    ensures InRange(c.places, next) && Fits(s', t, c.places, next) && !next.Failed?
  {
    var target := Target(c);
    TouchHolds(t, c, LockAt(s, target), now, next);
    TouchMaking(t, c, LockAt(s, target), now, next);
    assert forall p :: LockAt(s', p) == if p == target then now else LockAt(s, p);
    hide Holds, Making, LockAt, Acts, InRange;
  }

  lemma SameLocksFit(s: State, t: Token, ps: seq<Place>, g: Stage, s': State, h: Stage)
    requires InRange(ps, g) && Fits(s, t, ps, g) && s'.locks == s.locks
    requires h == g || (g.Running? && h == Working)
    ensures InRange(ps, h) && Fits(s', t, ps, h)
  {
    assert forall p :: LockAt(s', p) == LockAt(s, p);
    hide LockAt, Elems;
  }

  /** The moving controller's own locks follow its stage. */
  lemma MoverAgrees(s: State, t: Token, s': State)
    requires Agrees(s, t) && Step(s, t, s')
    ensures Agrees(s', t)
  {
    hide Distinct, Holds, Making, Acts, LockAt, Fits, InRange;
    var c := s.controllers[t];
    if next :| Launches(s, t, c, next, s') {
      LaunchFits(s, t, c, next);
      SameLocksFit(s, t, c.places, next, s', next);
    } else if Remote(c.stage) && !c.stage.Running? && exists now, next :: Touches(s, t, c, now, next, s') {
      var now, next :| Touches(s, t, c, now, next, s');
      TouchFits(s, t, c, now, next, s');
    } else {
      SameLocksFit(s, t, c.places, Last(c.stage), s', Last(s'.controllers[t].stage));
    }
  }

  /** A process never touches a lock of another controller. */
  lemma TouchesOwnLock(s: State, t: Token, c: Controller, now: Lock, next: Stage, s': State)
    requires t in s.controllers && Remote(c.stage) && !c.stage.Running? && Distinct(c.places) && InRange(c.places, c.stage)
    requires Fits(s, t, c.places, c.stage) && Touches(s, t, c, now, next, s')
    ensures LockAt(s, Target(c)) == Free || LockAt(s, Target(c)).token == t
    ensures now == Free || now.token == t
    ensures forall p | p != Target(c) :: LockAt(s', p) == LockAt(s, p)
    ensures LockAt(s', Target(c)) == now
  {
    var ps := c.places;
    match c.stage {
      case WritingOwner(i) => assert ps[i] in Making(ps, c.stage);
      case Unlinking(i) => DistinctParts(ps, i);
      case Removing(i) => assert ps[i] in Making(ps, c.stage);
      case _ =>
    }
  }

  /** Whatever the mover does, it changes only locks that are free or its own. */
  lemma OnlyOwnLocks(s: State, t: Token, s': State, p: Place)
    requires Inv(s) && Step(s, t, s')
    ensures LockAt(s', p) == LockAt(s, p)
         || ((LockAt(s, p) == Free || LockAt(s, p).token == t) && (LockAt(s', p) == Free || LockAt(s', p).token == t))
    ensures s'.controllers.Keys == s.controllers.Keys
    ensures forall d | d in s.controllers && d != t :: s'.controllers[d] == s.controllers[d]
  {
    var c := s.controllers[t];
    assert Agrees(s, t);
    if Remote(c.stage) && !c.stage.Running? && exists now, next :: Touches(s, t, c, now, next, s') {
      var now, next :| Touches(s, t, c, now, next, s');
      hide Distinct, Fits, Acts, Holds, Making;
      TouchesOwnLock(s, t, c, now, next, s');
    }
  }

  lemma OthersAgree(s: State, t: Token, s': State, d: Token)
    requires Inv(s) && Step(s, t, s') && d in s.controllers && d != t
    ensures Agrees(s', d)
  {
    assert Agrees(s, d);
    OnlyOwnLocks(s, t, s', "");
    var c := s.controllers[d];
    forall p ensures (LockAt(s', p) == Held(d) <==> LockAt(s, p) == Held(d)) && (LockAt(s', p) == Made(d) <==> LockAt(s, p) == Made(d)) {
      OnlyOwnLocks(s, t, s', p);
    }
    hide Step, LockAt, Holds, Making, Sane, Inv, InRange;
  }

  lemma InvStep(s: State, t: Token, s': State)
    requires Inv(s) && Step(s, t, s')
    ensures Inv(s')
  {
    MoverAgrees(s, t, s');
    OnlyOwnLocks(s, t, s', "");
    forall p | LockAt(s', p) != Free ensures LockAt(s', p).token in s'.controllers {
      OnlyOwnLocks(s, t, s', p);
    }
    hide Step, LockAt, Agrees;
    forall d | d in s'.controllers && d != t ensures Agrees(s', d) {
      OthersAgree(s, t, s', d);
    }
  }

  lemma {:induction false} InvAt(states: seq<State>, movers: seq<Token>, k: nat)
    requires Run(states, movers) && k < |states|
    ensures Inv(states[k])
  {
    if k == 0 {
      InitialInv(states[0]);
    } else {
      InvAt(states, movers, k - 1);
      hide Inv;
      InvStep(states[k - 1], movers[k - 1], states[k]);
    }
  }

  // ---- what every run promises ----

  /** Between the last acquisition and the first release, even if the controller has died
      and only its remote process goes on. */
  predicate Critical(g: Stage) {
    g.Working? || g.Guarding? || g.Running? || g == NextRelease(0) || g == Verifying(0)
  }

  /** Every guarded command runs while each host it touches is locked by the controller
      that issued it. */
  lemma CommandHoldsLock(states: seq<State>, movers: seq<Token>, k: nat, t: Token, p: Place)
    requires Run(states, movers) && k < |states| && t in states[k].controllers
    requires states[k].controllers[t].stage.Running? && p in states[k].controllers[t].stage.qs
    ensures LockAt(states[k], p) == Held(t)
  {
    InvAt(states, movers, k);
    assert Agrees(states[k], t);
  }

  /** Mutual exclusion: two stagings with a host in common are never both between their
      last acquisition and first release. */
  lemma MutualExclusion(states: seq<State>, movers: seq<Token>, k: nat, t: Token, d: Token, p: Place)
    requires Run(states, movers) && k < |states| && t in states[k].controllers && d in states[k].controllers && t != d
    requires Critical(Last(states[k].controllers[t].stage)) && Critical(Last(states[k].controllers[d].stage))
    ensures !(p in states[k].controllers[t].places && p in states[k].controllers[d].places)
  {
    InvAt(states, movers, k);
    CriticalHolds(states[k], t);
    CriticalHolds(states[k], d);
  }

  lemma CriticalHolds(s: State, t: Token)
    requires Inv(s) && t in s.controllers && Critical(Last(s.controllers[t].stage))
    ensures forall p | p in s.controllers[t].places :: LockAt(s, p) == Held(t)
  {
    assert Agrees(s, t);
    var ps := s.controllers[t].places;
    assert ps[0..] == ps;
  }

  /** The controller starts nothing any more; a remote process of it may still be at work. */
  predicate Ended(c: Controller) {
    !c.alive || c.stage.Failed?
  }

  /** The one place whose lock such a remote process may still change. */
  function StillTouched(c: Controller): set<Place>
    requires InRange(c.places, Last(c.stage))
  {
    match c.stage
    case MakingLock(i) => {c.places[i]}
    case WritingOwner(i) => {c.places[i]}
    case Verifying(i) => {c.places[i]}
    case Unlinking(i) => {c.places[i]}
    case Removing(i) => {c.places[i]}
    case _ => {}
  }

  /** Whatever an ended controller's remote process does, it stays with the one lock. */
  lemma EndedStep(s: State, t: Token, d: Token, s': State, p: Place)
    requires Inv(s) && Step(s, d, s') && t in s.controllers && Sane(s.controllers[t]) && Ended(s.controllers[t])
    requires p !in StillTouched(s.controllers[t]) && LockAt(s, p) != Free && LockAt(s, p).token == t
    ensures t in s'.controllers && Sane(s'.controllers[t]) && Ended(s'.controllers[t])
    ensures p !in StillTouched(s'.controllers[t]) && LockAt(s', p) == LockAt(s, p)
  {
    if d != t {
      OnlyOwnLocks(s, d, s', p);
    } else {
      assert Agrees(s, t);
      OwnEndedStep(s, t, s', p);
    }
  }

  lemma OwnEndedStep(s: State, t: Token, s': State, p: Place)
    requires Agrees(s, t) && Step(s, t, s') && Ended(s.controllers[t]) && p !in StillTouched(s.controllers[t])
    ensures t in s'.controllers && Sane(s'.controllers[t]) && Ended(s'.controllers[t])
    ensures p !in StillTouched(s'.controllers[t]) && LockAt(s', p) == LockAt(s, p)
  {
    hide Distinct, Holds, Making, Fits;
    MoverAgrees(s, t, s');
    var c := s.controllers[t];
    if Remote(c.stage) && !c.stage.Running? && exists now, next :: Touches(s, t, c, now, next, s') {
      var now, next :| Touches(s, t, c, now, next, s');
      if p == Target(c) {
        assert now == LockAt(s, p);
      }
    }
  }

  /** An ended controller keeps every lock it has for ever, whatever its last remote process
      still does, but for the one lock that process was taking or releasing; and no other
      staging that needs one of these hosts gets all of its locks. */
  lemma {:induction false} CrashBlocks(states: seq<State>, movers: seq<Token>, i: nat, k: nat, t: Token, p: Place)
    requires Run(states, movers) && i <= k < |states| && t in states[i].controllers && Ended(states[i].controllers[t])
    requires LockAt(states[i], p) != Free && LockAt(states[i], p).token == t
    requires InRange(states[i].controllers[t].places, Last(states[i].controllers[t].stage))
    requires p !in StillTouched(states[i].controllers[t])
    ensures LockAt(states[k], p) == LockAt(states[i], p)
    ensures t in states[k].controllers && Sane(states[k].controllers[t]) && Ended(states[k].controllers[t])
    ensures p !in StillTouched(states[k].controllers[t])
    ensures forall d | d in states[k].controllers && d != t && Critical(Last(states[k].controllers[d].stage)) ::
              p !in states[k].controllers[d].places
  {
    InvAt(states, movers, k);
    if i < k {
      CrashBlocks(states, movers, i, k - 1, t, p);
      InvAt(states, movers, k - 1);
      EndedStep(states[k - 1], t, movers[k - 1], states[k], p);
    } else {
      assert Agrees(states[i], t);
    }
    forall d | d in states[k].controllers && d != t && Critical(Last(states[k].controllers[d].stage))
      ensures p !in states[k].controllers[d].places
    {
      CriticalHolds(states[k], d);
    }
  }

  /** A staging that dies at work, even while an orphaned command goes on, keeps all of its
      hosts locked for ever. */
  lemma DeadAtWorkHoldsAll(states: seq<State>, movers: seq<Token>, i: nat, k: nat, t: Token, p: Place)
    requires Run(states, movers) && i <= k < |states| && t in states[i].controllers && Ended(states[i].controllers[t])
    requires var g := Last(states[i].controllers[t].stage); g.Working? || g.Guarding? || g.Running?
    requires p in states[i].controllers[t].places
    ensures LockAt(states[k], p) == Held(t)
  {
    InvAt(states, movers, i);
    CriticalHolds(states[i], t);
    assert Agrees(states[i], t);
    CrashBlocks(states, movers, i, k, t, p);
  }

  /** A staging that finished has released everything; one that has not can be found out
      from the locks: a lock carries a token exactly while its controller is at a stage
      that says so. */
  lemma FinishedLeavesNothing(states: seq<State>, movers: seq<Token>, k: nat, t: Token, p: Place)
    requires Run(states, movers) && k < |states| && t in states[k].controllers
    requires states[k].controllers[t].stage == Done
    ensures LockAt(states[k], p) != Held(t) && LockAt(states[k], p) != Made(t)
  {
    InvAt(states, movers, k);
    assert Agrees(states[k], t);
  }

  // ---- a staging of free hosts can finish ----

  /** Steps of one controller and its remote processes, one after the other. */
  ghost predicate Way(path: seq<State>, t: Token) {
    path != [] && forall k | 0 <= k < |path| - 1 :: Step(path[k], t, path[k + 1])
  }

  function End(path: seq<State>): State
    requires path != []
  {
    path[|path| - 1]
  }

  /** The staging stands at this stage, its first `i` hosts' locks are `done` and the rest `todo`. */
  ghost predicate Stands(s: State, t: Token, ps: seq<Place>, g: Stage, i: nat, done: Lock, todo: Lock) {
    && t in s.controllers && s.controllers[t] == Controller(ps, g, true) && Distinct(ps) && InRange(ps, g) && i <= |ps|
    && (forall k | 0 <= k < i :: LockAt(s, ps[k]) == done)
    && (forall k | i <= k < |ps| :: LockAt(s, ps[k]) == todo)
  }

  /** One more step that changes the stage alone. */
  lemma MoveOn(path: seq<State>, t: Token, ps: seq<Place>, g: Stage, next: Stage, i: nat, done: Lock, todo: Lock) returns (more: seq<State>)
    requires Way(path, t) && Stands(End(path), t, ps, g, i, done, todo) && InRange(ps, next)
    requires Starts(Controller(ps, g, true), next) || (g.Running? && next == Working)
    ensures Way(more, t) && path < more && Stands(End(more), t, ps, next, i, done, todo)
  {
    var s := End(path);
    var s' := State(s.locks, s.controllers[t := Controller(ps, next, true)]);
    if Starts(Controller(ps, g, true), next) {
      assert Launches(s, t, s.controllers[t], next, s');
    }
    assert Step(s, t, s');
    more := path + [s'];
    assert forall p :: LockAt(s', p) == LockAt(s, p);
  }

  /** One more step of the remote process at host number `j`. */
  lemma ActOn(path: seq<State>, t: Token, ps: seq<Place>, g: Stage, next: Stage, j: nat, now: Lock) returns (more: seq<State>)
    requires Way(path, t) && t in End(path).controllers && End(path).controllers[t] == Controller(ps, g, true)
    requires Distinct(ps) && InRange(ps, g) && InRange(ps, next) && Remote(g) && !g.Running?
    requires j < |ps| && Target(Controller(ps, g, true)) == ps[j] && Acts(t, Controller(ps, g, true), LockAt(End(path), ps[j]), now, next)
    ensures Way(more, t) && path < more
    ensures t in End(more).controllers && End(more).controllers[t] == Controller(ps, next, true)
    ensures forall k | 0 <= k < |ps| :: LockAt(End(more), ps[k]) == if k == j then now else LockAt(End(path), ps[k])
  {
    hide Acts, InRange, Target, Starts, Remote;
    var s := End(path);
    var s' := State(s.locks[ps[j] := now], s.controllers[t := Controller(ps, next, true)]);
    assert Touches(s, t, s.controllers[t], now, next, s');
    assert Step(s, t, s');
    more := path + [s'];
  }

  lemma CheckAll(path: seq<State>, t: Token, ps: seq<Place>) returns (more: seq<State>)
    requires Way(path, t) && Stands(End(path), t, ps, NextCheck(0), 0, Free, Free)
    ensures Way(more, t) && path < more && Stands(End(more), t, ps, NextAcquire(0), 0, Held(t), Free)
  {
    hide Step;
    more := path;
    for i := 0 to |ps|
      invariant Way(more, t) && path <= more && Stands(End(more), t, ps, NextCheck(i), 0, Free, Free)
    {
      more := MoveOn(more, t, ps, NextCheck(i), Checking(i), 0, Free, Free);
      more := ActOn(more, t, ps, Checking(i), NextCheck(i + 1), i, Free);
    }
    more := MoveOn(more, t, ps, NextCheck(|ps|), NextAcquire(0), 0, Free, Free);
  }

  lemma AcquireAll(path: seq<State>, t: Token, ps: seq<Place>) returns (more: seq<State>)
    requires Way(path, t) && Stands(End(path), t, ps, NextAcquire(0), 0, Held(t), Free)
    ensures Way(more, t) && path < more && Stands(End(more), t, ps, Working, |ps|, Held(t), Free)
  {
    hide Step;
    more := path;
    for i := 0 to |ps|
      invariant Way(more, t) && path <= more && Stands(End(more), t, ps, NextAcquire(i), i, Held(t), Free)
    {
      more := MoveOn(more, t, ps, NextAcquire(i), MakingLock(i), i, Held(t), Free);
      more := ActOn(more, t, ps, MakingLock(i), WritingOwner(i), i, Made(t));
      more := ActOn(more, t, ps, WritingOwner(i), NextAcquire(i + 1), i, Held(t));
    }
    more := MoveOn(more, t, ps, NextAcquire(|ps|), Working, |ps|, Held(t), Free);
  }

  /** A guarded command on any of its hosts; it is under way in state number `k`. */
  lemma Command(path: seq<State>, t: Token, ps: seq<Place>, qs: seq<Place>) returns (more: seq<State>, k: nat)
    requires Way(path, t) && Stands(End(path), t, ps, Working, |ps|, Held(t), Free)
    requires qs != [] && forall q | q in qs :: q in ps
    ensures Way(more, t) && path < more && Stands(End(more), t, ps, Working, |ps|, Held(t), Free)
    ensures k < |more| && t in more[k].controllers && more[k].controllers[t].stage == Running(qs)
  {
    hide Step;
    more := MoveOn(path, t, ps, Working, Guarding(qs, 0), |ps|, Held(t), Free);
    for j := 0 to |qs| - 1
      invariant Way(more, t) && path < more && Stands(End(more), t, ps, Guarding(qs, j), |ps|, Held(t), Free)
    {
      assert qs[j] in ps;
      var x :| 0 <= x < |ps| && ps[x] == qs[j];
      more := ActOn(more, t, ps, Guarding(qs, j), Guarding(qs, j + 1), x, Held(t));
    }
    var j := |qs| - 1;
    assert qs[j] in ps;
    var x :| 0 <= x < |ps| && ps[x] == qs[j];
    more := ActOn(more, t, ps, Guarding(qs, j), Running(qs), x, Held(t));
    k := |more| - 1;
    more := MoveOn(more, t, ps, Running(qs), Working, |ps|, Held(t), Free);
  }

  lemma ReleaseOne(path: seq<State>, t: Token, ps: seq<Place>, i: nat) returns (more: seq<State>)
    requires i < |ps| && Way(path, t) && Stands(End(path), t, ps, NextRelease(i), i, Free, Held(t))
    ensures Way(more, t) && path < more && Stands(End(more), t, ps, NextRelease(i + 1), i + 1, Free, Held(t))
  {
    hide Way, LockAt;
    more := MoveOn(path, t, ps, NextRelease(i), Verifying(i), i, Free, Held(t));
    more := ActOn(more, t, ps, Verifying(i), Unlinking(i), i, Held(t));
    more := ActOn(more, t, ps, Unlinking(i), Removing(i), i, Made(t));
    more := ActOn(more, t, ps, Removing(i), NextRelease(i + 1), i, Free);
  }

  lemma ReleaseAll(path: seq<State>, t: Token, ps: seq<Place>) returns (more: seq<State>)
    requires Way(path, t) && Stands(End(path), t, ps, Working, |ps|, Held(t), Free)
    ensures Way(more, t) && path < more && Stands(End(more), t, ps, Done, |ps|, Free, Held(t))
  {
    hide Step;
    more := MoveOn(path, t, ps, Working, NextRelease(0), |ps|, Held(t), Free);
    assert Stands(End(more), t, ps, NextRelease(0), 0, Free, Held(t));
    for i := 0 to |ps|
      invariant Way(more, t) && path < more && Stands(End(more), t, ps, NextRelease(i), i, Free, Held(t))
    {
      more := ReleaseOne(more, t, ps, i);
    }
    more := MoveOn(more, t, ps, NextRelease(|ps|), Done, |ps|, Free, Held(t));
  }

  /** A staging whose hosts are all free can run to its end, with any guarded command on the
      way, and leaves all of them free. */
  lemma FreeHostsCanFinish(s: State, t: Token, qs: seq<Place>) returns (path: seq<State>, k: nat)
    requires t in s.controllers && s.controllers[t].alive && s.controllers[t].stage == NextCheck(0) && Distinct(s.controllers[t].places)
    requires forall p | p in s.controllers[t].places :: LockAt(s, p) == Free
    requires qs != [] && forall q | q in qs :: q in s.controllers[t].places
    ensures Way(path, t) && path[0] == s
    ensures k < |path| && t in path[k].controllers && path[k].controllers[t].stage == Running(qs)
    ensures t in End(path).controllers && End(path).controllers[t].stage == Done
    ensures forall p | p in s.controllers[t].places :: LockAt(End(path), p) == Free
  {
    hide Step;
    var ps := s.controllers[t].places;
    assert s.controllers[t] == Controller(ps, NextCheck(0), true);
    path := [s];
    path := CheckAll(path, t, ps);
    path := AcquireAll(path, t, ps);
    path, k := Command(path, t, ps, qs);
    path := ReleaseAll(path, t, ps);
  }
}
