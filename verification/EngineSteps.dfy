/** What holds between the steps of one invocation, and why every step keeps it. */
module EngineSteps {
  import opened Wrappers
  import opened Plan
  import opened EngineTrace

  // Where one submitted action stands in the worker pool.
  datatype Stage = Queued | ArgvSent | VerifyDue | VerifySent | Done(state: ActionState) | Broke

  function Rank(s: Stage): nat {
    match s
    case Queued => 4
    case ArgvSent => 3
    case VerifyDue => 2
    case VerifySent => 1
    case _ => 0
  }

  function PoolWork(stages: seq<Stage>): nat {
    if stages == [] then 0 else Rank(stages[0]) + PoolWork(stages[1..])
  }

  lemma {:induction false} WorkUpdate(stages: seq<Stage>, j: nat, s: Stage)
    requires j < |stages|
    ensures PoolWork(stages[j := s]) == PoolWork(stages) - Rank(stages[j]) + Rank(s)
  {
    var updated := stages[j := s];
    if j == 0 {
      assert updated[1..] == stages[1..];
    } else {
      assert updated[1..] == stages[1..][j - 1 := s];
      WorkUpdate(stages[1..], j - 1, s);
    }
  }

  /** Every stage so far went as planned. */
  ghost predicate Smooth(stages: seq<Stage>) {
    forall x | 0 <= x < |stages| :: !stages[x].Broke? && (stages[x].Done? ==> stages[x].state == Succeeded)
  }

  lemma SmoothUpdate(stages: seq<Stage>, x: nat, s: Stage)
    requires x < |stages|
    ensures Smooth(stages) ==> !stages[x].Broke?
    ensures Smooth(stages) && !s.Broke? && (s.Done? ==> s.state == Succeeded) ==> Smooth(stages[x := s])
  {
  }

  lemma OneOfThree(s: Option<ActionState>)
    ensures Open(s) || Blocked(s) || s == Some(Succeeded)
  {
    match s
    case None =>
    case Some(state) => assert state.Running? || state.Succeeded? || state.Uncertain? || state.Failed?;
  }

  // ---- invariants between the steps of one invocation: `v` is what was observed so
  // far and `r` the receipt in memory ----

  /** No action of the plan is recorded with an unknown outcome. */
  ghost predicate NothingUnknown(body: PlanBody, actions: map<string, ActionState>) {
    forall id | HasId(body, id) :: !Blocked(StateOf(actions, KeyOf(body, id)))
  }

  /** The action was neither rechecked nor heard of in this invocation. */
  ghost predicate Untried(v: View, id: Id) {
    (Recheck, id) !in v.issued && (Apply, id) !in v.answered && (Verify, id) !in v.answered
  }

  /** Phase `k` is about to start: memory and disk agree, earlier phases are done, and
      apart from new successes nothing differs from what the invocation found. */
  ghost predicate AtPhase(b: PlanBody, v: View, r: Receipt, k: nat) {
    && v.disk == Some(r) && !r.complete
    && EarlierDone(b, v, k)
    && (forall id | id in v.begun :: id.phase < k)
    && (forall id: Id | id.phase >= k :: Untried(v, id))
    && (forall key :: StateOf(r.actions, key) == StateOf(v.baseline, key)
                      || StateOf(r.actions, key) == Some(Succeeded))
  }

  ghost predicate NoneBlocked(b: PlanBody, r: Receipt, k: nat, n: nat)
    requires k < |b.phases| && n <= |b.phases[k].actions|
  {
    forall i | 0 <= i < n :: !Blocked(StateOf(r.actions, KeyOf(b, Id(k, i))))
  }

  ghost function PhaseKeys(b: PlanBody, k: nat): set<string>
    requires k < |b.phases|
  {
    set i | 0 <= i < |b.phases[k].actions| :: KeyOf(b, Id(k, i))
  }

  /** Inside phase `k`, before or while its pool works: apart from new successes only
      the phase's own keys changed, and memory differs from disk in running actions only. */
  ghost predicate InPhase(b: PlanBody, v: View, r: Receipt, k: nat)
    requires k < |b.phases|
  {
    && v.disk.Some? && !r.complete
    && EarlierDone(b, v, k)
    && r == v.disk.value.(actions := r.actions)
    && (forall id | id in v.begun :: id.phase <= k)
    && (forall id: Id | id.phase > k :: Untried(v, id))
    && (forall key ::
          || StateOf(r.actions, key) == StateOf(v.disk.value.actions, key)
          || (&& StateOf(r.actions, key) == Some(Running)
              && Open(StateOf(v.disk.value.actions, key))
              && Open(StateOf(v.baseline, key))))
    && (forall key | key !in PhaseKeys(b, k) ::
          || StateOf(r.actions, key) == StateOf(v.baseline, key)
          || StateOf(r.actions, key) == Some(Succeeded))
  }

  /** Action `i` of phase `k` is to be sent: recorded as running and checked. */
  ghost predicate Submitted(b: PlanBody, v: View, r: Receipt, id: Id) {
    && HasId(b, id)
    && StateOf(r.actions, KeyOf(b, id)) == Some(Running)
    && Open(StateOf(v.baseline, KeyOf(b, id)))
    && ChecksPassed(b, v, id)
  }

  /** The action needs nothing more in this invocation. */
  ghost predicate Settled(b: PlanBody, v: View, r: Receipt, id: Id) {
    HasId(b, id) && StateOf(r.actions, KeyOf(b, id)) == Some(Succeeded) && id in v.confirmed
  }

  /** The first `i` actions of the phase are sorted into `todo` and the settled rest. */
  ghost predicate Sorted(b: PlanBody, v: View, r: Receipt, k: nat, i: nat, todo: seq<nat>)
    requires k < |b.phases| && i <= |b.phases[k].actions|
  {
    && InPhase(b, v, r, k)
    && PhaseChecked(b, v, k)
    && (forall id | id in v.begun :: id.phase < k)
    && (forall x | 0 <= x < |todo| :: todo[x] < i && Submitted(b, v, r, Id(k, todo[x])) && Untried(v, Id(k, todo[x])))
    && (forall j | i <= j < |b.phases[k].actions| :: Untried(v, Id(k, j)))
    && (forall x, y | 0 <= x < y < |todo| :: todo[x] != todo[y])
    && (forall j | 0 <= j < i && j !in todo :: Settled(b, v, r, Id(k, j)))
    && (forall j | i <= j < |b.phases[k].actions| ::
          var s := StateOf(r.actions, KeyOf(b, Id(k, j)));
          && !Blocked(s)
          && s == StateOf(v.disk.value.actions, KeyOf(b, Id(k, j)))
          && (s == StateOf(v.baseline, KeyOf(b, Id(k, j))) || s == Some(Succeeded)))
  }

  lemma SortedAtStart(b: PlanBody, v: View, r: Receipt, k: nat)
    requires k < |b.phases| && AtPhase(b, v, r, k) && PhaseChecked(b, v, k)
    requires NoneBlocked(b, r, k, |b.phases[k].actions|)
    ensures Sorted(b, v, r, k, 0, [])
  {
    hide PhaseChecked, EarlierDone;
  }

  /** Memory inside a phase may always be saved. */
  lemma InPhaseSaves(b: PlanBody, v: View, r: Receipt, k: nat, saved: Receipt)
    requires k < |b.phases| && InPhase(b, v, r, k)
    requires saved == r.(failure := saved.failure) && (saved.failure == r.failure || FailureOk(b, v, saved.failure))
    ensures SaveOk(b, v, saved)
  {
    hide FailureOk;
    forall key ensures MoveOk(b, v, key, StateOf(v.disk.value.actions, key), StateOf(saved.actions, key)) {
    }
  }

  lemma AtPhaseAfterCheck(b: PlanBody, v: View, r: Receipt, k: nat, purpose: Purpose, id: Id, reply: Reply)
    requires AtPhase(b, v, r, k) && purpose.Preflight?
    ensures AtPhase(b, After(b, After(b, v, Command(purpose, id)), Result(purpose, id, reply)), r, k)
  {
  }

  lemma SortedAfterSave(b: PlanBody, v: View, r: Receipt, k: nat, i: nat, todo: seq<nat>)
    requires k < |b.phases| && i <= |b.phases[k].actions| && Sorted(b, v, r, k, i, todo)
    ensures SaveOk(b, v, r)
    ensures Sorted(b, After(b, v, Saved(r)), r, k, i, todo)
  {
    InPhaseSaves(b, v, r, k, r);
    var w := After(b, v, Saved(r));
    EarlierDoneStays(b, v, Saved(r), k);
    forall id | HasId(b, id) && id.phase == k
      ensures ChecksPassed(b, w, id)
              || (id !in w.begun && StateOf(r.actions, KeyOf(b, id)) == Some(Succeeded))
    {
      assert MoveOk(b, v, KeyOf(b, id), StateOf(v.disk.value.actions, KeyOf(b, id)), StateOf(r.actions, KeyOf(b, id)));
      assert ChecksPassed(b, v, id) ==> ChecksPassed(b, w, id);
    }
    forall x | 0 <= x < |todo| ensures Submitted(b, w, r, Id(k, todo[x])) {
      assert ChecksPassed(b, v, Id(k, todo[x]));
    }
  }

  lemma MayRecheck(b: PlanBody, v: View, r: Receipt, k: nat, i: nat, todo: seq<nat>)
    requires k < |b.phases| && i < |b.phases[k].actions| && Sorted(b, v, r, k, i, todo)
    requires StateOf(r.actions, KeyOf(b, Id(k, i))) == Some(Succeeded)
    ensures CommandOk(b, v, Recheck, Id(k, i)) && InPhase(b, v, r, k)
  {
    hide PhaseChecked, EarlierDone, ChecksPassed;
  }

  lemma InPhaseAfterRecheck(b: PlanBody, v: View, r: Receipt, k: nat, id: Id, reply: Reply)
    requires k < |b.phases| && InPhase(b, v, r, k) && PhaseChecked(b, v, k) && id.phase == k
    ensures var w := After(b, After(b, v, Command(Recheck, id)), Result(Recheck, id, reply));
            InPhase(b, w, r, k) && PhaseChecked(b, w, k)
  {
    var w := After(b, After(b, v, Command(Recheck, id)), Result(Recheck, id, reply));
    forall other | HasId(b, other) && ChecksPassed(b, v, other) ensures ChecksPassed(b, w, other) {
    }
  }

  /** A passed recheck settles its action. */
  lemma SortedAfterRecheck(b: PlanBody, v: View, r: Receipt, k: nat, i: nat, todo: seq<nat>, reply: Reply)
    requires k < |b.phases| && i < |b.phases[k].actions| && Sorted(b, v, r, k, i, todo)
    requires StateOf(r.actions, KeyOf(b, Id(k, i))) == Some(Succeeded)
    ensures var w := After(b, After(b, v, Command(Recheck, Id(k, i))), Result(Recheck, Id(k, i), reply));
            InPhase(b, w, r, k) && (Passes(b, Recheck, Id(k, i), reply) ==> Sorted(b, w, r, k, i + 1, todo))
  {
    hide InPhase, PhaseChecked, Passes;
    var w := After(b, After(b, v, Command(Recheck, Id(k, i))), Result(Recheck, Id(k, i), reply));
    InPhaseAfterRecheck(b, v, r, k, Id(k, i), reply);
  }

  lemma InPhaseAfterMark(b: PlanBody, v: View, r: Receipt, k: nat, id: Id)
    requires k < |b.phases| && InPhase(b, v, r, k) && HasId(b, id) && id.phase == k
    requires Open(StateOf(v.disk.value.actions, KeyOf(b, id))) && Open(StateOf(v.baseline, KeyOf(b, id)))
    ensures InPhase(b, v, r.(actions := r.actions[KeyOf(b, id) := Running]), k)
  {
    hide EarlierDone;
    assert KeyOf(b, Id(k, id.action)) in PhaseKeys(b, k);
  }

  /** Marking one action as running leaves the others of the phase alone. */
  lemma MarkKeeps(b: PlanBody, v: View, r: Receipt, id: Id, other: Id)
    requires ValidBody(b) && HasId(b, id) && HasId(b, other) && other.phase == id.phase && other != id
    ensures var q := r.(actions := r.actions[KeyOf(b, id) := Running]);
            && StateOf(q.actions, KeyOf(b, other)) == StateOf(r.actions, KeyOf(b, other))
            && (Submitted(b, v, r, other) ==> Submitted(b, v, q, other))
            && (Settled(b, v, r, other) ==> Settled(b, v, q, other))
  {
    hide ChecksPassed;
    OnlyThisKey(b, id);
  }

  lemma SortedAfterMark(b: PlanBody, v: View, r: Receipt, k: nat, i: nat, todo: seq<nat>)
    requires ValidBody(b)
    requires k < |b.phases| && i < |b.phases[k].actions| && Sorted(b, v, r, k, i, todo)
    requires StateOf(r.actions, KeyOf(b, Id(k, i))) != Some(Succeeded)
    ensures Sorted(b, v, r.(actions := r.actions[KeyOf(b, Id(k, i)) := Running]), k, i + 1, todo + [i])
  {
    var id := Id(k, i);
    var q := r.(actions := r.actions[KeyOf(b, id) := Running]);
    MarkIsSubmitted(b, v, r, k, i, todo);
    hide PhaseChecked, ValidBody, InPhase, Submitted, Settled, Untried, Blocked;
    forall j: nat | j < |b.phases[k].actions| && j != i
      ensures StateOf(q.actions, KeyOf(b, Id(k, j))) == StateOf(r.actions, KeyOf(b, Id(k, j)))
      ensures Submitted(b, v, r, Id(k, j)) ==> Submitted(b, v, q, Id(k, j))
      ensures Settled(b, v, r, Id(k, j)) ==> Settled(b, v, q, Id(k, j))
    {
      MarkKeeps(b, v, r, id, Id(k, j));
    }
  }

  lemma MarkIsSubmitted(b: PlanBody, v: View, r: Receipt, k: nat, i: nat, todo: seq<nat>)
    requires k < |b.phases| && i < |b.phases[k].actions| && Sorted(b, v, r, k, i, todo)
    requires StateOf(r.actions, KeyOf(b, Id(k, i))) != Some(Succeeded)
    ensures var q := r.(actions := r.actions[KeyOf(b, Id(k, i)) := Running]);
            && InPhase(b, v, q, k) && Submitted(b, v, q, Id(k, i)) && Untried(v, Id(k, i))
  {
    hide EarlierDone, ChecksPassed, InPhase;
    var id := Id(k, i);
    OneOfThree(StateOf(r.actions, KeyOf(b, id)));
    assert HasId(b, id) && ChecksPassed(b, v, id);
    FoundOpen(b, v, r, k, i, todo);
    InPhaseAfterMark(b, v, r, k, id);
  }

  lemma FoundOpen(b: PlanBody, v: View, r: Receipt, k: nat, i: nat, todo: seq<nat>)
    requires k < |b.phases| && i < |b.phases[k].actions| && Sorted(b, v, r, k, i, todo)
    requires Open(StateOf(r.actions, KeyOf(b, Id(k, i))))
    ensures v.disk.Some? && Open(StateOf(v.disk.value.actions, KeyOf(b, Id(k, i)))) && Open(StateOf(v.baseline, KeyOf(b, Id(k, i))))
  {
    hide PhaseChecked, EarlierDone;
  }

  // ---- the worker pool of one phase ----

  /** What is known about a submitted action at each point of its worker. */
  ghost predicate StageOk(b: PlanBody, v: View, id: Id, s: Stage) {
    && HasId(b, id)
    && match s
       case Queued => id !in v.begun && Untried(v, id)
       case ArgvSent =>
         id in v.begun && (Apply, id) in v.issued && (Apply, id) !in v.answered && (Verify, id) !in v.answered
       case VerifyDue => id in v.begun && id in v.argvOk && ActionOf(b, id).verify.Some? && (Verify, id) !in v.answered
       case VerifySent =>
         id in v.begun && (Verify, id) in v.issued && ActionOf(b, id).verify.Some? && (Verify, id) !in v.answered
       case Done(state) =>
         && id in v.begun && state != Running
         && (state == Succeeded ==> id in v.confirmed)
         && (state == Uncertain ==> id in v.unsure && !v.clean)
         && (state == Failed ==> id in v.refused && ActionOf(b, id).risk == ReadOnly)
       case Broke => !v.clean
  }

  ghost predicate Pooled(b: PlanBody, v: View, r: Receipt, k: nat, todo: seq<nat>, stages: seq<Stage>, taken: nat)
    requires k < |b.phases|
  {
    && InPhase(b, v, r, k) && v.disk == Some(r) && PhaseChecked(b, v, k)
    && taken <= |todo| == |stages|
    && (forall x, y | 0 <= x < y < |todo| :: todo[x] != todo[y])
    && (forall x | 0 <= x < |todo| ::
          HasId(b, Id(k, todo[x])) && StageOk(b, v, Id(k, todo[x]), stages[x]) && ChecksPassed(b, v, Id(k, todo[x])))
    && (forall x | taken <= x < |todo| :: Submitted(b, v, r, Id(k, todo[x])))
    && (forall x | 0 <= x < taken ::
          stages[x].Done? && StateOf(r.actions, KeyOf(b, Id(k, todo[x]))) == Some(stages[x].state))
    && (forall j | 0 <= j < |b.phases[k].actions| && j !in todo ::
          Settled(b, v, r, Id(k, j)) && Id(k, j) !in v.begun)
  }

  lemma PooledAtStart(b: PlanBody, v: View, r: Receipt, k: nat, todo: seq<nat>)
    requires k < |b.phases| && Sorted(b, v, r, k, |b.phases[k].actions|, todo) && v.disk == Some(r)
    ensures Pooled(b, v, r, k, todo, seq(|todo|, _ => Queued), 0)
  {
  }

  lemma ChecksKept(b: PlanBody, v: View, e: Event, id: Id)
    requires HasId(b, id) && ChecksPassed(b, v, id) && !e.Opened?
    ensures ChecksPassed(b, After(b, v, e), id)
  {
  }

  lemma StageKept(b: PlanBody, v: View, e: Event, id: Id, s: Stage)
    requires StageOk(b, v, id, s) && !e.Opened? && (e.Saved? || e.id != id)
    ensures StageOk(b, After(b, v, e), id, s)
  {
  }

  lemma InPhaseAfterEvent(b: PlanBody, v: View, r: Receipt, k: nat, e: Event)
    requires k < |b.phases| && InPhase(b, v, r, k) && PhaseChecked(b, v, k)
    requires (e.Command? || e.Result?) && e.id.phase == k && HasId(b, e.id) && ChecksPassed(b, v, e.id)
    ensures InPhase(b, After(b, v, e), r, k) && PhaseChecked(b, After(b, v, e), k)
  {
    forall id | HasId(b, id) && id.phase == k && ChecksPassed(b, v, id) ensures ChecksPassed(b, After(b, v, e), id) {
      ChecksKept(b, v, e, id);
    }
  }

  /** An event of the worker of entry `x` leaves the rest of the pool alone. */
  lemma PooledAfterMove(b: PlanBody, v: View, r: Receipt, k: nat, todo: seq<nat>, stages: seq<Stage>, taken: nat,
                        x: nat, e: Event, s: Stage)
    requires k < |b.phases| && Pooled(b, v, r, k, todo, stages, taken)
    requires taken <= x < |todo|
    requires (e.Command? || e.Result?) && e.id == Id(k, todo[x])
    requires StageOk(b, After(b, v, e), Id(k, todo[x]), s)
    ensures Pooled(b, After(b, v, e), r, k, todo, stages[x := s], taken)
  {
    hide InPhase, PhaseChecked, ChecksPassed, StageOk;
    var w := After(b, v, e);
    InPhaseAfterEvent(b, v, r, k, e);
    forall y | 0 <= y < |todo|
      ensures StageOk(b, w, Id(k, todo[y]), stages[x := s][y]) && ChecksPassed(b, w, Id(k, todo[y]))
    {
      ChecksKept(b, v, e, Id(k, todo[y]));
      if y != x {
        StageKept(b, v, e, Id(k, todo[y]), stages[y]);
      }
    }
    assert forall j | 0 <= j < |b.phases[k].actions| && j !in todo :: Id(k, j) != e.id;
  }

  lemma EntryOf(b: PlanBody, v: View, r: Receipt, k: nat, todo: seq<nat>, stages: seq<Stage>, taken: nat, x: nat)
    requires k < |b.phases| && Pooled(b, v, r, k, todo, stages, taken) && taken <= x < |todo|
    ensures |stages| == |todo| && HasId(b, Id(k, todo[x])) && StageOk(b, v, Id(k, todo[x]), stages[x])
  {
  }

  /** A queued worker may send its argument vector. */
  lemma MaySend(b: PlanBody, v: View, r: Receipt, k: nat, todo: seq<nat>, stages: seq<Stage>, taken: nat, x: nat)
    requires k < |b.phases| && Pooled(b, v, r, k, todo, stages, taken) && taken <= x < |todo| && stages[x].Queued?
    ensures StepOk(b, v, Command(Apply, Id(k, todo[x])))
    ensures StageOk(b, After(b, v, Command(Apply, Id(k, todo[x]))), Id(k, todo[x]), ArgvSent)
  {
    hide PhaseChecked, EarlierDone, ChecksPassed;
    assert Submitted(b, v, r, Id(k, todo[x])) && StageOk(b, v, Id(k, todo[x]), stages[x]);
  }

  /** A worker whose argument vector succeeded may send its verification. */
  lemma MayVerify(b: PlanBody, v: View, r: Receipt, k: nat, todo: seq<nat>, stages: seq<Stage>, taken: nat, x: nat)
    requires k < |b.phases| && Pooled(b, v, r, k, todo, stages, taken) && taken <= x < |todo| && stages[x].VerifyDue?
    ensures StepOk(b, v, Command(Verify, Id(k, todo[x])))
    ensures StageOk(b, After(b, v, Command(Verify, Id(k, todo[x]))), Id(k, todo[x]), VerifySent)
  {
    hide PhaseChecked, EarlierDone, ChecksPassed;
    assert StageOk(b, v, Id(k, todo[x]), stages[x]);
  }

  lemma OnlyThisKey(b: PlanBody, id: Id)
    requires ValidBody(b) && HasId(b, id)
    ensures forall other | HasId(b, other) && other.phase == id.phase && KeyOf(b, other) == KeyOf(b, id) :: other == id
  {
    forall other | HasId(b, other) && other.phase == id.phase && KeyOf(b, other) == KeyOf(b, id) ensures other == id {
      SameKeySamePhase(b, other, id);
    }
  }

  lemma TakeSaves(b: PlanBody, v: View, r: Receipt, id: Id, s: Stage, q: Receipt)
    requires s.Done? && StageOk(b, v, id, s) && Submitted(b, v, r, id) && v.disk == Some(r) && !r.complete
    requires q == r.(actions := r.actions[KeyOf(b, id) := s.state])
    ensures SaveOk(b, v, q)
  {
    forall any ensures MoveOk(b, v, any, StateOf(r.actions, any), StateOf(q.actions, any)) {
      if any == KeyOf(b, id) && s.state == Succeeded {
        assert id in v.begun * v.confirmed;
      }
    }
  }

  lemma InPhaseAfterTake(b: PlanBody, v: View, r: Receipt, k: nat, id: Id, s: ActionState, q: Receipt)
    requires ValidBody(b) && k < |b.phases| && InPhase(b, v, r, k) && v.disk == Some(r) && PhaseChecked(b, v, k)
    requires HasId(b, id) && id.phase == k && ChecksPassed(b, v, id)
    requires q == r.(actions := r.actions[KeyOf(b, id) := s]) && SaveOk(b, v, q)
    ensures InPhase(b, After(b, v, Saved(q)), q, k) && PhaseChecked(b, After(b, v, Saved(q)), k)
  {
    var w := After(b, v, Saved(q));
    OnlyThisKey(b, id);
    EarlierDoneStays(b, v, Saved(q), k);
    assert KeyOf(b, Id(k, id.action)) in PhaseKeys(b, k);
    forall other | HasId(b, other) && other.phase == k && ChecksPassed(b, v, other) ensures ChecksPassed(b, w, other) {
      ChecksKept(b, v, Saved(q), other);
    }
  }

  /** A sibling in the same phase does not notice the save. */
  lemma SiblingAfterTake(b: PlanBody, v: View, r: Receipt, id: Id, other: Id, s: ActionState, q: Receipt)
    requires ValidBody(b) && HasId(b, id) && HasId(b, other) && id.phase == other.phase && id != other
    requires q == r.(actions := r.actions[KeyOf(b, id) := s])
    ensures StateOf(q.actions, KeyOf(b, other)) == StateOf(r.actions, KeyOf(b, other))
    ensures Submitted(b, v, r, other) ==> Submitted(b, After(b, v, Saved(q)), q, other)
    ensures Settled(b, v, r, other) ==> Settled(b, After(b, v, Saved(q)), q, other)
  {
    OnlyThisKey(b, id);
    if ChecksPassed(b, v, other) {
      ChecksKept(b, v, Saved(q), other);
    }
  }

  /** Taking the next finished result: its state may be saved, and the pool goes on. */
  lemma PooledAfterTake(b: PlanBody, v: View, r: Receipt, k: nat, todo: seq<nat>, stages: seq<Stage>, taken: nat, q: Receipt)
    requires ValidBody(b)
    requires k < |b.phases| && Pooled(b, v, r, k, todo, stages, taken)
    requires taken < |todo| && stages[taken].Done?
    requires q == r.(actions := r.actions[KeyOf(b, Id(k, todo[taken])) := stages[taken].state])
    ensures SaveOk(b, v, q)
    ensures Pooled(b, After(b, v, Saved(q)), q, k, todo, stages, taken + 1)
  {
    var id := Id(k, todo[taken]);
    var w := After(b, v, Saved(q));
    assert !r.complete;
    hide InPhase, PhaseChecked, SaveOk, ValidBody, ChecksPassed, StageOk, Submitted, Settled;
    TakeSaves(b, v, r, id, stages[taken], q);
    InPhaseAfterTake(b, v, r, k, id, stages[taken].state, q);
    forall x | 0 <= x < |todo|
      ensures StageOk(b, w, Id(k, todo[x]), stages[x]) && ChecksPassed(b, w, Id(k, todo[x]))
    {
      ChecksKept(b, v, Saved(q), Id(k, todo[x]));
      StageKept(b, v, Saved(q), Id(k, todo[x]), stages[x]);
    }
    forall x | 0 <= x < |todo| && x != taken
      ensures StateOf(q.actions, KeyOf(b, Id(k, todo[x]))) == StateOf(r.actions, KeyOf(b, Id(k, todo[x])))
      ensures x > taken ==> Submitted(b, w, q, Id(k, todo[x]))
    {
      SiblingAfterTake(b, v, r, id, Id(k, todo[x]), stages[taken].state, q);
    }
    forall j | 0 <= j < |b.phases[k].actions| && j !in todo ensures Settled(b, w, q, Id(k, j)) && Id(k, j) !in w.begun {
      SiblingAfterTake(b, v, r, id, Id(k, j), stages[taken].state, q);
    }
  }

  /** A broken worker got no reply, so not every reply was as asked or a refusal. */
  lemma BrokenIsNotClean(b: PlanBody, v: View, r: Receipt, k: nat, todo: seq<nat>, stages: seq<Stage>, taken: nat, x: nat)
    requires k < |b.phases| && Pooled(b, v, r, k, todo, stages, taken)
    requires x < |stages| && stages[x].Broke?
    ensures !v.clean
  {
    assert StageOk(b, v, Id(k, todo[x]), stages[x]);
  }

  /** When every result was taken and every reply was as asked or a refusal, nothing is left
      unknown. */
  lemma PooledLeavesNothingUnknown(b: PlanBody, v: View, r: Receipt, k: nat, todo: seq<nat>, stages: seq<Stage>)
    requires k < |b.phases| && Pooled(b, v, r, k, todo, stages, |todo|) && v.clean && NothingUnknown(b, v.baseline)
    ensures NothingUnknown(b, r.actions)
  {
    forall i | 0 <= i < |b.phases[k].actions| ensures !Blocked(StateOf(r.actions, KeyOf(b, Id(k, i)))) {
      if i in todo {
        var x :| 0 <= x < |todo| && todo[x] == i;
        assert StageOk(b, v, Id(k, todo[x]), stages[x]);
      } else {
        assert Settled(b, v, r, Id(k, i));
      }
    }
  }

  /** When every result was taken and succeeded, the next phase may start. */
  lemma PooledToNextPhase(b: PlanBody, v: View, r: Receipt, k: nat, todo: seq<nat>, stages: seq<Stage>)
    requires k < |b.phases| && Pooled(b, v, r, k, todo, stages, |todo|)
    requires forall x | 0 <= x < |todo| :: stages[x] == Done(Succeeded)
    ensures AtPhase(b, v, r, k + 1)
  {
    forall i | 0 <= i < |b.phases[k].actions| ensures Settled(b, v, r, Id(k, i)) {
      if i in todo {
        var x :| 0 <= x < |todo| && todo[x] == i;
        assert StageOk(b, v, Id(k, todo[x]), stages[x]);
      }
    }
    forall id | HasId(b, id) && id.phase < k + 1
      ensures id in v.confirmed && StateOf(r.actions, KeyOf(b, id)) == Some(Succeeded)
    {
      if id.phase == k {
        assert Settled(b, v, r, Id(k, id.action));
      }
    }
    forall key | key in PhaseKeys(b, k) ensures StateOf(r.actions, key) == Some(Succeeded) {
    }
  }
}
