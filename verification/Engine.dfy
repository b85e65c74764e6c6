/** The plan executor: phases with preflight, resumable receipts and a worker pool.
    The runner, the thread schedule and the moment of a crash are parameters. */
module Engine {
  import opened Wrappers
  import opened Plan
  import opened EngineTrace
  import opened EngineSteps
  import opened EngineOutcomes

  datatype Options = Options(
    resume: bool,
    allowDriverReload: bool,
    allowModelActions: bool,
    allowHardwareTests: bool)

  /** Everything outside the controller during one invocation. `run` answers a command,
      `pick` chooses which pool worker or pending result moves next, and a crash
      happens before observable step number `crashAt`, if any. */
  datatype World = World(
    run: (nat, string, seq<string>) -> Reply,
    pick: nat -> nat,
    crashAt: Option<nat>,
    time: int)

  datatype Refusal =
    | InvalidPlan(error: PlanError)
    | NotApproved
    | NotAuthorized(id: Id)
    | ReceiptExists
    | OtherPlan
    | NothingToResume

  datatype Outcome =
    | Refused(why: Refusal)
    | Stopped  // an error was raised after the receipt was opened
    | Crashed
    | Completed(receipt: Receipt)

  datatype Progress = Proceed | Halt(outcome: Outcome)

  predicate Permitted(risk: Risk, options: Options) {
    && (risk == DriverReload ==> options.allowDriverReload)
    && (risk == StartsModel || risk == StopsModel ==> options.allowModelActions)
    && (risk == HardwareTest ==> options.allowHardwareTests)
  }

  ghost predicate Authorized(body: PlanBody, options: Options) {
    forall id | HasId(body, id) :: Permitted(ActionOf(body, id).risk, options)
  }

  /** A risk that needs an authorization which the caller did not give. */
  predicate Lacks(risk: Risk, options: Options) {
    match risk
    case DriverReload => !options.allowDriverReload
    case StartsModel => !options.allowModelActions
    case StopsModel => !options.allowModelActions
    case HardwareTest => !options.allowHardwareTests
    case _ => false
  }

  /** A world in which nothing crashes and every command does what its plan asks. */
  ghost predicate Cooperative(world: World, body: PlanBody) {
    && world.crashAt.None?
    && forall id, check, t: nat | HasId(body, id) && Asks(ActionOf(body, id), check) ::
         Verified(world.run(t, ActionOf(body, id).host, check.argv), check)
  }

  /** The checks an action's plan entry asks for. */
  predicate Asks(action: Action, check: Check) {
    check in action.checks || check == RecheckOf(action) || check == Check(action.argv, None, None)
  }

  lemma CooperativeAnswers(world: World, body: PlanBody, id: Id, check: Check, t: nat)
    requires Cooperative(world, body) && HasId(body, id) && Asks(ActionOf(body, id), check)
    ensures Verified(world.run(t, ActionOf(body, id).host, check.argv), check)
  {
  }

  /** The action states an invocation finds. */
  function FoundIn(disk: Option<Receipt>): map<string, ActionState> {
    if disk.None? then map[] else disk.value.actions
  }

  /** An invocation after which everything is recorded as succeeded found no unknown outcome. */
  lemma DoneFoundNothingUnknown(body: PlanBody, disk: Option<Receipt>, trace: seq<Event>, start: nat,
                                actions: map<string, ActionState>)
    requires TraceOk(body, disk, trace) && start < |trace| && trace[start].Opened?
    requires ViewOf(body, disk, trace).disk.Some? && ViewOf(body, disk, trace).disk.value.actions == actions
    requires forall id | HasId(body, id) :: StateOf(actions, KeyOf(body, id)) == Some(Succeeded)
    ensures NothingUnknown(body, trace[start].receipt.actions)
  {
    assert trace[..|trace|] == trace;
    forall id | HasId(body, id) ensures !Blocked(StateOf(trace[start].receipt.actions, KeyOf(body, id))) {
      if Blocked(StateOf(trace[start].receipt.actions, KeyOf(body, id))) {
        UnknownIsFinal(body, disk, trace, start, |trace|, id);
        assert false;
      }
    }
  }

  class Controller {
    var disk: Option<Receipt>  // the receipt file
    var receipt: Receipt  // the receipt in memory; meaningless between invocations
    var clock: nat  // observable steps of the current invocation
    const initial: Option<Receipt>  // the receipt file this history starts from
    ghost var body: PlanBody  // the plan the receipt belongs to
    ghost var trace: seq<Event>
    ghost var view: View
    ghost var from: nat  // where the current invocation starts in the history
    ghost var runner: (nat, string, seq<string>) -> Reply  // its command runner

    ghost predicate Valid()
      reads this
    {
      && view == ViewOf(body, initial, trace)
      && view.disk == disk
      && TraceOk(body, initial, trace)
      && AllAnswered(body, runner, trace, from)
      && (trace == [] ==> disk == initial)
      && (trace != [] ==> ValidBody(body) && disk.Some? && disk.value.plan == Sha256(body))
    }

    constructor (initial: Option<Receipt>)
      ensures Valid() && disk == initial && this.initial == initial && trace == []
    {
      this.initial := initial;
      disk := initial;
      receipt := Receipt(OtherText(""), map[], false, None, None);
      clock := 0;
      body := PlanBody("", "", []);
      trace := [];
      view := Start(initial);
      from := 0;
      runner := (_, _, _) => Raised;
    }

    /** One more observable event. */
    ghost method Emit(e: Event)
      requires Valid() && trace != [] && StepOk(body, view, e) && !e.Opened? && !e.Saved?
      requires Answers(body, runner, e)
      modifies `trace, `view
      ensures Valid() && trace == old(trace) + [e] && view == After(body, old(view), e)
    {
      hide ViewOf, TraceOk, ValidBody, Answers;
      Snoc(body, initial, trace, e);
      trace := trace + [e];
      view := After(body, view, e);
    }

    /** Replace the receipt file by the receipt in memory. */
    method Save()
      requires Valid() && trace != [] && SaveOk(body, view, receipt)
      modifies `disk, `trace, `view
      ensures Valid() && disk == Some(receipt)
      ensures trace == old(trace) + [Saved(receipt)] && view == After(body, old(view), Saved(receipt))
    {
      hide ViewOf, TraceOk, ValidBody;
      Snoc(body, initial, trace, Saved(receipt));
      disk := Some(receipt);
      trace := trace + [Saved(receipt)];
      view := After(body, view, Saved(receipt));
    }

    /** Does the controller survive until its next observable step? */
    method Alive(world: World) returns (alive: bool)
      modifies `clock
      ensures world.crashAt.None? ==> alive
    {
      alive := world.crashAt.None? || clock < world.crashAt.value;
      clock := clock + 1;
    }

    /** Send one command and wait for its reply. */
    method Run(b: PlanBody, purpose: Purpose, id: Id, check: Check, world: World) returns (reply: Reply, ok: bool)
      requires b == body && Valid() && trace != [] && world.run == runner
      requires CommandOk(body, view, purpose, id)
      requires match purpose
               case Preflight(n) => check == ActionOf(b, id).checks[n]
               case Recheck => check == RecheckOf(ActionOf(b, id))
               case _ => false
      modifies `trace, `view
      ensures Valid() && trace == old(trace) + [Command(purpose, id), Result(purpose, id, reply)]
      ensures view == After(body, After(body, old(view), Command(purpose, id)), Result(purpose, id, reply))
      ensures reply == world.run(clock, ActionOf(body, id).host, check.argv) && ok == Passes(b, purpose, id, reply)
      ensures Cooperative(world, b) ==> ok
    {
      hide ViewOf, TraceOk, AllAnswered, ValidBody;
      if Cooperative(world, b) {
        CooperativeAnswers(world, b, id, check, clock);
      }
      reply := world.run(clock, ActionOf(b, id).host, check.argv);
      ok := Verified(reply, check);
      AnsweredAt(b, runner, purpose, id, reply, clock);
      Emit(Command(purpose, id));
      Emit(Result(purpose, id, reply));
    }

    ghost predicate Ready(b: PlanBody)
      reads this
    {
      Valid() && trace != [] && b == body && ValidBody(b)
    }

    /** Nothing of the history is lost and the same invocation goes on. */
    ghost predicate Continues(v: View, t: seq<Event>)
      reads this
    {
      t <= trace && view.baseline == v.baseline && (view.clean ==> v.clean)
    }

    /** If all replies so far were as asked or refusals, what was not unknown when the
        invocation started is not unknown on disk. */
    ghost predicate Recoverable(b: PlanBody)
      reads this
    {
      view.clean && NothingUnknown(b, view.baseline) ==> disk.Some? && NothingUnknown(b, disk.value.actions)
    }

    /** Run every check of every unfinished action of the phase; stop at a prior outcome
        that is not known. */
    method RunChecks(b: PlanBody, k: nat, world: World) returns (p: Progress)
      requires Ready(b) && k < |b.phases| && AtPhase(b, view, receipt, k)
      requires world.run == runner
      modifies `receipt, `disk, `clock, `trace, `view
      ensures Ready(b) && Continues(old(view), old(trace))
      ensures p.Proceed? ==> AtPhase(b, view, receipt, k) && PhaseChecked(b, view, k)
      ensures p.Proceed? ==> NoneBlocked(b, receipt, k, |b.phases[k].actions|)
      ensures p.Halt? ==> p.outcome.Crashed? || (p.outcome.Stopped? && Recoverable(b))
      ensures Cooperative(world, b) && NothingUnknown(b, old(view).baseline) ==> p.Proceed?
    {
      hide ViewOf, TraceOk, AllAnswered, ValidBody;
      var actions := b.phases[k].actions;
      for i := 0 to |actions|
        invariant Ready(b) && AtPhase(b, view, receipt, k) && Continues(old(view), old(trace))
        invariant NoneBlocked(b, receipt, k, i)
        invariant forall j | 0 <= j < i ::
                    ChecksPassed(b, view, Id(k, j)) || StateOf(receipt.actions, KeyOf(b, Id(k, j))) == Some(Succeeded)
      {
        var id := Id(k, i);
        if Blocked(StateOf(receipt.actions, KeyOf(b, id))) {
          return Halt(Stopped);
        }
        if StateOf(receipt.actions, KeyOf(b, id)) != Some(Succeeded) {
          OneOfThree(StateOf(receipt.actions, KeyOf(b, id)));
          p := CheckOne(b, k, i, world);
          if p.Halt? {
            return;
          }
        }
      }
      return Proceed;
    }

    /** Save why this invocation stops. Actions recorded as running in memory are saved
        as running too, although they were never sent. */
    method RecordFailure(b: PlanBody, k: nat, purpose: Purpose, id: Id, stage: string)
      requires Ready(b) && k < |b.phases| && InPhase(b, view, receipt, k) && HasId(b, id)
      requires (purpose, id) in view.missed && StageName(purpose, stage)
      modifies `receipt, `disk, `trace, `view
      ensures Ready(b) && Continues(old(view), old(trace))
      ensures disk == Some(old(receipt).(failure := Some(Failure(KeyOf(b, id), stage))))
      ensures view == After(b, old(view), Saved(receipt))
    {
      hide ViewOf, TraceOk, AllAnswered, ValidBody;
      ghost var memory := receipt;
      receipt := receipt.(failure := Some(Failure(KeyOf(b, id), stage)));
      InPhaseSaves(b, view, memory, k, receipt);
      Save();
    }

    /** Run check number `c` of one action. */
    method OneCheck(b: PlanBody, k: nat, i: nat, c: nat, world: World) returns (p: Progress)
      requires Ready(b) && k < |b.phases| && i < |b.phases[k].actions| && AtPhase(b, view, receipt, k)
      requires world.run == runner
      requires c < |b.phases[k].actions[i].checks| && Open(StateOf(receipt.actions, KeyOf(b, Id(k, i))))
      modifies `receipt, `disk, `clock, `trace, `view
      ensures Ready(b) && Continues(old(view), old(trace))
      ensures p.Proceed? ==> AtPhase(b, view, receipt, k) && receipt == old(receipt)
      ensures p.Proceed? ==> view.passed == old(view).passed + {(Preflight(c), Id(k, i))}
      ensures p == Halt(Stopped) ==>
                || trace[|trace| - 1] == Result(Preflight(c), Id(k, i), Raised)
                || (disk.Some? && disk.value.failure == Some(Failure(KeyOf(b, Id(k, i)), "preflight")))
      ensures p.Halt? ==> p.outcome.Crashed? || (p.outcome.Stopped? && Recoverable(b))
      ensures Cooperative(world, b) ==> p.Proceed?
    {
      hide ViewOf, TraceOk, AllAnswered, ValidBody;
      var alive := Alive(world);
      if !alive {
        return Halt(Crashed);
      }
      ghost var before := view;
      var reply, ok := Run(b, Preflight(c), Id(k, i), b.phases[k].actions[i].checks[c], world);
      AtPhaseAfterCheck(b, before, receipt, k, Preflight(c), Id(k, i), reply);
      if reply.Raised? {
        return Halt(Stopped);
      }
      if !ok {
        RecordFailure(b, k, Preflight(c), Id(k, i), "preflight");
        return Halt(Stopped);
      }
      return Proceed;
    }

    /** Run the checks of one action in order. */
    method CheckOne(b: PlanBody, k: nat, i: nat, world: World) returns (p: Progress)
      requires Ready(b) && k < |b.phases| && i < |b.phases[k].actions| && AtPhase(b, view, receipt, k)
      requires world.run == runner
      requires Open(StateOf(receipt.actions, KeyOf(b, Id(k, i))))
      modifies `receipt, `disk, `clock, `trace, `view
      ensures Ready(b) && Continues(old(view), old(trace))
      ensures p.Proceed? ==> AtPhase(b, view, receipt, k) && receipt == old(receipt) && ChecksPassed(b, view, Id(k, i))
      ensures p.Proceed? ==> old(view).passed <= view.passed
      ensures p.Halt? ==> p.outcome.Crashed? || (p.outcome.Stopped? && Recoverable(b))
      ensures Cooperative(world, b) ==> p.Proceed?
    {
      hide ViewOf, TraceOk, AllAnswered, ValidBody;
      var checks := b.phases[k].actions[i].checks;
      for c := 0 to |checks|
        invariant Ready(b) && AtPhase(b, view, receipt, k) && Continues(old(view), old(trace))
        invariant receipt == old(receipt) && old(view).passed <= view.passed
        invariant forall n | 0 <= n < c :: (Preflight(n), Id(k, i)) in view.passed
      {
        p := OneCheck(b, k, i, c, world);
        if p.Halt? {
          return;
        }
      }
      return Proceed;
    }

    /** Save the actions recorded as running so far. */
    method SaveSorted(b: PlanBody, k: nat, i: nat, ghost todo: seq<nat>, world: World) returns (p: Progress)
      requires Ready(b) && k < |b.phases| && i <= |b.phases[k].actions| && Sorted(b, view, receipt, k, i, todo)
      requires world.run == runner
      modifies `disk, `clock, `trace, `view
      ensures Ready(b) && Continues(old(view), old(trace))
      ensures p.Proceed? ==> disk == Some(receipt) && Sorted(b, view, receipt, k, i, todo)
      ensures p.Halt? ==> p.outcome.Crashed?
      ensures world.crashAt.None? ==> p.Proceed?
    {
      hide ViewOf, TraceOk, AllAnswered, ValidBody, EarlierDone;
      var alive := Alive(world);
      if !alive {
        return Halt(Crashed);
      }
      SortedAfterSave(b, view, receipt, k, i, todo);
      Save();
      return Proceed;
    }

    /** Verify again an action that an earlier invocation completed. */
    method RecheckOne(b: PlanBody, k: nat, i: nat, ghost todo: seq<nat>, world: World) returns (p: Progress)
      requires Ready(b) && k < |b.phases| && i < |b.phases[k].actions| && Sorted(b, view, receipt, k, i, todo)
      requires world.run == runner
      requires StateOf(receipt.actions, KeyOf(b, Id(k, i))) == Some(Succeeded)
      modifies `receipt, `disk, `clock, `trace, `view
      ensures Ready(b) && Continues(old(view), old(trace))
      ensures p.Proceed? ==> Sorted(b, view, receipt, k, i + 1, todo)
      ensures p == Halt(Stopped) ==>
                || trace[|trace| - 1] == Result(Recheck, Id(k, i), Raised)
                || (disk.Some? && disk.value.failure == Some(Failure(KeyOf(b, Id(k, i)), "resume_verification")))
      ensures p.Halt? ==> p.outcome.Crashed? || (p.outcome.Stopped? && Recoverable(b))
      ensures Cooperative(world, b) ==> p.Proceed?
    {
      hide ViewOf, TraceOk, AllAnswered, ValidBody, CommandOk, Sorted, InPhase;
      var id := Id(k, i);
      var alive := Alive(world);
      if !alive {
        return Halt(Crashed);
      }
      ghost var before := view;
      MayRecheck(b, before, receipt, k, i, todo);
      var reply, ok := Run(b, Recheck, id, RecheckOf(b.phases[k].actions[i]), world);
      SortedAfterRecheck(b, before, receipt, k, i, todo, reply);
      if reply.Raised? {
        return Halt(Stopped);
      }
      if !ok {
        RecordFailure(b, k, Recheck, id, "resume_verification");
        return Halt(Stopped);
      }
      p := SaveSorted(b, k, i + 1, todo, world);
    }

    /** Recheck what already succeeded, record the rest as running, and save that before
        anything is sent. */
    method Submit(b: PlanBody, k: nat, world: World) returns (p: Progress, todo: seq<nat>)
      requires Ready(b) && k < |b.phases| && AtPhase(b, view, receipt, k) && PhaseChecked(b, view, k)
      requires world.run == runner
      requires NoneBlocked(b, receipt, k, |b.phases[k].actions|)
      modifies `receipt, `disk, `clock, `trace, `view
      ensures Ready(b) && Continues(old(view), old(trace))
      ensures p.Proceed? ==> disk == Some(receipt) && Sorted(b, view, receipt, k, |b.phases[k].actions|, todo)
      ensures p.Halt? ==> p.outcome.Crashed? || (p.outcome.Stopped? && Recoverable(b))
      ensures Cooperative(world, b) ==> p.Proceed?
    {
      hide ViewOf, TraceOk, AllAnswered, ValidBody, AtPhase, Sorted, PhaseChecked;
      var actions := b.phases[k].actions;
      todo := [];
      SortedAtStart(b, view, receipt, k);
      for i := 0 to |actions|
        invariant Ready(b) && Continues(old(view), old(trace))
        invariant Sorted(b, view, receipt, k, i, todo)
      {
        var key := KeyOf(b, Id(k, i));
        if StateOf(receipt.actions, key) == Some(Succeeded) {
          p := RecheckOne(b, k, i, todo, world);
          if p.Halt? {
            return;
          }
        } else {
          SortedAfterMark(b, view, receipt, k, i, todo);
          receipt := receipt.(actions := receipt.actions[key := Running]);
          todo := todo + [i];
        }
      }
      p := SaveSorted(b, k, |actions|, todo, world);
    }
  
    /** What a worker makes of its reply: only an action that changes nothing may have
        failed; any other error leaves the outcome uncertain. */
    static function Judge(action: Action, reply: Reply): (s: Stage)
      ensures s != Queued && s != ArgvSent && s != VerifySent
    {
      if reply.Raised? then Broke
      else if reply.uncertain then Done(Uncertain)
      else if reply.returncode != 0 then Done(if action.risk == ReadOnly then Failed else Uncertain)
      else if action.verify.Some? then VerifyDue
      else Done(Succeeded)
    }

    static lemma Judged(b: PlanBody, v: View, id: Id, reply: Reply)
      requires StageOk(b, v, id, ArgvSent)
      ensures StepOk(b, v, Result(Apply, id, reply))
      ensures StageOk(b, After(b, v, Result(Apply, id, reply)), id, Judge(ActionOf(b, id), reply))
    {
    }

    /** What a worker makes of the reply to its verification. */
    static function JudgeVerification(check: Check, reply: Reply): (s: Stage)
      ensures s.Done? || s.Broke?
    {
      if reply.Raised? then Broke else Done(if Verified(reply, check) then Succeeded else Uncertain)
    }

    static lemma VerificationJudged(b: PlanBody, v: View, id: Id, reply: Reply)
      requires StageOk(b, v, id, VerifySent)
      ensures StepOk(b, v, Result(Verify, id, reply))
      ensures StageOk(b, After(b, v, Result(Verify, id, reply)), id, JudgeVerification(ActionOf(b, id).verify.value, reply))
    {
    }

    /** The next step of one worker: send the argument vector, receive its reply, send the
        verification, or receive its reply. */
    method StepWorker(b: PlanBody, k: nat, todo: seq<nat>, stages: seq<Stage>, taken: nat, x: nat, world: World)
      returns (s: Stage)
      requires Ready(b) && k < |b.phases| && Pooled(b, view, receipt, k, todo, stages, taken)
      requires world.run == runner
      requires taken <= x < |todo| && !stages[x].Done? && !stages[x].Broke?
      modifies `trace, `view
      ensures Ready(b) && Continues(old(view), old(trace))
      ensures Pooled(b, view, receipt, k, todo, stages[x := s], taken)
      ensures Rank(s) < Rank(stages[x])
      ensures Cooperative(world, b) ==> !s.Broke? && (s.Done? ==> s.state == Succeeded)
    {
      hide ViewOf, TraceOk, AllAnswered, ValidBody, InPhase, PhaseChecked, EarlierDone, StepOk, Cooperative, Pooled;
      var id := Id(k, todo[x]);
      EntryOf(b, view, receipt, k, todo, stages, taken, x);
      var action := ActionOf(b, id);
      ghost var e: Event;
      match stages[x] {
        case Queued =>
          MaySend(b, view, receipt, k, todo, stages, taken, x);
          s, e := ArgvSent, Command(Apply, id);
        case ArgvSent =>
          var reply := world.run(clock, action.host, action.argv);
          if Cooperative(world, b) {
            CooperativeAnswers(world, b, id, Check(action.argv, None, None), clock);
          }
          Judged(b, view, id, reply);
          AnsweredAt(b, runner, Apply, id, reply, clock);
          s, e := Judge(action, reply), Result(Apply, id, reply);
        case VerifyDue =>
          MayVerify(b, view, receipt, k, todo, stages, taken, x);
          s, e := VerifySent, Command(Verify, id);
        case VerifySent =>
          var check := action.verify.value;
          var reply := world.run(clock, action.host, check.argv);
          if Cooperative(world, b) {
            CooperativeAnswers(world, b, id, check, clock);
          }
          VerificationJudged(b, view, id, reply);
          AnsweredAt(b, runner, Verify, id, reply, clock);
          s, e := JudgeVerification(check, reply), Result(Verify, id, reply);
      }
      PooledAfterMove(b, view, receipt, k, todo, stages, taken, x, e, s);
      Emit(e);
    }

    /** Save the next finished result. */
    method TakeResult(b: PlanBody, k: nat, todo: seq<nat>, stages: seq<Stage>, taken: nat)
      requires Ready(b) && k < |b.phases| && Pooled(b, view, receipt, k, todo, stages, taken)
      requires taken < |todo| && stages[taken].Done?
      modifies `receipt, `disk, `trace, `view
      ensures Ready(b) && Continues(old(view), old(trace))
      ensures Pooled(b, view, receipt, k, todo, stages, taken + 1)
    {
      hide ViewOf, TraceOk, AllAnswered, ValidBody, InPhase, PhaseChecked, EarlierDone, StageOk;
      ghost var memory := receipt;
      receipt := receipt.(actions := receipt.actions[KeyOf(b, Id(k, todo[taken])) := stages[taken].state]);
      PooledAfterTake(b, view, memory, k, todo, stages, taken, receipt);
      Save();
    }

    /** One move of the pool: a worker proceeds, or the controller takes its next result. */
    method MovePool(b: PlanBody, k: nat, todo: seq<nat>, stages: seq<Stage>, taken: nat, world: World)
      returns (p: Progress, next: seq<Stage>, done: nat)
      requires Ready(b) && k < |b.phases| && Pooled(b, view, receipt, k, todo, stages, taken) && taken < |todo|
      requires world.run == runner
      modifies `receipt, `disk, `clock, `trace, `view
      ensures Ready(b) && Continues(old(view), old(trace))
      ensures p.Proceed? ==> Pooled(b, view, receipt, k, todo, next, done)
      ensures p.Proceed? ==> PoolWork(next) - done < PoolWork(stages) - taken
      ensures p.Halt? ==> p.outcome.Crashed? || (p.outcome.Stopped? && Recoverable(b))
      ensures Cooperative(world, b) && Smooth(stages) ==> p.Proceed? && Smooth(next)
    {
      hide ViewOf, TraceOk, AllAnswered, ValidBody, InPhase, PhaseChecked, EarlierDone, StageOk, Smooth;
      next, done := stages, taken;
      var alive := Alive(world);
      if !alive {
        return Halt(Crashed), next, done;
      }
      var x := world.pick(clock);
      if x < taken || x >= |todo| || stages[x].Done? || stages[x].Broke? {
        x := taken;  // no worker moves there; the controller looks at its next result
      }
      if stages[x].Broke? {
        // The controller sees the exception: queued siblings are cancelled, sent ones finish unrecorded.
        SmoothUpdate(stages, x, stages[x]);
        BrokenIsNotClean(b, view, receipt, k, todo, stages, taken, x);
        p := Drain(b, k, todo, stages, taken, world);
      } else if stages[x].Done? {
        TakeResult(b, k, todo, stages, taken);
        p, done := Proceed, taken + 1;
      } else {
        var s := StepWorker(b, k, todo, stages, taken, x, world);
        WorkUpdate(stages, x, s);
        SmoothUpdate(stages, x, s);
        p, next := Proceed, stages[x := s];
      }
    }

    /** Send the submitted actions and save each result in order. */
    method RunPool(b: PlanBody, k: nat, todo: seq<nat>, world: World) returns (p: Progress)
      requires Ready(b) && k < |b.phases| && disk == Some(receipt)
      requires world.run == runner
      requires Sorted(b, view, receipt, k, |b.phases[k].actions|, todo)
      modifies `receipt, `disk, `clock, `trace, `view
      ensures Ready(b) && Continues(old(view), old(trace))
      ensures p.Proceed? ==> AtPhase(b, view, receipt, k + 1)
      ensures p.Halt? ==> p.outcome.Crashed? || (p.outcome.Stopped? && Recoverable(b))
      ensures Cooperative(world, b) ==> p.Proceed?
    {
      hide ViewOf, TraceOk, AllAnswered, ValidBody, InPhase, PhaseChecked, EarlierDone, StageOk;
      var stages := seq(|todo|, _ => Queued);
      var taken: nat := 0;
      PooledAtStart(b, view, receipt, k, todo);
      while taken < |todo|
        invariant Ready(b) && Continues(old(view), old(trace))
        invariant Pooled(b, view, receipt, k, todo, stages, taken)
        invariant Cooperative(world, b) ==> Smooth(stages)
        decreases PoolWork(stages) + |todo| - taken
      {
        p, stages, taken := MovePool(b, k, todo, stages, taken, world);
        if p.Halt? {
          return;
        }
      }
      if exists x | 0 <= x < |todo| :: stages[x] != Done(Succeeded) {
        if view.clean && NothingUnknown(b, view.baseline) {
          PooledLeavesNothingUnknown(b, view, receipt, k, todo, stages);
        }
        return Halt(Stopped);
      }
      PooledToNextPhase(b, view, receipt, k, todo, stages);
      return Proceed;
    }

    /** After an exception the pool shuts down: workers that already sent something run to
        their end, and nothing they report is recorded. */
    method Drain(b: PlanBody, k: nat, todo: seq<nat>, stages: seq<Stage>, taken: nat, world: World) returns (p: Progress)
      requires Ready(b) && k < |b.phases| && Pooled(b, view, receipt, k, todo, stages, taken) && !view.clean
      requires world.run == runner
      modifies `clock, `trace, `view
      ensures Ready(b) && Continues(old(view), old(trace))
      ensures disk == old(disk)
      ensures p == Halt(Crashed) || (p == Halt(Stopped) && !view.clean)
    {
      hide ViewOf, TraceOk, AllAnswered, ValidBody, InPhase, PhaseChecked, EarlierDone, StageOk;
      var left := stages;
      for x := taken to |todo|
        invariant Ready(b) && Continues(old(view), old(trace)) && disk == old(disk)
        invariant Pooled(b, view, receipt, k, todo, left, taken)
      {
        while !left[x].Queued? && !left[x].Done? && !left[x].Broke?
          invariant Ready(b) && Continues(old(view), old(trace)) && disk == old(disk)
          invariant Pooled(b, view, receipt, k, todo, left, taken)
          decreases Rank(left[x])
        {
          var alive := Alive(world);
          if !alive {
            return Halt(Crashed);
          }
          var s := StepWorker(b, k, todo, left, taken, x, world);
          left := left[x := s];
        }
      }
      return Halt(Stopped);
    }

    /** One phase: preflight everywhere, then submit, then run. */
    method RunPhase(b: PlanBody, k: nat, world: World) returns (p: Progress)
      requires Ready(b) && k < |b.phases| && AtPhase(b, view, receipt, k)
      requires world.run == runner
      modifies `receipt, `disk, `clock, `trace, `view
      ensures Ready(b) && Continues(old(view), old(trace))
      ensures p.Proceed? ==> AtPhase(b, view, receipt, k + 1)
      ensures p.Halt? ==> p.outcome.Crashed? || (p.outcome.Stopped? && Recoverable(b))
      ensures Cooperative(world, b) && NothingUnknown(b, old(view).baseline) ==> p.Proceed?
    {
      hide ViewOf, TraceOk, AllAnswered, ValidBody;
      p := RunChecks(b, k, world);
      if p.Halt? {
        return;
      }
      var todo;
      p, todo := Submit(b, k, world);
      if p.Halt? {
        return;
      }
      p := RunPool(b, k, todo, world);
    }
  
    /** Find an action whose risk the caller did not authorize. */
    static method Authorize(b: PlanBody, options: Options) returns (missing: Option<Id>)
      ensures missing.None? <==> Authorized(b, options)
      ensures missing.Some? ==> HasId(b, missing.value) && Lacks(ActionOf(b, missing.value).risk, options)
    {
      for p := 0 to |b.phases|
        invariant forall id | HasId(b, id) && id.phase < p :: Permitted(ActionOf(b, id).risk, options)
      {
        for i := 0 to |b.phases[p].actions|
          invariant forall id | HasId(b, id) && (id.phase < p || (id.phase == p && id.action < i)) ::
                      Permitted(ActionOf(b, id).risk, options)
        {
          if !Permitted(b.phases[p].actions[i].risk, options) {
            assert HasId(b, Id(p, i)) && !Permitted(ActionOf(b, Id(p, i)).risk, options);
            return Some(Id(p, i));
          }
        }
      }
      return None;
    }

    /** Start an invocation: save the receipt as being in progress. */
    method OpenReceipt(b: PlanBody)
      requires Valid() && ValidBody(b) && (disk.Some? ==> disk.value.plan == Sha256(b)) && from == |trace|
      modifies `body, `receipt, `disk, `trace, `view
      ensures Ready(b) && AtPhase(b, view, receipt, 0)
      ensures trace == old(trace) + [Opened(receipt)]
      ensures view.baseline == receipt.actions == FoundIn(old(disk))
      ensures old(disk).Some? && old(disk).value.completedAt.Some? ==> receipt.completedAt == old(disk).value.completedAt
    {
      assert view == ViewOf(b, initial, trace) && TraceOk(b, initial, trace);
      hide ViewOf, TraceOk, ValidBody;
      body := b;
      if disk.Some? {
        receipt := disk.value;
        if receipt.complete && receipt.completedAt.None? {
          receipt := receipt.(completedAt := Some(None));
        }
        receipt := receipt.(complete := false);
      } else {
        receipt := Receipt(Sha256(b), map[], false, None, None);
      }
      Snoc(b, initial, trace, Opened(receipt));
      disk := Some(receipt);
      view := After(b, view, Opened(receipt));
      trace := trace + [Opened(receipt)];
    }

    /** Every phase passed: save the completion. */
    method Finish(b: PlanBody, time: int)
      requires Ready(b) && AtPhase(b, view, receipt, |b.phases|)
      modifies `receipt, `disk, `trace, `view
      ensures Ready(b) && disk == Some(receipt) && receipt.complete && Continues(old(view), old(trace))
      ensures forall id | HasId(b, id) :: StateOf(receipt.actions, KeyOf(b, id)) == Some(Succeeded)
      ensures receipt.completedAt ==
                if old(receipt).completedAt.Some? then old(receipt).completedAt else Some(Some(time))
    {
      hide ViewOf, TraceOk, AllAnswered, ValidBody;
      receipt := receipt.(complete := true, failure := None);
      if receipt.completedAt.None? {
        receipt := receipt.(completedAt := Some(Some(time)));
      }
      forall key ensures MoveOk(b, view, key, StateOf(disk.value.actions, key), StateOf(receipt.actions, key)) {
      }
      Save();
    }

    /** May this invocation start? */
    ghost predicate Acceptable(plan: Document, approval: Digest, options: Options, found: Option<Receipt>) {
      && ValidPlan(plan)
      && approval == plan.sha256
      && Authorized(plan.body, options)
      && (options.resume <==> found.Some?)
      && (found.Some? ==> found.value.plan == plan.sha256)
    }

    /** Apply one reviewed plan. A refused call changes nothing; otherwise the history is
        extended by rule-following events only, wherever the call stops. With a world that
        cooperates, the call completes exactly when no outcome was left unknown before. */
    method Execute(plan: Document, approval: Digest, options: Options, world: World) returns (outcome: Outcome)
      requires Valid()
      modifies this
      ensures Valid() && old(trace) <= trace
      ensures outcome.Refused? <==> !Acceptable(plan, approval, options, old(disk))
      ensures outcome.Refused? ==> disk == old(disk) && trace == old(trace)
      ensures outcome.Refused? ==> Reason(plan, approval, options, old(disk), outcome.why)
      ensures !outcome.Refused? ==> forall id | HasId(plan.body, id) :: !Lacks(ActionOf(plan.body, id).risk, options)
      ensures !outcome.Refused? && trace != old(trace) ==> body == plan.body
      ensures AllAnswered(plan.body, world.run, trace, |old(trace)|)
      ensures Earned(plan.body, outcome)
      ensures outcome.Completed? ==> NothingUnknown(plan.body, FoundIn(old(disk)))
      ensures Cooperative(world, plan.body) && Acceptable(plan, approval, options, old(disk)) ==>
                (outcome.Completed? <==> NothingUnknown(plan.body, FoundIn(old(disk))))
      ensures outcome.Stopped? && OnlyRefusals(plan.body, trace, |old(trace)|) && NothingUnknown(plan.body, FoundIn(old(disk))) ==>
                body == plan.body && disk.Some? && NothingUnknown(plan.body, disk.value.actions)
    {
      hide ViewOf, TraceOk, ValidBody, OnlyRefusals;
      clock, from, runner := 0, |trace|, world.run;
      var refusal := Review(plan, approval, options);
      if refusal.Some? {
        return Refused(refusal.value);
      }
      outcome := Perform(plan.body, world);
    }

    ghost predicate Earned(b: PlanBody, outcome: Outcome)
      reads this
    {
      outcome.Completed? ==>
        && disk == Some(outcome.receipt) && outcome.receipt.complete && outcome.receipt.plan == Sha256(b)
        && (forall id | HasId(b, id) :: StateOf(outcome.receipt.actions, KeyOf(b, id)) == Some(Succeeded))
    }

    /** Open the receipt, run the phases and save the completion. */
    method Perform(b: PlanBody, world: World) returns (outcome: Outcome)
      requires Valid() && ValidBody(b) && (disk.Some? ==> disk.value.plan == Sha256(b))
      requires from == |trace| && world.run == runner
      modifies `body, `receipt, `disk, `clock, `trace, `view
      ensures Valid() && old(trace) <= trace && (trace != old(trace) ==> body == b)
      ensures !outcome.Refused? && Earned(b, outcome)
      ensures outcome.Completed? ==> NothingUnknown(b, FoundIn(old(disk)))
      ensures Cooperative(world, b) && NothingUnknown(b, FoundIn(old(disk))) ==> outcome.Completed?
      ensures outcome.Stopped? && OnlyRefusals(b, trace, |old(trace)|) && NothingUnknown(b, FoundIn(old(disk))) ==>
                trace != old(trace) && disk.Some? && NothingUnknown(b, disk.value.actions)
    {
      hide ViewOf, TraceOk, AllAnswered, ValidBody, EarlierDone, AtPhase, NothingUnknown, OnlyRefusals;
      var alive := Alive(world);
      if !alive {
        return Crashed;
      }
      OpenReceipt(b);
      outcome := PassAll(b, |old(trace)|, world);
    }

    /** Run the phases of an opened receipt and save the completion. `start` is where the
        history says the receipt was opened. */
    method PassAll(b: PlanBody, ghost start: nat, world: World) returns (outcome: Outcome)
      requires Ready(b) && AtPhase(b, view, receipt, 0)
      requires world.run == runner
      requires start < |trace| && trace[start] == Opened(receipt) && view.baseline == receipt.actions
      modifies `receipt, `disk, `clock, `trace, `view
      ensures Ready(b) && old(trace) <= trace
      ensures !outcome.Refused? && Earned(b, outcome)
      ensures outcome.Completed? ==> NothingUnknown(b, old(receipt).actions)
      ensures Cooperative(world, b) && NothingUnknown(b, old(receipt).actions) ==> outcome.Completed?
      ensures outcome.Stopped? && OnlyRefusals(b, trace, start) && NothingUnknown(b, old(receipt).actions) ==>
                disk.Some? && NothingUnknown(b, disk.value.actions)
    {
      hide ViewOf, TraceOk, AllAnswered, ValidBody, EarlierDone, AtPhase, NothingUnknown, OnlyRefusals;
      var p := RunPhases(b, world);
      if p.Halt? {
        if p.outcome.Stopped? && OnlyRefusals(b, trace, start) {
          CleanSince(b, initial, trace, start, |trace|);
          assert trace[..|trace|] == trace;
        }
        return p.outcome;
      }
      var alive := Alive(world);
      if !alive {
        return Crashed;
      }
      Finish(b, world.time);
      DoneFoundNothingUnknown(b, initial, trace, start, receipt.actions);
      return Completed(receipt);
    }

    /** Why an invocation is refused: the first of the conditions, in this order, that it does not meet. */
    ghost predicate Reason(plan: Document, approval: Digest, options: Options, found: Option<Receipt>, why: Refusal) {
      && (why.InvalidPlan? <==> !ValidPlan(plan)) && (why.InvalidPlan? ==> IsDefect(plan, why.error))
      && (why.NotApproved? <==> ValidPlan(plan) && approval != plan.sha256)
      && (why.NotAuthorized? ==> ValidPlan(plan) && approval == plan.sha256
                                 && HasId(plan.body, why.id) && Lacks(ActionOf(plan.body, why.id).risk, options))
      && (why.ReceiptExists? ==> Authorized(plan.body, options) && found.Some? && !options.resume)
      && (why.OtherPlan? ==> Authorized(plan.body, options) && options.resume && found.Some? && found.value.plan != plan.sha256)
      && (why.NothingToResume? ==> Authorized(plan.body, options) && options.resume && found.None?)
    }

    /** Decide whether the invocation may start. */
    method Review(plan: Document, approval: Digest, options: Options) returns (refusal: Option<Refusal>)
      ensures refusal.None? <==> Acceptable(plan, approval, options, disk)
      ensures refusal.Some? ==> Reason(plan, approval, options, disk, refusal.value)
    {
      var error := ValidatePlan(plan);
      if error.Some? {
        return Some(InvalidPlan(error.value));
      }
      if approval != plan.sha256 {
        return Some(NotApproved);
      }
      var missing := Authorize(plan.body, options);
      if missing.Some? {
        return Some(NotAuthorized(missing.value));
      }
      if disk.Some? && !options.resume {
        return Some(ReceiptExists);
      }
      if disk.Some? && disk.value.plan != plan.sha256 {
        return Some(OtherPlan);
      }
      if disk.None? && options.resume {
        return Some(NothingToResume);
      }
      return None;
    }

    /** The phases in order, up to the first that does not pass. */
    method RunPhases(b: PlanBody, world: World) returns (p: Progress)
      requires Ready(b) && AtPhase(b, view, receipt, 0)
      requires world.run == runner
      modifies `receipt, `disk, `clock, `trace, `view
      ensures Ready(b) && Continues(old(view), old(trace))
      ensures p.Proceed? ==> AtPhase(b, view, receipt, |b.phases|)
      ensures p.Halt? ==> p.outcome.Crashed? || (p.outcome.Stopped? && Recoverable(b))
      ensures Cooperative(world, b) && NothingUnknown(b, old(view).baseline) ==> p.Proceed?
    {
      hide ViewOf, TraceOk, AllAnswered, ValidBody;
      for k := 0 to |b.phases|
        invariant Ready(b) && AtPhase(b, view, receipt, k) && Continues(old(view), old(trace))
      {
        hide AtPhase, NothingUnknown, Cooperative;
        p := RunPhase(b, k, world);
        if p.Halt? {
          return;
        }
      }
      return Proceed;
    }
  }

  /** One invocation of the executor, as a caller makes it. */
  datatype Call = Call(plan: Document, approval: Digest, options: Options, world: World)

  /** Any number of invocations on one receipt path, each with its own plan, options,
      replies, schedule and crash: however they go, every changing action's argument
      vector is sent at most once, always after a save that records it as running. */
  method RunHistory(initial: Option<Receipt>, calls: seq<Call>) returns (c: Controller)
    ensures fresh(c) && c.Valid() && c.initial == initial
    ensures forall m, n | 0 <= m < n < |c.trace| && RunsArgv(c.body, c.trace[m]) && RunsArgv(c.body, c.trace[n])
                          && c.trace[m].id == c.trace[n].id :: !Mutating(c.body, c.trace[m].id)
    ensures forall m | 0 <= m < |c.trace| && c.trace[m].Command? && c.trace[m].purpose.Apply? ::
              && HasId(c.body, c.trace[m].id)
              && DiskAt(c.body, initial, c.trace, m).Some?
              && StateOf(DiskAt(c.body, initial, c.trace, m).value.actions, KeyOf(c.body, c.trace[m].id)) == Some(Running)
  {
    c := new Controller(initial);
    for i := 0 to |calls|
      invariant fresh(c) && c.Valid() && c.initial == initial
    {
      var outcome := c.Execute(calls[i].plan, calls[i].approval, calls[i].options, calls[i].world);
    }
    forall m, n | 0 <= m < n < |c.trace| && RunsArgv(c.body, c.trace[m]) && RunsArgv(c.body, c.trace[n])
                  && c.trace[m].id == c.trace[n].id
      ensures !Mutating(c.body, c.trace[m].id)
    {
      AtMostOnce(c.body, initial, c.trace, m, n);
    }
    forall m | 0 <= m < |c.trace| && c.trace[m].Command? && c.trace[m].purpose.Apply?
      ensures && HasId(c.body, c.trace[m].id)
              && DiskAt(c.body, initial, c.trace, m).Some?
              && StateOf(DiskAt(c.body, initial, c.trace, m).value.actions, KeyOf(c.body, c.trace[m].id)) == Some(Running)
    {
      WriteAhead(c.body, initial, c.trace, m, m);
    }
  }

  /** A first invocation that stopped although every reply was as asked, or a certain error of
      an action that changes nothing, can be resumed: a second call with the same plan
      completes once every command does what its plan asks. `between` events are the history
      up to the end of the first. */
  method ResumeAfterRefusals(c: Controller, plan: Document, options: Options, first: World, second: World)
    returns (stopped: Outcome, outcome: Outcome, ghost between: nat)
    requires c.Valid() && c.Acceptable(plan, plan.sha256, options, c.disk)
    requires NothingUnknown(plan.body, FoundIn(c.disk)) && Cooperative(second, plan.body)
    modifies c
    ensures c.Valid() && |old(c.trace)| <= between <= |c.trace| && old(c.trace) <= c.trace
    ensures stopped.Stopped? && OnlyRefusals(plan.body, c.trace[..between], |old(c.trace)|) ==> outcome.Completed?
  {
    hide ViewOf, TraceOk, AllAnswered, OnlyRefusals, NothingUnknown, Cooperative;
    stopped := c.Execute(plan, plan.sha256, options, first);
    between := |c.trace|;
    ghost var soFar := c.trace;
    outcome := c.Execute(plan, plan.sha256, options.(resume := true), second);
    assert c.trace[..between] == soFar;
  }
}
