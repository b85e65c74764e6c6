/** What an observer of the deployment engine sees over its whole life: receipts
    written to disk and commands sent to hosts. The rules each event must follow
    are stated here, and every history-wide promise is derived from them. */
module EngineTrace {
  import opened Wrappers
  import opened Plan

  datatype ActionState = Running | Succeeded | Uncertain | Failed

  /** Which check stopped an invocation, as the receipt records it. */
  datatype Failure = Failure(action: string, stage: string)

  /** The durable record of one plan's execution. `completedAt` is absent, explicitly
      unknown (`Some(None)`), or a time. */
  datatype Receipt = Receipt(
    plan: Digest,
    actions: map<string, ActionState>,
    complete: bool,
    completedAt: Option<Option<int>>,
    failure: Option<Failure>)

  /** Action number `action` of phase number `phase`. */
  datatype Id = Id(phase: nat, action: nat)

  /** Why a command is sent: check number `n` before the phase mutates anything, the
      renewed verification of an already succeeded action, the action's own argument
      vector, or the verification right after it. */
  datatype Purpose = Preflight(n: nat) | Recheck | Apply | Verify

  datatype Event =
    | Opened(receipt: Receipt)  // an invocation starts by saving its receipt
    | Saved(receipt: Receipt)
    | Command(purpose: Purpose, id: Id)
    | Result(purpose: Purpose, id: Id, reply: Reply)

  predicate HasId(body: PlanBody, id: Id) {
    id.phase < |body.phases| && id.action < |body.phases[id.phase].actions|
  }

  function ActionOf(body: PlanBody, id: Id): Action
    requires HasId(body, id)
  {
    body.phases[id.phase].actions[id.action]
  }

  function KeyOf(body: PlanBody, id: Id): string
    requires HasId(body, id)
  {
    Key(body.phases[id.phase].id, ActionOf(body, id).host)
  }

  predicate Mutating(body: PlanBody, id: Id) {
    HasId(body, id) && ActionOf(body, id).risk != ReadOnly
  }

  /** Does this event send the action's own argument vector to its host? A recheck
      does so only when the action has no verification of its own. */
  predicate RunsArgv(body: PlanBody, e: Event) {
    && e.Command?
    && HasId(body, e.id)
    && (e.purpose.Apply? || (e.purpose.Recheck? && ActionOf(body, e.id).verify.None?))
  }

  /** The check a resumed success must pass again. */
  function RecheckOf(action: Action): Check {
    if action.verify.Some? then action.verify.value else Check(action.argv, None, None)
  }

  /** The argument vector that a command of this kind sends to the action's host. */
  function SentArgv(body: PlanBody, purpose: Purpose, id: Id): seq<string>
    requires HasId(body, id)
  {
    var a := ActionOf(body, id);
    match purpose
    case Preflight(n) => if n < |a.checks| then a.checks[n].argv else []
    case Recheck => RecheckOf(a).argv
    case Apply => a.argv
    case Verify => if a.verify.Some? then a.verify.value.argv else []
  }

  /** The reply is what the runner answered to that argument vector on the action's host. */
  ghost predicate Answers(body: PlanBody, runner: (nat, string, seq<string>) -> Reply, e: Event) {
    e.Result? ==> HasId(body, e.id) && exists t: nat :: e.reply == runner(t, ActionOf(body, e.id).host, SentArgv(body, e.purpose, e.id))
  }

  lemma AnsweredAt(body: PlanBody, runner: (nat, string, seq<string>) -> Reply, purpose: Purpose, id: Id, reply: Reply, t: nat)
    requires HasId(body, id) && reply == runner(t, ActionOf(body, id).host, SentArgv(body, purpose, id))
    ensures Answers(body, runner, Result(purpose, id, reply))
  {
  }

  ghost predicate AllAnswered(body: PlanBody, runner: (nat, string, seq<string>) -> Reply, trace: seq<Event>, from: nat) {
    forall m | from <= m < |trace| :: Answers(body, runner, trace[m])
  }

  /** Is this reply what the plan asks of the command? */
  predicate Passes(body: PlanBody, purpose: Purpose, id: Id, reply: Reply) {
    && HasId(body, id)
    && var a := ActionOf(body, id);
       match purpose
       case Preflight(n) => n < |a.checks| && Verified(reply, a.checks[n])
       case Recheck => Verified(reply, RecheckOf(a))
       case Apply => Verified(reply, Check(a.argv, None, None))
       case Verify => a.verify.Some? && Verified(reply, a.verify.value)
  }

  /** Does this event establish, within its invocation, that the action is in place? */
  predicate Confirms(body: PlanBody, e: Event) {
    && e.Result?
    && Passes(body, e.purpose, e.id, e.reply)
    && (e.purpose.Recheck? || e.purpose.Verify?
        || (e.purpose.Apply? && ActionOf(body, e.id).verify.None?))
  }

  /** An action that changes nothing answered its argument vector, certainly, with an error. */
  predicate Refuses(body: PlanBody, e: Event) {
    && e.Result? && e.purpose.Apply? && HasId(body, e.id) && ActionOf(body, e.id).risk == ReadOnly
    && e.reply.Reply? && !e.reply.uncertain && e.reply.returncode != 0
  }

  /** The reply leaves the outcome of the action unknown: an uncertain one, an error of an
      action that changes something, or a verification that did not pass. */
  predicate Unsettles(body: PlanBody, e: Event) {
    && e.Result? && HasId(body, e.id) && e.reply.Reply?
    && var a := ActionOf(body, e.id);
       || (e.purpose.Apply? && (e.reply.uncertain || (e.reply.returncode != 0 && a.risk != ReadOnly)))
       || (e.purpose.Verify? && a.verify.Some? && !Verified(e.reply, a.verify.value))
  }

  // ---- the state an event sequence leads to ----

  /** `disk` is the saved receipt and `baseline` the action states it held when the
      current invocation opened it; `ever` concerns all invocations and the rest the current
      one: commands issued and answered, checks passed and missed, what each reply meant, and
      whether every reply was as asked or a refusal. */
  datatype View = View(
    disk: Option<Receipt>,
    baseline: map<string, ActionState>,
    issued: set<(Purpose, Id)>,
    answered: set<(Purpose, Id)>,
    refused: set<Id>,
    unsure: set<Id>,
    clean: bool,
    passed: set<(Purpose, Id)>,
    missed: set<(Purpose, Id)>,
    begun: set<Id>,
    argvOk: set<Id>,
    confirmed: set<Id>,
    ever: set<Id>)

  function Start(disk: Option<Receipt>): View {
    View(disk, map[], {}, {}, {}, {}, true, {}, {}, {}, {}, {}, {})
  }

  function After(body: PlanBody, v: View, e: Event): View {
    match e
    case Opened(r) => View(Some(r), r.actions, {}, {}, {}, {}, true, {}, {}, {}, {}, {}, v.ever)
    case Saved(r) => v.(disk := Some(r))
    case Command(purpose, id) =>
      v.(issued := v.issued + {(purpose, id)},
         answered := if purpose.Apply? || purpose.Verify? then v.answered else v.answered - {(purpose, id)},
         begun := if purpose.Apply? then v.begun + {id} else v.begun,
         ever := if purpose.Apply? then v.ever + {id} else v.ever)
    case Result(purpose, id, reply) =>
      v.(answered := v.answered + {(purpose, id)},
         refused := if Refuses(body, e) then v.refused + {id} else v.refused,
         unsure := if Unsettles(body, e) then v.unsure + {id} else v.unsure,
         clean := v.clean && (Passes(body, purpose, id, reply) || Refuses(body, e)),
         passed := if Passes(body, purpose, id, reply) then v.passed + {(purpose, id)} else v.passed,
         missed := if Passes(body, purpose, id, reply) then v.missed else v.missed + {(purpose, id)},
         argvOk := if Passes(body, purpose, id, reply) && purpose.Apply? then v.argvOk + {id} else v.argvOk,
         confirmed := if Confirms(body, e) then v.confirmed + {id} else v.confirmed)
  }

  function ViewOf(body: PlanBody, disk: Option<Receipt>, trace: seq<Event>): View {
    if trace == [] then Start(disk)
    else After(body, ViewOf(body, disk, trace[..|trace| - 1]), trace[|trace| - 1])
  }

  // ---- the rules ----

  function StateOf(actions: map<string, ActionState>, key: string): Option<ActionState> {
    if key in actions then Some(actions[key]) else None
  }

  /** The states from which an action's argument vector may be sent. */
  predicate Open(s: Option<ActionState>) {
    s == None || s == Some(Failed)
  }

  /** The states that stop a later invocation: the outcome is not known. */
  predicate Blocked(s: Option<ActionState>) {
    s == Some(Running) || s == Some(Uncertain)
  }

  ghost predicate Backed(body: PlanBody, ids: set<Id>, key: string) {
    exists id | id in ids :: HasId(body, id) && KeyOf(body, id) == key
  }

  ghost predicate ReadOnlyBacked(body: PlanBody, ids: set<Id>, key: string) {
    exists id | id in ids :: HasId(body, id) && KeyOf(body, id) == key && ActionOf(body, id).risk == ReadOnly
  }

  /** How one recorded state may move when a receipt is saved. */
  ghost predicate MoveOk(body: PlanBody, v: View, key: string, was: Option<ActionState>, now: Option<ActionState>) {
    || was == now
    || (Open(StateOf(v.baseline, key)) && (
      || (Open(was) && now == Some(Running))
      || (was == Some(Running) && now == Some(Succeeded) && Backed(body, v.begun * v.confirmed, key))
      || (was == Some(Running) && now == Some(Uncertain) && Backed(body, v.begun * v.unsure, key))
      || (was == Some(Running) && now == Some(Failed) && ReadOnlyBacked(body, v.begun * v.refused, key))))
  }

  ghost predicate AllDone(body: PlanBody, v: View, actions: map<string, ActionState>) {
    forall id | HasId(body, id) ::
      id in v.confirmed && StateOf(actions, KeyOf(body, id)) == Some(Succeeded)
  }

  /** The name a receipt gives to the kind of check that stopped an invocation. */
  predicate StageName(purpose: Purpose, stage: string) {
    (purpose.Preflight? && stage == "preflight") || (purpose.Recheck? && stage == "resume_verification")
  }

  /** A newly recorded failure names a check that was answered in this invocation, and not as asked. */
  ghost predicate FailureOk(body: PlanBody, v: View, failure: Option<Failure>) {
    && failure.Some?
    && exists purpose, id | (purpose, id) in v.missed ::
         HasId(body, id) && KeyOf(body, id) == failure.value.action && StageName(purpose, failure.value.stage)
  }

  ghost predicate SaveOk(body: PlanBody, v: View, r: Receipt) {
    && v.disk.Some?
    && r.plan == v.disk.value.plan
    && (forall key :: MoveOk(body, v, key, StateOf(v.disk.value.actions, key), StateOf(r.actions, key)))
    && (r.complete ==> AllDone(body, v, r.actions) && r.completedAt.Some? && r.failure.None?)
    && (r.complete || r.failure == v.disk.value.failure || FailureOk(body, v, r.failure))
    && (v.disk.value.completedAt.Some? ==> r.completedAt == v.disk.value.completedAt)
    && (v.disk.value.completedAt.None? && r.completedAt.Some? ==> r.complete)
  }

  ghost predicate OpenOk(body: PlanBody, v: View, r: Receipt) {
    && r.plan == Sha256(body)
    && !r.complete
    && match v.disk
       case None => r == Receipt(Sha256(body), map[], false, None, None)
       case Some(d) =>
         && d.plan == r.plan && d.actions == r.actions && d.failure == r.failure
         && r.completedAt == (if d.complete && d.completedAt.None? then Some(None) else d.completedAt)
  }

  /** Every action of the phases before `p` is confirmed in this invocation and
      recorded as succeeded. */
  ghost predicate EarlierDone(body: PlanBody, v: View, p: nat) {
    && v.disk.Some?
    && forall id | HasId(body, id) && id.phase < p ::
         id in v.confirmed && StateOf(v.disk.value.actions, KeyOf(body, id)) == Some(Succeeded)
  }

  ghost predicate ChecksPassed(body: PlanBody, v: View, id: Id)
    requires HasId(body, id)
  {
    forall n | 0 <= n < |ActionOf(body, id).checks| :: (Preflight(n), id) in v.passed
  }

  /** Every action of phase `p` either passed all its checks in this invocation or
      had already succeeded and is not being run again. */
  ghost predicate PhaseChecked(body: PlanBody, v: View, p: nat) {
    && v.disk.Some?
    && forall id | HasId(body, id) && id.phase == p ::
         || ChecksPassed(body, v, id)
         || (id !in v.begun && StateOf(v.disk.value.actions, KeyOf(body, id)) == Some(Succeeded))
  }

  ghost predicate CommandOk(body: PlanBody, v: View, purpose: Purpose, id: Id) {
    && HasId(body, id)
    && EarlierDone(body, v, id.phase)
    && var state := StateOf(v.disk.value.actions, KeyOf(body, id));
       match purpose
       case Preflight(n) => n < |ActionOf(body, id).checks| && Open(state)
       case Recheck => state == Some(Succeeded) && PhaseChecked(body, v, id.phase) && id !in v.begun
       case Apply =>
         && state == Some(Running)
         && Open(StateOf(v.baseline, KeyOf(body, id)))
         && PhaseChecked(body, v, id.phase)
         && id !in v.begun && (Recheck, id) !in v.issued
       case Verify => id in v.argvOk
  }

  ghost predicate StepOk(body: PlanBody, v: View, e: Event) {
    match e
    case Opened(r) => OpenOk(body, v, r)
    case Saved(r) => SaveOk(body, v, r)
    case Command(purpose, id) => CommandOk(body, v, purpose, id)
    case Result(purpose, id, _) => (purpose, id) in v.issued && (purpose, id) !in v.answered
  }

  /** Every event followed the rules, given what came before it. */
  ghost predicate TraceOk(body: PlanBody, disk: Option<Receipt>, trace: seq<Event>) {
    trace != [] ==>
      && TraceOk(body, disk, trace[..|trace| - 1])
      && StepOk(body, ViewOf(body, disk, trace[..|trace| - 1]), trace[|trace| - 1])
  }

  lemma Snoc(body: PlanBody, disk: Option<Receipt>, trace: seq<Event>, e: Event)
    ensures ViewOf(body, disk, trace + [e]) == After(body, ViewOf(body, disk, trace), e)
    ensures TraceOk(body, disk, trace + [e])
      <==> TraceOk(body, disk, trace) && StepOk(body, ViewOf(body, disk, trace), e)
  {
    assert (trace + [e])[..|trace|] == trace;
  }

  lemma {:induction false} TraceOkAt(body: PlanBody, disk: Option<Receipt>, trace: seq<Event>, n: nat)
    requires TraceOk(body, disk, trace) && n < |trace|
    ensures TraceOk(body, disk, trace[..n])
    ensures StepOk(body, ViewOf(body, disk, trace[..n]), trace[n])
    ensures ViewOf(body, disk, trace[..n + 1]) == After(body, ViewOf(body, disk, trace[..n]), trace[n])
  {
    if n == |trace| - 1 {
      assert trace[..n + 1] == trace;
    } else {
      var shorter := trace[..|trace| - 1];
      TraceOkAt(body, disk, shorter, n);
      assert shorter[..n] == trace[..n] && shorter[..n + 1] == trace[..n + 1];
    }
  }

  // ---- invariants of every rule-following history ----

  /** An action whose argument vector was sent is recorded in a state from which it is
      never sent again, unless it only reads. */
  ghost predicate Inv(body: PlanBody, v: View) {
    && (forall id | id in v.ever :: HasId(body, id))
    && v.begun <= v.ever
    && (v.ever != {} ==> v.disk.Some?)
    && (v.disk.Some? ==>
      && (forall id | id in v.ever && Mutating(body, id) ::
            !Open(StateOf(v.disk.value.actions, KeyOf(body, id))))
      && (forall id | id in v.ever && id !in v.begun && Mutating(body, id) ::
            !Open(StateOf(v.baseline, KeyOf(body, id)))))
    && (forall id | id in v.begun :: Open(StateOf(v.baseline, KeyOf(body, id))))
    && (forall id, other | id in v.begun && other in v.begun && KeyOf(body, id) == KeyOf(body, other) :: id == other)
  }

  lemma SameKeySamePhase(body: PlanBody, a: Id, b: Id)
    requires ValidBody(body) && HasId(body, a) && HasId(body, b)
    requires a.phase == b.phase && KeyOf(body, a) == KeyOf(body, b)
    ensures a == b
  {
    KeyInjectiveOnHost(body.phases[a.phase].id, ActionOf(body, a).host, ActionOf(body, b).host);
    assert GoodPhase(body.phases[a.phase]);
  }

  ghost predicate PhaseOrder(body: PlanBody, v: View) {
    forall id | id in v.begun && HasId(body, id) :: EarlierDone(body, v, id.phase)
  }

  /** Earlier phases stay done while their invocation lasts. */
  lemma EarlierDoneStays(body: PlanBody, v: View, e: Event, p: nat)
    requires StepOk(body, v, e) && !e.Opened? && EarlierDone(body, v, p)
    ensures EarlierDone(body, After(body, v, e), p)
  {
    var w := After(body, v, e);
    forall id | HasId(body, id) && id.phase < p
      ensures id in w.confirmed && StateOf(w.disk.value.actions, KeyOf(body, id)) == Some(Succeeded)
    {
      if e.Saved? {
        var key := KeyOf(body, id);
        assert MoveOk(body, v, key, StateOf(v.disk.value.actions, key), StateOf(e.receipt.actions, key));
      }
    }
  }

  lemma PhaseOrderStep(body: PlanBody, v: View, e: Event)
    requires StepOk(body, v, e) && PhaseOrder(body, v)
    ensures PhaseOrder(body, After(body, v, e))
  {
    var w := After(body, v, e);
    if !e.Opened? {
      forall id | id in w.begun && HasId(body, id) ensures EarlierDone(body, w, id.phase) {
        EarlierDoneStays(body, v, e, id.phase);
      }
    }
  }

  lemma InvSaved(body: PlanBody, v: View, r: Receipt)
    requires ValidBody(body) && Inv(body, v) && SaveOk(body, v, r)
    ensures Inv(body, After(body, v, Saved(r)))
  {
    forall id | id in v.ever && Mutating(body, id)
      ensures !Open(StateOf(r.actions, KeyOf(body, id)))
    {
      var key := KeyOf(body, id);
      assert MoveOk(body, v, key, StateOf(v.disk.value.actions, key), StateOf(r.actions, key));
    }
  }

  lemma InvSent(body: PlanBody, v: View, id: Id)
    requires ValidBody(body) && Inv(body, v) && PhaseOrder(body, v) && CommandOk(body, v, Apply, id)
    ensures Inv(body, After(body, v, Command(Apply, id)))
  {
    forall other | other in v.begun && other.phase == id.phase && KeyOf(body, other) == KeyOf(body, id)
      ensures other == id
    {
      SameKeySamePhase(body, other, id);
    }
  }

  lemma InvStep(body: PlanBody, v: View, e: Event)
    requires ValidBody(body) && Inv(body, v) && PhaseOrder(body, v) && StepOk(body, v, e)
    ensures Inv(body, After(body, v, e))
  {
    match e
    case Opened(r) =>
    case Saved(r) => InvSaved(body, v, r);
    case Command(purpose, id) =>
      if purpose.Apply? {
        InvSent(body, v, id);
      }
    case Result(_, _, _) =>
  }

  lemma {:induction false} Invariants(body: PlanBody, disk: Option<Receipt>, trace: seq<Event>)
    requires ValidBody(body) && TraceOk(body, disk, trace)
    ensures Inv(body, ViewOf(body, disk, trace)) && PhaseOrder(body, ViewOf(body, disk, trace))
  {
    if trace != [] {
      var shorter := trace[..|trace| - 1];
      Invariants(body, disk, shorter);
      InvStep(body, ViewOf(body, disk, shorter), trace[|trace| - 1]);
      PhaseOrderStep(body, ViewOf(body, disk, shorter), trace[|trace| - 1]);
    }
  }

  // ---- what every history promises ----

  /** At most once: whatever crashes, failures and resumptions happened, the argument
      vector of an action that changes anything was sent at most once. */
  lemma AtMostOnce(body: PlanBody, disk: Option<Receipt>, trace: seq<Event>, m: nat, n: nat)
    requires ValidBody(body) && TraceOk(body, disk, trace)
    requires m < n < |trace|
    requires RunsArgv(body, trace[m]) && RunsArgv(body, trace[n])
    requires trace[m].id == trace[n].id
    ensures !Mutating(body, trace[m].id)
  {
    var id := trace[m].id;
    if Mutating(body, id) {
      assert GoodPhase(body.phases[id.phase]);
      assert trace[m].purpose.Apply? && trace[n].purpose.Apply?;
      EverRemembers(body, disk, trace, m, n);
      TraceOkAt(body, disk, trace, n);
      Invariants(body, disk, trace[..n]);
      assert false;
    }
  }

  /** Told by what is sent: an action that changes anything, and whose argument vector is not
      also one of its checks or its verification, has it sent at most once. */
  lemma ArgvAtMostOnce(body: PlanBody, disk: Option<Receipt>, trace: seq<Event>, m: nat, n: nat)
    requires ValidBody(body) && TraceOk(body, disk, trace)
    requires m < n < |trace| && trace[m].Command? && trace[n].Command? && trace[m].id == trace[n].id
    requires HasId(body, trace[m].id)
    requires var a := ActionOf(body, trace[m].id);
             && (forall c | c in a.checks :: c.argv != a.argv) && (a.verify.Some? ==> a.verify.value.argv != a.argv)
             && SentArgv(body, trace[m].purpose, trace[m].id) == a.argv == SentArgv(body, trace[n].purpose, trace[n].id)
    ensures !Mutating(body, trace[m].id)
  {
    hide TraceOk;
    var id := trace[m].id;
    if Mutating(body, id) {
      assert GoodPhase(body.phases[id.phase]) && GoodAction(ActionOf(body, id));
      OnlyApplySends(body, trace[m].purpose, id);
      OnlyApplySends(body, trace[n].purpose, id);
      AtMostOnce(body, disk, trace, m, n);
    }
  }

  lemma OnlyApplySends(body: PlanBody, purpose: Purpose, id: Id)
    requires HasId(body, id) && GoodAction(ActionOf(body, id)) && Mutating(body, id)
    requires var a := ActionOf(body, id);
             && (forall c | c in a.checks :: c.argv != a.argv) && (a.verify.Some? ==> a.verify.value.argv != a.argv)
             && SentArgv(body, purpose, id) == a.argv
    ensures purpose.Apply?
  {
    assert ActionOf(body, id).argv != [];
  }

  lemma {:induction false} EverRemembers(body: PlanBody, disk: Option<Receipt>, trace: seq<Event>, m: nat, n: nat)
    requires m < n <= |trace| && trace[m].Command? && trace[m].purpose.Apply?
    ensures trace[m].id in ViewOf(body, disk, trace[..n]).ever
  {
    assert trace[..n][..n - 1] == trace[..n - 1];
    if m < n - 1 {
      EverRemembers(body, disk, trace, m, n - 1);
    }
  }

  /** The receipt last saved before position `n`. */
  function DiskAt(body: PlanBody, disk: Option<Receipt>, trace: seq<Event>, n: nat): Option<Receipt>
    requires n <= |trace|
  {
    ViewOf(body, disk, trace[..n]).disk
  }

  /** Write-ahead: when an argument vector is sent, the receipt on disk already records
      the action as running, so no crash can hide the attempt; and ever after, a
      changing action stays running, succeeded or uncertain on disk. */
  lemma WriteAhead(body: PlanBody, disk: Option<Receipt>, trace: seq<Event>, m: nat, n: nat)
    requires ValidBody(body) && TraceOk(body, disk, trace)
    requires m < |trace| && trace[m].Command? && trace[m].purpose.Apply?
    requires m <= n <= |trace|
    ensures HasId(body, trace[m].id) && DiskAt(body, disk, trace, m).Some?
    ensures StateOf(DiskAt(body, disk, trace, m).value.actions, KeyOf(body, trace[m].id)) == Some(Running)
    ensures Mutating(body, trace[m].id) ==>
              && DiskAt(body, disk, trace, n).Some?
              && !Open(StateOf(DiskAt(body, disk, trace, n).value.actions, KeyOf(body, trace[m].id)))
  {
    TraceOkAt(body, disk, trace, m);
    if m < n {
      EverRemembers(body, disk, trace, m, n);
      if n < |trace| {
        TraceOkAt(body, disk, trace, n);
      } else {
        assert trace[..n] == trace;
      }
      Invariants(body, disk, trace[..n]);
    }
  }

  /** No invocation starts between the positions `m` and `n`. */
  ghost predicate SameInvocation(trace: seq<Event>, m: nat, n: nat)
    requires m <= n <= |trace|
  {
    forall k | m <= k < n :: !trace[k].Opened?
  }

  lemma {:induction false} ConfirmedWitness(body: PlanBody, disk: Option<Receipt>, trace: seq<Event>, n: nat, id: Id)
    requires n <= |trace| && id in ViewOf(body, disk, trace[..n]).confirmed
    ensures exists m :: 0 <= m < n && Confirms(body, trace[m]) && trace[m].id == id && SameInvocation(trace, m, n)
  {
    assert trace[..n][..n - 1] == trace[..n - 1];
    if Confirms(body, trace[n - 1]) && trace[n - 1].id == id {
      assert SameInvocation(trace, n - 1, n);
    } else {
      ConfirmedWitness(body, disk, trace, n - 1, id);
      var m :| 0 <= m < n - 1 && Confirms(body, trace[m]) && trace[m].id == id && SameInvocation(trace, m, n - 1);
      assert SameInvocation(trace, m, n);
    }
  }

  predicate IsPass(body: PlanBody, e: Event, purpose: Purpose, id: Id) {
    e.Result? && e.purpose == purpose && e.id == id && Passes(body, purpose, id, e.reply)
  }

  lemma {:induction false} PassedWitness(body: PlanBody, disk: Option<Receipt>, trace: seq<Event>, n: nat, purpose: Purpose, id: Id)
    requires n <= |trace| && (purpose, id) in ViewOf(body, disk, trace[..n]).passed
    ensures exists m :: 0 <= m < n && IsPass(body, trace[m], purpose, id) && SameInvocation(trace, m, n)
  {
    assert trace[..n][..n - 1] == trace[..n - 1];
    if IsPass(body, trace[n - 1], purpose, id) {
      assert SameInvocation(trace, n - 1, n);
    } else {
      PassedWitness(body, disk, trace, n - 1, purpose, id);
      var m :| 0 <= m < n - 1 && IsPass(body, trace[m], purpose, id) && SameInvocation(trace, m, n - 1);
      assert SameInvocation(trace, m, n);
    }
  }

  /** Phase barrier, afresh in every invocation: before any command of a phase is sent,
      every action of every earlier phase was confirmed in that same invocation. */
  lemma PhaseBarrier(body: PlanBody, disk: Option<Receipt>, trace: seq<Event>, n: nat, earlier: Id)
    requires TraceOk(body, disk, trace) && n < |trace| && trace[n].Command?
    requires HasId(body, earlier) && earlier.phase < trace[n].id.phase
    ensures exists m :: 0 <= m < n && Confirms(body, trace[m]) && trace[m].id == earlier
                        && SameInvocation(trace, m, n)
  {
    TraceOkAt(body, disk, trace, n);
    ConfirmedWitness(body, disk, trace, n, earlier);
  }

  lemma {:induction false} IssuedWitness(body: PlanBody, disk: Option<Receipt>, trace: seq<Event>, n: nat, purpose: Purpose, id: Id)
    requires n <= |trace| && (purpose, id) in ViewOf(body, disk, trace[..n]).issued
    ensures exists c :: 0 <= c < n && trace[c] == Command(purpose, id) && SameInvocation(trace, c, n)
  {
    assert trace[..n][..n - 1] == trace[..n - 1];
    if trace[n - 1] == Command(purpose, id) {
      assert SameInvocation(trace, n - 1, n);
    } else {
      IssuedWitness(body, disk, trace, n - 1, purpose, id);
      var c :| 0 <= c < n - 1 && trace[c] == Command(purpose, id) && SameInvocation(trace, c, n - 1);
      assert SameInvocation(trace, c, n);
    }
  }

  /** Between a command of this phase at `c` and position `n`, in one invocation, this
      action was confirmed. */
  ghost predicate ConfirmedWithin(body: PlanBody, trace: seq<Event>, c: nat, n: nat, id: Id)
    requires c <= n <= |trace|
  {
    exists m :: c < m < n && Confirms(body, trace[m]) && trace[m].id == id
  }

  /** A round of phase `p` lies between `c` and `n`: a command of the phase, and then the
      confirmation of every one of its first `count` actions. */
  ghost predicate Round(body: PlanBody, trace: seq<Event>, c: nat, n: nat, p: nat, count: nat) {
    && c < n <= |trace| && SameInvocation(trace, c, n)
    && trace[c].Command? && trace[c].id.phase == p
    && forall a | 0 <= a < count :: ConfirmedWithin(body, trace, c, n, Id(p, a))
  }

  /** The phases before `end` had their rounds one after the other in this invocation, the
      last one before `n`. */
  ghost predicate RoundsInOrder(body: PlanBody, trace: seq<Event>, n: nat, end: nat)
    decreases end, 0
  {
    end <= |body.phases| && (end > 0 ==> PrecededByRound(body, trace, n, end - 1))
  }

  /** The round of phase `p` lies before `n`, and the rounds of earlier phases before it. */
  ghost predicate PrecededByRound(body: PlanBody, trace: seq<Event>, n: nat, p: nat)
    requires p < |body.phases|
    decreases p, 1
  {
    exists c :: Round(body, trace, c, n, p, |body.phases[p].actions|) && RoundsInOrder(body, trace, c, p)
  }

  /** The round of one earlier phase, up to its first `count` actions. */
  lemma {:induction false} EarlierRound(body: PlanBody, disk: Option<Receipt>, trace: seq<Event>, n: nat, p: nat, count: nat)
    returns (c: nat)
    requires TraceOk(body, disk, trace) && n < |trace| && trace[n].Command? && p < trace[n].id.phase
    requires p < |body.phases| && 0 < count <= |body.phases[p].actions|
    ensures Round(body, trace, c, n, p, count)
  {
    var id := Id(p, count - 1);
    PhaseBarrier(body, disk, trace, n, id);
    var m :| 0 <= m < n && Confirms(body, trace[m]) && trace[m].id == id && SameInvocation(trace, m, n);
    TraceOkAt(body, disk, trace, m);
    IssuedWitness(body, disk, trace, m, trace[m].purpose, id);
    c :| 0 <= c < m && trace[c] == Command(trace[m].purpose, id) && SameInvocation(trace, c, m);
    hide TraceOk, ViewOf, StepOk, Confirms;
    assert ConfirmedWithin(body, trace, c, n, id);
    if count > 1 {
      var d := EarlierRound(body, disk, trace, n, p, count - 1);
      RoundWidens(body, trace, d, if d < c then d else c, n, p, count - 1);
      if d < c {
        assert ConfirmedWithin(body, trace, d, n, id);
        c := d;
      }
    }
  }

  lemma RoundWidens(body: PlanBody, trace: seq<Event>, d: nat, c: nat, n: nat, p: nat, count: nat)
    requires Round(body, trace, d, n, p, count) && c <= d
    ensures forall a | 0 <= a < count :: ConfirmedWithin(body, trace, c, n, Id(p, a))
  {
    forall a | 0 <= a < count ensures ConfirmedWithin(body, trace, c, n, Id(p, a)) {
      assert ConfirmedWithin(body, trace, d, n, Id(p, a));
    }
  }

  /** Phase order, afresh in every invocation: when a command of a phase is sent, the phases
      before it have had their rounds one after the other, each round starting only after
      every action of the round before was confirmed. */
  lemma {:induction false} PhasesInOrder(body: PlanBody, disk: Option<Receipt>, trace: seq<Event>, n: nat, end: nat)
    requires TraceOk(body, disk, trace) && n < |trace| && trace[n].Command? && end <= trace[n].id.phase
    requires end <= |body.phases| && forall p | 0 <= p < end :: body.phases[p].actions != []
    ensures RoundsInOrder(body, trace, n, end)
    decreases end
  {
    if end > 0 {
      hide TraceOk;
      var c := EarlierRound(body, disk, trace, n, end - 1, |body.phases[end - 1].actions|);
      PhasesInOrder(body, disk, trace, c, end - 1);
      assert PrecededByRound(body, trace, n, end - 1);
    }
  }

  /** Preflight of the whole phase: when an argument vector is sent, every action of
      that phase has either passed each of its checks in this invocation, or is
      recorded as succeeded and is not being run. */
  lemma PreflightFirst(body: PlanBody, disk: Option<Receipt>, trace: seq<Event>, n: nat, sibling: Id, c: nat)
    requires TraceOk(body, disk, trace) && n < |trace| && trace[n].Command? && trace[n].purpose.Apply?
    requires HasId(body, sibling) && sibling.phase == trace[n].id.phase
    requires c < |ActionOf(body, sibling).checks|
    ensures || (exists m :: 0 <= m < n && IsPass(body, trace[m], Preflight(c), sibling) && SameInvocation(trace, m, n))
            || (&& sibling != trace[n].id
                && sibling !in ViewOf(body, disk, trace[..n]).begun
                && DiskAt(body, disk, trace, n).Some?
                && StateOf(DiskAt(body, disk, trace, n).value.actions, KeyOf(body, sibling)) == Some(Succeeded))
  {
    TraceOkAt(body, disk, trace, n);
    if ChecksPassed(body, ViewOf(body, disk, trace[..n]), sibling) {
      PassedWitness(body, disk, trace, n, Preflight(c), sibling);
    }
  }

  /** Persisted completion is earned: a receipt saved as complete records every action
      as succeeded, and each was confirmed in the invocation that saved it. */
  lemma CompleteMeansAllDone(body: PlanBody, disk: Option<Receipt>, trace: seq<Event>, n: nat, id: Id)
    requires TraceOk(body, disk, trace) && n < |trace|
    requires trace[n].Saved? && trace[n].receipt.complete && HasId(body, id)
    ensures StateOf(trace[n].receipt.actions, KeyOf(body, id)) == Some(Succeeded)
    ensures exists m :: 0 <= m < n && Confirms(body, trace[m]) && trace[m].id == id && SameInvocation(trace, m, n)
  {
    TraceOkAt(body, disk, trace, n);
    ConfirmedWitness(body, disk, trace, n, id);
  }

  lemma TimeStep(body: PlanBody, v: View, e: Event)
    requires StepOk(body, v, e) && v.disk.Some? && v.disk.value.completedAt.Some?
    ensures After(body, v, e).disk.Some? && After(body, v, e).disk.value.completedAt == v.disk.value.completedAt
  {
  }

  /** A completion time, known or explicitly unknown, is never replaced or removed. */
  lemma {:induction false} CompletionTimeIsFinal(body: PlanBody, disk: Option<Receipt>, trace: seq<Event>, m: nat, n: nat)
    requires TraceOk(body, disk, trace) && m <= n <= |trace|
    requires DiskAt(body, disk, trace, m).Some? && DiskAt(body, disk, trace, m).value.completedAt.Some?
    ensures DiskAt(body, disk, trace, n).Some?
    ensures DiskAt(body, disk, trace, n).value.completedAt == DiskAt(body, disk, trace, m).value.completedAt
  {
    hide TraceOk, ViewOf, StepOk, After;
    if m < n {
      CompletionTimeIsFinal(body, disk, trace, m, n - 1);
      TraceOkAt(body, disk, trace, n - 1);
      TimeStep(body, ViewOf(body, disk, trace[..n - 1]), trace[n - 1]);
    }
  }

  /** The current invocation found `key` in the unknown state `s` and has not touched it. */
  ghost predicate Sealed(body: PlanBody, v: View, key: string, s: ActionState) {
    && v.disk.Some?
    && StateOf(v.disk.value.actions, key) == Some(s)
    && StateOf(v.baseline, key) == Some(s)
    && (forall id | HasId(body, id) && KeyOf(body, id) == key :: (Apply, id) !in v.issued && id !in v.argvOk)
  }

  lemma SealedStep(body: PlanBody, v: View, e: Event, key: string, s: ActionState)
    requires Blocked(Some(s)) && Sealed(body, v, key, s) && StepOk(body, v, e)
    ensures Sealed(body, After(body, v, e), key, s)
  {
    if e.Saved? {
      assert MoveOk(body, v, key, StateOf(v.disk.value.actions, key), StateOf(e.receipt.actions, key));
    }
  }

  lemma {:induction false} StaysSealed(body: PlanBody, disk: Option<Receipt>, trace: seq<Event>, m: nat, n: nat, key: string)
    requires TraceOk(body, disk, trace) && m < n <= |trace|
    requires trace[m].Opened? && Blocked(StateOf(trace[m].receipt.actions, key))
    ensures Sealed(body, ViewOf(body, disk, trace[..n]), key, trace[m].receipt.actions[key])
  {
    TraceOkAt(body, disk, trace, n - 1);
    if m < n - 1 {
      StaysSealed(body, disk, trace, m, n - 1, key);
      SealedStep(body, ViewOf(body, disk, trace[..n - 1]), trace[n - 1], key, trace[m].receipt.actions[key]);
    }
  }

  /** An outcome that an invocation finds unknown stays unknown for ever: no later
      receipt changes it, no command of its action is sent again, and no command of a
      later phase is. */
  lemma UnknownIsFinal(body: PlanBody, disk: Option<Receipt>, trace: seq<Event>, m: nat, n: nat, id: Id)
    requires TraceOk(body, disk, trace) && m < n <= |trace|
    requires trace[m].Opened? && HasId(body, id) && Blocked(StateOf(trace[m].receipt.actions, KeyOf(body, id)))
    ensures DiskAt(body, disk, trace, n).Some?
    ensures StateOf(DiskAt(body, disk, trace, n).value.actions, KeyOf(body, id))
         == StateOf(trace[m].receipt.actions, KeyOf(body, id))
    ensures n < |trace| && trace[n].Command? ==> trace[n].id != id && trace[n].id.phase <= id.phase
  {
    StaysSealed(body, disk, trace, m, n, KeyOf(body, id));
    if n < |trace| {
      TraceOkAt(body, disk, trace, n);
    }
  }

  /** `failed` is only ever recorded for an action that changes nothing. */
  lemma FailedMeansReadOnly(body: PlanBody, disk: Option<Receipt>, trace: seq<Event>, n: nat, id: Id)
    requires ValidBody(body) && TraceOk(body, disk, trace) && n < |trace| && trace[n].Saved?
    requires HasId(body, id) && StateOf(trace[n].receipt.actions, KeyOf(body, id)) == Some(Failed)
    requires DiskAt(body, disk, trace, n).Some?
    requires StateOf(DiskAt(body, disk, trace, n).value.actions, KeyOf(body, id)) != Some(Failed)
    ensures exists reader :: HasId(body, reader) && KeyOf(body, reader) == KeyOf(body, id)
                             && ActionOf(body, reader).risk == ReadOnly
                             && reader in ViewOf(body, disk, trace[..n]).begun
    ensures DistinctKeys(body) ==> ActionOf(body, id).risk == ReadOnly
  {
    TraceOkAt(body, disk, trace, n);
    var v := ViewOf(body, disk, trace[..n]);
    var key := KeyOf(body, id);
    assert MoveOk(body, v, key, StateOf(v.disk.value.actions, key), StateOf(trace[n].receipt.actions, key));
  }

  // ---- keys that two actions share ----

  ghost predicate DistinctKeys(body: PlanBody) {
    forall a, b | HasId(body, a) && HasId(body, b) && KeyOf(body, a) == KeyOf(body, b) :: a == b
  }

  /** Colon-free hosts, as the runtime planner requires, are enough for distinct keys. */
  lemma ColonFreeHostsGiveDistinctKeys(body: PlanBody)
    requires ValidBody(body)
    requires forall id | HasId(body, id) :: ':' !in ActionOf(body, id).host
    ensures DistinctKeys(body)
  {
    forall a, b | HasId(body, a) && HasId(body, b) && KeyOf(body, a) == KeyOf(body, b) ensures a == b {
      KeyInjective(body.phases[a.phase].id, ActionOf(body, a).host, body.phases[b.phase].id, ActionOf(body, b).host);
      SameKeySamePhase(body, a, b);
    }
  }

  ghost predicate WasSent(trace: seq<Event>, n: nat, id: Id)
    requires n <= |trace|
  {
    exists m :: 0 <= m < n && trace[m] == Command(Apply, id)
  }

  /** Of two actions with one key, the one in the later phase is never sent: it takes
      the earlier one's success for its own. */
  lemma SharedKeyHidesAction(body: PlanBody, disk: Option<Receipt>, trace: seq<Event>, n: nat, first: Id, second: Id)
    requires TraceOk(body, disk, trace) && n <= |trace|
    requires HasId(body, first) && HasId(body, second) && first.phase < second.phase
    requires KeyOf(body, first) == KeyOf(body, second)
    ensures !WasSent(trace, n, second)
  {
    forall m | 0 <= m < n && trace[m] == Command(Apply, second) ensures false {
      TraceOkAt(body, disk, trace, m);
    }
  }

  lemma {:induction false} SentWitness(body: PlanBody, disk: Option<Receipt>, trace: seq<Event>, n: nat, id: Id)
    requires n <= |trace| && id in ViewOf(body, disk, trace[..n]).ever
    ensures WasSent(trace, n, id)
  {
    assert trace[..n][..n - 1] == trace[..n - 1];
    if trace[n - 1] != Command(Apply, id) {
      SentWitness(body, disk, trace, n - 1, id);
    }
  }

  /** A newly recorded success is that of an action confirmed in this invocation. */
  lemma NewSuccess(body: PlanBody, v: View, e: Event, key: string) returns (id: Id)
    requires StepOk(body, v, e) && After(body, v, e).disk.Some?
    requires StateOf(After(body, v, e).disk.value.actions, key) == Some(Succeeded)
    requires v.disk.None? || StateOf(v.disk.value.actions, key) != Some(Succeeded)
    ensures id in v.begun * v.confirmed && HasId(body, id) && KeyOf(body, id) == key
  {
    assert MoveOk(body, v, key, StateOf(v.disk.value.actions, key), StateOf(e.receipt.actions, key));
    id :| id in v.begun * v.confirmed && HasId(body, id) && KeyOf(body, id) == key;
  }

  /** From an unused receipt path, a recorded success stands for an argument vector sent. */
  lemma {:induction false} SuccessWasSent(body: PlanBody, trace: seq<Event>, n: nat, key: string)
    requires ValidBody(body) && TraceOk(body, None, trace) && n <= |trace|
    requires DiskAt(body, None, trace, n).Some?
    requires StateOf(DiskAt(body, None, trace, n).value.actions, key) == Some(Succeeded)
    ensures Backed(body, ViewOf(body, None, trace[..n]).ever, key)
  {
    TraceOkAt(body, None, trace, n - 1);
    var v := ViewOf(body, None, trace[..n - 1]);
    var w := ViewOf(body, None, trace[..n]);
    if v.disk.Some? && StateOf(v.disk.value.actions, key) == Some(Succeeded) {
      SuccessWasSent(body, trace, n - 1, key);
      var id :| id in v.ever && HasId(body, id) && KeyOf(body, id) == key;
      assert id in w.ever;
    } else {
      Invariants(body, None, trace[..n - 1]);
      var id := NewSuccess(body, v, trace[n - 1], key);
      assert id in w.ever;
    }
  }

  /** From an unused receipt path, a recorded success stands for a confirming reply. */
  lemma {:induction false} SuccessWasConfirmed(body: PlanBody, trace: seq<Event>, n: nat, key: string)
    requires ValidBody(body) && TraceOk(body, None, trace) && n <= |trace|
    requires DiskAt(body, None, trace, n).Some?
    requires StateOf(DiskAt(body, None, trace, n).value.actions, key) == Some(Succeeded)
    ensures exists m :: 0 <= m < n && Confirms(body, trace[m]) && KeyOf(body, trace[m].id) == key
  {
    hide Confirms;
    TraceOkAt(body, None, trace, n - 1);
    var v := ViewOf(body, None, trace[..n - 1]);
    if v.disk.Some? && StateOf(v.disk.value.actions, key) == Some(Succeeded) {
      SuccessWasConfirmed(body, trace, n - 1, key);
    } else {
      var id := NewSuccess(body, v, trace[n - 1], key);
      ConfirmedWitness(body, None, trace, n - 1, id);
    }
  }

  lemma {:induction false} ArgvOkWitness(body: PlanBody, disk: Option<Receipt>, trace: seq<Event>, n: nat, id: Id)
    requires n <= |trace| && id in ViewOf(body, disk, trace[..n]).argvOk
    ensures exists m :: 0 <= m < n && IsPass(body, trace[m], Apply, id)
  {
    hide Passes;
    assert trace[..n][..n - 1] == trace[..n - 1];
    if !IsPass(body, trace[n - 1], Apply, id) {
      ArgvOkWitness(body, disk, trace, n - 1, id);
    }
  }

  /** Before `n`, some action with this key answered its own argument vector with success. */
  ghost predicate ArgvSucceeded(body: PlanBody, trace: seq<Event>, n: nat, key: string)
    requires n <= |trace|
  {
    exists m :: 0 <= m < n && trace[m].Result? && HasId(body, trace[m].id) && KeyOf(body, trace[m].id) == key
                && IsPass(body, trace[m], Apply, trace[m].id)
  }

  lemma ArgvSucceededLater(body: PlanBody, trace: seq<Event>, m: nat, n: nat, key: string)
    requires m <= n <= |trace| && ArgvSucceeded(body, trace, m, key)
    ensures ArgvSucceeded(body, trace, n, key)
  {
    hide IsPass;
    var k :| 0 <= k < m && trace[k].Result? && HasId(body, trace[k].id) && KeyOf(body, trace[k].id) == key
             && IsPass(body, trace[k], Apply, trace[k].id);
    assert k < n;
  }

  lemma NothingAtFirst(body: PlanBody, trace: seq<Event>)
    ensures DiskAt(body, None, trace, 0).None?
  {
    assert trace[..0] == [];
  }

  /** From an unused receipt path, a recorded success stands for a successful answer to the
      argument vector, even where it was confirmed by renewed verifications ever since. */
  lemma {:induction false} SuccessAnsweredArgv(body: PlanBody, trace: seq<Event>, n: nat, key: string)
    requires ValidBody(body) && TraceOk(body, None, trace) && n <= |trace|
    requires DiskAt(body, None, trace, n).Some?
    requires StateOf(DiskAt(body, None, trace, n).value.actions, key) == Some(Succeeded)
    ensures ArgvSucceeded(body, trace, n, key)
    decreases n, 0
  {
    hide ArgvSucceeded, StepOk, After, TraceOk, ViewOf, Passes;
    NothingAtFirst(body, trace);
    TraceOkAt(body, None, trace, n - 1);
    var v := ViewOf(body, None, trace[..n - 1]);
    if v.disk.Some? && StateOf(v.disk.value.actions, key) == Some(Succeeded) {
      SuccessAnsweredArgv(body, trace, n - 1, key);
      ArgvSucceededLater(body, trace, n - 1, n, key);
    } else {
      var id := NewSuccess(body, v, trace[n - 1], key);
      ConfirmedWitness(body, None, trace, n - 1, id);
      var m :| 0 <= m < n - 1 && Confirms(body, trace[m]) && trace[m].id == id;
      ConfirmedAnsweredArgv(body, trace, m);
      ArgvSucceededLater(body, trace, m + 1, n, key);
    }
  }

  lemma {:induction false} ConfirmedAnsweredArgv(body: PlanBody, trace: seq<Event>, m: nat)
    requires ValidBody(body) && TraceOk(body, None, trace) && m < |trace| && Confirms(body, trace[m])
    ensures ArgvSucceeded(body, trace, m + 1, KeyOf(body, trace[m].id))
    decreases m, 1
  {
    hide ArgvSucceeded, TraceOk, ViewOf;
    var id, key := trace[m].id, KeyOf(body, trace[m].id);
    if trace[m].purpose.Apply? {
      ArgvAnswer(body, trace, m, m + 1, id);
    } else {
      TraceOkAt(body, None, trace, m);
      IssuedWitness(body, None, trace, m, trace[m].purpose, id);
      var c :| 0 <= c < m && trace[c] == Command(trace[m].purpose, id);
      TraceOkAt(body, None, trace, c);
      if trace[m].purpose.Verify? {
        ArgvOkWitness(body, None, trace, c, id);
        var k :| 0 <= k < c && IsPass(body, trace[k], Apply, id);
        ArgvAnswer(body, trace, k, m + 1, id);
      } else {
        SuccessAnsweredArgv(body, trace, c, key);
        ArgvSucceededLater(body, trace, c, m + 1, key);
      }
    }
  }

  lemma ArgvAnswer(body: PlanBody, trace: seq<Event>, k: nat, n: nat, id: Id)
    requires k < n <= |trace| && IsPass(body, trace[k], Apply, id)
    ensures HasId(body, id) && ArgvSucceeded(body, trace, n, KeyOf(body, id))
  {
  }

  /** From an unused receipt path and with distinct keys, when a command of a phase is sent,
      the argument vector of every action of every earlier phase was sent before, in this
      invocation or an earlier one. */
  lemma EarlierActionsSent(body: PlanBody, trace: seq<Event>, n: nat, id: Id)
    requires ValidBody(body) && DistinctKeys(body) && TraceOk(body, None, trace)
    requires n < |trace| && trace[n].Command? && HasId(body, id) && id.phase < trace[n].id.phase
    ensures WasSent(trace, n, id)
  {
    TraceOkAt(body, None, trace, n);
    SuccessWasSent(body, trace, n, KeyOf(body, id));
    var sent :| sent in ViewOf(body, None, trace[..n]).ever && HasId(body, sent) && KeyOf(body, sent) == KeyOf(body, id);
    SentWitness(body, None, trace, n, id);
  }

  /** A persisted completion means that every action of the plan was sent exactly when
      no two actions share a receipt key. */
  lemma CompletionCoversPlan(body: PlanBody, trace: seq<Event>, n: nat)
    requires ValidBody(body) && TraceOk(body, None, trace) && n < |trace|
    requires trace[n].Saved? && trace[n].receipt.complete
    ensures DistinctKeys(body) <==> forall id | HasId(body, id) :: WasSent(trace, n, id)
  {
    TraceOkAt(body, None, trace, n);
    if DistinctKeys(body) {
      forall id | HasId(body, id) ensures WasSent(trace, n, id) {
        CompleteMeansAllDone(body, None, trace, n, id);
        SuccessWasSent(body, trace, n + 1, KeyOf(body, id));
        var sent :| sent in ViewOf(body, None, trace[..n + 1]).ever && HasId(body, sent) && KeyOf(body, sent) == KeyOf(body, id);
        SentWitness(body, None, trace, n, id);
      }
    } else {
      var a, b :| HasId(body, a) && HasId(body, b) && KeyOf(body, a) == KeyOf(body, b) && a != b;
      if a.phase == b.phase {
        SameKeySamePhase(body, a, b);
      }
      var first, second := if a.phase < b.phase then a else b, if a.phase < b.phase then b else a;
      SharedKeyHidesAction(body, None, trace, n, first, second);
    }
  }

  // ---- the program's own runner ----

  predicate Alphanumeric(c: char) {
    '0' <= c <= '9' || 'A' <= c <= 'Z' || 'a' <= c <= 'z'
  }

  /** The hosts the program's own runner sends commands to; for others it raises. */
  predicate SshTarget(host: string) {
    || host == "controller"
    || (host != "" && Alphanumeric(host[0]) && forall c | c in host :: Alphanumeric(c) || c in "_.@-")
  }

  /** Every reply that is not an exception may come from that runner. */
  ghost predicate OwnRunner(body: PlanBody, trace: seq<Event>) {
    forall n | 0 <= n < |trace| && trace[n].Result? && trace[n].reply.Reply? && HasId(body, trace[n].id) ::
      SshTarget(ActionOf(body, trace[n].id).host)
  }

  lemma SshTargetHasNoColon(host: string)
    requires SshTarget(host)
    ensures ':' !in host
  {
    assert ':' !in "controller" && ':' !in "_.@-";
  }

  /** With the program's own runner, a persisted completion does mean that every action of
      the plan was sent, and no two of them shared a receipt key. */
  lemma OwnRunnerCoversPlan(body: PlanBody, trace: seq<Event>, n: nat)
    requires ValidBody(body) && TraceOk(body, None, trace) && n < |trace|
    requires trace[n].Saved? && trace[n].receipt.complete && OwnRunner(body, trace)
    ensures DistinctKeys(body) && forall id | HasId(body, id) :: WasSent(trace, n, id)
  {
    hide TraceOk, ValidBody, DistinctKeys, WasSent, SshTarget;
    forall id | HasId(body, id) ensures ':' !in ActionOf(body, id).host {
      CompleteMeansAllDone(body, None, trace, n, id);
      var m :| 0 <= m < n && Confirms(body, trace[m]) && trace[m].id == id;
      assert trace[m].reply.Reply?;
      SshTargetHasNoColon(ActionOf(body, id).host);
    }
    ColonFreeHostsGiveDistinctKeys(body);
    CompletionCoversPlan(body, trace, n);
  }

  // ---- recorded as running, and sent ----

  lemma ClosedStep(body: PlanBody, v: View, e: Event, id: Id)
    requires DistinctKeys(body) && StepOk(body, v, e) && Mutating(body, id)
    requires v.disk.Some? && !Open(StateOf(v.disk.value.actions, KeyOf(body, id)))
    ensures After(body, v, e).disk.Some? && !Open(StateOf(After(body, v, e).disk.value.actions, KeyOf(body, id)))
  {
    if e.Saved? {
      var key := KeyOf(body, id);
      assert MoveOk(body, v, key, StateOf(v.disk.value.actions, key), StateOf(e.receipt.actions, key));
    }
  }

  /** A changing action's record never becomes open again. */
  lemma {:induction false} ClosedStays(body: PlanBody, disk: Option<Receipt>, trace: seq<Event>, m: nat, n: nat, id: Id)
    requires DistinctKeys(body) && TraceOk(body, disk, trace) && m <= n <= |trace| && Mutating(body, id)
    requires DiskAt(body, disk, trace, m).Some?
    requires !Open(StateOf(DiskAt(body, disk, trace, m).value.actions, KeyOf(body, id)))
    ensures DiskAt(body, disk, trace, n).Some?
    ensures !Open(StateOf(DiskAt(body, disk, trace, n).value.actions, KeyOf(body, id)))
  {
    hide TraceOk, ViewOf, StepOk, After, Open, DistinctKeys;
    if m < n {
      ClosedStays(body, disk, trace, m, n - 1, id);
      TraceOkAt(body, disk, trace, n - 1);
      ClosedStep(body, ViewOf(body, disk, trace[..n - 1]), trace[n - 1], id);
    }
  }

  /** The argument vector was sent after `m`, in the invocation that `m` belongs to. */
  ghost predicate SentAfter(trace: seq<Event>, m: nat, n: nat, id: Id)
    requires n <= |trace|
  {
    exists c :: m < c < n && trace[c] == Command(Apply, id) && SameInvocation(trace, m, c)
  }

  /** Whether a changing action that is newly recorded as running is ever sent is decided in
      the invocation that records it: if that invocation ends before the action's worker
      sends it, by a crash or because another worker's exception cancelled it, no later
      invocation will. */
  lemma SentExactlyIfRecordedAndSent(body: PlanBody, disk: Option<Receipt>, trace: seq<Event>, m: nat, n: nat, id: Id)
    requires ValidBody(body) && DistinctKeys(body) && TraceOk(body, disk, trace) && m < n <= |trace|
    requires Mutating(body, id) && trace[m].Saved? && DiskAt(body, disk, trace, m).Some?
    requires Open(StateOf(DiskAt(body, disk, trace, m).value.actions, KeyOf(body, id)))
    requires StateOf(trace[m].receipt.actions, KeyOf(body, id)) == Some(Running)
    ensures WasSent(trace, n, id) <==> SentAfter(trace, m, n, id)
  {
    if WasSent(trace, n, id) {
      var c :| 0 <= c < n && trace[c] == Command(Apply, id);
      NotSentBefore(body, disk, trace, m, c, id);
      assert c != m;
      if k :| m <= k < c && trace[k].Opened? {
        NotSentLater(body, disk, trace, m, k, c, id);
        assert false;
      }
      assert SameInvocation(trace, m, c);
    }
  }

  lemma NotSentBefore(body: PlanBody, disk: Option<Receipt>, trace: seq<Event>, m: nat, c: nat, id: Id)
    requires ValidBody(body) && TraceOk(body, disk, trace) && m < |trace| && c < |trace|
    requires Mutating(body, id) && trace[c] == Command(Apply, id) && DiskAt(body, disk, trace, m).Some?
    requires Open(StateOf(DiskAt(body, disk, trace, m).value.actions, KeyOf(body, id)))
    ensures c >= m
  {
    if c < m {
      WriteAhead(body, disk, trace, c, m);
    }
  }

  lemma NotSentLater(body: PlanBody, disk: Option<Receipt>, trace: seq<Event>, m: nat, k: nat, c: nat, id: Id)
    requires DistinctKeys(body) && TraceOk(body, disk, trace) && m < k < c < |trace| && trace[k].Opened?
    requires Mutating(body, id) && trace[m].Saved? && StateOf(trace[m].receipt.actions, KeyOf(body, id)) == Some(Running)
    ensures trace[c] != Command(Apply, id)
  {
    hide TraceOk, ViewOf, DistinctKeys;
    TraceOkAt(body, disk, trace, m);
    ClosedStays(body, disk, trace, m + 1, k, id);
    TraceOkAt(body, disk, trace, k);
    BaselineClosed(body, disk, trace, k + 1, c, id);
    TraceOkAt(body, disk, trace, c);
  }

  lemma {:induction false} BaselineClosed(body: PlanBody, disk: Option<Receipt>, trace: seq<Event>, k: nat, c: nat, id: Id)
    requires DistinctKeys(body) && TraceOk(body, disk, trace) && k <= c <= |trace| && Mutating(body, id)
    requires DiskAt(body, disk, trace, k).Some?
    requires !Open(StateOf(DiskAt(body, disk, trace, k).value.actions, KeyOf(body, id)))
    requires !Open(StateOf(ViewOf(body, disk, trace[..k]).baseline, KeyOf(body, id)))
    ensures !Open(StateOf(ViewOf(body, disk, trace[..c]).baseline, KeyOf(body, id)))
  {
    hide TraceOk, ViewOf, DistinctKeys;
    if k < c {
      BaselineClosed(body, disk, trace, k, c - 1, id);
      ClosedStays(body, disk, trace, k, c - 1, id);
      TraceOkAt(body, disk, trace, c - 1);
    }
  }
}
