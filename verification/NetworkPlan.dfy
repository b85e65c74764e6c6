/** The network plan that the deployment engine runs: check every host, then change those
    that need it, each through its own journalling helper. */
module NetworkPlan {
  import opened Wrappers
  import opened Json
  import opened Plan
  import opened EngineTrace
  import NetworkGuard
  import NetworkJournal

  /** One host's part: the helper's program text with its payload, and what it carries. */
  datatype HostPart = HostPart(name: string, script: string, payload: NetworkJournal.Payload)

  function RemoteArgv(p: HostPart, operation: string): seq<string> {
    ["sudo", "-n", "python3", "-c", p.script + operation]
  }

  function CheckAction(p: HostPart): Action {
    Action(p.name, RemoteArgv(p, "check"), ReadOnly, None, [])
  }

  function ApplyAction(p: HostPart): Action {
    Action(
      p.name,
      RemoteArgv(p, "apply"),
      if p.payload.rediscover then DriverReload else MutatesHost,
      Some(NetworkJournal.VerifyCheck(RemoteArgv(p, "verify"))),
      [])
  }

  predicate Sendable(parts: seq<HostPart>) {
    && (forall i | 0 <= i < |parts| :: '\0' !in parts[i].script)
    && (forall i, j | 0 <= i < j < |parts| :: parts[i].name != parts[j].name)
  }

  /** The parts with something to run, in order. */
  function Busy(parts: seq<HostPart>): seq<HostPart> {
    if parts == [] then []
    else
      var last := parts[|parts| - 1];
      Busy(parts[..|parts| - 1]) + if last.payload.commands == [] then [] else [last]
  }

  lemma {:induction false} BusySendable(parts: seq<HostPart>)
    requires Sendable(parts)
    ensures Sendable(Busy(parts))
    ensures forall p | p in Busy(parts) :: p in parts && p.payload.commands != []
  {
    if parts != [] {
      var init, last := parts[..|parts| - 1], parts[|parts| - 1];
      BusySendable(init);
      assert forall p | p in init :: p in parts && p.name != last.name;
      forall i | 0 <= i < |Busy(init)| ensures Busy(init)[i].name != last.name && '\0' !in Busy(init)[i].script {
        assert Busy(init)[i] in Busy(init);
      }
    }
  }

  function CheckPhase(parts: seq<HostPart>): Phase {
    Phase("check-network-inventory", seq(|parts|, i requires 0 <= i < |parts| => CheckAction(parts[i])))
  }

  function ChangePhase(parts: seq<HostPart>): Phase {
    Phase("configure-data-network", seq(|Busy(parts)|, i requires 0 <= i < |Busy(parts)| => ApplyAction(Busy(parts)[i])))
  }

  function Body(parts: seq<HostPart>): PlanBody {
    PlanBody(PLAN_SCHEMA, "network", [CheckPhase(parts)] + if Busy(parts) == [] then [] else [ChangePhase(parts)])
  }

  /** One host's change, as it is sent. */
  function ChangeOf(p: HostPart): Action {
    Action(
      p.name,
      ["sudo", "-n", "python3", "-c", p.script + "apply"],
      if p.payload.rediscover then DriverReload else MutatesHost,
      Some(Check(["sudo", "-n", "python3", "-c", p.script + "verify"], None, Some(Obj(map["complete" := Bool(true)])))),
      [])
  }

  lemma {:induction false} BusyExactly(parts: seq<HostPart>)
    ensures forall p :: p in Busy(parts) <==> p in parts && p.payload.commands != []
  {
    if parts != [] {
      BusyExactly(parts[..|parts| - 1]);
      assert parts == parts[..|parts| - 1] + [parts[|parts| - 1]];
    }
  }

  /** The plan written out: a read-only check of every host in order, and, if any host has
      commands, a change of each that has. */
  ghost predicate AsSent(body: PlanBody, parts: seq<HostPart>) {
    && |body.phases| == (if forall p | p in parts :: p.payload.commands == [] then 1 else 2)
    && |body.phases[0].actions| == |parts|
    && (forall i | 0 <= i < |parts| ::
          body.phases[0].actions[i] ==
            Action(parts[i].name, ["sudo", "-n", "python3", "-c", parts[i].script + "check"], ReadOnly, None, []))
    && (|body.phases| == 2 ==>
         && (forall p | p in parts && p.payload.commands != [] :: ChangeOf(p) in body.phases[1].actions)
         && (forall a | a in body.phases[1].actions :: exists p :: p in parts && p.payload.commands != [] && a == ChangeOf(p)))
  }

  lemma BodyIsSent(parts: seq<HostPart>)
    ensures AsSent(Body(parts), parts)
  {
    hide Busy;
    BusyExactly(parts);
    var busy := Busy(parts);
    forall p | p in parts && p.payload.commands != [] ensures busy != [] && ChangeOf(p) in ChangePhase(parts).actions {
      assert p in busy;
      var k :| 0 <= k < |busy| && busy[k] == p;
      assert ChangePhase(parts).actions[k] == ChangeOf(p);
    }
    forall a | a in ChangePhase(parts).actions ensures exists p :: p in parts && p.payload.commands != [] && a == ChangeOf(p) {
      var k :| 0 <= k < |busy| && ChangePhase(parts).actions[k] == a;
      assert busy[k] in busy && a == ChangeOf(busy[k]);
    }
    if busy != [] {
      assert busy[0] in parts && busy[0].payload.commands != [];
    }
  }

  method BuildNetworkPlan(parts: seq<HostPart>) returns (plan: Document)
    requires Sendable(parts)
    ensures plan.body == Body(parts) && ValidPlan(plan)
    ensures AsSent(plan.body, parts)
  {
    hide AsSent;
    var checks: seq<Action> := [];
    var changes: seq<Action> := [];
    for i := 0 to |parts|
      invariant |checks| == i && forall k | 0 <= k < i :: checks[k] == CheckAction(parts[k])
      invariant |changes| == |Busy(parts[..i])| && forall k | 0 <= k < |changes| :: changes[k] == ApplyAction(Busy(parts[..i])[k])
    {
      assert parts[..i + 1][..i] == parts[..i];
      checks := checks + [CheckAction(parts[i])];
      if parts[i].payload.commands != [] {
        changes := changes + [ApplyAction(parts[i])];
      }
    }
    assert parts[..|parts|] == parts;
    var phases := [Phase("check-network-inventory", checks)];
    assert phases[0] == CheckPhase(parts);
    if changes != [] {
      phases := phases + [Phase("configure-data-network", changes)];
      assert phases[1] == ChangePhase(parts);
    }
    BodyIsValid(parts);
    BodyIsSent(parts);
    plan := SealPlan(PlanBody(PLAN_SCHEMA, "network", phases));
  }

  lemma ArgvIsGood(p: HostPart, operation: string)
    requires '\0' !in p.script && operation in {"check", "apply", "verify"}
    ensures GoodArgv(RemoteArgv(p, operation))
  {
    var argv := RemoteArgv(p, operation);
    forall k: nat | k < |argv| ensures '\0' !in argv[k] {
      if k == 4 {
        assert argv[4] == p.script + operation;
      }
    }
  }

  lemma PhasesAreGood(parts: seq<HostPart>)
    requires Sendable(parts)
    ensures GoodPhase(CheckPhase(parts)) && GoodPhase(ChangePhase(parts))
  {
    hide GoodArgv, RemoteArgv;
    BusySendable(parts);
    forall i: nat | i < |parts| ensures GoodAction(CheckAction(parts[i])) {
      ArgvIsGood(parts[i], "check");
    }
    forall i: nat | i < |Busy(parts)| ensures GoodAction(ApplyAction(Busy(parts)[i])) {
      ArgvIsGood(Busy(parts)[i], "apply");
    }
  }

  lemma BodyIsValid(parts: seq<HostPart>)
    requires Sendable(parts)
    ensures ValidBody(Body(parts))
  {
    hide GoodPhase, Sendable, Busy;
    PhasesAreGood(parts);
    assert CheckPhase(parts).id[1] == 'h' && ChangePhase(parts).id[1] == 'o';
  }

  lemma SecondCharacter(parts: seq<HostPart>, id: Id)
    requires HasId(Body(parts), id)
    ensures id.phase <= 1 && |KeyOf(Body(parts), id)| > 1
    ensures KeyOf(Body(parts), id)[1] == if id.phase == 0 then 'h' else 'o'
  {
    hide Busy;
    var phase := Body(parts).phases[id.phase];
    assert phase.id[1] == (if id.phase == 0 then 'h' else 'o');
    assert KeyOf(Body(parts), id)[1] == phase.id[1];
  }

  /** Whatever hosts are called, the two phases' receipt keys never coincide, so a recorded
      completion covers every action. */
  lemma NetworkKeysDistinct(parts: seq<HostPart>)
    requires Sendable(parts)
    ensures DistinctKeys(Body(parts))
  {
    hide Body, KeyOf, ValidBody, ActionOf;
    var b := Body(parts);
    BodyIsValid(parts);
    forall x, y | HasId(b, x) && HasId(b, y) && KeyOf(b, x) == KeyOf(b, y) ensures x == y {
      SecondCharacter(parts, x);
      SecondCharacter(parts, y);
      SameKeySamePhase(b, x, y);
    }
  }

  /** No host is changed before every host's inventory was checked again in the same
      invocation: fresh, resumed or crashed before. */
  lemma ChecksBeforeChanges(parts: seq<HostPart>, disk: Option<Receipt>, trace: seq<Event>, n: nat, i: nat)
    requires Sendable(parts) && TraceOk(Body(parts), disk, trace) && i < |parts|
    requires n < |trace| && trace[n].Command? && trace[n].id.phase == 1
    ensures exists m :: 0 <= m < n && SameInvocation(trace, m, n) && trace[m].Result? && trace[m].id == Id(0, i)
                        && Verified(trace[m].reply, Check(RemoteArgv(parts[i], "check"), None, None))
  {
    var b := Body(parts);
    var first := Id(0, i);
    assert HasId(b, first) && ActionOf(b, first) == CheckAction(parts[i]);
    PhaseBarrier(b, disk, trace, n, first);
    var m :| 0 <= m < n && Confirms(b, trace[m]) && trace[m].id == first && SameInvocation(trace, m, n);
    assert Passes(b, trace[m].purpose, first, trace[m].reply);
  }

  /** A host's change is confirmed only by the helper's acceptance: with what a reply can
      mean, every planned command of the plan that owns the host's journal was run, which
      are this plan's exactly when both list the same ones. */
  lemma ConfirmedMeansExecuted(parts: seq<HostPart>, e: Event, p: HostPart, owner: Option<NetworkJournal.Payload>,
                               journal: Option<NetworkJournal.Journal>, ran: seq<NetworkJournal.HostCommand>,
                               facts: NetworkGuard.Facts)
    requires Confirms(Body(parts), e) && e.id.phase == 1 && ActionOf(Body(parts), e.id) == ApplyAction(p)
    requires NetworkJournal.Consistent(owner, journal, ran)
    requires NetworkJournal.AnswersVerify(e.reply, NetworkJournal.Accepts(p.payload, journal, facts), p.payload.rediscover)
    ensures owner.Some? && owner.value.identity == p.payload.identity
    ensures ran == NetworkJournal.Planned(owner.value.commands)
    ensures ran == NetworkJournal.Planned(p.payload.commands)
       <==> NetworkJournal.Planned(p.payload.commands) == NetworkJournal.Planned(owner.value.commands)
  {
    NetworkJournal.EngineSuccessMeansExecuted(e.reply, RemoteArgv(p, "verify"), p.payload, owner, journal, ran, facts);
  }

  /** Did the helper have reason to accept this plan at some moment of its host's history? */
  ghost predicate AcceptedOnce(p: HostPart, host: seq<NetworkJournal.HostView>) {
    exists u :: 0 <= u < |host| && NetworkJournal.AcceptedHere(p.payload, host[u])
  }

  /** Did this very plan's application get done at some moment of the host's history? */
  ghost predicate AppliedOnce(p: HostPart, host: seq<NetworkJournal.HostView>) {
    exists u :: 0 <= u < |host| && host[u].owner == Some(p.payload)
  }

  /** Every answer to this program on one host came from its helper: told to verify, it answers
      for its journal; told to apply, for the change. */
  ghost predicate Answered(b: PlanBody, trace: seq<Event>, id: Id, p: HostPart, host: seq<NetworkJournal.HostView>) {
    forall n | 0 <= n < |trace| && trace[n].Result? && trace[n].id == id && HasId(b, id) ::
      && (SentArgv(b, trace[n].purpose, id) == ["sudo", "-n", "python3", "-c", p.script + "verify"] ==>
            NetworkJournal.AnswersVerify(trace[n].reply, AcceptedOnce(p, host), p.payload.rediscover))
      && (SentArgv(b, trace[n].purpose, id) == ["sudo", "-n", "python3", "-c", p.script + "apply"] ==>
            NetworkJournal.AnswersApply(trace[n].reply, AppliedOnce(p, host)))
  }

  /** At the end of its history the host belongs to this plan and has run exactly its
      planned commands. */
  ghost predicate RanItsPlan(p: HostPart, host: seq<NetworkJournal.HostView>) {
    && host != []
    && host[|host| - 1].owner == Some(p.payload)
    && host[|host| - 1].ran == NetworkJournal.Planned(p.payload.commands)
  }

  /** The two journals over their whole lives: from an unused receipt path, over any crashes
      and resumptions of the engine and any history of the host's helper, a change that the
      engine's receipt records as succeeded means that the host belongs to the engine's own
      plan and has run exactly its planned commands. */
  lemma SucceededMeansExecuted(parts: seq<HostPart>, trace: seq<Event>, n: nat, i: nat, host: seq<NetworkJournal.HostView>)
    requires Sendable(parts) && TraceOk(Body(parts), None, trace) && n <= |trace| && i < |Busy(parts)|
    requires NetworkJournal.Evolves(host) && Answered(Body(parts), trace, Id(1, i), Busy(parts)[i], host)
    requires DiskAt(Body(parts), None, trace, n).Some? && HasId(Body(parts), Id(1, i))
    requires StateOf(DiskAt(Body(parts), None, trace, n).value.actions, KeyOf(Body(parts), Id(1, i))) == Some(Succeeded)
    ensures RanItsPlan(Busy(parts)[i], host)
  {
    hide Body, Sendable, Busy, TraceOk, DiskAt, NetworkJournal.Evolves, AcceptedOnce, AppliedOnce, RanItsPlan, KeyOf, Answered;
    var b, id, p := Body(parts), Id(1, i), Busy(parts)[i];
    BodyIsValid(parts);
    NetworkKeysDistinct(parts);
    ChangeAction(parts, i);
    SuccessWasConfirmed(b, trace, n, KeyOf(b, id));
    var m :| 0 <= m < n && Confirms(b, trace[m]) && KeyOf(b, trace[m].id) == KeyOf(b, id);
    assert trace[m].id == id;
    ConfirmedWasAccepted(b, trace, m, p, host);
    SuccessAnsweredArgv(b, trace, n, KeyOf(b, id));
    AnsweredWasApplied(b, trace, n, id, p, host);
    AppliedAndAccepted(p, host);
  }

  lemma AppliedAndAccepted(p: HostPart, host: seq<NetworkJournal.HostView>)
    requires NetworkJournal.Evolves(host) && AcceptedOnce(p, host) && AppliedOnce(p, host)
    ensures RanItsPlan(p, host)
  {
    hide NetworkJournal.Consistent, NetworkJournal.Accepts, NetworkJournal.Planned;
    var u :| 0 <= u < |host| && NetworkJournal.AcceptedHere(p.payload, host[u]);
    var facts :| NetworkJournal.Accepts(p.payload, host[u].journal, facts);
    NetworkJournal.AcceptedForGood(host, u, |host| - 1, p.payload, facts);
    var s :| 0 <= s < |host| && host[s].owner == Some(p.payload);
    assert s < |host| - 1 ==> NetworkJournal.Extends(host[s], host[|host| - 1]);
  }

  lemma AnsweredWasApplied(b: PlanBody, trace: seq<Event>, n: nat, id: Id, p: HostPart, host: seq<NetworkJournal.HostView>)
    requires n <= |trace| && HasId(b, id) && DistinctKeys(b) && ArgvSucceeded(b, trace, n, KeyOf(b, id))
    requires ActionOf(b, id) == ApplyAction(p) && Answered(b, trace, id, p, host)
    ensures AppliedOnce(p, host)
  {
    hide AppliedOnce, AcceptedOnce;
    var m :| 0 <= m < n && trace[m].Result? && HasId(b, trace[m].id) && KeyOf(b, trace[m].id) == KeyOf(b, id)
             && IsPass(b, trace[m], Apply, trace[m].id);
    assert trace[m].id == id;
  }

  lemma ChangeAction(parts: seq<HostPart>, i: nat)
    requires i < |Busy(parts)|
    ensures HasId(Body(parts), Id(1, i)) && ActionOf(Body(parts), Id(1, i)) == ApplyAction(Busy(parts)[i])
  {
    hide Busy;
  }

  lemma ConfirmedWasAccepted(b: PlanBody, trace: seq<Event>, m: nat, p: HostPart, host: seq<NetworkJournal.HostView>)
    requires m < |trace| && Confirms(b, trace[m]) && ActionOf(b, trace[m].id) == ApplyAction(p)
    requires Answered(b, trace, trace[m].id, p, host)
    ensures AcceptedOnce(p, host)
  {
    hide AcceptedOnce;
  }

  /** A complete receipt means that every host with commands belongs to this plan and has
      run exactly its planned commands. */
  lemma CompleteMeansExecuted(parts: seq<HostPart>, trace: seq<Event>, n: nat, hosts: seq<seq<NetworkJournal.HostView>>)
    requires Sendable(parts) && TraceOk(Body(parts), None, trace) && |hosts| == |Busy(parts)|
    requires n < |trace| && trace[n].Saved? && trace[n].receipt.complete
    requires forall i | 0 <= i < |hosts| :: NetworkJournal.Evolves(hosts[i]) && Answered(Body(parts), trace, Id(1, i), Busy(parts)[i], hosts[i])
    ensures forall i | 0 <= i < |hosts| :: RanItsPlan(Busy(parts)[i], hosts[i])
  {
    hide Body, Sendable, Busy, TraceOk, NetworkJournal.Evolves, KeyOf, Answered, RanItsPlan;
    TraceOkAt(Body(parts), None, trace, n);
    forall i: nat | i < |hosts| ensures RanItsPlan(Busy(parts)[i], hosts[i]) {
      ChangeAction(parts, i);
      CompleteMeansAllDone(Body(parts), None, trace, n, Id(1, i));
      SucceededMeansExecuted(parts, trace, n + 1, i, hosts[i]);
    }
  }
}
