/** Concrete histories that follow every rule of the engine and show where a promise ends. */
module EngineHistories {
  import opened Wrappers
  import opened Plan
  import opened EngineTrace

  const OK := Reply(0, false, "", None)

  /** An action that changes its host and has a verification of its own. */
  function Change(host: string): Action {
    Action(host, ["change"], MutatesHost, Some(Check(["verify"], None, None)), [])
  }

  function Recorded(body: PlanBody, actions: map<string, ActionState>, completedAt: Option<Option<int>>): Receipt {
    Receipt(Sha256(body), actions, completedAt.Some?, completedAt, None)
  }

  // ---- two actions with one receipt key ----

  const SHARED := PlanBody(PLAN_SCHEMA, "shared", [Phase("a", [Change("b:c")]), Phase("a:b", [Change("c")])])

  lemma SharedIsValid()
    ensures ValidBody(SHARED)
    ensures KeyOf(SHARED, Id(0, 0)) == KeyOf(SHARED, Id(1, 0)) == "a:b:c"
    ensures forall id | HasId(SHARED, id) :: id == Id(0, 0) || id == Id(1, 0)
  {
    assert "a"[0] == 'a' && |"a"| == 1 && |"a:b"| == 3;
    assert Key("a", "b:c") == "a:b:c" && Key("a:b", "c") == "a:b:c";
  }

  function Shared(actions: map<string, ActionState>): Receipt {
    Recorded(SHARED, actions, None)
  }

  /** The first action runs; the second takes its success for its own, and passes. */
  function SharedHistory(): seq<Event> {
    var first, second := Id(0, 0), Id(1, 0);
    [Opened(Shared(map[])),
     Saved(Shared(map["a:b:c" := Running])),
     Command(Apply, first), Result(Apply, first, OK),
     Command(Verify, first), Result(Verify, first, OK),
     Saved(Shared(map["a:b:c" := Succeeded])),
     Command(Recheck, second), Result(Recheck, second, OK),
     Saved(Recorded(SHARED, map["a:b:c" := Succeeded], Some(Some(0))))]
  }

  lemma SharedSaves(v: View)
    requires v.disk.Some? && v.baseline == map[]
    ensures v.disk.value == Shared(map[]) ==> StepOk(SHARED, v, SharedHistory()[1])
    ensures v.disk.value == Shared(map["a:b:c" := Running]) && Id(0, 0) in v.begun * v.confirmed ==>
              StepOk(SHARED, v, SharedHistory()[6])
    ensures v.disk.value == Shared(map["a:b:c" := Succeeded]) && Id(0, 0) in v.confirmed && Id(1, 0) in v.confirmed ==>
              StepOk(SHARED, v, SharedHistory()[9])
  {
    SharedIsValid();
  }

  lemma SharedCommands(v: View)
    requires v.disk.Some? && v.baseline == map[]
    ensures v.disk.value == Shared(map["a:b:c" := Running]) && v.begun == {} && v.issued == {} ==>
              StepOk(SHARED, v, SharedHistory()[2])
    ensures Id(0, 0) in v.argvOk ==> StepOk(SHARED, v, SharedHistory()[4])
    ensures v.disk.value == Shared(map["a:b:c" := Succeeded]) && Id(0, 0) in v.confirmed && Id(1, 0) !in v.begun ==>
              StepOk(SHARED, v, SharedHistory()[7])
  {
    SharedIsValid();
  }

  lemma SharedPasses()
    ensures Passes(SHARED, Apply, Id(0, 0), OK) && Passes(SHARED, Verify, Id(0, 0), OK) && Passes(SHARED, Recheck, Id(1, 0), OK)
    ensures Confirms(SHARED, SharedHistory()[5]) && Confirms(SHARED, SharedHistory()[8])
  {
  }

  /** The first `n` events follow the rules and lead to `v`. */
  ghost predicate Follows(body: PlanBody, h: seq<Event>, n: nat, v: View) {
    n <= |h| && TraceOk(body, None, h[..n]) && ViewOf(body, None, h[..n]) == v
  }

  lemma FollowOn(body: PlanBody, h: seq<Event>, n: nat, v: View)
    requires n < |h| && Follows(body, h, n, v) && StepOk(body, v, h[n])
    ensures Follows(body, h, n + 1, After(body, v, h[n]))
  {
    Snoc(body, None, h[..n], h[n]);
    assert h[..n] + [h[n]] == h[..n + 1];
  }

  lemma FollowsNothing(body: PlanBody, h: seq<Event>)
    ensures Follows(body, h, 0, Start(None))
  {
  }

  lemma SharedStarts() returns (v: View)
    ensures Follows(SHARED, SharedHistory(), 3, v)
    ensures v.disk == Some(Shared(map["a:b:c" := Running])) && v.baseline == map[]
    ensures v.begun == {Id(0, 0)} && v.issued == {(Apply, Id(0, 0))} && v.answered == {}
  {
    hide Follows, SaveOk, CommandOk, Passes, Confirms, Refuses, Unsettles;
    var h := SharedHistory();
    v := Start(None);
    FollowsNothing(SHARED, h);
    FollowOn(SHARED, h, 0, v);
    v := After(SHARED, v, h[0]);
    SharedSaves(v);
    FollowOn(SHARED, h, 1, v);
    v := After(SHARED, v, h[1]);
    SharedCommands(v);
    FollowOn(SHARED, h, 2, v);
    v := After(SHARED, v, h[2]);
  }

  lemma SharedRuns() returns (v: View)
    ensures Follows(SHARED, SharedHistory(), 6, v)
    ensures v.disk == Some(Shared(map["a:b:c" := Running])) && v.baseline == map[]
    ensures v.begun == {Id(0, 0)} && Id(0, 0) in v.confirmed
  {
    hide Follows, SaveOk, CommandOk, Passes, Confirms, Refuses, Unsettles;
    var h := SharedHistory();
    v := SharedStarts();
    SharedPasses();
    FollowOn(SHARED, h, 3, v);
    v := After(SHARED, v, h[3]);
    SharedCommands(v);
    FollowOn(SHARED, h, 4, v);
    v := After(SHARED, v, h[4]);
    FollowOn(SHARED, h, 5, v);
    v := After(SHARED, v, h[5]);
  }

  /** A valid plan completes although one of its changing actions was never sent. */
  lemma SharedKeyCompletes()
    ensures ValidPlan(SealPlan(SHARED)) && !DistinctKeys(SHARED)
    ensures TraceOk(SHARED, None, SharedHistory())
    ensures SharedHistory()[9].Saved? && SharedHistory()[9].receipt.complete
    ensures Mutating(SHARED, Id(1, 0)) && !WasSent(SharedHistory(), 10, Id(1, 0))
  {
    hide TraceOk, ViewOf;
    SharedIsValid();
    assert HasId(SHARED, Id(0, 0)) && HasId(SHARED, Id(1, 0));
    SharedFollows();
    SharedKeyHidesAction(SHARED, None, SharedHistory(), 10, Id(0, 0), Id(1, 0));
  }

  lemma SharedFollows()
    ensures TraceOk(SHARED, None, SharedHistory())
  {
    hide Follows, SaveOk, CommandOk, Passes, Confirms, Refuses, Unsettles;
    var h := SharedHistory();
    var v := SharedRuns();
    SharedSaves(v);
    FollowOn(SHARED, h, 6, v);
    v := After(SHARED, v, h[6]);
    SharedCommands(v);
    FollowOn(SHARED, h, 7, v);
    v := After(SHARED, v, h[7]);
    SharedPasses();
    FollowOn(SHARED, h, 8, v);
    v := After(SHARED, v, h[8]);
    SharedSaves(v);
    FollowOn(SHARED, h, 9, v);
    FollowsAll(SHARED, h, After(SHARED, v, h[9]));
  }

  // ---- an action recorded as running and never sent ----

  const PAIR := PlanBody(PLAN_SCHEMA, "pair", [Phase("p", [Change("x"), Change("y")])])

  /** Both actions are saved as running; the first one's runner raises, the second is
      cancelled, and a later invocation opens the receipt again. */
  function CancelledHistory(): seq<Event> {
    [Opened(Recorded(PAIR, map[], None)),
     Saved(Recorded(PAIR, map["p:x" := Running, "p:y" := Running], None)),
     Command(Apply, Id(0, 0)), Result(Apply, Id(0, 0), Raised),
     Opened(Recorded(PAIR, map["p:x" := Running, "p:y" := Running], None))]
  }

  lemma PairIsValid()
    ensures ValidBody(PAIR) && DistinctKeys(PAIR)
    ensures KeyOf(PAIR, Id(0, 0)) == "p:x" && KeyOf(PAIR, Id(0, 1)) == "p:y"
    ensures forall id | HasId(PAIR, id) :: id == Id(0, 0) || id == Id(0, 1)
  {
    assert Key("p", "x") == "p:x" && Key("p", "y") == "p:y";
    assert "x"[0] != "y"[0] && "p:x"[2] != "p:y"[2];
  }

  lemma PairSteps(v: View)
    requires v.disk.Some? && v.baseline == map[]
    ensures v.disk.value == Recorded(PAIR, map[], None) ==> StepOk(PAIR, v, CancelledHistory()[1])
    ensures v.disk.value == Recorded(PAIR, map["p:x" := Running, "p:y" := Running], None) && v.begun == {} && v.issued == {} ==>
              StepOk(PAIR, v, CancelledHistory()[2])
  {
    PairIsValid();
  }

  /** A changing action stands as running on disk, was never sent, and never will be,
      however the history goes on. */
  lemma RunningNeverSent(later: seq<Event>)
    requires TraceOk(PAIR, None, CancelledHistory() + later)
    ensures Mutating(PAIR, Id(0, 1))
    ensures var t := CancelledHistory() + later;
            && !WasSent(t, |t|, Id(0, 1))
            && DiskAt(PAIR, None, t, |t|).Some?
            && StateOf(DiskAt(PAIR, None, t, |t|).value.actions, KeyOf(PAIR, Id(0, 1))) == Some(Running)
  {
    PairIsValid();
    var t := CancelledHistory() + later;
    assert HasId(PAIR, Id(0, 1));
    UnknownIsFinal(PAIR, None, t, 4, |t|, Id(0, 1));
    forall c | 0 <= c < |t| ensures t[c] != Command(Apply, Id(0, 1)) {
      if c > 4 {
        UnknownIsFinal(PAIR, None, t, 4, c, Id(0, 1));
      }
    }
  }

  /** Such a history exists. */
  lemma CancelledFollows()
    ensures TraceOk(PAIR, None, CancelledHistory())
  {
    hide Follows, SaveOk, CommandOk, Passes, Confirms, Refuses, Unsettles;
    var h := CancelledHistory();
    var v := Start(None);
    FollowsNothing(PAIR, h);
    FollowOn(PAIR, h, 0, v);
    v := After(PAIR, v, h[0]);
    PairSteps(v);
    FollowOn(PAIR, h, 1, v);
    v := After(PAIR, v, h[1]);
    PairSteps(v);
    FollowOn(PAIR, h, 2, v);
    v := After(PAIR, v, h[2]);
    FollowOn(PAIR, h, 3, v);
    v := After(PAIR, v, h[3]);
    FollowOn(PAIR, h, 4, v);
    FollowsAll(PAIR, h, After(PAIR, v, h[4]));
  }

  lemma FollowsAll(body: PlanBody, h: seq<Event>, v: View)
    requires Follows(body, h, |h|, v)
    ensures TraceOk(body, None, h)
  {
    assert h[..|h|] == h;
  }
}
