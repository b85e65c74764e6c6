/** What the engine records of an action, told by the replies that came back. */
module EngineOutcomes {
  import opened Wrappers
  import opened Plan
  import opened EngineTrace

  /** Event `m` answers a command of this kind for this action, in the invocation of `n`. */
  ghost predicate AnswerAt(trace: seq<Event>, m: int, n: nat, purpose: Purpose, id: Id) {
    0 <= m < n <= |trace| && trace[m].Result? && trace[m].purpose == purpose && trace[m].id == id && SameInvocation(trace, m, n)
  }

  lemma {:induction false} AnswerStays(body: PlanBody, disk: Option<Receipt>, trace: seq<Event>, m: int, n: nat, purpose: Purpose, id: Id)
    requires TraceOk(body, disk, trace) && AnswerAt(trace, m, n, purpose, id) && (purpose.Apply? || purpose.Verify?)
    ensures (purpose, id) in ViewOf(body, disk, trace[..n]).answered
  {
    hide StepOk;
    TraceOkAt(body, disk, trace, n - 1);
    if m < n - 1 {
      AnswerStays(body, disk, trace, m, n - 1, purpose, id);
    }
  }

  /** An invocation gets one answer to an argument vector and one to its verification. */
  lemma OneAnswer(body: PlanBody, disk: Option<Receipt>, trace: seq<Event>, m: int, k: int, n: nat, purpose: Purpose, id: Id)
    requires TraceOk(body, disk, trace) && (purpose.Apply? || purpose.Verify?)
    requires AnswerAt(trace, m, n, purpose, id) && AnswerAt(trace, k, n, purpose, id)
    ensures m == k
  {
    if m != k {
      var first, second := if m < k then m else k, if m < k then k else m;
      AnswerStays(body, disk, trace, first, second, purpose, id);
      TraceOkAt(body, disk, trace, second);
      assert false;
    }
  }

  lemma {:induction false} RefusedWitness(body: PlanBody, disk: Option<Receipt>, trace: seq<Event>, n: nat, id: Id)
    requires n <= |trace| && id in ViewOf(body, disk, trace[..n]).refused
    ensures exists m :: AnswerAt(trace, m, n, Apply, id) && Refuses(body, trace[m])
  {
    hide Refuses;
    assert trace[..n][..n - 1] == trace[..n - 1];
    if trace[n - 1].Result? && trace[n - 1].id == id && Refuses(body, trace[n - 1]) {
      RefusesIsApply(body, trace[n - 1]);
      assert AnswerAt(trace, n - 1, n, Apply, id);
    } else {
      RefusedWitness(body, disk, trace, n - 1, id);
      var m :| AnswerAt(trace, m, n - 1, Apply, id) && Refuses(body, trace[m]);
      assert AnswerAt(trace, m, n, Apply, id);
    }
  }

  lemma RefusesIsApply(body: PlanBody, e: Event)
    requires Refuses(body, e)
    ensures e.Result? && e.purpose.Apply?
  {
  }

  lemma {:induction false} UnsureWitness(body: PlanBody, disk: Option<Receipt>, trace: seq<Event>, n: nat, id: Id)
    requires n <= |trace| && id in ViewOf(body, disk, trace[..n]).unsure
    ensures exists m, purpose :: AnswerAt(trace, m, n, purpose, id) && Unsettles(body, trace[m])
  {
    hide Unsettles;
    assert trace[..n][..n - 1] == trace[..n - 1];
    if trace[n - 1].Result? && trace[n - 1].id == id && Unsettles(body, trace[n - 1]) {
      UnsettlesIsResult(body, trace[n - 1]);
      assert AnswerAt(trace, n - 1, n, trace[n - 1].purpose, id);
    } else {
      UnsureWitness(body, disk, trace, n - 1, id);
      var m, purpose :| AnswerAt(trace, m, n - 1, purpose, id) && Unsettles(body, trace[m]);
      assert AnswerAt(trace, m, n, purpose, id);
    }
  }

  lemma UnsettlesIsResult(body: PlanBody, e: Event)
    requires Unsettles(body, e)
    ensures e.Result? && (e.purpose.Apply? || e.purpose.Verify?)
  {
  }

  /** The argument vector's answer behind an accepted one. */
  lemma {:induction false} OkWitness(body: PlanBody, disk: Option<Receipt>, trace: seq<Event>, n: nat, id: Id)
    requires n <= |trace| && id in ViewOf(body, disk, trace[..n]).argvOk
    ensures exists m :: AnswerAt(trace, m, n, Apply, id) && Passes(body, Apply, id, trace[m].reply)
  {
    hide Passes;
    assert trace[..n][..n - 1] == trace[..n - 1];
    var e := trace[n - 1];
    if e.Result? && e.purpose.Apply? && e.id == id && Passes(body, Apply, id, e.reply) {
      assert AnswerAt(trace, n - 1, n, Apply, id);
    } else {
      OkWitness(body, disk, trace, n - 1, id);
      var m :| AnswerAt(trace, m, n - 1, Apply, id) && Passes(body, Apply, id, trace[m].reply);
      assert AnswerAt(trace, m, n, Apply, id);
    }
  }

  lemma {:induction false} BegunWitness(body: PlanBody, disk: Option<Receipt>, trace: seq<Event>, n: nat, id: Id)
    requires n <= |trace| && id in ViewOf(body, disk, trace[..n]).begun
    ensures exists c :: 0 <= c < n && trace[c] == Command(Apply, id) && SameInvocation(trace, c, n)
  {
    assert trace[..n][..n - 1] == trace[..n - 1];
    if trace[n - 1] == Command(Apply, id) {
      assert SameInvocation(trace, n - 1, n);
    } else {
      BegunWitness(body, disk, trace, n - 1, id);
      var c :| 0 <= c < n - 1 && trace[c] == Command(Apply, id) && SameInvocation(trace, c, n - 1);
      assert SameInvocation(trace, c, n);
    }
  }

  lemma {:induction false} CommandStays(body: PlanBody, disk: Option<Receipt>, trace: seq<Event>, c: nat, n: nat, purpose: Purpose, id: Id)
    requires c < n <= |trace| && trace[c] == Command(purpose, id) && SameInvocation(trace, c, n)
    ensures (purpose, id) in ViewOf(body, disk, trace[..n]).issued
    ensures purpose.Apply? ==> id in ViewOf(body, disk, trace[..n]).begun
  {
    assert trace[..n][..n - 1] == trace[..n - 1];
    if c < n - 1 {
      CommandStays(body, disk, trace, c, n - 1, purpose, id);
    }
  }

  /** No action is sent and rechecked in one invocation. */
  lemma SentIsNotRechecked(body: PlanBody, disk: Option<Receipt>, trace: seq<Event>, c: nat, d: nat, n: nat, id: Id)
    requires TraceOk(body, disk, trace) && c < n <= |trace| && d < n
    requires trace[c] == Command(Apply, id) && SameInvocation(trace, c, n) && SameInvocation(trace, d, n)
    ensures trace[d] != Command(Recheck, id)
  {
    if trace[d] == Command(Recheck, id) {
      if c < d {
        CommandStays(body, disk, trace, c, d, Apply, id);
        TraceOkAt(body, disk, trace, d);
      } else {
        CommandStays(body, disk, trace, d, c, Recheck, id);
        TraceOkAt(body, disk, trace, c);
      }
      assert false;
    }
  }

  /** A success recorded of an action that was sent in this invocation: its argument vector
      was answered well, and so was its verification, if it has one. */
  lemma SentAndConfirmed(body: PlanBody, disk: Option<Receipt>, trace: seq<Event>, n: nat, id: Id)
    requires TraceOk(body, disk, trace) && n <= |trace| && HasId(body, id)
    requires id in ViewOf(body, disk, trace[..n]).begun * ViewOf(body, disk, trace[..n]).confirmed
    ensures exists m :: AnswerAt(trace, m, n, Apply, id) && Passes(body, Apply, id, trace[m].reply)
    ensures ActionOf(body, id).verify.Some? ==>
              exists m :: AnswerAt(trace, m, n, Verify, id) && Passes(body, Verify, id, trace[m].reply)
  {
    hide TraceOk, ViewOf, Passes;
    BegunWitness(body, disk, trace, n, id);
    var sent :| 0 <= sent < n && trace[sent] == Command(Apply, id) && SameInvocation(trace, sent, n);
    ConfirmedWitness(body, disk, trace, n, id);
    var m :| 0 <= m < n && Confirms(body, trace[m]) && trace[m].id == id && SameInvocation(trace, m, n);
    assert AnswerAt(trace, m, n, trace[m].purpose, id);
    TraceOkAt(body, disk, trace, m);
    IssuedWitness(body, disk, trace, m, trace[m].purpose, id);
    var c :| 0 <= c < m && trace[c] == Command(trace[m].purpose, id) && SameInvocation(trace, c, m);
    assert SameInvocation(trace, c, n);
    SentIsNotRechecked(body, disk, trace, sent, c, n, id);
    if trace[m].purpose.Verify? {
      TraceOkAt(body, disk, trace, c);
      OkWitness(body, disk, trace, c, id);
      var k :| AnswerAt(trace, k, c, Apply, id) && Passes(body, Apply, id, trace[k].reply);
      assert AnswerAt(trace, k, n, Apply, id);
    }
  }

  /** The outcome newly recorded of an action: `now`, in place of running, by the save at `n`. */
  ghost predicate NewOutcome(body: PlanBody, disk: Option<Receipt>, trace: seq<Event>, n: nat, id: Id, now: ActionState) {
    && n < |trace| && trace[n].Saved? && HasId(body, id) && DiskAt(body, disk, trace, n).Some?
    && StateOf(DiskAt(body, disk, trace, n).value.actions, KeyOf(body, id)) == Some(Running)
    && now != Running && StateOf(trace[n].receipt.actions, KeyOf(body, id)) == Some(now)
  }

  /** Some verification of the action in this invocation was answered and not accepted. */
  ghost predicate VerificationFailed(body: PlanBody, trace: seq<Event>, n: nat, id: Id)
    requires HasId(body, id)
  {
    exists m :: AnswerAt(trace, m, n, Verify, id) && trace[m].reply.Reply?
                && ActionOf(body, id).verify.Some? && !Verified(trace[m].reply, ActionOf(body, id).verify.value)
  }

  /** What is recorded of an action that was sent is decided by its replies. It is `failed`
      exactly when the action changes nothing and its argument vector was answered,
      certainly, with a return code other than zero. It is `uncertain` exactly when that
      answer was uncertain, or had such a code and the action changes something, or the
      verification was answered and not accepted. Else it is `succeeded`. */
  lemma RecordedOutcome(body: PlanBody, disk: Option<Receipt>, trace: seq<Event>, n: nat, id: Id, now: ActionState)
    requires DistinctKeys(body) && TraceOk(body, disk, trace) && NewOutcome(body, disk, trace, n, id, now)
    ensures exists m :: AnswerAt(trace, m, n, Apply, id)
    ensures forall m | AnswerAt(trace, m, n, Apply, id) ::
              var reply := trace[m].reply;
              && reply.Reply?
              && (now == Failed <==> ActionOf(body, id).risk == ReadOnly && !reply.uncertain && reply.returncode != 0)
              && (now == Uncertain <==>
                   || reply.uncertain
                   || (reply.returncode != 0 && ActionOf(body, id).risk != ReadOnly)
                   || VerificationFailed(body, trace, n, id))
  {
    hide TraceOk, ViewOf;
    Backing(body, disk, trace, n, id, now);
    var a: int := ArgvAnswer(body, disk, trace, n, id, now);
    forall m | AnswerAt(trace, m, n, Apply, id) ensures m == a {
      OneAnswer(body, disk, trace, m, a, n, Apply, id);
    }
    if VerificationFailed(body, trace, n, id) {
      FailedVerification(body, disk, trace, n, id, a, now);
    }
  }

  /** Which view sets a new outcome rests on. */
  lemma Backing(body: PlanBody, disk: Option<Receipt>, trace: seq<Event>, n: nat, id: Id, now: ActionState)
    requires DistinctKeys(body) && TraceOk(body, disk, trace) && NewOutcome(body, disk, trace, n, id, now)
    ensures var v := ViewOf(body, disk, trace[..n]);
            && id in v.begun
            && (now == Succeeded ==> id in v.confirmed)
            && (now == Uncertain ==> id in v.unsure)
            && (now == Failed ==> id in v.refused)
  {
    hide TraceOk, ViewOf, DistinctKeys;
    TraceOkAt(body, disk, trace, n);
    var v, key := ViewOf(body, disk, trace[..n]), KeyOf(body, id);
    assert MoveOk(body, v, key, StateOf(v.disk.value.actions, key), StateOf(trace[n].receipt.actions, key));
    OnlyOne(body, id);
  }

  lemma OnlyOne(body: PlanBody, id: Id)
    requires DistinctKeys(body) && HasId(body, id)
    ensures forall other | HasId(body, other) && KeyOf(body, other) == KeyOf(body, id) :: other == id
  {
  }

  /** The answer to the argument vector behind a new outcome. */
  lemma ArgvAnswer(body: PlanBody, disk: Option<Receipt>, trace: seq<Event>, n: nat, id: Id, now: ActionState) returns (m: nat)
    requires TraceOk(body, disk, trace) && NewOutcome(body, disk, trace, n, id, now)
    requires var v := ViewOf(body, disk, trace[..n]);
             && id in v.begun
             && (now == Succeeded ==> id in v.confirmed)
             && (now == Uncertain ==> id in v.unsure)
             && (now == Failed ==> id in v.refused)
    ensures AnswerAt(trace, m, n, Apply, id) && trace[m].reply.Reply?
    ensures now == Failed ==> Refuses(body, trace[m])
    ensures now == Succeeded ==> Passes(body, Apply, id, trace[m].reply)
    ensures now == Uncertain ==> Unsettles(body, trace[m]) || (Passes(body, Apply, id, trace[m].reply) && VerificationFailed(body, trace, n, id))
  {
    hide TraceOk, ViewOf;
    if now == Failed {
      RefusedWitness(body, disk, trace, n, id);
      var k :| AnswerAt(trace, k, n, Apply, id) && Refuses(body, trace[k]);
      m := k;
    } else if now == Uncertain {
      UnsureWitness(body, disk, trace, n, id);
      var k, purpose :| AnswerAt(trace, k, n, purpose, id) && Unsettles(body, trace[k]);
      m := k;
      if purpose.Verify? {
        m := BeforeVerification(body, disk, trace, k, n, id);
      }
    } else {
      SentAndConfirmed(body, disk, trace, n, id);
      var k :| AnswerAt(trace, k, n, Apply, id) && Passes(body, Apply, id, trace[k].reply);
      m := k;
    }
  }

  /** A verification is only sent after a good answer to the argument vector. */
  lemma BeforeVerification(body: PlanBody, disk: Option<Receipt>, trace: seq<Event>, k: int, n: nat, id: Id) returns (m: nat)
    requires TraceOk(body, disk, trace) && AnswerAt(trace, k, n, Verify, id)
    ensures AnswerAt(trace, m, n, Apply, id) && Passes(body, Apply, id, trace[m].reply)
  {
    hide TraceOk, ViewOf, Passes;
    TraceOkAt(body, disk, trace, k);
    IssuedWitness(body, disk, trace, k, Verify, id);
    var c :| 0 <= c < k && trace[c] == Command(Verify, id) && SameInvocation(trace, c, k);
    TraceOkAt(body, disk, trace, c);
    OkWitness(body, disk, trace, c, id);
    var j :| AnswerAt(trace, j, c, Apply, id) && Passes(body, Apply, id, trace[j].reply);
    m := j;
    assert AnswerAt(trace, m, n, Apply, id);
  }

  /** With a failed verification the argument vector had succeeded, and no success is recorded. */
  lemma FailedVerification(body: PlanBody, disk: Option<Receipt>, trace: seq<Event>, n: nat, id: Id, a: int, now: ActionState)
    requires TraceOk(body, disk, trace) && NewOutcome(body, disk, trace, n, id, now)
    requires VerificationFailed(body, trace, n, id) && AnswerAt(trace, a, n, Apply, id)
    requires now == Failed ==> Refuses(body, trace[a])
    requires var v := ViewOf(body, disk, trace[..n]); id in v.begun && (now == Succeeded ==> id in v.confirmed)
    ensures now == Uncertain
  {
    hide TraceOk, ViewOf;
    var f :| AnswerAt(trace, f, n, Verify, id) && trace[f].reply.Reply? && !Verified(trace[f].reply, ActionOf(body, id).verify.value);
    var m := BeforeVerification(body, disk, trace, f, n, id);
    OneAnswer(body, disk, trace, m, a, n, Apply, id);
    if now == Succeeded {
      SentAndConfirmed(body, disk, trace, n, id);
      var k :| AnswerAt(trace, k, n, Verify, id) && Passes(body, Verify, id, trace[k].reply);
      OneAnswer(body, disk, trace, k, f, n, Verify, id);
      assert false;
    }
  }

  lemma {:induction false} MissedWitness(body: PlanBody, disk: Option<Receipt>, trace: seq<Event>, n: nat, purpose: Purpose, id: Id)
    requires n <= |trace| && (purpose, id) in ViewOf(body, disk, trace[..n]).missed
    ensures exists m :: AnswerAt(trace, m, n, purpose, id) && !Passes(body, purpose, id, trace[m].reply)
  {
    hide Passes;
    assert trace[..n][..n - 1] == trace[..n - 1];
    var e := trace[n - 1];
    if e.Result? && e.purpose == purpose && e.id == id && !Passes(body, purpose, id, e.reply) {
      assert AnswerAt(trace, n - 1, n, purpose, id);
    } else {
      MissedWitness(body, disk, trace, n - 1, purpose, id);
      var m :| AnswerAt(trace, m, n - 1, purpose, id) && !Passes(body, purpose, id, trace[m].reply);
      assert AnswerAt(trace, m, n, purpose, id);
    }
  }

  /** A save that changes the recorded failure without completing names a check before a phase,
      or a renewed verification, of that action, which was answered in the same invocation
      and not as the plan asks. */
  lemma RecordedFailure(body: PlanBody, disk: Option<Receipt>, trace: seq<Event>, n: nat)
    requires TraceOk(body, disk, trace) && n < |trace| && trace[n].Saved? && DiskAt(body, disk, trace, n).Some?
    requires !trace[n].receipt.complete && trace[n].receipt.failure != DiskAt(body, disk, trace, n).value.failure
    ensures trace[n].receipt.failure.Some?
    ensures exists m, purpose, id ::
              && AnswerAt(trace, m, n, purpose, id) && !Passes(body, purpose, id, trace[m].reply)
              && HasId(body, id) && trace[n].receipt.failure.value.action == KeyOf(body, id)
              && ((purpose.Preflight? && trace[n].receipt.failure.value.stage == "preflight")
                  || (purpose.Recheck? && trace[n].receipt.failure.value.stage == "resume_verification"))
  {
    hide TraceOk, ViewOf, Passes;
    TraceOkAt(body, disk, trace, n);
    var v, failure := ViewOf(body, disk, trace[..n]), trace[n].receipt.failure;
    assert FailureOk(body, v, failure);
    var purpose, id :| (purpose, id) in v.missed && HasId(body, id) && KeyOf(body, id) == failure.value.action
                       && StageName(purpose, failure.value.stage);
    MissedWitness(body, disk, trace, n, purpose, id);
  }

  /** Every reply since `from` was what the plan asks for, or a certain error of an action
      that changes nothing. */
  ghost predicate OnlyRefusals(body: PlanBody, trace: seq<Event>, from: nat) {
    forall m | from <= m < |trace| && trace[m].Result? ::
      || Passes(body, trace[m].purpose, trace[m].id, trace[m].reply)
      || (&& trace[m].purpose.Apply? && HasId(body, trace[m].id) && ActionOf(body, trace[m].id).risk == ReadOnly
          && trace[m].reply.Reply? && !trace[m].reply.uncertain && trace[m].reply.returncode != 0)
  }

  lemma {:induction false} CleanSince(body: PlanBody, disk: Option<Receipt>, trace: seq<Event>, from: nat, n: nat)
    requires from < n <= |trace| && trace[from].Opened? && OnlyRefusals(body, trace, from)
    ensures ViewOf(body, disk, trace[..n]).clean
  {
    hide Passes;
    assert trace[..n][..n - 1] == trace[..n - 1];
    if from < n - 1 {
      CleanSince(body, disk, trace, from, n - 1);
    }
  }
}
