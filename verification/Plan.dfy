/** Deployment plans, their seal, and the structural rules a plan must meet. */
module Plan {
  import opened Wrappers
  import opened Json

  datatype Risk =
    | ReadOnly
    | MutatesHost
    | DriverReload
    | StartsModel
    | StopsModel
    | HardwareTest
    | Unrecognised(text: string)

  /** A command whose output must match: exact text, a document, or neither. */
  datatype Check = Check(argv: seq<string>, stdout: Option<string>, json: Option<Json>)

  datatype Action = Action(
    host: string,
    argv: seq<string>,
    risk: Risk,
    verify: Option<Check>,
    checks: seq<Check>)

  datatype Phase = Phase(id: string, actions: seq<Action>)

  /** Everything the digest covers. */
  datatype PlanBody = PlanBody(schema: string, operation: string, phases: seq<Phase>)

  /** SHA-256 as an injective digest: a hex string is the digest of one body, or of none. */
  datatype Digest = Sha256(body: PlanBody) | OtherText(text: string)

  /** A plan document: a body and the digest it claims. */
  datatype Document = Document(body: PlanBody, sha256: Digest)

  const PLAN_SCHEMA := "sparkring-deploy-plan/v1"

  function PlanDigest(plan: Document): Digest {
    Sha256(plan.body)
  }

  function SealPlan(body: PlanBody): Document {
    Document(body, Sha256(body))
  }

  /** What a command runner reports. `text` is the output without surrounding blanks,
      `document` its parse, if it is JSON; `Raised` stands for an exception. */
  datatype Reply =
    | Reply(returncode: int, uncertain: bool, text: string, document: Option<Json>)
    | Raised

  predicate Verified(result: Reply, expected: Check) {
    && result.Reply?
    && result.returncode == 0
    && !result.uncertain
    && (expected.stdout.Some? ==> result.text == expected.stdout.value)
    && (expected.json.Some? ==> result.document.Some? && Matches(result.document.value, expected.json.value))
  }

  /** A check with a weaker expected document accepts everything the stronger one accepts. */
  lemma VerifiedWeaker(result: Reply, strong: Check, weak: Check)
    requires strong.json.Some? && weak.json.Some? && strong.stdout == weak.stdout
    requires Matches(strong.json.value, weak.json.value)
    requires Verified(result, strong)
    ensures Verified(result, weak)
  {
    MatchesTransitive(result.document.value, strong.json.value, weak.json.value);
  }

  /** A check accepts exactly the certain replies without an error whose output is the text
      asked for and whose document has, at every path, what is asked for there. */
  lemma VerifiedExactly(result: Reply, expected: Check)
    ensures Verified(result, expected) <==>
              && result.Reply? && !result.uncertain && result.returncode == 0
              && (expected.stdout.Some? ==> result.text == expected.stdout.value)
              && (expected.json.Some? ==> result.document.Some? && FitsEverywhere(result.document.value, expected.json.value))
  {
    if result.Reply? && expected.json.Some? && result.document.Some? {
      MatchesByPath(result.document.value, expected.json.value);
    }
  }

  // ---- structural rules ----

  predicate GoodArgv(argv: seq<string>) {
    argv != [] && forall a | a in argv :: '\0' !in a
  }

  predicate GoodAction(a: Action) {
    GoodArgv(a.argv) && !a.risk.Unrecognised? && (a.risk != ReadOnly ==> a.verify.Some?)
  }

  predicate GoodPhase(ph: Phase) {
    && ph.id != ""
    && (forall i, j | 0 <= i < j < |ph.actions| :: ph.actions[i].host != ph.actions[j].host)
    && (forall i | 0 <= i < |ph.actions| :: GoodAction(ph.actions[i]))
  }

  predicate ValidBody(body: PlanBody) {
    && body.schema == PLAN_SCHEMA
    && (forall p, q | 0 <= p < q < |body.phases| :: body.phases[p].id != body.phases[q].id)
    && (forall p | 0 <= p < |body.phases| :: GoodPhase(body.phases[p]))
  }

  predicate ValidPlan(plan: Document) {
    ValidBody(plan.body) && plan.sha256 == PlanDigest(plan)
  }

  datatype ActionError = SameHost | NoArgv | NoRisk | NoVerification

  datatype PlanError =
    | PlanChanged
    | DuplicatePhase(phase: nat)
    | BadAction(phase: nat, action: nat, why: ActionError)

  ghost predicate IsActionDefect(actions: seq<Action>, i: nat, e: ActionError) {
    && i < |actions|
    && match e
       case SameHost => exists j | 0 <= j < i :: actions[j].host == actions[i].host
       case NoArgv => !GoodArgv(actions[i].argv)
       case NoRisk => actions[i].risk.Unrecognised?
       case NoVerification => actions[i].risk != ReadOnly && actions[i].verify.None?
  }

  /** What a reported error says about the plan. */
  ghost predicate IsDefect(plan: Document, e: PlanError) {
    var phases := plan.body.phases;
    match e
    case PlanChanged => plan.body.schema != PLAN_SCHEMA || plan.sha256 != PlanDigest(plan)
    case DuplicatePhase(p) =>
      p < |phases| && (phases[p].id == "" || exists q | 0 <= q < p :: phases[q].id == phases[p].id)
    case BadAction(p, i, why) => p < |phases| && IsActionDefect(phases[p].actions, i, why)
  }

  lemma BadActionBadPhase(ph: Phase, i: nat, e: ActionError)
    requires IsActionDefect(ph.actions, i, e)
    ensures !GoodPhase(ph)
  {
    if e == SameHost {
      var j :| 0 <= j < i && ph.actions[j].host == ph.actions[i].host;
    }
  }

  method ValidateActions(actions: seq<Action>) returns (error: Option<(nat, ActionError)>)
    ensures error.None? ==> forall i, j | 0 <= i < j < |actions| :: actions[i].host != actions[j].host
    ensures error.None? ==> forall i | 0 <= i < |actions| :: GoodAction(actions[i])
    ensures error.Some? ==> IsActionDefect(actions, error.value.0, error.value.1)
  {
    var hosts: set<string> := {};
    for i := 0 to |actions|
      invariant forall j | 0 <= j < i :: actions[j].host in hosts && GoodAction(actions[j])
      invariant forall h | h in hosts :: exists j | 0 <= j < i :: actions[j].host == h
      invariant forall j, k | 0 <= j < k < i :: actions[j].host != actions[k].host
    {
      var a := actions[i];
      if a.host in hosts {
        return Some((i, SameHost));
      }
      hosts := hosts + {a.host};
      if a.argv == [] || exists part | part in a.argv :: '\0' in part {
        return Some((i, NoArgv));
      }
      if a.risk.Unrecognised? {
        return Some((i, NoRisk));
      }
      if a.risk != ReadOnly && a.verify.None? {
        return Some((i, NoVerification));
      }
    }
    return None;
  }

  /** Accepts exactly the plans that meet every rule; a refusal names a real defect. */
  method ValidatePlan(plan: Document) returns (error: Option<PlanError>)
    ensures error.None? <==> ValidPlan(plan)
    ensures error.Some? ==> IsDefect(plan, error.value)
  {
    if plan.body.schema != PLAN_SCHEMA || plan.sha256 != PlanDigest(plan) {
      return Some(PlanChanged);
    }
    var phases := plan.body.phases;
    var names: set<string> := {};
    for p := 0 to |phases|
      invariant forall q | 0 <= q < p :: phases[q].id in names && GoodPhase(phases[q])
      invariant forall n | n in names :: exists q | 0 <= q < p :: phases[q].id == n
      invariant forall q, r | 0 <= q < r < p :: phases[q].id != phases[r].id
    {
      if phases[p].id == "" || phases[p].id in names {
        return Some(DuplicatePhase(p));
      }
      names := names + {phases[p].id};
      var error := ValidateActions(phases[p].actions);
      if error.Some? {
        BadActionBadPhase(phases[p], error.value.0, error.value.1);
        return Some(BadAction(p, error.value.0, error.value.1));
      }
    }
    return None;
  }

  /** Sealing a well-formed body gives a plan that validates; changing the body
      without resealing never does. */
  lemma SealThenChange(body: PlanBody, other: PlanBody)
    ensures ValidPlan(SealPlan(body)) <==> ValidBody(body)
    ensures other != body ==> !ValidPlan(SealPlan(body).(body := other))
  {
  }

  // ---- receipt keys ----

  /** The name a receipt gives to one action of one phase. */
  function Key(phase: string, host: string): string {
    phase + ":" + host
  }

  /** Within one phase, keys are as distinct as hosts. */
  lemma KeyInjectiveOnHost(phase: string, h: string, g: string)
    requires Key(phase, h) == Key(phase, g)
    ensures h == g
  {
    assert h == Key(phase, h)[|phase| + 1..] && g == Key(phase, g)[|phase| + 1..];
  }

  lemma LastColon(phase: string, host: string, m: nat)
    requires ':' !in host && |phase| <= m < |Key(phase, host)|
    ensures Key(phase, host)[m] == ':' ==> m == |phase|
  {
    if m > |phase| {
      assert Key(phase, host)[m] == host[m - |phase| - 1];
    }
  }

  /** With colon-free hosts the whole key is unambiguous. */
  lemma KeyInjective(p: string, h: string, q: string, g: string)
    requires ':' !in h && ':' !in g
    requires Key(p, h) == Key(q, g)
    ensures p == q && h == g
  {
    var k := Key(p, h);
    assert k[|p|] == ':' && k[|q|] == ':';
    LastColon(p, h, if |p| <= |q| then |q| else |p|);
    LastColon(q, g, if |p| <= |q| then |q| else |p|);
    assert p == k[..|p|] && q == k[..|q|];
    KeyInjectiveOnHost(p, h, g);
  }
}
