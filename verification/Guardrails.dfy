/** The limits around the planning loop: the budget, the check of a plan and the hold policy. */
module Guardrails {
  import opened Wrappers

  datatype Violation = StepBudget | TokenBudget | TimeBudget | HeavyCap | NotAllowed | MissingRationale
                     | MissingNegotiation | Unconfirmed | EmptyPlan | TooManyTasks

  /** What the capability registry says about a known capability. */
  datatype Info = Info(conversational: bool, irreversible: bool)

  datatype Skill = Skill(enabled: bool, provider: string, capabilities: set<string>)

  datatype Task = Task(id: string, capability: string, rationale: string, knowledgePoint: string, heavy: bool)

  datatype Finding = Finding(violation: Violation, taskId: string)

  datatype Verdict = Verdict(findings: seq<Finding>, allowed: seq<Task>, fatal: bool)

  const MAX_TASKS := 3
  const MAX_REVISIONS := 2
  const MAX_OPEN_HOLDS := 6

  // ----- The budget -----

  /** The counters as a value. */
  datatype Used = Used(steps: int, maxSteps: int, tokens: int, tokenBudget: int, wallMs: int, wallMsBudget: int,
                       heavy: int, maxHeavy: int)

  function Exhausted(b: Used): Option<Violation> {
    if b.steps >= b.maxSteps then Some(StepBudget)
    else if b.tokens >= b.tokenBudget then Some(TokenBudget)
    else if b.wallMs >= b.wallMsBudget then Some(TimeBudget)
    else None
  }

  function Max(a: int, b: int): int {
    if a < b then b else a
  }

  datatype Spend = Spend(heavy: bool, tokens: int, wallMs: int)

  function Spent(b: Used, s: Spend): Used {
    b.(steps := b.steps + 1, tokens := b.tokens + Max(0, s.tokens), wallMs := b.wallMs + Max(0, s.wallMs),
       heavy := b.heavy + if s.heavy then 1 else 0)
  }

  function SpentAll(b: Used, spends: seq<Spend>): Used {
    if spends == [] then b else Spent(SpentAll(b, spends[..|spends| - 1]), spends[|spends| - 1])
  }

  class Budget {
    var used: Used

    constructor (used: Used)
      ensures this.used == used
    {
      this.used := used;
    }

    method SpendStep(s: Spend)
      modifies this
      ensures used == Spent(old(used), s)
    {
      used := used.(steps := used.steps + 1);
      used := used.(tokens := used.tokens + Max(0, s.tokens));
      used := used.(wallMs := used.wallMs + Max(0, s.wallMs));
      if s.heavy {
        used := used.(heavy := used.heavy + 1);
      }
    }
  }

  /** A budget once exhausted stays exhausted, and it lasts for at most its remaining steps. */
  lemma {:induction false} BudgetRunsOut(b: Used, spends: seq<Spend>)
    ensures SpentAll(b, spends).steps == b.steps + |spends| && SpentAll(b, spends).maxSteps == b.maxSteps
    ensures Exhausted(b).Some? ==> Exhausted(SpentAll(b, spends)).Some?
    ensures b.maxSteps <= b.steps + |spends| ==> Exhausted(SpentAll(b, spends)) == Some(StepBudget)
  {
    if spends != [] {
      BudgetRunsOut(b, spends[..|spends| - 1]);
    }
  }

  // ----- Checking a plan -----

  /** Everything the check looks at. */
  datatype Request = Request(tasks: seq<Task>, awaitsUser: bool, negotiation: string, goalPoints: set<string>,
                             requested: set<string>, confirmed: set<string>, registry: map<string, Info>,
                             skills: seq<Skill>, settings: Option<set<string>>, budget: Used)

  predicate IsSpace(c: char) {
    c == ' ' || c == '\t' || c == '\n' || c == '\r'
  }

  /** Nothing is left after stripping. */
  predicate Blank(s: string) {
    forall i :: 0 <= i < |s| ==> IsSpace(s[i])
  }

  /** Capabilities that some enabled skill with a provider offers. */
  function Offered(skills: seq<Skill>): set<string> {
    if skills == [] then {}
    else
      var last := skills[|skills| - 1];
      Offered(skills[..|skills| - 1]) + if last.enabled && last.provider != "" then last.capabilities else {}
  }

  function AllowList(q: Request): set<string> {
    if q.settings.Some? then Offered(q.skills) * q.settings.value else Offered(q.skills)
  }

  predicate Deviates(q: Request, t: Task) {
    || (t.knowledgePoint != "" && q.goalPoints != {} && t.knowledgePoint !in q.goalPoints)
    || (q.requested != {} && t.capability !in q.requested)
  }

  predicate Listed(q: Request, t: Task) {
    t.capability in q.registry && t.capability in AllowList(q)
  }

  predicate Chats(q: Request, t: Task) {
    Listed(q, t) && q.registry[t.capability].conversational
  }

  /** An earlier task already counted as this round's conversation, even if it was cut later. */
  predicate ChatTaken(q: Request, i: nat)
    requires i <= |q.tasks|
  {
    exists j :: 0 <= j < i && Chats(q, q.tasks[j])
  }

  /** Everything required of a task on its own account. */
  predicate Decent(q: Request, t: Task) {
    && Listed(q, t)
    && !Blank(t.rationale)
    && (q.registry[t.capability].irreversible ==> t.capability in q.confirmed)
    && (Deviates(q, t) ==> !Blank(q.negotiation))
  }

  /** The task at `i` may run. */
  predicate Passes(q: Request, i: nat)
    requires i < |q.tasks|
    decreases i, 1
  {
    var t := q.tasks[i];
    && Decent(q, t)
    && (Chats(q, t) ==> !ChatTaken(q, i))
    && (t.heavy ==> HeavyAfter(q, i) < q.budget.maxHeavy)
  }

  /** Heavy artifacts used once the first `i` tasks are decided. */
  function HeavyAfter(q: Request, i: nat): int
    requires i <= |q.tasks|
    decreases i, 0
  {
    if i == 0 then q.budget.heavy
    else HeavyAfter(q, i - 1) + if q.tasks[i - 1].heavy && Passes(q, i - 1) then 1 else 0
  }

  /** Why the task at `i` is cut, in the order of the checks. */
  function Objection(q: Request, i: nat): Option<Violation>
    requires i < |q.tasks|
  {
    var t := q.tasks[i];
    if !Listed(q, t) then Some(NotAllowed)
    else if Chats(q, t) && ChatTaken(q, i) then Some(TooManyTasks)
    else if Blank(t.rationale) then Some(MissingRationale)
    else if q.registry[t.capability].irreversible && t.capability !in q.confirmed then Some(Unconfirmed)
    else if Deviates(q, t) && Blank(q.negotiation) then Some(MissingNegotiation)
    else if t.heavy && HeavyAfter(q, i) >= q.budget.maxHeavy then Some(HeavyCap)
    else None
  }

  lemma {:induction false} ObjectionIff(q: Request, i: nat)
    requires i < |q.tasks|
    ensures Objection(q, i).None? <==> Passes(q, i)
  {
  }

  function Allowed(q: Request, n: nat): seq<Task>
    requires n <= |q.tasks|
  {
    if n == 0 then [] else Allowed(q, n - 1) + if Passes(q, n - 1) then [q.tasks[n - 1]] else []
  }

  function Findings(q: Request, n: nat): seq<Finding>
    requires n <= |q.tasks|
  {
    if n == 0 then []
    else
      Findings(q, n - 1) +
      match Objection(q, n - 1) case None => [] case Some(v) => [Finding(v, q.tasks[n - 1].id)]
  }

  function Considered(q: Request): (n: nat)
    ensures n <= |q.tasks| && n <= MAX_TASKS
  {
    if |q.tasks| < MAX_TASKS then |q.tasks| else MAX_TASKS
  }

  method CheckPlan(q: Request) returns (v: Verdict)
    ensures Exhausted(q.budget).Some? ==> v == Verdict([Finding(Exhausted(q.budget).value, "")], [], true)
    ensures Exhausted(q.budget).None? && q.tasks == [] ==>
      v == Verdict(if q.awaitsUser then [] else [Finding(EmptyPlan, "")], [], false)
    ensures Exhausted(q.budget).None? && q.tasks != [] ==>
      && v.allowed == Allowed(q, Considered(q)) && !v.fatal
      && v.findings == (if |q.tasks| > MAX_TASKS then [Finding(TooManyTasks, "")] else []) + Findings(q, Considered(q))
  {
    if Exhausted(q.budget).Some? {
      return Verdict([Finding(Exhausted(q.budget).value, "")], [], true);
    }
    if q.tasks == [] {
      return Verdict(if q.awaitsUser then [] else [Finding(EmptyPlan, "")], [], false);
    }
    var first := if |q.tasks| > MAX_TASKS then [Finding(TooManyTasks, "")] else [];
    var findings, allowed, heavyPlanned, chats := first, [], q.budget.heavy, 0;
    var allow := AllowList(q);
    for i := 0 to Considered(q)
      invariant findings == first + Findings(q, i) && allowed == Allowed(q, i) && heavyPlanned == HeavyAfter(q, i)
      invariant chats > 0 <==> ChatTaken(q, i)
    {
      var t := q.tasks[i];
      var objection, chatsNow := Judge(q, i, allow, chats, heavyPlanned);
      ObjectionIff(q, i);
      chats := chatsNow;
      if objection.Some? {
        findings := findings + [Finding(objection.value, t.id)];
      } else {
        heavyPlanned := heavyPlanned + if t.heavy then 1 else 0;
        allowed := allowed + [t];
      }
    }
    v := Verdict(findings, allowed, false);
  }

  /** One round of the check: the first objection, and the conversations counted so far. */
  method Judge(q: Request, i: nat, allow: set<string>, chats: nat, heavyPlanned: int)
    returns (objection: Option<Violation>, chatsNow: nat)
    requires i < |q.tasks| && allow == AllowList(q) && heavyPlanned == HeavyAfter(q, i)
    requires chats > 0 <==> ChatTaken(q, i)
    ensures objection == Objection(q, i) && (chatsNow > 0 <==> ChatTaken(q, i + 1))
  {
    var t := q.tasks[i];
    chatsNow := chats;
    OneMoreChat(q, i);
    if t.capability !in q.registry || t.capability !in allow {
      return Some(NotAllowed), chatsNow;
    }
    if q.registry[t.capability].conversational {
      chatsNow := chatsNow + 1;
      if chatsNow > 1 {
        return Some(TooManyTasks), chatsNow;
      }
    }
    objection :=
      if Blank(t.rationale) then Some(MissingRationale)
      else if q.registry[t.capability].irreversible && t.capability !in q.confirmed then Some(Unconfirmed)
      else if Deviates(q, t) && Blank(q.negotiation) then Some(MissingNegotiation)
      else if t.heavy && heavyPlanned >= q.budget.maxHeavy then Some(HeavyCap)
      else None;
  }

  lemma {:induction false} OneMoreChat(q: Request, i: nat)
    requires i < |q.tasks|
    ensures ChatTaken(q, i + 1) <==> ChatTaken(q, i) || Chats(q, q.tasks[i])
  {
    if Chats(q, q.tasks[i]) {
      assert ChatTaken(q, i + 1);
    }
  }

  // ----- What a verdict guarantees -----

  /** The positions of the allowed tasks: they form a subsequence. */
  function AllowedAt(q: Request, n: nat): seq<nat>
    requires n <= |q.tasks|
  {
    if n == 0 then [] else AllowedAt(q, n - 1) + if Passes(q, n - 1) then [n - 1] else []
  }

  /** The allowed tasks are a subsequence of the considered ones, exactly those that pass, each in
      its place. */
  lemma {:induction false} AllowedIsSubsequence(q: Request, n: nat)
    requires n <= |q.tasks|
    ensures var at := AllowedAt(q, n);
      && |Allowed(q, n)| == |at|
      && (forall k :: 0 <= k < |at| ==> at[k] < n && Allowed(q, n)[k] == q.tasks[at[k]] && Passes(q, at[k]))
      && (forall k, l :: 0 <= k < l < |at| ==> at[k] < at[l])
      && forall i :: 0 <= i < n && Passes(q, i) ==> i in at
  {
    if n > 0 {
      AllowedIsSubsequence(q, n - 1);
    }
  }

  /** Every considered task is either allowed or has exactly one finding. */
  lemma {:induction false} EveryTaskIsDecided(q: Request, n: nat)
    requires n <= |q.tasks|
    ensures |Allowed(q, n)| + |Findings(q, n)| == n
    ensures forall i :: 0 <= i < n && !Passes(q, i) ==> Finding(Objection(q, i).value, q.tasks[i].id) in Findings(q, n)
  {
    if n > 0 {
      EveryTaskIsDecided(q, n - 1);
      ObjectionIff(q, n - 1);
    }
  }

  /** Allowed tasks obey every rule, and at most one of them is conversational. */
  lemma {:induction false} AllowedTasksAreDecent(q: Request, n: nat)
    requires n <= |q.tasks|
    ensures forall t :: t in Allowed(q, n) ==> Decent(q, t)
    ensures forall k, l :: 0 <= k < l < |Allowed(q, n)| ==> !(Chats(q, Allowed(q, n)[k]) && Chats(q, Allowed(q, n)[l]))
  {
    AllowedIsSubsequence(q, n);
    var at := AllowedAt(q, n);
    forall k, l | 0 <= k < l < |Allowed(q, n)| ensures !(Chats(q, Allowed(q, n)[k]) && Chats(q, Allowed(q, n)[l])) {
      assert Passes(q, at[l]) && at[k] < at[l];
    }
  }

  /** Heavy use is the old use plus the allowed heavy tasks. */
  lemma {:induction false} HeavyIsCounted(q: Request, n: nat)
    requires n <= |q.tasks|
    ensures HeavyAfter(q, n) == q.budget.heavy + HeavyCount(Allowed(q, n))
  {
    if n > 0 {
      HeavyIsCounted(q, n - 1);
      var before := Allowed(q, n - 1);
      assert (before + [q.tasks[n - 1]])[..|before|] == before && before + [] == before;
    }
  }

  /** Heavy use never passes the larger of the old use and the cap. */
  lemma {:induction false} HeavyIsCapped(q: Request, n: nat)
    requires n <= |q.tasks|
    ensures q.budget.heavy <= HeavyAfter(q, n) <= Max(q.budget.heavy, q.budget.maxHeavy)
  {
    if n > 0 {
      HeavyIsCapped(q, n - 1);
    }
  }

  function HeavyCount(tasks: seq<Task>): nat {
    if tasks == [] then 0 else HeavyCount(tasks[..|tasks| - 1]) + if tasks[|tasks| - 1].heavy then 1 else 0
  }

  /** For a live budget and a nonempty plan there are no findings exactly when every task of the
      plan is allowed. */
  lemma {:induction false} NoFindingsIff(q: Request, findings: seq<Finding>, allowed: seq<Task>)
    requires allowed == Allowed(q, Considered(q))
    requires findings == (if |q.tasks| > MAX_TASKS then [Finding(TooManyTasks, "")] else []) + Findings(q, Considered(q))
    ensures findings == [] <==> allowed == q.tasks
  {
    var n := Considered(q);
    EveryTaskIsDecided(q, n);
    if findings == [] {
      AllAllowed(q, n);
      assert q.tasks[..n] == q.tasks;
    }
  }

  lemma {:induction false} AllAllowed(q: Request, n: nat)
    requires n <= |q.tasks| && Findings(q, n) == []
    ensures Allowed(q, n) == q.tasks[..n] && forall i :: 0 <= i < n ==> Passes(q, i)
  {
    if n > 0 {
      AllAllowed(q, n - 1);
      ObjectionIff(q, n - 1);
    }
  }

  lemma {:induction false} AllPass(q: Request, n: nat)
    requires n <= |q.tasks| && forall i :: 0 <= i < n ==> Passes(q, i)
    ensures Findings(q, n) == []
  {
    if n > 0 {
      AllPass(q, n - 1);
      ObjectionIff(q, n - 1);
    }
  }

  // ----- Holds -----

  datatype HoldAction = Revise | Close
  datatype Decision = Decision(taskKey: string, action: HoldAction, instruction: string)

  /** The open holds in their order, with how often each was revised. */
  datatype Hold = Hold(taskKey: string, revisions: int)

  function Revisions(holds: seq<Hold>, key: string): Option<int> {
    if holds == [] then None
    else if holds[|holds| - 1].taskKey == key then Some(holds[|holds| - 1].revisions)
    else Revisions(holds[..|holds| - 1], key)
  }

  function StripLeft(s: string): string {
    if s != "" && IsSpace(s[0]) then StripLeft(s[1..]) else s
  }

  function StripRight(s: string): string {
    if s != "" && IsSpace(s[|s| - 1]) then StripRight(s[..|s| - 1]) else s
  }

  function Strip(s: string): string {
    StripRight(StripLeft(s))
  }

  /** Revising needs an instruction, a revision to spare, a live budget, an open goal and room. */
  predicate MayRevise(d: Decision, revisions: int, b: Used, goalSatisfied: bool, open: nat) {
    && d.action == Revise && Strip(d.instruction) != "" && revisions < MAX_REVISIONS
    && Exhausted(b).None? && !goalSatisfied && open <= MAX_OPEN_HOLDS
  }

  function Settled(d: Decision, revisions: int, b: Used, goalSatisfied: bool, open: nat): Decision {
    if MayRevise(d, revisions, b, goalSatisfied, open) then Decision(d.taskKey, Revise, Strip(d.instruction))
    else if d.action == Close then Decision(d.taskKey, Close, Strip(d.instruction))
    else Decision(d.taskKey, Close, "")
  }

  /** The decisions about open holds, settled, in order. */
  function SettledAll(ds: seq<Decision>, holds: seq<Hold>, b: Used, goalSatisfied: bool): seq<Decision> {
    if ds == [] then []
    else
      var d := ds[|ds| - 1];
      SettledAll(ds[..|ds| - 1], holds, b, goalSatisfied) +
      match Revisions(holds, d.taskKey) case None => [] case Some(n) => [Settled(d, n, b, goalSatisfied, |holds|)]
  }

  function Keys(ds: seq<Decision>): set<string> {
    set d | d in ds :: d.taskKey
  }

  function HoldKeys(holds: seq<Hold>): set<string> {
    set h | h in holds :: h.taskKey
  }

  function Missing(holds: seq<Hold>, known: set<string>): seq<Decision> {
    if holds == [] then []
    else
      Missing(holds[..|holds| - 1], known) +
      if holds[|holds| - 1].taskKey in known then [] else [Decision(holds[|holds| - 1].taskKey, Close, "")]
  }

  method ApplyHoldPolicy(ds: seq<Decision>, holds: seq<Hold>, b: Used, goalSatisfied: bool) returns (r: seq<Decision>)
    ensures |holds| <= MAX_OPEN_HOLDS ==> r == SettledAll(ds, holds, b, goalSatisfied)
    ensures |holds| > MAX_OPEN_HOLDS ==>
      && (forall k :: 0 <= k < |r| ==> r[k].action == Close && r[k].instruction == "")
      && Keys(r) == HoldKeys(holds)
  {
    r := [];
    for n := 0 to |ds|
      invariant r == SettledAll(ds[..n], holds, b, goalSatisfied)
    {
      assert ds[..n + 1][..n] == ds[..n];
      var revisions := Revisions(holds, ds[n].taskKey);
      if revisions.Some? {
        var action, instruction := ds[n].action, Strip(ds[n].instruction);
        if action == Revise && instruction == "" {
          action := Close;
        }
        if action == Revise && (revisions.value >= MAX_REVISIONS || Exhausted(b).Some? || goalSatisfied
                                || |holds| > MAX_OPEN_HOLDS) {
          action, instruction := Close, "";
        }
        r := r + [Decision(ds[n].taskKey, action, instruction)];
      }
    }
    assert ds[..|ds|] == ds;
    if |holds| > MAX_OPEN_HOLDS {
      SettledAreOpen(ds, holds, b, goalSatisfied);
      MissingAreTheRest(holds, Keys(r));
      KeysAppend(r, Missing(holds, Keys(r)));
      var all := r + Missing(holds, Keys(r));
      r := seq(|all|, k requires 0 <= k < |all| => Decision(all[k].taskKey, Close, ""));
      SameKeys(all, r);
    }
  }

  lemma {:induction false} SameKeys(a: seq<Decision>, b: seq<Decision>)
    requires |a| == |b| && forall k :: 0 <= k < |a| ==> a[k].taskKey == b[k].taskKey
    ensures Keys(a) == Keys(b)
  {
    forall key | key in Keys(a) ensures key in Keys(b) {
      var k :| 0 <= k < |a| && a[k].taskKey == key;
      assert b[k] in b;
    }
    forall key | key in Keys(b) ensures key in Keys(a) {
      var k :| 0 <= k < |b| && b[k].taskKey == key;
      assert a[k] in a;
    }
  }

  lemma {:induction false} RevisionsIff(holds: seq<Hold>, key: string)
    ensures Revisions(holds, key).Some? <==> key in HoldKeys(holds)
  {
    if holds != [] {
      var init, last := holds[..|holds| - 1], holds[|holds| - 1];
      RevisionsIff(init, key);
      assert holds == init + [last];
    }
  }

  /** A settled decision is about an open hold, and it revises only when it may. */
  lemma {:induction false} SettledAreOpen(ds: seq<Decision>, holds: seq<Hold>, b: Used, goalSatisfied: bool)
    ensures Keys(SettledAll(ds, holds, b, goalSatisfied)) <= HoldKeys(holds)
    ensures forall d :: d in SettledAll(ds, holds, b, goalSatisfied) && d.action == Revise ==>
      && d.instruction != "" && Revisions(holds, d.taskKey).Some? && Revisions(holds, d.taskKey).value < MAX_REVISIONS
      && Exhausted(b).None? && !goalSatisfied && |holds| <= MAX_OPEN_HOLDS
  {
    if ds != [] {
      SettledAreOpen(ds[..|ds| - 1], holds, b, goalSatisfied);
      RevisionsIff(holds, ds[|ds| - 1].taskKey);
    }
  }

  lemma {:induction false} MissingAreTheRest(holds: seq<Hold>, known: set<string>)
    ensures Keys(Missing(holds, known)) == HoldKeys(holds) - known
  {
    if holds != [] {
      var init, last := holds[..|holds| - 1], holds[|holds| - 1];
      MissingAreTheRest(init, known);
      assert holds == init + [last];
      assert HoldKeys(holds) == HoldKeys(init) + {last.taskKey};
      var closing := [Decision(last.taskKey, Close, "")];
      KeysAppend(Missing(init, known), closing);
      assert closing[0] in closing && Keys(closing) == {last.taskKey};
      assert Missing(init, known) + [] == Missing(init, known);
    }
  }

  lemma {:induction false} KeysAppend(a: seq<Decision>, b: seq<Decision>)
    ensures Keys(a + b) == Keys(a) + Keys(b)
  {
    forall key | key in Keys(a) + Keys(b) ensures key in Keys(a + b) {
      var d :| (d in a || d in b) && d.taskKey == key;
      assert d in a + b;
    }
  }
}
