/**
  Multi-agent workflows, `internal/burrow/herd/workflow.go`.

  `Delegate` is an arbitrary function of the agent's position, its slug and the prompt it is given.
  The goroutines of the parallel and supervisor patterns are interleaved at their lock-protected
  sections.
*/
module Workflow {
  import opened Common

  datatype Assignment = Assignment(slug: string, role: string, prompt: string)

  datatype Outcome = Ok(output: string) | Err(error: string)

  datatype AgentResult = AgentResult(slug: string, output: string, error: Option<string>)

  /** The messages "agent <slug> failed: <error>" and "supervisor failed: <error>". */
  datatype Failure = AgentFailed(slug: string, error: string) | SupervisorFailed(error: string)

  datatype WorkflowResult = WorkflowResult(results: seq<AgentResult>, error: Option<Failure>)

  const BLANK := AgentResult("", "", None)

  type Delegate = (nat, string, string) -> Outcome

  function ResultOf(slug: string, outcome: Outcome): AgentResult {
    match outcome
    case Ok(output) => AgentResult(slug, output, None)
    case Err(error) => AgentResult(slug, "", Some(error))
  }

  // ---------------------------------------------------------------- sequential

  function ChainedPrompt(previous: string, prompt: string): string {
    if previous != "" then "Previous agent output:\n" + previous + "\n\nYour task:\n" + prompt else prompt
  }

  /** What each agent contributes, as a function of its position and of what the agent before it said. */
  type Contribution = (nat, string) -> AgentResult

  function Contributions(agents: seq<Assignment>, delegate: Delegate): Contribution {
    (i: nat, previous: string) =>
      if i < |agents| then
        var a := agents[i];
        ResultOf(a.slug, delegate(i, a.slug, ChainedPrompt(previous, a.prompt)))
      else BLANK
  }

  function Previous(results: seq<AgentResult>, i: nat): string
    requires i <= |results|
  {
    if i == 0 then "" else results[i - 1].output
  }

  predicate ChainedAt(step: Contribution, results: seq<AgentResult>, i: nat)
    requires i < |results|
  {
    results[i] == step(i, Previous(results, i))
  }

  /** The results are those of the first agents, each prompted with the output of the one before. */
  ghost predicate Chained(step: Contribution, results: seq<AgentResult>) {
    forall i | 0 <= i < |results| :: ChainedAt(step, results, i)
  }

  ghost predicate NoneFailed(results: seq<AgentResult>) {
    forall i | 0 <= i < |results| :: results[i].error.None?
  }

  /** Either no agent failed and all have run, or the last result is the first failure and is reported. */
  ghost predicate Sequential(step: Contribution, n: nat, r: WorkflowResult) {
    && Chained(step, r.results)
    && |r.results| <= n
    && match r.error
       case None => |r.results| == n && NoneFailed(r.results)
       case Some(failure) =>
         && r.results != []
         && NoneFailed(r.results[..|r.results| - 1])
         && var last := r.results[|r.results| - 1];
            last.error.Some? && failure == AgentFailed(last.slug, last.error.value)
  }

  lemma ChainOneMore(step: Contribution, results: seq<AgentResult>, r: AgentResult)
    requires Chained(step, results) && r == step(|results|, Previous(results, |results|))
    ensures Chained(step, results + [r])
  {
    var more := results + [r];
    forall i | 0 <= i < |more| ensures ChainedAt(step, more, i) {
      assert Previous(more, i) == Previous(results, i);
      assert i < |results| ==> ChainedAt(step, results, i);
    }
  }

  method ExecuteSequential(agents: seq<Assignment>, delegate: Delegate) returns (r: WorkflowResult)
    ensures Sequential(Contributions(agents, delegate), |agents|, r)
  {
    var results: seq<AgentResult> := [];
    var prevOutput := "";
    for i := 0 to |agents|
      invariant |results| == i && prevOutput == Previous(results, i)
      invariant Chained(Contributions(agents, delegate), results) && NoneFailed(results)
    {
      var a := agents[i];
      var outcome := delegate(i, a.slug, ChainedPrompt(prevOutput, a.prompt));
      var agentResult := ResultOf(a.slug, outcome);
      ChainOneMore(Contributions(agents, delegate), results, agentResult);
      if outcome.Err? {
        assert (results + [agentResult])[..i] == results;
        return WorkflowResult(results + [agentResult], Some(AgentFailed(a.slug, outcome.error)));
      }
      results := results + [agentResult];
      prevOutput := outcome.output;
    }
    r := WorkflowResult(results, None);
  }

  lemma {:induction false} SameChain(step: Contribution, r: seq<AgentResult>, q: seq<AgentResult>, i: nat)
    requires Chained(step, r) && Chained(step, q)
    requires i < |r| && i < |q|
    ensures r[i] == q[i]
  {
    assert ChainedAt(step, r, i) && ChainedAt(step, q, i);
    if i == 0 {
    } else {
      SameChain(step, r, q, i - 1);
    }
  }

  /** A chain that ends in a failure is not a proper beginning of one whose failure, if any, comes last. */
  lemma FailureEndsChain(step: Contribution, r: seq<AgentResult>, q: seq<AgentResult>)
    requires Chained(step, r) && Chained(step, q)
    requires r != [] && r[|r| - 1].error.Some?
    requires q != [] && NoneFailed(q[..|q| - 1])
    ensures |r| >= |q|
  {
    if |r| < |q| {
      SameChain(step, r, q, |r| - 1);
    }
  }

  /** A run never stops before another: it would have stopped at a failure that the other passed. */
  lemma SameLength(step: Contribution, n: nat, r: WorkflowResult, q: WorkflowResult)
    requires Sequential(step, n, r) && Sequential(step, n, q)
    ensures |r.results| >= |q.results|
  {
    if r.error.Some? && q.results != [] {
      assert NoneFailed(q.results[..|q.results| - 1]);
      FailureEndsChain(step, r.results, q.results);
    }
  }

  /** The specification of the sequential pattern leaves no freedom: agents and delegation determine the outcome. */
  lemma SequentialIsDetermined(step: Contribution, n: nat, r: WorkflowResult, q: WorkflowResult)
    requires Sequential(step, n, r) && Sequential(step, n, q)
    ensures r == q
  {
    forall i | 0 <= i < |r.results| && i < |q.results| ensures r.results[i] == q.results[i] {
      SameChain(step, r.results, q.results, i);
    }
    SameLength(step, n, r, q);
    SameLength(step, n, q, r);
    assert r.results == q.results;
  }

  /** The result names the agent and holds what its delegation returned. */
  predicate Reports(result: AgentResult, slug: string, outcome: Outcome) {
    && result.slug == slug
    && match outcome
       case Ok(output) => result.output == output && result.error == None
       case Err(error) => result.output == "" && result.error == Some(error)
  }

  /**
    Each agent of a sequential run is given its own task, preceded by what the agent before it put out unless
    that was nothing, and the run goes on to the next agent exactly if it does not fail.
  */
  lemma SequentialPrompts(agents: seq<Assignment>, delegate: Delegate, r: WorkflowResult, i: nat)
    requires Sequential(Contributions(agents, delegate), |agents|, r) && i < |r.results|
    ensures i < |agents|
    ensures
      var before := if i == 0 then "" else r.results[i - 1].output;
      var prompt := if before == "" then agents[i].prompt
                    else "Previous agent output:\n" + before + "\n\nYour task:\n" + agents[i].prompt;
      var outcome := delegate(i, agents[i].slug, prompt);
      Reports(r.results[i], agents[i].slug, outcome) && (i + 1 < |r.results| ==> outcome.Ok?)
    ensures i + 1 == |r.results| && r.results[i].error.None? ==> i + 1 == |agents|
  {
    assert ChainedAt(Contributions(agents, delegate), r.results, i);
    ContributionReports(agents, delegate, i, Previous(r.results, i));
    if r.error.Some? && i + 1 < |r.results| {
      assert r.results[..|r.results| - 1][i] == r.results[i];
    }
  }

  lemma ContributionReports(agents: seq<Assignment>, delegate: Delegate, i: nat, previous: string)
    requires i < |agents|
    ensures
      var prompt := if previous == "" then agents[i].prompt
                    else "Previous agent output:\n" + previous + "\n\nYour task:\n" + agents[i].prompt;
      Reports(Contributions(agents, delegate)(i, previous), agents[i].slug, delegate(i, agents[i].slug, prompt))
  {
    var a := agents[i];
    var prompt := if previous == "" then a.prompt else "Previous agent output:\n" + previous + "\n\nYour task:\n" + a.prompt;
    assert ChainedPrompt(previous, a.prompt) == prompt;
    assert Contributions(agents, delegate)(i, previous) == ResultOf(a.slug, delegate(i, a.slug, prompt));
  }

  // ---------------------------------------------------------------- goroutines of a fan-out

  datatype Pc = Delegating | Noting(error: string) | Storing(outcome: Outcome) | Finished

  datatype Action = Return(i: nat) | Note(i: nat) | Store(i: nat)

  // ---------------------------------------------------------------- parallel

  datatype Fan = Fan(pcs: seq<Pc>, results: seq<AgentResult>, firstErr: Option<string>)

  function Delegated(agents: seq<Assignment>, delegate: Delegate, i: nat): Outcome
    requires i < |agents|
  {
    delegate(i, agents[i].slug, agents[i].prompt)
  }

  function FanStart(agents: seq<Assignment>): Fan {
    Fan(seq(|agents|, _ => Delegating), seq(|agents|, _ => BLANK), None)
  }

  predicate FanEnabled(agents: seq<Assignment>, s: Fan, a: Action) {
    && a.i < |agents| && |s.pcs| == |s.results| == |agents|
    && match a
       case Return(i) => s.pcs[i].Delegating?
       case Note(i) => s.pcs[i].Noting?
       case Store(i) => s.pcs[i].Storing?
  }

  function FanApply(agents: seq<Assignment>, delegate: Delegate, s: Fan, a: Action): Fan
    requires FanEnabled(agents, s, a)
  {
    match a
    case Return(i) =>
      var outcome := Delegated(agents, delegate, i);
      s.(pcs := s.pcs[i := if outcome.Err? then Noting(outcome.error) else Storing(outcome)])
    case Note(i) =>
      var error := s.pcs[i].error;
      s.(pcs := s.pcs[i := Storing(Err(error))], firstErr := if s.firstErr.None? then Some(error) else s.firstErr)
    case Store(i) =>
      s.(pcs := s.pcs[i := Finished], results := s.results[i := ResultOf(agents[i].slug, s.pcs[i].outcome)])
  }

  function FanExec(agents: seq<Assignment>, delegate: Delegate, schedule: seq<Action>): Fan {
    if schedule == [] then FanStart(agents)
    else
      var s, a := FanExec(agents, delegate, schedule[..|schedule| - 1]), schedule[|schedule| - 1];
      if FanEnabled(agents, s, a) then FanApply(agents, delegate, s, a) else s
  }

  /** The goroutine has passed the section that notes its error, if it had one. */
  predicate Noted(pc: Pc) {
    pc.Storing? || pc.Finished?
  }

  ghost predicate FanInv(agents: seq<Assignment>, delegate: Delegate, s: Fan) {
    && |s.pcs| == |s.results| == |agents|
    && (forall i | 0 <= i < |agents| ::
          var outcome := Delegated(agents, delegate, i);
          match s.pcs[i]
          case Delegating => true
          case Noting(error) => outcome == Err(error)
          case Storing(o) => outcome == o
          case Finished => s.results[i] == ResultOf(agents[i].slug, outcome))
    && (s.firstErr.Some? <==> exists i :: 0 <= i < |agents| && Noted(s.pcs[i]) && Delegated(agents, delegate, i).Err?)
    && (s.firstErr.Some? ==> exists i :: 0 <= i < |agents| && Delegated(agents, delegate, i) == Err(s.firstErr.value))
  }

  lemma FanStepKeepsInv(agents: seq<Assignment>, delegate: Delegate, s: Fan, a: Action)
    requires FanInv(agents, delegate, s) && FanEnabled(agents, s, a)
    ensures FanInv(agents, delegate, FanApply(agents, delegate, s, a))
  {
    var t := FanApply(agents, delegate, s, a);
    assert forall i | 0 <= i < |agents| && i != a.i :: t.pcs[i] == s.pcs[i];
    if s.firstErr.Some? {
      var i :| 0 <= i < |agents| && Noted(s.pcs[i]) && Delegated(agents, delegate, i).Err?;
      assert Noted(t.pcs[i]);
    }
    if a.Note? {
      assert Noted(t.pcs[a.i]) && Delegated(agents, delegate, a.i) == Err(s.pcs[a.i].error);
    }
  }

  lemma {:induction false} FanExecKeepsInv(agents: seq<Assignment>, delegate: Delegate, schedule: seq<Action>)
    ensures FanInv(agents, delegate, FanExec(agents, delegate, schedule))
  {
    if schedule == [] {
    } else {
      FanExecKeepsInv(agents, delegate, schedule[..|schedule| - 1]);
      var s, a := FanExec(agents, delegate, schedule[..|schedule| - 1]), schedule[|schedule| - 1];
      if FanEnabled(agents, s, a) {
        FanStepKeepsInv(agents, delegate, s, a);
      }
    }
  }

  /** `wg.Wait()` returns. */
  predicate AllFinished(pcs: seq<Pc>) {
    forall i | 0 <= i < |pcs| :: pcs[i].Finished?
  }

  /**
    However the goroutines interleave: result i is agent i's, the overall error is set exactly
    when some agent failed, and it is then the error of an agent that failed.
  */
  lemma ParallelResults(agents: seq<Assignment>, delegate: Delegate, schedule: seq<Action>)
    requires AllFinished(FanExec(agents, delegate, schedule).pcs)
    ensures var s := FanExec(agents, delegate, schedule);
      && |s.results| == |agents|
      && (forall i | 0 <= i < |agents| ::
            Reports(s.results[i], agents[i].slug, delegate(i, agents[i].slug, agents[i].prompt)))
      && (s.firstErr.Some? <==> exists i :: 0 <= i < |agents| && delegate(i, agents[i].slug, agents[i].prompt).Err?)
      && (s.firstErr.Some? ==>
            exists i :: 0 <= i < |agents| && delegate(i, agents[i].slug, agents[i].prompt) == Err(s.firstErr.value))
  {
    FanExecKeepsInv(agents, delegate, schedule);
    var s := FanExec(agents, delegate, schedule);
    if i :| 0 <= i < |agents| && Delegated(agents, delegate, i).Err? {
      assert Noted(s.pcs[i]);
    }
  }

  /** The fan-out never gets stuck: while a goroutine has not finished, it can move. */
  lemma ParallelCanFinish(agents: seq<Assignment>, delegate: Delegate, schedule: seq<Action>, i: nat)
    requires i < |FanExec(agents, delegate, schedule).pcs|
    requires !FanExec(agents, delegate, schedule).pcs[i].Finished?
    ensures var s := FanExec(agents, delegate, schedule);
      FanEnabled(agents, s, Return(i)) || FanEnabled(agents, s, Note(i)) || FanEnabled(agents, s, Store(i))
  {
    FanExecKeepsInv(agents, delegate, schedule);
  }

  /** The state after `a`, if it can happen. */
  function FanTry(agents: seq<Assignment>, delegate: Delegate, s: Fan, a: Action): Fan {
    if FanEnabled(agents, s, a) then FanApply(agents, delegate, s, a) else s
  }

  lemma FanExecOneMore(agents: seq<Assignment>, delegate: Delegate, schedule: seq<Action>, a: Action)
    ensures var s := FanExec(agents, delegate, schedule);
      FanExec(agents, delegate, schedule + [a]) == FanTry(agents, delegate, s, a)
  {
    assert (schedule + [a])[..|schedule|] == schedule;
  }

  /** The rest of goroutine `i`. */
  function Rest(i: nat): seq<Action> {
    [Return(i), Note(i), Store(i)]
  }

  lemma GoroutineSteps(agents: seq<Assignment>, delegate: Delegate, s: Fan, i: nat)
    requires |s.pcs| == |s.results| == |agents| && i < |agents|
    ensures var t := FanTry(agents, delegate, FanTry(agents, delegate, FanTry(agents, delegate, s, Return(i)), Note(i)), Store(i));
      t.pcs == s.pcs[i := Finished]
  {
  }

  lemma GoroutineEnds(agents: seq<Assignment>, delegate: Delegate, schedule: seq<Action>, i: nat)
    requires i < |agents|
    ensures var s, t := FanExec(agents, delegate, schedule), FanExec(agents, delegate, schedule + Rest(i));
      |s.pcs| == |agents| && t.pcs == s.pcs[i := Finished]
  {
    FanExecKeepsInv(agents, delegate, schedule);
    GoroutineSteps(agents, delegate, FanExec(agents, delegate, schedule), i);
    FanExecOneMore(agents, delegate, schedule, Return(i));
    FanExecOneMore(agents, delegate, schedule + [Return(i)], Note(i));
    FanExecOneMore(agents, delegate, schedule + [Return(i)] + [Note(i)], Store(i));
    assert schedule + Rest(i) == schedule + [Return(i)] + [Note(i)] + [Store(i)];
  }

  /** Wherever the goroutines stand, they can all come to their end, and then the wait is over. */
  lemma {:induction false} ParallelFinishes(agents: seq<Assignment>, delegate: Delegate, schedule: seq<Action>, n: nat)
    returns (more: seq<Action>)
    requires n <= |agents| && forall i | n <= i < |agents| ::
      i < |FanExec(agents, delegate, schedule).pcs| && FanExec(agents, delegate, schedule).pcs[i].Finished?
    ensures |FanExec(agents, delegate, schedule + more).pcs| == |agents|
    ensures AllFinished(FanExec(agents, delegate, schedule + more).pcs)
    decreases n
  {
    if n == 0 {
      FanExecKeepsInv(agents, delegate, schedule);
      more := [];
      assert schedule + more == schedule;
    } else {
      GoroutineEnds(agents, delegate, schedule, n - 1);
      var later := ParallelFinishes(agents, delegate, schedule + Rest(n - 1), n - 1);
      more := Rest(n - 1) + later;
      assert schedule + more == schedule + Rest(n - 1) + later;
    }
  }

  /** The shared variables of `executeParallel`. */
  class ParallelRun {
    const agents: seq<Assignment>
    const results: array<AgentResult>
    var pcs: seq<Pc>
    var firstErr: Option<string>

    ghost function View(): Fan
      reads this, results
    {
      Fan(pcs, results[..], firstErr)
    }

    constructor (agents: seq<Assignment>)
      ensures this.agents == agents && fresh(results) && View() == FanStart(agents)
    {
      this.agents := agents;
      results := new AgentResult[|agents|](_ => BLANK);
      pcs := seq(|agents|, _ => Delegating);
      firstErr := None;
    }

    method DelegateReturned(delegate: Delegate, i: nat)
      requires FanEnabled(agents, View(), Return(i))
      modifies this`pcs
      ensures View() == FanApply(agents, delegate, old(View()), Return(i))
    {
      match delegate(i, agents[i].slug, agents[i].prompt) {
        case Ok(output) => pcs := pcs[i := Storing(Ok(output))];
        case Err(error) => pcs := pcs[i := Noting(error)];
      }
    }

    /** Lines 137-141 */
    method NoteError(ghost delegate: Delegate, i: nat)
      requires FanEnabled(agents, View(), Note(i))
      modifies this
      ensures View() == FanApply(agents, delegate, old(View()), Note(i))
    {
      match pcs[i] {
        case Noting(error) =>
          if firstErr.None? {
            firstErr := Some(error);
          }
          pcs := pcs[i := Storing(Err(error))];
      }
    }

    /** Lines 144-146 */
    method StoreResult(ghost delegate: Delegate, i: nat)
      requires FanEnabled(agents, View(), Store(i))
      modifies this`pcs, results
      ensures View() == FanApply(agents, delegate, old(View()), Store(i))
    {
      match pcs[i] {
        case Storing(outcome) =>
          results[i] := ResultOf(agents[i].slug, outcome);
          pcs := pcs[i := Finished];
      }
    }
  }

  // ---------------------------------------------------------------- supervisor

  function WorkerList(workers: seq<Assignment>): string {
    if workers == [] then "Available workers:\n"
    else
      var w := workers[|workers| - 1];
      WorkerList(workers[..|workers| - 1]) + ("- " + w.slug + " (role: " + w.role + ")\n")
  }

  function SupervisorPrompt(agents: seq<Assignment>, task: string): string
    requires agents != []
  {
    agents[0].prompt + "\n\n" + WorkerList(agents[1..]) + "\n\nOriginal task:\n" + task
  }

  function WorkerPrompt(plan: string, a: Assignment): string {
    "Supervisor's plan:\n" + plan + "\n\nYour role: " + a.role + "\nYour task:\n" + a.prompt
  }

  /** What worker `i` contributes; the supervisor is agent 0. */
  function Workers(agents: seq<Assignment>, delegate: Delegate, plan: string): nat -> AgentResult {
    (i: nat) =>
      if i + 1 < |agents| then
        var a := agents[i + 1];
        ResultOf(a.slug, delegate(i + 1, a.slug, WorkerPrompt(plan, a)))
      else BLANK
  }

  function Line(worker: Assignment): string {
    "- " + worker.slug + " (role: " + worker.role + ")\n"
  }

  function Lines(workers: seq<Assignment>): seq<string> {
    seq(|workers|, i requires 0 <= i < |workers| => Line(workers[i]))
  }

  function Join(lines: seq<string>): string {
    if lines == [] then "" else Join(lines[..|lines| - 1]) + lines[|lines| - 1]
  }

  lemma Regroup(a: string, b: string, c: string)
    ensures a + b + c == a + (b + c)
  {
  }

  lemma {:induction false} ListHasAllLines(workers: seq<Assignment>)
    ensures WorkerList(workers) == "Available workers:\n" + Join(Lines(workers))
  {
    if workers == [] {
    } else {
      var before, last := workers[..|workers| - 1], workers[|workers| - 1];
      ListHasAllLines(before);
      assert Lines(workers)[..|workers| - 1] == Lines(before) && Lines(workers)[|workers| - 1] == Line(last);
      Regroup("Available workers:\n", Join(Lines(before)), Line(last));
    }
  }

  /** What the supervisor is told: its own task, one line for every worker in order, and the original task. */
  lemma SupervisorIsToldAll(agents: seq<Assignment>, task: string)
    requires agents != []
    ensures SupervisorPrompt(agents, task) ==
      agents[0].prompt + "\n\n" + ("Available workers:\n" + Join(Lines(agents[1..]))) + "\n\nOriginal task:\n" + task
  {
    ListHasAllLines(agents[1..]);
  }

  /** What a worker is told, and what it contributes: the plan, its role and its task. */
  lemma WorkerIsToldPlan(agents: seq<Assignment>, delegate: Delegate, plan: string, i: nat)
    requires i + 1 < |agents|
    ensures var a := agents[i + 1];
      Reports(Workers(agents, delegate, plan)(i), a.slug,
              delegate(i + 1, a.slug, "Supervisor's plan:\n" + plan + "\n\nYour role: " + a.role + "\nYour task:\n" + a.prompt))
  {
    var a := agents[i + 1];
    assert WorkerPrompt(plan, a) == "Supervisor's plan:\n" + plan + "\n\nYour role: " + a.role + "\nYour task:\n" + a.prompt;
    assert Workers(agents, delegate, plan)(i) == ResultOf(a.slug, delegate(i + 1, a.slug, WorkerPrompt(plan, a)));
  }

  /** The workers: which have appended their result, and the shared list of results. */
  datatype Crew = Crew(finished: seq<bool>, results: seq<AgentResult>)

  function CrewStart(n: nat, first: AgentResult): Crew {
    Crew(seq(n, _ => false), [first])
  }

  /** Worker `i`, if it has not done so, appends its result under the lock. */
  function CrewApply(work: nat -> AgentResult, s: Crew, i: nat): Crew {
    if i < |s.finished| && !s.finished[i] then Crew(s.finished[i := true], s.results + [work(i)]) else s
  }

  function CrewExec(work: nat -> AgentResult, start: Crew, schedule: seq<nat>): (s: Crew)
    ensures |s.finished| == |start.finished|
  {
    if schedule == [] then start
    else CrewApply(work, CrewExec(work, start, schedule[..|schedule| - 1]), schedule[|schedule| - 1])
  }

  /** The results of those of the first `n` workers that have finished. */
  ghost function FinishedBag(work: nat -> AgentResult, finished: seq<bool>, n: nat): multiset<AgentResult>
    requires n <= |finished|
  {
    if n == 0 then multiset{}
    else FinishedBag(work, finished, n - 1) + Mine(work, finished, n - 1)
  }

  /** What worker `i` has in the bag. */
  function Mine(work: nat -> AgentResult, finished: seq<bool>, i: nat): multiset<AgentResult>
    requires i < |finished|
  {
    if finished[i] then multiset{work(i)} else multiset{}
  }

  lemma SwapLast<T>(a: multiset<T>, b: multiset<T>, c: multiset<T>)
    ensures a + b + c == a + c + b
  {
  }

  lemma {:induction false} BagOfPrefix(work: nat -> AgentResult, f: seq<bool>, g: seq<bool>, n: nat)
    requires n <= |f| && n <= |g| && f[..n] == g[..n]
    ensures FinishedBag(work, f, n) == FinishedBag(work, g, n)
  {
    if n == 0 {
    } else {
      assert f[..n - 1] == f[..n][..n - 1] && g[..n - 1] == g[..n][..n - 1];
      assert f[n - 1] == f[..n][n - 1] && g[n - 1] == g[..n][n - 1];
      BagOfPrefix(work, f, g, n - 1);
    }
  }

  lemma {:induction false} FinishOne(work: nat -> AgentResult, finished: seq<bool>, n: nat, i: nat)
    requires i < n <= |finished| && !finished[i]
    ensures FinishedBag(work, finished[i := true], n) == FinishedBag(work, finished, n) + multiset{work(i)}
  {
    var after := finished[i := true];
    if i == n - 1 {
      BagOfPrefix(work, after, finished, i);
      LastFinishes(work, after, finished, n);
    } else {
      FinishOne(work, finished, n - 1, i);
      SwapLast(FinishedBag(work, finished, n - 1), multiset{work(i)}, Mine(work, finished, n - 1));
    }
  }

  lemma LastFinishes(work: nat -> AgentResult, after: seq<bool>, before: seq<bool>, n: nat)
    requires 0 < n <= |after| && n <= |before| && after[n - 1] && !before[n - 1]
    requires FinishedBag(work, after, n - 1) == FinishedBag(work, before, n - 1)
    ensures FinishedBag(work, after, n) == FinishedBag(work, before, n) + multiset{work(n - 1)}
  {
  }

  lemma {:induction false} CrewKeepsBag(work: nat -> AgentResult, n: nat, first: AgentResult, schedule: seq<nat>)
    ensures var s := CrewExec(work, CrewStart(n, first), schedule);
      && s.results != [] && s.results[0] == first
      && multiset(s.results[1..]) == FinishedBag(work, s.finished, n)
  {
    if schedule == [] {
      NoneFinished(work, CrewStart(n, first).finished, n);
    } else {
      var before := schedule[..|schedule| - 1];
      CrewKeepsBag(work, n, first, before);
      var s, i := CrewExec(work, CrewStart(n, first), before), schedule[|schedule| - 1];
      if i < n && !s.finished[i] {
        FinishOne(work, s.finished, n, i);
        assert (s.results + [work(i)])[1..] == s.results[1..] + [work(i)];
      }
    }
  }

  lemma {:induction false} NoneFinished(work: nat -> AgentResult, finished: seq<bool>, n: nat)
    requires n <= |finished| && forall i | 0 <= i < |finished| :: !finished[i]
    ensures FinishedBag(work, finished, n) == multiset{}
  {
    if n == 0 {
    } else {
      NoneFinished(work, finished, n - 1);
    }
  }

  function WorkerResults(work: nat -> AgentResult, n: nat): seq<AgentResult> {
    seq(n, i requires 0 <= i < n => work(i))
  }

  lemma OneMoreWorker(work: nat -> AgentResult, n: nat)
    ensures multiset(WorkerResults(work, n + 1)) == multiset(WorkerResults(work, n)) + multiset{work(n)}
  {
    assert WorkerResults(work, n + 1) == WorkerResults(work, n) + [work(n)];
  }

  lemma LastInBag(work: nat -> AgentResult, finished: seq<bool>, i: nat)
    requires i < |finished| && finished[i]
    ensures FinishedBag(work, finished, i + 1) == FinishedBag(work, finished, i) + multiset{work(i)}
  {
  }

  lemma {:induction false} AllInBag(work: nat -> AgentResult, finished: seq<bool>, n: nat)
    requires n <= |finished| && forall i | 0 <= i < |finished| :: finished[i]
    ensures FinishedBag(work, finished, n) == multiset(WorkerResults(work, n))
  {
    if n == 0 {
    } else {
      var m := n - 1;
      AllInBag(work, finished, m);
      assert finished[m];
      LastInBag(work, finished, m);
      OneMoreWorker(work, m);
    }
  }

  /** However the `n` workers interleave: the supervisor's result comes first, then each worker's exactly once. */
  lemma SupervisorResults(work: nat -> AgentResult, n: nat, first: AgentResult, schedule: seq<nat>)
    requires forall i | 0 <= i < n :: i in schedule
    ensures var results := CrewExec(work, CrewStart(n, first), schedule).results;
      && |results| == n + 1
      && results[0] == first
      && multiset(results[1..]) == multiset(WorkerResults(work, n))
  {
    CrewKeepsBag(work, n, first, schedule);
    var s := CrewExec(work, CrewStart(n, first), schedule);
    forall i | 0 <= i < n ensures s.finished[i] {
      ScheduledIsFinished(work, CrewStart(n, first), schedule, i);
    }
    AllInBag(work, s.finished, n);
    assert |multiset(s.results[1..])| == |multiset(WorkerResults(work, n))|;
  }

  lemma {:induction false} ScheduledIsFinished(work: nat -> AgentResult, start: Crew, schedule: seq<nat>, i: nat)
    requires i < |start.finished| && i in schedule
    ensures CrewExec(work, start, schedule).finished[i]
  {
    var before, last := schedule[..|schedule| - 1], schedule[|schedule| - 1];
    if last != i {
      assert schedule == before + [last];
      ScheduledIsFinished(work, start, before, i);
    }
  }

  /**
    `executeSupervisor`, with the workers' critical sections run in the order of `schedule`, which
    mentions every worker because the method waits for all of them.
  */
  method ExecuteSupervisor(agents: seq<Assignment>, delegate: Delegate, task: string, schedule: seq<nat>)
    returns (refused: bool, r: WorkflowResult)
    requires forall i | 0 <= i < |agents| - 1 :: i in schedule
    ensures refused <==> |agents| < 2
    ensures !refused ==>
      match delegate(0, agents[0].slug, SupervisorPrompt(agents, task))
      case Err(error) => r == WorkflowResult([], Some(SupervisorFailed(error)))
      case Ok(plan) =>
        var work := Workers(agents, delegate, plan);
        && r.error.None?
        && |r.results| == |agents|
        && r.results[0] == AgentResult(agents[0].slug, plan, None)
        && multiset(r.results[1..]) == multiset(WorkerResults(work, |agents| - 1))
  {
    if |agents| < 2 {
      return true, WorkflowResult([], None);
    }
    var workers := agents[1..];
    var prompt := BuildPrompt(agents, task);
    var planned := delegate(0, agents[0].slug, prompt);
    if planned.Err? {
      return false, WorkflowResult([], Some(SupervisorFailed(planned.error)));
    }
    var plan := planned.output;
    var first := AgentResult(agents[0].slug, plan, None);
    ghost var work := Workers(agents, delegate, plan);
    var results, finished := [first], seq(|workers|, _ => false);
    for k := 0 to |schedule|
      invariant Crew(finished, results) == CrewExec(work, CrewStart(|workers|, first), schedule[..k])
    {
      assert schedule[..k + 1][..k] == schedule[..k];
      var i := schedule[k];
      if i < |workers| && !finished[i] {
        var a := workers[i];
        var outcome := delegate(i + 1, a.slug, WorkerPrompt(plan, a));
        results := results + [ResultOf(a.slug, outcome)];
        finished := finished[i := true];
      }
    }
    assert schedule[..|schedule|] == schedule;
    SupervisorResults(work, |workers|, first, schedule);
    refused, r := false, WorkflowResult(results, None);
  }

  /** Lines 169-176 */
  method BuildPrompt(agents: seq<Assignment>, task: string) returns (prompt: string)
    requires agents != []
    ensures prompt == SupervisorPrompt(agents, task)
    ensures prompt == agents[0].prompt + "\n\n" + ("Available workers:\n" + Join(Lines(agents[1..]))) + "\n\nOriginal task:\n" + task
  {
    SupervisorIsToldAll(agents, task);
    var workerList := "Available workers:\n";
    var workers := agents[1..];
    for i := 0 to |workers|
      invariant workerList == WorkerList(workers[..i])
    {
      assert workers[..i + 1][..i] == workers[..i];
      workerList := workerList + ("- " + workers[i].slug + " (role: " + workers[i].role + ")\n");
    }
    assert workers[..|workers|] == workers;
    prompt := agents[0].prompt + "\n\n" + workerList + "\n\nOriginal task:\n" + task;
  }
}
