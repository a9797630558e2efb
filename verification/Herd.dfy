/**
  The lifecycle of sub-agents, `internal/burrow/herd/manager.go`.

  `Spawn` and `Stop` run entirely under the manager's lock.  `StopAll` takes all handles out of the
  map under the lock and closes their channels one by one after releasing it, so several of them can
  interleave with everything else.  Closing a channel twice panics in Go; the model counts closings.
*/
module Herd {
  import opened Common

  type Id = nat     // a UUID; no UUID is drawn twice
  type Sweep = nat  // one run of StopAll

  datatype Handle = Handle(id: Id, parent: Id, slug: string)

  datatype State = State(
    agents: map<Id, Handle>,
    status: map<Id, string>,          // the Status field of every handle ever made
    closings: map<Id, nat>,           // how often each handle's ResultCh has been closed
    pending: map<Sweep, seq<Id>>,     // what each StopAll has taken and not closed yet
    taken: map<Sweep, seq<Id>>        // history: what each StopAll took
  )

  datatype Action =
    | Spawn(id: Id, parent: Id, slug: string, created: bool)
    | Stop(id: Id)
    | TakeAll(sweep: Sweep, order: seq<Id>)   // `order`: Go's iteration order over the map
    | CloseNext(sweep: Sweep)

  // ---------------------------------------------------------------- the step relation

  ghost predicate Enabled(s: State, a: Action) {
    match a
    case Spawn(id, _, _, _) => id !in s.closings
    case Stop(id) => id in s.agents ==> id in s.closings
    case TakeAll(sweep, order) => sweep !in s.pending && multiset(order) == multiset(s.agents.Keys)
    case CloseNext(sweep) => sweep in s.pending && s.pending[sweep] != [] && s.pending[sweep][0] in s.closings
  }

  ghost function Apply(s: State, a: Action): State
    requires Enabled(s, a)
  {
    match a
    case Spawn(id, parent, slug, created) =>
      if !created then s
      else s.(agents := s.agents[id := Handle(id, parent, slug)],
              status := s.status[id := "running"],
              closings := s.closings[id := 0])
    case Stop(id) =>
      if id !in s.agents then s
      else s.(agents := s.agents - {id},
              status := s.status[id := "stopped"],
              closings := s.closings[id := s.closings[id] + 1])
    case TakeAll(sweep, order) =>
      s.(agents := map[], pending := s.pending[sweep := order], taken := s.taken[sweep := order])
    case CloseNext(sweep) =>
      var id := s.pending[sweep][0];
      s.(closings := s.closings[id := s.closings[id] + 1], pending := s.pending[sweep := s.pending[sweep][1..]])
  }

  const INIT := State(map[], map[], map[], map[], map[])

  ghost function Exec(schedule: seq<Action>): State {
    if schedule == [] then INIT
    else
      var s, a := Exec(schedule[..|schedule| - 1]), schedule[|schedule| - 1];
      if Enabled(s, a) then Apply(s, a) else s
  }

  // ---------------------------------------------------------------- what every step keeps

  /** The handle waits at position `i` of what `sweep` has still to close. */
  predicate WaitsAt(s: State, id: Id, sweep: Sweep, i: int) {
    sweep in s.pending && 0 <= i < |s.pending[sweep]| && s.pending[sweep][i] == id
  }

  predicate InMap(s: State, id: Id) {
    id in s.agents
  }

  ghost predicate Taken(s: State, id: Id) {
    exists sweep, i :: WaitsAt(s, id, sweep, i)
  }

  predicate Closed(s: State, id: Id) {
    id in s.closings && s.closings[id] == 1
  }

  ghost predicate MapInv(s: State) {
    && (forall id | id in s.agents :: s.agents[id].id == id && id in s.closings && s.closings[id] == 0)
    && (forall id | id in s.agents :: id in s.status && s.status[id] == "running")
  }

  ghost predicate WaitInv(s: State) {
    && (forall id, sweep, i | WaitsAt(s, id, sweep, i) :: id in s.closings && s.closings[id] == 0 && id !in s.agents)
    && (forall id, sweep, i, sweep', i' | WaitsAt(s, id, sweep, i) && WaitsAt(s, id, sweep', i') :: sweep == sweep' && i == i')
  }

  ghost predicate SomewhereInv(s: State) {
    forall id | id in s.closings :: InMap(s, id) || Taken(s, id) || Closed(s, id)
  }

  ghost predicate SweepInv(s: State) {
    && s.taken.Keys == s.pending.Keys
    && (forall sweep, i | sweep in s.taken && 0 <= i < |s.taken[sweep]| ::
          s.taken[sweep][i] in s.pending[sweep] || Closed(s, s.taken[sweep][i]))
  }

  ghost predicate Inv(s: State) {
    MapInv(s) && WaitInv(s) && SomewhereInv(s) && SweepInv(s)
  }

  lemma OrderIsDistinct(order: seq<Id>, i: nat, j: nat)
    requires i < j < |order| && order[i] == order[j]
    ensures multiset(order)[order[i]] >= 2
  {
    var x := order[i];
    assert order == order[..j] + ([x] + order[j + 1..]);
    assert x in order[..j];
    assert multiset(order)[x] == multiset(order[..j])[x] + multiset([x] + order[j + 1..])[x];
    assert multiset([x] + order[j + 1..])[x] >= 1;
  }

  lemma OrderListsKeys(order: seq<Id>, agents: map<Id, Handle>)
    requires multiset(order) == multiset(agents.Keys)
    ensures forall i | 0 <= i < |order| :: order[i] in agents
    ensures forall i, j | 0 <= i < j < |order| :: order[i] != order[j]
    ensures forall id | id in agents :: exists i :: 0 <= i < |order| && order[i] == id
  {
    forall i | 0 <= i < |order| ensures order[i] in agents {
      assert order[i] in multiset(order);
    }
    forall i, j | 0 <= i < j < |order| ensures order[i] != order[j] {
      if order[i] == order[j] {
        OrderIsDistinct(order, i, j);
      }
    }
    forall id | id in agents ensures exists i :: 0 <= i < |order| && order[i] == id {
      assert id in multiset(order);
    }
  }

  /** Where a handle can be waiting after a step. */
  lemma WaitsAfter(s: State, a: Action, id: Id, sweep: Sweep, i: int)
    requires Enabled(s, a) && i >= 0
    ensures WaitsAt(Apply(s, a), id, sweep, i) <==>
      if a.TakeAll? && a.sweep == sweep then i < |a.order| && a.order[i] == id
      else if a.CloseNext? && a.sweep == sweep then WaitsAt(s, id, sweep, i + 1)
      else WaitsAt(s, id, sweep, i)
  {
  }

  lemma StepKeepsMap(s: State, a: Action)
    requires Inv(s) && Enabled(s, a)
    ensures MapInv(Apply(s, a))
  {
    if a.CloseNext? {
      assert WaitsAt(s, s.pending[a.sweep][0], a.sweep, 0);
    }
  }

  lemma StepKeepsWaiting(s: State, a: Action)
    requires MapInv(s) && WaitInv(s) && Enabled(s, a)
    ensures WaitInv(Apply(s, a))
  {
    var t := Apply(s, a);
    if a.TakeAll? {
      OrderListsKeys(a.order, s.agents);
    } else if a.CloseNext? {
      assert WaitsAt(s, s.pending[a.sweep][0], a.sweep, 0);
    }
    forall id, sweep, i | WaitsAt(t, id, sweep, i)
      ensures id in t.closings && t.closings[id] == 0 && id !in t.agents
    {
      WaitsAfter(s, a, id, sweep, i);
    }
    forall id, sweep, i, sweep', i' | WaitsAt(t, id, sweep, i) && WaitsAt(t, id, sweep', i')
      ensures sweep == sweep' && i == i'
    {
      WaitsAfter(s, a, id, sweep, i);
      WaitsAfter(s, a, id, sweep', i');
    }
  }

  lemma StepKeepsSomewhere(s: State, a: Action)
    requires Inv(s) && Enabled(s, a)
    ensures SomewhereInv(Apply(s, a))
  {
    var t := Apply(s, a);
    forall id | id in t.closings ensures InMap(t, id) || Taken(t, id) || Closed(t, id) {
      if id in s.closings && Taken(s, id) {
        var sweep, i :| WaitsAt(s, id, sweep, i);
        if a == CloseNext(sweep) {
          if i > 0 {
            WaitsAfter(s, a, id, sweep, i - 1);
          }
        } else {
          WaitsAfter(s, a, id, sweep, i);
        }
      } else if a.TakeAll? && InMap(s, id) {
        OrderListsKeys(a.order, s.agents);
        var i :| 0 <= i < |a.order| && a.order[i] == id;
        WaitsAfter(s, a, id, a.sweep, i);
      } else if a.CloseNext? && id == s.pending[a.sweep][0] {
        assert WaitsAt(s, id, a.sweep, 0);
      }
    }
  }

  lemma StepKeepsSweeps(s: State, a: Action)
    requires Inv(s) && Enabled(s, a)
    ensures SweepInv(Apply(s, a))
  {
    var t := Apply(s, a);
    forall sweep, i | sweep in t.taken && 0 <= i < |t.taken[sweep]|
      ensures t.taken[sweep][i] in t.pending[sweep] || Closed(t, t.taken[sweep][i])
    {
      if !(a.TakeAll? && a.sweep == sweep) {
        var id := s.taken[sweep][i];
        assert id in s.pending[sweep] || Closed(s, id);
        if a.CloseNext? {
          var first := s.pending[a.sweep][0];
          assert WaitsAt(s, first, a.sweep, 0);
          if a.sweep == sweep {
            assert s.pending[sweep] == [first] + t.pending[sweep];
          }
        }
      }
    }
  }

  lemma {:induction false} ExecKeepsInv(schedule: seq<Action>)
    ensures Inv(Exec(schedule))
  {
    if schedule == [] {
    } else {
      ExecKeepsInv(schedule[..|schedule| - 1]);
      var s, a := Exec(schedule[..|schedule| - 1]), schedule[|schedule| - 1];
      if Enabled(s, a) {
        StepKeepsMap(s, a);
        StepKeepsWaiting(s, a);
        StepKeepsSomewhere(s, a);
        StepKeepsSweeps(s, a);
      }
    }
  }

  // ---------------------------------------------------------------- guarantees

  /** In every interleaving each handle ever spawned is in exactly one place: in the map, taken by one StopAll, or closed. */
  lemma HandleIsInOnePlace(schedule: seq<Action>, id: Id)
    requires id in Exec(schedule).closings
    ensures
      var s := Exec(schedule);
      || (InMap(s, id) && !Taken(s, id) && !Closed(s, id))
      || (!InMap(s, id) && Taken(s, id) && !Closed(s, id))
      || (!InMap(s, id) && !Taken(s, id) && Closed(s, id))
  {
    ExecKeepsInv(schedule);
  }

  /** No two runs of StopAll, and no two places of one run, hold the same handle. */
  lemma TakenByOne(schedule: seq<Action>, id: Id, sweep: Sweep, i: int, sweep': Sweep, i': int)
    requires WaitsAt(Exec(schedule), id, sweep, i) && WaitsAt(Exec(schedule), id, sweep', i')
    ensures sweep == sweep' && i == i'
  {
    ExecKeepsInv(schedule);
  }

  /** No result channel is ever closed twice, so no interleaving panics. */
  lemma ChannelIsClosedAtMostOnce(schedule: seq<Action>, id: Id)
    requires id in Exec(schedule).closings
    ensures Exec(schedule).closings[id] <= 1
  {
    ExecKeepsInv(schedule);
    var s := Exec(schedule);
    if Taken(s, id) {
      var sweep, i :| WaitsAt(s, id, sweep, i);
    }
  }

  /** What the loop of a StopAll is about to close is an open channel, and so is what a Stop would close. */
  lemma ClosingIsSafe(schedule: seq<Action>)
    ensures var s := Exec(schedule);
      && (forall sweep | sweep in s.pending && s.pending[sweep] != [] ::
            Enabled(s, CloseNext(sweep)) && s.closings[s.pending[sweep][0]] == 0)
      && (forall id | id in s.agents :: Enabled(s, Stop(id)) && s.closings[id] == 0)
  {
    ExecKeepsInv(schedule);
    var s := Exec(schedule);
    forall sweep | sweep in s.pending && s.pending[sweep] != []
      ensures s.pending[sweep][0] in s.closings && s.closings[s.pending[sweep][0]] == 0
    {
      assert WaitsAt(s, s.pending[sweep][0], sweep, 0);
    }
  }

  /** When a StopAll has closed all it took, every handle that was in the map when it began is closed. */
  lemma FinishedSweepClosedAll(schedule: seq<Action>, sweep: Sweep, id: Id)
    requires sweep in Exec(schedule).pending && Exec(schedule).pending[sweep] == []
    requires sweep in Exec(schedule).taken && id in Exec(schedule).taken[sweep]
    ensures Closed(Exec(schedule), id) && id !in Exec(schedule).agents
  {
    ExecKeepsInv(schedule);
    var s := Exec(schedule);
    var i :| 0 <= i < |s.taken[sweep]| && s.taken[sweep][i] == id;
  }

  // ---------------------------------------------------------------- the manager itself

  predicate Matches(s: State, id: Id, parent: Id, slug: string) {
    id in s.agents && s.agents[id].slug == slug && s.agents[id].parent == parent
    && id in s.status && s.status[id] == "running"
  }

  /** Whatever `FindBySlug` may return in a reachable state has an open channel and is one of the parent's running agents. */
  lemma FoundHandleIsOpen(schedule: seq<Action>, id: Id, parent: Id, slug: string)
    requires Matches(Exec(schedule), id, parent, slug)
    ensures Exec(schedule).closings.Keys >= {id} && Exec(schedule).closings[id] == 0
    ensures Exec(schedule).agents[id] == Handle(id, parent, slug)
  {
    ExecKeepsInv(schedule);
  }

  // ---------------------------------------------------------------- what each operation brings about

  lemma ExecOneMore(schedule: seq<Action>, a: Action)
    ensures var s := Exec(schedule); Exec(schedule + [a]) == if Enabled(s, a) then Apply(s, a) else s
  {
    assert (schedule + [a])[..|schedule|] == schedule;
  }

  lemma ExecTwoParts(schedule: seq<Action>, more: seq<Action>, a: Action)
    ensures var s := Exec(schedule + more); Exec(schedule + (more + [a])) == if Enabled(s, a) then Apply(s, a) else s
  {
    ExecOneMore(schedule + more, a);
    assert schedule + (more + [a]) == schedule + more + [a];
  }

  /** Running with an open channel, and in the map under its id. */
  predicate Running(s: State, h: Handle) {
    Matches(s, h.id, h.parent, h.slug) && h.id in s.closings && s.closings[h.id] == 0
  }

  /** A spawned agent is there: it can be found by its parent and slug, and its channel is open. A refusal changes nothing. */
  lemma SpawnedIsRunning(schedule: seq<Action>, h: Handle)
    requires h.id !in Exec(schedule).closings
    ensures var s, t := Exec(schedule), Exec(schedule + [Spawn(h.id, h.parent, h.slug, true)]);
      Running(t, h) && h.id !in s.agents && t.agents - {h.id} == s.agents && t.pending == s.pending
    ensures Exec(schedule + [Spawn(h.id, h.parent, h.slug, false)]) == Exec(schedule)
  {
    ExecKeepsInv(schedule);
    ExecOneMore(schedule, Spawn(h.id, h.parent, h.slug, true));
    ExecOneMore(schedule, Spawn(h.id, h.parent, h.slug, false));
  }

  /** Some action of `more` stops agent `id` or takes all agents. */
  ghost predicate TakenOut(schedule: seq<Action>, more: seq<Action>, id: Id) {
    exists i | 0 <= i < |more| :: TakesOut(Exec(schedule + more[..i]), more[i], id)
  }

  ghost predicate TakesOut(s: State, a: Action, id: Id) {
    a == Stop(id) || (a.TakeAll? && Enabled(s, a))
  }

  lemma TakenOutOneMore(schedule: seq<Action>, more: seq<Action>, a: Action, id: Id)
    ensures TakenOut(schedule, more + [a], id) <==> TakenOut(schedule, more, id) || TakesOut(Exec(schedule + more), a, id)
  {
    var longer := more + [a];
    assert longer[..|more|] == more;
    assert forall i | 0 <= i < |more| :: longer[i] == more[i] && longer[..i] == more[..i];
  }

  lemma StepKeepsRunning(s: State, a: Action, h: Handle)
    requires Inv(s) && Enabled(s, a) && Running(s, h) && s.agents[h.id] == h
    ensures if TakesOut(s, a, h.id) then h.id !in Apply(s, a).agents
            else Running(Apply(s, a), h) && Apply(s, a).agents[h.id] == h
  {
    if a.CloseNext? {
      assert WaitsAt(s, s.pending[a.sweep][0], a.sweep, 0);
    }
  }

  lemma StepKeepsOut(s: State, a: Action, id: Id)
    requires Enabled(s, a) && id in s.closings && id !in s.agents
    ensures id in Apply(s, a).closings && id !in Apply(s, a).agents
  {
  }

  /** As it was when it was running, or gone from the map for good. */
  predicate RunningOrOut(s: State, h: Handle, out: bool) {
    if out then h.id in s.closings && h.id !in s.agents else Running(s, h) && h.id in s.agents && s.agents[h.id] == h
  }

  lemma StepRunningOrOut(s: State, t: State, a: Action, h: Handle, out: bool)
    requires Inv(s) && RunningOrOut(s, h, out) && t == if Enabled(s, a) then Apply(s, a) else s
    ensures RunningOrOut(t, h, out || TakesOut(s, a, h.id))
  {
    if Enabled(s, a) {
      if out {
        StepKeepsOut(s, a, h.id);
      } else {
        StepKeepsRunning(s, a, h);
      }
    }
  }

  /** A running agent stays as it is, whatever else happens, until it is stopped or a StopAll begins; then it is gone for good. */
  lemma {:induction false} StaysRunningIff(schedule: seq<Action>, more: seq<Action>, h: Handle)
    requires Running(Exec(schedule), h)
    ensures RunningOrOut(Exec(schedule + more), h, TakenOut(schedule, more, h.id))
  {
    if more == [] {
      assert schedule + more == schedule;
      ExecKeepsInv(schedule);
    } else {
      var before, a := more[..|more| - 1], more[|more| - 1];
      StaysRunningIff(schedule, before, h);
      assert more == before + [a];
      TakenOutOneMore(schedule, before, a, h.id);
      ExecTwoParts(schedule, before, a);
      ExecKeepsInv(schedule + before);
      StepRunningOrOut(Exec(schedule + before), Exec(schedule + more), a, h, TakenOut(schedule, before, h.id));
    }
  }

  /** A stopped agent is out of the map with its channel closed, and the others are as they were. */
  lemma StoppedIsClosed(schedule: seq<Action>, id: Id)
    requires id in Exec(schedule).agents
    ensures var s, t := Exec(schedule), Exec(schedule + [Stop(id)]);
      && Closed(t, id) && id in t.status && t.status[id] == "stopped"
      && t.agents == s.agents - {id} && t.pending == s.pending
  {
    ExecKeepsInv(schedule);
    ExecOneMore(schedule, Stop(id));
  }

  /** When a StopAll begins the map is empty, and every agent that was in it waits for this StopAll to close it. */
  lemma TakenAllWait(schedule: seq<Action>, sweep: Sweep, order: seq<Id>)
    requires Enabled(Exec(schedule), TakeAll(sweep, order))
    ensures var s, t := Exec(schedule), Exec(schedule + [TakeAll(sweep, order)]);
      && t.agents == map[]
      && (forall id | id in s.agents :: exists i :: WaitsAt(t, id, sweep, i))
      && sweep in t.pending && |t.pending[sweep]| == |s.agents|
  {
    var s, t := Exec(schedule), Exec(schedule + [TakeAll(sweep, order)]);
    ExecOneMore(schedule, TakeAll(sweep, order));
    OrderListsKeys(order, s.agents);
    forall id | id in s.agents ensures exists i :: WaitsAt(t, id, sweep, i) {
      var i :| 0 <= i < |order| && order[i] == id;
      assert WaitsAt(t, id, sweep, i);
    }
    assert |order| == |multiset(order)| == |multiset(s.agents.Keys)| == |s.agents.Keys| == |s.agents|;
  }

  function Turns(sweep: Sweep, n: nat): seq<Action> {
    seq(n, _ => CloseNext(sweep))
  }

  /** As many turns of its loop as a StopAll has handles left close them all. */
  lemma {:induction false} SweepCloses(schedule: seq<Action>, sweep: Sweep, n: nat)
    requires sweep in Exec(schedule).pending && |Exec(schedule).pending[sweep]| == n
    ensures var s, t := Exec(schedule), Exec(schedule + Turns(sweep, n));
      && sweep in t.pending && t.pending[sweep] == []
      && t.agents == s.agents && s.closings.Keys <= t.closings.Keys
      && (forall id | Closed(s, id) || id in s.pending[sweep] :: Closed(t, id))
    decreases n
  {
    var s := Exec(schedule);
    if n == 0 {
      assert schedule + Turns(sweep, 0) == schedule;
    } else {
      ExecKeepsInv(schedule);
      assert WaitsAt(s, s.pending[sweep][0], sweep, 0);
      ExecOneMore(schedule, CloseNext(sweep));
      var u := Exec(schedule + [CloseNext(sweep)]);
      assert s.pending[sweep] == [s.pending[sweep][0]] + u.pending[sweep];
      SweepCloses(schedule + [CloseNext(sweep)], sweep, n - 1);
      assert schedule + Turns(sweep, n) == schedule + [CloseNext(sweep)] + Turns(sweep, n - 1);
    }
  }

  /** A StopAll that runs to its end closes every agent that was in the map when it began. */
  lemma StopAllClosesAll(schedule: seq<Action>, sweep: Sweep, order: seq<Id>)
    requires Enabled(Exec(schedule), TakeAll(sweep, order))
    ensures var s := Exec(schedule);
      var t := Exec(schedule + [TakeAll(sweep, order)] + Turns(sweep, |s.agents|));
      t.agents == map[] && sweep in t.pending && t.pending[sweep] == [] && forall id | id in s.agents :: Closed(t, id)
  {
    TakenAllWait(schedule, sweep, order);
    SweepCloses(schedule + [TakeAll(sweep, order)], sweep, |Exec(schedule).agents|);
  }

  class Manager {
    var agents: map<Id, Handle>
    var status: map<Id, string>
    var closings: map<Id, nat>
    var pending: map<Sweep, seq<Id>>
    ghost var taken: map<Sweep, seq<Id>>

    ghost function View(): State
      reads this
    {
      State(agents, status, closings, pending, taken)
    }

    constructor ()
      ensures View() == INIT
    {
      agents, status, closings, pending, taken := map[], map[], map[], map[], map[];
    }

    /** `id` is the fresh UUID; the factory may refuse. */
    method SpawnAgent(id: Id, parent: Id, slug: string, created: bool) returns (handle: Option<Handle>)
      requires Enabled(View(), Spawn(id, parent, slug, created))
      modifies this
      ensures View() == Apply(old(View()), Spawn(id, parent, slug, created))
      ensures handle == if created then Some(Handle(id, parent, slug)) else None
      ensures created ==> Running(View(), Handle(id, parent, slug)) && agents == old(agents)[id := handle.value]
      ensures !created ==> View() == old(View())
    {
      if !created {
        return None;
      }
      var h := Handle(id, parent, slug);
      status := status[id := "running"];
      closings := closings[id := 0];
      agents := agents[id := h];
      handle := Some(h);
    }

    method StopAgent(id: Id) returns (found: bool)
      requires Enabled(View(), Stop(id))
      modifies this
      ensures View() == Apply(old(View()), Stop(id))
      ensures found == (id in old(agents))
      ensures found ==> agents == old(agents) - {id} && closings[id] == old(closings[id]) + 1 && status[id] == "stopped"
    {
      if id !in agents {
        return false;
      }
      status := status[id := "stopped"];
      closings := closings[id := closings[id] + 1];
      agents := agents - {id};
      found := true;
    }

    /** Lines 196-202: the critical section of `StopAll`. */
    method BeginStopAll(sweep: Sweep)
      requires sweep !in pending
      modifies this
      ensures agents == map[] && sweep in pending && multiset(pending[sweep]) == multiset(old(agents).Keys)
      ensures View() == Apply(old(View()), TakeAll(sweep, pending[sweep]))
    {
      var handles: seq<Id> := [];
      var rest := agents;
      while rest != map[]
        invariant rest.Keys <= agents.Keys
        invariant multiset(handles) + multiset(rest.Keys) == multiset(agents.Keys)
        invariant View() == old(View())
        decreases |rest|
      {
        ghost var some := SomeKey(rest);
        var id :| id in rest;
        handles := handles + [id];
        rest := rest - {id};
      }
      pending := pending[sweep := handles];
      taken := taken[sweep := handles];
      agents := map[];
    }

    /** Line 209: one turn of the loop of `StopAll`. */
    method CloseOne(sweep: Sweep)
      requires Enabled(View(), CloseNext(sweep))
      modifies this
      ensures View() == Apply(old(View()), CloseNext(sweep))
      ensures sweep in pending && old(pending[sweep]) == [old(pending[sweep][0])] + pending[sweep]
      ensures closings == old(closings)[old(pending[sweep][0]) := old(closings[pending[sweep][0]]) + 1]
    {
      var id := pending[sweep][0];
      closings := closings[id := closings[id] + 1];
      pending := pending[sweep := pending[sweep][1..]];
    }

    /** The first matching handle in some iteration order, or none if none matches. */
    method FindBySlug(parent: Id, slug: string) returns (found: Option<Handle>)
      requires MapInv(View())
      ensures found.Some? ==> Matches(View(), found.value.id, parent, slug)
      ensures found.None? ==> forall id :: !Matches(View(), id, parent, slug)
    {
      var rest := agents;
      while rest != map[]
        invariant rest.Keys <= agents.Keys && forall id | id in rest :: rest[id] == agents[id]
        invariant forall id | id in agents && id !in rest :: !Matches(View(), id, parent, slug)
        decreases |rest|
      {
        ghost var some := SomeKey(rest);
        var id :| id in rest;
        var h := rest[id];
        if h.slug == slug && h.parent == parent && status[h.id] == "running" {
          return Some(h);
        }
        rest := rest - {id};
      }
      found := None;
    }
  }
}
