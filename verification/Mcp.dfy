/**
  The request correlation of the MCP client, `pkg/mcp/client.go`.

  Any number of goroutines run `call`; one goroutine runs `receiveLoop`.  They share the
  `pending` map (under a mutex) and one buffered channel of capacity one per call.  The atomic
  actions below are the lock-protected sections and the channel operations of that code; the
  server, the transport and the contexts are unconstrained, so a sequence of actions is an
  arbitrary interleaving with arbitrary (unknown, duplicate, malformed) server messages.
*/
module Mcp {

  /** What the JSON decoder makes of one message of the transport. */
  datatype Frame = Undecodable | Response(id: string, result: string)

  /** A response held by the client; `frame` is its position in the sequence of all messages received. */
  datatype Reply = Reply(frame: nat, id: string, result: string)

  datatype Cause = MarshalError | SendError | ContextDone

  /** Where the goroutine of one `call` is. */
  datatype Call =
    | Allocated             // the id is drawn
    | Registered            // `pending` was written, `Send` has not returned
    | Waiting               // in the `select`
    | Withdrawing(Cause)    // about to take the lock and delete its id
    | Failed(cause: Cause)  // returned an error of its own
    | Answered(reply: Reply)

  /** Where `receiveLoop` is; it has ended when the transport's channel was closed. */
  datatype Loop = Idle | Holding(reply: Reply) | Pushing(call: nat, reply: Reply) | Ended

  datatype State = State(
    nextID: nat,
    pending: map<string, nat>,      // id -> the call whose channel is stored there
    slots: map<nat, seq<Reply>>,    // the buffer of each call's channel
    calls: map<nat, Call>,
    loop: Loop,
    frames: seq<Frame>              // history: every message received so far
  )

  datatype Action =
    | Begin | FailMarshal(k: nat) | Register(k: nat)
    | ReturnFromSend(k: nat, ok: bool) | SeeDone(k: nat) | Withdraw(k: nat) | Take(k: nat)
    | Receive(frame: Frame) | Lookup | Push | CloseTransport

  const CAPACITY := 1

  // ---------------------------------------------------------------- request ids

  function Digit(d: nat): char
    requires d < 10
  {
    "0123456789"[d]
  }

  /** `fmt.Sprintf("%d", n)` */
  function Decimal(n: nat): (s: string)
    ensures s != ""
  {
    if n < 10 then [Digit(n)] else Decimal(n / 10) + [Digit(n % 10)]
  }

  /** Two calls never draw the same id. */
  lemma {:induction false} DecimalInjective(m: nat, n: nat)
    requires Decimal(m) == Decimal(n)
    ensures m == n
  {
    var s, t := Decimal(m), Decimal(n);
    assert s[|s| - 1] == Digit(m % 10);
    assert t[|t| - 1] == Digit(n % 10);
    if 10 <= m && 10 <= n {
      assert s[..|s| - 1] == Decimal(m / 10);
      assert t[..|t| - 1] == Decimal(n / 10);
      DecimalInjective(m / 10, n / 10);
    }
  }

  // ---------------------------------------------------------------- the step relation

  const INIT := State(0, map[], map[], map[], Idle, [])

  predicate At(s: State, k: nat, c: Call) {
    k in s.calls && s.calls[k] == c
  }

  predicate Enabled(s: State, a: Action) {
    match a
    case Begin => true
    case FailMarshal(k) => At(s, k, Allocated)
    case Register(k) => At(s, k, Allocated)
    case ReturnFromSend(k, _) => At(s, k, Registered)
    case SeeDone(k) => At(s, k, Waiting)
    case Withdraw(k) => k in s.calls && s.calls[k].Withdrawing?
    case Take(k) => At(s, k, Waiting) && k in s.slots && s.slots[k] != []
    case Receive(_) => s.loop.Idle?
    case Lookup => s.loop.Holding?
    case CloseTransport => s.loop.Idle?
    case Push => s.loop.Pushing? && s.loop.call in s.slots && |s.slots[s.loop.call]| < CAPACITY
  }

  function Apply(s: State, a: Action): State
    requires Enabled(s, a)
  {
    match a
    case Begin =>
      s.(nextID := s.nextID + 1, calls := s.calls[s.nextID + 1 := Allocated])
    case FailMarshal(k) =>
      s.(calls := s.calls[k := Failed(MarshalError)])
    case Register(k) =>
      s.(pending := s.pending[Decimal(k) := k], slots := s.slots[k := []], calls := s.calls[k := Registered])
    case ReturnFromSend(k, ok) =>
      s.(calls := s.calls[k := if ok then Waiting else Withdrawing(SendError)])
    case SeeDone(k) =>
      s.(calls := s.calls[k := Withdrawing(ContextDone)])
    case Withdraw(k) =>
      var Withdrawing(cause) := s.calls[k];
      s.(pending := s.pending - {Decimal(k)}, calls := s.calls[k := Failed(cause)])
    case Take(k) =>
      s.(slots := s.slots[k := s.slots[k][1..]], calls := s.calls[k := Answered(s.slots[k][0])])
    case Receive(frame) =>
      s.(frames := s.frames + [frame],
         loop := if frame.Undecodable? || frame.id == "" then Idle
                 else Holding(Reply(|s.frames|, frame.id, frame.result)))
    case Lookup =>
      var reply := s.loop.reply;
      if reply.id in s.pending then
        s.(pending := s.pending - {reply.id}, loop := Pushing(s.pending[reply.id], reply))
      else
        s.(loop := Idle)
    case Push =>
      var Pushing(k, reply) := s.loop;
      s.(slots := s.slots[k := s.slots[k] + [reply]], loop := Idle)
    case CloseTransport => s.(loop := Ended)
  }

  /** The state after a schedule; an action that is blocked where the schedule puts it is skipped. */
  function Exec(schedule: seq<Action>): State {
    if schedule == [] then INIT
    else
      var s := Exec(schedule[..|schedule| - 1]);
      var a := schedule[|schedule| - 1];
      if Enabled(s, a) then Apply(s, a) else s
  }

  // ---------------------------------------------------------------- what every step keeps

  predicate Received(s: State, r: Reply) {
    r.frame < |s.frames| && s.frames[r.frame] == Response(r.id, r.result)
  }

  /** Reply `r` is with call `k`: on its way into the channel, in the channel, or returned. */
  predicate Delivered(s: State, k: nat, r: Reply) {
    || s.loop == Pushing(k, r)
    || (k in s.slots && s.slots[k] == [r])
    || At(s, k, Answered(r))
  }

  predicate Live(c: Call) {
    c.Registered? || c.Waiting? || c.Withdrawing?
  }

  ghost predicate CallsNumbered(s: State) {
    && (forall k | k in s.calls :: k <= s.nextID)
    && (forall k | k in s.calls && Live(s.calls[k]) :: k in s.slots)
    && (forall k | k in s.slots :: k in s.calls && |s.slots[k]| <= CAPACITY && !s.calls[k].Allocated?)
  }

  ghost predicate PendingOwned(s: State) {
    forall id | id in s.pending ::
      var k := s.pending[id];
      id == Decimal(k) && k in s.calls && Live(s.calls[k]) && k in s.slots && s.slots[k] == []
  }

  ghost predicate DeliveredToOwner(s: State) {
    forall k, r | Delivered(s, k, r) ::
      Received(s, r) && r.id == Decimal(k) && Decimal(k) !in s.pending
  }

  ghost predicate DeliveredOnce(s: State) {
    forall k, r, j, q | Delivered(s, k, r) && Delivered(s, j, q) && r.frame == q.frame :: k == j
  }

  ghost predicate LoopReady(s: State) {
    match s.loop
    case Idle | Ended => true
    case Holding(r) =>
      && Received(s, r)
      && r.frame == |s.frames| - 1
      && (forall k, q | Delivered(s, k, q) :: q.frame < r.frame)
    case Pushing(k, r) =>
      && k in s.calls && k in s.slots && s.slots[k] == []
      && !s.calls[k].Answered?
      && r.frame == |s.frames| - 1
  }

  ghost predicate Settled(s: State) {
    forall k | k in s.calls ::
      match s.calls[k]
      case Answered(_) => k in s.slots && s.slots[k] == []
      case Failed(_) => Decimal(k) !in s.pending
      case _ => true
  }

  /** No live call is orphaned: its id is still registered, or its reply is on the way or in the channel. */
  ghost predicate NoOrphans(s: State) {
    forall k | k in s.calls && Live(s.calls[k]) ::
      || Decimal(k) in s.pending
      || (s.loop.Pushing? && s.loop.call == k)
      || (k in s.slots && s.slots[k] != [])
  }

  ghost predicate Inv(s: State) {
    && CallsNumbered(s)
    && PendingOwned(s)
    && DeliveredToOwner(s)
    && DeliveredOnce(s)
    && LoopReady(s)
    && Settled(s)
    && NoOrphans(s)
  }

  /** The only step that makes a new delivery is a successful lookup. */
  lemma DeliveryComesFromLookup(s: State, a: Action, k: nat, r: Reply)
    requires CallsNumbered(s) && Enabled(s, a)
    requires Delivered(Apply(s, a), k, r)
    ensures Delivered(s, k, r) || (a == Lookup && s.loop.reply == r && r.id in s.pending && s.pending[r.id] == k)
  {
    var t := Apply(s, a);
    if At(t, k, Answered(r)) {
      if a == Take(k) {
        assert s.slots[k] == [r];
      }
    } else if k in t.slots && t.slots[k] == [r] {
      if a == Push && s.loop.call == k {
        assert s.slots[k] == [];
        assert t.slots[k][0] == s.loop.reply;
      }
    }
  }

  lemma StepKeepsCalls(s: State, a: Action)
    requires CallsNumbered(s) && LoopReady(s) && Enabled(s, a)
    ensures CallsNumbered(Apply(s, a))
  {
  }

  /** A pending entry after a step was there before, or is the registration the step makes. */
  lemma EntryAfter(s: State, a: Action, id: string)
    requires Enabled(s, a) && id in Apply(s, a).pending
    ensures (id in s.pending && Apply(s, a).pending[id] == s.pending[id]) || (a.Register? && id == Decimal(a.k))
    ensures a.Register? && id == Decimal(a.k) ==> Apply(s, a).pending[id] == a.k
    ensures a.Withdraw? ==> id != Decimal(a.k)
  {
  }

  lemma StepKeepsEntry(s: State, a: Action, id: string)
    requires CallsNumbered(s) && PendingOwned(s) && DeliveredToOwner(s) && LoopReady(s) && Enabled(s, a)
    requires id in Apply(s, a).pending
    ensures var t := Apply(s, a); var k := t.pending[id];
      id == Decimal(k) && k in t.calls && Live(t.calls[k]) && k in t.slots && t.slots[k] == []
  {
    EntryAfter(s, a, id);
    if a.Push? {
      assert Delivered(s, s.loop.call, s.loop.reply);
    }
  }

  lemma StepKeepsPending(s: State, a: Action)
    requires CallsNumbered(s) && PendingOwned(s) && DeliveredToOwner(s) && LoopReady(s) && Enabled(s, a)
    ensures PendingOwned(Apply(s, a))
  {
    forall id | id in Apply(s, a).pending
      ensures var t := Apply(s, a); var k := t.pending[id];
        id == Decimal(k) && k in t.calls && Live(t.calls[k]) && k in t.slots && t.slots[k] == []
    {
      StepKeepsEntry(s, a, id);
    }
  }

  lemma StepKeepsSettled(s: State, a: Action)
    requires CallsNumbered(s) && PendingOwned(s) && LoopReady(s) && Settled(s) && Enabled(s, a)
    ensures Settled(Apply(s, a))
  {
    var t := Apply(s, a);
    forall k | k in t.calls && t.calls[k].Failed? ensures Decimal(k) !in t.pending {
      if a.Register? && Decimal(k) == Decimal(a.k) {
        DecimalInjective(k, a.k);
      } else if a == FailMarshal(k) && Decimal(k) in s.pending {
        DecimalInjective(k, s.pending[Decimal(k)]);
      }
    }
    forall k | k in t.calls && t.calls[k].Answered? ensures k in t.slots && t.slots[k] == [] {
      if a == Take(k) {
        assert |s.slots[k]| == 1;
      }
    }
  }

  lemma StepKeepsDelivered(s: State, a: Action)
    requires CallsNumbered(s) && PendingOwned(s) && DeliveredToOwner(s) && LoopReady(s) && Enabled(s, a)
    ensures DeliveredToOwner(Apply(s, a))
  {
    var t := Apply(s, a);
    forall k, r | Delivered(t, k, r)
      ensures Received(t, r) && r.id == Decimal(k) && Decimal(k) !in t.pending
    {
      DeliveryComesFromLookup(s, a, k, r);
      if a.Register? && Decimal(k) == Decimal(a.k) {
        DecimalInjective(k, a.k);
      }
    }
  }

  lemma StepKeepsDeliveredOnce(s: State, a: Action)
    requires CallsNumbered(s) && LoopReady(s) && DeliveredOnce(s) && Enabled(s, a)
    ensures DeliveredOnce(Apply(s, a))
  {
    var t := Apply(s, a);
    forall k, r, j, q | Delivered(t, k, r) && Delivered(t, j, q) && r.frame == q.frame ensures k == j {
      DeliveryComesFromLookup(s, a, k, r);
      DeliveryComesFromLookup(s, a, j, q);
    }
  }

  lemma StepKeepsLoopReady(s: State, a: Action)
    requires CallsNumbered(s) && PendingOwned(s) && DeliveredToOwner(s) && LoopReady(s) && Enabled(s, a)
    ensures LoopReady(Apply(s, a))
  {
    var t := Apply(s, a);
    forall k, q | t.loop.Holding? && Delivered(t, k, q) ensures q.frame < t.loop.reply.frame {
      DeliveryComesFromLookup(s, a, k, q);
      assert Received(s, q);
    }
  }

  lemma StepKeepsNoOrphans(s: State, a: Action)
    requires CallsNumbered(s) && PendingOwned(s) && NoOrphans(s) && Enabled(s, a)
    ensures NoOrphans(Apply(s, a))
  {
    var t := Apply(s, a);
    forall k | k in t.calls && Live(t.calls[k])
      ensures Decimal(k) in t.pending || (t.loop.Pushing? && t.loop.call == k) || (k in t.slots && t.slots[k] != [])
    {
      if a.Withdraw? && Decimal(k) == Decimal(a.k) {
        DecimalInjective(k, a.k);
      } else if a.Lookup? && s.loop.reply.id == Decimal(k) && Decimal(k) in s.pending {
        DecimalInjective(k, s.pending[Decimal(k)]);
      }
    }
  }

  lemma StepKeepsInv(s: State, a: Action)
    requires Inv(s) && Enabled(s, a)
    ensures Inv(Apply(s, a))
  {
    StepKeepsCalls(s, a);
    StepKeepsPending(s, a);
    StepKeepsDelivered(s, a);
    StepKeepsDeliveredOnce(s, a);
    StepKeepsLoopReady(s, a);
    StepKeepsSettled(s, a);
    StepKeepsNoOrphans(s, a);
  }

  /** Every state of every interleaving satisfies the invariant. */
  lemma {:induction false} ExecKeepsInv(schedule: seq<Action>)
    ensures Inv(Exec(schedule))
  {
    if schedule == [] {
    } else {
      ExecKeepsInv(schedule[..|schedule| - 1]);
      var s, a := Exec(schedule[..|schedule| - 1]), schedule[|schedule| - 1];
      if Enabled(s, a) {
        StepKeepsInv(s, a);
      }
    }
  }

  // ---------------------------------------------------------------- the protocol's guarantees

  /** A call returns only a result that a received message addressed to its own id. */
  lemma AnswerCarriesOwnId(schedule: seq<Action>, k: nat, r: Reply)
    requires At(Exec(schedule), k, Answered(r))
    ensures var s := Exec(schedule); r.frame < |s.frames| && s.frames[r.frame] == Response(Decimal(k), r.result)
  {
    ExecKeepsInv(schedule);
    assert Delivered(Exec(schedule), k, r);
  }

  /** No message completes two calls. */
  lemma ResponseCompletesOneCall(schedule: seq<Action>, k: nat, r: Reply, j: nat, q: Reply)
    requires At(Exec(schedule), k, Answered(r)) && At(Exec(schedule), j, Answered(q))
    requires r.frame == q.frame
    ensures k == j
  {
    ExecKeepsInv(schedule);
    assert Delivered(Exec(schedule), k, r) && Delivered(Exec(schedule), j, q);
  }

  /** A reply once handed to a call stays with it. */
  lemma StepKeepsDelivery(s: State, a: Action, k: nat, r: Reply)
    requires Inv(s) && Enabled(s, a) && Delivered(s, k, r)
    ensures Delivered(Apply(s, a), k, r)
  {
    if s.loop == Pushing(k, r) {
      if a.Push? {
        assert [] + [r] == [r];
      }
    } else if k in s.slots && s.slots[k] == [r] {
    } else {
    }
  }

  lemma {:induction false} DeliveryStays(schedule: seq<Action>, more: seq<Action>, k: nat, r: Reply)
    requires Delivered(Exec(schedule), k, r)
    ensures Delivered(Exec(schedule + more), k, r)
  {
    if more == [] {
      assert schedule + more == schedule;
    } else {
      var before, a := more[..|more| - 1], more[|more| - 1];
      DeliveryStays(schedule, before, k, r);
      assert schedule + more == schedule + before + [a];
      ExecSnoc(schedule + before, a);
      ExecKeepsInv(schedule + before);
      if Enabled(Exec(schedule + before), a) {
        StepKeepsDelivery(Exec(schedule + before), a, k, r);
      }
    }
  }

  /**
    A reply handed to a call stays with it in every continuation, and however many messages carry the
    call's id no other is ever handed to it.
  */
  lemma CallGetsOneReply(schedule: seq<Action>, more: seq<Action>, k: nat, r: Reply)
    requires Delivered(Exec(schedule), k, r)
    ensures forall q :: Delivered(Exec(schedule + more), k, q) <==> q == r
  {
    DeliveryStays(schedule, more, k, r);
    ExecKeepsInv(schedule + more);
  }

  /** The receive loop never blocks on a channel: whenever it is about to push, the slot is free. */
  lemma PushNeverBlocks(schedule: seq<Action>)
    requires Exec(schedule).loop.Pushing?
    ensures Enabled(Exec(schedule), Push)
  {
    ExecKeepsInv(schedule);
  }

  /** A call that has returned, either way, has left the pending map. */
  lemma ReturnedCallIsNotPending(schedule: seq<Action>, k: nat)
    requires k in Exec(schedule).calls
    requires Exec(schedule).calls[k].Failed? || Exec(schedule).calls[k].Answered?
    ensures Decimal(k) !in Exec(schedule).pending
    ensures forall id | id in Exec(schedule).pending :: Exec(schedule).pending[id] != k
  {
    ExecKeepsInv(schedule);
    var s := Exec(schedule);
    if s.calls[k].Answered? {
      assert Delivered(s, k, s.calls[k].reply);
    }
  }

  /** A call in the `select` is in exactly one of three places: registered, being pushed to, or holding its reply. */
  lemma WaitingCallIsNeverLost(schedule: seq<Action>, k: nat)
    requires At(Exec(schedule), k, Waiting)
    ensures
      var s := Exec(schedule);
      var registered := Decimal(k) in s.pending && s.pending[Decimal(k)] == k;
      var pushed := s.loop.Pushing? && s.loop.call == k;
      var ready := Enabled(s, Take(k));
      (registered && !pushed && !ready) || (!registered && pushed && !ready) || (!registered && !pushed && ready)
  {
    ExecKeepsInv(schedule);
    var s := Exec(schedule);
    if Decimal(k) in s.pending {
      DecimalInjective(s.pending[Decimal(k)], k);
    }
    if s.loop.Pushing? && s.loop.call == k {
      assert Delivered(s, k, s.loop.reply);
    } else if s.slots[k] != [] {
      assert s.slots[k] == [s.slots[k][0]];
      assert Delivered(s, k, s.slots[k][0]);
    }
  }

  /** Reply `r` is with call `k` or on its way there, unless the call has given up. */
  ghost predicate Bound(s: State, k: nat, r: Reply) {
    && k in s.calls
    && (|| s.calls[k].Withdrawing? || s.calls[k].Failed?
        || Delivered(s, k, r)
        || (s.loop == Holding(r) && r.id == Decimal(k) && r.id in s.pending && s.pending[r.id] == k))
  }

  lemma StepKeepsBound(s: State, a: Action, k: nat, r: Reply)
    requires Inv(s) && Enabled(s, a) && Bound(s, k, r)
    ensures Bound(Apply(s, a), k, r)
  {
    if Delivered(s, k, r) {
      StepKeepsDelivery(s, a, k, r);
    } else if s.loop == Holding(r) && (a.Register? || a.Withdraw?) && Decimal(a.k) == Decimal(k) {
      DecimalInjective(a.k, k);
    }
  }

  lemma {:induction false} StaysBound(schedule: seq<Action>, more: seq<Action>, k: nat, r: Reply)
    requires Bound(Exec(schedule), k, r)
    ensures Bound(Exec(schedule + more), k, r)
  {
    if more == [] {
      assert schedule + more == schedule;
    } else {
      var before, a := more[..|more| - 1], more[|more| - 1];
      StaysBound(schedule, before, k, r);
      assert schedule + more == schedule + before + [a];
      ExecSnoc(schedule + before, a);
      ExecKeepsInv(schedule + before);
      if Enabled(Exec(schedule + before), a) {
        StepKeepsBound(Exec(schedule + before), a, k, r);
      }
    }
  }

  /** Nothing is left to do for call `k`: its `Send` has returned, and loop and `select` have no step to take. */
  predicate Quiet(s: State, k: nat) {
    && k in s.calls && !s.calls[k].Registered?
    && !Enabled(s, Lookup) && !Enabled(s, Push) && !Enabled(s, Take(k))
  }

  /**
    A message with the id of a registered call is what the call returns: in every continuation, once
    nothing is left to do for the call, it has returned that message unless it gave up by itself, on a
    failed `Send` or the end of its context.
  */
  lemma MatchingResponseIsReturned(schedule: seq<Action>, more: seq<Action>, k: nat, result: string)
    requires Exec(schedule).loop.Idle?
    requires Decimal(k) in Exec(schedule).pending && Exec(schedule).pending[Decimal(k)] == k
    ensures
      var s, t := Exec(schedule), Exec(schedule + [Receive(Response(Decimal(k), result))] + more);
      Quiet(t, k) ==>
        At(t, k, Answered(Reply(|s.frames|, Decimal(k), result))) || t.calls[k].Withdrawing? || t.calls[k].Failed?
  {
    var s := Exec(schedule);
    var received := schedule + [Receive(Response(Decimal(k), result))];
    var r := Reply(|s.frames|, Decimal(k), result);
    ExecKeepsInv(schedule);
    ExecSnoc(schedule, Receive(Response(Decimal(k), result)));
    ReceivedIsBound(s, k, result);
    StaysBound(received, more, k, r);
    ExecKeepsInv(received + more);
    QuietIsOver(Exec(received + more), k, r);
  }

  /** The loop has ended, and call `k` has no reply; it may even begin later. */
  predicate Abandoned(s: State, k: nat) {
    && s.loop.Ended?
    && (k in s.calls ==> !s.calls[k].Answered?)
    && (k in s.slots ==> s.slots[k] == [])
  }

  lemma StepKeepsAbandoned(s: State, a: Action, k: nat)
    requires Abandoned(s, k) && Enabled(s, a)
    ensures Abandoned(Apply(s, a), k)
  {
  }

  lemma {:induction false} StaysAbandoned(schedule: seq<Action>, more: seq<Action>, k: nat)
    requires Abandoned(Exec(schedule), k)
    ensures Abandoned(Exec(schedule + more), k)
  {
    if more == [] {
      assert schedule + more == schedule;
    } else {
      var before, a := more[..|more| - 1], more[|more| - 1];
      StaysAbandoned(schedule, before, k);
      assert schedule + more == schedule + before + [a];
      ExecSnoc(schedule + before, a);
      if Enabled(Exec(schedule + before), a) {
        StepKeepsAbandoned(Exec(schedule + before), a, k);
      }
    }
  }

  predicate MovesCall(s: State, a: Action, k: nat) {
    k in s.calls && Enabled(s, a) && Apply(s, a).calls[k] != s.calls[k]
  }

  lemma OnlyContextIsLeft(t: State, k: nat)
    requires CallsNumbered(t) && Abandoned(t, k) && At(t, k, Waiting)
    ensures forall a :: MovesCall(t, a, k) <==> a == SeeDone(k)
  {
    forall a ensures MovesCall(t, a, k) <==> a == SeeDone(k) {
      if a == SeeDone(k) {
        assert Apply(t, a).calls[k] == Withdrawing(ContextDone);
      }
    }
  }

  lemma ContextIsReturned(schedule: seq<Action>, k: nat)
    requires At(Exec(schedule), k, Waiting)
    ensures At(Exec(schedule + [SeeDone(k), Withdraw(k)]), k, Failed(ContextDone))
  {
    ExecSnoc(schedule, SeeDone(k));
    ExecSnoc(schedule + [SeeDone(k)], Withdraw(k));
    assert schedule + [SeeDone(k)] + [Withdraw(k)] == schedule + [SeeDone(k), Withdraw(k)];
  }

  /**
    Once the transport's channel is closed and the loop has ended, a call without a reply never returns a
    result, in any continuation: in the `select` it can only see the end of its context, and then it returns
    that.
  */
  lemma ClosedTransportAnswersNobody(schedule: seq<Action>, more: seq<Action>, k: nat)
    requires Abandoned(Exec(schedule), k)
    ensures var t := Exec(schedule + more);
      && (k in t.calls ==> !t.calls[k].Answered?)
      && (At(t, k, Waiting) ==>
            && (forall a :: MovesCall(t, a, k) <==> a == SeeDone(k))
            && At(Exec(schedule + more + [SeeDone(k), Withdraw(k)]), k, Failed(ContextDone)))
  {
    StaysAbandoned(schedule, more, k);
    var t := Exec(schedule + more);
    if At(t, k, Waiting) {
      ExecKeepsInv(schedule + more);
      OnlyContextIsLeft(t, k);
      ContextIsReturned(schedule + more, k);
    }
  }

  lemma ReceivedIsBound(s: State, k: nat, result: string)
    requires Inv(s) && s.loop.Idle? && Decimal(k) in s.pending && s.pending[Decimal(k)] == k
    ensures Bound(Apply(s, Receive(Response(Decimal(k), result))), k, Reply(|s.frames|, Decimal(k), result))
  {
  }

  lemma QuietIsOver(t: State, k: nat, r: Reply)
    requires Inv(t) && Bound(t, k, r)
    ensures Quiet(t, k) ==> At(t, k, Answered(r)) || t.calls[k].Withdrawing? || t.calls[k].Failed?
  {
  }

  lemma ExecSnoc(schedule: seq<Action>, a: Action)
    ensures Exec(schedule + [a]) == if Enabled(Exec(schedule), a) then Apply(Exec(schedule), a) else Exec(schedule)
  {
    assert (schedule + [a])[..|schedule|] == schedule;
  }

  /** When the transport's channel is closed, the calls that have no reply are left without one. */
  lemma ClosingAbandons(schedule: seq<Action>, k: nat)
    requires Exec(schedule).loop.Idle?
    ensures Abandoned(Exec(schedule + [CloseTransport]), k) <==> forall r :: !Delivered(Exec(schedule), k, r)
  {
    var s := Exec(schedule);
    ExecKeepsInv(schedule);
    ExecSnoc(schedule, CloseTransport);
    if k in s.slots && s.slots[k] != [] {
      assert s.slots[k] == [s.slots[k][0]];
      assert Delivered(s, k, s.slots[k][0]);
    } else if k in s.calls && s.calls[k].Answered? {
      assert Delivered(s, k, s.calls[k].reply);
    }
  }

  // ---------------------------------------------------------------- what each step brings about

  lemma ExecTwo(schedule: seq<Action>, a: Action, b: Action)
    requires Enabled(Exec(schedule), a) && Enabled(Apply(Exec(schedule), a), b)
    ensures Exec(schedule + [a, b]) == Apply(Apply(Exec(schedule), a), b)
  {
    var both := schedule + [a, b];
    assert both[..|both| - 1] == schedule + [a] && both[|both| - 1] == b;
    ExecSnoc(schedule, a);
  }

  /** A call begins with an id that no call has had. */
  lemma CallBegins(schedule: seq<Action>)
    ensures var s, t := Exec(schedule), Exec(schedule + [Begin]);
      t.nextID !in s.calls && At(t, t.nextID, Allocated) && forall k | k in s.calls :: At(t, k, s.calls[k])
  {
    ExecKeepsInv(schedule);
    ExecSnoc(schedule, Begin);
  }

  /** Encoded and sent, a call waits for its answer, registered under its id. */
  lemma CallIsSent(schedule: seq<Action>, k: nat)
    requires At(Exec(schedule), k, Allocated)
    ensures var s, t := Exec(schedule), Exec(schedule + [Register(k), ReturnFromSend(k, true)]);
      && At(t, k, Waiting) && Decimal(k) in t.pending && t.pending[Decimal(k)] == k
      && t.loop == s.loop && t.frames == s.frames
  {
    ExecTwo(schedule, Register(k), ReturnFromSend(k, true));
  }

  /** A message with the id of a waiting call, looked up and pushed, is what the call returns. */
  lemma AnswerArrives(schedule: seq<Action>, k: nat, result: string)
    requires Exec(schedule).loop.Idle? && At(Exec(schedule), k, Waiting)
    requires Decimal(k) in Exec(schedule).pending && Exec(schedule).pending[Decimal(k)] == k
    ensures var s := Exec(schedule);
      At(Exec(schedule + [Receive(Response(Decimal(k), result)), Lookup] + [Push, Take(k)]), k,
         Answered(Reply(|s.frames|, Decimal(k), result)))
  {
    ExecKeepsInv(schedule);
    ExecTwo(schedule, Receive(Response(Decimal(k), result)), Lookup);
    ExecTwo(schedule + [Receive(Response(Decimal(k), result)), Lookup], Push, Take(k));
  }

  /** A call that is served returns: encoded, sent, and answered with its id. */
  lemma ServedCallReturns(schedule: seq<Action>, k: nat, result: string)
    requires Exec(schedule).loop.Idle? && At(Exec(schedule), k, Allocated)
    ensures var served := [Register(k), ReturnFromSend(k, true)] + [Receive(Response(Decimal(k), result)), Lookup] + [Push, Take(k)];
      At(Exec(schedule + served), k, Answered(Reply(|Exec(schedule).frames|, Decimal(k), result)))
  {
    var sent := [Register(k), ReturnFromSend(k, true)];
    CallIsSent(schedule, k);
    AnswerArrives(schedule + sent, k, result);
    assert schedule + (sent + [Receive(Response(Decimal(k), result)), Lookup] + [Push, Take(k)])
        == schedule + sent + [Receive(Response(Decimal(k), result)), Lookup] + [Push, Take(k)];
  }

  /** The way out that a call has by itself, from where it stands. */
  function WayOut(k: nat, c: Call): seq<Action> {
    match c
    case Allocated => [FailMarshal(k)]
    case Registered => [ReturnFromSend(k, false), Withdraw(k)]
    case Waiting => [SeeDone(k), Withdraw(k)]
    case Withdrawing(_) => [Withdraw(k)]
    case _ => []
  }

  /** No call is stuck: whatever the server does, a call that has not returned can fail, and says why. */
  lemma CallCanFail(schedule: seq<Action>, k: nat)
    requires k in Exec(schedule).calls
    ensures var c, t := Exec(schedule).calls[k], Exec(schedule + WayOut(k, Exec(schedule).calls[k]));
      match c
      case Allocated => At(t, k, Failed(MarshalError))
      case Registered => At(t, k, Failed(SendError))
      case Waiting => At(t, k, Failed(ContextDone))
      case Withdrawing(cause) => At(t, k, Failed(cause))
      case _ => At(t, k, c)
  {
    match Exec(schedule).calls[k] {
      case Allocated => ExecSnoc(schedule, FailMarshal(k));
      case Registered => ExecTwo(schedule, ReturnFromSend(k, false), Withdraw(k));
      case Waiting => ExecTwo(schedule, SeeDone(k), Withdraw(k));
      case Withdrawing(_) => ExecSnoc(schedule, Withdraw(k));
      case _ => assert schedule + [] == schedule;
    }
  }

  /** A message that no waiting call has asked for leaves no trace but in the history. */
  lemma StrangeMessageIsIgnored(schedule: seq<Action>, frame: Frame)
    requires Exec(schedule).loop.Idle?
    requires frame.Response? ==> frame.id == "" || frame.id !in Exec(schedule).pending
    ensures var s := Exec(schedule); Exec(schedule + [Receive(frame)] + [Lookup]) == s.(frames := s.frames + [frame])
  {
    ExecSnoc(schedule, Receive(frame));
    ExecSnoc(schedule + [Receive(frame)], Lookup);
  }

  /** The goroutine that an action belongs to. */
  predicate BelongsTo(a: Action, k: nat) {
    match a
    case FailMarshal(j) => j == k
    case Register(j) => j == k
    case ReturnFromSend(j, _) => j == k
    case SeeDone(j) => j == k
    case Withdraw(j) => j == k
    case Take(j) => j == k
    case _ => false
  }

  /** No call is moved by what other calls and the loop do. */
  lemma OnlyOwnStepsMoveCall(schedule: seq<Action>, a: Action, k: nat)
    requires k in Exec(schedule).calls && !BelongsTo(a, k)
    ensures At(Exec(schedule + [a]), k, Exec(schedule).calls[k])
  {
    ExecKeepsInv(schedule);
    ExecSnoc(schedule, a);
  }

  // ---------------------------------------------------------------- the client itself

  /** The client's shared fields, the channels it has made, and where each goroutine stands. */
  class Client {
    var nextID: nat
    var pending: map<string, nat>
    var slots: map<nat, seq<Reply>>
    var calls: map<nat, Call>
    var loop: Loop
    var frames: seq<Frame>

    ghost function View(): State
      reads this
    {
      State(nextID, pending, slots, calls, loop, frames)
    }

    constructor ()
      ensures View() == INIT
    {
      nextID, pending, slots, calls, loop, frames := 0, map[], map[], map[], Idle, [];
    }

    /** Line 71: draw an id. */
    method DrawId() returns (k: nat)
      modifies this
      ensures View() == Apply(old(View()), Begin)
      ensures k == nextID && At(View(), k, Allocated)
    {
      nextID := nextID + 1;
      k := nextID;
      calls := calls[k := Allocated];
    }

    /** Lines 72-86: encode the request, and register a one-slot channel under the lock. */
    method RegisterCall(k: nat, encoded: bool)
      requires At(View(), k, Allocated)
      modifies this
      ensures View() == Apply(old(View()), if encoded then Register(k) else FailMarshal(k))
    {
      if !encoded {
        calls := calls[k := Failed(MarshalError)];
        return;
      }
      slots := slots[k := []];
      pending := pending[Decimal(k) := k];
      calls := calls[k := Registered];
    }

    /** Line 88: the transport's `Send` comes back. */
    method SendReturned(k: nat, ok: bool)
      requires At(View(), k, Registered)
      modifies this`calls
      ensures View() == Apply(old(View()), ReturnFromSend(k, ok))
    {
      calls := calls[k := if ok then Waiting else Withdrawing(SendError)];
    }

    /** Lines 95-106: one arm of the `select`; with `done` the context arm, otherwise the channel arm. */
    method Select(k: nat, done: bool)
      requires At(View(), k, Waiting)
      requires done || Enabled(View(), Take(k))
      modifies this
      ensures View() == Apply(old(View()), if done then SeeDone(k) else Take(k))
    {
      if done {
        calls := calls[k := Withdrawing(ContextDone)];
      } else {
        var raw := slots[k][0];
        slots := slots[k := slots[k][1..]];
        calls := calls[k := Answered(raw)];
      }
    }

    /** Lines 89-92 and 97-100: delete the id under the lock and return the error. */
    method WithdrawCall(k: nat)
      requires Enabled(View(), Withdraw(k))
      modifies this
      ensures View() == Apply(old(View()), Withdraw(k))
    {
      pending := pending - {Decimal(k)};
      match calls[k] {
        case Withdrawing(cause) => calls := calls[k := Failed(cause)];
      }
    }

    /** Lines 110-117: take the next message; skip it when it does not decode or has no id. */
    method ReceiveNext(frame: Frame)
      requires loop.Idle?
      modifies this
      ensures View() == Apply(old(View()), Receive(frame))
    {
      match frame {
        case Undecodable =>
        case Response(id, result) =>
          if id != "" {
            loop := Holding(Reply(|frames|, id, result));
          }
      }
      frames := frames + [frame];
    }

    /** Lines 118-123: look the id up and delete it in one critical section. */
    method LookupPending()
      requires loop.Holding?
      modifies this
      ensures View() == Apply(old(View()), Lookup)
    {
      var reply := loop.reply;
      if reply.id in pending {
        loop := Pushing(pending[reply.id], reply);
        pending := pending - {reply.id};
      } else {
        loop := Idle;
      }
    }

    /** Line 109: the transport's channel is closed, and the loop over it ends. */
    method EndLoop()
      requires loop.Idle?
      modifies this`loop
      ensures View() == Apply(old(View()), CloseTransport) && loop.Ended?
    {
      loop := Ended;
    }

    /** Line 125: send on the call's channel. */
    method PushResult()
      requires Enabled(View(), Push)
      modifies this
      ensures View() == Apply(old(View()), Push)
    {
      match loop {
        case Pushing(k, reply) =>
          slots := slots[k := slots[k] + [reply]];
          loop := Idle;
      }
    }
  }
}
