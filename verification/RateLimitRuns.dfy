/**
  Building blocks for runs of the rate limiter: requests that pass the minute counter, the hour counter
  or both, any number of them at one instant.
*/
module RateLimitRuns {
  import opened RateLimit

  /** The database after one request has passed a counter. */
  function Charged(db: Database, now: int, key: Key, ttl: int): Database {
    var raised := Increment(db, now, key);
    if raised[key].count == 1 then SetExpiry(raised, now, key, ttl) else raised
  }

  function NextStage(p: Phase): Stage {
    if p == Minute then Incr(Hour) else Served
  }

  /** Request `id` passes its counter for phase `p`. */
  function Passing(s: State, id: nat, p: Phase, key: Key): State
    requires id in s.requests
  {
    var hit := Hit(id, s.now, Increment(s.db, s.now, key)[key].count);
    var r := s.requests[id];
    s.(db := Charged(s.db, s.now, key, Window(p)), hits := s.hits[key := HitsOn(s, key) + [hit]],
       requests := s.requests[id := r.(stage := NextStage(p), counted := r.counted[p := hit])])
  }

  lemma CommandsPass(limits: Limits, s: State, id: nat, p: Phase, key: Key)
    requires id in s.requests && s.requests[id].stage == Incr(p)
    requires Increment(s.db, s.now, key)[key].count <= Limit(limits, p)
    ensures
      var first := Increment(s.db, s.now, key)[key].count == 1;
      var s1 := Advance(limits, s, id, Works, key);
      && s1.requests[id] == s.requests[id].(stage := if first then Expire(p) else Check(p), counted := s1.requests[id].counted)
      && Enabled(s1, Step(id, Works))
      && var s2 := if first then Advance(limits, s1, id, Works, key) else s1;
         && s2.requests[id].stage == Check(p)
         && s2.requests[id] == s1.requests[id].(stage := Check(p))
         && Enabled(s2, Step(id, Works))
         && Advance(limits, s2, id, Works, key) == Passing(s, id, p, key)
  {
  }

  /** Two or three more actions carry a request through one phase. */
  lemma RunPhase(limits: Limits, start: int, schedule: seq<Action>, id: nat, p: Phase, key: Key) returns (longer: seq<Action>)
    requires var s := Exec(limits, start, schedule);
      && id in s.requests && s.requests[id].stage == Incr(p)
      && key == KeyOf(s.requests[id].tenant, s.requests[id].user, p)
      && Increment(s.db, s.now, key)[key].count <= Limit(limits, p)
    ensures Exec(limits, start, longer) == Passing(Exec(limits, start, schedule), id, p, key)
  {
    var s := Exec(limits, start, schedule);
    var a := Step(id, Works);
    CommandsPass(limits, s, id, p, key);
    ExecOneMore(limits, start, schedule, a);
    longer := schedule + [a];
    if Increment(s.db, s.now, key)[key].count == 1 {
      ExecOneMore(limits, start, longer, a);
      longer := longer + [a];
    }
    ExecOneMore(limits, start, longer, a);
    longer := longer + [a];
  }

  // ---------------------------------------------------------------- whole requests

  /** `count` requests of the running generation have been counted; none means that no generation runs. */
  predicate Stands(s: State, key: Key, window: int, count: nat, until: int) {
    if count == 0 then Idle(s, key) && until == s.now + window else Counts(s, key, count, until)
  }

  /** A running generation of a counter. */
  predicate Counts(s: State, key: Key, count: nat, until: int) {
    key in s.db && s.db[key] == Counter(count, At(until)) && s.now < until && count >= 1
  }

  /** No running generation. */
  predicate Idle(s: State, key: Key) {
    !Present(s.db, s.now, key)
  }

  /** The request was admitted, with its two increments at these times. */
  predicate AdmittedAs(s: State, id: nat, tenant: string, user: string, minuteTime: int, hourTime: int) {
    && id in s.requests && s.requests[id].stage.Served?
    && s.requests[id].tenant == tenant && s.requests[id].user == user
    && Minute in s.requests[id].counted && s.requests[id].counted[Minute].time == minuteTime
    && Hour in s.requests[id].counted && s.requests[id].counted[Hour].time == hourTime
  }

  /** The request has passed the minute counter and has not reached the hour counter. */
  predicate Halfway(s: State, id: nat, tenant: string, user: string, time: int) {
    && id in s.requests && s.requests[id].stage == Incr(Hour)
    && s.requests[id].tenant == tenant && s.requests[id].user == user
    && Minute in s.requests[id].counted && s.requests[id].counted[Minute].time == time
  }

  /** A step between two states that keeps all requests there are, and the clock. */
  predicate Keeps(s: State, t: State) {
    t.now == s.now && forall id | id in s.requests :: id in t.requests && t.requests[id] == s.requests[id]
  }

  /** No requests are new but those numbered from `first` to `first + n - 1`. */
  predicate Adds(s: State, t: State, first: nat, n: nat) {
    forall id | id in t.requests :: id in s.requests || first <= id < first + n
  }

  /** What the counter of `key` reads once one more request has passed it. */
  predicate Raised(s: State, t: State, key: Key, window: int) {
    && (key in s.db && s.db[key].expiry.At? && Counts(s, key, s.db[key].count, s.db[key].expiry.time) ==>
          Counts(t, key, s.db[key].count + 1, s.db[key].expiry.time))
    && (Idle(s, key) ==> Counts(t, key, 1, s.now + window))
  }

  predicate SameCounter(s: State, t: State, key: Key) {
    (key in t.db <==> key in s.db) && (key in s.db ==> t.db[key] == s.db[key])
  }

  lemma PassingRaises(s: State, id: nat, p: Phase, key: Key, other: Key)
    requires id in s.requests && other != key
    ensures var t := Passing(s, id, p, key);
      && Raised(s, t, key, Window(p))
      && SameCounter(s, t, other)
      && t.now == s.now && t.requests.Keys == s.requests.Keys
      && (forall j | j in s.requests && j != id :: t.requests[j] == s.requests[j])
  {
  }

  lemma KeysDiffer(tenant: string, user: string)
    ensures KeyOf(tenant, user, Minute) != KeyOf(tenant, user, Hour)
  {
    if KeyOf(tenant, user, Minute) == KeyOf(tenant, user, Hour) {
      PhasesHaveTheirOwnKeys(tenant, user, Minute, tenant, user, Hour);
    }
  }

  /** A new request passes the minute counter. */
  lemma PassMinute(limits: Limits, start: int, schedule: seq<Action>, id: nat, tenant: string, user: string)
    returns (longer: seq<Action>)
    requires limits.enabled && tenant != "" && user != ""
    requires var s := Exec(limits, start, schedule);
      && id !in s.requests
      && Increment(s.db, s.now, KeyOf(tenant, user, Minute))[KeyOf(tenant, user, Minute)].count <= limits.perMinute
    ensures var s, t := Exec(limits, start, schedule), Exec(limits, start, longer);
      && Keeps(s, t) && t.requests.Keys == s.requests.Keys + {id}
      && Halfway(t, id, tenant, user, s.now)
      && Raised(s, t, KeyOf(tenant, user, Minute), Window(Minute))
      && SameCounter(s, t, KeyOf(tenant, user, Hour))
  {
    var s := Exec(limits, start, schedule);
    KeysDiffer(tenant, user);
    ExecOneMore(limits, start, schedule, Arrive(id, tenant, user));
    var arrived := schedule + [Arrive(id, tenant, user)];
    longer := RunPhase(limits, start, arrived, id, Minute, KeyOf(tenant, user, Minute));
    PassingRaises(Exec(limits, start, arrived), id, Minute, KeyOf(tenant, user, Minute), KeyOf(tenant, user, Hour));
  }

  /** A request that is halfway passes the hour counter. */
  lemma PassHour(limits: Limits, start: int, schedule: seq<Action>, id: nat, tenant: string, user: string, time: int)
    returns (longer: seq<Action>)
    requires var s := Exec(limits, start, schedule);
      && Halfway(s, id, tenant, user, time)
      && Increment(s.db, s.now, KeyOf(tenant, user, Hour))[KeyOf(tenant, user, Hour)].count <= limits.perHour
    ensures var s, t := Exec(limits, start, schedule), Exec(limits, start, longer);
      && t.now == s.now && t.requests.Keys == s.requests.Keys
      && (forall j | j in s.requests && j != id :: t.requests[j] == s.requests[j])
      && AdmittedAs(t, id, tenant, user, time, s.now)
      && Raised(s, t, KeyOf(tenant, user, Hour), Window(Hour))
      && SameCounter(s, t, KeyOf(tenant, user, Minute))
  {
    KeysDiffer(tenant, user);
    longer := RunPhase(limits, start, schedule, id, Hour, KeyOf(tenant, user, Hour));
    PassingRaises(Exec(limits, start, schedule), id, Hour, KeyOf(tenant, user, Hour), KeyOf(tenant, user, Minute));
  }

  lemma StandsRaised(s: State, t: State, key: Key, window: int, count: nat, until: int)
    requires Stands(s, key, window, count, until) && Raised(s, t, key, window)
    ensures Counts(t, key, count + 1, until)
  {
  }

  lemma StandsRoom(s: State, key: Key, window: int, count: nat, until: int)
    requires Stands(s, key, window, count, until)
    ensures Increment(s.db, s.now, key)[key].count == count + 1
  {
  }

  lemma StandsSame(s: State, t: State, key: Key, window: int, count: nat, until: int)
    requires Stands(s, key, window, count, until) && t.now == s.now && SameCounter(s, t, key)
    ensures Stands(t, key, window, count, until)
  {
  }

  /** The numbers from `first` to `first + n - 1`. */
  function Range(first: nat, n: nat): (range: set<nat>)
    ensures |range| == n && forall i :: i in range <==> first <= i < first + n
  {
    if n == 0 then {} else Range(first, n - 1) + {first + n - 1}
  }

  /** `n` new requests pass the minute counter at one instant. */
  lemma {:induction false} MinuteMany(limits: Limits, start: int, schedule: seq<Action>, first: nat, n: nat,
                                      tenant: string, user: string, minute: nat, until: int)
    returns (longer: seq<Action>)
    requires limits.enabled && tenant != "" && user != ""
    requires var s := Exec(limits, start, schedule);
      && (forall id | id in s.requests :: id < first)
      && Stands(s, KeyOf(tenant, user, Minute), Window(Minute), minute, until) && minute + n <= limits.perMinute
    ensures var s, t := Exec(limits, start, schedule), Exec(limits, start, longer);
      && Keeps(s, t) && Adds(s, t, first, n)
      && (forall id | first <= id < first + n :: Halfway(t, id, tenant, user, s.now))
      && Stands(t, KeyOf(tenant, user, Minute), Window(Minute), minute + n, until)
      && SameCounter(s, t, KeyOf(tenant, user, Hour))
  {
    if n == 0 {
      longer := schedule;
    } else {
      var before := MinuteMany(limits, start, schedule, first, n - 1, tenant, user, minute, until);
      ghost var s, u := Exec(limits, start, schedule), Exec(limits, start, before);
      StandsRoom(u, KeyOf(tenant, user, Minute), Window(Minute), minute + n - 1, until);
      longer := PassMinute(limits, start, before, first + n - 1, tenant, user);
      ghost var t := Exec(limits, start, longer);
      StandsRaised(u, t, KeyOf(tenant, user, Minute), Window(Minute), minute + n - 1, until);
      forall id | first <= id < first + n ensures Halfway(t, id, tenant, user, s.now) {
        assert id < first + n - 1 ==> Halfway(u, id, tenant, user, s.now);
      }
    }
  }

  /** The times at which requests passed the minute counter; the hour counter is still ahead of them. */
  predicate AllHalfway(s: State, first: nat, n: nat, tenant: string, user: string, times: nat -> int) {
    forall id | first <= id < first + n :: Halfway(s, id, tenant, user, times(id))
  }

  /** `n` requests that are halfway pass the hour counter at one instant. */
  lemma {:induction false} HourMany(limits: Limits, start: int, schedule: seq<Action>, first: nat, n: nat,
                                    tenant: string, user: string, times: nat -> int, hour: nat, until: int)
    returns (longer: seq<Action>)
    requires var s := Exec(limits, start, schedule);
      && AllHalfway(s, first, n, tenant, user, times)
      && Stands(s, KeyOf(tenant, user, Hour), Window(Hour), hour, until) && hour + n <= limits.perHour
    ensures var s, t := Exec(limits, start, schedule), Exec(limits, start, longer);
      && t.now == s.now && t.requests.Keys == s.requests.Keys
      && (forall id | id in s.requests && !(first <= id < first + n) :: t.requests[id] == s.requests[id])
      && (forall id | first <= id < first + n :: AdmittedAs(t, id, tenant, user, times(id), s.now))
      && Stands(t, KeyOf(tenant, user, Hour), Window(Hour), hour + n, until)
      && SameCounter(s, t, KeyOf(tenant, user, Minute))
  {
    if n == 0 {
      longer := schedule;
    } else {
      var last := first + n - 1;
      var before := HourMany(limits, start, schedule, first, n - 1, tenant, user, times, hour, until);
      ghost var s, u := Exec(limits, start, schedule), Exec(limits, start, before);
      assert Halfway(s, last, tenant, user, times(last));
      StandsRoom(u, KeyOf(tenant, user, Hour), Window(Hour), hour + n - 1, until);
      longer := PassHour(limits, start, before, last, tenant, user, times(last));
      ghost var t := Exec(limits, start, longer);
      StandsRaised(u, t, KeyOf(tenant, user, Hour), Window(Hour), hour + n - 1, until);
      forall id | first <= id < first + n ensures AdmittedAs(t, id, tenant, user, times(id), s.now) {
        assert id < last ==> AdmittedAs(u, id, tenant, user, times(id), s.now);
      }
    }
  }

  /** `n` requests pass both counters at one instant. */
  lemma RunMany(limits: Limits, start: int, schedule: seq<Action>, first: nat, n: nat,
                tenant: string, user: string, minute: nat, untilMinute: int, hour: nat, untilHour: int)
    returns (longer: seq<Action>)
    requires limits.enabled && tenant != "" && user != ""
    requires var s := Exec(limits, start, schedule);
      && (forall id | id in s.requests :: id < first)
      && Stands(s, KeyOf(tenant, user, Minute), Window(Minute), minute, untilMinute) && minute + n <= limits.perMinute
      && Stands(s, KeyOf(tenant, user, Hour), Window(Hour), hour, untilHour) && hour + n <= limits.perHour
    ensures var s, t := Exec(limits, start, schedule), Exec(limits, start, longer);
      && Keeps(s, t) && Adds(s, t, first, n)
      && (forall id | first <= id < first + n :: AdmittedAs(t, id, tenant, user, s.now, s.now))
      && Stands(t, KeyOf(tenant, user, Minute), Window(Minute), minute + n, untilMinute)
      && Stands(t, KeyOf(tenant, user, Hour), Window(Hour), hour + n, untilHour)
  {
    var s := Exec(limits, start, schedule);
    var halfway := MinuteMany(limits, start, schedule, first, n, tenant, user, minute, untilMinute);
    var u := Exec(limits, start, halfway);
    StandsSame(s, u, KeyOf(tenant, user, Hour), Window(Hour), hour, untilHour);
    var times := (id: nat) => s.now;
    longer := HourMany(limits, start, halfway, first, n, tenant, user, times, hour, untilHour);
    var t := Exec(limits, start, longer);
    forall id | first <= id < first + n ensures AdmittedAs(t, id, tenant, user, s.now, s.now) {
      assert AdmittedAs(t, id, tenant, user, times(id), s.now);
    }
    StandsSame(u, t, KeyOf(tenant, user, Minute), Window(Minute), minute + n, untilMinute);
  }
}
