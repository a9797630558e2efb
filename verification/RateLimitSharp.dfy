/**
  The admission bounds of the rate limiter cannot be improved, whatever the two limits are: some run
  admits 2N - 1 requests within one minute, counted at their minute increments, and some run admits
  2H - 1 within one hour, counted at their hour increments.  A generation is opened by one request; just
  before it ends the rest of its requests follow, and just after it those of the next one.

  The other limit does not stand in the way, since a request may wait between its two increments.  Where
  the minute limit leaves room, requests that never wait reach the hour's bound as well.
*/
module RateLimitSharp {
  import opened Common
  import opened RateLimit
  import opened RateLimitRuns

  // ---------------------------------------------------------------- waiting, and counting who was admitted

  /** The counter has had `count` requests and ends at `until`, be that past or future. */
  predicate Holds(s: State, key: Key, count: nat, until: int) {
    key in s.db && s.db[key] == Counter(count, At(until))
  }

  lemma Wait(limits: Limits, start: int, schedule: seq<Action>, elapsed: nat) returns (longer: seq<Action>)
    ensures Exec(limits, start, longer) == Exec(limits, start, schedule).(now := Exec(limits, start, schedule).now + elapsed)
  {
    ExecOneMore(limits, start, schedule, Tick(elapsed));
    longer := schedule + [Tick(elapsed)];
  }

  /** The request was admitted, with its increment for `p` within the window. */
  predicate AdmittedWithin(s: State, id: nat, tenant: string, user: string, p: Phase, from: int, length: int) {
    && id in s.requests && s.requests[id].stage.Served?
    && s.requests[id].tenant == tenant && s.requests[id].user == user
    && p in s.requests[id].counted && from <= s.requests[id].counted[p].time < from + length
  }

  /** All of a range of requests are admitted within the window. */
  lemma CountAdmitted(s: State, tenant: string, user: string, p: Phase, from: int, length: int, first: nat, n: nat)
    requires forall id | first <= id < first + n :: AdmittedWithin(s, id, tenant, user, p, from, length)
    ensures |Admitted(s, tenant, user, p, from, length)| >= n
  {
    var admitted := Admitted(s, tenant, user, p, from, length);
    forall id | id in Range(first, n) ensures id in admitted {
      assert AdmittedWithin(s, id, tenant, user, p, from, length);
    }
    SubsetIsSmaller(Range(first, n), admitted);
  }

  // ---------------------------------------------------------------- the minute's bound, for all limits

  /** No generation of the counter lasts longer than a window from now. */
  predicate EndsWithin(s: State, key: Key, window: int) {
    key in s.db ==> s.db[key].expiry.At? && s.db[key].expiry.time <= s.now + window
  }

  /** Requests that are halfway go on one by one, an hour apart, and are all admitted. */
  lemma {:induction false} FinishApart(limits: Limits, start: int, schedule: seq<Action>, n: nat,
                                       tenant: string, user: string, times: nat -> int)
    returns (longer: seq<Action>)
    requires limits.perHour >= 1
    requires var s := Exec(limits, start, schedule);
      AllHalfway(s, 0, n, tenant, user, times) && EndsWithin(s, KeyOf(tenant, user, Hour), Window(Hour))
    ensures var s, t := Exec(limits, start, schedule), Exec(limits, start, longer);
      && t.requests.Keys == s.requests.Keys
      && (forall id | id in s.requests && id >= n :: t.requests[id] == s.requests[id])
      && (forall id: nat | id < n :: AdmittedWithin(t, id, tenant, user, Minute, times(id), 1))
      && EndsWithin(t, KeyOf(tenant, user, Hour), Window(Hour))
  {
    if n == 0 {
      longer := schedule;
    } else {
      var before := FinishApart(limits, start, schedule, n - 1, tenant, user, times);
      var waited := Wait(limits, start, before, Window(Hour));
      ghost var s, v := Exec(limits, start, schedule), Exec(limits, start, waited);
      assert Halfway(s, n - 1, tenant, user, times(n - 1));
      assert Idle(v, KeyOf(tenant, user, Hour));
      longer := PassHour(limits, start, waited, n - 1, tenant, user, times(n - 1));
    }
  }

  lemma WidenWindow(s: State, id: nat, tenant: string, user: string, p: Phase, time: int, from: int, length: int)
    requires AdmittedWithin(s, id, tenant, user, p, time, 1) && from <= time < from + length
    ensures AdmittedWithin(s, id, tenant, user, p, from, length)
  {
  }

  /** One request, then `early` more at the end of its minute and `late` right after it, all halfway. */
  lemma MinuteAroundEnd(limits: Limits, tenant: string, user: string, early: nat, late: nat, times: nat -> int)
    returns (schedule: seq<Action>)
    requires limits.enabled && tenant != "" && user != ""
    requires 1 + early <= limits.perMinute && late <= limits.perMinute
    requires forall id: nat :: times(id) == if id == 0 then 0 else if id < 1 + early then 59_999 else 60_000
    ensures var s := Exec(limits, 0, schedule);
      AllHalfway(s, 0, 1 + early + late, tenant, user, times) && KeyOf(tenant, user, Hour) !in s.db
  {
    schedule := MinuteMany(limits, 0, [], 0, 1, tenant, user, 0, 60_000);
    var s0 := Exec(limits, 0, schedule);
    schedule := Wait(limits, 0, schedule, 59_999);
    schedule := MinuteMany(limits, 0, schedule, 1, early, tenant, user, 1, 60_000);
    var s1 := Exec(limits, 0, schedule);
    schedule := Wait(limits, 0, schedule, 1);
    schedule := MinuteMany(limits, 0, schedule, 1 + early, late, tenant, user, 0, 120_000);
    var s := Exec(limits, 0, schedule);
    forall id | 0 <= id < 1 + early + late ensures Halfway(s, id, tenant, user, times(id)) {
      assert id == 0 ==> Halfway(s0, id, tenant, user, 0);
      assert 1 <= id < 1 + early ==> Halfway(s1, id, tenant, user, 59_999);
    }
  }

  /** For all limits, some run admits exactly 2N - 1 requests of one tenant and user within 60 seconds. */
  lemma MinuteBoundIsAttained(limits: Limits, tenant: string, user: string) returns (schedule: seq<Action>, from: int)
    requires limits.enabled && tenant != "" && user != ""
    requires limits.perMinute >= 1 && limits.perHour >= 1
    ensures |Admitted(Exec(limits, 0, schedule), tenant, user, Minute, from, 60 * 1000)| == 2 * limits.perMinute - 1
  {
    var early, late: nat := limits.perMinute - 1, limits.perMinute;
    var times := (id: nat) => if id == 0 then 0 else if id < 1 + early then 59_999 else 60_000;
    from := 59_999;
    schedule := MinuteAroundEnd(limits, tenant, user, early, late, times);
    schedule := FinishApart(limits, 0, schedule, 1 + early + late, tenant, user, times);
    var s := Exec(limits, 0, schedule);
    forall id | 1 <= id < 1 + (early + late) ensures AdmittedWithin(s, id, tenant, user, Minute, from, 60_000) {
      WidenWindow(s, id, tenant, user, Minute, times(id), from, 60_000);
    }
    CountAdmitted(s, tenant, user, Minute, from, 60_000, 1, early + late);
    AdmissionBounds(limits, 0, schedule, tenant, user, from);
  }

  // ---------------------------------------------------------------- the hour's bound, for all limits

  function MinutesApart(id: nat): int {
    60_000 * id
  }

  /** `n` requests pass the minute counter one by one, a minute apart, and wait there. */
  lemma {:induction false} PrepareApart(limits: Limits, n: nat, tenant: string, user: string)
    returns (schedule: seq<Action>)
    requires limits.enabled && tenant != "" && user != "" && limits.perMinute >= 1
    ensures var s := Exec(limits, 0, schedule);
      && s.now == 60_000 * n && (forall id | id in s.requests :: id < n)
      && AllHalfway(s, 0, n, tenant, user, MinutesApart)
      && KeyOf(tenant, user, Hour) !in s.db && Idle(s, KeyOf(tenant, user, Minute))
  {
    if n == 0 {
      schedule := [];
    } else {
      schedule := PrepareApart(limits, n - 1, tenant, user);
      ghost var u := Exec(limits, 0, schedule);
      schedule := MinuteMany(limits, 0, schedule, n - 1, 1, tenant, user, 0, u.now + 60_000);
      ghost var v := Exec(limits, 0, schedule);
      schedule := Wait(limits, 0, schedule, 60_000);
      ghost var s := Exec(limits, 0, schedule);
      forall id | 0 <= id < n ensures Halfway(s, id, tenant, user, MinutesApart(id)) {
        assert id < n - 1 ==> Halfway(u, id, tenant, user, MinutesApart(id));
        assert id == n - 1 ==> Halfway(v, id, tenant, user, u.now);
      }
    }
  }

  lemma StillHalfway(s: State, t: State, first: nat, n: nat, rest: nat, m: nat, tenant: string, user: string, times: nat -> int)
    requires AllHalfway(s, rest, m, tenant, user, times) && first + n <= rest
    requires t.requests.Keys == s.requests.Keys
    requires forall id | id in s.requests && !(first <= id < first + n) :: t.requests[id] == s.requests[id]
    ensures AllHalfway(t, rest, m, tenant, user, times)
  {
    forall id | rest <= id < rest + m ensures Halfway(t, id, tenant, user, times(id)) {
      assert Halfway(s, id, tenant, user, times(id));
    }
  }

  lemma AllHalfwaySplits(s: State, first: nat, n: nat, m: nat, tenant: string, user: string, times: nat -> int)
    requires AllHalfway(s, first, n + m, tenant, user, times)
    ensures AllHalfway(s, first, n, tenant, user, times) && AllHalfway(s, first + n, m, tenant, user, times)
  {
  }

  /** `n` requests that are halfway pass the hour counter, then time goes by; `m` others stay halfway. */
  lemma HourStep(limits: Limits, schedule: seq<Action>, first: nat, n: nat, m: nat, tenant: string, user: string,
                 times: nat -> int, hour: nat, until: int, elapsed: nat)
    returns (longer: seq<Action>)
    requires var s := Exec(limits, 0, schedule);
      && AllHalfway(s, first, n + m, tenant, user, times)
      && Stands(s, KeyOf(tenant, user, Hour), Window(Hour), hour, until) && hour + n <= limits.perHour && hour + n > 0
    ensures var s, t := Exec(limits, 0, schedule), Exec(limits, 0, longer);
      && t.now == s.now + elapsed
      && (forall id | id in s.requests && !(first <= id < first + n) :: id in t.requests && t.requests[id] == s.requests[id])
      && (forall id | first <= id < first + n :: AdmittedAs(t, id, tenant, user, times(id), s.now))
      && AllHalfway(t, first + n, m, tenant, user, times)
      && Holds(t, KeyOf(tenant, user, Hour), hour + n, until)
  {
    var s := Exec(limits, 0, schedule);
    AllHalfwaySplits(s, first, n, m, tenant, user, times);
    var passed := HourMany(limits, 0, schedule, first, n, tenant, user, times, hour, until);
    var u := Exec(limits, 0, passed);
    StillHalfway(s, u, first, n, first + n, m, tenant, user, times);
    longer := Wait(limits, 0, passed, elapsed);
    forall id | first <= id < first + n ensures AdmittedAs(Exec(limits, 0, longer), id, tenant, user, times(id), s.now) {
      assert AdmittedAs(u, id, tenant, user, times(id), s.now);
    }
  }

  /** Of the requests that are halfway one opens the hour, `early` follow at its end and `late` right after it. */
  lemma HourAroundEnd(limits: Limits, schedule: seq<Action>, tenant: string, user: string, early: nat, late: nat, times: nat -> int)
    returns (longer: seq<Action>)
    requires 1 + early <= limits.perHour && late <= limits.perHour && late > 0
    requires var s := Exec(limits, 0, schedule);
      AllHalfway(s, 0, 1 + early + late, tenant, user, times) && KeyOf(tenant, user, Hour) !in s.db
    ensures var s, t := Exec(limits, 0, schedule), Exec(limits, 0, longer);
      |Admitted(t, tenant, user, Hour, s.now + 3_599_999, 3_600_000)| >= early + late
  {
    var now := Exec(limits, 0, schedule).now;
    longer := HourStep(limits, schedule, 0, 1, early + late, tenant, user, times, 0, now + 3_600_000, 3_599_999);
    longer := HourStep(limits, longer, 1, early, late, tenant, user, times, 1, now + 3_600_000, 1);
    var u := Exec(limits, 0, longer);
    longer := HourStep(limits, longer, 1 + early, late, 0, tenant, user, times, 0, now + 7_200_000, 0);
    var t, from, total := Exec(limits, 0, longer), now + 3_599_999, early + late;
    forall id | 1 <= id < 1 + total ensures AdmittedWithin(t, id, tenant, user, Hour, from, 3_600_000) {
      if id < 1 + early {
        assert AdmittedAs(u, id, tenant, user, times(id), from);
      } else {
        assert AdmittedAs(t, id, tenant, user, times(id), from + 1);
      }
    }
    CountAdmitted(t, tenant, user, Hour, from, 3_600_000, 1, total);
  }

  /** For all limits, some run admits exactly 2H - 1 requests of one tenant and user within an hour. */
  lemma HourBoundIsAttained(limits: Limits, tenant: string, user: string) returns (schedule: seq<Action>, from: int)
    requires limits.enabled && tenant != "" && user != ""
    requires limits.perMinute >= 1 && limits.perHour >= 1
    ensures |Admitted(Exec(limits, 0, schedule), tenant, user, Hour, from, 60 * 60 * 1000)| == 2 * limits.perHour - 1
  {
    var early, late: nat := limits.perHour - 1, limits.perHour;
    schedule := PrepareApart(limits, 1 + early + late, tenant, user);
    from := Exec(limits, 0, schedule).now + 3_599_999;
    schedule := HourAroundEnd(limits, schedule, tenant, user, early, late, MinutesApart);
    AdmissionBounds(limits, 0, schedule, tenant, user, from);
  }

  // ---------------------------------------------------------------- when the limits hold for every window

  lemma CountedIsPositive(limits: Limits, start: int, schedule: seq<Action>, id: nat, p: Phase)
    ensures var s := Exec(limits, start, schedule);
      id in s.requests && p in s.requests[id].counted ==> s.requests[id].counted[p].count >= 1
  {
    var s := Exec(limits, start, schedule);
    ExecKeepsInv(limits, start, schedule);
    assert RequestInv(limits, s, id);
    if id in s.requests && p in s.requests[id].counted {
      var r := s.requests[id];
      assert KeyInv(s, KeyOf(r.tenant, r.user, p), Window(p));
      assert r.counted[p] in HitsOn(s, KeyOf(r.tenant, r.user, p));
    }
  }

  /** Where one of the limits is below one nobody is admitted. */
  lemma NobodyAdmitted(limits: Limits, start: int, schedule: seq<Action>, tenant: string, user: string, p: Phase, from: int, length: int)
    requires limits.perMinute < 1 || limits.perHour < 1
    ensures Admitted(Exec(limits, start, schedule), tenant, user, p, from, length) == {}
  {
    var s := Exec(limits, start, schedule);
    ExecKeepsInv(limits, start, schedule);
    forall id | id in s.requests ensures !s.requests[id].stage.Served? {
      assert RequestInv(limits, s, id);
      CountedIsPositive(limits, start, schedule, id, Minute);
      CountedIsPositive(limits, start, schedule, id, Hour);
    }
  }

  /** In every run, every window of the phase's length admits at most as many requests as the phase's limit. */
  ghost predicate LimitHolds(limits: Limits, tenant: string, user: string, p: Phase) {
    forall start, schedule, from :: |Admitted(Exec(limits, start, schedule), tenant, user, p, from, Window(p))| <= Limit(limits, p)
  }

  lemma BoundGivesLimit(limits: Limits, tenant: string, user: string, p: Phase)
    requires Limit(limits, p) >= 0 && (Limit(limits, p) <= 1 || limits.perMinute < 1 || limits.perHour < 1)
    ensures LimitHolds(limits, tenant, user, p)
  {
    forall start, schedule, from
      ensures |Admitted(Exec(limits, start, schedule), tenant, user, p, from, Window(p))| <= Limit(limits, p)
    {
      if limits.perMinute < 1 || limits.perHour < 1 {
        NobodyAdmitted(limits, start, schedule, tenant, user, p, from, Window(p));
      } else {
        SlidingWindowBound(limits, start, schedule, tenant, user, p, from);
      }
    }
  }

  /**
    For all settings: the minute limit holds for every 60 seconds of every run if and only if it is zero or
    one, or nobody is admitted at all; the same is true of the hour limit.
  */
  lemma LimitHoldsIff(limits: Limits, tenant: string, user: string)
    requires limits.enabled && tenant != "" && user != ""
    ensures LimitHolds(limits, tenant, user, Minute) <==> limits.perMinute >= 0 && (limits.perMinute <= 1 || limits.perHour < 1)
    ensures LimitHolds(limits, tenant, user, Hour) <==> limits.perHour >= 0 && (limits.perHour <= 1 || limits.perMinute < 1)
  {
    forall p: Phase ensures LimitHolds(limits, tenant, user, p) <==>
      Limit(limits, p) >= 0 && (Limit(limits, p) <= 1 || limits.perMinute < 1 || limits.perHour < 1)
    {
      if Limit(limits, p) < 0 {
        assert |Admitted(Exec(limits, 0, []), tenant, user, p, 0, Window(p))| >= 0;
      } else if Limit(limits, p) <= 1 || limits.perMinute < 1 || limits.perHour < 1 {
        BoundGivesLimit(limits, tenant, user, p);
      } else {
        var schedule, from := BoundIsAttained(limits, tenant, user, p);
        assert |Admitted(Exec(limits, 0, schedule), tenant, user, p, from, Window(p))| > Limit(limits, p);
      }
    }
  }

  lemma BoundIsAttained(limits: Limits, tenant: string, user: string, p: Phase) returns (schedule: seq<Action>, from: int)
    requires limits.enabled && tenant != "" && user != ""
    requires limits.perMinute >= 1 && limits.perHour >= 1
    ensures |Admitted(Exec(limits, 0, schedule), tenant, user, p, from, Window(p))| == 2 * Limit(limits, p) - 1
  {
    match p {
      case Minute => schedule, from := MinuteBoundIsAttained(limits, tenant, user);
      case Hour => schedule, from := HourBoundIsAttained(limits, tenant, user);
    }
  }

  // ---------------------------------------------------------------- the hour's bound without waiting

  /** Every admitted request passed both counters at one instant. */
  predicate Prompt(s: State) {
    forall id | id in s.requests && s.requests[id].stage.Served? ::
      && Minute in s.requests[id].counted && Hour in s.requests[id].counted
      && s.requests[id].counted[Minute].time == s.requests[id].counted[Hour].time
  }

  lemma StaysPrompt(s: State, t: State, first: nat, n: nat, tenant: string, user: string)
    requires Prompt(s) && Keeps(s, t) && Adds(s, t, first, n)
    requires forall id | first <= id < first + n :: AdmittedAs(t, id, tenant, user, s.now, s.now)
    ensures Prompt(t)
  {
    forall id | id in t.requests && id !in s.requests ensures AdmittedAs(t, id, tenant, user, s.now, s.now) {
    }
  }

  /** The counter has had `count` requests and ends at `until`; none means that no generation runs. */
  predicate Reads(s: State, key: Key, window: int, count: nat, until: int) {
    if count == 0 then Idle(s, key) && until == s.now + window else Holds(s, key, count, until)
  }

  lemma ReadsIsStands(s: State, key: Key, window: int, count: nat, until: int)
    requires Reads(s, key, window, count, until) && s.now < until
    ensures Stands(s, key, window, count, until)
  {
  }

  /** `m` requests at one instant, then a minute's pause. */
  lemma RunBatch(limits: Limits, schedule: seq<Action>, first: nat, m: nat, tenant: string, user: string, hour: nat, until: int)
    returns (longer: seq<Action>)
    requires limits.enabled && tenant != "" && user != ""
    requires var s := Exec(limits, 0, schedule);
      && (forall id | id in s.requests :: id < first) && Prompt(s)
      && Idle(s, KeyOf(tenant, user, Minute)) && m <= limits.perMinute
      && Reads(s, KeyOf(tenant, user, Hour), Window(Hour), hour, until) && hour + m <= limits.perHour
      && s.now < until && hour + m > 0
    ensures var s, t := Exec(limits, 0, schedule), Exec(limits, 0, longer);
      && t.now == s.now + 60_000 && Keeps(s, t.(now := s.now)) && Prompt(t)
      && (forall id | id in t.requests :: id < first + m)
      && (forall id | first <= id < first + m :: AdmittedAs(t, id, tenant, user, s.now, s.now))
      && Idle(t, KeyOf(tenant, user, Minute))
      && Holds(t, KeyOf(tenant, user, Hour), hour + m, until)
  {
    var s := Exec(limits, 0, schedule);
    ReadsIsStands(s, KeyOf(tenant, user, Hour), Window(Hour), hour, until);
    longer := RunMany(limits, 0, schedule, first, m, tenant, user, 0, s.now + 60_000, hour, until);
    var u := Exec(limits, 0, longer);
    StaysPrompt(s, u, first, m, tenant, user);
    longer := Wait(limits, 0, longer, 60_000);
    forall id | first <= id < first + m ensures AdmittedAs(Exec(limits, 0, longer), id, tenant, user, s.now, s.now) {
      assert AdmittedAs(u, id, tenant, user, s.now, s.now);
    }
  }

  predicate AdmittedFrom(s: State, first: nat, n: nat, tenant: string, user: string, from: int, length: int) {
    forall id | first <= id < first + n :: AdmittedWithin(s, id, tenant, user, Hour, from, length)
  }

  lemma BatchesLeft(n: nat, k: nat, m: nat, perMinute: int)
    requires k > 0 && perMinute >= 1 && n <= k * perMinute && m == if n < perMinute then n else perMinute
    ensures n - m <= (k - 1) * perMinute
  {
  }

  /** `n` requests in `k` batches, a minute apart, none of which waits between its increments. */
  lemma {:induction false} RunBatches(limits: Limits, schedule: seq<Action>, first: nat, n: nat, k: nat,
                                      tenant: string, user: string, hour: nat, until: int)
    returns (longer: seq<Action>)
    requires limits.enabled && tenant != "" && user != "" && limits.perMinute >= 1
    requires n <= k * limits.perMinute && hour + n > 0
    requires var s := Exec(limits, 0, schedule);
      && (forall id | id in s.requests :: id < first) && Prompt(s)
      && Idle(s, KeyOf(tenant, user, Minute))
      && Reads(s, KeyOf(tenant, user, Hour), Window(Hour), hour, until) && hour + n <= limits.perHour
      && s.now + 60_000 * k <= until
    ensures var s, t := Exec(limits, 0, schedule), Exec(limits, 0, longer);
      && t.now == s.now + 60_000 * k && Keeps(s, t.(now := s.now)) && Prompt(t)
      && (forall id | id in t.requests :: id < first + n)
      && AdmittedFrom(t, first, n, tenant, user, s.now, 60_000 * k)
      && Idle(t, KeyOf(tenant, user, Minute))
      && Holds(t, KeyOf(tenant, user, Hour), hour + n, until)
    decreases k
  {
    if k == 0 {
      longer := schedule;
    } else {
      var m: nat := if n < limits.perMinute then n else limits.perMinute;
      BatchesLeft(n, k, m, limits.perMinute);
      var s := Exec(limits, 0, schedule);
      var batch := RunBatch(limits, schedule, first, m, tenant, user, hour, until);
      var u := Exec(limits, 0, batch);
      longer := RunBatches(limits, batch, first + m, n - m, k - 1, tenant, user, hour + m, until);
      var t, length := Exec(limits, 0, longer), 60_000 * k;
      forall id | first <= id < first + n ensures AdmittedWithin(t, id, tenant, user, Hour, s.now, length) {
        if id < first + m {
          assert AdmittedAs(u, id, tenant, user, s.now, s.now);
        } else {
          assert AdmittedWithin(t, id, tenant, user, Hour, u.now, 60_000 * (k - 1));
        }
      }
    }
  }

  /**
    Where 30 minutes of the minute limit reach the hour limit, the hour's bound is attained by a run in
    which every request passes both counters at one instant.
  */
  lemma HourBoundIsAttainedPromptly(limits: Limits, tenant: string, user: string) returns (schedule: seq<Action>, from: int)
    requires limits.enabled && tenant != "" && user != ""
    requires 1 <= limits.perHour <= 30 * limits.perMinute
    ensures Prompt(Exec(limits, 0, schedule))
    ensures |Admitted(Exec(limits, 0, schedule), tenant, user, Hour, from, 60 * 60 * 1000)| == 2 * limits.perHour - 1
  {
    var h: nat := limits.perHour;
    from := 1_800_000;
    schedule := RunBatch(limits, [], 0, 1, tenant, user, 0, 3_600_000);
    schedule := Wait(limits, 0, schedule, 1_740_000);
    schedule := RunBatches(limits, schedule, 1, h - 1, 30, tenant, user, 1, 3_600_000);
    var u := Exec(limits, 0, schedule);
    schedule := RunBatches(limits, schedule, h, h, 30, tenant, user, 0, 7_200_000);
    var s, total := Exec(limits, 0, schedule), 2 * h - 1;
    forall id | 1 <= id < 1 + total ensures AdmittedWithin(s, id, tenant, user, Hour, from, 3_600_000) {
      if id < h {
        assert AdmittedWithin(u, id, tenant, user, Hour, from, 1_800_000);
      } else {
        assert AdmittedWithin(s, id, tenant, user, Hour, 3_600_000, 1_800_000);
      }
    }
    CountAdmitted(s, tenant, user, Hour, from, 3_600_000, 1, total);
    AdmissionBounds(limits, 0, schedule, tenant, user, from);
  }
}
