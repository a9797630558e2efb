/**
  The Redis rate limiter, `internal/riverbank/middleware/ratelimit.go`.

  Each request increments a minute counter and, once admitted there, an hour counter.  A counter
  that has just been created gets its expiry in a second, separate command.  Requests run
  concurrently, so the model interleaves the single Redis commands and decisions of any number of
  requests with the passing of time, measured in milliseconds.
*/
module RateLimit {
  import opened Common

  type Key = string

  datatype Limits = Limits(enabled: bool, perMinute: int, perHour: int)

  datatype Phase = Minute | Hour

  datatype Expiry = Never | At(time: int)

  datatype Counter = Counter(count: nat, expiry: Expiry)

  type Database = map<Key, Counter>

  /** One `INCR` that succeeded: who sent it, when, and the count it returned. */
  datatype Hit = Hit(request: nat, time: int, count: nat)

  datatype Stage =
    | Incr(phase: Phase) | Expire(phase: Phase) | Check(phase: Phase)   // about to do this
    | Served                       // passed both limits
    | Rejected(phase: Phase)       // answered 429
    | Bypassed                     // limiting disabled, or no tenant or user: served unlimited
    | FailedOpen                   // `INCR` failed: served unlimited

  datatype Request = Request(tenant: string, user: string, stage: Stage, counted: map<Phase, Hit>)

  datatype State = State(
    now: int,
    db: Database,
    requests: map<nat, Request>,
    hits: map<Key, seq<Hit>>       // history: all hits on each key
  )

  /** A Redis command works, is not carried out, or is carried out while its reply is lost. */
  datatype Fault = Works | NotDone | ReplyLost

  datatype Action =
    | Tick(elapsed: nat)
    | Arrive(id: nat, tenant: string, user: string)
    | Step(id: nat, fault: Fault)

  function Window(p: Phase): int {
    match p case Minute => 60_000 case Hour => 3_600_000
  }

  function Limit(limits: Limits, p: Phase): int {
    match p case Minute => limits.perMinute case Hour => limits.perHour
  }

  function KeyOf(tenant: string, user: string, p: Phase): Key {
    "ratelimit:" + tenant + ":" + user + match p case Minute => ":min" case Hour => ":hr"
  }

  // ---------------------------------------------------------------- Redis

  /** A key past its expiry is gone, whether or not Redis has collected it. */
  predicate Present(db: Database, now: int, key: Key) {
    key in db && (db[key].expiry.At? ==> now < db[key].expiry.time)
  }

  /** `INCR`: an absent key starts at one and has no expiry. */
  function Increment(db: Database, now: int, key: Key): Database {
    if Present(db, now, key) then db[key := db[key].(count := db[key].count + 1)]
    else db[key := Counter(1, Never)]
  }

  /** `EXPIRE`: no effect on an absent key. */
  function SetExpiry(db: Database, now: int, key: Key, ttl: int): Database {
    if Present(db, now, key) then db[key := db[key].(expiry := At(now + ttl))] else db
  }

  // ---------------------------------------------------------------- the step relation

  function HitsOn(s: State, key: Key): seq<Hit> {
    if key in s.hits then s.hits[key] else []
  }

  predicate Running(stage: Stage) {
    stage.Incr? || stage.Expire? || stage.Check?
  }

  predicate Enabled(s: State, a: Action) {
    match a
    case Tick(_) => true
    case Arrive(id, _, _) => id !in s.requests
    case Step(id, _) =>
      && id in s.requests
      && Running(s.requests[id].stage)
      && (s.requests[id].stage.Check? ==> s.requests[id].stage.phase in s.requests[id].counted)
  }

  /** One command or decision of request `id`, whose current counter is `key`. */
  function Advance(limits: Limits, s: State, id: nat, fault: Fault, key: Key): State
    requires Enabled(s, Step(id, fault))
  {
    var r := s.requests[id];
    match r.stage
    case Incr(p) =>
      if fault == NotDone then s.(requests := s.requests[id := r.(stage := FailedOpen)])
      else
        var db := Increment(s.db, s.now, key);
        var hit := Hit(id, s.now, db[key].count);
        var next := if hit.count == 1 then Expire(p) else Check(p);
        s.(db := db, hits := s.hits[key := HitsOn(s, key) + [hit]],
           requests := s.requests[id := if fault == ReplyLost then r.(stage := FailedOpen)
                                        else r.(stage := next, counted := r.counted[p := hit])])
    case Expire(p) =>
      s.(db := if fault == NotDone then s.db else SetExpiry(s.db, s.now, key, Window(p)),
         requests := s.requests[id := r.(stage := Check(p))])
    case Check(p) =>
      var next := if r.counted[p].count > Limit(limits, p) then Rejected(p)
                  else if p == Minute then Incr(Hour) else Served;
      s.(requests := s.requests[id := r.(stage := next)])
  }

  function Apply(limits: Limits, s: State, a: Action): State
    requires Enabled(s, a)
  {
    match a
    case Tick(elapsed) => s.(now := s.now + elapsed)
    case Arrive(id, tenant, user) =>
      var stage := if !limits.enabled || tenant == "" || user == "" then Bypassed else Incr(Minute);
      s.(requests := s.requests[id := Request(tenant, user, stage, map[])])
    case Step(id, fault) =>
      var r := s.requests[id];
      Advance(limits, s, id, fault, KeyOf(r.tenant, r.user, r.stage.phase))
  }

  function Start(now: int): State {
    State(now, map[], map[], map[])
  }

  /** The state after a schedule; an action that cannot happen where the schedule puts it is skipped. */
  function Exec(limits: Limits, start: int, schedule: seq<Action>): State {
    if schedule == [] then Start(start)
    else
      var s := Exec(limits, start, schedule[..|schedule| - 1]);
      var a := schedule[|schedule| - 1];
      if Enabled(s, a) then Apply(limits, s, a) else s
  }

  lemma ExecOneMore(limits: Limits, start: int, schedule: seq<Action>, a: Action)
    ensures var s := Exec(limits, start, schedule);
      Exec(limits, start, schedule + [a]) == if Enabled(s, a) then Apply(limits, s, a) else s
  {
    assert (schedule + [a])[..|schedule|] == schedule;
  }

  // ---------------------------------------------------------------- keys

  lemma PhasesHaveTheirOwnKeys(t: string, u: string, p: Phase, t': string, u': string, p': Phase)
    requires KeyOf(t, u, p) == KeyOf(t', u', p')
    ensures p == p'
  {
    var k, k' := KeyOf(t, u, p), KeyOf(t', u', p');
    assert k[|k| - 1] == if p == Minute then 'n' else 'r';
    assert k'[|k'| - 1] == if p' == Minute then 'n' else 'r';
  }

  /** Two tenants and users share a counter exactly if their ids spell the same text with a colon between. */
  lemma SharedKeyIff(t: string, u: string, p: Phase, t': string, u': string, p': Phase)
    ensures KeyOf(t, u, p) == KeyOf(t', u', p') <==> p == p' && t + ":" + u == t' + ":" + u'
  {
    KeyInParts(t, u, p);
    KeyInParts(t', u', p');
    if KeyOf(t, u, p) == KeyOf(t', u', p') {
      PhasesHaveTheirOwnKeys(t, u, p, t', u', p');
    }
  }

  lemma KeyInParts(t: string, u: string, p: Phase)
    ensures var suffix := match p case Minute => ":min" case Hour => ":hr";
      KeyOf(t, u, p) == "ratelimit:" + (t + ":" + u) + suffix
    ensures var k := KeyOf(t, u, p);
      k[|"ratelimit:"|..|k| - (match p case Minute => 4 case Hour => 3)] == t + ":" + u
  {
  }

  /** A colon in the ids lets two tenants share a counter. */
  lemma TenantsCanCollide(a: string, b: string, c: string, p: Phase)
    ensures KeyOf(a + ":" + b, c, p) == KeyOf(a, b + ":" + c, p)
  {
    SharedKeyIff(a + ":" + b, c, p, a, b + ":" + c, p);
    assert a + ":" + b + ":" + c == a + ":" + (b + ":" + c);
  }

  // ---------------------------------------------------------------- counting hits

  /**
    The hits on one key: in order of time, counts that go up by one or start again at one, and
    starts that are at least `window` apart.
  */
  ghost predicate WellCounted(h: seq<Hit>, window: int) {
    && (forall i, j | 0 <= i < j < |h| :: h[i].time <= h[j].time)
    && (forall i | 0 <= i < |h| :: h[i].count >= 1)
    && (h != [] ==> h[0].count == 1)
    && (forall i | 0 < i < |h| :: h[i].count == 1 || h[i].count == h[i - 1].count + 1)
    && (forall i, j | 0 <= i < j < |h| && h[i].count == 1 && h[j].count == 1 :: h[j].time >= h[i].time + window)
  }

  predicate Low(hit: Hit, limit: int, from: int, window: int) {
    hit.count <= limit && from <= hit.time < from + window
  }

  /** The hits within the limit during the window that begins at `from`. */
  function LowHits(h: seq<Hit>, limit: int, from: int, window: int): nat {
    if h == [] then 0
    else LowHits(h[..|h| - 1], limit, from, window) + if Low(h[|h| - 1], limit, from, window) then 1 else 0
  }

  ghost predicate StartsWithin(h: seq<Hit>, from: int, window: int) {
    exists i :: 0 <= i < |h| && h[i].count == 1 && from <= h[i].time < from + window
  }

  function Min(a: int, b: int): int {
    if a < b then a else b
  }

  lemma PrefixIsWellCounted(h: seq<Hit>, window: int)
    requires WellCounted(h, window) && h != []
    ensures WellCounted(h[..|h| - 1], window)
  {
  }

  lemma StartsWithinPrefix(h: seq<Hit>, from: int, window: int)
    requires h != []
    ensures var last := h[|h| - 1];
      StartsWithin(h, from, window) <==>
        (StartsWithin(h[..|h| - 1], from, window) || (last.count == 1 && from <= last.time < from + window))
  {
    var before := h[..|h| - 1];
    if StartsWithin(before, from, window) {
      var i :| 0 <= i < |before| && before[i].count == 1 && from <= before[i].time < from + window;
      assert h[i] == before[i];
    }
    if StartsWithin(h, from, window) {
      var i :| 0 <= i < |h| && h[i].count == 1 && from <= h[i].time < from + window;
      if i < |before| {
        assert h[i] == before[i];
      }
    }
  }

  lemma OneStartPerWindow(h: seq<Hit>, from: int, window: int)
    requires WellCounted(h, window) && h != []
    requires h[|h| - 1].count == 1 && from <= h[|h| - 1].time < from + window
    ensures !StartsWithin(h[..|h| - 1], from, window)
  {
  }

  /** What bounds the low hits up to the last one, while it is before the window's end. */
  function Progress(h: seq<Hit>, limit: int, started: bool): int
    requires h != []
  {
    Min(limit, h[|h| - 1].count) - 1 + if started then limit else 0
  }

  /** One more hit before the window's end: it continues a generation or starts the window's only one. */
  lemma ProgressOneMore(h: seq<Hit>, limit: int, from: int, window: int)
    requires WellCounted(h, window) && window > 0 && limit >= 1 && |h| >= 2
    requires from <= h[|h| - 1].time < from + window
    requires LowHits(h[..|h| - 1], limit, from, window) <= Progress(h[..|h| - 1], limit, StartsWithin(h[..|h| - 1], from, window))
    ensures LowHits(h, limit, from, window) <= Progress(h, limit, StartsWithin(h, from, window))
  {
    var n := |h| - 1;
    StartsWithinPrefix(h, from, window);
    if h[n].count == 1 {
      OneStartPerWindow(h, from, window);
      assert LowHits(h[..n], limit, from, window) <= limit - 1;
    } else {
      assert h[n].count == h[n - 1].count + 1;
      assert StartsWithin(h, from, window) == StartsWithin(h[..n], from, window);
    }
  }

  /** The bounds after one more hit, from those before it. */
  lemma InProgressOneMore(h: seq<Hit>, limit: int, from: int, window: int)
    requires WellCounted(h, window) && window > 0 && limit >= 1 && |h| >= 2
    requires var before := h[..|h| - 1];
      && LowHits(before, limit, from, window) <= 2 * limit - 1
      && (before[|before| - 1].time < from + window ==>
            LowHits(before, limit, from, window) <= Progress(before, limit, StartsWithin(before, from, window)))
    ensures LowHits(h, limit, from, window) <= 2 * limit - 1
    ensures h[|h| - 1].time < from + window ==>
      LowHits(h, limit, from, window) <= Progress(h, limit, StartsWithin(h, from, window))
  {
    var last := h[|h| - 1];
    if last.time < from {
      NothingLowYet(h, limit, from, window);
    } else if last.time < from + window {
      assert h[|h| - 2].time <= last.time;
      ProgressOneMore(h, limit, from, window);
      ProgressIsBounded(h, limit, StartsWithin(h, from, window));
    } else {
      assert !Low(last, limit, from, window);
    }
  }

  lemma ProgressIsBounded(h: seq<Hit>, limit: int, started: bool)
    requires h != [] && limit >= 1
    ensures Progress(h, limit, started) <= 2 * limit - 1
  {
  }

  /** Before the window's own generation starts, only counts above one can fall into it. */
  lemma {:induction false} LowHitsInProgress(h: seq<Hit>, limit: int, from: int, window: int)
    requires WellCounted(h, window) && window > 0 && limit >= 1
    ensures LowHits(h, limit, from, window) <= 2 * limit - 1
    ensures h != [] && h[|h| - 1].time < from + window ==>
      LowHits(h, limit, from, window) <= Progress(h, limit, StartsWithin(h, from, window))
  {
    if h == [] {
    } else if |h| == 1 {
      FirstHit(h, limit, from, window);
    } else {
      PrefixIsWellCounted(h, window);
      LowHitsInProgress(h[..|h| - 1], limit, from, window);
      InProgressOneMore(h, limit, from, window);
    }
  }

  lemma FirstHit(h: seq<Hit>, limit: int, from: int, window: int)
    requires |h| == 1 && h[0].count == 1 && limit >= 1
    ensures LowHits(h, limit, from, window) <= 1
    ensures h[0].time < from + window ==> LowHits(h, limit, from, window) <= Progress(h, limit, StartsWithin(h, from, window))
  {
    assert LowHits(h[..0], limit, from, window) == 0;
    assert Low(h[0], limit, from, window) ==> StartsWithin(h, from, window);
  }

  lemma {:induction false} NothingLowYet(h: seq<Hit>, limit: int, from: int, window: int)
    requires forall i | 0 <= i < |h| :: h[i].time < from
    ensures LowHits(h, limit, from, window) == 0
  {
    if h == [] {
    } else {
      NothingLowYet(h[..|h| - 1], limit, from, window);
    }
  }

  /** The sliding-window bound: two generations can meet in one window, but not both with their first hit. */
  lemma LowHitsBound(h: seq<Hit>, limit: int, from: int, window: int)
    requires WellCounted(h, window) && window > 0
    ensures LowHits(h, limit, from, window) <= if limit >= 1 then 2 * limit - 1 else 0
  {
    if limit >= 1 {
      LowHitsInProgress(h, limit, from, window);
    } else {
      NoLowHits(h, limit, from, window);
    }
  }

  lemma {:induction false} NoLowHits(h: seq<Hit>, limit: int, from: int, window: int)
    requires limit < 1 && forall i | 0 <= i < |h| :: h[i].count >= 1
    ensures LowHits(h, limit, from, window) == 0
  {
    if h == [] {
    } else {
      NoLowHits(h[..|h| - 1], limit, from, window);
    }
  }

  function LowRequests(h: seq<Hit>, limit: int, from: int, window: int): set<nat> {
    set i | 0 <= i < |h| && Low(h[i], limit, from, window) :: h[i].request
  }

  lemma {:induction false} LowRequestsAreFewer(h: seq<Hit>, limit: int, from: int, window: int)
    ensures |LowRequests(h, limit, from, window)| <= LowHits(h, limit, from, window)
  {
    if h == [] {
    } else {
      var n := |h| - 1;
      LowRequestsAreFewer(h[..n], limit, from, window);
      var before := LowRequests(h[..n], limit, from, window);
      if Low(h[n], limit, from, window) {
        assert LowRequests(h, limit, from, window) == before + {h[n].request};
      } else {
        assert LowRequests(h, limit, from, window) == before;
      }
    }
  }

  // ---------------------------------------------------------------- what every step keeps

  /** One key: its history is well counted, and its counter agrees with the history's last hit. */
  ghost predicate Agrees(h: seq<Hit>, now: int, window: int, c: Counter) {
    && h != []
    && c.count == h[|h| - 1].count
    && (c.expiry.At? ==> forall i | 0 <= i < |h| && h[i].count == 1 :: c.expiry.time >= h[i].time + window)
  }

  ghost predicate KeyInv(s: State, key: Key, window: int) {
    var h := HitsOn(s, key);
    && WellCounted(h, window)
    && (forall i | 0 <= i < |h| :: h[i].time <= s.now)
    && if key in s.db then Agrees(h, s.now, window, s.db[key]) else h == []
  }

  predicate Passed(limits: Limits, r: Request, p: Phase) {
    p in r.counted && r.counted[p].count <= Limit(limits, p)
  }

  /** A request has passed every check behind it, and was turned away only by a count over the limit. */
  predicate StageSound(limits: Limits, r: Request) {
    && ((r.stage.Expire? || r.stage.Check?) ==> r.stage.phase in r.counted)
    && (Running(r.stage) && r.stage.phase == Hour ==> Passed(limits, r, Minute))
    && (r.stage.Rejected? ==>
          r.stage.phase in r.counted && r.counted[r.stage.phase].count > Limit(limits, r.stage.phase))
    && (r.stage.Served? ==> Passed(limits, r, Minute) && Passed(limits, r, Hour))
  }

  /** Every hit a request remembers is its own and is in the history. */
  ghost predicate Remembers(s: State, id: nat, r: Request) {
    forall p | p in r.counted ::
      r.counted[p].request == id && r.counted[p] in HitsOn(s, KeyOf(r.tenant, r.user, p))
  }

  ghost predicate RequestInv(limits: Limits, s: State, id: nat) {
    id in s.requests ==> StageSound(limits, s.requests[id]) && Remembers(s, id, s.requests[id])
  }

  ghost predicate Inv(limits: Limits, s: State) {
    && (forall tenant, user, p :: KeyInv(s, KeyOf(tenant, user, p), Window(p)))
    && (forall id :: RequestInv(limits, s, id))
  }

  lemma AppendHit(h: seq<Hit>, hit: Hit, window: int)
    requires WellCounted(h, window)
    requires forall i | 0 <= i < |h| :: h[i].time <= hit.time
    requires
      || (h != [] && hit.count == h[|h| - 1].count + 1)
      || (hit.count == 1 && forall i | 0 <= i < |h| && h[i].count == 1 :: h[i].time + window <= hit.time)
    ensures WellCounted(h + [hit], window)
  {
  }

  lemma IncrementKeepsKey(s: State, key: Key, window: int, id: nat)
    requires KeyInv(s, key, window)
    ensures
      var db := Increment(s.db, s.now, key);
      var h := HitsOn(s, key) + [Hit(id, s.now, db[key].count)];
      WellCounted(h, window) && Agrees(h, s.now, window, db[key])
  {
    AppendHit(HitsOn(s, key), Hit(id, s.now, Increment(s.db, s.now, key)[key].count), window);
  }

  lemma CountKeepsKey(s: State, t: State, key: Key, window: int, id: nat)
    requires KeyInv(s, key, window) && t.now == s.now && t.db == Increment(s.db, s.now, key)
    requires t.hits == s.hits[key := HitsOn(s, key) + [Hit(id, s.now, t.db[key].count)]]
    ensures KeyInv(t, key, window)
  {
    IncrementKeepsKey(s, key, window, id);
  }

  /** An expiry set now lies a window after every start so far. */
  lemma ExpireKeepsKey(s: State, t: State, key: Key, window: int)
    requires KeyInv(s, key, window) && t.now == s.now && t.hits == s.hits
    requires t.db == s.db || t.db == SetExpiry(s.db, s.now, key, window)
    ensures KeyInv(t, key, window)
  {
  }

  lemma OtherKeyStays(limits: Limits, s: State, id: nat, fault: Fault, used: Key, key: Key)
    requires Enabled(s, Step(id, fault)) && used != key
    ensures var t := Advance(limits, s, id, fault, used);
      t.now == s.now && HitsOn(t, key) == HitsOn(s, key) && (key in t.db <==> key in s.db) && (key in s.db ==> t.db[key] == s.db[key])
  {
  }

  lemma AdvanceKeepsKey(limits: Limits, s: State, id: nat, fault: Fault, used: Key, key: Key, window: int)
    requires KeyInv(s, key, window) && Enabled(s, Step(id, fault))
    requires used == key ==> window == Window(s.requests[id].stage.phase)
    ensures KeyInv(Advance(limits, s, id, fault, used), key, window)
  {
    var t := Advance(limits, s, id, fault, used);
    if used != key {
      OtherKeyStays(limits, s, id, fault, used, key);
    } else if s.requests[id].stage.Incr? && fault != NotDone {
      CountKeepsKey(s, t, key, window, id);
    } else {
      ExpireKeepsKey(s, t, key, window);
    }
  }

  lemma StepKeepsKeys(limits: Limits, s: State, a: Action, tenant: string, user: string, p: Phase)
    requires KeyInv(s, KeyOf(tenant, user, p), Window(p)) && Enabled(s, a)
    ensures KeyInv(Apply(limits, s, a), KeyOf(tenant, user, p), Window(p))
  {
    if a.Step? {
      var r := s.requests[a.id];
      var used := KeyOf(r.tenant, r.user, r.stage.phase);
      if used == KeyOf(tenant, user, p) {
        PhasesHaveTheirOwnKeys(tenant, user, p, r.tenant, r.user, r.stage.phase);
      }
      AdvanceKeepsKey(limits, s, a.id, a.fault, used, KeyOf(tenant, user, p), Window(p));
    }
  }

  /** The history of a key only grows. */
  lemma AdvanceExtendsHits(limits: Limits, s: State, id: nat, fault: Fault, used: Key, key: Key)
    requires Enabled(s, Step(id, fault))
    ensures HitsOn(s, key) <= HitsOn(Advance(limits, s, id, fault, used), key)
  {
  }

  lemma AdvanceKeepsStage(limits: Limits, s: State, id: nat, fault: Fault, used: Key)
    requires Enabled(s, Step(id, fault)) && StageSound(limits, s.requests[id])
    ensures StageSound(limits, Advance(limits, s, id, fault, used).requests[id])
  {
  }

  lemma AdvanceRemembers(limits: Limits, s: State, a: Action, id: nat)
    requires id in s.requests && Remembers(s, id, s.requests[id]) && a.Step? && Enabled(s, a)
    ensures Remembers(Apply(limits, s, a), id, Apply(limits, s, a).requests[id])
  {
    var r, q := s.requests[id], s.requests[a.id];
    var used := KeyOf(q.tenant, q.user, q.stage.phase);
    var t := Advance(limits, s, a.id, a.fault, used);
    forall p | p in r.counted ensures r.counted[p] in HitsOn(t, KeyOf(r.tenant, r.user, p)) {
      var key := KeyOf(r.tenant, r.user, p);
      AdvanceExtendsHits(limits, s, a.id, a.fault, used, key);
      var i :| 0 <= i < |HitsOn(s, key)| && HitsOn(s, key)[i] == r.counted[p];
      assert HitsOn(t, key)[i] == r.counted[p];
    }
    if q.stage.Incr? && a.fault == Works {
      assert HitsOn(t, used)[|HitsOn(s, used)|] == t.requests[a.id].counted[q.stage.phase];
    }
  }

  lemma StepKeepsRequests(limits: Limits, s: State, a: Action, id: nat)
    requires RequestInv(limits, s, id) && Enabled(s, a)
    ensures RequestInv(limits, Apply(limits, s, a), id)
  {
    if a.Step? && id in s.requests {
      AdvanceRemembers(limits, s, a, id);
      if id == a.id {
        var r := s.requests[id];
        AdvanceKeepsStage(limits, s, id, a.fault, KeyOf(r.tenant, r.user, r.stage.phase));
      }
    }
  }

  lemma {:induction false} ExecKeepsInv(limits: Limits, start: int, schedule: seq<Action>)
    ensures Inv(limits, Exec(limits, start, schedule))
  {
    if schedule == [] {
    } else {
      ExecKeepsInv(limits, start, schedule[..|schedule| - 1]);
      var s, a := Exec(limits, start, schedule[..|schedule| - 1]), schedule[|schedule| - 1];
      if Enabled(s, a) {
        forall tenant, user, p ensures KeyInv(Apply(limits, s, a), KeyOf(tenant, user, p), Window(p)) {
          StepKeepsKeys(limits, s, a, tenant, user, p);
        }
        forall id ensures RequestInv(limits, Apply(limits, s, a), id) {
          StepKeepsRequests(limits, s, a, id);
        }
      }
    }
  }

  // ---------------------------------------------------------------- the guarantee

  /** In every run the starts of a key's generations are at least a window apart, and counts rise by one in between. */
  lemma HistoryIsWellCounted(limits: Limits, start: int, schedule: seq<Action>, tenant: string, user: string, p: Phase)
    ensures WellCounted(HitsOn(Exec(limits, start, schedule), KeyOf(tenant, user, p)), Window(p))
  {
    ExecKeepsInv(limits, start, schedule);
    assert KeyInv(Exec(limits, start, schedule), KeyOf(tenant, user, p), Window(p));
  }

  /**
    The requests of one tenant and user that passed both limits and whose `p` counter was
    incremented during the `length` milliseconds that begin at `from`.
  */
  ghost function Admitted(s: State, tenant: string, user: string, p: Phase, from: int, length: int): set<nat> {
    set id | id in s.requests && s.requests[id].stage.Served? &&
             s.requests[id].tenant == tenant && s.requests[id].user == user &&
             p in s.requests[id].counted &&
             from <= s.requests[id].counted[p].time < from + length
  }

  lemma AdmittedHitIsLow(limits: Limits, s: State, id: nat, p: Phase, key: Key, from: int)
    requires RequestInv(limits, s, id) && id in s.requests && s.requests[id].stage.Served?
    requires key == KeyOf(s.requests[id].tenant, s.requests[id].user, p)
    requires p in s.requests[id].counted && from <= s.requests[id].counted[p].time < from + Window(p)
    ensures id in LowRequests(HitsOn(s, key), Limit(limits, p), from, Window(p))
  {
    var hit := s.requests[id].counted[p];
    var h := HitsOn(s, key);
    assert hit in h;
    var i :| 0 <= i < |h| && h[i] == hit;
    assert Passed(limits, s.requests[id], Minute) && Passed(limits, s.requests[id], Hour);
    assert Low(h[i], Limit(limits, p), from, Window(p));
  }

  lemma LowRequestsBound(h: seq<Hit>, limit: int, from: int, window: int, admitted: set<nat>)
    requires WellCounted(h, window) && window > 0
    requires admitted <= LowRequests(h, limit, from, window)
    ensures |admitted| <= if limit >= 1 then 2 * limit - 1 else 0
  {
    LowHitsBound(h, limit, from, window);
    LowRequestsAreFewer(h, limit, from, window);
    SubsetIsSmaller(admitted, LowRequests(h, limit, from, window));
  }

  lemma SlidingWindowBound(limits: Limits, start: int, schedule: seq<Action>,
                           tenant: string, user: string, p: Phase, from: int)
    ensures |Admitted(Exec(limits, start, schedule), tenant, user, p, from, Window(p))|
         <= if Limit(limits, p) >= 1 then 2 * Limit(limits, p) - 1 else 0
  {
    var s, key := Exec(limits, start, schedule), KeyOf(tenant, user, p);
    ExecKeepsInv(limits, start, schedule);
    var admitted := Admitted(s, tenant, user, p, from, Window(p));
    forall id | id in admitted ensures id in LowRequests(HitsOn(s, key), Limit(limits, p), from, Window(p)) {
      AdmittedHitIsLow(limits, s, id, p, key, from);
    }
    HistoryIsWellCounted(limits, start, schedule, tenant, user, p);
    LowRequestsBound(HitsOn(s, key), Limit(limits, p), from, Window(p), admitted);
  }

  /**
    In every interleaving, and wherever the window is placed: at most 2N - 1 requests of a tenant
    and user are admitted in any 60 seconds (N requests per minute allowed), and at most 2H - 1 in
    any hour (H per hour allowed).
  */
  lemma AdmissionBounds(limits: Limits, start: int, schedule: seq<Action>, tenant: string, user: string, from: int)
    requires limits.perMinute >= 1 && limits.perHour >= 1
    ensures |Admitted(Exec(limits, start, schedule), tenant, user, Minute, from, 60 * 1000)| <= 2 * limits.perMinute - 1
    ensures |Admitted(Exec(limits, start, schedule), tenant, user, Hour, from, 60 * 60 * 1000)| <= 2 * limits.perHour - 1
  {
    SlidingWindowBound(limits, start, schedule, tenant, user, Minute, from);
    SlidingWindowBound(limits, start, schedule, tenant, user, Hour, from);
  }

  /** No request is ever stuck between its commands. */
  lemma RunningRequestCanStep(limits: Limits, start: int, schedule: seq<Action>, id: nat, fault: Fault)
    requires id in Exec(limits, start, schedule).requests
    requires Running(Exec(limits, start, schedule).requests[id].stage)
    ensures Enabled(Exec(limits, start, schedule), Step(id, fault))
  {
    ExecKeepsInv(limits, start, schedule);
    assert RequestInv(limits, Exec(limits, start, schedule), id);
  }

  /** The hits from `first` to `last` count one, two, three and so on: all of one generation, from its start. */
  predicate OneGeneration(h: seq<Hit>, first: nat, last: nat)
    requires first <= last < |h|
  {
    h[first].count == 1 && forall j | first < j <= last :: h[j].count == h[j - 1].count + 1
  }

  /** A hit with count c is the c-th of its generation. */
  lemma {:induction false} CountIsDistanceFromStart(h: seq<Hit>, window: int, i: nat)
    requires WellCounted(h, window) && i < |h|
    ensures var first := i + 1 - h[i].count;
      0 <= first <= i && OneGeneration(h, first, i) && forall j | first <= j <= i :: h[j].count == j - first + 1
  {
    if i == 0 || h[i].count == 1 {
    } else {
      CountIsDistanceFromStart(h, window, i - 1);
    }
  }

  /** A request is turned away only when the limit's worth of requests came before it in the same generation. */
  lemma RejectedOnlyWhenFull(limits: Limits, start: int, schedule: seq<Action>, id: nat, p: Phase)
    returns (first: nat, mine: nat)
    requires id in Exec(limits, start, schedule).requests
    requires Exec(limits, start, schedule).requests[id].stage == Rejected(p)
    ensures
      var s := Exec(limits, start, schedule);
      var h := HitsOn(s, KeyOf(s.requests[id].tenant, s.requests[id].user, p));
      && first <= mine < |h| && h[mine].request == id
      && OneGeneration(h, first, mine)
      && h[mine].count == mine - first + 1 > Limit(limits, p)
  {
    var s := Exec(limits, start, schedule);
    ExecKeepsInv(limits, start, schedule);
    var r := s.requests[id];
    assert RequestInv(limits, s, id);
    assert KeyInv(s, KeyOf(r.tenant, r.user, p), Window(p));
    first, mine := GenerationOf(HitsOn(s, KeyOf(r.tenant, r.user, p)), Window(p), r.counted[p]);
  }

  /** A hit of the history stands at the end of a run that begins its generation. */
  lemma GenerationOf(h: seq<Hit>, window: int, hit: Hit) returns (first: nat, mine: nat)
    requires WellCounted(h, window) && hit in h
    ensures first <= mine < |h| && h[mine] == hit && OneGeneration(h, first, mine) && hit.count == mine - first + 1
  {
    mine :| mine < |h| && h[mine] == hit;
    CountIsDistanceFromStart(h, window, mine);
    first := mine + 1 - hit.count;
  }

  // ---------------------------------------------------------------- counters that never end

  /** The counter has no expiry, and no request is about to give it one. */
  predicate Stuck(s: State, key: Key) {
    && key in s.db && s.db[key].expiry == Never
    && forall id | id in s.requests && s.requests[id].stage.Expire? ::
         KeyOf(s.requests[id].tenant, s.requests[id].user, s.requests[id].stage.phase) != key
  }

  /** Requests that arrived after `s` were given counts above those of `s`. */
  ghost predicate StuckSince(s: State, t: State, key: Key) {
    && key in s.db && Stuck(t, key) && t.db[key].count >= s.db[key].count >= 1
    && s.requests.Keys <= t.requests.Keys
    && forall id, p | id in t.requests && id !in s.requests && p in t.requests[id].counted
                      && KeyOf(t.requests[id].tenant, t.requests[id].user, p) == key ::
         t.requests[id].counted[p].count > s.db[key].count
  }

  lemma AdvanceKeepsStuck(limits: Limits, s: State, t: State, id: nat, fault: Fault, used: Key, key: Key)
    requires StuckSince(s, t, key) && Enabled(t, Step(id, fault))
    requires used == KeyOf(t.requests[id].tenant, t.requests[id].user, t.requests[id].stage.phase)
    ensures StuckSince(s, Advance(limits, t, id, fault, used), key)
  {
    var r, after := t.requests[id], Advance(limits, t, id, fault, used);
    forall p | p in after.requests[id].counted && id !in s.requests && KeyOf(r.tenant, r.user, p) == key
      ensures after.requests[id].counted[p].count > s.db[key].count
    {
      if r.stage == Incr(p) && fault == Works {
        assert after.requests[id].counted[p].count == t.db[key].count + 1;
      } else if r.stage.Incr? && fault == Works {
        PhasesAreTwo(r.stage.phase, p);
      }
    }
  }

  lemma PhasesAreTwo(p: Phase, q: Phase)
    ensures p != q ==> (p == Minute <==> q == Hour)
  {
  }

  lemma StepKeepsStuck(limits: Limits, s: State, t: State, a: Action, key: Key)
    requires StuckSince(s, t, key) && Enabled(t, a)
    ensures StuckSince(s, Apply(limits, t, a), key)
  {
    if a.Step? {
      var r := t.requests[a.id];
      AdvanceKeepsStuck(limits, s, t, a.id, a.fault, KeyOf(r.tenant, r.user, r.stage.phase), key);
    }
  }

  lemma {:induction false} StuckForGood(limits: Limits, start: int, schedule: seq<Action>, more: seq<Action>, key: Key)
    requires Stuck(Exec(limits, start, schedule), key) && Exec(limits, start, schedule).db[key].count >= 1
    ensures StuckSince(Exec(limits, start, schedule), Exec(limits, start, schedule + more), key)
  {
    if more == [] {
      assert schedule + more == schedule;
    } else {
      var before, a := more[..|more| - 1], more[|more| - 1];
      StuckForGood(limits, start, schedule, before, key);
      assert schedule + more == schedule + before + [a];
      ExecOneMore(limits, start, schedule + before, a);
      if Enabled(Exec(limits, start, schedule + before), a) {
        StepKeepsStuck(limits, Exec(limits, start, schedule), Exec(limits, start, schedule + before), a, key);
      }
    }
  }

  /** A counter with an expiry is gone once that much time has passed. */
  lemma WaitOut(limits: Limits, start: int, schedule: seq<Action>, key: Key) returns (a: Action)
    requires key in Exec(limits, start, schedule).db && Exec(limits, start, schedule).db[key].expiry.At?
    ensures var t := Exec(limits, start, schedule + [a]); !Present(t.db, t.now, key)
  {
    var s := Exec(limits, start, schedule);
    a := Tick(if s.db[key].expiry.time > s.now then s.db[key].expiry.time - s.now else 0);
    ExecOneMore(limits, start, schedule, a);
  }

  /** A counter that is not stuck can be brought to its end. */
  lemma EndCounter(limits: Limits, start: int, schedule: seq<Action>, key: Key) returns (more: seq<Action>)
    requires !Stuck(Exec(limits, start, schedule), key)
    ensures var t := Exec(limits, start, schedule + more); !Present(t.db, t.now, key)
  {
    var s := Exec(limits, start, schedule);
    if !Present(s.db, s.now, key) {
      more := [];
      assert schedule + more == schedule;
    } else if s.db[key].expiry.At? {
      var a := WaitOut(limits, start, schedule, key);
      more := [a];
    } else {
      var id :| id in s.requests && s.requests[id].stage.Expire? &&
        KeyOf(s.requests[id].tenant, s.requests[id].user, s.requests[id].stage.phase) == key;
      ExecOneMore(limits, start, schedule, Step(id, Works));
      var a := WaitOut(limits, start, schedule + [Step(id, Works)], key);
      more := [Step(id, Works), a];
      assert schedule + more == schedule + [Step(id, Works)] + [a];
    }
  }

  lemma CountIsPositive(limits: Limits, start: int, schedule: seq<Action>, tenant: string, user: string, p: Phase)
    ensures var s, key := Exec(limits, start, schedule), KeyOf(tenant, user, p); key in s.db ==> s.db[key].count >= 1
  {
    ExecKeepsInv(limits, start, schedule);
    assert KeyInv(Exec(limits, start, schedule), KeyOf(tenant, user, p), Window(p));
  }

  predicate EndsAfter(limits: Limits, start: int, schedule: seq<Action>, more: seq<Action>, key: Key) {
    var t := Exec(limits, start, schedule + more);
    !Present(t.db, t.now, key)
  }

  /**
    Some continuation brings a counter to its end, so that the next request counts from one again, if
    and only if its `EXPIRE` took effect or is still to come; an `INCR` whose reply is lost sends none.
  */
  lemma CounterCanEndIff(limits: Limits, start: int, schedule: seq<Action>, tenant: string, user: string, p: Phase)
    ensures var key := KeyOf(tenant, user, p);
      (exists more :: EndsAfter(limits, start, schedule, more, key)) <==> !Stuck(Exec(limits, start, schedule), key)
  {
    var key := KeyOf(tenant, user, p);
    CountIsPositive(limits, start, schedule, tenant, user, p);
    if Stuck(Exec(limits, start, schedule), key) {
      forall more ensures !EndsAfter(limits, start, schedule, more, key) {
        StuckForGood(limits, start, schedule, more, key);
      }
    } else {
      var more := EndCounter(limits, start, schedule, key);
      assert EndsAfter(limits, start, schedule, more, key);
    }
  }

  lemma TooHighIsNotServed(limits: Limits, r: Request, p: Phase)
    requires StageSound(limits, r) && (p in r.counted ==> r.counted[p].count > Limit(limits, p))
    ensures !r.stage.Served?
  {
    PhasesAreTwo(Minute, p);
  }

  /** A stuck counter that has reached the limit keeps out every request to come, in every continuation. */
  lemma StuckCounterLocksOut(limits: Limits, start: int, schedule: seq<Action>, more: seq<Action>,
                             tenant: string, user: string, p: Phase, id: nat)
    requires var s, key := Exec(limits, start, schedule), KeyOf(tenant, user, p);
      Stuck(s, key) && s.db[key].count >= Limit(limits, p) && id !in s.requests
    ensures var t := Exec(limits, start, schedule + more);
      id in t.requests && t.requests[id].tenant == tenant && t.requests[id].user == user ==> !t.requests[id].stage.Served?
  {
    var t := Exec(limits, start, schedule + more);
    CountIsPositive(limits, start, schedule, tenant, user, p);
    StuckForGood(limits, start, schedule, more, KeyOf(tenant, user, p));
    ExecKeepsInv(limits, start, schedule + more);
    assert RequestInv(limits, t, id);
    if id in t.requests && t.requests[id].tenant == tenant && t.requests[id].user == user {
      TooHighIsNotServed(limits, t.requests[id], p);
    }
  }

  /**
    For every limit, the limit's worth of requests make the minute counter stuck and full if the first of
    them meets a Redis error: its `EXPIRE` fails, or the reply to its `INCR` is lost.
  */
  lemma {:induction false} OneErrorLocksOut(limits: Limits, start: int, tenant: string, user: string, n: nat, replyLost: bool)
    returns (schedule: seq<Action>)
    requires limits.enabled && tenant != "" && user != "" && n >= 1
    ensures var s, key := Exec(limits, start, schedule), KeyOf(tenant, user, Minute);
      && Stuck(s, key) && s.db[key].count == n
      && forall id | id in s.requests :: id < n
  {
    if n == 1 {
      schedule := [Arrive(0, tenant, user)];
      ExecOneMore(limits, start, [], Arrive(0, tenant, user));
      assert [] + [Arrive(0, tenant, user)] == schedule;
      if replyLost {
        ExecOneMore(limits, start, schedule, Step(0, ReplyLost));
        schedule := schedule + [Step(0, ReplyLost)];
      } else {
        ExecOneMore(limits, start, schedule, Step(0, Works));
        schedule := schedule + [Step(0, Works)];
        ExecOneMore(limits, start, schedule, Step(0, NotDone));
        schedule := schedule + [Step(0, NotDone)];
      }
    } else {
      schedule := OneErrorLocksOut(limits, start, tenant, user, n - 1, replyLost);
      ExecOneMore(limits, start, schedule, Arrive(n - 1, tenant, user));
      schedule := schedule + [Arrive(n - 1, tenant, user)];
      ExecOneMore(limits, start, schedule, Step(n - 1, Works));
      schedule := schedule + [Step(n - 1, Works)];
    }
  }

  // ---------------------------------------------------------------- one request by itself

  /** The count that the next `INCR` of `key` returns. */
  function NextCount(s: State, key: Key): nat {
    if key in s.db && (s.db[key].expiry == Never || s.now < s.db[key].expiry.time) then s.db[key].count + 1 else 1
  }

  function Steps(id: nat, n: nat): seq<Action> {
    seq(n, _ => Step(id, Works))
  }

  lemma StepsSplit(id: nat, n: nat, m: nat)
    ensures Steps(id, n) + Steps(id, m) == Steps(id, n + m)
  {
  }

  lemma FirstOfSteps(schedule: seq<Action>, id: nat, n: nat)
    ensures schedule + Steps(id, n + 1) == schedule + [Step(id, Works)] + Steps(id, n)
  {
  }

  lemma {:induction false} FinishedStepsDoNothing(limits: Limits, start: int, schedule: seq<Action>, id: nat, n: nat)
    requires id in Exec(limits, start, schedule).requests && !Running(Exec(limits, start, schedule).requests[id].stage)
    ensures Exec(limits, start, schedule + Steps(id, n)) == Exec(limits, start, schedule)
    decreases n
  {
    if n == 0 {
      assert schedule + Steps(id, 0) == schedule;
    } else {
      ExecOneMore(limits, start, schedule, Step(id, Works));
      FinishedStepsDoNothing(limits, start, schedule + [Step(id, Works)], id, n - 1);
      FirstOfSteps(schedule, id, n - 1);
    }
  }

  /** Where a request stands after its counter has reached `count`. */
  function Verdict(limits: Limits, p: Phase, count: nat): Stage {
    match p
    case Minute => if count > limits.perMinute then Rejected(Minute) else Incr(Hour)
    case Hour => if count > limits.perHour then Rejected(Hour) else Served
  }

  /** The counter of a phase after a request has gone through it undisturbed. */
  predicate Counted(s: State, t: State, key: Key, p: Phase) {
    && key in t.db && t.db[key].count == NextCount(s, key)
    && (NextCount(s, key) == 1 ==> t.db[key].expiry == At(s.now + match p case Minute => 60_000 case Hour => 3_600_000))
    && (NextCount(s, key) > 1 ==> key in s.db && t.db[key].expiry == s.db[key].expiry)
  }

  /** A request that stands at `stage`, having been counted `count` in phase `p`. */
  predicate StandsAt(s: State, id: nat, tenant: string, user: string, stage: Stage) {
    id in s.requests && s.requests[id].tenant == tenant && s.requests[id].user == user && s.requests[id].stage == stage
  }

  predicate Remembered(s: State, id: nat, p: Phase, count: nat) {
    id in s.requests && p in s.requests[id].counted && s.requests[id].counted[p].count == count
  }

  lemma CountStep(limits: Limits, s: State, id: nat, tenant: string, user: string, p: Phase)
    requires StandsAt(s, id, tenant, user, Incr(p))
    requires var key := KeyOf(tenant, user, p); key in s.db ==> s.db[key].count >= 1
    ensures
      var t, key := Apply(limits, s, Step(id, Works)), KeyOf(tenant, user, p); var count := NextCount(s, key);
      && StandsAt(t, id, tenant, user, if count == 1 then Expire(p) else Check(p)) && Remembered(t, id, p, count)
      && t.now == s.now && key in t.db && t.db[key].count == count && t.db - {key} == s.db - {key}
      && (count == 1 ==> t.db[key].expiry == Never)
      && (count > 1 ==> key in s.db && t.db[key].expiry == s.db[key].expiry)
  {
  }

  lemma ExpireStep(limits: Limits, s: State, id: nat, tenant: string, user: string, p: Phase)
    requires StandsAt(s, id, tenant, user, Expire(p))
    requires var key := KeyOf(tenant, user, p); key in s.db && s.db[key].expiry == Never && Remembered(s, id, p, s.db[key].count)
    ensures
      var t, key := Apply(limits, s, Step(id, Works)), KeyOf(tenant, user, p);
      && StandsAt(t, id, tenant, user, Check(p)) && Remembered(t, id, p, s.db[key].count)
      && t.now == s.now && t.db == s.db[key := Counter(s.db[key].count, At(s.now + Window(p)))]
  {
  }

  lemma CheckStep(limits: Limits, s: State, id: nat, tenant: string, user: string, p: Phase, count: nat)
    requires StandsAt(s, id, tenant, user, Check(p)) && Remembered(s, id, p, count)
    ensures
      var t := Apply(limits, s, Step(id, Works));
      StandsAt(t, id, tenant, user, Verdict(limits, p, count)) && t.now == s.now && t.db == s.db
  {
  }

  /** The state after counting and, for a new counter, giving it its lifetime. */
  lemma CountAlone(limits: Limits, start: int, schedule: seq<Action>, id: nat, tenant: string, user: string, p: Phase) returns (n: nat)
    requires StandsAt(Exec(limits, start, schedule), id, tenant, user, Incr(p))
    ensures n <= 2
    ensures
      var s, t, key := Exec(limits, start, schedule), Exec(limits, start, schedule + Steps(id, n)), KeyOf(tenant, user, p);
      && StandsAt(t, id, tenant, user, Check(p)) && Remembered(t, id, p, NextCount(s, key))
      && t.now == s.now && Counted(s, t, key, p) && t.db - {key} == s.db - {key}
  {
    var s, key := Exec(limits, start, schedule), KeyOf(tenant, user, p);
    CountIsPositive(limits, start, schedule, tenant, user, p);
    CountStep(limits, s, id, tenant, user, p);
    ExecOneMore(limits, start, schedule, Step(id, Works));
    var counted := Exec(limits, start, schedule + [Step(id, Works)]);
    assert schedule + Steps(id, 1) == schedule + [Step(id, Works)];
    if NextCount(s, key) == 1 {
      n := 2;
      ExpireStep(limits, counted, id, tenant, user, p);
      ExecOneMore(limits, start, schedule + [Step(id, Works)], Step(id, Works));
      assert schedule + Steps(id, 2) == schedule + [Step(id, Works)] + [Step(id, Works)];
    } else {
      n := 1;
    }
  }

  /** One phase of a request that nothing comes between: count, give a new counter its lifetime, decide. */
  lemma PhaseAlone(limits: Limits, start: int, schedule: seq<Action>, id: nat, tenant: string, user: string, p: Phase) returns (n: nat)
    requires StandsAt(Exec(limits, start, schedule), id, tenant, user, Incr(p))
    ensures n <= 3
    ensures
      var s, t, key := Exec(limits, start, schedule), Exec(limits, start, schedule + Steps(id, n)), KeyOf(tenant, user, p);
      && StandsAt(t, id, tenant, user, Verdict(limits, p, NextCount(s, key)))
      && t.now == s.now && Counted(s, t, key, p) && t.db - {key} == s.db - {key}
  {
    var s, key := Exec(limits, start, schedule), KeyOf(tenant, user, p);
    var m := CountAlone(limits, start, schedule, id, tenant, user, p);
    var counted := schedule + Steps(id, m);
    CheckStep(limits, Exec(limits, start, counted), id, tenant, user, p, NextCount(s, key));
    ExecOneMore(limits, start, counted, Step(id, Works));
    n := m + 1;
    assert schedule + Steps(id, n) == counted + [Step(id, Works)];
  }

  /** What the limiter promises to a request that nothing comes between. */
  function Decision(limits: Limits, tenant: string, user: string, minute: nat, hour: nat): Stage {
    if !limits.enabled || tenant == "" || user == "" then Bypassed
    else if minute > limits.perMinute then Rejected(Minute)
    else if hour > limits.perHour then Rejected(Hour)
    else Served
  }

  /**
    A request that nothing comes between, whatever happened before: unlimited ones pass and count nowhere;
    the others are turned away exactly if the minute's or the hour's count with them exceeds its limit, and
    the hour is counted only for those that pass the minute.
  */
  lemma RequestAlone(limits: Limits, start: int, schedule: seq<Action>, id: nat, tenant: string, user: string)
    requires id !in Exec(limits, start, schedule).requests
    ensures
      var s, t := Exec(limits, start, schedule), Exec(limits, start, schedule + [Arrive(id, tenant, user)] + Steps(id, 6));
      var minute, hour := KeyOf(tenant, user, Minute), KeyOf(tenant, user, Hour);
      && id in t.requests
      && t.requests[id].stage == Decision(limits, tenant, user, NextCount(s, minute), NextCount(s, hour))
      && (t.requests[id].stage.Bypassed? ==> t.db == s.db)
      && (!t.requests[id].stage.Bypassed? ==> Counted(s, t, minute, Minute))
      && (t.requests[id].stage == Rejected(Minute) ==> t.db - {minute} == s.db - {minute})
      && (t.requests[id].stage in {Rejected(Hour), Served} ==> Counted(s, t, hour, Hour))
  {
    var s := Exec(limits, start, schedule);
    var arrived := schedule + [Arrive(id, tenant, user)];
    ExecOneMore(limits, start, schedule, Arrive(id, tenant, user));
    if !limits.enabled || tenant == "" || user == "" {
      FinishedStepsDoNothing(limits, start, arrived, id, 6);
    } else {
      LimitedAlone(limits, start, schedule, id, tenant, user);
    }
  }

  /** What a limited request leaves, having arrived in `s`. */
  predicate Left(limits: Limits, s: State, t: State, id: nat, tenant: string, user: string) {
    var minute, hour := KeyOf(tenant, user, Minute), KeyOf(tenant, user, Hour);
    && Counted(s, t, minute, Minute)
    && if NextCount(s, minute) > limits.perMinute
       then StandsAt(t, id, tenant, user, Rejected(Minute)) && t.db - {minute} == s.db - {minute}
       else StandsAt(t, id, tenant, user, Verdict(limits, Hour, NextCount(s, hour))) && Counted(s, t, hour, Hour)
  }

  lemma LimitedAlone(limits: Limits, start: int, schedule: seq<Action>, id: nat, tenant: string, user: string)
    requires id !in Exec(limits, start, schedule).requests
    requires limits.enabled && tenant != "" && user != ""
    ensures Left(limits, Exec(limits, start, schedule), Exec(limits, start, schedule + [Arrive(id, tenant, user)] + Steps(id, 6)), id, tenant, user)
  {
    var s, arrived := Exec(limits, start, schedule), schedule + [Arrive(id, tenant, user)];
    var a := Exec(limits, start, arrived);
    ExecOneMore(limits, start, schedule, Arrive(id, tenant, user));
    assert StandsAt(a, id, tenant, user, Incr(Minute)) && a.now == s.now && a.db == s.db;
    MinuteAlone(limits, start, arrived, id, tenant, user);
    LeftFromSame(limits, s, a, Exec(limits, start, arrived + Steps(id, 6)), id, tenant, user);
  }

  lemma LeftFromSame(limits: Limits, s: State, a: State, t: State, id: nat, tenant: string, user: string)
    requires a.now == s.now && a.db == s.db && Left(limits, a, t, id, tenant, user)
    ensures Left(limits, s, t, id, tenant, user)
  {
  }

  lemma MinuteAlone(limits: Limits, start: int, arrived: seq<Action>, id: nat, tenant: string, user: string)
    requires StandsAt(Exec(limits, start, arrived), id, tenant, user, Incr(Minute))
    ensures Left(limits, Exec(limits, start, arrived), Exec(limits, start, arrived + Steps(id, 6)), id, tenant, user)
  {
    var s := Exec(limits, start, arrived);
    var n := PhaseAlone(limits, start, arrived, id, tenant, user, Minute);
    var passed := arrived + Steps(id, n);
    StepsSplit(id, n, 6 - n);
    assert arrived + Steps(id, 6) == passed + Steps(id, 6 - n);
    if NextCount(s, KeyOf(tenant, user, Minute)) > limits.perMinute {
      FinishedStepsDoNothing(limits, start, passed, id, 6 - n);
    } else {
      HourAlone(limits, start, passed, id, tenant, user, 6 - n, s);
    }
  }

  /** The second phase, after a first one that counted the minute in `s`. */
  lemma HourAlone(limits: Limits, start: int, passed: seq<Action>, id: nat, tenant: string, user: string, left: nat, s: State)
    requires left >= 3 && StandsAt(Exec(limits, start, passed), id, tenant, user, Incr(Hour))
    requires var u, minute := Exec(limits, start, passed), KeyOf(tenant, user, Minute);
      Counted(s, u, minute, Minute) && u.now == s.now && u.db - {minute} == s.db - {minute}
    ensures
      var t, minute, hour := Exec(limits, start, passed + Steps(id, left)), KeyOf(tenant, user, Minute), KeyOf(tenant, user, Hour);
      && StandsAt(t, id, tenant, user, Verdict(limits, Hour, NextCount(s, hour)))
      && Counted(s, t, minute, Minute) && Counted(s, t, hour, Hour)
  {
    var u, minute, hour := Exec(limits, start, passed), KeyOf(tenant, user, Minute), KeyOf(tenant, user, Hour);
    if minute == hour {
      PhasesHaveTheirOwnKeys(tenant, user, Minute, tenant, user, Hour);
    }
    var m := PhaseAlone(limits, start, passed, id, tenant, user, Hour);
    StepsSplit(id, m, left - m);
    assert passed + Steps(id, left) == passed + Steps(id, m) + Steps(id, left - m);
    FinishedStepsDoNothing(limits, start, passed + Steps(id, m), id, left - m);
    OtherCounterIsSame(s, u, minute, hour);
    CountedStays(s, u, Exec(limits, start, passed + Steps(id, m)), minute, hour);
  }

  lemma OtherCounterIsSame(s: State, t: State, used: Key, other: Key)
    requires used != other && t.now == s.now && t.db - {used} == s.db - {used}
    ensures NextCount(t, other) == NextCount(s, other)
    ensures other in t.db <==> other in s.db
    ensures other in s.db ==> t.db[other] == s.db[other]
  {
    assert other in t.db <==> other in t.db - {used};
    assert other in s.db <==> other in s.db - {used};
    assert other in s.db ==> (t.db - {used})[other] == (s.db - {used})[other];
  }

  lemma CountedStays(s: State, t: State, u: State, key: Key, used: Key)
    requires key != used && Counted(s, t, key, Minute) && u.now == t.now && u.db - {used} == t.db - {used}
    ensures Counted(s, u, key, Minute)
  {
    OtherCounterIsSame(t, u, used, key);
  }

  /** A Redis error in a count lets the request through at once; if the count was not carried out it leaves no trace. */
  lemma CountErrorFailsOpen(limits: Limits, start: int, schedule: seq<Action>, id: nat, fault: Fault)
    requires id in Exec(limits, start, schedule).requests && Exec(limits, start, schedule).requests[id].stage.Incr?
    requires fault != Works
    ensures var s, t := Exec(limits, start, schedule), Exec(limits, start, schedule + [Step(id, fault)]);
      && id in t.requests && t.requests[id].stage == FailedOpen
      && (fault == NotDone ==> t.db == s.db && t.hits == s.hits)
  {
    ExecOneMore(limits, start, schedule, Step(id, fault));
  }

  lemma StepKeepsFinished(limits: Limits, s: State, a: Action, id: nat)
    requires Enabled(s, a) && id in s.requests && (!Running(s.requests[id].stage) || !(a.Step? && a.id == id))
    ensures id in Apply(limits, s, a).requests && Apply(limits, s, a).requests[id] == s.requests[id]
  {
  }

  /** What was decided about a request stands, and nothing moves a request but its own steps. */
  lemma {:induction false} DecisionStands(limits: Limits, start: int, schedule: seq<Action>, more: seq<Action>, id: nat)
    requires id in Exec(limits, start, schedule).requests
    requires !Running(Exec(limits, start, schedule).requests[id].stage) || forall a | a in more :: !(a.Step? && a.id == id)
    ensures var t := Exec(limits, start, schedule + more);
      id in t.requests && t.requests[id] == Exec(limits, start, schedule).requests[id]
  {
    if more == [] {
      assert schedule + more == schedule;
    } else {
      var before, a := more[..|more| - 1], more[|more| - 1];
      DecisionStands(limits, start, schedule, before, id);
      assert schedule + more == schedule + before + [a];
      ExecOneMore(limits, start, schedule + before, a);
      if Enabled(Exec(limits, start, schedule + before), a) {
        StepKeepsFinished(limits, Exec(limits, start, schedule + before), a, id);
      }
    }
  }

  // ---------------------------------------------------------------- the middleware itself

  /** The shared Redis keys and the requests in flight; `hits` records what `INCR` returned. */
  class Middleware {
    const limits: Limits
    var now: int
    var db: Database
    var requests: map<nat, Request>
    ghost var hits: map<Key, seq<Hit>>

    ghost function View(): State
      reads this
    {
      State(now, db, requests, hits)
    }

    constructor (limits: Limits, now: int)
      ensures this.limits == limits && View() == Start(now)
    {
      this.limits, this.now := limits, now;
      db, requests, hits := map[], map[], map[];
    }

    method Elapse(elapsed: nat)
      modifies this`now
      ensures View() == Apply(limits, old(View()), Tick(elapsed))
    {
      now := now + elapsed;
    }

    /** Lines 18-29: requests that are not limited go straight through. */
    method Accept(id: nat, tenant: string, user: string)
      requires id !in requests
      modifies this`requests
      ensures View() == Apply(limits, old(View()), Arrive(id, tenant, user))
    {
      if !limits.enabled || tenant == "" || user == "" {
        requests := requests[id := Request(tenant, user, Bypassed, map[])];
      } else {
        requests := requests[id := Request(tenant, user, Incr(Minute), map[])];
      }
    }

    /** Lines 35-40 and 57-61: `INCR`, failing open. */
    method Count(id: nat, fault: Fault)
      requires Enabled(View(), Step(id, fault)) && requests[id].stage.Incr?
      modifies this
      ensures View() == Apply(limits, old(View()), Step(id, fault))
    {
      var r := requests[id];
      if fault == NotDone {
        requests := requests[id := r.(stage := FailedOpen)];
        return;
      }
      var key := KeyOf(r.tenant, r.user, r.stage.phase);
      db := Increment(db, now, key);
      var hit := Hit(id, now, db[key].count);
      hits := hits[key := (if key in hits then hits[key] else []) + [hit]];
      if fault == ReplyLost {
        requests := requests[id := r.(stage := FailedOpen)];
        return;
      }
      r := r.(counted := r.counted[r.stage.phase := hit]);
      if hit.count == 1 {
        requests := requests[id := r.(stage := Expire(r.stage.phase))];
      } else {
        requests := requests[id := r.(stage := Check(r.stage.phase))];
      }
    }

    /** Lines 42-44 and 63-65: `EXPIRE`; its error is ignored. */
    method LimitLifetime(id: nat, fault: Fault)
      requires Enabled(View(), Step(id, fault)) && requests[id].stage.Expire?
      modifies this
      ensures View() == Apply(limits, old(View()), Step(id, fault))
    {
      var r := requests[id];
      if fault != NotDone {
        db := SetExpiry(db, now, KeyOf(r.tenant, r.user, r.stage.phase), Window(r.stage.phase));
      }
      requests := requests[id := r.(stage := Check(r.stage.phase))];
    }

    /** Lines 46-53, 67-74 and 84: reject, go on to the hour counter, or serve. */
    method Decide(id: nat)
      requires Enabled(View(), Step(id, Works)) && requests[id].stage.Check?
      modifies this
      ensures View() == Apply(limits, old(View()), Step(id, Works))
    {
      var r := requests[id];
      var p := r.stage.phase;
      if r.counted[p].count > Limit(limits, p) {
        requests := requests[id := r.(stage := Rejected(p))];
      } else if p == Minute {
        requests := requests[id := r.(stage := Incr(Hour))];
      } else {
        requests := requests[id := r.(stage := Served)];
      }
    }
  }
}
