/**
 * The per-tenant token bucket (internal/ratelimit/limiter.go). Times are seconds and levels are
 * exact reals; the rounding of Lua numbers is not modelled. The configuration makes rate and burst
 * positive integers.
 */
module TokenBucket {
  import opened TaskStates

  /** The hash kept under the tenant's key, and when the key expires. */
  datatype Entry = Entry(tokens: real, updated: real, deadline: real)

  datatype Answer = Answer(allowed: bool, remaining: int, retryMs: int)

  datatype Limits = Limits(rate: real, burst: real)

  predicate Usable(l: Limits) {
    l.rate > 0.0 && l.burst >= 1.0
  }

  function Ceil(x: real): (n: int)
    ensures x <= n as real < x + 1.0
  {
    -((-x).Floor)
  }

  function Least(a: real, b: real): (m: real) {
    if a <= b then a else b
  }

  function Greatest(a: real, b: real): (m: real) {
    if a >= b then a else b
  }

  function Refill(from: real, to: real, rate: real): (v: real) {
    (to - from) * rate
  }

  /** The level after refill; a missing key counts as a full bucket. */
  function Level(key: Option<Entry>, now: real, l: Limits): (v: real) {
    match key
    case None => l.burst
    case Some(e) => Least(l.burst, e.tokens + Greatest(0.0, now - e.updated) * l.rate)
  }

  function Later(now: real, ms: nat): (t: real) {
    now + ms as real / 1000.0
  }

  function TtlMs(l: Limits): (ms: int)
    requires Usable(l)
  {
    Ceil(l.burst / l.rate * 2000.0)
  }

  /** retry_ms at a level below one token. */
  function WaitMs(level: real, l: Limits): (ms: int)
    requires Usable(l)
  {
    Ceil((1.0 - level) / l.rate * 1000.0)
  }

  function Deadline(now: real, l: Limits): (t: real)
    requires Usable(l)
  {
    now + TtlMs(l) as real / 1000.0
  }

  function Ask(key: Option<Entry>, now: real, l: Limits): (r: (Entry, Answer))
    requires Usable(l)
  {
    var level := Level(key, now, l);
    var tokens := if level >= 1.0 then level - 1.0 else level;
    var retry := if level >= 1.0 then 0 else WaitMs(level, l);
    (Entry(tokens, now, Deadline(now, l)), Answer(level >= 1.0, tokens.Floor, retry))
  }

  /** What the script leaves behind: a level between empty and full, kept as long as it matters. */
  ghost predicate Sound(key: Option<Entry>, now: real, l: Limits)
    requires Usable(l)
  {
    key.Some? ==>
      && 0.0 <= key.value.tokens <= l.burst
      && key.value.updated <= now
      && key.value.deadline == Deadline(key.value.updated, l)
  }

  // ---------------------------------------------------------------------
  // What a limiter of this rate and burst admits
  // ---------------------------------------------------------------------

  ghost predicate Monotone(ts: seq<real>) {
    forall i, j :: 0 <= i < j < |ts| ==> ts[i] <= ts[j]
  }

  ghost function Trues(bs: seq<bool>): (n: nat) {
    if bs == [] then 0 else Trues(bs[..|bs| - 1]) + if bs[|bs| - 1] then 1 else 0
  }

  /** What the window from call i to `now` still has room for, after the calls admitted in it. */
  ghost function Room(ts: seq<real>, admitted: seq<bool>, i: nat, now: real, l: Limits): (v: real)
    requires i < |ts| == |admitted|
  {
    l.burst + Refill(ts[i], now, l.rate) - Trues(admitted[i..]) as real
  }

  /** A window of length T may hold burst + rate * T admitted calls: there is room for n more in every window. */
  ghost predicate RoomFor(n: int, ts: seq<real>, admitted: seq<bool>, now: real, l: Limits)
    requires |ts| == |admitted|
  {
    n as real <= l.burst && forall i :: 0 <= i < |ts| ==> n as real <= Room(ts, admitted, i, now, l)
  }

  /** The call was admitted if and only if there was room for it in every window that ends with it. */
  ghost predicate RuleAt(ts: seq<real>, admitted: seq<bool>, k: nat, l: Limits)
    requires k < |ts| == |admitted|
  {
    admitted[k] <==> RoomFor(1, ts[..k], admitted[..k], ts[k], l)
  }

  ghost predicate WindowRule(ts: seq<real>, admitted: seq<bool>, l: Limits) {
    |ts| == |admitted| && forall k :: 0 <= k < |ts| ==> RuleAt(ts, admitted, k, l)
  }

  /** The level is the least room of all windows; a full bucket has the room of an empty window. */
  ghost predicate LeastRoom(level: real, ts: seq<real>, admitted: seq<bool>, now: real, l: Limits)
    requires |ts| == |admitted|
  {
    && level <= l.burst
    && (forall i :: 0 <= i < |ts| ==> level <= Room(ts, admitted, i, now, l))
    && (level == l.burst || exists i :: 0 <= i < |ts| && level == Room(ts, admitted, i, now, l))
  }

  lemma LeastRoomDecides(n: int, level: real, ts: seq<real>, admitted: seq<bool>, now: real, l: Limits)
    requires |ts| == |admitted| && LeastRoom(level, ts, admitted, now, l)
    ensures n as real <= level <==> RoomFor(n, ts, admitted, now, l)
  {}

  /** The key after these calls holds the least room of the windows that end with the last of them. */
  ghost predicate Exact(key: Option<Entry>, ts: seq<real>, admitted: seq<bool>, l: Limits) {
    && |ts| == |admitted| && (key.None? <==> ts == [])
    && (ts != [] ==> key.value.updated == ts[|ts| - 1] && LeastRoom(key.value.tokens, ts, admitted, ts[|ts| - 1], l))
  }

  lemma Distribute(a: real, b: real, c: real, rate: real)
    ensures Refill(a, b, rate) + Refill(b, c, rate) == Refill(a, c, rate)
  {}

  lemma RoomGrows(ts: seq<real>, admitted: seq<bool>, i: nat, last: real, now: real, l: Limits)
    requires i < |ts| == |admitted|
    ensures Room(ts, admitted, i, now, l) == Room(ts, admitted, i, last, l) + Refill(last, now, l.rate)
  {
    Distribute(ts[i], last, now, l.rate);
  }

  /** Refill keeps the level the least room. */
  lemma LevelIsLeastRoom(key: Option<Entry>, ts: seq<real>, admitted: seq<bool>, now: real, l: Limits)
    requires Usable(l) && Exact(key, ts, admitted, l) && Monotone(ts + [now])
    ensures LeastRoom(Level(key, now, l), ts, admitted, now, l)
  {
    if ts != [] {
      var last, level := ts[|ts| - 1], Level(key, now, l);
      var gain := Refill(last, now, l.rate);
      assert (ts + [now])[|ts| - 1] <= (ts + [now])[|ts|];
      Product(now - last, l.rate);
      assert level == Least(l.burst, key.value.tokens + gain);
      forall i | 0 <= i < |ts|
        ensures Room(ts, admitted, i, now, l) == Room(ts, admitted, i, last, l) + gain
      {
        RoomGrows(ts, admitted, i, last, now, l);
      }
      if level != l.burst && key.value.tokens != l.burst {
        var i :| 0 <= i < |ts| && key.value.tokens == Room(ts, admitted, i, last, l);
        assert level == Room(ts, admitted, i, now, l);
      }
    }
  }

  lemma RoomAfter(ts: seq<real>, admitted: seq<bool>, ok: bool, i: nat, now: real, l: Limits)
    requires i <= |ts| == |admitted|
    ensures Room(ts + [now], admitted + [ok], i, now, l)
            == (if i < |ts| then Room(ts, admitted, i, now, l) else l.burst) - if ok then 1.0 else 0.0
  {
    var oks := (admitted + [ok])[i..];
    assert oks == admitted[i..] + [ok];
    assert oks[..|oks| - 1] == admitted[i..];
    Nothing(now - now, l.rate);
    assert i == |ts| ==> admitted[i..] == [];
  }

  /** And so does spending a token. */
  lemma SpendingKeepsExact(level: real, ts: seq<real>, admitted: seq<bool>, now: real, tokens: real, l: Limits)
    requires |ts| == |admitted| && LeastRoom(level, ts, admitted, now, l)
    requires tokens == level - if level >= 1.0 then 1.0 else 0.0
    ensures LeastRoom(tokens, ts + [now], admitted + [level >= 1.0], now, l)
  {
    var all, oks := ts + [now], admitted + [level >= 1.0];
    forall i | 0 <= i < |all| ensures tokens <= Room(all, oks, i, now, l) {
      RoomAfter(ts, admitted, level >= 1.0, i, now, l);
    }
    if level == l.burst {
      RoomAfter(ts, admitted, level >= 1.0, |ts|, now, l);
      assert tokens == Room(all, oks, |ts|, now, l);
    } else {
      var i :| 0 <= i < |ts| && level == Room(ts, admitted, i, now, l);
      RoomAfter(ts, admitted, level >= 1.0, i, now, l);
      assert tokens == Room(all, oks, i, now, l);
    }
  }

  lemma RuleGrows(ts: seq<real>, admitted: seq<bool>, now: real, ok: bool, l: Limits)
    requires WindowRule(ts, admitted, l) && (ok <==> RoomFor(1, ts, admitted, now, l))
    ensures WindowRule(ts + [now], admitted + [ok], l)
  {
    var all, oks := ts + [now], admitted + [ok];
    forall k | 0 <= k < |all| ensures RuleAt(all, oks, k, l) {
      if k < |ts| {
        assert RuleAt(ts, admitted, k, l);
        assert all[..k] == ts[..k] && oks[..k] == admitted[..k];
      } else {
        assert all[..k] == ts && oks[..k] == admitted;
      }
    }
  }

  /** One call: the answer is the one the windows call for, and the key stays exact. */
  lemma AskFollowsWindows(key: Option<Entry>, ts: seq<real>, admitted: seq<bool>, now: real, l: Limits)
    requires Usable(l) && Exact(key, ts, admitted, l) && Monotone(ts + [now])
    ensures var (e, a) := Ask(key, now, l);
            && (a.allowed <==> RoomFor(1, ts, admitted, now, l))
            && Exact(Some(e), ts + [now], admitted + [a.allowed], l)
  {
    var level := Level(key, now, l);
    LevelIsLeastRoom(key, ts, admitted, now, l);
    LeastRoomDecides(1, level, ts, admitted, now, l);
    SpendingKeepsExact(level, ts, admitted, now, Ask(key, now, l).0.tokens, l);
  }

  /** The calls left are those that fit at once; the wait is the shortest after which there is room for one. */
  ghost predicate ExactAnswer(a: Answer, ts: seq<real>, admitted: seq<bool>, now: real, l: Limits)
    requires |ts| == |admitted|
  {
    && (a.allowed <==> RoomFor(1, ts, admitted, now, l))
    && (forall n: int :: n <= a.remaining <==> RoomFor(n, ts + [now], admitted + [a.allowed], now, l))
    && (forall ms: nat :: ms >= a.retryMs <==> RoomFor(1, ts, admitted, Later(now, ms), l))
  }

  lemma RemainingIsExact(key: Option<Entry>, ts: seq<real>, admitted: seq<bool>, now: real, l: Limits, n: int)
    requires Usable(l) && Exact(key, ts, admitted, l) && Monotone(ts + [now])
    ensures n <= Ask(key, now, l).1.remaining
            <==> RoomFor(n, ts + [now], admitted + [Ask(key, now, l).1.allowed], now, l)
  {
    var (e, a) := Ask(key, now, l);
    AskFollowsWindows(key, ts, admitted, now, l);
    LeastRoomDecides(n, e.tokens, ts + [now], admitted + [a.allowed], now, l);
  }

  lemma LaterStillMonotone(ts: seq<real>, now: real, later: real)
    requires Monotone(ts + [now]) && now <= later
    ensures Monotone(ts + [later])
  {
    var all, on := ts + [now], ts + [later];
    forall i, j | 0 <= i < j < |on| ensures on[i] <= on[j] {
      assert all[i] <= all[j];
    }
  }

  /** The level some time after the script has rejected a call. */
  lemma LevelLater(key: Option<Entry>, now: real, ms: nat, l: Limits)
    requires Usable(l) && (key.Some? ==> key.value.updated <= now)
    ensures var level, wait := Level(key, now, l), ms as real / 1000.0;
            Level(key, Later(now, ms), l) == Least(l.burst, level + wait * l.rate)
  {
    var wait := ms as real / 1000.0;
    Product(wait, l.rate);
    if key.Some? {
      Product(now - key.value.updated, l.rate);
      Distribute(key.value.updated, now, now + wait, l.rate);
      assert Refill(now, now + wait, l.rate) == wait * l.rate;
    }
  }

  lemma WaitReachesToken(level: real, ms: nat, l: Limits)
    requires Usable(l)
    ensures ms >= (if level >= 1.0 then 0 else WaitMs(level, l))
            <==> Least(l.burst, level + ms as real / 1000.0 * l.rate) >= 1.0
  {
    Product(ms as real / 1000.0, l.rate);
    if level < 1.0 {
      EnoughRefill(level, ms, l.rate);
    }
  }

  lemma WaitIsExact(key: Option<Entry>, ts: seq<real>, admitted: seq<bool>, now: real, l: Limits, ms: nat)
    requires Usable(l) && Exact(key, ts, admitted, l) && Monotone(ts + [now])
    ensures ms >= Ask(key, now, l).1.retryMs <==> RoomFor(1, ts, admitted, Later(now, ms), l)
  {
    var later := Later(now, ms);
    LaterStillMonotone(ts, now, later);
    LevelIsLeastRoom(key, ts, admitted, later, l);
    LeastRoomDecides(1, Level(key, later, l), ts, admitted, later, l);
    assert ts != [] ==> (ts + [now])[|ts| - 1] <= (ts + [now])[|ts|];
    LevelLater(key, now, ms, l);
    WaitReachesToken(Level(key, now, l), ms, l);
  }

  lemma AnswerIsExact(key: Option<Entry>, ts: seq<real>, admitted: seq<bool>, now: real, l: Limits)
    requires Usable(l) && Exact(key, ts, admitted, l) && Monotone(ts + [now])
    ensures ExactAnswer(Ask(key, now, l).1, ts, admitted, now, l)
  {
    var a := Ask(key, now, l).1;
    AskFollowsWindows(key, ts, admitted, now, l);
    forall n: int ensures n <= a.remaining <==> RoomFor(n, ts + [now], admitted + [a.allowed], now, l) {
      RemainingIsExact(key, ts, admitted, now, l, n);
    }
    forall ms: nat ensures ms >= a.retryMs <==> RoomFor(1, ts, admitted, Later(now, ms), l) {
      WaitIsExact(key, ts, admitted, now, l, ms);
    }
  }

  // ---------------------------------------------------------------------
  // The script
  // ---------------------------------------------------------------------

  class Bucket {
    const limits: Limits
    var key: Option<Entry>
    ghost var calls: seq<real>
    ghost var admitted: seq<bool>

    /** As long as the clock has not gone back, what was admitted is what the windows had room for. */
    ghost predicate Valid()
      reads this
    {
      && Usable(limits) && |calls| == |admitted|
      && (Monotone(calls) ==> Exact(key, calls, admitted, limits) && WindowRule(calls, admitted, limits))
    }

    constructor (limits: Limits)
      requires Usable(limits)
      ensures Valid() && this.limits == limits && key == None && calls == []
    {
      this.limits := limits;
      key, calls, admitted := None, [], [];
    }

    method Allow(now: real) returns (a: Answer)
      requires Valid()
      modifies this
      ensures Valid() && calls == old(calls) + [now] && admitted == old(admitted) + [a.allowed]
      ensures key.Some? && (key.value, a) == Ask(old(key), now, limits)
      ensures Monotone(calls) ==> ExactAnswer(a, old(calls), old(admitted), now, limits)
      ensures 0.0 <= key.value.deadline - now - limits.burst / limits.rate * 2.0 < 0.001
    {
      a := Script(now);
      if Monotone(calls + [now]) {
        PrefixMonotone(calls, [now]);
        AskFollowsWindows(old(key), calls, admitted, now, limits);
        AnswerIsExact(old(key), calls, admitted, now, limits);
        RuleGrows(calls, admitted, now, a.allowed, limits);
      }
      calls, admitted := calls + [now], admitted + [a.allowed];
    }

    method Script(now: real) returns (a: Answer)
      requires Usable(limits)
      modifies this`key
      ensures key.Some? && (key.value, a) == Ask(old(key), now, limits)
    {
      var tokens, updated := limits.burst, now;
      if key.Some? {
        tokens, updated := key.value.tokens, key.value.updated;
      }
      var elapsed := Greatest(0.0, now - updated);
      tokens := Least(limits.burst, tokens + elapsed * limits.rate);
      assert tokens == Level(key, now, limits) by {
        Nothing(elapsed, limits.rate);
      }
      var allowed, retry := false, 0;
      if tokens >= 1.0 {
        allowed := true;
        tokens := tokens - 1.0;
      } else {
        retry := WaitMs(tokens, limits);
      }
      key := Some(Entry(tokens, now, Deadline(now, limits)));
      a := Answer(allowed, tokens.Floor, retry);
    }
  }

  /** The answer reports a level that stays between empty and full. */
  lemma AskKeepsSound(key: Option<Entry>, before: real, now: real, l: Limits)
    requires Usable(l) && Sound(key, before, l) && before <= now
    ensures Sound(Some(Ask(key, now, l).0), now, l)
    ensures 0 <= Ask(key, now, l).1.remaining && Ask(key, now, l).1.remaining as real <= l.burst
    ensures Ask(key, now, l).1.allowed <==> Ask(key, now, l).1.retryMs == 0
  {
    var level := Level(key, now, l);
    if key.Some? {
      Product(now - key.value.updated, l.rate);
    }
    if level < 1.0 {
      Quotient(1.0 - level, l.rate);
    }
  }

  lemma Nothing(a: real, b: real)
    ensures a == 0.0 ==> a * b == 0.0
  {}

  lemma Product(a: real, b: real)
    requires a >= 0.0 && b > 0.0
    ensures a * b >= 0.0
  {}

  lemma Quotient(a: real, b: real)
    requires b > 0.0
    ensures a / b * b == a
    ensures a > 0.0 ==> a / b > 0.0
  {}

  // ---------------------------------------------------------------------
  // Admission over a window
  // ---------------------------------------------------------------------

  /** The requests admitted among calls at the given times. */
  ghost function Admitted(key: Option<Entry>, ts: seq<real>, l: Limits): (n: nat)
    requires Usable(l)
    decreases |ts|
  {
    if ts == [] then 0 else
      var (e, a) := Ask(key, ts[0], l);
      (if a.allowed then 1 else 0) + Admitted(Some(e), ts[1..], l)
  }

  lemma RefillIsLinear(e: Entry, now: real, l: Limits)
    requires Usable(l) && e.updated <= now
    ensures Level(Some(e), now, l) <= e.tokens + Refill(e.updated, now, l.rate)
  {}

  lemma AskSpends(key: Option<Entry>, now: real, l: Limits)
    requires Usable(l)
    ensures var (e, a) := Ask(key, now, l);
            e.updated == now && e.tokens + (if a.allowed then 1.0 else 0.0) == Level(key, now, l)
  {}

  lemma AdmittedHead(key: Option<Entry>, ts: seq<real>, l: Limits)
    requires Usable(l) && ts != []
    ensures var (e, a) := Ask(key, ts[0], l);
            Admitted(key, ts, l) as real == (if a.allowed then 1.0 else 0.0) + Admitted(Some(e), ts[1..], l) as real
  {}

  /** The refill between the calls of a window. */
  ghost function Credit(ts: seq<real>, l: Limits): (c: real) {
    if |ts| <= 1 then 0.0 else Refill(ts[0], ts[1], l.rate) + Credit(ts[1..], l)
  }

  lemma {:induction false} CreditIsSpan(ts: seq<real>, l: Limits)
    requires ts != []
    ensures Credit(ts, l) == Refill(ts[0], ts[|ts| - 1], l.rate)
  {
    if |ts| == 1 {
      Nothing(ts[0] - ts[0], l.rate);
    } else {
      CreditIsSpan(ts[1..], l);
      Distribute(ts[0], ts[1], ts[|ts| - 1], l.rate);
    }
  }

  /** One call in front of a window: what it spends and what the gap refills. */
  lemma Prepend(e: Entry, first: real, later: real, level: real, next: real, credit: real, l: Limits)
    requires Usable(l) && e.updated <= next && e.tokens + first == level
    requires later <= Level(Some(e), next, l) + credit
    ensures first + later <= level + Refill(e.updated, next, l.rate) + credit
  {
    RefillIsLinear(e, next, l);
  }

  lemma {:induction false} AdmittedBelowLevel(key: Option<Entry>, before: real, ts: seq<real>, l: Limits)
    requires Usable(l) && ts != [] && Monotone(ts) && Sound(key, before, l) && before <= ts[0]
    ensures Admitted(key, ts, l) as real <= Level(key, ts[0], l) + Credit(ts, l)
    decreases |ts|
  {
    var e := Ask(key, ts[0], l).0;
    var first := if Ask(key, ts[0], l).1.allowed then 1.0 else 0.0;
    AskKeepsSound(key, before, ts[0], l);
    AskSpends(key, ts[0], l);
    AdmittedHead(key, ts, l);
    var rest := ts[1..];
    if rest != [] {
      AdmittedBelowLevel(Some(e), ts[0], rest, l);
      Prepend(e, first, Admitted(Some(e), rest, l) as real, Level(key, ts[0], l), rest[0], Credit(rest, l), l);
    }
  }

  /** Any window of length T admits at most burst + rate * T requests, whatever came before it. */
  lemma WindowBound(key: Option<Entry>, before: real, ts: seq<real>, l: Limits)
    requires Usable(l) && ts != [] && Monotone(ts) && Sound(key, before, l) && before <= ts[0]
    ensures Admitted(key, ts, l) as real <= l.burst + Refill(ts[0], ts[|ts| - 1], l.rate)
  {
    AdmittedBelowLevel(key, before, ts, l);
    CreditIsSpan(ts, l);
    LevelIsCapped(key, ts[0], l);
  }

  lemma LevelIsCapped(key: Option<Entry>, now: real, l: Limits)
    ensures Level(key, now, l) <= l.burst
  {}

  // ---------------------------------------------------------------------
  // Key expiry
  // ---------------------------------------------------------------------

  /** A key past its deadline, if the server chooses to have dropped it. */
  function Seen(key: Option<Entry>, now: real, drop: bool): (k: Option<Entry>) {
    if drop && key.Some? && key.value.deadline <= now then None else key
  }

  /** By its deadline a bucket is full again, so a missing key answers the same. */
  lemma ExpiredMeansFull(e: Entry, now: real, l: Limits)
    requires Usable(l) && Sound(Some(e), e.updated, l) && e.deadline <= now
    ensures Level(Some(e), now, l) == l.burst
  {
    var q := l.burst / l.rate;
    Quotient(l.burst, l.rate);
    assert now - e.updated >= 2.0 * q;
    Stretch(now - e.updated, 2.0 * q, l.rate);
    assert 2.0 * q * l.rate == 2.0 * l.burst;
    assert Greatest(0.0, now - e.updated) == now - e.updated by {
      assert q > 0.0;
    }
  }

  lemma Stretch(a: real, b: real, c: real)
    requires a >= b && c > 0.0
    ensures a * c >= b * c
  {}

  ghost function Answers(key: Option<Entry>, ts: seq<real>, drops: seq<bool>, l: Limits): (r: seq<Answer>)
    requires Usable(l) && |drops| == |ts|
    decreases |ts|
  {
    if ts == [] then [] else
      var (e, a) := Ask(Seen(key, ts[0], drops[0]), ts[0], l);
      [a] + Answers(Some(e), ts[1..], drops[1..], l)
  }

  ghost function Never(n: nat): (r: seq<bool>) {
    seq(n, _ => false)
  }

  lemma SeenAsksSame(key: Option<Entry>, before: real, now: real, drop: bool, l: Limits)
    requires Usable(l) && Sound(key, before, l) && before <= now
    ensures Ask(Seen(key, now, drop), now, l) == Ask(key, now, l)
  {
    if drop && key.Some? && key.value.deadline <= now {
      ExpiredMeansFull(key.value, now, l);
    }
  }

  /** Expiry is invisible: wherever expired keys are dropped, every answer is that of a bucket that keeps them. */
  lemma {:induction false} ExpiryIsInvisible(key: Option<Entry>, before: real, ts: seq<real>, drops: seq<bool>,
                                             l: Limits)
    requires Usable(l) && |drops| == |ts| && Monotone(ts) && Sound(key, before, l) && (ts != [] ==> before <= ts[0])
    ensures Answers(key, ts, drops, l) == Answers(key, ts, Never(|ts|), l)
    decreases |ts|
  {
    if ts != [] {
      SeenAsksSame(key, before, ts[0], drops[0], l);
      AskKeepsSound(key, before, ts[0], l);
      ExpiryIsInvisible(Some(Ask(key, ts[0], l).0), ts[0], ts[1..], drops[1..], l);
      assert Never(|ts|)[1..] == Never(|ts[1..]|);
    }
  }

  ghost function Verdicts(answers: seq<Answer>): (r: seq<bool>)
    ensures |r| == |answers|
  {
    seq(|answers|, i requires 0 <= i < |answers| => answers[i].allowed)
  }

  lemma VerdictsOfMore(a: Answer, rest: seq<Answer>)
    ensures Verdicts([a] + rest) == [a.allowed] + Verdicts(rest)
  {}

  lemma NextVerdict(key: Option<Entry>, ts: seq<real>, l: Limits)
    requires Usable(l) && ts != []
    ensures var (e, a) := Ask(key, ts[0], l);
            Verdicts(Answers(key, ts, Never(|ts|), l))
            == [a.allowed] + Verdicts(Answers(Some(e), ts[1..], Never(|ts[1..]|), l))
  {
    var (e, a) := Ask(key, ts[0], l);
    var rest := Answers(Some(e), ts[1..], Never(|ts[1..]|), l);
    assert Answers(key, ts, Never(|ts|), l) == [a] + rest by {
      assert Never(|ts|)[1..] == Never(|ts[1..]|);
    }
    VerdictsOfMore(a, rest);
  }

  /** The calls so far followed the windows, and the key says so. */
  ghost predicate Followed(key: Option<Entry>, ts: seq<real>, admitted: seq<bool>, l: Limits) {
    Usable(l) && Exact(key, ts, admitted, l) && WindowRule(ts, admitted, l)
  }

  lemma FollowOne(key: Option<Entry>, past: seq<real>, admitted: seq<bool>, ts: seq<real>, l: Limits)
    returns (e: Entry, ok: bool)
    requires Followed(key, past, admitted, l) && ts != [] && Monotone(past + ts)
    ensures Followed(Some(e), past + [ts[0]], admitted + [ok], l) && Monotone((past + [ts[0]]) + ts[1..])
    ensures Verdicts(Answers(key, ts, Never(|ts|), l))
            == [ok] + Verdicts(Answers(Some(e), ts[1..], Never(|ts[1..]|), l))
  {
    e, ok := Ask(key, ts[0], l).0, Ask(key, ts[0], l).1.allowed;
    assert past + ts == (past + [ts[0]]) + ts[1..];
    PrefixMonotone(past + [ts[0]], ts[1..]);
    AskFollowsWindows(key, past, admitted, ts[0], l);
    RuleGrows(past, admitted, ts[0], ok, l);
    NextVerdict(key, ts, l);
  }

  lemma {:induction false} KeptKeyFollowsWindows(key: Option<Entry>, past: seq<real>, admitted: seq<bool>,
                                                 ts: seq<real>, l: Limits)
    requires Followed(key, past, admitted, l) && Monotone(past + ts)
    ensures WindowRule(past + ts, admitted + Verdicts(Answers(key, ts, Never(|ts|), l)), l)
    decreases |ts|
  {
    if ts == [] {
      assert past + ts == past && admitted + Verdicts(Answers(key, ts, Never(|ts|), l)) == admitted;
    } else {
      var e, ok := FollowOne(key, past, admitted, ts, l);
      KeptKeyFollowsWindows(Some(e), past + [ts[0]], admitted + [ok], ts[1..], l);
      var rest := Verdicts(Answers(Some(e), ts[1..], Never(|ts[1..]|), l));
      assert (past + [ts[0]]) + ts[1..] == past + ts;
      assert (admitted + [ok]) + rest == admitted + ([ok] + rest);
    }
  }

  lemma PrefixMonotone(ts: seq<real>, more: seq<real>)
    requires Monotone(ts + more)
    ensures Monotone(ts)
  {
    forall i, j | 0 <= i < j < |ts| ensures ts[i] <= ts[j] {
      assert (ts + more)[i] <= (ts + more)[j];
    }
  }

  /**
   * From an unused key on, wherever expired keys are dropped, a call is admitted if and only if with it no window
   * that ends there holds more than burst + rate * T admitted calls, T being the length of the window.
   */
  lemma AdmissionIsExact(ts: seq<real>, drops: seq<bool>, l: Limits)
    requires Usable(l) && |drops| == |ts| && Monotone(ts)
    ensures WindowRule(ts, Verdicts(Answers(None, ts, drops, l)), l)
  {
    if ts != [] {
      ExpiryIsInvisible(None, ts[0], ts, drops, l);
    }
    assert [] + ts == ts;
    KeptKeyFollowsWindows(None, [], [], ts, l);
    var verdicts := Verdicts(Answers(None, ts, Never(|ts|), l));
    assert [] + verdicts == verdicts;
  }

  // ---------------------------------------------------------------------
  // The advertised wait
  // ---------------------------------------------------------------------

  lemma EnoughRefill(level: real, ms: int, rate: real)
    requires rate > 0.0 && level < 1.0 && ms >= 0
    ensures ms >= Ceil((1.0 - level) / rate * 1000.0) <==> level + ms as real / 1000.0 * rate >= 1.0
  {
    var need := (1.0 - level) / rate;
    Quotient(1.0 - level, rate);
    var wait := ms as real / 1000.0;
    if ms >= Ceil(need * 1000.0) {
      assert wait >= need;
      Stretch(wait, need, rate);
    } else {
      assert ms as real < need * 1000.0;
      assert wait < need;
      StretchStrictly(need, wait, rate);
    }
  }

  lemma StretchStrictly(a: real, b: real, c: real)
    requires a > b && c > 0.0
    ensures a * c > b * c
  {}

  /** After a rejection, a lone request is admitted exactly when it waits at least retry_ms milliseconds. */
  lemma RetryAfterIsExact(key: Option<Entry>, before: real, now: real, ms: int, l: Limits)
    requires Usable(l) && Sound(key, before, l) && before <= now && ms >= 0
    requires !Ask(key, now, l).1.allowed
    ensures var (e, a) := Ask(key, now, l);
            Ask(Some(e), now + ms as real / 1000.0, l).1.allowed <==> ms >= a.retryMs
  {
    var (e, a) := Ask(key, now, l);
    AskKeepsSound(key, before, now, l);
    EnoughRefill(e.tokens, ms, l.rate);
    assert now + ms as real / 1000.0 - e.updated == ms as real / 1000.0;
  }
}
