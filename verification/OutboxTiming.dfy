/** When the log of a key is strictly in order: the timing bound that a batch needs, and that it needs it exactly. */
module OutboxTiming {
  import opened TaskStates
  import opened Outbox

  /** No event follows a later one of its key. */
  ghost predicate Sorted(w: World) {
    forall i, j :: 0 <= i < j < |w.log| ==> !Precedes(w.rows, w.log[j], w.log[i])
  }

  ghost predicate InCall(w: World, token: Token, e: EventId) {
    && token in w.batches && w.batches[token].phase.Calling?
    && w.batches[token].next < |w.batches[token].events|
    && w.batches[token].events[w.batches[token].next] == e
  }

  /** A copy lands only inside its call and before the claim of that call's batch expires. */
  ghost predicate Live(w: World, x: Timed) {
    x.move.Land? && x.move.event in w.wire ==>
      exists token :: InCall(w, token, x.move.event) && x.now < w.batches[token].expires
  }

  ghost predicate LiveAlong(w: World, xs: seq<Timed>)
    decreases |xs|
  {
    xs == [] || (Live(w, xs[0]) && LiveAlong(Apply(w, xs[0]), xs[1..]))
  }

  // ---------------------------------------------------------------------
  // A live claim is kept until it expires
  // ---------------------------------------------------------------------

  ghost predicate Guarded(w: World, token: Token, i: nat)
    requires token in w.batches && i < |w.batches[token].events|
  {
    var b := w.batches[token];
    var e := b.events[i];
    || b.expires <= w.clock
    || (&& e in w.rows && w.rows[e].published.None?
        && w.rows[e].token == Some(token) && w.rows[e].expires == Some(b.expires))
  }

  ghost predicate ClaimOk(w: World, token: Token)
    requires token in w.batches
  {
    var b := w.batches[token];
    && Distinct(b.events)
    && (!b.phase.Stopped? ==> forall i :: b.next <= i < |b.events| ==> Guarded(w, token, i))
  }

  ghost predicate ClaimsOk(w: World) {
    forall token :: token in w.batches ==> ClaimOk(w, token)
  }

  /** A batch that a move does not touch keeps its claims unless someone else takes an expired one. */
  lemma OtherClaimKept(w: World, r: World, token: Token)
    requires token in w.batches && ClaimOk(w, token) && w.clock <= r.clock
    requires token in r.batches && r.batches[token] == w.batches[token]
    requires forall e :: e in w.rows && w.rows[e].token == Some(token) && w.rows[e].published.None? ==>
               e in r.rows && (r.rows[e] == w.rows[e].(attempts := r.rows[e].attempts)
                               || (w.rows[e].expires.Some? && w.rows[e].expires.value <= r.clock))
    ensures ClaimOk(r, token)
  {
    var b := w.batches[token];
    if !b.phase.Stopped? {
      forall i | b.next <= i < |b.events| ensures Guarded(r, token, i) {
        assert Guarded(w, token, i);
      }
    }
  }

  lemma ClaimClaims(w: World, now: Time, token: Token, picked: seq<EventId>, ttl: Time)
    requires ClaimsOk(w) && w.clock <= now
    ensures ClaimsOk(ClaimBatch(w, now, token, picked, ttl).(clock := now))
  {
    var r := ClaimBatch(w, now, token, picked, ttl).(clock := now);
    forall t | t in r.batches ensures ClaimOk(r, t) {
      if CanClaim(w, now, token, picked) && t == token {
        forall i | 0 <= i < |picked| ensures Guarded(r, token, i) {
          assert picked[i] in picked && Claimable(w.rows, picked[i], now);
        }
      } else {
        if CanClaim(w, now, token, picked) {
          forall e | e in w.rows && w.rows[e].token == Some(t) && w.rows[e].published.None?
            ensures r.rows[e] == w.rows[e].(attempts := r.rows[e].attempts)
                    || (w.rows[e].expires.Some? && w.rows[e].expires.value <= now)
          {
            if e in picked {
              assert Claimable(w.rows, e, now);
            }
          }
        }
        OtherClaimKept(w, r, t);
      }
    }
  }

  lemma StopClaims(w: World, now: Time, token: Token, released: bool)
    requires ClaimsOk(w) && w.clock <= now
    ensures ClaimsOk(Stop(w, token, released).(clock := now))
  {
    var r := Stop(w, token, released).(clock := now);
    forall t | t in r.batches ensures ClaimOk(r, t) {
      if t == token {
        assert ClaimOk(w, t);
      } else {
        OtherClaimKept(w, r, t);
      }
    }
  }

  /** Only the phase of one batch changes. */
  lemma PhaseClaims(w: World, r: World, token: Token)
    requires ClaimsOk(w) && w.clock <= r.clock && token in w.batches && token in r.batches
    requires r.rows == w.rows && !w.batches[token].phase.Stopped?
    requires r.batches == w.batches[token := w.batches[token].(phase := r.batches[token].phase)]
    ensures ClaimsOk(r)
  {
    forall t | t in r.batches ensures ClaimOk(r, t) {
      if t == token {
        var b := w.batches[t];
        assert ClaimOk(w, t);
        forall i | b.next <= i < |b.events| ensures Guarded(r, t, i) {
          assert Guarded(w, t, i);
        }
      } else {
        OtherClaimKept(w, r, t);
      }
    }
  }

  lemma AckClaims(w: World, now: Time, token: Token, reported: bool, released: bool)
    requires ClaimsOk(w) && w.clock <= now
    ensures ClaimsOk(Acknowledge(w, now, token, reported, released).(clock := now))
  {
    if !(token in w.batches && w.batches[token].phase.Delivered?) {
      SameClaims(w, w.(clock := now));
    } else if !AckMatches(w, token) {
      StopClaims(w, now, token, released);
    } else {
      AckedClaims(w, now, token, reported, released);
    }
  }

  lemma AckedClaims(w: World, now: Time, token: Token, reported: bool, released: bool)
    requires ClaimsOk(w) && w.clock <= now
    requires token in w.batches && w.batches[token].phase.Delivered? && AckMatches(w, token)
    ensures ClaimsOk(Acknowledge(w, now, token, reported, released).(clock := now))
  {
    var r := Acknowledge(w, now, token, reported, released).(clock := now);
    forall t | t in r.batches ensures ClaimOk(r, t) {
      assert ClaimOk(w, t);
      if t == token {
        if reported {
          var b := w.batches[t];
          forall i | b.next + 1 <= i < |b.events| ensures Guarded(r, t, i) {
            assert Guarded(w, t, i) && b.events[i] != b.events[b.next];
          }
        }
      } else {
        OtherClaimKept(w, r, t);
      }
    }
  }

  lemma SameClaims(w: World, r: World)
    requires ClaimsOk(w) && w.clock <= r.clock && r.batches == w.batches
    requires forall e :: e in w.rows ==> e in r.rows && r.rows[e] == w.rows[e]
    ensures ClaimsOk(r)
  {
    forall t | t in r.batches ensures ClaimOk(r, t) {
      OtherClaimKept(w, r, t);
    }
  }

  lemma CallClaims(w: World, now: Time, token: Token, copies: nat)
    requires ClaimsOk(w) && w.clock <= now
    ensures ClaimsOk(CallPublish(w, now, token, copies).(clock := now))
  {
    var r := CallPublish(w, now, token, copies).(clock := now);
    if r.batches == w.batches {
      SameClaims(w, r);
    } else {
      PhaseClaims(w, r, token);
    }
  }

  lemma ReturnClaims(w: World, now: Time, token: Token)
    requires ClaimsOk(w) && w.clock <= now
    ensures ClaimsOk(ReturnNil(w, token).(clock := now))
  {
    var r := ReturnNil(w, token).(clock := now);
    if CanReturn(w, token) {
      PhaseClaims(w, r, token);
    } else {
      SameClaims(w, r);
    }
  }

  lemma MoveKeepsClaims(w: World, x: Timed)
    requires ClaimsOk(w) && w.clock <= x.now
    ensures ClaimsOk(Apply(w, x))
  {
    match x.move
    case Insert(id, key, created) => SameClaims(w, Apply(w, x));
    case Claim(token, picked, t) => ClaimClaims(w, x.now, token, picked, t);
    case Call(token, copies) => CallClaims(w, x.now, token, copies);
    case Land(event) => SameClaims(w, Apply(w, x));
    case Return(token) => ReturnClaims(w, x.now, token);
    case Ack(token, reported, released) => AckClaims(w, x.now, token, reported, released);
    case Fault(token, released) => StopClaims(w, x.now, token, released);
    case Crash(token) => StopClaims(w, x.now, token, false);
  }

  // ---------------------------------------------------------------------
  // Strict order
  // ---------------------------------------------------------------------

  /** While its claim lasts the event is unpublished, so nothing after it has been claimed. */
  lemma LiveLandIsHead(w: World, now: Time, e: EventId, token: Token)
    requires ClaimsOk(w) && w.clock <= now && InCall(w, token, e) && now < w.batches[token].expires
    ensures e in w.rows && w.rows[e].published.None?
  {
    assert ClaimOk(w, token);
    assert Guarded(w, token, w.batches[token].next);
  }

  lemma LandSorted(w: World, e: EventId)
    requires Inv(w) && Sorted(w) && e in w.rows && w.rows[e].published.None?
    ensures Sorted(LandCopy(w, e))
  {
    var r := LandCopy(w, e);
    if e in w.wire {
      forall i, j | 0 <= i < j < |r.log| ensures !Precedes(r.rows, r.log[j], r.log[i]) {
        if j == |w.log| {
          assert r.log[i] == w.log[i] && w.log[i] in w.log;
          assert Attempted(w, w.log[i]);
        } else {
          assert r.log[i] == w.log[i] && r.log[j] == w.log[j];
        }
      }
    }
  }

  lemma SameLogSorted(w: World, x: Timed)
    requires Inv(w) && Sorted(w) && !x.move.Land?
    ensures Sorted(Apply(w, x))
  {
    var r := Apply(w, x);
    assert r.log == w.log;
    forall i, j | 0 <= i < j < |r.log| ensures !Precedes(r.rows, r.log[j], r.log[i]) {
      assert w.log[i] in w.log && w.log[j] in w.log;
      assert Attempted(w, w.log[i]) && Attempted(w, w.log[j]);
      assert !Precedes(w.rows, w.log[j], w.log[i]);
      SameColumns(w, x, w.log[i]);
      SameColumns(w, x, w.log[j]);
    }
  }

  lemma SameColumns(w: World, x: Timed, e: EventId)
    requires e in w.rows
    ensures e in Apply(w, x).rows
    ensures Apply(w, x).rows[e].key == w.rows[e].key && Apply(w, x).rows[e].created == w.rows[e].created
  {}

  lemma MoveSorted(w: World, x: Timed)
    requires Inv(w) && Sorted(w) && ClaimsOk(w) && w.clock <= x.now && Live(w, x)
    ensures Sorted(Apply(w, x))
  {
    if x.move.Land? && x.move.event in w.wire {
      var token :| InCall(w, token, x.move.event) && x.now < w.batches[token].expires;
      LiveLandIsHead(w, x.now, x.move.event, token);
      LandSorted(w, x.move.event);
    } else if x.move.Land? {
      assert Effect(w, x) == w;
    } else {
      SameLogSorted(w, x);
    }
  }

  lemma {:induction false} RunSorted(w: World, xs: seq<Timed>)
    requires Inv(w) && Sorted(w) && ClaimsOk(w) && Legal(w, xs) && LiveAlong(w, xs)
    ensures Sorted(After(w, xs))
    decreases |xs|
  {
    if xs != [] {
      MoveKeeps(w, xs[0]);
      MoveKeepsClaims(w, xs[0]);
      MoveSorted(w, xs[0]);
      RunSorted(Apply(w, xs[0]), xs[1..]);
    }
  }

  /** Strict order: as long as copies land under a live claim, no event follows a later one of its key. */
  lemma StrictOrder(xs: seq<Timed>)
    requires Legal(START, xs) && LiveAlong(START, xs)
    ensures Sorted(After(START, xs))
  {
    RunSorted(START, xs);
  }

  /** One landing, exactly: a copy keeps the order if and only if no later event of its key is in the log. */
  lemma LandSortedExactly(w: World, e: EventId)
    requires Sorted(w) && e in w.wire
    ensures Sorted(LandCopy(w, e)) <==> forall d :: d in w.log ==> !Precedes(w.rows, e, d)
  {
    var r := LandCopy(w, e);
    if Sorted(r) {
      forall d | d in w.log ensures !Precedes(w.rows, e, d) {
        var i :| 0 <= i < |w.log| && w.log[i] == d;
        assert r.log[i] == d && r.log[|w.log|] == e;
      }
    } else {
      var i, j :| 0 <= i < j < |r.log| && Precedes(r.rows, r.log[j], r.log[i]);
      assert j == |w.log| && r.log[i] == w.log[i] && w.log[i] in w.log;
    }
  }

  /** In a sorted log the duplicates of an event stand together among the entries of their key. */
  lemma DuplicatesAreAdjacent(w: World, i: nat, j: nat, k: nat)
    requires Inv(w) && Sorted(w) && i < j < k < |w.log| && w.log[i] == w.log[k]
    requires w.log[j] in w.rows && w.log[i] in w.rows && w.rows[w.log[j]].key == w.rows[w.log[i]].key
    ensures w.log[j] == w.log[i]
  {
    assert !Precedes(w.rows, w.log[j], w.log[i]) && !Precedes(w.rows, w.log[k], w.log[j]);
  }

  // ---------------------------------------------------------------------
  // When the configuration guarantees it
  // ---------------------------------------------------------------------

  /**
   * OutboxBatchSize, OutboxPublishTimeout and OutboxClaimTTL, and whether publishers are punctual: the k-th
   * call of a batch is over within k timeouts of the claim. The source bounds each call, but neither the
   * acknowledgements between them nor the time before the first, so it does not make publishers punctual.
   */
  datatype Config = Config(size: nat, timeout: Time, ttl: Time, punctual: bool)

  /** The copy lands inside a call, within one timeout of its start, and on time for its batch. */
  ghost predicate LandsIn(w: World, token: Token, e: EventId, now: Time, c: Config) {
    && InCall(w, token, e)
    && now <= w.batches[token].phase.since + c.timeout
    && (c.punctual ==> now <= w.batches[token].claimed + (w.batches[token].next + 1) * c.timeout)
  }

  ghost predicate OnTime(w: World, x: Timed, c: Config) {
    match x.move
    case Claim(_, picked, ttl) => ttl == c.ttl && |picked| <= c.size
    case Land(e) => e in w.wire ==> exists token :: LandsIn(w, token, e, x.now, c)
    case _ => true
  }

  ghost predicate OnTimeAlong(w: World, xs: seq<Timed>, c: Config)
    decreases |xs|
  {
    xs == [] || (OnTime(w, xs[0], c) && OnTimeAlong(Apply(w, xs[0]), xs[1..], c))
  }

  ghost predicate Sized(w: World, c: Config) {
    forall token :: token in w.batches ==> BatchSized(w.batches[token], c)
  }

  ghost predicate BatchSized(b: Batch, c: Config) {
    b.expires == b.claimed + c.ttl && |b.events| <= c.size
  }

  lemma MoveKeepsSized(w: World, x: Timed, c: Config)
    requires Sized(w, c) && OnTime(w, x, c)
    ensures Sized(Apply(w, x), c)
  {
    var r := Apply(w, x);
    forall token | token in r.batches ensures BatchSized(r.batches[token], c) {
      assert token in w.batches ==> BatchSized(w.batches[token], c);
    }
  }

  lemma Within(k: nat, size: nat, timeout: Time)
    requires k <= size && 0 <= timeout
    ensures k * timeout <= size * timeout
  {}

  lemma OnTimeIsLive(w: World, x: Timed, c: Config)
    requires Sized(w, c) && OnTime(w, x, c) && c.punctual && 0 <= c.timeout && c.size * c.timeout < c.ttl
    ensures Live(w, x)
  {
    if x.move.Land? && x.move.event in w.wire {
      var token :| LandsIn(w, token, x.move.event, x.now, c);
      assert BatchSized(w.batches[token], c);
      Within(w.batches[token].next + 1, c.size, c.timeout);
    }
  }

  /** Punctual publishers whose batch of timeouts fits into the claim always land under a live claim. */
  lemma {:induction false} PunctualIsLive(w: World, xs: seq<Timed>, c: Config)
    requires Sized(w, c) && OnTimeAlong(w, xs, c) && c.punctual && 0 <= c.timeout && c.size * c.timeout < c.ttl
    ensures LiveAlong(w, xs)
    decreases |xs|
  {
    if xs != [] {
      OnTimeIsLive(w, xs[0], c);
      MoveKeepsSized(w, xs[0], c);
      PunctualIsLive(Apply(w, xs[0]), xs[1..], c);
    }
  }

  ghost predicate Reaches(xs: seq<Timed>, w: World, c: Config) {
    Legal(START, xs) && OnTimeAlong(START, xs, c) && After(START, xs) == w
  }

  lemma {:induction false} Extend(w: World, xs: seq<Timed>, x: Timed, c: Config)
    requires Legal(w, xs) && OnTimeAlong(w, xs, c)
    requires After(w, xs).clock <= x.now && InOrder(After(w, xs), x.move) && OnTime(After(w, xs), x, c)
    ensures Legal(w, xs + [x]) && OnTimeAlong(w, xs + [x], c)
    ensures After(w, xs + [x]) == Apply(After(w, xs), x)
    decreases |xs|
  {
    if xs == [] {
      assert [x][1..] == [];
      assert xs + [x] == [x];
      assert Legal(Apply(w, x), []) && OnTimeAlong(Apply(w, x), [], c);
      assert After(Apply(w, x), []) == Apply(w, x);
    } else {
      Extend(Apply(w, xs[0]), xs[1..], x, c);
      assert (xs + [x])[0] == xs[0] && (xs + [x])[1..] == xs[1..] + [x];
    }
  }

  lemma Then(xs: seq<Timed>, w: World, x: Timed, c: Config) returns (ys: seq<Timed>, r: World)
    requires Reaches(xs, w, c) && w.clock <= x.now && InOrder(w, x.move) && OnTime(w, x, c)
    ensures ys == xs + [x] && r == Apply(w, x) && Reaches(ys, r, c)
  {
    Extend(START, xs, x, c);
    ys, r := xs + [x], Apply(w, x);
  }

  lemma ThenClaim(xs: seq<Timed>, w: World, now: Time, token: Token, picked: seq<EventId>, c: Config)
    returns (ys: seq<Timed>, r: World)
    requires Reaches(xs, w, c) && w.clock <= now && CanClaim(w, now, token, picked) && |picked| <= c.size
    ensures Reaches(ys, r, c)
    ensures r == World(ClaimRows(w.rows, token, picked, now + c.ttl), w.log, w.wire,
                       w.batches[token := Batch(now, now + c.ttl, picked, 0, Idle)], now)
  {
    ys, r := Then(xs, w, At(now, Claim(token, picked, c.ttl)), c);
  }

  lemma ThenCall(xs: seq<Timed>, w: World, now: Time, token: Token, c: Config) returns (ys: seq<Timed>, r: World)
    requires Reaches(xs, w, c) && w.clock <= now && CanCall(w, token)
    ensures Reaches(ys, r, c)
    ensures r == World(w.rows, w.log, w.wire + multiset{w.batches[token].events[w.batches[token].next]},
                       w.batches[token := w.batches[token].(phase := Calling(now))], now)
  {
    ys, r := Then(xs, w, At(now, Call(token, 1)), c);
    assert r.wire == w.wire + multiset{w.batches[token].events[w.batches[token].next]};
  }

  lemma ThenLand(xs: seq<Timed>, w: World, now: Time, token: Token, e: EventId, c: Config)
    returns (ys: seq<Timed>, r: World)
    requires Reaches(xs, w, c) && w.clock <= now && e in w.wire
    requires LandsIn(w, token, e, now, c)
    ensures Reaches(ys, r, c)
    ensures r == World(w.rows, w.log + [e], w.wire - multiset{e}, w.batches, now)
  {
    ys, r := Then(xs, w, At(now, Land(e)), c);
  }

  /** Publish returns nil and the acknowledgement finds the claim. */
  lemma ThenFinish(xs: seq<Timed>, w: World, now: Time, token: Token, c: Config) returns (ys: seq<Timed>, r: World)
    requires Reaches(xs, w, c) && w.clock <= now && CanReturn(w, token) && AckMatches(w, token)
    ensures Reaches(ys, r, c)
    ensures var b := w.batches[token];
            var e := b.events[b.next];
            r == World(w.rows[e := w.rows[e].(published := Some(now), token := None, expires := None)], w.log, w.wire,
                       w.batches[token := b.(next := b.next + 1, phase := Idle)], now)
  {
    var m;
    ys, m := Then(xs, w, At(now, Return(token)), c);
    ys, r := Then(ys, m, At(now, Ack(token, true, true)), c);
  }

  lemma ThenDeliver(xs: seq<Timed>, w: World, now: Time, token: Token, e: EventId, c: Config)
    returns (ys: seq<Timed>, r: World)
    requires Reaches(xs, w, c) && w.clock <= now && c.timeout >= 0
    requires CanCall(w, token) && w.batches[token].events[w.batches[token].next] == e
    requires c.punctual ==> now <= w.batches[token].claimed + (w.batches[token].next + 1) * c.timeout
    ensures Reaches(ys, r, c)
    ensures r == World(w.rows, w.log + [e], w.wire,
                       w.batches[token := w.batches[token].(phase := Calling(now))], now)
  {
    ys, r := ThenCall(xs, w, now, token, c);
    ys, r := ThenLand(ys, r, now, token, e, c);
    assert w.wire + multiset{e} - multiset{e} == w.wire;
  }

  /** One event from the call to the acknowledgement, all at one time. */
  lemma ThenServe(xs: seq<Timed>, w: World, now: Time, token: Token, e: EventId, c: Config)
    returns (ys: seq<Timed>, r: World)
    requires Reaches(xs, w, c) && w.clock <= now && c.timeout >= 0
    requires CanCall(w, token) && AckMatches(w, token) && w.batches[token].events[w.batches[token].next] == e
    requires c.punctual ==> now <= w.batches[token].claimed + (w.batches[token].next + 1) * c.timeout
    ensures Reaches(ys, r, c)
    ensures r == World(w.rows[e := w.rows[e].(published := Some(now), token := None, expires := None)],
                       w.log + [e], w.wire,
                       w.batches[token := w.batches[token].(next := w.batches[token].next + 1, phase := Idle)], now)
  {
    var b := w.batches[token];
    ys, r := ThenDeliver(xs, w, now, token, e, c);
    ys, r := ThenFinish(ys, r, now, token, c);
    assert w.batches[token := b.(phase := Calling(now))][token := b.(next := b.next + 1, phase := Idle)]
           == w.batches[token := b.(next := b.next + 1, phase := Idle)];
  }

  // A race for any configuration with size * timeout >= ttl. Events 0..size-1 have keys of their own and event
  // `size` follows size-1 under the same key. Publisher 0 claims the first `size` at time 0, publishes all but
  // the last at once, and makes its last call (size-1) timeouts later. At size * timeout its claim has run out:
  // publishers 1 and 2 publish events size-1 and `size`, and then the last call lands, still on time.

  function Upto(n: nat): (es: seq<EventId>) {
    seq(n, i => i)
  }

  /** The rows when publisher 0 has been served its first k events. */
  function RaceRows(c: Config, k: nat): (rows: map<EventId, Row>)
    requires c.size >= 1
  {
    map e: EventId | 0 <= e <= c.size ::
      if e == c.size then Row(e - 1, e, None, None, None, 0)
      else if e < k then Row(e, e, Some(0), None, None, 1)
      else Row(e, e, None, Some(0), Some(c.ttl), 1)
  }

  lemma {:induction false} RaceInserts(c: Config, n: nat) returns (xs: seq<Timed>, w: World)
    requires n <= c.size
    ensures Reaches(xs, w, c)
    ensures w == World(map e: EventId | 0 <= e < n :: Row(e, e, None, None, None, 0), [], multiset{}, map[], 0)
  {
    if n == 0 {
      xs, w := [], START;
      assert w.rows == map e: EventId | 0 <= e < n :: Row(e, e, None, None, None, 0);
    } else {
      xs, w := RaceInserts(c, n - 1);
      xs, w := Then(xs, w, At(0, Insert(n - 1, n - 1, n - 1)), c);
      assert w.rows == map e: EventId | 0 <= e < n :: Row(e, e, None, None, None, 0);
    }
  }

  /** The rows before the first claim. */
  function NewRows(c: Config): (rows: map<EventId, Row>)
    requires c.size >= 1
  {
    var heads := map e: EventId | 0 <= e < c.size :: Row(e, e, None, None, None, 0);
    heads[c.size := Row(c.size - 1, c.size, None, None, None, 0)]
  }

  lemma NewRowsClaimed(c: Config)
    requires c.size >= 1
    ensures Distinct(Upto(c.size)) && forall e :: e in Upto(c.size) ==> Claimable(NewRows(c), e, 0)
    ensures ClaimRows(NewRows(c), 0, Upto(c.size), c.ttl) == RaceRows(c, 0)
  {
    forall e: EventId | e <= c.size ensures ClaimRows(NewRows(c), 0, Upto(c.size), c.ttl)[e] == RaceRows(c, 0)[e] {
      assert e < c.size ==> Upto(c.size)[e] == e;
    }
  }

  lemma RaceClaims(c: Config) returns (xs: seq<Timed>, w: World)
    requires c.size >= 1
    ensures Reaches(xs, w, c)
    ensures w == World(RaceRows(c, 0), Upto(0), multiset{}, map[0 := Batch(0, c.ttl, Upto(c.size), 0, Idle)], 0)
  {
    xs, w := RaceInserts(c, c.size);
    xs, w := Then(xs, w, At(0, Insert(c.size, c.size - 1, c.size)), c);
    assert w.rows == NewRows(c);
    NewRowsClaimed(c);
    xs, w := ThenClaim(xs, w, 0, 0, Upto(c.size), c);
    assert Upto(0) == [];
  }

  /** Publisher 0 has been served its first k events. */
  ghost function Served(c: Config, k: nat): (w: World)
    requires c.size >= 1
  {
    World(RaceRows(c, k), Upto(k), multiset{}, map[0 := Batch(0, c.ttl, Upto(c.size), k, Idle)], 0)
  }

  lemma ServedNext(c: Config, k: nat)
    requires k < c.size
    ensures var row := RaceRows(c, k)[k];
            RaceRows(c, k)[k := row.(published := Some(0), token := None, expires := None)] == RaceRows(c, k + 1)
    ensures Upto(k) + [k] == Upto(k + 1) && Upto(c.size)[k] == k
  {}

  lemma RaceServesOne(xs: seq<Timed>, c: Config, k: nat) returns (ys: seq<Timed>)
    requires k < c.size && c.timeout >= 0 && Reaches(xs, Served(c, k), c)
    ensures Reaches(ys, Served(c, k + 1), c)
  {
    var w;
    ServedNext(c, k);
    assert (k + 1) * c.timeout >= 0;
    ys, w := ThenServe(xs, Served(c, k), 0, 0, k, c);
  }

  lemma {:induction false} RaceServes(c: Config, k: nat) returns (xs: seq<Timed>)
    requires k < c.size && c.timeout >= 0
    ensures Reaches(xs, Served(c, k), c)
  {
    if k == 0 {
      var w;
      xs, w := RaceClaims(c);
    } else {
      xs := RaceServes(c, k - 1);
      xs := RaceServesOne(xs, c, k - 1);
    }
  }

  /** Publisher 0 is inside its last call, event size-1 is up for grabs and the clock stands at size * timeout. */
  ghost predicate Stalled(w: World, c: Config)
    requires c.size >= 1
  {
    && w.batches.Keys == {0}
    && w.batches[0] == Batch(0, c.ttl, Upto(c.size), c.size - 1, Calling((c.size - 1) * c.timeout))
    && w.rows == RaceRows(c, c.size - 1) && w.log == Upto(c.size - 1) && w.wire == multiset{c.size - 1}
    && w.clock <= c.size * c.timeout
  }

  lemma RaceStalls(c: Config) returns (xs: seq<Timed>, w: World)
    requires c.size >= 1 && c.timeout >= 0
    ensures Reaches(xs, w, c) && Stalled(w, c)
  {
    xs := RaceServes(c, c.size - 1);
    w := Served(c, c.size - 1);
    assert w.batches[0].events[c.size - 1] == c.size - 1;
    assert (c.size - 1) * c.timeout >= 0;
    xs, w := ThenCall(xs, w, (c.size - 1) * c.timeout, 0, c);
    assert w.wire == multiset{c.size - 1};
    assert (c.size - 1) * c.timeout <= c.size * c.timeout;
  }

  lemma ClaimOne(rows: map<EventId, Row>, token: Token, e: EventId, expires: Time)
    requires e in rows
    ensures ClaimRows(rows, token, [e], expires) ==
            rows[e := rows[e].(token := Some(token), expires := Some(expires), attempts := rows[e].attempts + 1)]
  {}

  /** Another publisher sees one event through at the given time. */
  lemma ThenPublish(xs: seq<Timed>, w: World, now: Time, token: Token, e: EventId, c: Config)
    returns (ys: seq<Timed>, r: World)
    requires Reaches(xs, w, c) && w.clock <= now && token !in w.batches && Claimable(w.rows, e, now)
    requires c.size >= 1 && c.timeout >= 0
    ensures Reaches(ys, r, c) && r.clock == now && r.log == w.log + [e] && r.wire == w.wire
    ensures r.rows == w.rows[e := w.rows[e].(published := Some(now), token := None, expires := None,
                                             attempts := w.rows[e].attempts + 1)]
    ensures r.batches.Keys == w.batches.Keys + {token}
    ensures forall t :: t in w.batches ==> r.batches[t] == w.batches[t]
  {
    ys, r := ThenClaim(xs, w, now, token, [e], c);
    ClaimOne(w.rows, token, e, now + c.ttl);
    ys, r := ThenServe(ys, r, now, token, e, c);
  }

  lemma RaceOvertakes(c: Config) returns (xs: seq<Timed>, w: World)
    requires c.size >= 1 && c.timeout >= 0 && c.size * c.timeout >= c.ttl
    ensures Reaches(xs, w, c) && w.clock == c.size * c.timeout
    ensures w.log == Upto(c.size - 1) + [c.size - 1, c.size] && w.wire == multiset{c.size - 1}
    ensures Precedes(w.rows, c.size - 1, c.size)
    ensures InCall(w, 0, c.size - 1) && w.batches[0].claimed == 0 && w.batches[0].next == c.size - 1
    ensures w.batches[0].phase.since == (c.size - 1) * c.timeout
  {
    var e := c.size - 1;
    xs, w := RaceStalls(c);
    assert Claimable(w.rows, e, c.size * c.timeout);
    xs, w := ThenPublish(xs, w, c.size * c.timeout, 1, e, c);
    assert Claimable(w.rows, c.size, c.size * c.timeout);
    xs, w := ThenPublish(xs, w, c.size * c.timeout, 2, c.size, c);
  }

  /** Event size-1 is logged again after its successor although every call was on time. */
  lemma StaleCopyLands(c: Config) returns (xs: seq<Timed>)
    requires c.size >= 1 && c.timeout >= 0 && c.size * c.timeout >= c.ttl
    ensures Legal(START, xs) && OnTimeAlong(START, xs, c)
    ensures After(START, xs).log == Upto(c.size - 1) + [c.size - 1, c.size, c.size - 1]
    ensures !Sorted(After(START, xs))
  {
    var w;
    xs, w := RaceOvertakes(c);
    assert (c.size - 1) * c.timeout + c.timeout == c.size * c.timeout;
    xs, w := ThenLand(xs, w, c.size * c.timeout, 0, c.size - 1, c);
    assert w.log[c.size] == c.size && w.log[c.size + 1] == c.size - 1;
    assert Precedes(w.rows, w.log[c.size + 1], w.log[c.size]);
  }

  // A race for publishers that are not punctual, under any configuration. Events 0 and 1 share a key. Publisher 0
  // claims event 0 and stalls until its claim has run out; publishers 1 and 2 publish both; then it calls.

  lemma StallClaims(c: Config) returns (xs: seq<Timed>, w: World)
    requires c.size >= 1
    ensures Reaches(xs, w, c)
    ensures w == World(map[0 := Row(0, 0, None, Some(0), Some(c.ttl), 1), 1 := Row(0, 1, None, None, None, 0)],
                       [], multiset{}, map[0 := Batch(0, c.ttl, [0], 0, Idle)], 0)
  {
    xs, w := [], START;
    xs, w := Then(xs, w, At(0, Insert(0, 0, 0)), c);
    xs, w := Then(xs, w, At(0, Insert(1, 0, 1)), c);
    assert w.rows == map[0 := Row(0, 0, None, None, None, 0), 1 := Row(0, 1, None, None, None, 0)];
    assert Claimable(w.rows, 0, 0);
    ClaimOne(w.rows, 0, 0, c.ttl);
    xs, w := ThenClaim(xs, w, 0, 0, [0], c);
    assert w.rows == map[0 := Row(0, 0, None, Some(0), Some(c.ttl), 1), 1 := Row(0, 1, None, None, None, 0)];
  }

  /** Every call is within its timeout, and event 0 still follows event 1. */
  lemma StallBreaksOrder(c: Config) returns (xs: seq<Timed>)
    requires c.size >= 1 && c.timeout >= 0 && !c.punctual
    ensures Legal(START, xs) && OnTimeAlong(START, xs, c)
    ensures After(START, xs).log == [0, 1, 0] && !Sorted(After(START, xs))
  {
    var w;
    var late := if c.ttl > 0 then c.ttl else 0;
    xs, w := StallClaims(c);
    assert Claimable(w.rows, 0, late);
    xs, w := ThenPublish(xs, w, late, 1, 0, c);
    assert Claimable(w.rows, 1, late);
    xs, w := ThenPublish(xs, w, late, 2, 1, c);
    assert w.batches[0] == Batch(0, c.ttl, [0], 0, Idle);
    xs, w := ThenDeliver(xs, w, late, 0, 0, c);
    assert w.log[1] == 1 && w.log[2] == 0 && Precedes(w.rows, 0, 1);
  }

  /**
   * What the configuration can guarantee: every execution that keeps to it logs each key in strict order if and
   * only if publishers are punctual and a whole batch of timeouts fits into one claim.
   */
  lemma StrictOrderIffBatchFits(c: Config)
    requires c.size >= 1 && c.timeout >= 0
    ensures (forall xs :: Legal(START, xs) && OnTimeAlong(START, xs, c) ==> Sorted(After(START, xs)))
            <==> c.punctual && c.size * c.timeout < c.ttl
  {
    if c.punctual && c.size * c.timeout < c.ttl {
      forall xs | Legal(START, xs) && OnTimeAlong(START, xs, c) ensures Sorted(After(START, xs)) {
        PunctualIsLive(START, xs, c);
        StrictOrder(xs);
      }
    } else if c.punctual {
      var xs := StaleCopyLands(c);
    } else {
      var xs := StallBreaksOrder(c);
    }
  }

  /**
   * The configuration check, a timeout below the TTL, lets disorder through even where publishers are punctual:
   * batches of two, 10 under 15.
   */
  lemma TimeoutBelowTtlIsNotEnough() returns (xs: seq<Timed>)
    ensures Legal(START, xs) && OnTimeAlong(START, xs, Config(2, 10, 15, true))
    ensures After(START, xs).log == [0, 1, 2, 1] && !Sorted(After(START, xs))
  {
    xs := StaleCopyLands(Config(2, 10, 15, true));
    assert Upto(1) == [0];
  }
}
