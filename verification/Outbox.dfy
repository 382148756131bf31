/**
 * The transactional outbox: publishers claim the head event of each ordering key, hand it to the
 * broker outside any transaction, and acknowledge it only while they still hold the claim
 * (internal/scheduler/scheduler.go, publishClaimedBatch). A publisher may crash, time out with the
 * append in doubt, lose its claim or release it at any point; a message in flight may land late or never.
 */
module Outbox {
  import opened TaskStates

  type EventId = nat
  type Key = nat
  type Token = nat
  type Time = int

  /** The columns of outbox_events that matter here. */
  datatype Row = Row(
    key: Key,
    created: Time,
    published: Option<Time>,
    token: Option<Token>,
    expires: Option<Time>,
    attempts: nat)

  /** Where a publisher is with the current event of its batch. */
  datatype Phase =
    | Idle                  // about to call Publish
    | Calling(since: Time)  // inside Publish
    | Delivered             // Publish returned nil, not yet acknowledged
    | Stopped               // returned an error, or crashed

  datatype Batch = Batch(claimed: Time, expires: Time, events: seq<EventId>, next: nat, phase: Phase)

  datatype World = World(
    rows: map<EventId, Row>,
    log: seq<EventId>,          // the broker's log, oldest first
    wire: multiset<EventId>,    // copies handed to the broker that may still land
    batches: map<Token, Batch>,
    clock: Time)

  const START := World(map[], [], multiset{}, map[], 0)

  /** (created_at, id) order. */
  predicate Before(rows: map<EventId, Row>, a: EventId, b: EventId)
    requires a in rows && b in rows
  {
    rows[a].created < rows[b].created || (rows[a].created == rows[b].created && a < b)
  }

  /** a is an earlier event of b's ordering key. */
  predicate Precedes(rows: map<EventId, Row>, a: EventId, b: EventId) {
    a in rows && b in rows && rows[a].key == rows[b].key && Before(rows, a, b)
  }

  /** Unpublished, unclaimed or with an expired claim, and the head of its key. */
  predicate Claimable(rows: map<EventId, Row>, e: EventId, now: Time) {
    && e in rows
    && rows[e].published.None?
    && (rows[e].token.None? || (rows[e].expires.Some? && rows[e].expires.value <= now))
    && forall d :: d in rows && Precedes(rows, d, e) ==> rows[d].published.Some?
  }

  predicate Distinct(es: seq<EventId>) {
    forall i, j :: 0 <= i < j < |es| ==> es[i] != es[j]
  }

  datatype Move =
    | Insert(id: EventId, key: Key, created: Time)
    | Claim(token: Token, picked: seq<EventId>, ttl: Time)
    | Call(token: Token, copies: nat)
    | Land(event: EventId)
    | Return(token: Token)
    | Ack(token: Token, reported: bool, released: bool)
    | Fault(token: Token, released: bool)
    | Crash(token: Token)

  datatype Timed = At(now: Time, move: Move)

  // ---------------------------------------------------------------------
  // The moves
  // ---------------------------------------------------------------------

  function InsertEvent(w: World, id: EventId, key: Key, created: Time): (r: World) {
    if id in w.rows then w else w.(rows := w.rows[id := Row(key, created, None, None, None, 0)])
  }

  function ClaimRows(rows: map<EventId, Row>, token: Token, picked: seq<EventId>,
                     expires: Time): (r: map<EventId, Row>) {
    map e | e in rows ::
      if e in picked
      then rows[e].(token := Some(token), expires := Some(expires), attempts := rows[e].attempts + 1)
      else rows[e]
  }

  predicate CanClaim(w: World, now: Time, token: Token, picked: seq<EventId>) {
    token !in w.batches && Distinct(picked) && forall e :: e in picked ==> Claimable(w.rows, e, now)
  }

  function ClaimBatch(w: World, now: Time, token: Token, picked: seq<EventId>, ttl: Time): (r: World) {
    if !CanClaim(w, now, token, picked) then w else
      w.(rows := ClaimRows(w.rows, token, picked, now + ttl),
         batches := w.batches[token := Batch(now, now + ttl, picked, 0, Idle)])
  }

  predicate CanCall(w: World, token: Token) {
    token in w.batches && w.batches[token].phase.Idle? && w.batches[token].next < |w.batches[token].events|
  }

  /**
   * Publish is called; the client may put several copies on the wire when it retries inside the call. A call that
   * sends nothing can only end in an error, which Fault does from here as well.
   */
  function CallPublish(w: World, now: Time, token: Token, copies: nat): (r: World) {
    if !CanCall(w, token) || copies == 0 then w else
      var b := w.batches[token];
      w.(wire := w.wire[b.events[b.next] := w.wire[b.events[b.next]] + copies],
         batches := w.batches[token := b.(phase := Calling(now))])
  }

  function LandCopy(w: World, event: EventId): (r: World) {
    if event !in w.wire then w else w.(wire := w.wire - multiset{event}, log := w.log + [event])
  }

  predicate CanReturn(w: World, token: Token) {
    && token in w.batches && w.batches[token].phase.Calling?
    && w.batches[token].next < |w.batches[token].events|
    && w.batches[token].events[w.batches[token].next] in w.log
  }

  /** Publish returns nil, which it does only once the broker has the event. */
  function ReturnNil(w: World, token: Token): (r: World) {
    if !CanReturn(w, token) then w else w.(batches := w.batches[token := w.batches[token].(phase := Delivered)])
  }

  function Release(rows: map<EventId, Row>, token: Token): (r: map<EventId, Row>) {
    map e | e in rows ::
      if rows[e].token == Some(token) && rows[e].published.None?
      then rows[e].(token := None, expires := None) else rows[e]
  }

  /** The error exits: claims are released unless the release itself fails. */
  function Stop(w: World, token: Token, released: bool): (r: World) {
    if token !in w.batches then w else
      w.(rows := if released then Release(w.rows, token) else w.rows,
         batches := w.batches[token := w.batches[token].(phase := Stopped)])
  }

  /** The acknowledgement finds the row unpublished and still claimed by this token. */
  predicate AckMatches(w: World, token: Token) {
    && token in w.batches && w.batches[token].next < |w.batches[token].events|
    && var e := w.batches[token].events[w.batches[token].next];
       e in w.rows && w.rows[e].published.None? && w.rows[e].token == Some(token)
  }

  /** `reported` is false when the update commits but its answer is lost. */
  function Acknowledge(w: World, now: Time, token: Token, reported: bool, released: bool): (r: World) {
    if !(token in w.batches && w.batches[token].phase.Delivered?) then w
    else if !AckMatches(w, token) then Stop(w, token, released)
    else
      var b := w.batches[token];
      var e := b.events[b.next];
      var done := w.(rows := w.rows[e := w.rows[e].(published := Some(now), token := None, expires := None)]);
      if reported then done.(batches := w.batches[token := b.(next := b.next + 1, phase := Idle)])
      else Stop(done, token, released)
  }

  function Effect(w: World, x: Timed): (r: World) {
    match x.move
    case Insert(id, key, created) => InsertEvent(w, id, key, created)
    case Claim(token, picked, ttl) => ClaimBatch(w, x.now, token, picked, ttl)
    case Call(token, copies) => CallPublish(w, x.now, token, copies)
    case Land(event) => LandCopy(w, event)
    case Return(token) => ReturnNil(w, token)
    case Ack(token, reported, released) => Acknowledge(w, x.now, token, reported, released)
    case Fault(token, released) => Stop(w, token, released)
    case Crash(token) => Stop(w, token, false)
  }

  function Apply(w: World, x: Timed): (r: World) {
    Effect(w, x).(clock := x.now)
  }

  // ---------------------------------------------------------------------
  // Order and no loss, under every interleaving
  // ---------------------------------------------------------------------

  /** The j-th event of a batch is unpublished and still under the claim of that batch. */
  ghost predicate Intact(w: World, token: Token, j: nat)
    requires token in w.batches && j < |w.batches[token].events|
  {
    var e := w.batches[token].events[j];
    e in w.rows && w.rows[e].published.None? && w.rows[e].token == Some(token)
  }

  /** The publisher may still call Publish for the i-th event of its batch: those before it can be acknowledged. */
  ghost predicate InHand(w: World, token: Token, i: nat, e: EventId) {
    && token in w.batches
    && var b := w.batches[token];
       && !b.phase.Stopped? && b.next <= i < |b.events| && b.events[i] == e
       && (i == b.next ==> b.phase.Idle?)
       && forall j :: b.next <= j < i ==> Intact(w, token, j)
  }

  /** In the log, on the wire, or in the hands of a publisher. */
  ghost predicate Underway(w: World, e: EventId) {
    e in w.log || e in w.wire || exists token, i :: InHand(w, token, i, e)
  }

  /**
   * The hypothesis on (created_at, id): a new event sorts after the events of its key that are underway or
   * logged. now() and a random uuid do not guarantee it.
   */
  ghost predicate InOrder(w: World, m: Move) {
    m.Insert? ==>
      forall e :: e in w.rows && w.rows[e].key == m.key && Underway(w, e) ==>
        w.rows[e].created < m.created || (w.rows[e].created == m.created && e < m.id)
  }

  ghost predicate Legal(w: World, xs: seq<Timed>)
    decreases |xs|
  {
    xs == [] || (w.clock <= xs[0].now && InOrder(w, xs[0].move) && Legal(Apply(w, xs[0]), xs[1..]))
  }

  ghost function After(w: World, xs: seq<Timed>): (r: World)
    decreases |xs|
  {
    if xs == [] then w else After(Apply(w, xs[0]), xs[1..])
  }

  ghost predicate Attempted(w: World, e: EventId) {
    e in w.rows && w.rows[e].attempts > 0
  }

  /** Whatever is underway has all earlier events of its key published. */
  ghost predicate HeadsFirst(w: World) {
    forall e, d :: Underway(w, e) && Precedes(w.rows, d, e) ==> w.rows[d].published.Some?
  }

  ghost predicate NoLoss(w: World) {
    forall e :: e in w.rows && w.rows[e].published.Some? ==> e in w.log
  }

  ghost predicate BatchOk(w: World, token: Token)
    requires token in w.batches
  {
    var b := w.batches[token];
    && Distinct(b.events)
    && (forall e :: e in b.events ==> Attempted(w, e))
    && (b.phase.Calling? || b.phase.Delivered? ==> b.next < |b.events|)
    && (b.phase.Calling? ==> b.events[b.next] in w.log || b.events[b.next] in w.wire)
    && (b.phase.Delivered? ==> b.events[b.next] in w.log)
  }

  ghost predicate Traceable(w: World) {
    && (forall e :: e in w.log ==> Attempted(w, e))
    && (forall e :: e in w.wire ==> Attempted(w, e))
    && (forall token :: token in w.batches ==> BatchOk(w, token))
  }

  /** Every entry of the log comes after entries for all earlier events of its key. */
  ghost predicate EntryOk(w: World, j: nat)
    requires j < |w.log|
  {
    forall d :: Precedes(w.rows, d, w.log[j]) ==> d in w.log[..j]
  }

  ghost predicate Ordered(w: World) {
    forall j :: 0 <= j < |w.log| ==> EntryOk(w, j)
  }

  ghost predicate Inv(w: World) {
    HeadsFirst(w) && NoLoss(w) && Traceable(w) && Ordered(w)
  }

  /** How rows may change: keys and times stay, claims are counted, publication is for good. */
  ghost predicate RowsKept(w: World, r: World) {
    && r.rows.Keys == w.rows.Keys
    && forall e :: e in w.rows ==>
         && r.rows[e].key == w.rows[e].key && r.rows[e].created == w.rows[e].created
         && r.rows[e].attempts >= w.rows[e].attempts
         && (w.rows[e].published.Some? ==> r.rows[e].published.Some?)
  }

  lemma KeptPrecedes(w: World, r: World, a: EventId, b: EventId)
    requires RowsKept(w, r)
    ensures Precedes(r.rows, a, b) <==> Precedes(w.rows, a, b)
  {}

  lemma OrderedKept(w: World, r: World)
    requires Ordered(w) && RowsKept(w, r) && r.log == w.log
    ensures Ordered(r)
  {
    forall j | 0 <= j < |r.log| ensures EntryOk(r, j) {
      assert EntryOk(w, j);
      forall d | Precedes(r.rows, d, r.log[j]) ensures d in r.log[..j] {
        KeptPrecedes(w, r, d, r.log[j]);
      }
    }
  }

  /** Nothing gets underway that was not. */
  lemma HeadsKept(w: World, r: World)
    requires HeadsFirst(w) && RowsKept(w, r)
    requires forall e :: e in r.log || e in r.wire ==> Underway(w, e)
    requires forall token, i, e :: InHand(r, token, i, e) ==> Underway(w, e)
    ensures HeadsFirst(r)
  {
    forall e, d | Underway(r, e) && Precedes(r.rows, d, e) ensures r.rows[d].published.Some? {
      KeptPrecedes(w, r, d, e);
      assert Underway(w, e);
    }
  }

  /** Claims of the batches in w can only go. */
  ghost predicate ClaimsFade(w: World, r: World) {
    forall e, t :: e in r.rows && t in w.batches && r.rows[e].published.None? && r.rows[e].token == Some(t) ==>
      e in w.rows && w.rows[e].published.None? && w.rows[e].token == Some(t)
  }

  lemma SameHand(w: World, r: World, token: Token, i: nat, e: EventId)
    requires InHand(r, token, i, e) && token in w.batches && r.batches[token] == w.batches[token]
    requires ClaimsFade(w, r)
    ensures InHand(w, token, i, e)
  {
    forall j | w.batches[token].next <= j < i ensures Intact(w, token, j) {
      assert Intact(r, token, j);
    }
  }

  lemma OtherBatchOk(w: World, r: World, token: Token)
    requires token in w.batches && BatchOk(w, token) && token in r.batches && r.batches[token] == w.batches[token]
    requires forall e :: Attempted(w, e) ==> Attempted(r, e)
    requires forall e :: e in w.log ==> e in r.log
    requires forall e :: e in w.wire ==> e in r.wire || e in r.log
    ensures BatchOk(r, token)
  {}

  lemma InsertKeepsHeads(w: World, id: EventId, key: Key, created: Time)
    requires Inv(w) && id !in w.rows && InOrder(w, Insert(id, key, created))
    ensures HeadsFirst(InsertEvent(w, id, key, created))
  {
    var r := InsertEvent(w, id, key, created);
    forall e, d | Underway(r, e) && Precedes(r.rows, d, e) ensures r.rows[d].published.Some? {
      InsertSameUnderway(w, r, id, e);
      assert d != id;
      assert Precedes(w.rows, d, e);
    }
  }

  lemma InsertSameUnderway(w: World, r: World, id: EventId, e: EventId)
    requires Traceable(w) && id !in w.rows && Underway(r, e)
    requires r.log == w.log && r.wire == w.wire && r.batches == w.batches && r.rows.Keys == w.rows.Keys + {id}
    requires forall i :: i in w.rows ==> r.rows[i] == w.rows[i]
    requires r.rows[id].token == None
    ensures Underway(w, e) && e in w.rows
  {
    if e !in w.log && e !in w.wire {
      var token, i :| InHand(r, token, i, e);
      assert ClaimsFade(w, r);
      SameHand(w, r, token, i, e);
      assert BatchOk(w, token) && e in w.batches[token].events;
    }
    assert e in w.log || e in w.wire ==> Attempted(w, e);
  }

  lemma InsertKeeps(w: World, id: EventId, key: Key, created: Time)
    requires Inv(w) && InOrder(w, Insert(id, key, created))
    ensures Inv(InsertEvent(w, id, key, created))
  {
    var r := InsertEvent(w, id, key, created);
    if id !in w.rows {
      InsertKeepsHeads(w, id, key, created);
      forall j | 0 <= j < |r.log| ensures EntryOk(r, j) {
        assert EntryOk(w, j) && w.log[j] in w.log && Attempted(w, w.log[j]) && Underway(w, w.log[j]);
        forall d | Precedes(r.rows, d, r.log[j]) ensures d in r.log[..j] {
          assert d != id;
          assert Precedes(w.rows, d, w.log[j]);
        }
      }
      forall token | token in r.batches ensures BatchOk(r, token) {
        OtherBatchOk(w, r, token);
      }
    }
  }

  lemma ClaimKeepsHeads(w: World, now: Time, token: Token, picked: seq<EventId>, ttl: Time)
    requires HeadsFirst(w) && CanClaim(w, now, token, picked)
    ensures HeadsFirst(ClaimBatch(w, now, token, picked, ttl))
  {
    var r := ClaimBatch(w, now, token, picked, ttl);
    assert RowsKept(w, r) && ClaimsFade(w, r);
    forall e, d | Underway(r, e) && Precedes(r.rows, d, e) ensures r.rows[d].published.Some? {
      KeptPrecedes(w, r, d, e);
      if e in picked {
        assert Claimable(w.rows, e, now);
      } else if e !in w.log && e !in w.wire {
        var t, i :| InHand(r, t, i, e);
        assert t != token;
        SameHand(w, r, t, i, e);
        assert Underway(w, e);
      } else {
        assert Underway(w, e);
      }
    }
  }

  lemma ClaimKeeps(w: World, now: Time, token: Token, picked: seq<EventId>, ttl: Time)
    requires Inv(w)
    ensures Inv(ClaimBatch(w, now, token, picked, ttl))
  {
    var r := ClaimBatch(w, now, token, picked, ttl);
    if CanClaim(w, now, token, picked) {
      assert RowsKept(w, r);
      ClaimKeepsHeads(w, now, token, picked, ttl);
      OrderedKept(w, r);
      forall t | t in r.batches ensures BatchOk(r, t) {
        if t == token {
          assert forall e :: e in picked ==> Claimable(w.rows, e, now);
        } else {
          OtherBatchOk(w, r, t);
        }
      }
    }
  }

  /** A batch that has been called at its next event has the rest in hand as before. */
  lemma CalledHand(w: World, r: World, token: Token, i: nat, e: EventId)
    requires InHand(r, token, i, e) && token in w.batches && r.rows == w.rows
    requires r.batches[token] == w.batches[token].(phase := r.batches[token].phase)
    requires !r.batches[token].phase.Idle? && !w.batches[token].phase.Stopped?
    ensures InHand(w, token, i, e)
  {
    forall j | w.batches[token].next <= j < i ensures Intact(w, token, j) {
      assert Intact(r, token, j);
    }
  }

  lemma CallKeepsHeads(w: World, now: Time, token: Token, copies: nat)
    requires HeadsFirst(w) && CanCall(w, token) && copies > 0
    ensures HeadsFirst(CallPublish(w, now, token, copies))
  {
    var r := CallPublish(w, now, token, copies);
    var b := w.batches[token];
    assert InHand(w, token, b.next, b.events[b.next]);
    forall e | e in r.log || e in r.wire ensures Underway(w, e) {
      assert e in w.log || e in w.wire || e == b.events[b.next];
    }
    forall t, i, e | InHand(r, t, i, e) ensures Underway(w, e) {
      if t == token {
        CalledHand(w, r, t, i, e);
      } else {
        SameHand(w, r, t, i, e);
      }
    }
    HeadsKept(w, r);
  }

  lemma CallKeeps(w: World, now: Time, token: Token, copies: nat)
    requires Inv(w)
    ensures Inv(CallPublish(w, now, token, copies))
  {
    var r := CallPublish(w, now, token, copies);
    if CanCall(w, token) && copies > 0 {
      CallKeepsHeads(w, now, token, copies);
      OrderedKept(w, r);
      assert BatchOk(w, token);
      var b := w.batches[token];
      forall e | e in r.wire ensures Attempted(r, e) {
        assert e in w.wire || e == b.events[b.next];
        assert b.events[b.next] in b.events;
      }
      forall t | t in r.batches ensures BatchOk(r, t) {
        if t != token {
          OtherBatchOk(w, r, t);
        }
      }
    }
  }

  lemma LandKeepsHeads(w: World, event: EventId)
    requires HeadsFirst(w) && event in w.wire
    ensures HeadsFirst(LandCopy(w, event))
  {
    var r := LandCopy(w, event);
    forall t, i, e | InHand(r, t, i, e) ensures Underway(w, e) {
      SameHand(w, r, t, i, e);
    }
    HeadsKept(w, r);
  }

  lemma LandKeeps(w: World, event: EventId)
    requires Inv(w)
    ensures Inv(LandCopy(w, event))
  {
    var r := LandCopy(w, event);
    if event in w.wire {
      LandKeepsHeads(w, event);
      forall j | 0 <= j < |r.log| ensures EntryOk(r, j) {
        if j < |w.log| {
          assert EntryOk(w, j) && r.log[..j] == w.log[..j];
        } else {
          assert r.log[..j] == w.log && r.log[j] == event;
          assert Underway(w, event);
        }
      }
      forall t | t in r.batches ensures BatchOk(r, t) {
        OtherBatchOk(w, r, t);
      }
    }
  }

  lemma ReturnKeeps(w: World, token: Token)
    requires Inv(w)
    ensures Inv(ReturnNil(w, token))
  {
    var r := ReturnNil(w, token);
    if CanReturn(w, token) {
      forall t, i, e | InHand(r, t, i, e) ensures Underway(w, e) {
        if t == token {
          CalledHand(w, r, t, i, e);
        } else {
          SameHand(w, r, t, i, e);
        }
      }
      HeadsKept(w, r);
      OrderedKept(w, r);
      assert BatchOk(w, token);
      forall t | t in r.batches ensures BatchOk(r, t) {
        if t != token {
          OtherBatchOk(w, r, t);
        }
      }
    }
  }

  /** A batch stops; rows may have been published or released. */
  lemma StoppedKeeps(w: World, r: World, token: Token)
    requires Inv(w) && token in w.batches && RowsKept(w, r) && ClaimsFade(w, r) && NoLoss(r)
    requires r.log == w.log && r.wire == w.wire
    requires r.batches == w.batches[token := w.batches[token].(phase := Stopped)]
    ensures Inv(r)
  {
    forall t, i, e | InHand(r, t, i, e) ensures Underway(w, e) {
      assert t != token;
      SameHand(w, r, t, i, e);
    }
    HeadsKept(w, r);
    OrderedKept(w, r);
    assert BatchOk(w, token);
    forall t | t in r.batches ensures BatchOk(r, t) {
      if t != token {
        OtherBatchOk(w, r, t);
      }
    }
  }

  lemma StopKeeps(w: World, token: Token, released: bool)
    requires Inv(w)
    ensures Inv(Stop(w, token, released))
  {
    if token in w.batches {
      StoppedKeeps(w, Stop(w, token, released), token);
    }
  }

  lemma AdvancedHand(w: World, r: World, token: Token, i: nat, e: EventId)
    requires InHand(r, token, i, e) && token in w.batches && AckMatches(w, token) && !w.batches[token].phase.Stopped?
    requires r.batches[token] == w.batches[token].(next := w.batches[token].next + 1, phase := Idle)
    requires ClaimsFade(w, r)
    ensures InHand(w, token, i, e)
  {
    var b := w.batches[token];
    forall j | b.next <= j < i ensures Intact(w, token, j) {
      if j > b.next {
        assert Intact(r, token, j);
      }
    }
  }

  lemma AckedKeepsHeads(w: World, now: Time, token: Token, r: World)
    requires Inv(w) && token in w.batches && w.batches[token].phase.Delivered? && AckMatches(w, token)
    requires r == Acknowledge(w, now, token, true, true)
    ensures HeadsFirst(r)
  {
    forall t, i, e | InHand(r, t, i, e) ensures Underway(w, e) {
      if t == token {
        AdvancedHand(w, r, t, i, e);
      } else {
        SameHand(w, r, t, i, e);
      }
    }
    HeadsKept(w, r);
  }

  lemma AckedKeeps(w: World, now: Time, token: Token, r: World)
    requires Inv(w) && token in w.batches && w.batches[token].phase.Delivered? && AckMatches(w, token)
    requires r == Acknowledge(w, now, token, true, true)
    ensures Inv(r)
  {
    AckedKeepsHeads(w, now, token, r);
    OrderedKept(w, r);
    assert BatchOk(w, token);
    forall t | t in r.batches ensures BatchOk(r, t) {
      if t != token {
        OtherBatchOk(w, r, t);
      }
    }
  }

  lemma UnreportedKeeps(w: World, now: Time, token: Token, released: bool, r: World)
    requires Inv(w) && token in w.batches && w.batches[token].phase.Delivered? && AckMatches(w, token)
    requires r == Acknowledge(w, now, token, false, released)
    ensures Inv(r)
  {
    assert BatchOk(w, token);
    StoppedKeeps(w, r, token);
  }

  lemma AckKeeps(w: World, now: Time, token: Token, reported: bool, released: bool)
    requires Inv(w)
    ensures Inv(Acknowledge(w, now, token, reported, released))
  {
    var r := Acknowledge(w, now, token, reported, released);
    if token in w.batches && w.batches[token].phase.Delivered? {
      if !AckMatches(w, token) {
        StopKeeps(w, token, released);
      } else if reported {
        AckedKeeps(w, now, token, r);
      } else {
        UnreportedKeeps(w, now, token, released, r);
      }
    }
  }

  lemma ClockFree(w: World, now: Time)
    requires Inv(w)
    ensures Inv(w.(clock := now))
  {
    var r := w.(clock := now);
    forall t, i, e | InHand(r, t, i, e) ensures Underway(w, e) {
      SameHand(w, r, t, i, e);
    }
    HeadsKept(w, r);
    OrderedKept(w, r);
    forall t | t in r.batches ensures BatchOk(r, t) {
      OtherBatchOk(w, r, t);
    }
  }

  lemma MoveKeeps(w: World, x: Timed)
    requires Inv(w) && InOrder(w, x.move)
    ensures Inv(Apply(w, x))
  {
    match x.move {
      case Insert(id, key, created) => InsertKeeps(w, id, key, created);
      case Claim(token, picked, ttl) => ClaimKeeps(w, x.now, token, picked, ttl);
      case Call(token, copies) => CallKeeps(w, x.now, token, copies);
      case Land(event) => LandKeeps(w, event);
      case Return(token) => ReturnKeeps(w, token);
      case Ack(token, reported, released) => AckKeeps(w, x.now, token, reported, released);
      case Fault(token, released) => StopKeeps(w, token, released);
      case Crash(token) => StopKeeps(w, token, false);
    }
    ClockFree(Effect(w, x), x.now);
  }

  lemma {:induction false} RunKeeps(w: World, xs: seq<Timed>)
    requires Inv(w) && Legal(w, xs)
    ensures Inv(After(w, xs))
    decreases |xs|
  {
    if xs != [] {
      MoveKeeps(w, xs[0]);
      RunKeeps(Apply(w, xs[0]), xs[1..]);
    }
  }

  /** The position where an event first appears in the log. */
  ghost predicate FirstAt(log: seq<EventId>, e: EventId, i: nat) {
    i < |log| && log[i] == e && e !in log[..i]
  }

  /**
   * Order and no loss: for every interleaving of inserts, publishers, crashes, late landings, lost
   * and released claims, the events of one key first reach the log in (created_at, id) order and
   * without gaps, and an event marked published is in the log.
   */
  lemma OrderAndNoLoss(xs: seq<Timed>, a: EventId, b: EventId, j: nat)
    requires Legal(START, xs)
    requires Precedes(After(START, xs).rows, a, b) && FirstAt(After(START, xs).log, b, j)
    ensures exists i: nat :: FirstAt(After(START, xs).log, a, i) && i < j
    ensures forall e :: e in After(START, xs).rows && After(START, xs).rows[e].published.Some? ==>
              e in After(START, xs).log
  {
    RunKeeps(START, xs);
    var w := After(START, xs);
    assert EntryOk(w, j);
    var i := First(w.log[..j], a);
    assert w.log[..j][..i] == w.log[..i];
    assert FirstAt(w.log, a, i);
  }

  lemma {:induction false} First(log: seq<EventId>, e: EventId) returns (i: nat)
    requires e in log
    ensures FirstAt(log, e, i)
  {
    if log[0] == e {
      i := 0;
    } else {
      assert e in log[1..];
      var k := First(log[1..], e);
      i := k + 1;
      assert log[..i] == [log[0]] + log[1..][..k];
    }
  }

  // ---------------------------------------------------------------------
  // Duplicates
  // ---------------------------------------------------------------------

  ghost function Occurrences(log: seq<EventId>, e: EventId): (n: nat) {
    multiset(log)[e]
  }

  /** The publishers that have claimed an event and not called Publish for it. */
  ghost function Owing(w: World, e: EventId): (ts: set<Token>) {
    set t | t in w.batches && Owes(w.batches[t], e)
  }

  ghost predicate Owes(b: Batch, e: EventId) {
    exists i :: 0 <= i < |b.events| && b.events[i] == e && (i > b.next || (i == b.next && b.phase.Idle?))
  }

  /** Copies in the log, on the wire and still to be sent never exceed `k` per claim. */
  ghost predicate Accounted(w: World, k: nat, e: EventId)
    requires e in w.rows
  {
    Occurrences(w.log, e) + w.wire[e] + k * |Owing(w, e)| <= k * w.rows[e].attempts
  }

  ghost predicate Ledger(w: World, k: nat) {
    forall e :: e in w.rows ==> Accounted(w, k, e)
  }

  /** No call puts more than k copies on the wire. */
  ghost predicate Bounded(m: Move, k: nat) {
    m.Call? ==> m.copies <= k
  }

  lemma FewerOwing(w: World, r: World, k: nat, e: EventId)
    requires e in w.rows && e in r.rows && Accounted(w, k, e)
    requires Owing(r, e) <= Owing(w, e) && r.rows[e].attempts == w.rows[e].attempts
    requires Occurrences(r.log, e) + r.wire[e] <= Occurrences(w.log, e) + w.wire[e]
    ensures Accounted(r, k, e)
  {
    Subset(Owing(r, e), Owing(w, e));
    Scale(k, |Owing(r, e)|, |Owing(w, e)|);
  }

  lemma Subset(a: set<Token>, b: set<Token>)
    requires a <= b
    ensures |a| <= |b|
  {
    assert a + (b - a) == b;
  }

  lemma Scale(k: nat, a: nat, b: nat)
    requires a <= b
    ensures k * a <= k * b
  {}

  lemma ClaimOwing(w: World, now: Time, token: Token, picked: seq<EventId>, ttl: Time, e: EventId)
    requires CanClaim(w, now, token, picked)
    ensures Owing(ClaimBatch(w, now, token, picked, ttl), e) == Owing(w, e) + if e in picked then {token} else {}
  {
    var r := ClaimBatch(w, now, token, picked, ttl);
    if e in picked {
      var i :| 0 <= i < |picked| && picked[i] == e;
      assert Owes(r.batches[token], e);
    } else {
      assert !Owes(r.batches[token], e);
    }
  }

  lemma OneMore(k: nat, n: nat)
    ensures k * (n + 1) == k * n + k
  {}

  lemma ClaimCounts(w: World, now: Time, token: Token, picked: seq<EventId>, ttl: Time, k: nat, e: EventId)
    requires CanClaim(w, now, token, picked) && e in w.rows && Accounted(w, k, e)
    ensures Accounted(ClaimBatch(w, now, token, picked, ttl), k, e)
  {
    ClaimOwing(w, now, token, picked, ttl, e);
    if e in picked {
      assert token !in Owing(w, e);
      OneMore(k, |Owing(w, e)|);
      OneMore(k, w.rows[e].attempts);
    }
  }

  lemma CallCounts(w: World, now: Time, token: Token, copies: nat, k: nat, e: EventId)
    requires CanCall(w, token) && BatchOk(w, token) && 0 < copies <= k && e in w.rows && Accounted(w, k, e)
    ensures Accounted(CallPublish(w, now, token, copies), k, e)
  {
    var r := CallPublish(w, now, token, copies);
    var b := w.batches[token];
    assert Owing(r, e) <= Owing(w, e) by {
      forall t | t in Owing(r, e) ensures t in Owing(w, e) {
        assert Owes(r.batches[t], e);
        if t == token {
          var i :| 0 <= i < |b.events| && b.events[i] == e && i > b.next;
          assert Owes(b, e);
        }
      }
    }
    if e == b.events[b.next] {
      assert Owes(b, e) && token in Owing(w, e);
      assert !Owes(r.batches[token], e);
      Subset(Owing(r, e), Owing(w, e) - {token});
      Scale(k, |Owing(r, e)|, |Owing(w, e)| - 1);
      assert k * (|Owing(w, e)| - 1) == k * |Owing(w, e)| - k;
    } else {
      FewerOwing(w, r, k, e);
    }
  }

  lemma LandCounts(w: World, event: EventId, k: nat, e: EventId)
    requires e in w.rows && Accounted(w, k, e)
    ensures Accounted(LandCopy(w, event), k, e)
  {
    assert Owing(LandCopy(w, event), e) == Owing(w, e);
  }

  lemma StopCounts(w: World, token: Token, released: bool, k: nat, e: EventId)
    requires e in w.rows && Accounted(w, k, e)
    ensures Accounted(Stop(w, token, released), k, e)
  {
    var r := Stop(w, token, released);
    forall t | t in Owing(r, e) ensures t in Owing(w, e) {
      assert Owes(r.batches[t], e) ==> Owes(w.batches[t], e);
    }
    FewerOwing(w, r, k, e);
  }

  lemma AdvanceCounts(w: World, r: World, token: Token, k: nat, e: EventId)
    requires token in w.batches && e in w.rows && e in r.rows && Accounted(w, k, e)
    requires w.batches[token].phase.Calling? || w.batches[token].phase.Delivered?
    requires token in r.batches
    requires r.batches ==
             w.batches[token := w.batches[token].(next := r.batches[token].next, phase := r.batches[token].phase)]
    requires (r.batches[token].next == w.batches[token].next && !r.batches[token].phase.Idle?)
             || r.batches[token].next == w.batches[token].next + 1
    requires r.log == w.log && r.wire == w.wire && r.rows[e].attempts == w.rows[e].attempts
    ensures Accounted(r, k, e)
  {
    forall t | t in Owing(r, e) ensures t in Owing(w, e) {
      assert Owes(r.batches[t], e);
      if t == token {
        var b := r.batches[t];
        var i :| 0 <= i < |b.events| && b.events[i] == e && (i > b.next || (i == b.next && b.phase.Idle?));
        assert i > w.batches[t].next;
        assert Owes(w.batches[t], e);
      }
    }
    FewerOwing(w, r, k, e);
  }

  lemma AckCounts(w: World, now: Time, token: Token, reported: bool, released: bool, k: nat, e: EventId)
    requires e in w.rows && Accounted(w, k, e)
    ensures Accounted(Acknowledge(w, now, token, reported, released), k, e)
  {
    if token in w.batches && w.batches[token].phase.Delivered? {
      if AckMatches(w, token) {
        var b := w.batches[token];
        var f := b.events[b.next];
        var done := w.(rows := w.rows[f := w.rows[f].(published := Some(now), token := None, expires := None)]);
        assert Owing(done, e) == Owing(w, e);
        if reported {
          AdvanceCounts(done, Acknowledge(w, now, token, reported, released), token, k, e);
        } else {
          StopCounts(done, token, released, k, e);
        }
      } else {
        StopCounts(w, token, released, k, e);
      }
    }
  }

  lemma NewEventCounts(w: World, r: World, k: nat, e: EventId)
    requires Traceable(w) && e !in w.rows && e in r.rows
    requires r.log == w.log && r.wire == w.wire && r.batches == w.batches
    ensures Accounted(r, k, e)
  {
    assert e !in w.log && e !in w.wire;
    assert Owing(r, e) == {} by {
      forall t | t in w.batches ensures !Owes(w.batches[t], e) {
        assert BatchOk(w, t);
        assert e !in w.batches[t].events;
      }
    }
  }

  lemma PublisherCounts(w: World, x: Timed, k: nat, e: EventId)
    requires Traceable(w) && e in w.rows && Accounted(w, k, e) && Bounded(x.move, k)
    requires x.move.Claim? || x.move.Call? || x.move.Return?
    ensures e in Effect(w, x).rows && Accounted(Effect(w, x), k, e)
  {
    match x.move
    case Claim(token, picked, ttl) =>
      if CanClaim(w, x.now, token, picked) {
        ClaimCounts(w, x.now, token, picked, ttl, k, e);
      }
    case Call(token, copies) =>
      if CanCall(w, token) && copies > 0 {
        assert BatchOk(w, token);
        CallCounts(w, x.now, token, copies, k, e);
      }
    case Return(token) =>
      if CanReturn(w, token) {
        AdvanceCounts(w, ReturnNil(w, token), token, k, e);
      }
  }

  lemma StoppingCounts(w: World, x: Timed, k: nat, e: EventId)
    requires e in w.rows && Accounted(w, k, e) && (x.move.Ack? || x.move.Fault? || x.move.Crash?)
    ensures e in Effect(w, x).rows && Accounted(Effect(w, x), k, e)
  {
    match x.move
    case Ack(token, reported, released) => AckCounts(w, x.now, token, reported, released, k, e);
    case Fault(token, released) => StopCounts(w, token, released, k, e);
    case Crash(token) => StopCounts(w, token, false, k, e);
  }

  lemma OtherCounts(w: World, x: Timed, k: nat, e: EventId)
    requires e in w.rows && Accounted(w, k, e) && (x.move.Insert? || x.move.Land?)
    ensures e in Effect(w, x).rows && Accounted(Effect(w, x), k, e)
  {
    match x.move
    case Insert(id, key, created) => assert Owing(Effect(w, x), e) == Owing(w, e);
    case Land(event) => LandCounts(w, event, k, e);
  }

  lemma OnlyInsertAdds(w: World, x: Timed)
    ensures !x.move.Insert? ==> Effect(w, x).rows.Keys == w.rows.Keys
    ensures x.move.Insert? ==>
              Effect(w, x).log == w.log && Effect(w, x).wire == w.wire && Effect(w, x).batches == w.batches
  {}

  lemma MoveCounts(w: World, x: Timed, k: nat)
    requires Traceable(w) && Ledger(w, k) && Bounded(x.move, k)
    ensures Ledger(Apply(w, x), k)
  {
    OnlyInsertAdds(w, x);
    forall e | e in Effect(w, x).rows ensures Accounted(Apply(w, x), k, e) {
      if e !in w.rows {
        NewEventCounts(w, Effect(w, x), k, e);
      } else if x.move.Claim? || x.move.Call? || x.move.Return? {
        PublisherCounts(w, x, k, e);
      } else if x.move.Ack? || x.move.Fault? || x.move.Crash? {
        StoppingCounts(w, x, k, e);
      } else {
        OtherCounts(w, x, k, e);
      }
      assert Owing(Apply(w, x), e) == Owing(Effect(w, x), e);
    }
  }

  lemma {:induction false} RunCounts(w: World, xs: seq<Timed>, k: nat)
    requires Inv(w) && Legal(w, xs) && Ledger(w, k)
    requires forall x :: x in xs ==> Bounded(x.move, k)
    ensures Ledger(After(w, xs), k)
    decreases |xs|
  {
    if xs != [] {
      MoveKeeps(w, xs[0]);
      MoveCounts(w, xs[0], k);
      RunCounts(Apply(w, xs[0]), xs[1..], k);
    }
  }

  lemma AccountedBounds(w: World, k: nat, e: EventId)
    requires e in w.rows && Accounted(w, k, e)
    ensures Occurrences(w.log, e) <= k * w.rows[e].attempts
  {
    Scale(k, 0, |Owing(w, e)|);
  }

  /** When a call lands at most k copies, an event occurs at most k times per publish_attempts. */
  lemma DuplicatesAreBounded(xs: seq<Timed>, k: nat, e: EventId)
    requires Legal(START, xs) && (forall x :: x in xs ==> Bounded(x.move, k)) && e in After(START, xs).rows
    ensures Occurrences(After(START, xs).log, e) <= k * After(START, xs).rows[e].attempts
  {
    RunCounts(START, xs, k);
    AccountedBounds(After(START, xs), k, e);
  }
}
