/** What the hypothesis on inserts is worth: when an insert keeps the order, and what a late one does to it. */
module OutboxInserts {
  import opened TaskStates
  import opened Outbox
  import opened OutboxTiming

  // ---------------------------------------------------------------------
  // One insert, exactly
  // ---------------------------------------------------------------------

  /** An insert keeps the order if and only if no logged event of its key sorts after the new one. */
  lemma InsertKeepsOrderExactly(w: World, id: EventId, key: Key, created: Time)
    requires Inv(w) && id !in w.rows
    ensures var r := InsertEvent(w, id, key, created);
            Ordered(r) <==> forall e :: e in w.log ==> !Precedes(r.rows, id, e)
  {
    var r := InsertEvent(w, id, key, created);
    forall j | 0 <= j < |r.log|
      ensures EntryOk(r, j) <==> !Precedes(r.rows, id, r.log[j])
    {
      EntryAfterInsert(w, id, key, created, j);
    }
    if Ordered(r) {
      forall e | e in w.log ensures !Precedes(r.rows, id, e) {
        var j :| 0 <= j < |w.log| && w.log[j] == e;
        assert EntryOk(r, j);
      }
    }
  }

  lemma EntryAfterInsert(w: World, id: EventId, key: Key, created: Time, j: nat)
    requires Inv(w) && id !in w.rows && j < |w.log|
    ensures var r := InsertEvent(w, id, key, created);
            EntryOk(r, j) <==> !Precedes(r.rows, id, r.log[j])
  {
    var r := InsertEvent(w, id, key, created);
    assert w.log[j] in w.log && Attempted(w, w.log[j]) && EntryOk(w, j);
    forall d | d in w.rows ensures Precedes(r.rows, d, r.log[j]) <==> Precedes(w.rows, d, w.log[j]) {
    }
    assert id !in w.log;
  }

  lemma StillUnderway(w: World, id: EventId, key: Key, created: Time, e: EventId)
    requires id !in w.rows && Underway(w, e)
    ensures Underway(InsertEvent(w, id, key, created), e)
  {
    var r := InsertEvent(w, id, key, created);
    if e !in w.log && e !in w.wire {
      var token, i :| InHand(w, token, i, e);
      forall j | r.batches[token].next <= j < i ensures Intact(r, token, j) {
        assert Intact(w, token, j);
      }
      assert InHand(r, token, i, e);
    }
  }

  /** It keeps the whole invariant if and only if no event of its key that is underway or logged sorts after it. */
  lemma InsertKeepsInvExactly(w: World, id: EventId, key: Key, created: Time)
    requires Inv(w) && id !in w.rows
    ensures Inv(InsertEvent(w, id, key, created)) <==> InOrder(w, Insert(id, key, created))
  {
    var r := InsertEvent(w, id, key, created);
    if InOrder(w, Insert(id, key, created)) {
      InsertKeeps(w, id, key, created);
    } else {
      var e := OutOfOrder(w, id, key, created);
      StillUnderway(w, id, key, created, e);
      assert r.rows[id].published.None?;
    }
  }

  lemma OutOfOrder(w: World, id: EventId, key: Key, created: Time) returns (e: EventId)
    requires id !in w.rows && !InOrder(w, Insert(id, key, created))
    ensures e in w.rows && Underway(w, e) && Precedes(InsertEvent(w, id, key, created).rows, id, e)
  {
    e :| e in w.rows && w.rows[e].key == key && Underway(w, e)
         && !(w.rows[e].created < created || (w.rows[e].created == created && e < id));
  }

  // ---------------------------------------------------------------------
  // Late inserts
  // ---------------------------------------------------------------------

  /** The entry at j came before the earlier event d. */
  ghost predicate Overtaken(w: World, d: EventId, j: nat) {
    j < |w.log| && d !in w.log[..j] && Precedes(w.rows, d, w.log[j])
  }

  lemma StaysOvertaken(w: World, x: Timed, d: EventId, j: nat)
    requires Overtaken(w, d, j)
    ensures Overtaken(Apply(w, x), d, j)
  {
    var r := Apply(w, x);
    SameColumns(w, x, d);
    SameColumns(w, x, w.log[j]);
    assert r.log[..j] == w.log[..j] && r.log[j] == w.log[j];
  }

  lemma {:induction false} OvertakenForGood(w: World, xs: seq<Timed>, d: EventId, j: nat)
    requires Overtaken(w, d, j)
    ensures Overtaken(After(w, xs), d, j)
    decreases |xs|
  {
    if xs != [] {
      StaysOvertaken(w, xs[0], d, j);
      OvertakenForGood(Apply(w, xs[0]), xs[1..], d, j);
    }
  }

  /** An event that sorts before a logged one and is not in the log: no moves at all restore the order. */
  lemma LateInsertBreaksOrder(w: World, xs: seq<Timed>, d: EventId, e: EventId)
    requires Precedes(w.rows, d, e) && e in w.log && d !in w.log
    ensures !Ordered(After(w, xs))
  {
    var j :| 0 <= j < |w.log| && w.log[j] == e;
    assert d !in w.log[..j];
    OvertakenForGood(w, xs, d, j);
    assert !EntryOk(After(w, xs), j);
  }

  /** Event 1 is claimed and on its way to the broker. */
  lemma OneOnItsWay(c: Config) returns (xs: seq<Timed>, w: World)
    requires c.size >= 1 && c.ttl > 0
    ensures Reaches(xs, w, c)
    ensures w == World(map[1 := Row(0, 1, None, Some(0), Some(c.ttl), 1)], [], multiset{1},
                       map[0 := Batch(0, c.ttl, [1], 0, Calling(0))], 0)
  {
    xs, w := [], START;
    xs, w := Then(xs, w, At(0, Insert(1, 0, 1)), c);
    assert Claimable(w.rows, 1, 0);
    ClaimOne(w.rows, 0, 1, c.ttl);
    xs, w := ThenClaim(xs, w, 0, 0, [1], c);
    xs, w := ThenCall(xs, w, 0, 0, c);
    assert w.wire == multiset{1};
    assert w.rows == map[1 := Row(0, 1, None, Some(0), Some(c.ttl), 1)];
  }

  lemma LateInsertLands(w: World, late: Timed, land: Timed, r: World)
    requires w.rows == map[1 := Row(0, 1, None, Some(0), Some(1), 1)] && w.log == [] && w.wire == multiset{1}
    requires late == At(0, Insert(0, 0, 0)) && land == At(0, Land(1)) && r == Apply(Apply(w, late), land)
    ensures !InOrder(w, late.move)
    ensures Precedes(r.rows, 0, 1) && r.log == [1]
  {
    assert !InOrder(w, late.move) by {
      assert 1 in w.rows && w.rows[1].key == 0 && Underway(w, 1);
    }
  }

  /**
   * An execution in which everything but the order of inserts is as it should be: event 0 is inserted while
   * event 1 of its key is on its way, and the log is out of order from the landing of that on.
   */
  lemma LateInsertHappens() returns (xs: seq<Timed>, late: Timed, land: Timed)
    ensures Legal(START, xs) && !InOrder(After(START, xs), late.move)
    ensures After(START, xs).clock <= late.now <= land.now && InOrder(Apply(After(START, xs), late), land.move)
    ensures Inv(After(START, xs))
    ensures forall ys :: !Ordered(After(Apply(Apply(After(START, xs), late), land), ys))
  {
    var w;
    xs, w := OneOnItsWay(Config(1, 0, 1, true));
    RunKeeps(START, xs);
    late, land := At(0, Insert(0, 0, 0)), At(0, Land(1));
    var r := Apply(Apply(w, late), land);
    LateInsertLands(w, late, land, r);
    forall ys ensures !Ordered(After(r, ys)) {
      LateInsertBreaksOrder(r, ys, 0, 1);
    }
  }

  // ---------------------------------------------------------------------
  // The hypothesis on inserts is exact
  // ---------------------------------------------------------------------

  /** The publisher can bring e into the log before the earlier event d, which is not there. */
  ghost predicate Aimed(w: World, token: Token, i: nat, e: EventId, d: EventId) {
    && InHand(w, token, i, e) && Precedes(w.rows, d, e) && d !in w.log
    && var b := w.batches[token];
       && Distinct(b.events) && d !in b.events
       && (b.phase.Calling? ==> b.events[b.next] in w.log || b.events[b.next] in w.wire)
       && (b.phase.Delivered? ==> b.events[b.next] in w.log)
  }

  lemma SameIntact(w: World, r: World, token: Token, i: nat)
    requires token in w.batches && token in r.batches && r.batches[token].events == w.batches[token].events
    requires r.batches[token].next >= w.batches[token].next && i <= |w.batches[token].events|
    requires forall j :: w.batches[token].next <= j < i ==> Intact(w, token, j)
    requires forall j :: r.batches[token].next <= j < i ==>
               var e := w.batches[token].events[j];
               e in w.rows ==> e in r.rows && r.rows[e] == w.rows[e]
    ensures forall j :: r.batches[token].next <= j < i ==> Intact(r, token, j)
  {
    forall j | r.batches[token].next <= j < i ensures Intact(r, token, j) {
      assert Intact(w, token, j);
    }
  }

  lemma AimedCall(w: World, token: Token, i: nat, e: EventId, d: EventId, r: World)
    requires Aimed(w, token, i, e, d) && w.batches[token].phase.Idle? && w.batches[token].next < i
    requires r == Apply(w, At(w.clock, Call(token, 1)))
    ensures Aimed(r, token, i, e, d)
    ensures r.batches[token].phase.Calling? && r.batches[token].next == w.batches[token].next
  {
    SameIntact(w, r, token, i);
  }

  lemma AimedLand(w: World, token: Token, i: nat, e: EventId, d: EventId, r: World)
    requires Aimed(w, token, i, e, d) && w.batches[token].phase.Calling?
    requires w.batches[token].events[w.batches[token].next] in w.wire
    requires r == Apply(w, At(w.clock, Land(w.batches[token].events[w.batches[token].next])))
    ensures Aimed(r, token, i, e, d) && r.batches == w.batches
    ensures r.batches[token].events[r.batches[token].next] in r.log
  {
    SameIntact(w, r, token, i);
    var f := w.batches[token].events[w.batches[token].next];
    assert f in w.batches[token].events && r.log == w.log + [f];
  }

  lemma AimedReturn(w: World, token: Token, i: nat, e: EventId, d: EventId, r: World)
    requires Aimed(w, token, i, e, d) && w.batches[token].phase.Calling?
    requires w.batches[token].events[w.batches[token].next] in w.log
    requires r == Apply(w, At(w.clock, Return(token)))
    ensures Aimed(r, token, i, e, d)
    ensures r.batches[token].phase.Delivered? && r.batches[token].next == w.batches[token].next
  {
    SameIntact(w, r, token, i);
  }

  lemma AimedAck(w: World, token: Token, i: nat, e: EventId, d: EventId, r: World)
    requires Aimed(w, token, i, e, d) && w.batches[token].phase.Delivered?
    requires r == Apply(w, At(w.clock, Ack(token, true, true)))
    ensures Aimed(r, token, i, e, d) && r.batches[token].next == w.batches[token].next + 1
  {
    assert Intact(w, token, w.batches[token].next);
    assert AckMatches(w, token);
    forall j | w.batches[token].next < j < i
      ensures var f := w.batches[token].events[j]; f in w.rows ==> f in r.rows && r.rows[f] == w.rows[f]
    {
      assert Intact(w, token, j);
    }
    SameIntact(w, r, token, i);
  }

  /** The next thing the publisher and the broker do. */
  lemma AimedStep(w: World, token: Token, i: nat, e: EventId, d: EventId) returns (m: Move)
    requires Aimed(w, token, i, e, d) && w.batches[token].next < i
    ensures !m.Insert? && Aimed(Apply(w, At(w.clock, m)), token, i, e, d)
    ensures Left(Apply(w, At(w.clock, m)), token, i) < Left(w, token, i)
  {
    var b := w.batches[token];
    if b.phase.Idle? {
      m := Call(token, 1);
      AimedCall(w, token, i, e, d, Apply(w, At(w.clock, m)));
    } else if b.phase.Delivered? {
      m := Ack(token, true, true);
      AimedAck(w, token, i, e, d, Apply(w, At(w.clock, m)));
    } else if b.events[b.next] in w.log {
      m := Return(token);
      AimedReturn(w, token, i, e, d, Apply(w, At(w.clock, m)));
    } else {
      m := Land(b.events[b.next]);
      AimedLand(w, token, i, e, d, Apply(w, At(w.clock, m)));
    }
  }

  /** How many moves are left before the publisher calls for its i-th event. */
  ghost function Left(w: World, token: Token, i: nat): (n: int)
    requires token in w.batches
  {
    var b := w.batches[token];
    4 * (i - b.next) -
    match b.phase
    case Idle => 0
    case Calling(_) => if b.next < |b.events| && b.events[b.next] in w.log then 2 else 1
    case _ => 3
  }

  lemma CallAndLand(w: World, token: Token, i: nat, e: EventId, d: EventId, r: World)
    requires Aimed(w, token, i, e, d) && w.batches[token].next == i
    requires r == Apply(Apply(w, At(w.clock, Call(token, 1))), At(w.clock, Land(e)))
    ensures Overtaken(r, d, |w.log|)
  {
    assert r.log == w.log + [e] && r.rows == w.rows;
  }

  lemma OneMoreMove(w: World, m: Move, xs: seq<Timed>)
    requires !m.Insert? && Legal(Apply(w, At(w.clock, m)), xs)
    ensures var ys := [At(w.clock, m)] + xs;
            Legal(w, ys) && After(w, ys) == After(Apply(w, At(w.clock, m)), xs)
  {
    var ys := [At(w.clock, m)] + xs;
    assert ys[0] == At(w.clock, m) && ys[1..] == xs;
  }

  /** From there the publisher gets on with its batch until e is in the log and d is not. */
  lemma {:induction false} Strike(w: World, token: Token, i: nat, e: EventId, d: EventId) returns (xs: seq<Timed>)
    requires Aimed(w, token, i, e, d)
    ensures Legal(w, xs) && !Ordered(After(w, xs))
    decreases Left(w, token, i)
  {
    var m;
    if w.batches[token].next == i {
      m := Call(token, 1);
      var w1 := Apply(w, At(w.clock, m));
      var w2 := Apply(w1, At(w1.clock, Land(e)));
      CallAndLand(w, token, i, e, d, w2);
      assert !EntryOk(w2, |w.log|);
      assert After(w2, []) == w2 && Legal(w2, []);
      OneMoreMove(w1, Land(e), []);
      xs := [At(w1.clock, Land(e))] + [];
    } else {
      m := AimedStep(w, token, i, e, d);
      xs := Strike(Apply(w, At(w.clock, m)), token, i, e, d);
    }
    OneMoreMove(w, m, xs);
    xs := [At(w.clock, m)] + xs;
  }

  lemma UnderwayCanBreak(w: World, id: EventId, key: Key, created: Time, e: EventId) returns (xs: seq<Timed>)
    requires Inv(w) && id !in w.rows && e in w.rows && Underway(w, e)
    requires Precedes(InsertEvent(w, id, key, created).rows, id, e)
    ensures var r := InsertEvent(w, id, key, created);
            Legal(r, xs) && !Ordered(After(r, xs))
  {
    var r := InsertEvent(w, id, key, created);
    assert id !in w.log && id !in w.wire;
    if e in w.log {
      xs := [];
      LateInsertBreaksOrder(r, [], id, e);
    } else if e in w.wire {
      var q := Apply(r, At(r.clock, Land(e)));
      LateInsertBreaksOrder(q, [], id, e);
      assert Legal(q, []) && After(q, []) == q;
      OneMoreMove(r, Land(e), []);
      xs := [At(r.clock, Land(e))] + [];
    } else {
      var token, i :| InHand(w, token, i, e);
      assert BatchOk(w, token) && id !in w.batches[token].events;
      SameIntact(w, r, token, i);
      assert InHand(r, token, i, e);
      xs := Strike(r, token, i, e, id);
    }
  }

  /**
   * An insert is safe, in that no legal continuation ever logs a key out of order, if and only if no event of
   * its key that is underway or logged sorts after it.
   */
  lemma InsertIsSafeExactly(w: World, id: EventId, key: Key, created: Time)
    requires Inv(w) && id !in w.rows
    ensures (forall xs :: Legal(InsertEvent(w, id, key, created), xs) ==>
               Ordered(After(InsertEvent(w, id, key, created), xs)))
            <==> InOrder(w, Insert(id, key, created))
  {
    var r := InsertEvent(w, id, key, created);
    if InOrder(w, Insert(id, key, created)) {
      InsertKeeps(w, id, key, created);
      forall xs | Legal(r, xs) ensures Ordered(After(r, xs)) {
        RunKeeps(r, xs);
      }
    } else {
      var e := OutOfOrder(w, id, key, created);
      var xs := UnderwayCanBreak(w, id, key, created, e);
    }
  }
}
