/**
 * publishClaimedBatch among others: the loop as the source has it, with whatever other publishers, inserts, the
 * broker and the clock do before and after each of its steps.
 */
module OutboxLoop {
  import opened TaskStates
  import opened Outbox
  import opened OutboxDrain

  // ---------------------------------------------------------------------
  // What others may do
  // ---------------------------------------------------------------------

  /** A move that is not one of this publisher's own. */
  predicate Foreign(m: Move, token: Token) {
    match m
    case Insert(_, _, _) => true
    case Land(_) => true
    case Claim(t, _, _) => t != token
    case Call(t, _) => t != token
    case Return(t) => t != token
    case Ack(t, _, _) => t != token
    case Fault(t, _) => t != token
    case Crash(t) => t != token
  }

  ghost predicate Stepped(w: World, x: Timed, r: World) {
    w.clock <= x.now && InOrder(w, x.move) && r == Apply(w, x)
  }

  /** The worlds a legal execution goes through. */
  ghost predicate Path(ws: seq<World>, xs: seq<Timed>) {
    |ws| == |xs| + 1 && forall i :: 0 <= i < |xs| ==> Stepped(ws[i], xs[i], ws[i + 1])
  }

  /** Some legal sequence of foreign moves leads from w to r. */
  ghost predicate Evolves(w: World, r: World, token: Token) {
    exists ws, xs :: Path(ws, xs) && ws[0] == w && ws[|xs|] == r && AllForeign(xs, token)
  }

  ghost predicate AllForeign(xs: seq<Timed>, token: Token) {
    forall i :: 0 <= i < |xs| ==> Foreign(xs[i].move, token)
  }

  ghost predicate Claimed(w: World, e: EventId, token: Token) {
    e in w.rows && w.rows[e].published.None? && w.rows[e].token == Some(token)
  }

  /** The row was claimed again since, which counts as an attempt. */
  ghost predicate Taken(w: World, r: World, e: EventId) {
    e in w.rows && e in r.rows && w.rows[e].attempts < r.rows[e].attempts
  }

  /** A claim ends only by another claim. */
  ghost predicate Kept(w: World, r: World, e: EventId, token: Token) {
    && (e in w.rows ==> e in r.rows && w.rows[e].attempts <= r.rows[e].attempts)
    && (Claimed(w, e, token) ==> Claimed(r, e, token) || Taken(w, r, e))
  }

  ghost predicate Handed(w: World, e: EventId) {
    e in w.wire || e in w.log
  }

  /**
   * What the publisher can rely on: its batch is as it left it, its claims end only by another claim, what it has
   * handed to the broker lands or is under way, and what is published or logged stays so.
   */
  ghost predicate Untouched(w: World, r: World, token: Token) {
    && (forall e :: e in w.rows ==> Kept(w, r, e, token))
    && (forall e :: Handed(w, e) ==> Handed(r, e))
    && (token in r.batches <==> token in w.batches)
    && (token in w.batches ==> r.batches[token] == w.batches[token])
    && (forall e :: e in w.rows ==> e in r.rows && (w.rows[e].published.Some? ==> r.rows[e].published.Some?))
    && w.log <= r.log && w.clock <= r.clock
  }

  lemma ForeignKeeps(w: World, x: Timed, token: Token, r: World, e: EventId)
    requires Foreign(x.move, token) && r == Apply(w, x) && e in w.rows
    ensures Kept(w, r, e, token) && (w.rows[e].published.Some? ==> r.rows[e].published.Some?)
  {}

  lemma ForeignHands(w: World, x: Timed, r: World, e: EventId)
    requires r == Apply(w, x) && Handed(w, e)
    ensures Handed(r, e)
  {}

  lemma ForeignBatch(w: World, x: Timed, token: Token, r: World)
    requires Foreign(x.move, token) && w.clock <= x.now && r == Apply(w, x)
    ensures token in r.batches <==> token in w.batches
    ensures token in w.batches ==> r.batches[token] == w.batches[token]
    ensures w.log <= r.log && w.clock <= r.clock
  {}

  lemma ForeignUntouched(w: World, x: Timed, token: Token, r: World)
    requires Foreign(x.move, token) && w.clock <= x.now && r == Apply(w, x)
    ensures Untouched(w, r, token)
  {
    ForeignBatch(w, x, token, r);
    forall e | e in w.rows
      ensures Kept(w, r, e, token) && (w.rows[e].published.Some? ==> r.rows[e].published.Some?)
    {
      ForeignKeeps(w, x, token, r, e);
    }
    forall e | Handed(w, e) ensures Handed(r, e) {
      ForeignHands(w, x, r, e);
    }
  }

  lemma UntouchedOn(w: World, m: World, r: World, token: Token)
    requires Untouched(w, m, token) && Untouched(m, r, token)
    ensures Untouched(w, r, token)
  {
    forall e | e in w.rows ensures Kept(w, r, e, token) {
      assert Kept(w, m, e, token) && Kept(m, r, e, token);
    }
  }

  lemma {:induction false} OthersUntouched(ws: seq<World>, xs: seq<Timed>, token: Token, k: nat)
    requires Path(ws, xs) && AllForeign(xs, token) && k <= |xs|
    ensures Untouched(ws[0], ws[k], token)
  {
    if k > 0 {
      OthersUntouched(ws, xs, token, k - 1);
      assert Stepped(ws[k - 1], xs[k - 1], ws[k]) && Foreign(xs[k - 1].move, token);
      ForeignUntouched(ws[k - 1], xs[k - 1], token, ws[k]);
      UntouchedOn(ws[0], ws[k - 1], ws[k], token);
    }
  }

  lemma EvolvedUntouched(w: World, r: World, token: Token)
    requires Evolves(w, r, token)
    ensures Untouched(w, r, token)
  {
    var ws, xs :| Path(ws, xs) && ws[0] == w && ws[|xs|] == r && AllForeign(xs, token);
    OthersUntouched(ws, xs, token, |xs|);
  }

  // ---------------------------------------------------------------------
  // Executions from the start
  // ---------------------------------------------------------------------

  ghost predicate Reached(w: World) {
    exists ws, xs :: Path(ws, xs) && ws[0] == START && ws[|xs|] == w
  }

  lemma PathOn(ws: seq<World>, xs: seq<Timed>, more: seq<World>, ys: seq<Timed>)
    requires Path(ws, xs) && Path(more, ys) && ws[|xs|] == more[0]
    ensures Path(ws + more[1..], xs + ys)
  {
    var all, zs := ws + more[1..], xs + ys;
    forall i | 0 <= i < |zs| ensures Stepped(all[i], zs[i], all[i + 1]) {
      if i < |xs| {
        assert Stepped(ws[i], xs[i], ws[i + 1]);
      } else {
        assert Stepped(more[i - |xs|], ys[i - |xs|], more[i - |xs| + 1]);
      }
    }
  }

  lemma ReachedOn(w: World, more: seq<World>, ys: seq<Timed>)
    requires Reached(w) && Path(more, ys) && more[0] == w
    ensures Reached(more[|ys|])
  {
    var ws, xs :| Path(ws, xs) && ws[0] == START && ws[|xs|] == w;
    PathOn(ws, xs, more, ys);
    assert (ws + more[1..])[|xs + ys|] == more[|ys|];
  }

  lemma OwnMove(w: World, m: Move, r: World)
    requires Reached(w) && !m.Insert? && r == Apply(w, At(w.clock, m))
    ensures Reached(r)
  {
    assert Stepped(w, At(w.clock, m), r);
    assert Path([w, r], [At(w.clock, m)]);
    ReachedOn(w, [w, r], [At(w.clock, m)]);
  }

  lemma EvolvedReached(w: World, r: World, token: Token)
    requires Reached(w) && Evolves(w, r, token)
    ensures Reached(r)
  {
    var ws, xs :| Path(ws, xs) && ws[0] == w && ws[|xs|] == r && AllForeign(xs, token);
    ReachedOn(w, ws, xs);
  }

  lemma {:induction false} PathIsExecution(ws: seq<World>, xs: seq<Timed>)
    requires Path(ws, xs)
    ensures Legal(ws[0], xs) && After(ws[0], xs) == ws[|xs|]
    decreases |xs|
  {
    if xs != [] {
      assert Stepped(ws[0], xs[0], ws[1]);
      var tail, ys := ws[1..], xs[1..];
      forall i | 0 <= i < |ys| ensures Stepped(tail[i], ys[i], tail[i + 1]) {
        assert Stepped(ws[i + 1], xs[i + 1], ws[i + 2]);
      }
      PathIsExecution(tail, ys);
    }
  }

  /** So everything proved of legal executions holds of a world that has been reached. */
  lemma ReachedIsExecution(w: World) returns (xs: seq<Timed>)
    requires Reached(w)
    ensures Legal(START, xs) && After(START, xs) == w && Inv(w)
  {
    var ws;
    ws, xs :| Path(ws, xs) && ws[0] == START && ws[|xs|] == w;
    PathIsExecution(ws, xs);
    RunKeeps(START, xs);
  }

  // ---------------------------------------------------------------------
  // The loop
  // ---------------------------------------------------------------------

  /** The batch is at its i-th event, in the given phase, and all before it are published. */
  ghost predicate AtEvent(w: World, token: Token, picked: seq<EventId>, i: nat) {
    && token in w.batches && w.batches[token].events == picked && w.batches[token].next == i <= |picked|
    && forall j :: 0 <= j < i ==> picked[j] in w.rows && w.rows[picked[j]].published.Some?
  }

  lemma StillAtEvent(w: World, r: World, token: Token, picked: seq<EventId>, i: nat)
    requires AtEvent(w, token, picked, i) && Untouched(w, r, token)
    ensures AtEvent(r, token, picked, i) && r.batches[token].phase == w.batches[token].phase
  {}

  /** None of the publisher's claims has ended except by another claim. */
  ghost predicate AllKept(w: World, r: World, token: Token) {
    forall e :: e in w.rows ==> Kept(w, r, e, token)
  }

  ghost predicate NoFewer(w: World, r: World) {
    forall e :: e in w.rows ==> e in r.rows && w.rows[e].attempts <= r.rows[e].attempts
  }

  lemma AllKeptOn(w: World, m: World, r: World, token: Token)
    requires AllKept(w, m, token) && AllKept(m, r, token)
    ensures AllKept(w, r, token)
  {
    forall e | e in w.rows ensures Kept(w, r, e, token) {
      assert Kept(w, m, e, token) && Kept(m, r, e, token);
    }
  }

  lemma KeptOnBut(w: World, m: World, r: World, token: Token, but: EventId, all: bool)
    requires AllKept(w, m, token) && (all ==> forall e :: e != but ==> Kept(m, r, e, token))
    ensures all ==> forall e :: e != but ==> Kept(w, r, e, token)
  {
    forall e | all && e != but ensures Kept(w, r, e, token) {
      assert e in w.rows ==> Kept(w, m, e, token);
      assert Kept(m, r, e, token);
    }
  }

  /** The batch has stopped, and where the claims were released none is left. */
  ghost predicate Over(w: World, token: Token, released: bool) {
    && token in w.batches && w.batches[token].phase.Stopped?
    && (released ==> forall e :: e in w.rows && w.rows[e].published.None? ==> w.rows[e].token != Some(token))
  }

  /** The picked rows are claimed until the given time, one attempt more each; all else is as before. */
  ghost predicate JustClaimed(w: World, r: World, token: Token, picked: seq<EventId>, ttl: Time) {
    && r.rows.Keys == w.rows.Keys && r.log == w.log && r.wire == w.wire && r.clock == w.clock
    && forall e :: e in w.rows ==>
         r.rows[e] == if e in picked
                      then w.rows[e].(token := Some(token), expires := Some(w.clock + ttl),
                                      attempts := w.rows[e].attempts + 1)
                      else w.rows[e]
  }

  /** The event, if given, is published now; where the claims are released none of the token is left. */
  ghost predicate JustSettled(w: World, r: World, token: Token, event: Option<EventId>, released: bool) {
    && r.rows.Keys == w.rows.Keys && r.log == w.log && r.wire == w.wire && r.clock == w.clock
    && forall e :: e in w.rows ==>
         r.rows[e] == if event == Some(e)
                      then w.rows[e].(published := Some(w.clock), token := None, expires := None)
                      else if released && Claimed(w, e, token) then w.rows[e].(token := None, expires := None)
                      else w.rows[e]
  }

  lemma AckSettles(w: World, r: World, token: Token, e: EventId, reported: bool, released: bool)
    requires token in w.batches && w.batches[token].phase.Delivered?
    requires w.batches[token].next < |w.batches[token].events| && e == w.batches[token].events[w.batches[token].next]
    requires r == Apply(w, At(w.clock, Ack(token, reported, released)))
    ensures var acked := reported && Claimed(w, e, token);
            && JustSettled(w, r, token, if Claimed(w, e, token) then Some(e) else None, !acked && released)
            && r.batches == w.batches[token := if acked then w.batches[token].(next := w.batches[token].next + 1,
                                                                               phase := Idle)
                                               else w.batches[token].(phase := Stopped)]
  {}

  lemma SettledMeans(w: World, r: World, token: Token, picked: seq<EventId>, i: nat, event: Option<EventId>,
                     acked: bool, released: bool)
    requires AtEvent(w, token, picked, i) && i < |picked|
    requires JustSettled(w, r, token, event, !acked && released) && (event == None || event == Some(picked[i]))
    requires acked ==> event == Some(picked[i]) && Claimed(w, picked[i], token)
    requires r.batches == w.batches[token := if acked then w.batches[token].(next := i + 1, phase := Idle)
                                             else w.batches[token].(phase := Stopped)]
    ensures NoFewer(w, r) && (Handed(r, picked[i]) <==> Handed(w, picked[i]))
    ensures if acked
            then && AtEvent(r, token, picked, i + 1) && r.batches[token].phase.Idle?
                 && forall e :: e != picked[i] ==> Kept(w, r, e, token)
            else AtEvent(r, token, picked, i) && Over(r, token, released)
  {}

  lemma FaultSettles(w: World, r: World, token: Token, released: bool)
    requires token in w.batches && r == Apply(w, At(w.clock, Fault(token, released)))
    ensures JustSettled(w, r, token, None, released)
    ensures r.batches == w.batches[token := w.batches[token].(phase := Stopped)]
  {}

  /** What becomes of an event: whether Publish returns an error, and whether the acknowledgement is answered. */
  datatype Fate = Fate(fails: bool, reported: bool)

  class Scheduler {
    var world: World

    /**
     * Anything others do in the meantime: every legal sequence of foreign moves meets this contract, and the
     * publisher knows no more than it.
     */
    method Others(token: Token)
      requires Reached(world)
      modifies this
      ensures Reached(world) && Untouched(old(world), world, token)
    {
      assert Path([world], []) && AllForeign([], token);
      assert Evolves(world, world, token);
      EvolvedReached(world, world, token);
      EvolvedUntouched(world, world, token);
    }

    /** One move of the publisher itself. */
    method Do(m: Move)
      requires Reached(world) && !m.Insert?
      modifies this
      ensures Reached(world) && world == Apply(old(world), At(old(world).clock, m))
    {
      OwnMove(world, m, Apply(world, At(world.clock, m)));
      world := Apply(world, At(world.clock, m));
    }

    /** Publish for the next event: nil only once the broker has it; an error, if it `fails`, at any time. */
    method Publish(token: Token, picked: seq<EventId>, i: nat, fails: bool) returns (ok: bool)
      requires Reached(world) && AtEvent(world, token, picked, i) && i < |picked| && world.batches[token].phase.Idle?
      modifies this
      ensures Reached(world) && AtEvent(world, token, picked, i)
      ensures ok == !fails && Handed(world, picked[i]) && AllKept(old(world), world, token)
      ensures if ok then world.batches[token].phase.Delivered? && picked[i] in world.log
              else world.batches[token].phase.Calling?
    {
      Do(Call(token, 1));
      assert Handed(world, picked[i]);
      label called:
      Others(token);
      StillAtEvent(old@called(world), world, token, picked, i);
      AllKeptOn(old(world), old@called(world), world, token);
      if fails {
        return false;
      }
      if picked[i] !in world.log {
        Do(Land(picked[i]));
      }
      Do(Return(token));
      ok := true;
    }

    /**
     * The acknowledgement succeeds if and only if the claim is still the publisher's; `reported` says whether its
     * answer arrives.
     */
    method Acknowledge(token: Token, picked: seq<EventId>, i: nat, reported: bool, released: bool) returns (acked: bool)
      requires Reached(world) && AtEvent(world, token, picked, i) && i < |picked|
      requires world.batches[token].phase.Delivered?
      modifies this
      ensures Reached(world) && NoFewer(old(world), world)
      ensures Handed(world, picked[i]) <==> Handed(old(world), picked[i])
      ensures acked <==> reported && Claimed(old(world), picked[i], token)
      ensures JustSettled(old(world), world, token,
                          if Claimed(old(world), picked[i], token) then Some(picked[i]) else None, !acked && released)
      ensures if acked
              then && AtEvent(world, token, picked, i + 1) && world.batches[token].phase.Idle?
                   && forall e :: e != picked[i] ==> Kept(old(world), world, e, token)
              else AtEvent(world, token, picked, i) && Over(world, token, released)
    {
      var e := picked[i];
      var matches := e in world.rows && world.rows[e].published.None? && world.rows[e].token == Some(token);
      acked := reported && matches;
      Do(Ack(token, reported, released));
      AckSettles(old(world), world, token, e, reported, released);
      SettledMeans(old(world), world, token, picked, i, if matches then Some(e) else None, acked, released);
    }

    /** The error exit. */
    method Abandon(token: Token, picked: seq<EventId>, i: nat, released: bool)
      requires Reached(world) && AtEvent(world, token, picked, i) && i < |picked|
      modifies this
      ensures Reached(world) && NoFewer(old(world), world)
      ensures Handed(world, picked[i]) <==> Handed(old(world), picked[i])
      ensures JustSettled(old(world), world, token, None, released)
      ensures AtEvent(world, token, picked, i) && Over(world, token, released)
    {
      Do(Fault(token, released));
      FaultSettles(old(world), world, token, released);
      SettledMeans(old(world), world, token, picked, i, None, false, released);
    }

    /** The claim, at a moment when others have got to `before`. */
    method Begin(token: Token, size: nat, ttl: Time) returns (picked: seq<EventId>, ghost before: World)
      requires Reached(world) && token !in world.batches && size >= 1
      modifies this
      ensures Reached(world) && Untouched(old(world), before, token)
      ensures HeadsOf(before.rows, picked, before.clock) && |picked| <= size
      ensures |picked| < size ==> forall e :: Claimable(before.rows, e, before.clock) ==> e in picked
      ensures JustClaimed(before, world, token, picked, ttl)
      ensures AtEvent(world, token, picked, 0) && world.batches[token].phase.Idle?
      ensures forall e :: e in picked ==> Claimed(world, e, token)
    {
      Others(token);
      before := world;
      picked := SelectHeads(world.rows, world.clock, size);
      Do(Claim(token, picked, ttl));
    }

    /**
     * One turn of the loop: publish and acknowledge, or stop. Whatever happens the event has been handed to the
     * broker. Unless Publish fails or the answer to the acknowledgement is lost, it stops only when another
     * publisher has claimed the event.
     */
    method Turn(token: Token, picked: seq<EventId>, i: nat, fails: bool, reported: bool, released: bool)
      returns (acked: bool)
      requires Reached(world) && AtEvent(world, token, picked, i) && i < |picked| && world.batches[token].phase.Idle?
      modifies this
      ensures Reached(world) && Handed(world, picked[i]) && NoFewer(old(world), world)
      ensures if acked
              then && AtEvent(world, token, picked, i + 1) && world.batches[token].phase.Idle?
                   && !fails && reported && forall e :: e != picked[i] ==> Kept(old(world), world, e, token)
              else AtEvent(world, token, picked, i) && Over(world, token, released)
      ensures Claimed(old(world), picked[i], token) && !fails && reported ==>
                acked || Taken(old(world), world, picked[i])
    {
      label turn:
      Others(token);
      StillAtEvent(old@turn(world), world, token, picked, i);
      label quiet:
      var ok := Publish(token, picked, i, fails);
      AllKeptOn(old(world), old@quiet(world), world, token);
      label published:
      Others(token);
      StillAtEvent(old@published(world), world, token, picked, i);
      AllKeptOn(old(world), old@published(world), world, token);
      ghost var before := world;
      assert NoFewer(old(world), before);
      assert Claimed(old(world), picked[i], token) ==> Kept(old(world), before, picked[i], token);
      if ok {
        acked := Acknowledge(token, picked, i, reported, released);
        KeptOnBut(old(world), before, world, token, picked[i], acked);
      } else {
        acked := false;
        Abandon(token, picked, i, released);
      }
    }

    /**
     * Claims the heads, at most `size` of them, and publishes and acknowledges each, others acting in between. The
     * world is one that a legal execution reaches, so whatever is proved of those holds of it. Either the
     * whole batch has been acknowledged and is reported, or the batch is over, its claims are released unless
     * the release failed, and those before the event it stopped at are published.
     */
    method PublishClaimedBatch(token: Token, size: nat, ttl: Time, released: bool, fates: seq<Fate>)
      returns (n: nat, failed: bool, ghost claimed: World)
      requires Reached(world) && token !in world.batches && size >= 1 && |fates| >= size
      modifies this
      ensures Reached(world) && token in world.batches
      ensures var b := world.batches[token];
              && |b.events| <= size && AtEvent(world, token, b.events, b.next)
              && (forall e :: e in b.events ==> Claimed(claimed, e, token))
              && (failed ==> n == 0 && b.next < |b.events| && Over(world, token, released))
              && (failed && !fates[b.next].fails && fates[b.next].reported ==> Taken(claimed, world, b.events[b.next]))
              && (!failed ==> n == |b.events| == b.next)
    {
      var picked, _ := Begin(token, size, ttl);
      claimed := world;
      n, failed := 0, false;
      for i := 0 to |picked|
        invariant Reached(world) && AtEvent(world, token, picked, i) && world.batches[token].phase.Idle?
        invariant forall j :: i <= j < |picked| ==> Kept(claimed, world, picked[j], token)
      {
        label turn:
        var acked := Turn(token, picked, i, fates[i].fails, fates[i].reported, released);
        if !acked {
          failed := true;
          assert Kept(claimed, old@turn(world), picked[i], token) && Claimed(claimed, picked[i], token);
          return;
        }
        forall j | i < j < |picked| ensures Kept(claimed, world, picked[j], token) {
          assert picked[j] != picked[i];
          assert Kept(claimed, old@turn(world), picked[j], token) && Kept(old@turn(world), world, picked[j], token);
        }
      }
      n := |picked|;
    }
  }
}
