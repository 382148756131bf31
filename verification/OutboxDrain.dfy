/** The publishing loops of one scheduler: publishBatch and publishClaimedBatch. */
module OutboxDrain {
  import opened TaskStates
  import opened Outbox

  type Rows = map<EventId, Row>

  function Pending(rows: Rows): (p: set<EventId>) {
    set e | e in rows && rows[e].published.None?
  }

  /** No unpublished event is under a live claim of somebody else. */
  ghost predicate Free(rows: Rows, now: Time) {
    forall e :: e in rows && rows[e].published.None? ==>
      rows[e].token.None? || (rows[e].expires.Some? && rows[e].expires.value <= now)
  }

  function Mark(row: Row, now: Time): (r: Row) {
    row.(published := Some(now), token := None, expires := None, attempts := row.attempts + 1)
  }

  /** The rows after each event of `sent` has been claimed once and acknowledged. */
  ghost function Marked(rows: Rows, sent: seq<EventId>, now: Time): (r: Rows) {
    map e | e in rows :: if e in sent then Mark(rows[e], now) else rows[e]
  }

  ghost predicate HeadsOf(rows: Rows, sent: seq<EventId>, now: Time) {
    Distinct(sent) && forall e :: e in sent ==> Claimable(rows, e, now)
  }

  /** A non-empty set of events has an earliest one. */
  lemma {:induction false} Earliest(rows: Rows, es: set<EventId>) returns (m: EventId)
    requires es != {} && es <= rows.Keys
    ensures m in es && forall d :: d in es ==> d == m || Before(rows, m, d)
    decreases es
  {
    var x :| x in es;
    if es == {x} {
      m := x;
    } else {
      assert es - {x} != {};
      var k := Earliest(rows, es - {x});
      m := if Before(rows, k, x) then k else x;
      forall d | d in es ensures d == m || Before(rows, m, d) {
        if d != x {
          assert d in es - {x};
        }
      }
    }
  }

  /** Work left means a head to claim. */
  lemma PendingHasHead(rows: Rows, now: Time)
    requires Free(rows, now) && Pending(rows) != {}
    ensures exists e :: e in rows && Claimable(rows, e, now)
  {
    var m := Earliest(rows, Pending(rows));
    forall d | d in rows && Precedes(rows, d, m) ensures rows[d].published.Some? {
      assert d in Pending(rows) ==> d == m || Before(rows, m, d);
    }
    assert Claimable(rows, m, now);
  }

  /** A claimed batch holds at most one event per ordering key. */
  lemma OneHeadPerKey(rows: Rows, a: EventId, b: EventId, now: Time)
    requires Claimable(rows, a, now) && Claimable(rows, b, now) && rows[a].key == rows[b].key
    ensures a == b
  {
    assert a != b ==> Precedes(rows, a, b) || Precedes(rows, b, a);
  }

  // ---------------------------------------------------------------------
  // Putting batches together
  // ---------------------------------------------------------------------

  /** What has been sent, in order, out of the events pending at the start. */
  ghost predicate Progress(start: Rows, rows: Rows, sent: seq<EventId>, now: Time) {
    && Distinct(sent)
    && (forall e :: e in sent ==> e in Pending(start))
    && rows == Marked(start, sent, now)
    && (forall i, j :: 0 <= i < j < |sent| ==> !Precedes(start, sent[j], sent[i]))
    && (forall e, i :: e in Pending(rows) && 0 <= i < |sent| ==> !Precedes(start, e, sent[i]))
  }

  lemma MarkedPending(start: Rows, sent: seq<EventId>, now: Time)
    ensures Pending(Marked(start, sent, now)) == Pending(start) - (set e | e in sent)
    ensures Free(start, now) ==> Free(Marked(start, sent, now), now)
  {}

  lemma SameOrder(start: Rows, sent: seq<EventId>, now: Time, a: EventId, b: EventId)
    ensures Precedes(Marked(start, sent, now), a, b) <==> Precedes(start, a, b)
  {}

  lemma MarkedTwice(start: Rows, sent: seq<EventId>, more: seq<EventId>, now: Time)
    requires forall e :: e in more ==> e !in sent
    ensures Marked(Marked(start, sent, now), more, now) == Marked(start, sent + more, now)
  {}

  /** Heads of what is left may be appended without disturbing the order. */
  lemma BatchOrdered(start: Rows, rows: Rows, sent: seq<EventId>, more: seq<EventId>, now: Time)
    requires Progress(start, rows, sent, now) && HeadsOf(rows, more, now)
    ensures forall i, j :: 0 <= i < j < |sent + more| ==> !Precedes(start, (sent + more)[j], (sent + more)[i])
  {
    var all := sent + more;
    forall i, j | 0 <= i < j < |all| ensures !Precedes(start, all[j], all[i]) {
      if j >= |sent| {
        assert all[j] == more[j - |sent|] && all[j] in more && Claimable(rows, all[j], now);
        assert all[j] in Pending(rows);
        if i >= |sent| {
          assert all[i] == more[i - |sent|] && all[i] in more && Claimable(rows, all[i], now);
          SameOrder(start, sent, now, all[j], all[i]);
        } else {
          assert all[i] == sent[i];
        }
      } else {
        assert all[i] == sent[i] && all[j] == sent[j];
      }
    }
  }

  lemma BatchProgress(start: Rows, rows: Rows, sent: seq<EventId>, more: seq<EventId>, now: Time)
    requires Progress(start, rows, sent, now) && HeadsOf(rows, more, now)
    ensures Progress(start, Marked(rows, more, now), sent + more, now)
  {
    MarkedPending(start, sent, now);
    forall e | e in more ensures e !in sent && e in Pending(start) {
      assert Claimable(rows, e, now) && e in Pending(rows);
    }
    MarkedTwice(start, sent, more, now);
    BatchOrdered(start, rows, sent, more, now);
    MarkedPending(rows, more, now);
    forall e, i | e in Pending(Marked(rows, more, now)) && 0 <= i < |sent + more|
      ensures !Precedes(start, e, (sent + more)[i])
    {
      assert e in Pending(rows);
      if i >= |sent| {
        assert (sent + more)[i] in more && Claimable(rows, (sent + more)[i], now);
        SameOrder(start, sent, now, e, (sent + more)[i]);
      } else {
        assert (sent + more)[i] == sent[i];
      }
    }
    DistinctUnion(sent, more);
  }

  lemma DistinctUnion(a: seq<EventId>, b: seq<EventId>)
    requires Distinct(a) && Distinct(b) && forall e :: e in b ==> e !in a
    ensures Distinct(a + b)
  {
    forall i, j | 0 <= i < j < |a + b| ensures (a + b)[i] != (a + b)[j] {
      if j >= |a| {
        assert (a + b)[j] == b[j - |a|] && b[j - |a|] in b;
      }
    }
  }

  /** One more batch: progress is kept, and unless it was empty there is less left. */
  lemma Iterate(start: Rows, rows: Rows, sent: seq<EventId>, more: seq<EventId>, now: Time)
    requires Progress(start, rows, sent, now) && HeadsOf(rows, more, now)
    ensures Progress(start, Marked(rows, more, now), sent + more, now)
    ensures more != [] ==> |Pending(Marked(rows, more, now))| < |Pending(rows)|
  {
    BatchProgress(start, rows, sent, more, now);
    MarkedPending(rows, more, now);
    if more != [] {
      assert more[0] in more && Claimable(rows, more[0], now);
      assert more[0] in Pending(rows) && more[0] !in Pending(Marked(rows, more, now));
      ProperSubset(Pending(Marked(rows, more, now)), Pending(rows));
    }
  }

  lemma Drained(start: Rows, rows: Rows, sent: seq<EventId>, now: Time)
    requires Progress(start, rows, sent, now) && Pending(rows) == {}
    ensures forall e :: e in sent <==> e in Pending(start)
  {
    MarkedPending(start, sent, now);
    forall e | e in Pending(start) ensures e in sent {
      assert e !in Pending(rows);
    }
  }

  // ---------------------------------------------------------------------
  // The loops
  // ---------------------------------------------------------------------

  /** No row carries this claim token: tokens are fresh uuids. */
  ghost predicate Unused(rows: Rows, token: Token) {
    forall e :: e in rows && rows[e].token.Some? ==> rows[e].token.value < token
  }

  /** How a batch ended: to the end, at a call that returned an error, or at a claim that was gone. */
  datatype Ending = Through | Failed | Lost

  /** The copy that reached the broker in a call that was not acknowledged, if one did. */
  function Stray(picked: seq<EventId>, acked: nat, landed: bool): (es: seq<EventId>) {
    if acked < |picked| && landed then [picked[acked]] else []
  }

  /** Rows as rivals leave them: the same events, under no claim of this publisher. */
  ghost predicate Rivals(rows: Rows, stolen: Rows, token: Token) {
    && Unused(stolen, token)
    && forall e :: e in stolen && e in rows ==> stolen[e].key == rows[e].key && stolen[e].created == rows[e].created
  }

  /** The rows after a batch that ended at picked[acked], or at its end. */
  ghost function Ended(rows: Rows, picked: seq<EventId>, acked: nat, ending: Ending, stolen: Rows, now: Time): (r: Rows)
    requires acked <= |picked|
    requires ending.Lost? ==> acked < |picked| && picked[acked] in stolen
  {
    var settled := Settled(rows, picked, acked, now);
    if ending.Lost? then settled[picked[acked] := stolen[picked[acked]]] else settled
  }

  /** Which event ended the batch, and why. */
  ghost predicate EndsAs(picked: seq<EventId>, acked: nat, ending: Ending, failing: set<EventId>, stolen: Rows) {
    && acked <= |picked|
    && (forall i :: 0 <= i < acked ==> picked[i] !in failing && picked[i] !in stolen)
    && match ending
       case Through => acked == |picked|
       case Failed => acked < |picked| && picked[acked] in failing
       case Lost => acked < |picked| && picked[acked] in stolen && picked[acked] !in failing
  }

  /** Any claimable events, at most `size` of them; all of them if they are fewer. */
  method SelectHeads(rows: Rows, now: Time, size: nat) returns (picked: seq<EventId>)
    requires size >= 1
    ensures HeadsOf(rows, picked, now) && |picked| <= size
    ensures picked == [] <==> forall e :: !Claimable(rows, e, now)
    ensures |picked| < size ==> forall e :: Claimable(rows, e, now) ==> e in picked
  {
    var heads := set e | e in rows && Claimable(rows, e, now);
    picked := [];
    ghost var all := heads;
    while heads != {} && |picked| < size
      invariant heads <= all && |picked| <= size
      invariant HeadsOf(rows, picked, now)
      invariant forall e :: e in picked ==> e !in heads
      invariant forall e :: e in all ==> e in heads || e in picked
      invariant forall e :: e in all <==> Claimable(rows, e, now)
      decreases heads
    {
      var e :| e in heads;
      picked := picked + [e];
      heads := heads - {e};
    }
    if picked != [] {
      assert picked[0] in picked && Claimable(rows, picked[0], now);
    }
  }

  class Publisher {
    var rows: Rows
    var log: seq<EventId>

    /**
     * Claims the heads, at most `size` of them, then publishes and acknowledges each. Publish returns an
     * error for the events in `failing`, with or without its copy having landed. The claims of the events in
     * `stolen` are gone when they are to be acknowledged, and their rows as given there. What is left of
     * the claim is released on either.
     */
    method PublishClaimedBatch(now: Time, token: Token, size: nat, ttl: Time,
                               failing: set<EventId>, landed: bool, stolen: Rows)
      returns (n: nat, ending: Ending, picked: seq<EventId>, acked: nat)
      requires Unused(rows, token) && Rivals(rows, stolen, token) && size >= 1
      modifies this
      ensures HeadsOf(old(rows), picked, now) && |picked| <= size
      ensures picked == [] <==> forall e :: !Claimable(old(rows), e, now)
      ensures |picked| < size ==> forall e :: Claimable(old(rows), e, now) ==> e in picked
      ensures EndsAs(picked, acked, ending, failing, stolen)
      ensures n == if ending.Through? then |picked| else 0
      ensures rows == Ended(old(rows), picked, acked, ending, stolen, now)
      ensures log == old(log) + picked[..acked] + Stray(picked, acked, landed || ending.Lost?)
    {
      picked := SelectHeads(rows, now, size);
      ClaimedArePending(rows, picked, now);
      rows := ClaimRows(rows, token, picked, now + ttl);
      acked, ending := PublishEach(now, token, picked, failing, landed, stolen, old(rows), now + ttl);
      n := if ending.Through? then |picked| else 0;
    }

    /** The loop over the claimed events. */
    method PublishEach(now: Time, token: Token, picked: seq<EventId>, failing: set<EventId>, landed: bool, stolen: Rows,
                       ghost before: Rows, ghost expires: Time)
      returns (acked: nat, ending: Ending)
      requires Distinct(picked) && AllPending(before, picked) && Unused(before, token) && Unused(stolen, token)
      requires rows == ClaimRows(before, token, picked, expires)
      modifies this
      ensures EndsAs(picked, acked, ending, failing, stolen)
      ensures rows == Ended(before, picked, acked, ending, stolen, now)
      ensures log == old(log) + picked[..acked] + Stray(picked, acked, landed || ending.Lost?)
    {
      acked, ending := 0, Through;
      while acked < |picked|
        invariant acked <= |picked| && ending.Through?
        invariant forall i :: 0 <= i < acked ==> picked[i] !in failing && picked[i] !in stolen
        invariant rows == Halfway(before, token, picked, acked, now, expires)
        invariant log == old(log) + picked[..acked]
      {
        var e := picked[acked];
        assert e in picked;
        if e in failing {
          log := log + Stray(picked, acked, landed);
          ReleaseSettles(before, token, picked, acked, now, expires);
          rows := Release(rows, token);
          ending := Failed;
          return;
        }
        log := log + [e];
        assert picked[..acked + 1] == picked[..acked] + [e];
        HalfwayStep(before, token, picked, acked, now, expires);
        if e in stolen {
          rows := rows[e := stolen[e]];
        }
        if rows[e].published.Some? || rows[e].token != Some(token) {
          ReleaseLost(before, token, picked, acked, stolen, now, expires);
          rows := Release(rows, token);
          ending := Lost;
          return;
        }
        rows := rows[e := rows[e].(published := Some(now), token := None, expires := None)];
        acked := acked + 1;
      }
      HalfwayDone(before, token, picked, now, expires);
      SettledDone(before, picked, now);
    }

    /**
     * Drains the outbox: batch after batch until nothing is claimable, or until Publish fails or a claim is
     * lost, which is then at the event `at`.
     */
    method PublishBatch(now: Time, first: Token, size: nat, ttl: Time,
                        failing: set<EventId>, landed: bool, stolen: Rows)
      returns (sent: seq<EventId>, ending: Ending, at: Option<EventId>)
      requires Unused(rows, first) && Rivals(rows, stolen, first) && size >= 1
      modifies this
      ensures Outcome(old(rows), rows, sent, ending, at, failing, stolen, now)
      ensures log == old(log) + sent +
                     if at.Some? && (ending.Lost? || landed) then [at.value] else []
    {
      sent, ending, at := [], Through, None;
      var token := first;
      assert Progress(rows, rows, sent, now) by {
        assert rows == Marked(rows, [], now);
      }
      while true
        invariant Progress(old(rows), rows, sent, now) && Unused(rows, token) && Rivals(rows, stolen, token)
        invariant Untroubled(sent, failing, stolen)
        invariant log == old(log) + sent
        decreases |Pending(rows)|
      {
        ghost var before, earlier := rows, sent;
        var n, end, picked, acked := PublishClaimedBatch(now, token, size, ttl, failing, landed, stolen);
        sent := sent + picked[..acked];
        assert old(log) + earlier + picked[..acked] == old(log) + sent;
        if !end.Through? {
          ending, at := end, Some(picked[acked]);
          TroubleExit(old(rows), before, earlier, picked, acked, ending, failing, stolen, now);
          return;
        }
        NextBatch(old(rows), before, earlier, picked, token, now);
        NextRivals(before, picked, stolen, token, now);
        token := token + 1;
        if n == 0 {
          DoneExit(old(rows), before, earlier, failing, stolen, now);
          assert picked == [] && rows == before && sent == earlier;
          return;
        }
      }
    }
  }

  ghost predicate Untroubled(sent: seq<EventId>, failing: set<EventId>, stolen: Rows) {
    forall e :: e in sent ==> e !in failing && e !in stolen
  }

  /** Pending at the start, not acknowledged, and everything before it acknowledged. */
  ghost predicate StoppedAt(start: Rows, sent: seq<EventId>, e: EventId) {
    && e in Pending(start) && e !in sent
    && forall d :: d in Pending(start) && d !in sent ==> !Precedes(start, d, e)
  }

  /** Each event once, in (created_at, id) order and without gaps within each key. */
  ghost predicate SentInOrder(start: Rows, sent: seq<EventId>) {
    && Distinct(sent) && (forall e :: e in sent ==> e in Pending(start))
    && (forall i, j :: 0 <= i < j < |sent| ==> !Precedes(start, sent[j], sent[i]))
    && (forall d, i :: d in Pending(start) && d !in sent && 0 <= i < |sent| ==> !Precedes(start, d, sent[i]))
  }

  /**
   * What a drain leaves behind. Without trouble nothing is claimable any more. On a failed call everything not
   * acknowledged is pending, on a lost claim all but the event it was lost for. Where no live claim was in the
   * way, there is trouble exactly when a pending event is in for it, and otherwise nothing is left.
   */
  ghost predicate Outcome(start: Rows, rows: Rows, sent: seq<EventId>, ending: Ending, at: Option<EventId>,
                          failing: set<EventId>, stolen: Rows, now: Time) {
    && SentInOrder(start, sent) && Untroubled(sent, failing, stolen)
    && (at.None? <==> ending.Through?)
    && (at.Some? ==> StoppedAt(start, sent, at.value))
    && (ending.Through? ==> rows == Marked(start, sent, now) && forall e :: !Claimable(rows, e, now))
    && (ending.Failed? ==>
          && at.value in failing
          && Pending(rows) == Pending(start) - Set(sent) && (Free(start, now) ==> Free(rows, now)))
    && (ending.Lost? ==>
          && at.value in stolen && at.value in rows && rows[at.value] == stolen[at.value]
          && Pending(rows) - {at.value} == Pending(start) - Set(sent) - {at.value})
    && (Free(start, now) ==> (ending.Through? <==> Pending(start) !! failing && Pending(start) !! stolen.Keys))
    && (Free(start, now) && ending.Through? ==> Pending(rows) == {})
  }

  function Set(es: seq<EventId>): (s: set<EventId>) {
    set e | e in es
  }

  lemma HeadIsStop(start: Rows, rows: Rows, sent: seq<EventId>, picked: seq<EventId>, k: nat, now: Time)
    requires Progress(start, rows, sent, now) && HeadsOf(rows, picked, now) && k < |picked|
    ensures StoppedAt(start, sent + picked[..k], picked[k])
  {
    var e := picked[k];
    MarkedPending(start, sent, now);
    assert e in picked && Claimable(rows, e, now) && e in Pending(rows);
    forall d | d in Pending(start) && d !in sent ensures !Precedes(start, d, e) {
      SameOrder(start, sent, now, d, e);
      assert d in Pending(rows);
    }
  }

  lemma ProgressInOrder(start: Rows, rows: Rows, sent: seq<EventId>, now: Time)
    requires Progress(start, rows, sent, now)
    ensures SentInOrder(start, sent)
  {
    MarkedPending(start, sent, now);
    forall d, i | d in Pending(start) && d !in sent && 0 <= i < |sent| ensures !Precedes(start, d, sent[i]) {
      assert d in Pending(rows);
    }
  }

  lemma TroubleExit(start: Rows, rows: Rows, sent: seq<EventId>, picked: seq<EventId>, k: nat, ending: Ending,
                    failing: set<EventId>, stolen: Rows, now: Time)
    requires Progress(start, rows, sent, now) && HeadsOf(rows, picked, now) && Untroubled(sent, failing, stolen)
    requires EndsAs(picked, k, ending, failing, stolen) && !ending.Through?
    ensures Outcome(start, Ended(rows, picked, k, ending, stolen, now), sent + picked[..k], ending, Some(picked[k]),
                    failing, stolen, now)
  {
    IterateTo(start, rows, sent, picked, k, now);
    ProgressInOrder(start, Marked(rows, picked[..k], now), sent + picked[..k], now);
    HeadIsStop(start, rows, sent, picked, k, now);
    StillPending(start, rows, sent, picked, k, now);
    assert picked[k] in picked && Claimable(rows, picked[k], now);
  }

  lemma DoneExit(start: Rows, rows: Rows, sent: seq<EventId>, failing: set<EventId>, stolen: Rows, now: Time)
    requires Progress(start, rows, sent, now) && (forall e :: !Claimable(rows, e, now))
    requires Untroubled(sent, failing, stolen)
    ensures Outcome(start, rows, sent, Through, None, failing, stolen, now)
  {
    ProgressInOrder(start, rows, sent, now);
    if Free(start, now) {
      MarkedPending(start, sent, now);
      if Pending(rows) != {} {
        PendingHasHead(rows, now);
      }
      Drained(start, rows, sent, now);
    }
  }

  lemma NextRivals(rows: Rows, picked: seq<EventId>, stolen: Rows, token: Token, now: Time)
    requires Rivals(rows, stolen, token)
    ensures Rivals(Settled(rows, picked, |picked|, now), stolen, token + 1)
  {}

  lemma NextBatch(start: Rows, rows: Rows, sent: seq<EventId>, picked: seq<EventId>, token: Token, now: Time)
    requires Progress(start, rows, sent, now) && HeadsOf(rows, picked, now) && Unused(rows, token)
    ensures var r := Settled(rows, picked, |picked|, now);
            && Progress(start, r, sent + picked[..|picked|], now) && Unused(r, token + 1)
            && (picked != [] ==> |Pending(r)| < |Pending(rows)|)
            && (picked == [] ==> r == rows)
  {
    SettledDone(rows, picked, now);
    assert picked[..|picked|] == picked;
    Iterate(start, rows, sent, picked, now);
  }

  /** A batch of which the first k events were acknowledged and the others released. */
  ghost function Settled(rows: Rows, picked: seq<EventId>, k: nat, now: Time): (r: Rows)
    requires k <= |picked|
  {
    map e | e in rows ::
      if e in picked[..k] then Mark(rows[e], now)
      else if e in picked then rows[e].(token := None, expires := None, attempts := rows[e].attempts + 1)
      else rows[e]
  }

  lemma SettledDone(rows: Rows, picked: seq<EventId>, now: Time)
    ensures Settled(rows, picked, |picked|, now) == Marked(rows, picked, now)
  {
    assert picked[..|picked|] == picked;
  }

  ghost predicate AllPending(rows: Rows, picked: seq<EventId>) {
    forall e :: e in picked ==> e in rows && rows[e].published.None?
  }

  lemma ReleaseSettles(rows: Rows, token: Token, picked: seq<EventId>, k: nat, now: Time, expires: Time)
    requires k <= |picked| && Unused(rows, token) && AllPending(rows, picked)
    ensures Release(Halfway(rows, token, picked, k, now, expires), token) == Settled(rows, picked, k, now)
  {
    var half := Halfway(rows, token, picked, k, now, expires);
    forall e | e in rows ensures Release(half, token)[e] == Settled(rows, picked, k, now)[e] {
      assert e in picked[..k] ==> e in picked;
    }
  }

  lemma SettledPending(rows: Rows, picked: seq<EventId>, k: nat, now: Time)
    requires k <= |picked|
    ensures Pending(Settled(rows, picked, k, now)) == Pending(Marked(rows, picked[..k], now))
    ensures Free(rows, now) ==> Free(Settled(rows, picked, k, now), now)
  {}

  lemma HeadsOfPrefix(rows: Rows, picked: seq<EventId>, k: nat, now: Time)
    requires HeadsOf(rows, picked, now) && k <= |picked|
    ensures HeadsOf(rows, picked[..k], now)
  {
    forall e | e in picked[..k] ensures Claimable(rows, e, now) {
      assert e in picked;
    }
  }

  lemma IterateTo(start: Rows, rows: Rows, sent: seq<EventId>, picked: seq<EventId>, k: nat, now: Time)
    requires Progress(start, rows, sent, now) && HeadsOf(rows, picked, now) && k <= |picked|
    ensures Progress(start, Marked(rows, picked[..k], now), sent + picked[..k], now)
    ensures k > 0 ==> |Pending(Marked(rows, picked[..k], now))| < |Pending(rows)|
  {
    HeadsOfPrefix(rows, picked, k, now);
    Iterate(start, rows, sent, picked[..k], now);
  }

  /** After a batch that stopped: what was not acknowledged is pending. */
  lemma StillPending(start: Rows, rows: Rows, sent: seq<EventId>, picked: seq<EventId>, k: nat, now: Time)
    requires Progress(start, rows, sent, now) && HeadsOf(rows, picked, now) && k < |picked|
    ensures var r := Settled(rows, picked, k, now);
            Pending(r) == Pending(start) - Set(sent + picked[..k]) && (Free(start, now) ==> Free(r, now))
  {
    SettledPending(rows, picked, k, now);
    MarkedPending(start, sent, now);
    MarkedPending(rows, picked[..k], now);
  }

  lemma ReleaseLost(rows: Rows, token: Token, picked: seq<EventId>, k: nat, stolen: Rows, now: Time, expires: Time)
    requires k < |picked| && Unused(rows, token) && AllPending(rows, picked)
    requires picked[k] in stolen && Unused(stolen, token)
    ensures var e := picked[k];
            Release(Halfway(rows, token, picked, k, now, expires)[e := stolen[e]], token)
            == Settled(rows, picked, k, now)[e := stolen[e]]
  {
    ReleaseSettles(rows, token, picked, k, now, expires);
    var e := picked[k];
    assert e in picked;
    var half := Halfway(rows, token, picked, k, now, expires);
    forall i | i in rows && i != e ensures Release(half[e := stolen[e]], token)[i] == Release(half, token)[i] {
    }
  }

  lemma ProperSubset(a: set<EventId>, b: set<EventId>)
    requires a < b
    ensures |a| < |b|
  {
    var x :| x in b - a;
    assert b == a + (b - a) && b - a != {};
  }

  /** The batch after its first i events have been acknowledged. */
  ghost function Halfway(rows: Rows, token: Token, sent: seq<EventId>, i: nat, now: Time, expires: Time): (r: Rows)
    requires i <= |sent|
  {
    map e | e in rows ::
      if e in sent[..i] then Mark(rows[e], now) else ClaimRows(rows, token, sent, expires)[e]
  }

  lemma HalfwayStep(rows: Rows, token: Token, sent: seq<EventId>, i: nat, now: Time, expires: Time)
    requires i < |sent| && Distinct(sent) && sent[i] in rows
    ensures sent[i] in Halfway(rows, token, sent, i, now, expires)
    ensures var mid := Halfway(rows, token, sent, i, now, expires);
            Halfway(rows, token, sent, i + 1, now, expires)
            == mid[sent[i] := mid[sent[i]].(published := Some(now), token := None, expires := None)]
  {
    assert sent[..i + 1] == sent[..i] + [sent[i]];
    assert sent[i] !in sent[..i] && sent[i] in sent;
  }

  lemma HalfwayDone(rows: Rows, token: Token, sent: seq<EventId>, now: Time, expires: Time)
    ensures Halfway(rows, token, sent, |sent|, now, expires) == Marked(rows, sent, now)
  {
    assert sent[..|sent|] == sent;
  }

  // ---------------------------------------------------------------------
  // The loop is an execution of the protocol
  // ---------------------------------------------------------------------

  /** What happens to one event of the batch: called, landed, returned, acknowledged. */
  function EventMoves(now: Time, token: Token, e: EventId): (xs: seq<Timed>) {
    [At(now, Call(token, 1)), At(now, Land(e)), At(now, Return(token)), At(now, Ack(token, true, true))]
  }

  function MovesBetween(now: Time, token: Token, sent: seq<EventId>, i: nat, k: nat): (xs: seq<Timed>)
    requires i <= k <= |sent|
    decreases k - i
  {
    if i == k then [] else EventMoves(now, token, sent[i]) + MovesBetween(now, token, sent, i + 1, k)
  }

  /** A call that returns an error, after its copy has landed or while it is still on its way. */
  function FaultMoves(now: Time, token: Token, e: EventId, landed: bool): (xs: seq<Timed>) {
    if landed
    then [At(now, Call(token, 1)), At(now, Land(e)), At(now, Fault(token, true))]
    else [At(now, Call(token, 1)), At(now, Fault(token, true))]
  }

  /** All of one call of PublishClaimedBatch. */
  function BatchMoves(now: Time, token: Token, picked: seq<EventId>, acked: nat, ttl: Time,
                      landed: bool): (xs: seq<Timed>)
    requires acked <= |picked|
  {
    [At(now, Claim(token, picked, ttl))] + MovesBetween(now, token, picked, 0, acked)
    + if acked < |picked| then FaultMoves(now, token, picked[acked], landed) else []
  }

  lemma {:induction false} AfterConcat(w: World, a: seq<Timed>, b: seq<Timed>)
    ensures After(w, a + b) == After(After(w, a), b)
    decreases |a|
  {
    if a == [] {
      assert a + b == b;
    } else {
      assert (a + b)[0] == a[0] && (a + b)[1..] == a[1..] + b;
      var w' := Apply(w, a[0]);
      AfterConcat(w', a[1..], b);
      assert After(w, a) == After(w', a[1..]);
      assert After(w, a + b) == After(w', a[1..] + b);
    }
  }

  lemma AfterFour(w: World, a: Timed, b: Timed, c: Timed, d: Timed)
    ensures After(w, [a, b, c, d]) == Apply(Apply(Apply(Apply(w, a), b), c), d)
  {
    var w1, w2, w3 := Apply(w, a), Apply(Apply(w, a), b), Apply(Apply(Apply(w, a), b), c);
    assert [a, b, c, d][1..] == [b, c, d];
    assert [b, c, d][1..] == [c, d];
    assert [c, d][1..] == [d];
    assert [d][1..] == [];
    assert After(w3, [d]) == Apply(w3, d);
    assert After(w2, [c, d]) == After(w3, [d]);
    assert After(w1, [b, c, d]) == After(w2, [c, d]);
  }

  /** The world after one event of the batch has been seen through. */
  ghost function Published(w: World, now: Time, token: Token): (r: World)
    requires CanCall(w, token) && AckMatches(w, token)
  {
    var b := w.batches[token];
    var e := b.events[b.next];
    World(w.rows[e := w.rows[e].(published := Some(now), token := None, expires := None)], w.log + [e], w.wire,
          w.batches[token := b.(next := b.next + 1, phase := Idle)], now)
  }

  lemma DeliverOne(w: World, now: Time, token: Token, e: EventId)
    requires CanCall(w, token) && w.batches[token].events[w.batches[token].next] == e
    ensures Apply(Apply(Apply(w, At(now, Call(token, 1))), At(now, Land(e))), At(now, Return(token)))
            == World(w.rows, w.log + [e], w.wire, w.batches[token := w.batches[token].(phase := Delivered)], now)
  {
    var b := w.batches[token];
    var called := Apply(w, At(now, Call(token, 1)));
    var inside := w.batches[token := b.(phase := Calling(now))];
    assert called == World(w.rows, w.log, w.wire[e := w.wire[e] + 1], inside, now);
    assert w.wire[e := w.wire[e] + 1] - multiset{e} == w.wire;
    assert Apply(called, At(now, Land(e))) == World(w.rows, w.log + [e], w.wire, inside, now);
  }

  lemma AckOne(w: World, now: Time, token: Token, back: World)
    requires CanCall(w, token) && AckMatches(w, token)
    requires back == World(w.rows, w.log + [w.batches[token].events[w.batches[token].next]], w.wire,
                           w.batches[token := w.batches[token].(phase := Delivered)], now)
    ensures Apply(back, At(now, Ack(token, true, true))) == Published(w, now, token)
  {}

  lemma PublishOne(w: World, now: Time, token: Token)
    requires CanCall(w, token) && AckMatches(w, token)
    ensures After(w, EventMoves(now, token, w.batches[token].events[w.batches[token].next])) == Published(w, now, token)
  {
    var e := w.batches[token].events[w.batches[token].next];
    AfterFour(w, At(now, Call(token, 1)), At(now, Land(e)), At(now, Return(token)), At(now, Ack(token, true, true)));
    DeliverOne(w, now, token, e);
    AckOne(w, now, token, World(w.rows, w.log + [e], w.wire,
                                w.batches[token := w.batches[token].(phase := Delivered)], now));
  }

  ghost function Midway(w: World, now: Time, token: Token, sent: seq<EventId>, i: nat, ttl: Time): (r: World)
    requires i <= |sent|
  {
    World(Halfway(w.rows, token, sent, i, now, now + ttl), w.log + sent[..i], w.wire,
          w.batches[token := Batch(now, now + ttl, sent, i, Idle)], now)
  }

  lemma MidwayNext(w: World, now: Time, token: Token, sent: seq<EventId>, i: nat, ttl: Time)
    requires CanClaim(w, now, token, sent) && i < |sent|
    ensures CanCall(Midway(w, now, token, sent, i, ttl), token)
    ensures AckMatches(Midway(w, now, token, sent, i, ttl), token)
    ensures Published(Midway(w, now, token, sent, i, ttl), now, token) == Midway(w, now, token, sent, i + 1, ttl)
  {
    assert sent[i] in sent && Claimable(w.rows, sent[i], now);
    assert sent[i] !in sent[..i];
    HalfwayStep(w.rows, token, sent, i, now, now + ttl);
    assert w.log + sent[..i] + [sent[i]] == w.log + sent[..i + 1];
  }

  lemma MidwayStep(w: World, now: Time, token: Token, sent: seq<EventId>, i: nat, ttl: Time)
    requires CanClaim(w, now, token, sent) && i < |sent|
    ensures After(Midway(w, now, token, sent, i, ttl), EventMoves(now, token, sent[i]))
            == Midway(w, now, token, sent, i + 1, ttl)
  {
    MidwayNext(w, now, token, sent, i, ttl);
    PublishOne(Midway(w, now, token, sent, i, ttl), now, token);
  }

  lemma {:induction false} AckedIsExecution(w: World, now: Time, token: Token, sent: seq<EventId>, i: nat, k: nat,
                                            ttl: Time)
    requires CanClaim(w, now, token, sent) && i <= k <= |sent|
    ensures After(Midway(w, now, token, sent, i, ttl), MovesBetween(now, token, sent, i, k))
            == Midway(w, now, token, sent, k, ttl)
    decreases k - i
  {
    if i < k {
      var m := Midway(w, now, token, sent, i, ttl);
      MidwayStep(w, now, token, sent, i, ttl);
      AfterConcat(m, EventMoves(now, token, sent[i]), MovesBetween(now, token, sent, i + 1, k));
      AckedIsExecution(w, now, token, sent, i + 1, k, ttl);
    }
  }

  lemma AfterTwo(w: World, a: Timed, b: Timed)
    ensures After(w, [a, b]) == Apply(Apply(w, a), b)
  {
    assert [a, b][1..] == [b] && [b][1..] == [];
    assert After(Apply(w, a), [b]) == Apply(Apply(w, a), b);
  }

  lemma AfterThree(w: World, a: Timed, b: Timed, c: Timed)
    ensures After(w, [a, b, c]) == Apply(Apply(Apply(w, a), b), c)
  {
    assert [a, b, c][1..] == [b, c];
    AfterTwo(Apply(w, a), b, c);
  }

  lemma FaultStops(w: World, now: Time, token: Token, b: Batch)
    requires token in w.batches
    requires w.batches[token] == b.(phase := Calling(now))
    ensures Apply(w, At(now, Fault(token, true))) ==
            World(Release(w.rows, token), w.log, w.wire, w.batches[token := b.(phase := Stopped)], now)
  {}

  /** The world after a call that returned an error. */
  ghost function Faulted(w: World, now: Time, token: Token, landed: bool): (r: World)
    requires CanCall(w, token)
  {
    var b := w.batches[token];
    var e := b.events[b.next];
    World(Release(w.rows, token), w.log + (if landed then [e] else []),
          w.wire + (if landed then multiset{} else multiset{e}), w.batches[token := b.(phase := Stopped)], now)
  }

  lemma FaultUnsent(w: World, now: Time, token: Token)
    requires CanCall(w, token)
    ensures Apply(Apply(w, At(now, Call(token, 1))), At(now, Fault(token, true))) == Faulted(w, now, token, false)
  {
    var b := w.batches[token];
    var e := b.events[b.next];
    var called := World(w.rows, w.log, w.wire + multiset{e}, w.batches[token := b.(phase := Calling(now))], now);
    assert Apply(w, At(now, Call(token, 1))) == called by {
      assert w.wire[e := w.wire[e] + 1] == w.wire + multiset{e};
    }
    FaultStops(called, now, token, b);
    assert w.log + [] == w.log;
    assert called.batches[token := b.(phase := Stopped)] == w.batches[token := b.(phase := Stopped)];
  }

  lemma FaultLanded(w: World, now: Time, token: Token, e: EventId)
    requires CanCall(w, token) && w.batches[token].events[w.batches[token].next] == e
    ensures Apply(Apply(Apply(w, At(now, Call(token, 1))), At(now, Land(e))), At(now, Fault(token, true)))
            == Faulted(w, now, token, true)
  {
    var b := w.batches[token];
    var called := World(w.rows, w.log, w.wire[e := w.wire[e] + 1], w.batches[token := b.(phase := Calling(now))], now);
    assert Apply(w, At(now, Call(token, 1))) == called;
    var got := World(w.rows, w.log + [e], w.wire, called.batches, now);
    assert Apply(called, At(now, Land(e))) == got by {
      assert called.wire - multiset{e} == w.wire;
    }
    FaultStops(got, now, token, b);
    assert w.wire + multiset{} == w.wire;
    assert called.batches[token := b.(phase := Stopped)] == w.batches[token := b.(phase := Stopped)];
  }

  lemma FaultIsExecution(w: World, now: Time, token: Token, e: EventId, landed: bool)
    requires CanCall(w, token) && w.batches[token].events[w.batches[token].next] == e
    ensures After(w, FaultMoves(now, token, e, landed)) == Faulted(w, now, token, landed)
  {
    if landed {
      AfterThree(w, At(now, Call(token, 1)), At(now, Land(e)), At(now, Fault(token, true)));
      FaultLanded(w, now, token, e);
    } else {
      AfterTwo(w, At(now, Call(token, 1)), At(now, Fault(token, true)));
      FaultUnsent(w, now, token);
    }
  }

  lemma ClaimIsExecution(w: World, now: Time, token: Token, picked: seq<EventId>, acked: nat, ttl: Time)
    requires CanClaim(w, now, token, picked) && acked <= |picked|
    ensures After(w, [At(now, Claim(token, picked, ttl))] + MovesBetween(now, token, picked, 0, acked)) ==
            Midway(w, now, token, picked, acked, ttl)
  {
    var x := At(now, Claim(token, picked, ttl));
    assert picked[..0] == [] && w.log + [] == w.log;
    assert Apply(w, x) == Midway(w, now, token, picked, 0, ttl);
    assert After(w, [x]) == Apply(w, x) by {
      assert [x][1..] == [];
    }
    AfterConcat(w, [x], MovesBetween(now, token, picked, 0, acked));
    AckedIsExecution(w, now, token, picked, 0, acked, ttl);
  }

  /** The rows and the log as PublishClaimedBatch leaves them; a copy of a failed call may still be on its way. */
  ghost predicate BatchEnds(w: World, r: World, now: Time, picked: seq<EventId>, acked: nat, landed: bool)
    requires acked <= |picked|
  {
    && r.rows == Settled(w.rows, picked, acked, now)
    && r.log == w.log + picked[..acked] + Stray(picked, acked, landed)
    && r.wire == w.wire + (if acked < |picked| && !landed then multiset{picked[acked]} else multiset{})
  }

  lemma FaultEndsBatch(w: World, now: Time, token: Token, picked: seq<EventId>, acked: nat, ttl: Time, landed: bool)
    requires AllPending(w.rows, picked) && acked < |picked| && Unused(w.rows, token)
    ensures CanCall(Midway(w, now, token, picked, acked, ttl), token)
    ensures var r := Faulted(Midway(w, now, token, picked, acked, ttl), now, token, landed);
            BatchEnds(w, r, now, picked, acked, landed)
  {
    MidwayCanCall(w, now, token, picked, acked, ttl);
    FaultedParts(Midway(w, now, token, picked, acked, ttl), now, token, picked[acked], landed);
    ReleaseSettles(w.rows, token, picked, acked, now, now + ttl);
  }

  lemma MidwayCanCall(w: World, now: Time, token: Token, picked: seq<EventId>, acked: nat, ttl: Time)
    requires acked < |picked|
    ensures var m := Midway(w, now, token, picked, acked, ttl);
            CanCall(m, token) && m.batches[token].events[m.batches[token].next] == picked[acked]
  {}

  lemma FaultedParts(m: World, now: Time, token: Token, e: EventId, landed: bool)
    requires CanCall(m, token) && m.batches[token].events[m.batches[token].next] == e
    ensures var r := Faulted(m, now, token, landed);
            && r.rows == Release(m.rows, token)
            && r.log == m.log + (if landed then [e] else [])
            && r.wire == m.wire + (if landed then multiset{} else multiset{e})
  {}

  lemma ClaimedArePending(rows: Rows, picked: seq<EventId>, now: Time)
    requires forall e :: e in picked ==> Claimable(rows, e, now)
    ensures AllPending(rows, picked)
  {
    forall e | e in picked ensures e in rows && rows[e].published.None? {
      assert Claimable(rows, e, now);
    }
  }

  lemma MidwayEnds(w: World, now: Time, token: Token, picked: seq<EventId>, ttl: Time)
    ensures var m := Midway(w, now, token, picked, |picked|, ttl);
            forall landed :: BatchEnds(w, m, now, picked, |picked|, landed)
  {
    HalfwayDone(w.rows, token, picked, now, now + ttl);
    SettledDone(w.rows, picked, now);
  }

  /** Moves at one time that insert nothing. */
  ghost predicate AllAt(xs: seq<Timed>, now: Time) {
    forall x :: x in xs ==> x.now == now && !x.move.Insert?
  }

  lemma {:induction false} AllAtIsLegal(w: World, xs: seq<Timed>, now: Time)
    requires w.clock <= now && AllAt(xs, now)
    ensures Legal(w, xs)
    decreases |xs|
  {
    if xs != [] {
      assert xs[0] in xs;
      AllAtIsLegal(Apply(w, xs[0]), xs[1..], now);
    }
  }

  lemma {:induction false} MovesAreAt(now: Time, token: Token, sent: seq<EventId>, i: nat, k: nat)
    requires i <= k <= |sent|
    ensures AllAt(MovesBetween(now, token, sent, i, k), now)
    decreases k - i
  {
    if i < k {
      MovesAreAt(now, token, sent, i + 1, k);
    }
  }

  lemma BatchIsLegal(w: World, now: Time, token: Token, picked: seq<EventId>, acked: nat, ttl: Time, landed: bool)
    requires acked <= |picked| && w.clock <= now
    ensures Legal(w, BatchMoves(now, token, picked, acked, ttl, landed))
  {
    MovesAreAt(now, token, picked, 0, acked);
    AllAtIsLegal(w, BatchMoves(now, token, picked, acked, ttl, landed), now);
  }

  /**
   * What PublishClaimedBatch does to rows and log, whether it gets through or fails on the way, is a legal
   * execution of the protocol, so the order and the absence of loss proved there hold of the loop.
   */
  lemma BatchIsExecution(w: World, now: Time, token: Token, picked: seq<EventId>, acked: nat, ttl: Time, landed: bool)
    requires CanClaim(w, now, token, picked) && acked <= |picked| && Unused(w.rows, token) && w.clock <= now
    ensures Legal(w, BatchMoves(now, token, picked, acked, ttl, landed))
    ensures BatchEnds(w, After(w, BatchMoves(now, token, picked, acked, ttl, landed)), now, picked, acked, landed)
  {
    BatchIsLegal(w, now, token, picked, acked, ttl, landed);
    BatchRuns(w, now, token, picked, acked, ttl, landed);
  }

  lemma BatchRuns(w: World, now: Time, token: Token, picked: seq<EventId>, acked: nat, ttl: Time, landed: bool)
    requires CanClaim(w, now, token, picked) && acked <= |picked| && Unused(w.rows, token)
    ensures BatchEnds(w, After(w, BatchMoves(now, token, picked, acked, ttl, landed)), now, picked, acked, landed)
  {
    var xs := [At(now, Claim(token, picked, ttl))] + MovesBetween(now, token, picked, 0, acked);
    var tail := if acked < |picked| then FaultMoves(now, token, picked[acked], landed) else [];
    ClaimIsExecution(w, now, token, picked, acked, ttl);
    AfterConcat(w, xs, tail);
    if acked < |picked| {
      ClaimedArePending(w.rows, picked, now);
      FaultEndsBatch(w, now, token, picked, acked, ttl, landed);
      FaultIsExecution(Midway(w, now, token, picked, acked, ttl), now, token, picked[acked], landed);
    } else {
      MidwayEnds(w, now, token, picked, ttl);
    }
  }
}
