/** What callbacks, polls, the terminal's queue and the limiter's cleanup come to: when each answer is given, and what changes
    with it.  Nothing here is said through the helpers of the specification. */
module DeviceEffects {
  import opened Tables
  import C = Callbacks
  import P = Polls
  import Q = TerminalQueue
  import L = RateLimit
  import W = RefundWorker
  import Allocation

  // ---------- deliveries ----------

  /** The first retry comes after a second, each later one after twice the time, and none after more than five minutes. */
  lemma DelayMeans(n: nat)
    ensures C.RetryDelay(1) == 1
    ensures n >= 1 ==> C.RetryDelay(n + 1) == (if 2 * C.RetryDelay(n) <= 300 then 2 * C.RetryDelay(n) else 300)
    ensures 1 <= C.RetryDelay(n) <= 300
  {
  }

  /** A claim on a row that is neither delivered nor given up, whose time has come, and that nobody claimed within the last two
      minutes: the first eight times it is claimed, and the claimant carries how often it was claimed before; after that it is
      given up.  Any other row is left alone. */
  lemma ClaimMeans(d: C.Delivery, now: int)
    ensures var (row, seen) := C.ClaimDelivery(d, now);
            var due := !d.delivered && !d.dead && d.availableAt <= now && (d.claimedAt.Some? ==> d.claimedAt.value + 120 < now);
            && (!due ==> row == d && seen.None?)
            && (due && d.attempts < 8 ==>
                  row == C.Delivery(d.event, d.sequence, d.availableAt, d.attempts + 1, Some(now), false, false) && seen == Some(d.attempts))
            && (due && d.attempts >= 8 ==>
                  row == C.Delivery(d.event, d.sequence, d.availableAt, d.attempts, None, false, true) && seen.None?)
  {
  }

  /** A failure frees the row until its delay is over, by the claimant's own count, and gives it up if it was claimed eight times.
      An OK answer marks it delivered, unless it was given up meanwhile, which counts as a failure.  A delivered row stays. */
  lemma AnswerMeans(d: C.Delivery, now: int, seen: nat)
    ensures var failed, answered := C.FailDelivery(d, now, seen), C.MarkDelivered(d, now, seen);
            && (d.delivered ==> failed == d && answered == d)
            && (!d.delivered ==>
                  && failed == C.Delivery(d.event, d.sequence, now + C.RetryDelay(seen + 1), d.attempts, None, false, d.dead || d.attempts >= 8)
                  && answered == if d.dead then failed else C.Delivery(d.event, d.sequence, d.availableAt, d.attempts, None, true, false))
  {
    hide C.RetryDelay;
  }

  // ---------- two claims of a delivery ----------

  predicate Claimed(w: C.Link, step: C.LinkStep) {
    step.WorkerClaims? && C.ClaimDelivery(w.row, w.site.server.clock).1.Some?
  }

  /** Nobody holds the row, or the claim from that time is more than two minutes old. */
  predicate Free(w: C.Link, since: int) {
    w.row.claimedAt.None? || since + 120 < w.site.server.clock
  }

  lemma HeldOn(w: C.Link, c: C.Callback, step: C.LinkStep, since: int)
    requires w.row.claimedAt == Some(since) && !Free(w, since) && C.CanLink(w, c, step)
    ensures !Claimed(w, step)
    ensures var next := C.NextLink(w, c, step); next.row.claimedAt == Some(since) || next.row.claimedAt.None?
    ensures w.site.server.clock <= C.NextLink(w, c, step).site.server.clock
  {
    hide C.Handle, C.RetryDelay, P.Kept, P.AnswerAt;
  }

  /** Over any run of workers, network, terminal and server: while a row is held under a claim, nobody else claims it; before the
      next claim it was freed by an answer, or the claim is more than two minutes old. */
  lemma {:induction false} NotClaimedWhileHeld(w: C.Link, c: C.Callback, steps: seq<C.LinkStep>, j: nat, since: int) returns (k: nat)
    requires C.CanLinkAll(w, c, steps) && w.row.claimedAt == Some(since)
    requires j < |steps| && Claimed(C.LinkAll(w, c, steps[..j]), steps[j])
    ensures k <= j && Free(C.LinkAll(w, c, steps[..k]), since)
    decreases j
  {
    hide C.NextLink, C.CanLink, Claimed;
    assert C.LinkAll(w, c, steps[..0]) == w;
    if Free(w, since) {
      k := 0;
    } else {
      HeldOn(w, c, steps[0], since);
      var next, rest := C.NextLink(w, c, steps[0]), steps[1..];
      assert steps[..1][1..] == [];
      assert C.LinkAll(w, c, steps[..1]) == C.LinkAll(next, c, []) == next;
      if j > 0 {
        assert steps[..j][0] == steps[0] && steps[..j][1..] == rest[..j - 1];
        if next.row.claimedAt.None? {
          k := 1;
        } else {
          var i := NotClaimedWhileHeld(next, c, rest, j - 1, since);
          k := i + 1;
          assert steps[..k][0] == steps[0] && steps[..k][1..] == rest[..i];
        }
      }
    }
  }

  // ---------- the script ----------

  /** A callback is accepted if its sequence is positive and above the last one, its event has no marker, and both the marker and
      the sequence were written; then the display shows what it asks for, and its sequence is the last one.  Otherwise nothing
      that is shown changes, and what was written stays written. */
  lemma HandlingMeans(d: C.Display, c: C.Callback, m: bool, s: bool)
    ensures var (after, answer) := C.Handle(d, c, m, s);
            var looked := 1 <= c.sequence && d.gSequence < c.sequence && c.event !in d.markers;
            && (answer == C.Accepted <==> looked && m && s)
            && (answer == C.Unavailable <==> looked && !(m && s))
            && (answer == C.Refused <==> c.sequence < 1)
            && (!looked ==> after == d)
            && (looked ==>
                  && after.markers == (if m then d.markers[c.event := c.sequence] else d.markers)
                  && after.stored == (if s then c.sequence else d.stored)
                  && after.pending == d.pending
                  && after.gSequence == (if m && s then c.sequence else d.gSequence)
                  && after.shown == (if m && s && c.display.Some? then c.display.value else d.shown)
                  && after.applied == (if m && s then d.applied + [c.event] else d.applied))
  {
  }

  /** A poll is sent if none is under way and a request is made, with the last sequence; a reset forgets the one under way, takes
      the stored sequence and blanks the display first.  Markers and the stored sequence outlive both. */
  lemma PollingMeans(d: C.Display, made: bool, stamp: int)
    ensures var sent, reset := C.SendPoll(d, made, stamp), C.Restarted(d, made, stamp);
            && sent.pending == (if d.pending.Some? then d.pending else if made then Some(P.Poll(d.gSequence, stamp)) else None)
            && sent.markers == d.markers && sent.stored == d.stored && sent.gSequence == d.gSequence && sent.shown == d.shown
            && sent.applied == d.applied
            && reset.pending == (if made then Some(P.Poll(d.stored, stamp)) else None)
            && reset.markers == d.markers && reset.stored == d.stored && reset.gSequence == d.stored && reset.shown == C.Shown(None, 0)
            && reset.applied == d.applied
  {
  }

  // ---------- polls ----------

  lemma {:induction false} KeptIff(rows: seq<P.Row>, now: int, r: P.Row)
    ensures r in P.Kept(rows, now) <==> r in rows && now - r.createdAt <= 2592000
    decreases |rows|
  {
    if rows != [] {
      var front, last := rows[..|rows| - 1], rows[|rows| - 1];
      assert r in rows <==> r in front || r == last;
      KeptIff(front, now, r);
    }
  }

  lemma {:induction false} LaterIff(events: seq<int>, sequence: int, e: int)
    ensures e in P.Later(events, sequence) <==> e in events && e > sequence
  {
    if events != [] {
      assert e in events <==> e in events[1..] || e == events[0];
      LaterIff(events[1..], sequence, e);
    }
  }

  /** A poll is served for five minutes around its stamp; from the events of the last thirty days it is handed the first twenty
      above its sequence, or all of them if they are fewer. */
  lemma ServingMeans(s: P.Server, poll: P.Poll, now: int, events: seq<int>)
    ensures P.MayServe(s, poll, now) <==> s.clock <= now && -300 <= now - poll.stamp <= 300
    ensures var later, page := P.Later(events, poll.sequence), P.Page(events, poll.sequence);
            && page <= later && (|page| == |later| || |page| == 20) && |page| <= 20
            && (|page| > 0 ==> P.PollSequence(events, poll.sequence) == page[|page| - 1])
            && (|page| == 0 ==> P.PollSequence(events, poll.sequence) == poll.sequence)
  {
    hide P.Later;
  }

  // ---------- the terminal's queue ----------

  /** A payment is taken while fewer than 32 are queued and the linkset data can be written; it is queued as it is, and asked for
      at once unless a request for its event is under way.  Otherwise it is refused, and nothing changes. */
  lemma TakingMeans(s: Q.Script, event: Id, p: Q.Payload, persisted: bool, request: Id)
    ensures var taken := Q.Take(s, event, p, persisted, request);
            if |s.queue| < 32 && persisted then
              && taken.queue == s.queue[event := p]
              && taken.ids == (if event in s.keys then s.ids else s.ids + [request])
              && taken.keys == (if event in s.keys then s.keys else s.keys + [event])
            else taken == s
  {
  }

  /** The answer to a request under way takes it off the lists; a success takes its event off the queue, and leaves every other
      queued payment there; a failure leaves them all.  The answer to any other request changes nothing. */
  lemma AnsweredMeans(s: Q.Script, request: Id, success: bool, at: nat)
    requires |s.ids| == |s.keys|
    ensures request !in s.ids ==> Q.Answer(s, request, success) == s
    ensures at < |s.ids| && s.ids[at] == request && request !in s.ids[..at] ==>
              var answered := Q.Answer(s, request, success);
              && answered.ids == s.ids[..at] + s.ids[at + 1..] && answered.keys == s.keys[..at] + s.keys[at + 1..]
              && (success ==> s.keys[at] !in answered.queue)
              && (!success ==> answered.queue == s.queue)
              && forall e | e in s.queue && e != s.keys[at] :: e in answered.queue && answered.queue[e] == s.queue[e]
  {
    var first := Q.IndexOf(s.ids, request);
    if at < |s.ids| && s.ids[at] == request && request !in s.ids[..at] {
      forall i | 0 <= i < at ensures s.ids[i] != request {
        assert s.ids[i] == s.ids[..at][i];
      }
      assert first == at;
    }
    hide Q.IndexOf;
  }

  // ---------- provider and limiter ----------

  /** The provider makes one refund per key: the first that is asked for under it, and nothing after that. */
  lemma ProviderMeans(made: map<Id, W.Refund>, c: Allocation.Claim)
    ensures var after := W.Made(made, c);
            && c.key in after && after == made[c.key := after[c.key]]
            && after[c.key] == (if c.key in made then made[c.key] else W.Refund(c.intent, c.amount))
  {
  }

  /** Cleanup forgets exactly the windows that started more than a day ago. */
  lemma ForgettingMeans(rows: map<int, nat>, now: int, w: int)
    ensures w in L.Cleaned(rows, now) <==> w in rows && now - w <= 86400000
    ensures w in L.Cleaned(rows, now) ==> L.Cleaned(rows, now)[w] == rows[w]
  {
  }
}
