/** Terminal callbacks: the worker's claims, failures and backoff on one side; the terminal's replay marker, its sequence
    and its polls on the other. */
module Callbacks {
  import opened Tables
  import opened Polls

  const MAX_ATTEMPTS := 8
  const CALLBACK_LEASE := 120
  const MAX_BACKOFF := 300

  // ---------- delivery rows ----------

  /** A terminal_callback_deliveries row; `delivered` and `dead` say which of the two time stamps is set. */
  datatype Delivery = Delivery(event: Id, sequence: int, availableAt: int, attempts: nat, claimedAt: Option<int>,
                               delivered: bool, dead: bool)

  predicate IsDue(d: Delivery, now: int) {
    && !d.delivered && !d.dead && d.availableAt <= now
    && (d.claimedAt.None? || d.claimedAt.value < now - CALLBACK_LEASE)
  }

  function Power2(n: nat): (p: nat)
    ensures p >= 1
  {
    if n == 0 then 1 else 2 * Power2(n - 1)
  }

  /** retryDelaySeconds. */
  function RetryDelay(attempts: int): int {
    var delay := Power2(if attempts - 1 >= 0 then attempts - 1 else 0);
    if delay <= MAX_BACKOFF then delay else MAX_BACKOFF
  }

  /** claimTerminalCallback on one row: the row after it, and the attempts that the claimant's copy carries. */
  function ClaimDelivery(d: Delivery, now: int): (Delivery, Option<nat>) {
    if !IsDue(d, now) then (d, None)
    else if d.attempts >= MAX_ATTEMPTS then (d.(dead := true, claimedAt := None), None)
    else (d.(claimedAt := Some(now), attempts := d.attempts + 1), Some(d.attempts))
  }

  /** recordFailure, by a claimant whose copy carries `seen` attempts. */
  function FailDelivery(d: Delivery, now: int, seen: nat): Delivery {
    if d.delivered then d
    else d.(claimedAt := None, availableAt := now + RetryDelay(seen + 1), dead := d.dead || d.attempts >= MAX_ATTEMPTS)
  }

  /** The update after an OK answer.  A row that was given up meanwhile fails the table's CHECK, and the error is recorded
      as a failure. */
  function MarkDelivered(d: Delivery, now: int, seen: nat): Delivery {
    if d.delivered then d
    else if d.dead then FailDelivery(d, now, seen)
    else d.(delivered := true, claimedAt := None)
  }

  predicate ValidDelivery(d: Delivery) {
    d.attempts <= MAX_ATTEMPTS && !(d.delivered && d.dead) && (d.dead ==> d.attempts == MAX_ATTEMPTS)
  }

  /** Delivered and given up exclude each other and are final, and only claims count as attempts. */
  predicate DeliveryKept(d: Delivery, e: Delivery) {
    && e.event == d.event && e.sequence == d.sequence && d.attempts <= e.attempts
    && (d.delivered ==> e.delivered && !e.dead) && (d.dead ==> e.dead && !e.delivered)
    && (d.delivered || d.dead ==> e.attempts == d.attempts)
  }

  lemma DeliverySteps(d: Delivery, now: int, seen: nat)
    requires ValidDelivery(d)
    ensures ValidDelivery(ClaimDelivery(d, now).0) && DeliveryKept(d, ClaimDelivery(d, now).0)
    ensures ValidDelivery(FailDelivery(d, now, seen)) && DeliveryKept(d, FailDelivery(d, now, seen))
    ensures ValidDelivery(MarkDelivered(d, now, seen)) && DeliveryKept(d, MarkDelivered(d, now, seen))
    ensures FailDelivery(d, now, seen).attempts == d.attempts == MarkDelivered(d, now, seen).attempts
    ensures ClaimDelivery(d, now).0.attempts == d.attempts + (if ClaimDelivery(d, now).1.Some? then 1 else 0)
  {
    hide RetryDelay;
  }

  /** The delays after the first n failures. */
  function TotalDelay(n: nat): int {
    if n == 0 then 0 else TotalDelay(n - 1) + RetryDelay(n)
  }

  lemma {:induction false} PowersBounded(n: nat)
    requires n <= 7
    ensures Power2(n) <= 128
    decreases 7 - n
  {
    if n < 7 {
      PowersBounded(n + 1);
      assert Power2(n + 1) == 2 * Power2(n);
    } else {
      assert Power2(7) == 2 * Power2(6) && Power2(6) == 2 * Power2(5) && Power2(5) == 2 * Power2(4);
      assert Power2(4) == 2 * Power2(3) && Power2(3) == 2 * Power2(2) && Power2(2) == 2 * Power2(1) && Power2(1) == 2 * Power2(0);
    }
  }

  /** Over the first n of at most eight failures the backoff adds up to 2^n - 1 seconds. */
  lemma {:induction false} BackoffAddsUp(n: nat)
    requires n <= MAX_ATTEMPTS
    ensures TotalDelay(n) == Power2(n) - 1
  {
    if n > 0 {
      BackoffAddsUp(n - 1);
      PowersBounded(n - 1);
    }
  }

  // ---------- the terminal's side ----------

  /** What the display shows of a rental. */
  datatype Shown = Shown(renter: Option<Id>, endsAt: int)

  /** A signed callback; `display` is what its payload asks the terminal to show, if anything. */
  datatype Callback = Callback(event: Id, sequence: int, display: Option<Shown>)

  /** Linkset data: the replay markers and the stored sequence.  Globals: gSequence, the poll under way (none while
      gPollRequest is NULL_KEY), and what is shown.  `applied` is the history of the events that were accepted, latest last. */
  datatype Display = Display(markers: map<Id, int>, stored: int, gSequence: int, pending: Option<Poll>, shown: Shown, applied: seq<Id>)

  datatype Response = Accepted | Refused | Replayed | Unavailable

  function Blank(): Display {
    Display(map[], 0, 0, None, Shown(None, 0), [])
  }

  /** handleCallback, for a callback whose signature and shape are right.  Both linkset writes are always attempted,
      because the language evaluates both operands of ||; each may fail on its own. */
  function Handle(d: Display, c: Callback, markerWritten: bool, sequenceWritten: bool): (Display, Response) {
    if c.sequence < 1 then (d, Refused)
    else if c.sequence <= d.gSequence then (d, Replayed)
    else if c.event in d.markers then (d, Replayed)
    else
      var saved := d.(markers := if markerWritten then d.markers[c.event := c.sequence] else d.markers,
                      stored := if sequenceWritten then c.sequence else d.stored);
      if !markerWritten || !sequenceWritten then (saved, Unavailable)
      else
        (saved.(gSequence := c.sequence, shown := if c.display.Some? then c.display.value else d.shown,
                applied := d.applied + [c.event]), Accepted)
  }

  /** sendPoll; `made` says whether llHTTPRequest made a request, `stamp` is what llGetUnixTime returns. */
  function SendPoll(d: Display, made: bool, stamp: int): Display {
    if d.pending.Some? || !made then d else d.(pending := Some(Poll(d.gSequence, stamp)))
  }

  /** state_entry: globals start over from linkset data, and a poll is sent. */
  function Restarted(d: Display, made: bool, stamp: int): Display {
    SendPoll(d.(gSequence := d.stored, pending := None, shown := Shown(None, 0)), made, stamp)
  }

  datatype TerminalStep =
    | Called(callback: Callback, markerWritten: bool, sequenceWritten: bool)
    | Polls(made: bool, stamp: int)
    | PollAnswered(sequence: int, shown: Shown)      // the poll under way is answered with status 200
    | PollFailed
    | Resets(made: bool, stamp: int)

  function NextTerminal(d: Display, t: TerminalStep): Display {
    match t
    case Called(c, markerWritten, sequenceWritten) => Handle(d, c, markerWritten, sequenceWritten).0
    case Polls(made, stamp) => SendPoll(d, made, stamp)
    case PollAnswered(sequence, shown) => d.(pending := None, gSequence := sequence, shown := shown)
    case PollFailed => d.(pending := None)
    case Resets(made, stamp) => Restarted(d, made, stamp)
  }

  /** Every event that was applied has its marker, and none was applied twice. */
  ghost predicate AppliedOnce(d: Display) {
    && (forall i | 0 <= i < |d.applied| :: d.applied[i] in d.markers)
    && (forall i, j | 0 <= i < j < |d.applied| :: d.applied[i] != d.applied[j])
  }

  lemma TerminalKeeps(d: Display, t: TerminalStep)
    requires AppliedOnce(d)
    ensures AppliedOnce(NextTerminal(d, t)) && d.applied <= NextTerminal(d, t).applied
  {
  }

  ghost function TerminalAll(d: Display, steps: seq<TerminalStep>): Display
    decreases |steps|
  {
    if steps == [] then d else TerminalAll(NextTerminal(d, steps[0]), steps[1..])
  }

  // ---------- when the sequence goes backwards ----------

  /** The poll under way stays under way. */
  predicate LeavesPoll(t: TerminalStep) {
    t.Called? || t.Polls?
  }

  /** Along the steps a callback with a sequence above r is accepted. */
  ghost predicate AcceptsAbove(d: Display, steps: seq<TerminalStep>, r: int)
    decreases |steps|
  {
    && steps != []
    && (|| (steps[0].Called? && steps[0].callback.sequence > r
            && Handle(d, steps[0].callback, steps[0].markerWritten, steps[0].sequenceWritten).1 == Accepted)
        || AcceptsAbove(NextTerminal(d, steps[0]), steps[1..], r))
  }

  lemma {:induction false} SequenceAbove(d: Display, steps: seq<TerminalStep>, r: int)
    requires d.pending.Some? && forall i | 0 <= i < |steps| :: LeavesPoll(steps[i])
    ensures var end := TerminalAll(d, steps);
            end.pending == d.pending && (end.gSequence > r <==> d.gSequence > r || AcceptsAbove(d, steps, r))
    decreases |steps|
  {
    if steps != [] {
      assert LeavesPoll(steps[0]) && forall i | 0 <= i < |steps| - 1 :: LeavesPoll(steps[1..][i]);
      SequenceAbove(NextTerminal(d, steps[0]), steps[1..], r);
    }
  }

  /** The answer to a poll, which is never below the sequence that it carries (`AnswerAtLeast`), lowers gSequence if and only
      if a callback with a sequence above the answer was accepted after the poll had been sent. */
  lemma PollLowersIff(d: Display, stamp: int, steps: seq<TerminalStep>, r: int, shown: Shown)
    requires d.pending.None? && forall i | 0 <= i < |steps| :: LeavesPoll(steps[i])
    requires d.gSequence <= r
    ensures var sent := NextTerminal(d, Polls(true, stamp));
            var end := TerminalAll(sent, steps);
            && end.pending == Some(Poll(d.gSequence, stamp))
            && (NextTerminal(end, PollAnswered(r, shown)).gSequence < end.gSequence <==> AcceptsAbove(sent, steps, r))
  {
    SequenceAbove(NextTerminal(d, Polls(true, stamp)), steps, r);
  }

  // ---------- terminal and server ----------

  /** The terminal, the server, and the answer that was given to the poll under way but has not reached the terminal. */
  datatype Site = Site(display: Display, server: Server, served: Option<int>)

  datatype SiteStep =
    | AtScript(event: TerminalStep)
    | AtServer(work: ServerStep)
    | Serves                                         // the server answers the poll under way; its nonce lets it do so once

  predicate CanSite(x: Site, step: SiteStep) {
    match step
    case AtScript(t) => (t.PollAnswered? ==> x.display.pending.Some? && x.served == Some(t.sequence)) && (t.PollFailed? ==> x.display.pending.Some?)
    case AtServer(work) => CanServer(x.server, work)
    case Serves => x.display.pending.Some? && x.served.None? && MayServe(x.server, x.display.pending.value, x.server.clock)
  }

  function NextSite(x: Site, step: SiteStep): Site {
    match step
    case AtScript(t) => x.(display := NextTerminal(x.display, t), served := if LeavesPoll(t) then x.served else None)
    case AtServer(work) => x.(server := NextServer(x.server, work))
    case Serves =>
      if x.display.pending.None? then x
      else x.(server := NextServer(x.server, Purges),
              served := Some(AnswerAt(x.server.rows, x.server.clock, x.display.pending.value.sequence)))
  }

  ghost predicate SiteSound(x: Site) {
    && AppliedOnce(x.display) && ServerSound(x.server)
    && (x.served.Some? ==> x.display.pending.Some? && x.display.pending.value.sequence <= x.served.value)
  }

  lemma SiteKeeps(x: Site, step: SiteStep)
    requires SiteSound(x) && CanSite(x, step)
    ensures SiteSound(NextSite(x, step)) && x.display.applied <= NextSite(x, step).display.applied
  {
    match step {
      case AtScript(t) => TerminalKeeps(x.display, t);
      case AtServer(work) => ServerKeeps(x.server, work);
      case Serves =>
        ServerKeeps(x.server, Purges);
        AnswerAtLeast(x.server.rows, x.server.clock, x.display.pending.value.sequence);
    }
    hide AppliedOnce, ServerSound, Handle, Kept, AnswerAt;
  }

  /** The two ways in which gSequence goes backwards: an answer that a callback overtook, and a reset after polls whose
      answers were not stored. */
  lemma SequenceFallsIff(x: Site, step: SiteStep)
    requires CanSite(x, step)
    ensures NextSite(x, step).display.gSequence < x.display.gSequence
            <==> step.AtScript? && ((step.event.PollAnswered? && step.event.sequence < x.display.gSequence)
                                    || (step.event.Resets? && x.display.stored < x.display.gSequence))
  {
  }

  ghost predicate CanSiteAll(x: Site, steps: seq<SiteStep>)
    decreases |steps|
  {
    steps != [] ==> CanSite(x, steps[0]) && CanSiteAll(NextSite(x, steps[0]), steps[1..])
  }

  ghost function SiteAll(x: Site, steps: seq<SiteStep>): Site
    decreases |steps|
  {
    if steps == [] then x else SiteAll(NextSite(x, steps[0]), steps[1..])
  }

  lemma SiteFirst(x: Site, step: SiteStep, rest: seq<SiteStep>)
    ensures CanSiteAll(x, [step] + rest) <==> CanSite(x, step) && CanSiteAll(NextSite(x, step), rest)
    ensures SiteAll(x, [step] + rest) == SiteAll(NextSite(x, step), rest)
  {
    hide CanSite, NextSite;
    assert ([step] + rest)[1..] == rest;
  }

  /** A new terminal, and a server that has no event for it. */
  function NewSite(): Site {
    Site(Blank(), Server([], 0, 0), None)
  }

  /** First input: a new terminal's first poll is answered from an empty table, and event 1 is committed and called back
      before the answer arrives. */
  lemma PollLowers(c: Callback, shown: Shown)
    requires c.sequence == 1
    ensures var steps := [AtScript(Polls(true, 0)), Serves, AtServer(Commits(1)), AtScript(Called(c, true, true))];
            var last := AtScript(PollAnswered(0, shown));
            var end := SiteAll(NewSite(), steps);
            && CanSiteAll(NewSite(), steps) && CanSite(end, last) && end.display.applied == [c.event]
            && end.display.gSequence == 1 && NextSite(end, last).display.gSequence == 0
  {
    var x0 := NewSite();
    var s1, s2, s3, s4 := AtScript(Polls(true, 0)), Serves, AtServer(Commits(1)), AtScript(Called(c, true, true));
    var x1 := NextSite(x0, s1);
    var x2 := NextSite(x1, s2);
    assert Ids([]) == [] && x2.served == Some(0);
    var x3 := NextSite(x2, s3);
    var x4 := NextSite(x3, s4);
    assert CanSite(x0, s1) && CanSite(x1, s2) && CanSite(x2, s3) && CanSite(x3, s4);
    assert x4.display.gSequence == 1 && x4.served == Some(0) && x4.display.applied == [c.event] && x4.display.pending.Some?;
    hide CanSite, NextSite;
    SiteFour(x0, s1, s2, s3, s4);
  }

  lemma SiteFour(x: Site, s1: SiteStep, s2: SiteStep, s3: SiteStep, s4: SiteStep)
    ensures var x1 := NextSite(x, s1);
            var x2 := NextSite(x1, s2);
            var x3 := NextSite(x2, s3);
            && (CanSiteAll(x, [s1, s2, s3, s4]) <==> CanSite(x, s1) && CanSite(x1, s2) && CanSite(x2, s3) && CanSite(x3, s4))
            && SiteAll(x, [s1, s2, s3, s4]) == NextSite(x3, s4)
  {
    hide CanSite, NextSite;
    var x1 := NextSite(x, s1);
    var x2 := NextSite(x1, s2);
    var x3 := NextSite(x2, s3);
    assert [s1, s2, s3, s4] == [s1] + ([s2] + ([s3] + ([s4] + [])));
    SiteFirst(x, s1, [s2] + ([s3] + ([s4] + [])));
    SiteFirst(x1, s2, [s3] + ([s4] + []));
    SiteFirst(x2, s3, [s4] + []);
    SiteFirst(x3, s4, []);
  }

  /** Second input, without any callback: event 7 is polled, and a reset takes gSequence back to what was stored, so that the
      next poll is handed event 7 again. */
  lemma ResetRepeats(shown: Shown)
    ensures var steps := [AtServer(Commits(7)), AtScript(Polls(true, 0)), Serves, AtScript(PollAnswered(7, shown))];
            var polled := SiteAll(NewSite(), steps);
            var reset := NextSite(polled, AtScript(Resets(true, 0)));
            && CanSiteAll(NewSite(), steps) && polled.display.gSequence == 7 && reset.display.gSequence == 0
            && reset.display.pending == Some(Poll(0, 0)) && CanSite(reset, Serves) && NextSite(reset, Serves).served == Some(7)
            && Page(Ids(reset.server.rows), 0) == [7]
  {
    var x0 := NewSite();
    var s1, s2, s3, s4 := AtServer(Commits(7)), AtScript(Polls(true, 0)), Serves, AtScript(PollAnswered(7, shown));
    OneRow(7, 0, 0);
    var x1 := NextSite(x0, s1);
    assert x1.server.rows == [Row(7, 0)];
    hide Kept, AnswerAt, Page, Ids;
    var x2 := NextSite(x1, s2);
    var x3 := NextSite(x2, s3);
    assert x3.served == Some(7);
    var x4 := NextSite(x3, s4);
    assert CanSite(x0, s1) && CanSite(x1, s2) && CanSite(x2, s3) && CanSite(x3, s4);
    SiteFour(x0, s1, s2, s3, s4);
  }

  // ---------- worker, network, terminal and server together ----------

  /** One delivery row, how often it was claimed, the copies that workers still carry, the requests for it that may still
      reach the terminal, each under the copy it was made from, the request that the terminal accepted, and the site.
      `repeats` says whether the network may deliver one request more than once. */
  datatype Link = Link(row: Delivery, claims: nat, copies: set<nat>, requests: set<nat>, acceptedBy: Option<nat>, site: Site, repeats: bool)

  datatype LinkStep =
    | WorkerClaims
    | Arrives(copy: nat, markerWritten: bool, sequenceWritten: bool)      // late, and again if the network repeats
    | Vanishes(copy: nat)                                                 // was not sent, or never arrives any more
    | AnsweredOk(copy: nat)
    | AnsweredBadly(copy: nat)                                            // an error, a refusal, a timeout, or a lost answer
    | WorkerDies(copy: nat)
    | AtSite(step: SiteStep)                                              // callbacks of other rows, polls, resets, the server

  predicate CanLink(w: Link, c: Callback, step: LinkStep) {
    match step
    case WorkerClaims => true
    case Arrives(copy, _, _) => copy in w.requests
    case Vanishes(copy) => copy in w.requests
    case AnsweredOk(copy) => copy in w.copies && w.acceptedBy == Some(copy)
    case AnsweredBadly(copy) => copy in w.copies
    case WorkerDies(copy) => copy in w.copies
    case AtSite(s) => CanSite(w.site, s) && (s.AtScript? && s.event.Called? ==> s.event.callback.event != c.event)
  }

  /** Workers and server read the same clock. */
  function NextLink(w: Link, c: Callback, step: LinkStep): Link {
    var now := w.site.server.clock;
    match step
    case WorkerClaims =>
      var (row, copy) := ClaimDelivery(w.row, now);
      if copy.Some?
      then w.(row := row, claims := w.claims + 1, copies := w.copies + {copy.value}, requests := w.requests + {copy.value})
      else w.(row := row)
    case Arrives(copy, m, s) =>
      var (display, r) := Handle(w.site.display, c, m, s);
      w.(site := w.site.(display := display), acceptedBy := if r == Accepted then Some(copy) else w.acceptedBy,
         requests := if w.repeats then w.requests else w.requests - {copy})
    case Vanishes(copy) => w.(requests := w.requests - {copy})
    case AnsweredOk(copy) => w.(row := MarkDelivered(w.row, now, copy), copies := w.copies - {copy})
    case AnsweredBadly(copy) => w.(row := FailDelivery(w.row, now, copy), copies := w.copies - {copy})
    case WorkerDies(copy) => w.(copies := w.copies - {copy})
    case AtSite(s) => w.(site := NextSite(w.site, s))
  }

  ghost predicate LinkSound(w: Link, c: Callback) {
    && ValidDelivery(w.row) && w.claims == w.row.attempts && SiteSound(w.site)
    && (forall k | k in w.copies || k in w.requests :: k < w.claims)
    && (w.acceptedBy.Some? <==> c.event in w.site.display.applied) && (w.acceptedBy.Some? ==> w.acceptedBy.value < w.claims)
    && (w.row.delivered ==> w.acceptedBy.Some?)
  }

  /** A new row for a site, whatever that has been through. */
  function NewLink(c: Callback, availableAt: int, site: Site, repeats: bool): Link {
    Link(Delivery(c.event, c.sequence, availableAt, 0, None, false, false), 0, {}, {}, None, site, repeats)
  }

  lemma NewRowSound(c: Callback, availableAt: int, site: Site, repeats: bool)
    requires SiteSound(site) && c.event !in site.display.applied
    ensures LinkSound(NewLink(c, availableAt, site, repeats), c) && SiteSound(NewSite())
  {
  }

  lemma LinkKeeps(w: Link, c: Callback, step: LinkStep)
    requires LinkSound(w, c) && CanLink(w, c, step)
    ensures LinkSound(NextLink(w, c, step), c) && DeliveryKept(w.row, NextLink(w, c, step).row)
    ensures w.site.display.applied <= NextLink(w, c, step).site.display.applied
  {
    match step {
      case AtSite(s) =>
        SiteKeeps(w.site, s);
        SiteApplies(w.site, s);
      case Arrives(_, m, s) =>
        ArrivalSound(w.site, c, m, s);
      case WorkerClaims => DeliverySteps(w.row, w.site.server.clock, 0);
      case AnsweredOk(copy) => DeliverySteps(w.row, w.site.server.clock, copy);
      case AnsweredBadly(copy) => DeliverySteps(w.row, w.site.server.clock, copy);
      case _ =>
    }
    hide RetryDelay, SiteSound, NextSite, CanSite, Handle;
  }

  lemma ArrivalSound(x: Site, c: Callback, m: bool, s: bool)
    requires SiteSound(x)
    ensures var (display, r) := Handle(x.display, c, m, s);
            SiteSound(x.(display := display)) && display.applied == if r == Accepted then x.display.applied + [c.event] else x.display.applied
  {
    TerminalKeeps(x.display, Called(c, m, s));
    hide AppliedOnce, ServerSound;
  }

  /** Only an accepted callback is added to what was applied. */
  lemma SiteApplies(x: Site, step: SiteStep)
    ensures NextSite(x, step).display.applied
            == if step.AtScript? && step.event.Called?
                  && Handle(x.display, step.event.callback, step.event.markerWritten, step.event.sequenceWritten).1 == Accepted
               then x.display.applied + [step.event.callback.event] else x.display.applied
  {
  }

  ghost predicate CanLinkAll(w: Link, c: Callback, steps: seq<LinkStep>)
    decreases |steps|
  {
    steps != [] ==> CanLink(w, c, steps[0]) && CanLinkAll(NextLink(w, c, steps[0]), c, steps[1..])
  }

  ghost function LinkAll(w: Link, c: Callback, steps: seq<LinkStep>): Link
    decreases |steps|
  {
    if steps == [] then w else LinkAll(NextLink(w, c, steps[0]), c, steps[1..])
  }

  /** Over any run of redeliveries, stale workers, script resets, polls and answers: the event changes the display at most
      once; it is claimed at most eight times; delivered and given up exclude each other and are final; and a delivery marked
      delivered was accepted by the terminal. */
  lemma {:induction false} AppliedAtMostOnce(w: Link, c: Callback, steps: seq<LinkStep>)
    requires LinkSound(w, c) && CanLinkAll(w, c, steps)
    ensures var end := LinkAll(w, c, steps);
            && LinkSound(end, c) && DeliveryKept(w.row, end.row) && end.claims <= MAX_ATTEMPTS
            && (forall i, j | 0 <= i < |end.site.display.applied| && 0 <= j < |end.site.display.applied|
                              && end.site.display.applied[i] == c.event && end.site.display.applied[j] == c.event :: i == j)
            && (end.row.delivered ==> c.event in end.site.display.applied)
    decreases |steps|
  {
    hide CanLink, NextLink;
    if steps != [] {
      LinkKeeps(w, c, steps[0]);
      AppliedAtMostOnce(NextLink(w, c, steps[0]), c, steps[1..]);
    }
  }

  // ---------- which events can still be applied, and which delivered ----------

  /** The answer to the poll under way, given or still to be given, may be below the event. */
  ghost predicate PollMayLower(x: Site, n: int) {
    && x.display.pending.Some?
    && if x.served.Some? then x.served.value < n else AnswersBelow(x.server, x.display.pending.value, n)
  }

  /** The event has no marker, and gSequence is below it now, or may be after a reset or after the answer to the poll under
      way.  What that answer may be is computed by `AnswersBelowIff`. */
  ghost predicate Open(x: Site, c: Callback) {
    && 1 <= c.sequence && c.event !in x.display.markers
    && (x.display.gSequence < c.sequence || x.display.stored < c.sequence || PollMayLower(x, c.sequence))
  }

  lemma ServingShut(x: Site, c: Callback)
    requires SiteSound(x) && CanSite(x, Serves) && !Open(x, c)
    ensures !Open(NextSite(x, Serves), c)
  {
    assert MayServe(x.server, x.display.pending.value, x.server.clock);
    hide AnswerAt, Kept, MayServe, SiteSound;
  }

  lemma ServerShut(x: Site, c: Callback, work: ServerStep)
    requires SiteSound(x) && CanServer(x.server, work) && !Open(x, c)
    ensures !Open(NextSite(x, AtServer(work)), c)
  {
    var next := NextSite(x, AtServer(work));
    hide AnswersBelow, NextServer;
    if next.display.pending.Some? && AnswersBelow(next.server, next.display.pending.value, c.sequence) {
      AnswersNeverFall(x.server, work, next.display.pending.value, c.sequence);
    }
  }

  /** A poll that names no earlier event than n is never answered below n. */
  lemma FreshPollShut(s: Server, poll: Poll, n: int)
    requires poll.sequence >= n
    ensures !AnswersBelow(s, poll, n)
  {
    forall now | MayServe(s, poll, now) ensures AnswerAt(s.rows, now, poll.sequence) >= n {
      AnswerAtLeast(s.rows, now, poll.sequence);
    }
    hide AnswerAt;
  }

  lemma ScriptShut(x: Site, c: Callback, t: TerminalStep)
    requires SiteSound(x) && CanSite(x, AtScript(t)) && !Open(x, c) && c.event !in x.display.applied
    requires t.Called? && t.callback.event == c.event ==> t.callback == c
    ensures !Open(NextSite(x, AtScript(t)), c) && c.event !in NextSite(x, AtScript(t)).display.applied
  {
    var next := NextSite(x, AtScript(t));
    if next.display.pending.Some? && next.display.pending.value.sequence >= c.sequence {
      FreshPollShut(x.server, next.display.pending.value, c.sequence);
    }
    hide AnswersBelow, AppliedOnce, ServerSound;
  }

  /** Once an event is shut out it stays so. */
  lemma ShutStays(x: Site, c: Callback, step: SiteStep)
    requires SiteSound(x) && CanSite(x, step) && !Open(x, c) && c.event !in x.display.applied
    requires step.AtScript? && step.event.Called? && step.event.callback.event == c.event ==> step.event.callback == c
    ensures !Open(NextSite(x, step), c) && c.event !in NextSite(x, step).display.applied
  {
    match step {
      case AtScript(t) => ScriptShut(x, c, t);
      case AtServer(work) => ServerShut(x, c, work);
      case Serves => ServingShut(x, c);
    }
    hide SiteSound, Open, AnswerAt, NextServer, NextTerminal, MayServe, CanServer;
  }

  /** The same for any step of the link. */
  lemma ShutOut(w: Link, c: Callback, step: LinkStep)
    requires LinkSound(w, c) && CanLink(w, c, step) && !Open(w.site, c) && c.event !in w.site.display.applied
    ensures !Open(NextLink(w, c, step).site, c) && c.event !in NextLink(w, c, step).site.display.applied
  {
    hide SiteSound, Open, ClaimDelivery, MarkDelivered, FailDelivery, ValidDelivery;
    match step {
      case AtSite(s) => ShutStays(w.site, c, s);
      case Arrives(_, m, s) => ShutStays(w.site, c, AtScript(Called(c, m, s)));
      case _ =>
    }
    hide NextSite;
    if step.Arrives? {
      CallOnly(w.site, c, step.markerWritten, step.sequenceWritten);
    }
  }

  lemma CallOnly(x: Site, c: Callback, m: bool, s: bool)
    ensures NextSite(x, AtScript(Called(c, m, s))) == x.(display := Handle(x.display, c, m, s).0)
  {
    hide Handle;
  }

  lemma {:induction false} ShutInRuns(w: Link, c: Callback, steps: seq<LinkStep>)
    requires LinkSound(w, c) && CanLinkAll(w, c, steps)
    requires c.event !in w.site.display.applied && !Open(w.site, c)
    ensures var end := LinkAll(w, c, steps);
            c.event !in end.site.display.applied && !Open(end.site, c) && !end.row.delivered
    decreases |steps|
  {
    hide CanLink, NextLink, Open;
    if steps != [] {
      LinkKeeps(w, c, steps[0]);
      ShutOut(w, c, steps[0]);
      ShutInRuns(NextLink(w, c, steps[0]), c, steps[1..]);
    }
  }

  /** No request for the event can arrive any more. */
  predicate Silent(w: Link) {
    w.requests == {} && (w.row.dead || w.row.attempts == MAX_ATTEMPTS)
  }

  /** Shut out by its terminal, or never to arrive there. */
  ghost predicate Lost(w: Link, c: Callback) {
    c.event !in w.site.display.applied && (!Open(w.site, c) || Silent(w))
  }

  lemma LostStays(w: Link, c: Callback, step: LinkStep)
    requires LinkSound(w, c) && CanLink(w, c, step) && Lost(w, c)
    ensures Lost(NextLink(w, c, step), c)
  {
    if !Open(w.site, c) {
      ShutOut(w, c, step);
    } else if step.AtSite? {
      SiteApplies(w.site, step.step);
    }
    hide RetryDelay, Open, CanSite, NextSite, SiteSound;
  }

  lemma {:induction false} LostInRuns(w: Link, c: Callback, steps: seq<LinkStep>)
    requires LinkSound(w, c) && CanLinkAll(w, c, steps) && Lost(w, c)
    ensures var end := LinkAll(w, c, steps); Lost(end, c) && !end.row.delivered
    decreases |steps|
  {
    hide CanLink, NextLink, Lost;
    if steps != [] {
      LinkKeeps(w, c, steps[0]);
      LostStays(w, c, steps[0]);
      LostInRuns(NextLink(w, c, steps[0]), c, steps[1..]);
    } else {
      LostUndelivered(w, c);
    }
  }

  lemma LostUndelivered(w: Link, c: Callback)
    requires LinkSound(w, c) && Lost(w, c)
    ensures !w.row.delivered
  {
  }

  lemma OneStep(w: Link, c: Callback, step: LinkStep)
    ensures CanLinkAll(w, c, [step]) <==> CanLink(w, c, step)
    ensures LinkAll(w, c, [step]) == NextLink(w, c, step)
  {
    hide CanLink, NextLink;
    assert [step][1..] == [];
  }

  lemma {:induction false} Continue(w: Link, c: Callback, steps: seq<LinkStep>, more: seq<LinkStep>)
    ensures CanLinkAll(w, c, steps + more) <==> CanLinkAll(w, c, steps) && CanLinkAll(LinkAll(w, c, steps), c, more)
    ensures LinkAll(w, c, steps + more) == LinkAll(LinkAll(w, c, steps), c, more)
    decreases |steps|
  {
    hide CanLink, NextLink;
    if steps == [] {
      assert steps + more == more;
    } else {
      assert (steps + more)[0] == steps[0] && (steps + more)[1..] == steps[1..] + more;
      Continue(NextLink(w, c, steps[0]), c, steps[1..], more);
    }
  }

  /** The terminal would accept the event now. */
  predicate Ready(x: Site, c: Callback) {
    1 <= c.sequence && c.event !in x.display.markers && x.display.gSequence < c.sequence
  }

  /** The steps lead from one link to the other, and concern the site alone. */
  ghost predicate SiteMoves(w: Link, c: Callback, steps: seq<LinkStep>, v: Link) {
    CanLinkAll(w, c, steps) && LinkAll(w, c, steps) == v && v == w.(site := v.site)
  }

  /** The steps that make an open event acceptable: none, a reset, or the answer to the poll under way, served at a time at
      which it is low enough. */
  lemma WayIn(w: Link, c: Callback) returns (steps: seq<LinkStep>, v: Link)
    requires Open(w.site, c)
    ensures SiteMoves(w, c, steps, v) && Ready(v.site, c)
  {
    var x := w.site;
    if x.display.gSequence < c.sequence {
      steps, v := [], w;
    } else if x.display.stored < c.sequence {
      var reset := AtSite(AtScript(Resets(true, 0)));
      steps, v := [reset], NextLink(w, c, reset);
      OneStep(w, c, reset);
    } else if x.served.Some? {
      var answer := AtSite(AtScript(PollAnswered(x.served.value, x.display.shown)));
      steps, v := [answer], NextLink(w, c, answer);
      OneStep(w, c, answer);
    } else {
      steps, v := ServedIn(w, c);
    }
  }

  lemma ServedIn(w: Link, c: Callback) returns (steps: seq<LinkStep>, v: Link)
    requires 1 <= c.sequence && c.event !in w.site.display.markers && w.site.display.pending.Some? && w.site.served.None?
    requires AnswersBelow(w.site.server, w.site.display.pending.value, c.sequence)
    ensures SiteMoves(w, c, steps, v) && Ready(v.site, c)
  {
    hide AnswerAt, Kept;
    var x := w.site;
    var now :| MayServe(x.server, x.display.pending.value, now) && AnswerAt(x.server.rows, now, x.display.pending.value.sequence) < c.sequence;
    var r := AnswerAt(x.server.rows, now, x.display.pending.value.sequence);
    var s1, s2, s3 := AtSite(AtServer(Passes(now))), AtSite(Serves), AtSite(AtScript(PollAnswered(r, x.display.shown)));
    var w1 := NextLink(w, c, s1);
    var w2 := NextLink(w1, c, s2);
    v := NextLink(w2, c, s3);
    steps := [s1] + ([s2] + [s3]);
    assert CanLink(w, c, s1) && CanLink(w1, c, s2) && w2.site.served == Some(r) && CanLink(w2, c, s3);
    hide CanLink, NextLink;
    OneStep(w, c, s1);
    OneStep(w1, c, s2);
    OneStep(w2, c, s3);
    Continue(w1, c, [s2], [s3]);
    Continue(w, c, [s1], [s2] + [s3]);
  }

  lemma Accepts(w: Link, c: Callback, copy: nat)
    requires Ready(w.site, c) && copy in w.requests
    ensures var v := NextLink(w, c, Arrives(copy, true, true));
            && CanLink(w, c, Arrives(copy, true, true)) && v.row == w.row && v.copies == w.copies && v.acceptedBy == Some(copy)
            && c.event in v.site.display.applied
  {
  }

  /** A time, not before now, at which a row is due that was neither delivered nor given up. */
  function DueTime(row: Delivery, now: int): int {
    var free := if row.claimedAt.Some? then row.claimedAt.value + CALLBACK_LEASE + 1 else row.availableAt;
    var due := if free >= row.availableAt then free else row.availableAt;
    if due >= now then due else now
  }

  /** A row that may still be claimed can be claimed once more, when its time has come, and the claimant makes a request. */
  lemma ClaimAgain(w: Link, c: Callback) returns (steps: seq<LinkStep>, v: Link)
    requires !w.row.delivered && !w.row.dead && w.row.attempts < MAX_ATTEMPTS
    ensures CanLinkAll(w, c, steps) && LinkAll(w, c, steps) == v
    ensures v.site.display == w.site.display && w.row.attempts in v.copies && w.row.attempts in v.requests
    ensures !v.row.delivered && !v.row.dead && v.acceptedBy == w.acceptedBy
  {
    var wait := AtSite(AtServer(Passes(DueTime(w.row, w.site.server.clock))));
    var w1 := NextLink(w, c, wait);
    v := NextLink(w1, c, WorkerClaims);
    steps := [wait] + [WorkerClaims];
    assert IsDue(w1.row, w1.site.server.clock);
    assert CanLink(w, c, wait) && CanLink(w1, c, WorkerClaims);
    OneStep(w, c, wait);
    OneStep(w1, c, WorkerClaims);
    hide CanLink, NextLink;
    Continue(w, c, [wait], [WorkerClaims]);
  }

  /** An open event whose request may still arrive, or whose row may still be claimed, can be accepted. */
  lemma OpenIsApplied(w: Link, c: Callback, carried: Option<nat>) returns (steps: seq<LinkStep>, copy: nat, v: Link)
    requires Open(w.site, c)
    requires if carried.Some? then carried.value in w.requests else !w.row.delivered && !w.row.dead && w.row.attempts < MAX_ATTEMPTS
    ensures CanLinkAll(w, c, steps) && LinkAll(w, c, steps) == v && v.acceptedBy == Some(copy) && c.event in v.site.display.applied
    ensures carried.Some? ==> copy == carried.value && v.row == w.row && v.copies == w.copies
    ensures carried.None? ==> copy in v.copies && !v.row.delivered && !v.row.dead
  {
    hide Open, CanLink, NextLink, Handle;
    var way, w1 := WayIn(w, c);
    var claim: seq<LinkStep>, w2 := [], w1;
    copy := w1.row.attempts;
    if carried.Some? {
      copy := carried.value;
    } else {
      claim, w2 := ClaimAgain(w1, c);
    }
    var last := Arrives(copy, true, true);
    Accepts(w2, c, copy);
    v := NextLink(w2, c, last);
    OneStep(w2, c, last);
    Continue(w1, c, claim, [last]);
    Continue(w, c, way, claim + [last]);
    steps := way + (claim + [last]);
  }

  /** An event that was not applied yet can still be applied, in some continuation, if and only if it is open, and a request
      for it may still arrive or its row may still be claimed. */
  lemma AppliedLaterIff(w: Link, c: Callback)
    requires LinkSound(w, c) && c.event !in w.site.display.applied
    ensures (exists steps :: CanLinkAll(w, c, steps) && c.event in LinkAll(w, c, steps).site.display.applied)
            <==> Open(w.site, c) && (w.requests != {} || (!w.row.dead && w.row.attempts < MAX_ATTEMPTS))
  {
    hide Open, CanLinkAll, LinkAll, SiteSound;
    if Lost(w, c) {
      forall steps | CanLinkAll(w, c, steps) ensures c.event !in LinkAll(w, c, steps).site.display.applied {
        LostInRuns(w, c, steps);
      }
    } else {
      var carried: Option<nat> := None;
      if k :| k in w.requests {
        carried := Some(k);
      }
      var steps, copy, v := OpenIsApplied(w, c, carried);
    }
  }

  // ---------- which deliveries can still be marked ----------

  /** Some worker may yet get an OK answer: the one whose request was accepted, or one whose request may still be. */
  ghost predicate MayBeAnswered(w: Link, c: Callback) {
    if w.acceptedBy.Some? then w.acceptedBy.value in w.copies
    else Open(w.site, c) && ((exists copy :: copy in w.copies && copy in w.requests) || w.row.attempts < MAX_ATTEMPTS)
  }

  lemma UnansweredStays(w: Link, c: Callback, step: LinkStep)
    requires LinkSound(w, c) && CanLink(w, c, step) && !w.row.delivered && (w.row.dead || !MayBeAnswered(w, c))
    ensures var v := NextLink(w, c, step); !v.row.delivered && (v.row.dead || !MayBeAnswered(v, c))
  {
    LinkKeeps(w, c, step);
    var v := NextLink(w, c, step);
    if !v.row.dead {
      if w.acceptedBy.None? && !Open(w.site, c) {
        ShutOut(w, c, step);
      }
      assert v.row.attempts > w.row.attempts ==> v.copies == w.copies + {w.row.attempts} && w.row.attempts < MAX_ATTEMPTS;
    }
    hide RetryDelay, Open, CanSite, NextSite, SiteSound, Handle, ValidDelivery;
  }

  lemma {:induction false} UnansweredInRuns(w: Link, c: Callback, steps: seq<LinkStep>)
    requires LinkSound(w, c) && CanLinkAll(w, c, steps) && !w.row.delivered && (w.row.dead || !MayBeAnswered(w, c))
    ensures !LinkAll(w, c, steps).row.delivered
    decreases |steps|
  {
    hide LinkSound, CanLink, NextLink, MayBeAnswered;
    if steps != [] {
      LinkKeeps(w, c, steps[0]);
      UnansweredStays(w, c, steps[0]);
      UnansweredInRuns(NextLink(w, c, steps[0]), c, steps[1..]);
    }
  }

  /** A row that was not marked delivered yet can still be, in some continuation, if and only if it was not given up and some
      worker may yet get an OK answer.  In particular a row whose OK answer was lost is never marked. */
  lemma DeliveredLaterIff(w: Link, c: Callback)
    requires LinkSound(w, c) && !w.row.delivered
    ensures (exists steps :: CanLinkAll(w, c, steps) && LinkAll(w, c, steps).row.delivered) <==> !w.row.dead && MayBeAnswered(w, c)
  {
    if w.row.dead || !MayBeAnswered(w, c) {
      forall steps | CanLinkAll(w, c, steps) ensures !LinkAll(w, c, steps).row.delivered {
        UnansweredInRuns(w, c, steps);
      }
    } else if w.acceptedBy.Some? {
      OkMarks(w, c, w.acceptedBy.value);
    } else {
      var carried: Option<nat> := None;
      if k :| k in w.copies && k in w.requests {
        carried := Some(k);
      }
      var steps, copy, v := OpenIsApplied(w, c, carried);
      OkMarks(v, c, copy);
      Continue(w, c, steps, [AnsweredOk(copy)]);
    }
    hide Open, CanLinkAll, LinkAll, LinkSound;
  }

  lemma OkMarks(w: Link, c: Callback, copy: nat)
    requires !w.row.delivered && !w.row.dead && copy in w.copies && w.acceptedBy == Some(copy)
    ensures CanLinkAll(w, c, [AnsweredOk(copy)]) && LinkAll(w, c, [AnsweredOk(copy)]).row.delivered
  {
    OneStep(w, c, AnsweredOk(copy));
  }

  // ---------- events that are shut out without having been shown ----------

  /** An event whose marker was written, but which was not applied, is never applied and never delivered. */
  lemma MarkedIsLost(w: Link, c: Callback, steps: seq<LinkStep>)
    requires LinkSound(w, c) && CanLinkAll(w, c, steps) && c.event in w.site.display.markers && c.event !in w.site.display.applied
    ensures var end := LinkAll(w, c, steps); c.event !in end.site.display.applied && !end.row.delivered
  {
    ShutInRuns(w, c, steps);
  }

  /** The terminal refuses the event as a replay, whichever of its writes would succeed. */
  ghost predicate TakenForReplay(d: Display, c: Callback) {
    forall m, s :: Handle(d, c, m, s) == (d, Replayed)
  }

  /** Shut out in whatever follows: never shown, never delivered, always refused. */
  lemma ShutForGood(w: Link, c: Callback, more: seq<LinkStep>)
    requires 1 <= c.sequence && LinkSound(w, c) && c.event !in w.site.display.applied && !Open(w.site, c) && CanLinkAll(w, c, more)
    ensures var end := LinkAll(w, c, more);
            c.event !in end.site.display.applied && !end.row.delivered && TakenForReplay(end.site.display, c)
  {
    ShutInRuns(w, c, more);
    hide LinkSound, CanLink, NextLink, PollMayLower;
  }

  /** A new row for a new terminal, claimed once. */
  function Claimed(c: Callback, repeats: bool): Link {
    NextLink(NewLink(c, 0, NewSite(), repeats), c, WorkerClaims)
  }

  /** First failing input: the marker is written and the sequence is not.  The terminal answers 503, and the event, which it
      never showed, is refused in whatever follows. */
  lemma MarkerAlone(c: Callback, repeats: bool, more: seq<LinkStep>)
    requires 1 <= c.sequence && CanLinkAll(NextLink(Claimed(c, repeats), c, Arrives(0, true, false)), c, more)
    ensures CanLink(Claimed(c, repeats), c, Arrives(0, true, false)) && Handle(Blank(), c, true, false).1 == Unavailable
    ensures var end := LinkAll(NextLink(Claimed(c, repeats), c, Arrives(0, true, false)), c, more);
            c.event !in end.site.display.applied && !end.row.delivered && TakenForReplay(end.site.display, c)
  {
    var w := NextLink(Claimed(c, repeats), c, Arrives(0, true, false));
    assert LinkSound(w, c) && !Open(w.site, c);
    hide LinkSound, CanLink, NextLink, Open, TakenForReplay;
    ShutForGood(w, c, more);
  }

  /** Second failing input: the sequence is written and the marker is not.  The terminal answers 503 and would still take the
      event, but after a reset it refuses it in whatever follows, although it has no marker. */
  lemma SequenceAlone(c: Callback, repeats: bool, made: bool, stamp: int, more: seq<LinkStep>)
    requires 1 <= c.sequence
    requires var unsaved := NextLink(Claimed(c, repeats), c, Arrives(0, false, true));
             CanLinkAll(NextLink(unsaved, c, AtSite(AtScript(Resets(made, stamp)))), c, more)
    ensures CanLink(Claimed(c, repeats), c, Arrives(0, false, true)) && Handle(Blank(), c, false, true).1 == Unavailable
    ensures var unsaved := NextLink(Claimed(c, repeats), c, Arrives(0, false, true));
            var reset := NextLink(unsaved, c, AtSite(AtScript(Resets(made, stamp))));
            var end := LinkAll(reset, c, more);
            && Open(unsaved.site, c) && c.event !in reset.site.display.markers
            && c.event !in end.site.display.applied && !end.row.delivered && TakenForReplay(end.site.display, c)
  {
    var unsaved := NextLink(Claimed(c, repeats), c, Arrives(0, false, true));
    var w := NextLink(unsaved, c, AtSite(AtScript(Resets(made, stamp))));
    FreshPollShut(w.site.server, Poll(c.sequence, stamp), c.sequence);
    assert LinkSound(w, c) && !Open(w.site, c);
    hide LinkSound, CanLink, NextLink, Open, TakenForReplay;
    ShutForGood(w, c, more);
  }

  /** The site of a new terminal that polls once events 1 and 2 are committed, and then accepts the callback of event 2. */
  function Overtaking(other: Callback): Site {
    var x1 := NextSite(NewSite(), AtServer(Commits(1)));
    var x2 := NextSite(x1, AtServer(Commits(2)));
    var x3 := NextSite(x2, AtScript(Polls(true, 0)));
    NextSite(x3, AtScript(Called(other, true, true)))
  }

  function OvertakingSteps(other: Callback): seq<SiteStep> {
    [AtServer(Commits(1)), AtServer(Commits(2)), AtScript(Polls(true, 0)), AtScript(Called(other, true, true))]
  }

  lemma OvertakingRuns(other: Callback)
    ensures CanSiteAll(NewSite(), OvertakingSteps(other)) && SiteAll(NewSite(), OvertakingSteps(other)) == Overtaking(other)
  {
    SiteFour(NewSite(), AtServer(Commits(1)), AtServer(Commits(2)), AtScript(Polls(true, 0)), AtScript(Called(other, true, true)));
    hide Handle;
  }

  /** Third failing input: event 2 overtakes event 1.  The poll under way was sent from below both, but it is answered with 2
      at least, and event 1 is refused in whatever follows, although it has no marker and no write failed. */
  lemma Overtaken(c: Callback, other: Callback, repeats: bool, more: seq<LinkStep>)
    requires c.sequence == 1 && other.sequence == 2 && other.event != c.event
    requires CanLinkAll(NewLink(c, 0, Overtaking(other), repeats), c, more)
    ensures CanSiteAll(NewSite(), OvertakingSteps(other)) && SiteAll(NewSite(), OvertakingSteps(other)) == Overtaking(other)
    ensures var w := NewLink(c, 0, Overtaking(other), repeats);
            var end := LinkAll(w, c, more);
            && w.site.display.pending == Some(Poll(0, 0)) && w.site.display.applied == [other.event] && c.event !in w.site.display.markers
            && c.event !in end.site.display.applied && !end.row.delivered && TakenForReplay(end.site.display, c)
  {
    OvertakingRuns(other);
    hide CanSiteAll, SiteAll;
    var x := Overtaking(other);
    assert x.server == Server([Row(1, 0), Row(2, 0)], 2, 0) && x.display.pending == Some(Poll(0, 0)) && x.served.None?;
    forall now | MayServe(x.server, Poll(0, 0), now) ensures AnswerAt(x.server.rows, now, 0) >= 1 {
      TwoRows(now);
    }
    assert !Open(x, c) && SiteSound(x);
    NewRowSound(c, 0, x, repeats);
    hide LinkSound, CanLink, NextLink, Open, TakenForReplay, Overtaking;
    ShutForGood(NewLink(c, 0, x, repeats), c, more);
  }

  // ---------- as code ----------

  const NULL_KEY: Id := 0

  class CallbackTerminal {
    var markers: map<Id, int>
    var stored: int
    var gSequence: int
    var gPollRequest: Id
    var shown: Shown
    ghost var carried: Poll       // the poll under way
    ghost var applied: seq<Id>

    ghost function State(): Display
      reads this
    {
      Display(markers, stored, gSequence, if gPollRequest != NULL_KEY then Some(carried) else None, shown, applied)
    }

    constructor ()
      ensures State() == Blank()
    {
      markers, stored, gSequence, gPollRequest, shown := map[], 0, 0, NULL_KEY, Shown(None, 0);
      carried, applied := Poll(0, 0), [];
    }

    method HandleCallback(c: Callback, markerWritten: bool, sequenceWritten: bool) returns (status: int)
      modifies this
      ensures State() == NextTerminal(old(State()), Called(c, markerWritten, sequenceWritten))
      ensures status == (match Handle(old(State()), c, markerWritten, sequenceWritten).1
                         case Accepted => 200 case Refused => 400 case Replayed => 409 case Unavailable => 503)
    {
      if c.sequence < 1 {
        return 400;
      }
      if c.sequence <= gSequence {
        return 409;
      }
      if c.event in markers {
        return 409;
      }
      if sequenceWritten {
        stored := c.sequence;
      }
      if markerWritten {
        markers := markers[c.event := c.sequence];
      }
      if !markerWritten || !sequenceWritten {
        return 503;
      }
      if c.display.Some? {
        shown := c.display.value;
      }
      gSequence := c.sequence;
      applied := applied + [c.event];
      return 200;
    }

    /** `request` is what llHTTPRequest returns if it is called, `time` what llGetUnixTime returns. */
    method PollServer(request: Id, time: int)
      modifies this
      ensures State() == NextTerminal(old(State()), Polls(request != NULL_KEY, time))
      ensures gPollRequest == if old(gPollRequest) != NULL_KEY then old(gPollRequest) else request
    {
      if gPollRequest != NULL_KEY {
        return;
      }
      gPollRequest := request;
      carried := Poll(gSequence, time);
    }

    /** The http_response event, as far as it is about polls: an answer to any other request, one of before a reset included,
        changes nothing here. */
    method HttpResponse(request: Id, status: int, sequence: int, display: Shown)
      requires request != NULL_KEY
      modifies this
      ensures request != old(gPollRequest) ==> State() == old(State())
      ensures request == old(gPollRequest) ==>
                State() == NextTerminal(old(State()), if status == 200 then PollAnswered(sequence, display) else PollFailed)
    {
      if request == gPollRequest {
        gPollRequest := NULL_KEY;
        if status == 200 {
          gSequence := sequence;
          shown := display;
        }
      }
    }

    /** state_entry; `request` is what llHTTPRequest returns, `time` what llGetUnixTime returns. */
    method ResetScript(request: Id, time: int)
      modifies this
      ensures State() == NextTerminal(old(State()), Resets(request != NULL_KEY, time))
    {
      gSequence, shown, gPollRequest := stored, Shown(None, 0), NULL_KEY;
      PollServer(request, time);
    }
  }

  class Deliveries {
    var rows: map<Id, Delivery>

    constructor (rows: map<Id, Delivery>)
      ensures this.rows == rows
    {
      this.rows := rows;
    }

    /** claimTerminalCallback; `id` names a row that need not be due. */
    method Claim(now: int, id: Id) returns (item: Option<Delivery>)
      modifies this
      ensures id !in old(rows) ==> item.None? && rows == old(rows)
      ensures id in old(rows) ==>
                && rows == old(rows)[id := ClaimDelivery(old(rows)[id], now).0]
                && item == (if ClaimDelivery(old(rows)[id], now).1.Some? then Some(old(rows)[id]) else None)
    {
      if !(id in rows && IsDue(rows[id], now)) {
        assert id in rows ==> rows[id := rows[id]] == rows;
        return None;
      }
      var d := rows[id];
      if d.attempts >= MAX_ATTEMPTS {
        rows := rows[id := d.(dead := true, claimedAt := None)];
        return None;
      }
      rows := rows[id := d.(claimedAt := Some(now), attempts := d.attempts + 1)];
      return Some(d);
    }

    /** recordFailure. */
    method RecordFailure(now: int, id: Id, item: Delivery)
      requires id in rows
      modifies this
      ensures rows == old(rows)[id := FailDelivery(old(rows)[id], now, item.attempts)]
    {
      var d := rows[id];
      if !d.delivered {
        rows := rows[id := d.(claimedAt := None, availableAt := now + RetryDelay(item.attempts + 1),
                              dead := d.dead || d.attempts >= MAX_ATTEMPTS)];
      } else {
        assert rows[id := d] == rows;
      }
    }

    /** runOneTerminalCallback, for the answer that the terminal gave; `none` stands for a timeout or a network error. */
    method RunOne(now: int, id: Id, item: Delivery, answer: Option<int>)
      requires id in rows
      modifies this
      ensures var success := answer.Some? && 200 <= answer.value < 300;
              rows == old(rows)[id := if success then MarkDelivered(old(rows)[id], now, item.attempts)
                                      else FailDelivery(old(rows)[id], now, item.attempts)]
    {
      var d := rows[id];
      if answer.None? || !(200 <= answer.value < 300) {
        RecordFailure(now, id, item);
      } else if d.delivered {
        assert rows[id := d] == rows;
      } else if d.dead {
        // CHECK (delivered_at IS NULL OR dead_lettered_at IS NULL) refuses the update; the catch block records it.
        RecordFailure(now, id, item);
      } else {
        rows := rows[id := d.(delivered := true, claimedAt := None)];
      }
    }
  }
}
