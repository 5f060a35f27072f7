/** The server's side of the terminal's polls: the table of outbound events with its retention, and the answers. */
module Polls {
  import opened Tables

  const PAGE := 20
  const RETENTION := 2592000
  const FRESHNESS := 300

  /** A terminal_outbound_events row of the terminal. */
  datatype Row = Row(id: int, createdAt: int)

  /** DELETE ... WHERE created_at < now() - 30 days. */
  function Kept(rows: seq<Row>, now: int): seq<Row> {
    if rows == [] then []
    else
      var last := rows[|rows| - 1];
      Kept(rows[..|rows| - 1], now) + (if last.createdAt < now - RETENTION then [] else [last])
  }

  function Ids(rows: seq<Row>): (ids: seq<int>)
    ensures |ids| == |rows| && forall i | 0 <= i < |rows| :: ids[i] == rows[i].id
  {
    seq(|rows|, i requires 0 <= i < |rows| => rows[i].id)
  }

  ghost predicate Ascending(events: seq<int>) {
    forall i, j | 0 <= i < j < |events| :: events[i] < events[j]
  }

  /** WHERE id > sequence. */
  function Later(events: seq<int>, sequence: int): seq<int> {
    if events == [] then [] else (if events[0] > sequence then [events[0]] else []) + Later(events[1..], sequence)
  }

  /** LIMIT 20. */
  function Page(events: seq<int>, sequence: int): seq<int> {
    var later := Later(events, sequence);
    if |later| <= PAGE then later else later[..PAGE]
  }

  /** The sequence of the answer: the last event on the page, or the one that the poll named. */
  function PollSequence(events: seq<int>, sequence: int): int {
    var page := Page(events, sequence);
    if page == [] then sequence else page[|page| - 1]
  }

  /** What a poll that names `sequence` is answered at the time: the route deletes first and then reads. */
  function AnswerAt(rows: seq<Row>, now: int, sequence: int): int {
    PollSequence(Ids(Kept(rows, now)), sequence)
  }

  // ---------- pages ----------

  lemma {:induction false} LaterAll(events: seq<int>, sequence: int)
    requires forall i | 0 <= i < |events| :: events[i] > sequence
    ensures Later(events, sequence) == events
  {
    if events != [] {
      LaterAll(events[1..], sequence);
    }
  }

  /** Of ordered rows, those with an id above `sequence` are a suffix. */
  lemma {:induction false} LaterIsSuffix(events: seq<int>, sequence: int) returns (k: nat)
    requires Ascending(events)
    ensures k <= |events| && Later(events, sequence) == events[k..]
    ensures (k > 0 ==> events[k - 1] <= sequence) && (k < |events| ==> events[k] > sequence)
  {
    k := 0;
    if events != [] && events[0] > sequence {
      LaterAll(events, sequence);
    } else if events != [] {
      assert Ascending(events[1..]);
      hide Ascending;
      var rest := LaterIsSuffix(events[1..], sequence);
      k := rest + 1;
      assert events[1..][rest..] == events[k..];
    }
  }

  /** The rows after the one at m - 1. */
  lemma {:induction false} LaterThanRow(events: seq<int>, m: nat)
    requires Ascending(events) && 0 < m <= |events|
    ensures Later(events, events[m - 1]) == events[m..]
  {
    var rest := events[1..];
    if m == 1 {
      LaterAll(rest, events[0]);
    } else {
      assert Ascending(rest) && events[0] < events[m - 1] == rest[m - 2];
      hide Ascending;
      LaterThanRow(rest, m - 1);
      assert rest[m - 1..] == events[m..];
    }
  }

  lemma PageOf(events: seq<int>, sequence: int, k: nat)
    requires k <= |events| && Later(events, sequence) == events[k..]
    ensures var page := Page(events, sequence);
            k + |page| <= |events| && page == events[k..k + |page|] && (page == [] <==> k == |events|)
  {
    hide Later;
  }

  /** Of rows k and later, m - 1 has no lower id than k. */
  lemma RowsAscend(events: seq<int>, k: nat, m: nat)
    requires Ascending(events) && k < m <= |events|
    ensures events[k] <= events[m - 1]
  {
  }

  /** An answer never names an earlier event than its poll, names the same one only if there is no later event, and leaves
      exactly the events after its page to the polls that follow: none is skipped, none handed over twice. */
  lemma PollPages(events: seq<int>, sequence: int)
    requires Ascending(events)
    ensures PollSequence(events, sequence) >= sequence
    ensures PollSequence(events, sequence) == sequence <==> Later(events, sequence) == []
    ensures Later(events, sequence) == Page(events, sequence) + Later(events, PollSequence(events, sequence))
  {
    hide Ascending, Later, Page;
    var k := LaterIsSuffix(events, sequence);
    PageOf(events, sequence, k);
    var page := Page(events, sequence);
    var m := k + |page|;
    if page != [] {
      RowsAscend(events, k, m);
      LaterThanRow(events, m);
      assert events[k..] == events[k..m] + events[m..];
    }
  }

  // ---------- how an answer may change before it is given ----------

  lemma {:induction false} LaterAppend(events: seq<int>, id: int, sequence: int)
    ensures Later(events + [id], sequence) == Later(events, sequence) + (if id > sequence then [id] else [])
  {
    if events == [] {
      assert [] + [id] == [id] && [id][1..] == [];
    } else {
      assert (events + [id])[0] == events[0] && (events + [id])[1..] == events[1..] + [id];
      LaterAppend(events[1..], id, sequence);
    }
  }

  lemma {:induction false} LaterFrom(events: seq<int>, sequence: int)
    ensures forall x | x in Later(events, sequence) :: x in events && x > sequence
  {
    if events != [] {
      var rest := Later(events[1..], sequence);
      LaterFrom(events[1..], sequence);
      forall x | x in Later(events, sequence) ensures x in events && x > sequence {
        assert x in rest || (x == events[0] && x > sequence);
      }
    }
  }

  /** A row with a new highest id never lowers an answer. */
  lemma AppendNeverLowers(events: seq<int>, id: int, sequence: int)
    requires forall x | x in events :: x < id
    ensures PollSequence(events + [id], sequence) >= PollSequence(events, sequence)
  {
    hide Later;
    LaterAppend(events, id, sequence);
    LaterFrom(events, sequence);
    var later := Later(events, sequence);
    assert later != [] ==> later[|later| - 1] in later;
    assert |later| >= PAGE ==> Page(events + [id], sequence) == Page(events, sequence);
  }

  /** Once older rows are gone, later answers are the same as if they were still there. */
  lemma {:induction false} KeptTwice(rows: seq<Row>, now: int, later: int)
    requires now <= later
    ensures Kept(Kept(rows, now), later) == Kept(rows, later)
    decreases |rows|
  {
    if rows != [] {
      var front, last := rows[..|rows| - 1], rows[|rows| - 1];
      KeptTwice(front, now, later);
      if last.createdAt >= now - RETENTION {
        KeptAppend(Kept(front, now), last, later);
      } else {
        assert Kept(rows, now) == Kept(front, now);
      }
    }
  }

  lemma KeptAppend(rows: seq<Row>, row: Row, now: int)
    ensures Kept(rows + [row], now) == Kept(rows, now) + (if row.createdAt < now - RETENTION then [] else [row])
  {
    var all := rows + [row];
    assert all[..|all| - 1] == rows && all[|all| - 1] == row;
  }

  lemma {:induction false} KeptFrom(rows: seq<Row>, now: int)
    ensures forall r | r in Kept(rows, now) :: r in rows
    decreases |rows|
  {
    if rows != [] {
      KeptFrom(rows[..|rows| - 1], now);
    }
  }

  lemma IdsAppend(rows: seq<Row>, row: Row)
    ensures Ids(rows + [row]) == Ids(rows) + [row.id]
  {
  }

  // ---------- the server ----------

  /** The table, the highest identifier ever given to one of its rows, and the clock. */
  datatype Server = Server(rows: seq<Row>, last: int, clock: int)

  /** The sequence in the URL of a poll, and the time stamp that it is signed with, by the terminal's own clock. */
  datatype Poll = Poll(sequence: int, stamp: int)

  datatype ServerStep =
    | Commits(id: int)            // a payment or a health check, under the terminal's row lock
    | Passes(now: int)
    | Purges                      // by the traffic of any terminal

  predicate CanServer(s: Server, step: ServerStep) {
    match step
    case Commits(id) => id > s.last
    case Passes(now) => now >= s.clock
    case Purges => true
  }

  function NextServer(s: Server, step: ServerStep): Server {
    match step
    case Commits(id) => s.(rows := s.rows + [Row(id, s.clock)], last := id)
    case Passes(now) => s.(clock := now)
    case Purges => s.(rows := Kept(s.rows, s.clock))
  }

  /** Rows are in the order of their ids and of their times: the row lock makes transactions on one terminal take turns. */
  ghost predicate Ordered(rows: seq<Row>) {
    forall i, j | 0 <= i < j < |rows| :: rows[i].id < rows[j].id && rows[i].createdAt <= rows[j].createdAt
  }

  ghost predicate ServerSound(s: Server) {
    Ordered(s.rows) && forall r | r in s.rows :: r.id <= s.last && r.createdAt <= s.clock
  }

  /** Of ordered rows, those that are kept are a suffix. */
  lemma {:induction false} KeptIsSuffix(rows: seq<Row>, now: int) returns (k: nat)
    requires Ordered(rows)
    ensures k <= |rows| && Kept(rows, now) == rows[k..]
    decreases |rows|
  {
    k := |rows|;
    if rows != [] {
      var front, last := rows[..|rows| - 1], rows[|rows| - 1];
      if last.createdAt < now - RETENTION {
        KeptNone(rows, now);
      } else {
        assert Ordered(front);
        hide Ordered;
        k := KeptIsSuffix(front, now);
        assert rows[k..] == front[k..] + [last];
      }
    }
  }

  lemma {:induction false} KeptNone(rows: seq<Row>, now: int)
    requires forall i | 0 <= i < |rows| :: rows[i].createdAt < now - RETENTION
    ensures Kept(rows, now) == []
    decreases |rows|
  {
    if rows != [] {
      KeptNone(rows[..|rows| - 1], now);
    }
  }

  lemma ServerKeeps(s: Server, step: ServerStep)
    requires ServerSound(s) && CanServer(s, step)
    ensures ServerSound(NextServer(s, step))
  {
    var k := KeptIsSuffix(s.rows, s.clock);
    hide Kept;
  }

  /** assertFreshTimestamp, at a time that is still to come. */
  predicate MayServe(s: Server, poll: Poll, now: int) {
    s.clock <= now && poll.stamp - FRESHNESS <= now <= poll.stamp + FRESHNESS
  }

  /** At some time at which the poll may still be served, the rows that are there now give it an answer below n. */
  ghost predicate AnswersBelow(s: Server, poll: Poll, n: int) {
    exists now :: MayServe(s, poll, now) && AnswerAt(s.rows, now, poll.sequence) < n
  }

  /** Neither new rows nor retention nor time make lower answers possible. */
  lemma AnswersNeverFall(s: Server, step: ServerStep, poll: Poll, n: int)
    requires ServerSound(s) && CanServer(s, step) && AnswersBelow(NextServer(s, step), poll, n)
    ensures AnswersBelow(s, poll, n)
  {
    var next := NextServer(s, step);
    var now :| MayServe(next, poll, now) && AnswerAt(next.rows, now, poll.sequence) < n;
    match step {
      case Commits(id) => RowNeverLowers(s, Row(id, s.clock), now, poll.sequence);
      case Purges => KeptTwice(s.rows, s.clock, now);
      case Passes(_) =>
    }
    assert MayServe(s, poll, now) && AnswerAt(s.rows, now, poll.sequence) < n;
  }

  lemma RowNeverLowers(s: Server, row: Row, now: int, sequence: int)
    requires ServerSound(s) && row.id > s.last
    ensures AnswerAt(s.rows + [row], now, sequence) >= AnswerAt(s.rows, now, sequence)
  {
    hide Kept, PollSequence;
    var kept := Kept(s.rows, now);
    KeptAppend(s.rows, row, now);
    KeptFrom(s.rows, now);
    forall x | x in Ids(kept) ensures x < row.id {
      var i :| 0 <= i < |kept| && Ids(kept)[i] == x;
      assert kept[i] in s.rows;
    }
    IdsAppend(kept, row);
    AppendNeverLowers(Ids(kept), row.id, sequence);
    assert kept + [] == kept;
  }

  /** Any answer is at least what its poll names, whatever the rows. */
  lemma AnswerAtLeast(rows: seq<Row>, now: int, sequence: int)
    ensures AnswerAt(rows, now, sequence) >= sequence
  {
    hide Later, Kept, Ids;
    var events := Ids(Kept(rows, now));
    LaterFrom(events, sequence);
    var page := Page(events, sequence);
    assert page != [] ==> page[|page| - 1] in Later(events, sequence);
  }

  lemma NoneKept(now: int)
    ensures Kept([], now) == []
  {
  }

  lemma NoneLater(sequence: int)
    ensures Later([], sequence) == []
  {
  }

  /** A single recent row. */
  lemma OneRow(id: int, sequence: int, now: int)
    requires id > sequence && now <= RETENTION
    ensures Kept([Row(id, 0)], now) == [Row(id, 0)] && Ids([Row(id, 0)]) == [id] && Later([id], sequence) == [id]
    ensures Page([id], sequence) == [id] && AnswerAt([Row(id, 0)], now, sequence) == id
  {
    hide Kept, Later;
    NoneKept(now);
    KeptAppend([], Row(id, 0), now);
    assert [] + [Row(id, 0)] == [Row(id, 0)] && Ids([Row(id, 0)]) == [id];
    NoneLater(sequence);
    LaterAppend([], id, sequence);
    assert [] + [id] == [id];
  }

  /** A poll that is sent when events 1 and 2 are recent is answered with 2. */
  lemma TwoRows(now: int)
    requires now <= RETENTION
    ensures AnswerAt([Row(1, 0), Row(2, 0)], now, 0) == 2
  {
    hide Kept, Later;
    OneRow(1, 0, now);
    var rows := [Row(1, 0), Row(2, 0)];
    assert [Row(1, 0)] + [Row(2, 0)] == rows && Ids(rows) == [1] + [2];
    KeptAppend([Row(1, 0)], Row(2, 0), now);
    LaterAppend([1], 2, 0);
  }

  // ---------- the lowest answer that is still possible ----------

  lemma {:induction false} LaterSplit(events: seq<int>, b: nat, sequence: int)
    requires b <= |events|
    ensures Later(events, sequence) == Later(events[..b], sequence) + Later(events[b..], sequence)
  {
    if b == 0 {
      assert events[..0] == [] && events[0..] == events;
    } else {
      LaterSplit(events[1..], b - 1, sequence);
      assert events[..b][0] == events[0] && events[..b][1..] == events[1..][..b - 1] && events[1..][b - 1..] == events[b..];
    }
  }

  lemma LaterAscends(events: seq<int>, sequence: int)
    requires Ascending(events)
    ensures Ascending(Later(events, sequence))
  {
    var k := LaterIsSuffix(events, sequence);
    hide Later;
  }

  /** A table that lacks old rows gives a higher answer, unless it has no row to give. */
  lemma SuffixAnswers(events: seq<int>, b: nat, sequence: int)
    requires Ascending(events) && b <= |events| && Later(events[b..], sequence) != []
    ensures PollSequence(events, sequence) <= PollSequence(events[b..], sequence)
  {
    LaterSplit(events, b, sequence);
    LaterAscends(events, sequence);
    hide Later;
    var all, rest := Later(events, sequence), Later(events[b..], sequence);
    var m, n := if |all| <= PAGE then |all| else PAGE, if |rest| <= PAGE then |rest| else PAGE;
    assert rest[n - 1] == all[|all| - |rest| + n - 1];
  }

  lemma IdsAscend(rows: seq<Row>)
    requires Ordered(rows)
    ensures Ascending(Ids(rows))
  {
  }

  lemma IdsSuffix(rows: seq<Row>, k: nat)
    requires k <= |rows|
    ensures Ids(rows[k..]) == Ids(rows)[k..]
  {
  }

  lemma NothingLater(events: seq<int>, sequence: int)
    ensures Page(events, sequence) == [] <==> Later(events, sequence) == []
    ensures Later(events, sequence) == [] ==> PollSequence(events, sequence) == sequence
  {
    hide Later;
  }

  lemma KeptOrdered(rows: seq<Row>, now: int)
    requires Ordered(rows)
    ensures Ordered(Kept(rows, now))
  {
    var k := KeptIsSuffix(rows, now);
    hide Kept;
  }

  /** The rows of a later time, among those of an earlier one. */
  lemma LaterRows(rows: seq<Row>, now: int, later: int) returns (k: nat)
    requires Ordered(rows) && now <= later
    ensures Ascending(Ids(Kept(rows, now))) && k <= |Ids(Kept(rows, now))| && Ids(Kept(rows, later)) == Ids(Kept(rows, now))[k..]
  {
    hide *;
    KeptOrdered(rows, now);
    KeptTwice(rows, now, later);
    k := KeptIsSuffix(Kept(rows, now), later);
    IdsAscend(Kept(rows, now));
    IdsSuffix(Kept(rows, now), k);
  }

  /** An answer is not below both an earlier and a later one: as rows expire it rises, until none is left to give. */
  lemma AnswerBetween(rows: seq<Row>, a: int, now: int, b: int, sequence: int)
    requires Ordered(rows) && a <= now <= b
    ensures AnswerAt(rows, now, sequence) >= AnswerAt(rows, a, sequence) || AnswerAt(rows, now, sequence) >= AnswerAt(rows, b, sequence)
  {
    hide Kept, Ids, Later, Page, PollSequence, Ordered, Ascending;
    var mid := Ids(Kept(rows, now));
    if Later(mid, sequence) != [] {
      var k := LaterRows(rows, a, now);
      SuffixAnswers(Ids(Kept(rows, a)), k, sequence);
    } else {
      var k := LaterRows(rows, now, b);
      LaterSplit(mid, k, sequence);
      NothingLater(mid, sequence);
      NothingLater(mid[k..], sequence);
    }
  }

  /** Whether the poll may still be answered below n can be read off two answers: the one it would get at the first moment at
      which it may be served, and the one at the last, when rows may have expired. */
  lemma AnswersBelowIff(s: Server, poll: Poll, n: int)
    requires ServerSound(s)
    ensures var first := if s.clock >= poll.stamp - FRESHNESS then s.clock else poll.stamp - FRESHNESS;
            var last := poll.stamp + FRESHNESS;
            AnswersBelow(s, poll, n)
            <==> first <= last && (AnswerAt(s.rows, first, poll.sequence) < n || AnswerAt(s.rows, last, poll.sequence) < n)
  {
    hide AnswerAt;
    var first := if s.clock >= poll.stamp - FRESHNESS then s.clock else poll.stamp - FRESHNESS;
    var last := poll.stamp + FRESHNESS;
    if now :| MayServe(s, poll, now) && AnswerAt(s.rows, now, poll.sequence) < n {
      AnswerBetween(s.rows, first, now, last, poll.sequence);
    }
    if first <= last {
      assert MayServe(s, poll, first) && MayServe(s, poll, last);
    }
  }
}
