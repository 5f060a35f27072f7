/** The fixed-window limiter of one scope and subject: counter rows that are deleted after a day, against the history of
    all hits that were let through.  Instants are in milliseconds. */
module RateLimit {
  const DAY := 86400000

  /** fixedWindowStart. */
  function WindowStart(now: int, size: int): (start: int)
    requires size > 0
    ensures start <= now < start + size
  {
    WindowBounds(now, size);
    now / size * size
  }

  lemma WindowBounds(now: int, size: int)
    requires size > 0
    ensures now / size * size <= now < now / size * size + size
  {
  }

  /** Window starts are whole multiples of the size, so different windows do not overlap. */
  lemma WindowsApart(a: int, b: int, size: int)
    requires size > 0 && WindowStart(a, size) < WindowStart(b, size)
    ensures WindowStart(a, size) + size <= WindowStart(b, size)
  {
    var q, r := a / size, b / size;
    if r <= q {
      Ordered(r, q, size);
      assert false;
    }
    Ordered(q + 1, r, size);
    assert (q + 1) * size == q * size + size;
  }

  lemma Ordered(q: int, r: int, size: int)
    requires size > 0 && q <= r
    ensures q * size <= r * size
  {
  }

  /** Hits from `lo` on and before `hi`. */
  function CountIn(log: seq<int>, lo: int, hi: int): nat {
    if log == [] then 0
    else CountIn(log[..|log| - 1], lo, hi) + (if lo <= log[|log| - 1] < hi then 1 else 0)
  }

  lemma {:induction false} CountSplits(log: seq<int>, lo: int, mid: int, hi: int)
    requires lo <= mid <= hi
    ensures CountIn(log, lo, hi) == CountIn(log, lo, mid) + CountIn(log, mid, hi)
  {
    if log != [] {
      CountSplits(log[..|log| - 1], lo, mid, hi);
    }
  }

  lemma CountAppends(log: seq<int>, now: int, lo: int, hi: int)
    ensures CountIn(log + [now], lo, hi) == CountIn(log, lo, hi) + (if lo <= now < hi then 1 else 0)
  {
    assert (log + [now])[..|log|] == log;
  }

  /** The statement that inserts a row or raises its hits while they are below the limit. */
  function Consumed(rows: map<int, nat>, window: int, limit: nat): (map<int, nat>, bool) {
    if window !in rows then (rows[window := 1], true)
    else if rows[window] < limit then (rows[window := rows[window] + 1], true)
    else (rows, false)
  }

  /** The first hit of a window is inserted without a look at the limit, so the limit is kept exactly when it is at least
      one or the window has a row. */
  lemma LimitKeptIff(rows: map<int, nat>, window: int, limit: nat)
    requires window in rows ==> rows[window] > 0
    ensures (Consumed(rows, window, limit).1 <==> HitsOf(rows, window) < limit) <==> (limit >= 1 || window in rows)
  {
  }

  /** DELETE of the rows whose window started more than a day ago. */
  function Cleaned(rows: map<int, nat>, now: int): map<int, nat> {
    map w | w in rows && w >= now - DAY :: rows[w]
  }

  function HitsOf(rows: map<int, nat>, window: int): nat {
    if window in rows then rows[window] else 0
  }

  /** The window let no more than the limit through, and its row counts them if it started within the last day of the clock. */
  ghost predicate WindowCounts(rows: map<int, nat>, log: seq<int>, clock: int, w: int, size: int, limit: nat) {
    CountIn(log, w, w + size) <= limit && (w >= clock - DAY ==> HitsOf(rows, w) == CountIn(log, w, w + size))
  }

  /** The rows count the history in every window. */
  ghost predicate Counts(rows: map<int, nat>, log: seq<int>, clock: int, size: int, limit: nat)
    requires size > 0
  {
    && (forall t :: WindowCounts(rows, log, clock, WindowStart(t, size), size, limit))
    && (forall w | w in rows :: rows[w] > 0)
  }

  lemma ConsumeWindow(rows: map<int, nat>, log: seq<int>, clock: int, now: int, t: int, size: int, limit: nat)
    requires 0 < size <= DAY && limit >= 1 && clock <= now && (forall w | w in rows :: rows[w] > 0)
    requires WindowCounts(rows, log, clock, WindowStart(now, size), size, limit)
    requires WindowCounts(rows, log, clock, WindowStart(t, size), size, limit)
    ensures var (after, allowed) := Consumed(rows, WindowStart(now, size), limit);
            WindowCounts(after, if allowed then log + [now] else log, now, WindowStart(t, size), size, limit)
  {
    var v, w := WindowStart(t, size), WindowStart(now, size);
    CountAppends(log, now, v, v + size);
    if v < w {
      WindowsApart(t, now, size);
    } else if w < v {
      WindowsApart(now, t, size);
    }
    hide WindowStart, CountIn;
  }

  /** Each hit is let through exactly if the history of its window is below the limit, and that is recorded. */
  lemma ConsumeCounts(rows: map<int, nat>, log: seq<int>, clock: int, now: int, size: int, limit: nat)
    requires 0 < size <= DAY && limit >= 1 && clock <= now && Counts(rows, log, clock, size, limit)
    ensures var w := WindowStart(now, size);
            var (after, allowed) := Consumed(rows, w, limit);
            && (allowed <==> CountIn(log, w, w + size) < limit)
            && Counts(after, if allowed then log + [now] else log, now, size, limit)
  {
    var w := WindowStart(now, size);
    var (after, allowed) := Consumed(rows, w, limit);
    assert WindowCounts(rows, log, clock, w, size, limit);
    assert allowed <==> CountIn(log, w, w + size) < limit;
    var next := if allowed then log + [now] else log;
    hide WindowStart, CountIn, WindowCounts;
    forall t ensures WindowCounts(after, next, now, WindowStart(t, size), size, limit) {
      ConsumeWindow(rows, log, clock, now, t, size, limit);
    }
  }

  /** Cleanup never changes a decision: the history is counted as exactly after it as before. */
  lemma CleanupCounts(rows: map<int, nat>, log: seq<int>, clock: int, now: int, size: int, limit: nat)
    requires 0 < size && clock <= now && Counts(rows, log, clock, size, limit)
    ensures Counts(Cleaned(rows, now), log, now, size, limit)
  {
    var after := Cleaned(rows, now);
    hide WindowStart, CountIn;
    forall t ensures WindowCounts(after, log, now, WindowStart(t, size), size, limit) {
      assert WindowCounts(rows, log, clock, WindowStart(t, size), size, limit);
    }
  }

  /** An interval of one window's length lets at most twice the limit through. */
  ghost predicate AtMostTwice(log: seq<int>, size: int, limit: nat, from: int) {
    CountIn(log, from, from + size) <= 2 * limit
  }

  /** No interval of one window's length lets more than twice the limit through. */
  lemma TwiceTheLimit(rows: map<int, nat>, log: seq<int>, clock: int, size: int, limit: nat, from: int)
    requires size > 0 && Counts(rows, log, clock, size, limit)
    ensures AtMostTwice(log, size, limit, from)
  {
    var w := WindowStart(from, size);
    NextWindow(from, size);
    assert WindowStart(w + size, size) == w + size;
    CountSplits(log, from, w + size, from + size);
    CountSplits(log, w, from, w + size);
    CountSplits(log, w + size, from + size, w + 2 * size);
    assert WindowCounts(rows, log, clock, w, size, limit) && WindowCounts(rows, log, clock, WindowStart(w + size, size), size, limit);
  }

  lemma NextWindow(t: int, size: int)
    requires size > 0
    ensures var w := WindowStart(t, size); WindowStart(w + size, size) == w + size
  {
    var q := t / size;
    assert (q + 1) * size == q * size + size;
    Quotient(q + 1, size);
  }

  lemma Quotient(k: int, size: int)
    requires size > 0
    ensures k * size / size == k
  {
    var q, r := k * size / size, k * size % size;
    assert k * size == q * size + r && 0 <= r < size by { Euclid(k * size, size); }
    assert (k - q) * size == r;
    if k - q >= 1 {
      Ordered(1, k - q, size);
    } else if k - q <= -1 {
      Ordered(k - q, -1, size);
    }
  }

  lemma Euclid(a: int, size: int)
    requires size > 0
    ensures a == a / size * size + a % size && 0 <= a % size < size
  {
  }

  class Limiter {
    var rows: map<int, nat>
    ghost var log: seq<int>
    ghost var clock: int
    const size: int
    const limit: nat

    ghost predicate Valid()
      reads this
    {
      0 < size <= DAY && limit >= 1 && Counts(rows, log, clock, size, limit)
    }

    constructor (size: int, limit: nat)
      requires 0 < size <= DAY && limit >= 1
      ensures Valid() && rows == map[] && log == [] && this.size == size && this.limit == limit
    {
      this.size, this.limit := size, limit;
      rows, log, clock := map[], [], 0;
    }

    /** consumeRateLimit. */
    method Consume(now: int) returns (allowed: bool)
      requires Valid() && clock <= now
      modifies this
      ensures Valid() && clock == now
      ensures var w := WindowStart(now, size); allowed <==> CountIn(old(log), w, w + size) < limit
      ensures log == if allowed then old(log) + [now] else old(log)
      ensures forall from :: AtMostTwice(log, size, limit, from)
    {
      ConsumeCounts(rows, log, clock, now, size, limit);
      var w := WindowStart(now, size);
      hide Counts, CountIn, AtMostTwice;
      if w !in rows {
        rows := rows[w := 1];
        allowed := true;
      } else if rows[w] < limit {
        rows := rows[w := rows[w] + 1];
        allowed := true;
      } else {
        allowed := false;
      }
      log := if allowed then log + [now] else log;
      clock := now;
      forall from ensures AtMostTwice(log, size, limit, from) {
        TwiceTheLimit(rows, log, clock, size, limit, from);
      }
    }

    /** The deletion that ends consumeLoginRateLimit. */
    method Cleanup(now: int)
      requires Valid() && clock <= now
      modifies this
      ensures Valid() && clock == now && log == old(log)
    {
      CleanupCounts(rows, log, clock, now, size, limit);
      hide Counts;
      rows := Cleaned(rows, now);
      clock := now;
    }
  }

  /** consumeLoginRateLimit: the address's bucket is charged first, and once it is full no name's bucket is touched. */
  method ConsumeLogin(ip: Limiter, name: Limiter, now: int) returns (allowed: bool)
    requires ip != name && ip.Valid() && name.Valid() && ip.clock <= now && name.clock <= now
    modifies ip, name
    ensures ip.Valid() && name.Valid()
    ensures var w := WindowStart(now, ip.size);
            CountIn(old(ip.log), w, w + ip.size) >= ip.limit ==> !allowed && name.rows == old(name.rows) && name.log == old(name.log)
    ensures var v, w := WindowStart(now, ip.size), WindowStart(now, name.size);
            allowed <==> CountIn(old(ip.log), v, v + ip.size) < ip.limit && CountIn(old(name.log), w, w + name.size) < name.limit
  {
    allowed := ip.Consume(now);
    if !allowed {
      return;
    }
    allowed := name.Consume(now);
    ip.Cleanup(now);
    name.Cleanup(now);
  }
}
