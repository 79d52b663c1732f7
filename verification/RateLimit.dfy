/** The two fixed-window limiters: handshakes per minute (engine) and beacons per second (discovery). */
module RateLimit {
  import opened Prelude

  /** A source address; only equality matters. */
  type Addr = nat

  /** Ticks per second of the monotonic clock. */
  const SECOND: nat := 1_000_000_000

  /** When the window opened and how many calls fell into it. */
  datatype Window = Window(start: nat, count: nat)

  type Table = map<Addr, Window>

  datatype Limiter = Handshakes | Beacons {
    function Span(): (w: nat)
      ensures w > 0
    {
      if Handshakes? then 60 * SECOND else SECOND
    }

    function Limit(): (l: nat)
      ensures l > 0
    {
      if Handshakes? then 10 else 4
    }

    function Capacity(): nat {
      if Handshakes? then 512 else 1024
    }
  }

  /** Time since `t`, zero when `t` lies ahead, as `duration_since` has it. */
  function Elapsed(now: nat, t: nat): nat {
    if now >= t then now - t else 0
  }

  /** `HashMap::retain` on the age of the window. */
  function Younger(seen: Table, now: nat, age: nat): Table {
    map a | a in seen && Elapsed(now, seen[a].start) < age :: seen[a]
  }

  /** The engine sweeps on every call; discovery only when its table is over capacity. */
  function Swept(l: Limiter, seen: Table, now: nat): Table {
    match l
    case Handshakes => Younger(seen, now, l.Span())
    case Beacons => if |seen| > l.Capacity() then Younger(seen, now, 5 * SECOND) else seen
  }

  /** Count this call in the address's window, opening a new one when the old has run out. */
  function Counted(l: Limiter, seen: Table, now: nat, ip: Addr): (Table, bool) {
    var w := if ip in seen then seen[ip] else Window(now, 0);
    var open := if Elapsed(now, w.start) >= l.Span() then Window(now, 0) else w;
    var next := open.(count := open.count + 1);
    (seen[ip := next], next.count <= l.Limit())
  }

  function Allowed(l: Limiter, seen: Table, now: nat, ip: Addr): (Table, bool) {
    var swept := Swept(l, seen, now);
    if |swept| > l.Capacity() then (swept, false) else Counted(l, swept, now, ip)
  }

  class ConnGuard {
    var seen: Table

    constructor ()
      ensures seen == map[]
    {
      seen := map[];
    }

    method Allow(now: nat, ip: Addr) returns (ok: bool)
      modifies this
      ensures (seen, ok) == Allowed(Handshakes, old(seen), now, ip)
    {
      seen := Younger(seen, now, 60 * SECOND);
      if |seen| > 512 {
        return false;
      }
      var blank := Window(now, 0);
      var e := if ip in seen then seen[ip] else blank;
      if Elapsed(now, e.start) >= 60 * SECOND {
        e := blank;
      }
      e := e.(count := e.count + 1);
      seen := seen[ip := e];
      ok := e.count <= 10;
    }
  }

  class RateLimiter {
    var seen: Table

    constructor ()
      ensures seen == map[]
    {
      seen := map[];
    }

    method Allow(now: nat, ip: Addr) returns (ok: bool)
      modifies this
      ensures (seen, ok) == Allowed(Beacons, old(seen), now, ip)
    {
      if |seen| > 1024 {
        seen := Younger(seen, now, 5 * SECOND);
        if |seen| > 1024 {
          return false;
        }
      }
      var blank := Window(now, 0);
      var e := if ip in seen then seen[ip] else blank;
      if Elapsed(now, e.start) >= SECOND {
        e := blank;
      }
      e := e.(count := e.count + 1);
      seen := seen[ip := e];
      ok := e.count <= 4;
    }
  }

  // ---- traces ----------------------------------------------------------------

  datatype Attempt = Attempt(now: nat, ip: Addr)

  /** The clock never runs backwards along the trace. */
  predicate InOrder(calls: seq<Attempt>, earliest: nat)
    decreases |calls|
  {
    calls == [] || (earliest <= calls[0].now && InOrder(calls[1..], calls[0].now))
  }

  /** The answer to each call in turn. */
  function Answers(l: Limiter, seen: Table, calls: seq<Attempt>): (r: seq<bool>)
    ensures |r| == |calls|
    decreases |calls|
  {
    if calls == [] then [] else
      var (next, ok) := Allowed(l, seen, calls[0].now, calls[0].ip);
      [ok] + Answers(l, next, calls[1..])
  }

  function TableAfter(l: Limiter, seen: Table, calls: seq<Attempt>): Table
    decreases |calls|
  {
    if calls == [] then seen else TableAfter(l, Allowed(l, seen, calls[0].now, calls[0].ip).0, calls[1..])
  }

  /** How many calls from `ip` in the half-open span are admitted. */
  function Admitted(l: Limiter, seen: Table, calls: seq<Attempt>, ip: Addr, from: nat, to: nat): nat
    decreases |calls|
  {
    if calls == [] then 0 else
      var (next, ok) := Allowed(l, seen, calls[0].now, calls[0].ip);
      (if ok && calls[0].ip == ip && from <= calls[0].now < to then 1 else 0)
      + Admitted(l, next, calls[1..], ip, from, to)
  }

  // ---- the admission bound -------------------------------------------------------

  /** How many windows of length `span` can open within `length` ticks. */
  function Windows(span: nat, length: int): nat
    requires span > 0
    decreases length
  {
    if length <= 0 then 0 else 1 + Windows(span, length - span)
  }

  lemma {:induction false} WindowsMonotone(span: nat, a: int, b: int)
    requires span > 0 && a <= b
    ensures Windows(span, a) <= Windows(span, b)
    decreases b
  {
    if a > 0 {
      WindowsMonotone(span, a - span, b - span);
    }
  }

  lemma {:induction false} WindowsOfMultiple(span: nat, n: nat)
    requires span > 0
    ensures Windows(span, n * span) == n
  {
    if n > 0 {
      assert n * span - span == (n - 1) * span;
      WindowsOfMultiple(span, n - 1);
    }
  }

  /** How many more calls from `ip` can be admitted in `[now, to)`, given its window. */
  function Budget(l: Limiter, seen: Table, ip: Addr, now: nat, to: nat): nat {
    if ip in seen && Elapsed(now, seen[ip].start) < l.Span() then
      (if seen[ip].count < l.Limit() then l.Limit() - seen[ip].count else 0)
      + l.Limit() * Windows(l.Span(), to - (seen[ip].start + l.Span()))
    else
      l.Limit() * Windows(l.Span(), to - now)
  }

  /** Waiting never adds to the budget, nor does forgetting a window that has run out. */
  lemma BudgetShrinks(l: Limiter, seen: Table, later: Table, ip: Addr, now: nat, then': nat, to: nat)
    requires now <= then'
    requires ip in later ==> ip in seen && later[ip] == seen[ip]
    requires ip in seen && ip !in later ==> Elapsed(then', seen[ip].start) >= l.Span()
    ensures Budget(l, later, ip, then', to) <= Budget(l, seen, ip, now, to)
  {
    WindowsMonotone(l.Span(), to - then', to - now);
    if ip in seen && Elapsed(then', seen[ip].start) >= l.Span() {
      WindowsMonotone(l.Span(), to - then', to - (seen[ip].start + l.Span()));
    }
    MulMonotone(l.Limit(), Windows(l.Span(), to - then'), Windows(l.Span(), to - now));
    if ip in seen && Elapsed(then', seen[ip].start) >= l.Span() {
      MulMonotone(l.Limit(), Windows(l.Span(), to - then'), Windows(l.Span(), to - (seen[ip].start + l.Span())));
    }
  }

  lemma MulMonotone(k: nat, a: nat, b: nat)
    requires a <= b
    ensures k * a <= k * b
  {
  }

  /** An admitted call costs one unit of budget. */
  lemma CountingSpendsBudget(l: Limiter, seen: Table, now: nat, ip: Addr, to: nat)
    requires now < to
    ensures var (next, ok) := Counted(l, seen, now, ip);
            Budget(l, next, ip, now, to) + (if ok then 1 else 0) <= Budget(l, seen, ip, now, to)
  {
    var next := Counted(l, seen, now, ip).0;
    if !(ip in seen && Elapsed(now, seen[ip].start) < l.Span()) {
      assert next[ip] == Window(now, 1);
      var n := Windows(l.Span(), to - now - l.Span());
      assert Windows(l.Span(), to - now) == 1 + n;
      assert l.Limit() * (1 + n) == l.Limit() + l.Limit() * n;
    }
  }

  lemma SweptForgetsOnlyExpired(l: Limiter, seen: Table, now: nat)
    ensures var swept := Swept(l, seen, now);
            && (forall a :: a in swept ==> a in seen && swept[a] == seen[a])
            && (forall a :: a in seen && a !in swept ==> Elapsed(now, seen[a].start) >= l.Span())
            && |swept| <= |seen|
  {
    var swept := Swept(l, seen, now);
    assert swept.Keys <= seen.Keys;
    SubsetCardinality(swept.Keys, seen.Keys);
  }

  lemma {:induction false} AdmittedWithinBudget(l: Limiter, seen: Table, calls: seq<Attempt>, ip: Addr, from: nat, to: nat, now: nat)
    requires InOrder(calls, now) && from <= now
    ensures Admitted(l, seen, calls, ip, from, to) <= Budget(l, seen, ip, now, to)
    decreases |calls|
  {
    if calls != [] {
      var t := calls[0].now;
      var swept := Swept(l, seen, t);
      var (next, ok) := Allowed(l, seen, t, calls[0].ip);
      SweptForgetsOnlyExpired(l, seen, t);
      BudgetShrinks(l, seen, swept, ip, now, t, to);
      AdmittedWithinBudget(l, next, calls[1..], ip, from, to, t);
      if |swept| <= l.Capacity() {
        if calls[0].ip == ip {
          if t < to {
            CountingSpendsBudget(l, swept, t, ip, to);
          } else {
            AdmittedAfterEnd(l, next, calls[1..], ip, from, to);
          }
        } else {
          BudgetShrinks(l, swept, next, ip, t, t, to);
        }
      }
    }
  }

  lemma {:induction false} AdmittedAfterEnd(l: Limiter, seen: Table, calls: seq<Attempt>, ip: Addr, from: nat, to: nat)
    requires InOrder(calls, to)
    ensures Admitted(l, seen, calls, ip, from, to) == 0
    decreases |calls|
  {
    if calls != [] {
      AdmittedAfterEnd(l, Allowed(l, seen, calls[0].now, calls[0].ip).0, calls[1..], ip, from, to);
    }
  }

  /** A window opens with a call, so it counts at least one. */
  ghost predicate Counting(seen: Table) {
    forall a :: a in seen ==> seen[a].count >= 1
  }

  /** No window opens ahead of the clock. */
  ghost predicate Past(seen: Table, now: nat) {
    forall a :: a in seen ==> seen[a].start <= now
  }

  lemma AllowingKeepsCounting(l: Limiter, seen: Table, now: nat, ip: Addr)
    requires Counting(seen) && Past(seen, now)
    ensures Counting(Allowed(l, seen, now, ip).0) && Past(Allowed(l, seen, now, ip).0, now)
  {
    SweptForgetsOnlyExpired(l, seen, now);
    hide Swept;
  }

  /**
   * A span of `n` windows admits at most one call fewer than `n + 1` windows' worth from one address:
   * a window that is open at the start of the span has already spent a call.
   */
  lemma {:induction false} SpanAdmitsAtMost(l: Limiter, seen: Table, calls: seq<Attempt>, ip: Addr, from: nat, n: nat, now: nat)
    requires InOrder(calls, now) && Counting(seen) && Past(seen, now) && (now < from || seen == map[])
    ensures Admitted(l, seen, calls, ip, from, from + n * l.Span()) <= l.Limit() * (n + 1) - 1
    decreases |calls|
  {
    var to := from + n * l.Span();
    assert l.Limit() * (n + 1) == l.Limit() * n + l.Limit();
    if calls != [] {
      var t := calls[0].now;
      if t < from {
        AllowingKeepsCounting(l, seen, t, calls[0].ip);
        SpanAdmitsAtMost(l, Allowed(l, seen, t, calls[0].ip).0, calls[1..], ip, from, n, t);
      } else {
        AdmittedWithinBudget(l, seen, calls, ip, from, to, from);
        BudgetOfSpan(l, seen, ip, from, n);
      }
    }
  }

  lemma BudgetOfSpan(l: Limiter, seen: Table, ip: Addr, from: nat, n: nat)
    requires Counting(seen)
    ensures Budget(l, seen, ip, from, from + n * l.Span()) <= l.Limit() * (n + 1) - 1
  {
    var span := l.Span();
    WindowsOfMultiple(span, n);
    assert l.Limit() * (n + 1) == l.Limit() + l.Limit() * n;
    if ip in seen && Elapsed(from, seen[ip].start) < span {
      var rest := from + n * span - (seen[ip].start + span);
      WindowsMonotone(span, rest, n * span);
      MulMonotone(l.Limit(), Windows(span, rest), n);
    }
  }

  /** At most 10n + 9 handshakes from one address in any span of n minutes. */
  lemma HandshakeRate(calls: seq<Attempt>, ip: Addr, from: nat, n: nat)
    requires InOrder(calls, 0)
    ensures Admitted(Handshakes, map[], calls, ip, from, from + n * (60 * SECOND)) <= 10 * n + 9
  {
    SpanAdmitsAtMost(Handshakes, map[], calls, ip, from, n, 0);
  }

  /** At most 4n + 3 beacons from one address in any span of n seconds. */
  lemma BeaconRate(calls: seq<Attempt>, ip: Addr, from: nat, n: nat)
    requires InOrder(calls, 0)
    ensures Admitted(Beacons, map[], calls, ip, from, from + n * SECOND) <= 4 * n + 3
  {
    SpanAdmitsAtMost(Beacons, map[], calls, ip, from, n, 0);
  }

  // ---- the bound is attained ----------------------------------------------------------

  function Repeated(ip: Addr, t: nat, k: nat): (r: seq<Attempt>)
    ensures |r| == k
  {
    if k == 0 then [] else [Attempt(t, ip)] + Repeated(ip, t, k - 1)
  }

  function BurstAt(l: Limiter, j: nat): nat {
    j * l.Span()
  }

  /** A full window's worth of calls at each multiple of the span from `j` on, `n` times. */
  function Bursts(l: Limiter, ip: Addr, j: nat, n: nat): seq<Attempt>
    decreases n
  {
    if n == 0 then [] else Repeated(ip, BurstAt(l, j), l.Limit()) + Bursts(l, ip, j + 1, n - 1)
  }

  /** One call at time 0, the rest of its window at time 1, then a full burst whenever a window runs out. */
  function Greedy(l: Limiter, ip: Addr, n: nat): seq<Attempt> {
    [Attempt(0, ip)] + Repeated(ip, 1, l.Limit() - 1) + Bursts(l, ip, 1, n)
  }

  /** The table of an address that is alone. */
  function Alone(ip: Addr, start: nat, count: nat): Table {
    map[ip := Window(start, count)]
  }

  lemma AloneAllowed(l: Limiter, ip: Addr, s: nat, c: nat, t: nat)
    requires s <= t
    ensures Allowed(l, map[], t, ip) == (Alone(ip, t, 1), true)
    ensures t - s < l.Span() ==> Allowed(l, Alone(ip, s, c), t, ip) == (Alone(ip, s, c + 1), c + 1 <= l.Limit())
    ensures t - s >= l.Span() ==> Allowed(l, Alone(ip, s, c), t, ip) == (Alone(ip, t, 1), true)
  {
    assert Swept(l, map[], t) == map[];
    if t - s < l.Span() {
      assert Swept(l, Alone(ip, s, c), t) == Alone(ip, s, c);
    } else {
      assert Swept(l, Alone(ip, s, c), t) == if l.Handshakes? then map[] else Alone(ip, s, c);
    }
    assert |Alone(ip, s, c)| == 1;
    assert Alone(ip, s, c)[ip := Window(s, c + 1)] == Alone(ip, s, c + 1);
    assert Alone(ip, s, c)[ip := Window(t, 1)] == Alone(ip, t, 1);
  }

  lemma {:induction false} RepeatedAdmitted(l: Limiter, ip: Addr, s: nat, c: nat, t: nat, k: nat, rest: seq<Attempt>, from: nat, to: nat)
    requires s <= t && t - s < l.Span() && c + k <= l.Limit() && from <= t < to
    ensures Admitted(l, Alone(ip, s, c), Repeated(ip, t, k) + rest, ip, from, to)
         == k + Admitted(l, Alone(ip, s, c + k), rest, ip, from, to)
    decreases k
  {
    hide Allowed;
    if k == 0 {
      assert [] + rest == rest;
    } else {
      var calls := Repeated(ip, t, k) + rest;
      assert calls[0] == Attempt(t, ip) && calls[1..] == Repeated(ip, t, k - 1) + rest;
      AloneAllowed(l, ip, s, c, t);
      RepeatedAdmitted(l, ip, s, c + 1, t, k - 1, rest, from, to);
    }
  }

  lemma {:induction false} BurstsAdmitted(l: Limiter, ip: Addr, s: nat, j: nat, n: nat, from: nat, to: nat)
    requires s + l.Span() <= BurstAt(l, j) && from <= BurstAt(l, j) && (n > 0 ==> BurstAt(l, j + n - 1) < to)
    ensures Admitted(l, Alone(ip, s, l.Limit()), Bursts(l, ip, j, n), ip, from, to) == l.Limit() * n
    decreases n
  {
    if n > 0 {
      BurstTimes(l, j, n);
      hide Allowed, BurstAt, Alone;
      var t, rest := BurstAt(l, j), Bursts(l, ip, j + 1, n - 1);
      BurstAdmitted(l, ip, s, t, rest, from, to);
      BurstsAdmitted(l, ip, t, j + 1, n - 1, from, to);
      hide Admitted;
    }
  }

  lemma BurstAdmitted(l: Limiter, ip: Addr, s: nat, t: nat, rest: seq<Attempt>, from: nat, to: nat)
    requires s + l.Span() <= t && from <= t < to
    ensures Admitted(l, Alone(ip, s, l.Limit()), Repeated(ip, t, l.Limit()) + rest, ip, from, to)
         == l.Limit() + Admitted(l, Alone(ip, t, l.Limit()), rest, ip, from, to)
  {
    hide Allowed, Alone;
    var calls := Repeated(ip, t, l.Limit()) + rest;
    assert calls[0] == Attempt(t, ip) && calls[1..] == Repeated(ip, t, l.Limit() - 1) + rest;
    AloneAllowed(l, ip, s, l.Limit(), t);
    RepeatedAdmitted(l, ip, t, 1, t, l.Limit() - 1, rest, from, to);
  }

  lemma BurstTimes(l: Limiter, j: nat, n: nat)
    requires n > 0
    ensures BurstAt(l, j + 1) == BurstAt(l, j) + l.Span()
    ensures BurstAt(l, j) <= BurstAt(l, j + n - 1)
    ensures l.Limit() * n == l.Limit() + l.Limit() * (n - 1)
  {
    MulMonotone(l.Span(), j, j + n - 1);
  }

  lemma {:induction false} RepeatedInOrder(ip: Addr, t: nat, k: nat, rest: seq<Attempt>, earliest: nat)
    requires InOrder(rest, t) && earliest <= t
    ensures InOrder(Repeated(ip, t, k) + rest, earliest)
    decreases k
  {
    if k == 0 {
      assert [] + rest == rest;
    } else {
      assert (Repeated(ip, t, k) + rest)[1..] == Repeated(ip, t, k - 1) + rest;
      RepeatedInOrder(ip, t, k - 1, rest, t);
    }
  }

  lemma {:induction false} BurstsInOrder(l: Limiter, ip: Addr, j: nat, n: nat, earliest: nat)
    requires earliest <= BurstAt(l, j)
    ensures InOrder(Bursts(l, ip, j, n), earliest)
    decreases n
  {
    if n > 0 {
      BurstTimes(l, j, n);
      BurstsInOrder(l, ip, j + 1, n - 1, BurstAt(l, j));
      RepeatedInOrder(ip, BurstAt(l, j), l.Limit(), Bursts(l, ip, j + 1, n - 1), earliest);
    }
  }

  /** For every n some trace is admitted exactly that often, so neither rate can be stated lower. */
  lemma RateIsAttained(l: Limiter, ip: Addr, n: nat)
    requires n > 0
    ensures InOrder(Greedy(l, ip, n), 0)
    ensures Admitted(l, map[], Greedy(l, ip, n), ip, 1, 1 + n * l.Span()) == l.Limit() * (n + 1) - 1
  {
    hide Allowed;
    BurstTimes(l, 0, 1);
    assert BurstAt(l, 1 + n - 1) == n * l.Span();
    var bursts := Bursts(l, ip, 1, n);
    var rest := Repeated(ip, 1, l.Limit() - 1) + bursts;
    assert Greedy(l, ip, n)[0] == Attempt(0, ip) && Greedy(l, ip, n)[1..] == rest;
    AloneAllowed(l, ip, 0, 0, 0);
    RepeatedAdmitted(l, ip, 0, 1, 1, l.Limit() - 1, bursts, 1, 1 + n * l.Span());
    BurstsAdmitted(l, ip, 0, 1, n, 1, 1 + n * l.Span());
    BurstsInOrder(l, ip, 1, n, 1);
    RepeatedInOrder(ip, 1, l.Limit() - 1, bursts, 0);
    BurstTimes(l, 0, n + 1);
  }

  // ---- memory ------------------------------------------------------------------

  lemma {:induction false} TableStaysSmallFrom(l: Limiter, seen: Table, calls: seq<Attempt>)
    requires |seen| <= l.Capacity() + 1
    ensures |TableAfter(l, seen, calls)| <= l.Capacity() + 1
    decreases |calls|
  {
    if calls != [] {
      SweptForgetsOnlyExpired(l, seen, calls[0].now);
      TableStaysSmallFrom(l, Allowed(l, seen, calls[0].now, calls[0].ip).0, calls[1..]);
    }
  }

  /** The tables never hold more than 513 and 1025 addresses. */
  lemma TableStaysSmall(calls: seq<Attempt>)
    ensures |TableAfter(Handshakes, map[], calls)| <= 513
    ensures |TableAfter(Beacons, map[], calls)| <= 1025
  {
    TableStaysSmallFrom(Handshakes, map[], calls);
    TableStaysSmallFrom(Beacons, map[], calls);
  }

  // ---- sweeping is unobservable ------------------------------------------------------

  /** The plain per-address fixed-window counter: no sweep, no capacity. */
  function PlainAnswers(l: Limiter, counters: Table, calls: seq<Attempt>): (r: seq<bool>)
    ensures |r| == |calls|
    decreases |calls|
  {
    if calls == [] then [] else
      var (next, ok) := Counted(l, counters, calls[0].now, calls[0].ip);
      [ok] + PlainAnswers(l, next, calls[1..])
  }

  /** The capacity test never refuses a call of this trace. */
  predicate NeverFull(l: Limiter, seen: Table, calls: seq<Attempt>)
    decreases |calls|
  {
    calls == [] ||
    (&& |Swept(l, seen, calls[0].now)| <= l.Capacity()
     && NeverFull(l, Allowed(l, seen, calls[0].now, calls[0].ip).0, calls[1..]))
  }

  /** The swept table is the plain one without some windows that have run out. */
  ghost predicate Forgets(l: Limiter, seen: Table, counters: Table, now: nat) {
    && (forall a :: a in seen ==> a in counters && seen[a] == counters[a])
    && (forall a :: a in counters && a !in seen ==> Elapsed(now, counters[a].start) >= l.Span())
  }

  lemma CountingKeepsForgets(l: Limiter, seen: Table, counters: Table, now: nat, ip: Addr)
    requires Forgets(l, seen, counters, now)
    ensures var (s, ok) := Counted(l, seen, now, ip);
            var (c, plain) := Counted(l, counters, now, ip);
            ok == plain && Forgets(l, s, c, now)
  {
  }

  lemma {:induction false} SweepingIsUnobservableFrom(l: Limiter, seen: Table, counters: Table, calls: seq<Attempt>, now: nat)
    requires InOrder(calls, now) && NeverFull(l, seen, calls) && Forgets(l, seen, counters, now)
    ensures Answers(l, seen, calls) == PlainAnswers(l, counters, calls)
    decreases |calls|
  {
    if calls != [] {
      var t, ip := calls[0].now, calls[0].ip;
      SweptForgetsOnlyExpired(l, seen, t);
      assert Forgets(l, Swept(l, seen, t), counters, t);
      CountingKeepsForgets(l, Swept(l, seen, t), counters, t, ip);
      SweepingIsUnobservableFrom(l, Allowed(l, seen, t, ip).0, Counted(l, counters, t, ip).0, calls[1..], t);
    }
  }

  /** While neither table is full, each limiter answers exactly like the plain counter. */
  lemma SweepingIsUnobservable(l: Limiter, calls: seq<Attempt>)
    requires InOrder(calls, 0) && NeverFull(l, map[], calls)
    ensures Answers(l, map[], calls) == PlainAnswers(l, map[], calls)
  {
    SweepingIsUnobservableFrom(l, map[], map[], calls, 0);
  }

  predicate AllFrom(calls: seq<Attempt>, addrs: set<Addr>) {
    forall i :: 0 <= i < |calls| ==> calls[i].ip in addrs
  }

  lemma {:induction false} FewAddressesNeverFill(l: Limiter, seen: Table, calls: seq<Attempt>, addrs: set<Addr>)
    requires AllFrom(calls, addrs) && seen.Keys <= addrs && |addrs| <= l.Capacity()
    ensures NeverFull(l, seen, calls)
    decreases |calls|
  {
    if calls != [] {
      SweptForgetsOnlyExpired(l, seen, calls[0].now);
      var swept := Swept(l, seen, calls[0].now);
      var next := Allowed(l, seen, calls[0].now, calls[0].ip).0;
      hide Swept;
      assert calls[0].ip in addrs;
      assert swept.Keys <= addrs && next.Keys <= addrs;
      SubsetCardinality(swept.Keys, addrs);
      assert |swept| == |swept.Keys|;
      FewAddressesNeverFill(l, next, calls[1..], addrs);
    }
  }

  /**
   * A network of at most 512 addresses, or 1024 for beacons, never meets the capacity test: each call is
   * answered by its own address's fixed window alone.
   */
  lemma SmallNetworksAreCountedPlainly(calls: seq<Attempt>, addrs: set<Addr>)
    requires InOrder(calls, 0) && AllFrom(calls, addrs)
    ensures |addrs| <= 512 ==> Answers(Handshakes, map[], calls) == PlainAnswers(Handshakes, map[], calls)
    ensures |addrs| <= 1024 ==> Answers(Beacons, map[], calls) == PlainAnswers(Beacons, map[], calls)
  {
    if |addrs| <= 512 {
      FewAddressesNeverFill(Handshakes, map[], calls, addrs);
      SweepingIsUnobservable(Handshakes, calls);
    }
    if |addrs| <= 1024 {
      FewAddressesNeverFill(Beacons, map[], calls, addrs);
      SweepingIsUnobservable(Beacons, calls);
    }
  }
}
