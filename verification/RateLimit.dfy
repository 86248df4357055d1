/** The fixed-window limiter per IP hash (internal/middleware/ipratelimit.go). */
module RateLimit {

  /** Times are in nanoseconds. */
  const SECOND: int := 1000000000

  /** 15 minutes. */
  const WINDOW: int := 900 * SECOND

  const MAX_REQUESTS: nat := 10

  /** captured is the clock reading the window is computed from; executed is when Redis runs INCR. */
  datatype Request = Request(ip: string, captured: nat, executed: int)

  datatype WindowKey = WindowKey(ip: string, index: int)

  datatype Counter = Counter(count: nat, expireAt: int)

  type Counters = map<WindowKey, Counter>

  function KeyOf(r: Request): WindowKey {
    WindowKey(r.ip, r.captured / SECOND / 900)
  }

  function WindowEnd(r: Request): int {
    (r.captured / SECOND / 900 + 1) * WINDOW
  }

  /** The counter a command at this time finds. */
  function Found(c: Counters, k: WindowKey, now: int): nat {
    if k in c && now <= c[k].expireAt then c[k].count else 0
  }

  /** The value INCR returns. */
  function Count(c: Counters, r: Request): nat {
    Found(c, KeyOf(r), r.executed) + 1
  }

  /** INCR, and EXPIREAT on the first hit; an expiry time in the past deletes the key at once. */
  function After(c: Counters, r: Request): Counters {
    var n := Count(c, r);
    if n > 1 then c[KeyOf(r) := Counter(n, c[KeyOf(r)].expireAt)]
    else if WindowEnd(r) <= r.executed then c - {KeyOf(r)}
    else c[KeyOf(r) := Counter(1, WindowEnd(r))]
  }

  predicate Admitted(c: Counters, r: Request) {
    Count(c, r) <= MAX_REQUESTS
  }

  class Limiter {
    var counters: Counters

    constructor ()
      ensures counters == map[]
    {
      counters := map[];
    }

    /** retryAfter is the Retry-After header of a rejected request, in whole seconds. */
    method Allow(r: Request) returns (ok: bool, retryAfter: int)
      modifies this
      ensures ok == Admitted(old(counters), r) && counters == After(old(counters), r)
      ensures ok ==> retryAfter == 0
      ensures !ok ==> 0 <= retryAfter <= 900
      ensures !ok ==> retryAfter * SECOND <= WindowEnd(r) - r.captured < (retryAfter + 1) * SECOND
    {
      var windowIndex := r.captured / SECOND / 900;
      var key := WindowKey(r.ip, windowIndex);
      var windowEnd := (windowIndex + 1) * WINDOW;
      var live := key in counters && r.executed <= counters[key].expireAt;
      var count := (if live then counters[key].count else 0) + 1;
      if live && counters[key].count > 0 {
        counters := counters[key := Counter(count, counters[key].expireAt)];
      } else if windowEnd <= r.executed {
        counters := counters - {key};
      } else {
        counters := counters[key := Counter(1, windowEnd)];
      }
      if count > MAX_REQUESTS {
        return false, (windowEnd - r.captured) / SECOND;
      }
      return true, 0;
    }
  }

  /** The window of a request is the aligned quarter of an hour that holds its clock reading. */
  lemma WindowHolds(r: Request)
    ensures var k := KeyOf(r);
            && k.ip == r.ip && k.index * 900000000000 <= r.captured < (k.index + 1) * 900000000000
            && WindowEnd(r) == (k.index + 1) * 900000000000
  {
  }

  // ---------------------------------------------------------------- whole runs

  /** The counters after the first n requests, in the order Redis executed them. */
  function State(rs: seq<Request>, n: nat): Counters
    requires n <= |rs|
  {
    if n == 0 then map[] else After(State(rs, n - 1), rs[n - 1])
  }

  /** Redis runs the commands one after the other; they may come late, at or after the window's end. */
  predicate InOrder(rs: seq<Request>) {
    forall i, j :: 0 <= i < j < |rs| ==> rs[i].executed <= rs[j].executed
  }

  function EndOf(k: WindowKey): int {
    (k.index + 1) * WINDOW
  }

  /** How many of the first n requests hit the window. */
  function Hits(rs: seq<Request>, k: WindowKey, n: nat): nat
    requires n <= |rs|
  {
    if n == 0 then 0 else Hits(rs, k, n - 1) + if KeyOf(rs[n - 1]) == k then 1 else 0
  }

  /** The request counts: it runs before its window ends, or in the last instant of a counter that exists. */
  predicate Counts(rs: seq<Request>, n: nat)
    requires n < |rs|
    decreases n, 1
  {
    rs[n].executed < WindowEnd(rs[n]) || (rs[n].executed == WindowEnd(rs[n]) && Counted(rs, KeyOf(rs[n]), n) > 0)
  }

  /** How many of the first n requests hit the window and count. */
  function Counted(rs: seq<Request>, k: WindowKey, n: nat): nat
    requires n <= |rs|
    decreases n, 0
  {
    if n == 0 then 0 else Counted(rs, k, n - 1) + if KeyOf(rs[n - 1]) == k && Counts(rs, n - 1) then 1 else 0
  }

  /** Until the window has ended a counter exists exactly when some request counted, and holds how many. */
  lemma {:induction false} CounterIsExact(rs: seq<Request>, k: WindowKey, n: nat)
    requires n <= |rs| && InOrder(rs)
    ensures var c := State(rs, n);
            && (k in c ==> Counted(rs, k, n) > 0 && c[k] == Counter(Counted(rs, k, n), EndOf(k)))
            && (Counted(rs, k, n) > 0 && k !in c ==> n > 0 && rs[n - 1].executed > EndOf(k))
  {
    if n > 0 {
      CounterIsExact(rs, k, n - 1);
      assert n > 1 ==> rs[n - 2].executed <= rs[n - 1].executed;
      if KeyOf(rs[n - 1]) == k {
        HitMovesCounter(State(rs, n - 1), rs[n - 1], Counted(rs, k, n - 1));
      }
    }
  }

  /** What a command running at this time finds of a window in which this many requests counted. */
  predicate Settled(c: Counters, k: WindowKey, counted: nat, now: int) {
    && (k in c ==> counted > 0 && c[k] == Counter(counted, EndOf(k)))
    && (k !in c && counted > 0 ==> now > EndOf(k))
  }

  /** One more request of the window of a counter that is exact. */
  lemma HitMovesCounter(c: Counters, r: Request, counted: nat)
    requires Settled(c, KeyOf(r), counted, r.executed)
    ensures var k, c' := KeyOf(r), After(c, r);
            if r.executed < EndOf(k) || (r.executed == EndOf(k) && counted > 0) then k in c' && c'[k] == Counter(counted + 1, EndOf(k))
            else k !in c'
  {
  }

  lemma AdmittedBySettled(c: Counters, r: Request, counted: nat)
    requires Settled(c, KeyOf(r), counted, r.executed)
    ensures Admitted(c, r) <==> r.executed > WindowEnd(r) || counted < MAX_REQUESTS
  {
  }

  /** In every run, a request is admitted if and only if it comes after its window's end or fewer than
      ten requests of its window counted before it. */
  lemma AdmittedIff(rs: seq<Request>, i: nat)
    requires i < |rs| && InOrder(rs)
    ensures Admitted(State(rs, i), rs[i]) <==>
            rs[i].executed > WindowEnd(rs[i]) || Counted(rs, KeyOf(rs[i]), i) < 10
  {
    CounterIsSettled(rs, KeyOf(rs[i]), i);
    AdmittedBySettled(State(rs, i), rs[i], Counted(rs, KeyOf(rs[i]), i));
  }

  /** The same, as the next request finds it. */
  lemma CounterIsSettled(rs: seq<Request>, k: WindowKey, n: nat)
    requires n < |rs| && InOrder(rs)
    ensures Settled(State(rs, n), k, Counted(rs, k, n), rs[n].executed)
  {
    CounterIsExact(rs, k, n);
    assert n > 0 ==> rs[n - 1].executed <= rs[n].executed;
  }

  /** Admitted requests of an IP captured in [lo, hi). */
  function Passed(rs: seq<Request>, ip: string, lo: int, hi: int, n: nat): nat
    requires n <= |rs|
  {
    if n == 0 then 0
    else
      Passed(rs, ip, lo, hi, n - 1) +
      if rs[n - 1].ip == ip && lo <= rs[n - 1].captured < hi && Admitted(State(rs, n - 1), rs[n - 1]) then 1 else 0
  }

  /** Requests of an IP captured in [lo, hi) that no counter saw. */
  function Uncounted(rs: seq<Request>, ip: string, lo: int, hi: int, n: nat): nat
    requires n <= |rs|
  {
    if n == 0 then 0
    else
      Uncounted(rs, ip, lo, hi, n - 1) +
      if rs[n - 1].ip == ip && lo <= rs[n - 1].captured < hi && !Counts(rs, n - 1) then 1 else 0
  }

  function AtMostTen(n: nat): nat {
    if n < MAX_REQUESTS then n else MAX_REQUESTS
  }

  /** In every run an aligned window admits the first ten requests that count, and every one that does not. */
  lemma {:induction false} WindowBound(rs: seq<Request>, ip: string, w: int, n: nat)
    requires n <= |rs| && InOrder(rs)
    ensures Passed(rs, ip, w * WINDOW, (w + 1) * WINDOW, n) ==
            AtMostTen(Counted(rs, WindowKey(ip, w), n)) + Uncounted(rs, ip, w * WINDOW, (w + 1) * WINDOW, n)
  {
    if n > 0 {
      WindowBound(rs, ip, w, n - 1);
      AdmittedIff(rs, n - 1);
      InWindow(rs[n - 1].captured, w);
    }
  }

  lemma InWindow(t: int, w: int)
    ensures w * WINDOW <= t < (w + 1) * WINDOW <==> t / SECOND / 900 == w
  {
  }

  lemma {:induction false} Split(rs: seq<Request>, ip: string, lo: int, mid: int, hi: int, n: nat)
    requires n <= |rs| && lo <= mid <= hi
    ensures Passed(rs, ip, lo, hi, n) == Passed(rs, ip, lo, mid, n) + Passed(rs, ip, mid, hi, n)
    ensures Uncounted(rs, ip, lo, hi, n) == Uncounted(rs, ip, lo, mid, n) + Uncounted(rs, ip, mid, hi, n)
  {
    if n > 0 {
      Split(rs, ip, lo, mid, hi, n - 1);
    }
  }

  /** Of the requests captured in part of a window, at most ten more are admitted than went uncounted. */
  lemma {:induction false} PartBound(rs: seq<Request>, ip: string, w: int, lo: int, hi: int, n: nat)
    requires n <= |rs| && InOrder(rs) && w * WINDOW <= lo <= hi <= (w + 1) * WINDOW
    ensures Passed(rs, ip, lo, hi, n) <= AtMostTen(Counted(rs, WindowKey(ip, w), n)) + Uncounted(rs, ip, lo, hi, n)
  {
    if n > 0 {
      PartBound(rs, ip, w, lo, hi, n - 1);
      AdmittedIff(rs, n - 1);
      InWindow(rs[n - 1].captured, w);
    }
  }

  /** Although the window is fixed, in every run any 900 seconds of captured time admit at most twenty
      requests of an address that a counter saw. */
  lemma SlidingBound(rs: seq<Request>, ip: string, a: int)
    requires InOrder(rs)
    ensures Passed(rs, ip, a, a + 900000000000, |rs|) <= 20 + Uncounted(rs, ip, a, a + 900000000000, |rs|)
  {
    var w, n := a / SECOND / 900, |rs|;
    var mid := (w + 1) * WINDOW;
    assert w * WINDOW <= a < mid <= a + WINDOW <= (w + 2) * WINDOW by {
      InWindow(a, w);
    }
    Split(rs, ip, a, mid, a + WINDOW, n);
    PartBound(rs, ip, w, a, mid, n);
    PartBound(rs, ip, w + 1, mid, a + WINDOW, n);
  }

  /** An address none of whose requests comes late. */
  predicate OnTime(rs: seq<Request>, ip: string) {
    forall i :: 0 <= i < |rs| && rs[i].ip == ip ==> rs[i].executed < WindowEnd(rs[i])
  }

  lemma {:induction false} OnTimeCountsAll(rs: seq<Request>, ip: string, k: WindowKey, lo: int, hi: int, n: nat)
    requires n <= |rs| && OnTime(rs, ip) && k.ip == ip
    ensures Uncounted(rs, ip, lo, hi, n) == 0 && Counted(rs, k, n) == Hits(rs, k, n)
  {
    if n > 0 {
      OnTimeCountsAll(rs, ip, k, lo, hi, n - 1);
    }
  }

  /** For an address that is on time, whatever others do, each aligned window admits exactly its first ten ... */
  lemma FirstTenAreAdmitted(rs: seq<Request>, i: nat)
    requires i < |rs| && InOrder(rs) && OnTime(rs, rs[i].ip)
    ensures Admitted(State(rs, i), rs[i]) <==> Hits(rs, KeyOf(rs[i]), i) < 10
  {
    AdmittedIff(rs, i);
    OnTimeCountsAll(rs, rs[i].ip, KeyOf(rs[i]), 0, 0, i);
  }

  /** ... and any 900 seconds admit at most twenty. */
  lemma TwentyPerWindowLength(rs: seq<Request>, ip: string, a: int)
    requires InOrder(rs) && OnTime(rs, ip)
    ensures Passed(rs, ip, a, a + 900000000000, |rs|) <= 20
  {
    SlidingBound(rs, ip, a);
    OnTimeCountsAll(rs, ip, WindowKey(ip, 0), a, a + WINDOW, |rs|);
  }

  lemma {:induction false} ExpiryIsWindowEnd(rs: seq<Request>, n: nat)
    requires n <= |rs|
    ensures forall k :: k in State(rs, n) ==> State(rs, n)[k].expireAt == EndOf(k)
  {
    if n > 0 {
      ExpiryIsWindowEnd(rs, n - 1);
    }
  }

  /** The bound needs INCR to run before the window ends: in any run, a request executed after it is
      admitted, however many came before, and leaves no counter behind. */
  lemma LateIsAlwaysAdmitted(rs: seq<Request>, i: nat)
    requires i < |rs| && rs[i].executed > WindowEnd(rs[i])
    ensures Admitted(State(rs, i), rs[i]) && KeyOf(rs[i]) !in State(rs, i + 1)
  {
    ExpiryIsWindowEnd(rs, i);
  }

  /** A run of n requests of one address, all captured at time 0 and all admitted. */
  lemma {:induction false} LateRun(ip: string, n: nat) returns (rs: seq<Request>)
    ensures |rs| == n && InOrder(rs) && forall i :: 0 <= i < n ==> rs[i] == Request(ip, 0, WINDOW + 1)
    ensures Passed(rs, ip, 0, WINDOW, n) == n
  {
    rs := seq(n, i => Request(ip, 0, WINDOW + 1));
    AllLatePass(rs, ip, n);
  }

  lemma {:induction false} AllLatePass(rs: seq<Request>, ip: string, n: nat)
    requires n <= |rs| && forall i :: 0 <= i < |rs| ==> rs[i] == Request(ip, 0, WINDOW + 1)
    ensures Passed(rs, ip, 0, WINDOW, n) == n
  {
    if n > 0 {
      AllLatePass(rs, ip, n - 1);
      LateIsAlwaysAdmitted(rs, n - 1);
    }
  }
}
