// The per-IP fixed-window limiter in front of the public endpoints.
module RateLimit {
  import opened Wrappers

  // Times are in nanoseconds.
  const WINDOW_LEN := 60_000_000_000
  const MAX_PER_WINDOW := 120

  datatype Window = Window(started: int, hits: map<string, nat>)

  datatype Request = Request(ip: string, at: int)

  function Hits(w: Window, ip: string): nat {
    if ip in w.hits then w.hits[ip] else 0
  }

  // The window a request at `now` falls into: a new one once the last has run out.
  function Current(w: Option<Window>, now: int): Window {
    if w.None? || now - w.value.started >= WINDOW_LEN then Window(now, map[]) else w.value
  }

  function Counted(w: Window, ip: string): Window {
    w.(hits := w.hits[ip := Hits(w, ip) + 1])
  }

  // The window after a request, and whether the request is over the limit.
  function Step(w: Option<Window>, r: Request): (Window, bool) {
    var next := Counted(Current(w, r.at), r.ip);
    (next, Hits(next, r.ip) > MAX_PER_WINDOW)
  }

  // The process-wide window.
  class Limiter {
    var running: bool
    var started: int
    var hits: map<string, nat>

    constructor ()
      ensures View() == None
    {
      running, started, hits := false, 0, map[];
    }

    ghost function View(): Option<Window>
      reads this
    {
      if running then Some(Window(started, hits)) else None
    }

    method OverLimit(ip: string, now: int) returns (refused: bool)
      modifies this
      ensures View() == Some(Step(old(View()), Request(ip, now)).0)
      ensures refused == Step(old(View()), Request(ip, now)).1
    {
      if !running {
        running, started, hits := true, now, map[];
      }
      if now - started >= WINDOW_LEN {
        started := now;
        hits := map[];
      }
      if ip !in hits {
        hits := hits[ip := 0];
      }
      hits := hits[ip := hits[ip] + 1];
      ghost var current := Current(old(View()), now);
      assert hits == current.hits[ip := Hits(current, ip) + 1];
      refused := hits[ip] > MAX_PER_WINDOW;
    }
  }

  // ---- whole traces ----

  predicate Ordered(trace: seq<Request>) {
    forall i, j :: 0 <= i < j < |trace| ==> trace[i].at <= trace[j].at
  }

  predicate Inside(r: Request, ip: string, from: int) {
    r.ip == ip && from <= r.at < from + 60_000_000_000
  }

  // How many requests of `ip` in the half-open interval of one window length
  // starting at `from` are let through.
  function Admitted(w: Option<Window>, trace: seq<Request>, ip: string, from: int): nat
    decreases |trace|
  {
    if trace == [] then 0
    else
      var (next, refused) := Step(w, trace[0]);
      (if Inside(trace[0], ip, from) && !refused then 1 else 0) + Admitted(Some(next), trace[1..], ip, from)
  }

  // How many requests `ip` makes in that interval.
  function Requests(trace: seq<Request>, ip: string, from: int): nat {
    if trace == [] then 0
    else (if Inside(trace[|trace| - 1], ip, from) then 1 else 0) + Requests(trace[..|trace| - 1], ip, from)
  }

  // Whether any request of `ip` is refused.
  predicate AnyRefused(w: Option<Window>, trace: seq<Request>, ip: string)
    decreases |trace|
  {
    if trace == [] then false
    else
      var (next, refused) := Step(w, trace[0]);
      (trace[0].ip == ip && refused) || AnyRefused(Some(next), trace[1..], ip)
  }

  function Budget(w: Window, ip: string): nat {
    if Hits(w, ip) < MAX_PER_WINDOW then MAX_PER_WINDOW - Hits(w, ip) else 0
  }

  lemma {:induction false} NothingAfterInterval(w: Option<Window>, trace: seq<Request>, ip: string, from: int)
    requires Ordered(trace) && trace != [] && trace[0].at >= from + WINDOW_LEN
    ensures Admitted(w, trace, ip, from) == 0
    decreases |trace|
  {
    if |trace| > 1 {
      NothingAfterInterval(Some(Step(w, trace[0]).0), trace[1..], ip, from);
    }
  }

  // A window that opened inside the interval outlasts it: it alone decides.
  lemma {:induction false} OneWindow(w: Window, trace: seq<Request>, ip: string, from: int)
    requires Ordered(trace) && w.started >= from
    ensures Admitted(Some(w), trace, ip, from) <= Budget(w, ip)
    decreases |trace|
  {
    if trace == [] {
    } else if trace[0].at >= from + WINDOW_LEN {
      NothingAfterInterval(Some(w), trace, ip, from);
    } else {
      OneWindow(Step(Some(w), trace[0]).0, trace[1..], ip, from);
    }
  }

  // From inside the interval at most one more window can open.
  lemma {:induction false} TwoWindows(w: Option<Window>, trace: seq<Request>, ip: string, from: int)
    requires Ordered(trace) && (trace != [] ==> trace[0].at >= from)
    ensures Admitted(w, trace, ip, from) <= (if w.None? then 0 else Budget(w.value, ip)) + MAX_PER_WINDOW
    decreases |trace|
  {
    if trace == [] {
    } else if w.None? || trace[0].at - w.value.started >= WINDOW_LEN {
      var newest := Window(trace[0].at, map[]);
      assert Step(w, trace[0]) == Step(Some(newest), trace[0]);
      OneWindow(newest, trace, ip, from);
    } else {
      TwoWindows(Some(Step(w, trace[0]).0), trace[1..], ip, from);
    }
  }

  // No interval of one window length lets through more than twice the limit,
  // whatever the traffic before it.
  lemma {:induction false} AtMostTwiceTheLimit(w: Option<Window>, trace: seq<Request>, ip: string, from: int)
    requires Ordered(trace)
    ensures Admitted(w, trace, ip, from) <= 240
    decreases |trace|
  {
    if trace == [] {
    } else if trace[0].at >= from {
      TwoWindows(w, trace, ip, from);
    } else {
      AtMostTwiceTheLimit(Some(Step(w, trace[0]).0), trace[1..], ip, from);
    }
  }

  lemma {:induction false} RequestsOfPrefix(trace: seq<Request>, n: nat, ip: string, from: int)
    requires n <= |trace|
    ensures Requests(trace[..n], ip, from) <= Requests(trace, ip, from)
    decreases |trace| - n
  {
    if n == |trace| {
      assert trace[..n] == trace;
    } else {
      RequestsOfPrefix(trace, n + 1, ip, from);
      assert trace[..n + 1][..n] == trace[..n];
    }
  }

  // The hits counted in a window are requests made since it opened.
  lemma {:induction false} PoliteFrom(w: Option<Window>, trace: seq<Request>, n: nat, ip: string)
    requires Ordered(trace) && n <= |trace|
    requires w.None? <==> n == 0
    requires w.Some? ==> w.value.started <= trace[n - 1].at
    requires w.Some? ==> Hits(w.value, ip) <= Requests(trace[..n], ip, w.value.started)
    requires forall from :: Requests(trace, ip, from) <= MAX_PER_WINDOW
    ensures !AnyRefused(w, trace[n..], ip)
    decreases |trace| - n
  {
    if n < |trace| {
      var r := trace[n];
      var next := Step(w, r).0;
      assert trace[..n + 1][..n] == trace[..n];
      assert Hits(next, ip) <= Requests(trace[..n + 1], ip, next.started);
      RequestsOfPrefix(trace, n + 1, ip, next.started);
      PoliteFrom(Some(next), trace, n + 1, ip);
      assert trace[n..][1..] == trace[n + 1..];
    }
  }

  // A caller that keeps to the limit in every interval is never refused,
  // whatever the other callers do.
  lemma PoliteNeverRefused(trace: seq<Request>, ip: string)
    requires Ordered(trace)
    requires forall from :: Requests(trace, ip, from) <= 120
    ensures !AnyRefused(None, trace, ip)
  {
    PoliteFrom(None, trace, 0, ip);
    assert trace[0..] == trace;
  }

  // ---- the bound is reached ----

  function Burst(ip: string, at: int, n: nat): seq<Request> {
    seq(n, _ => Request(ip, at))
  }

  // One more admitted request ahead of a trace.
  lemma OneAdmitted(w: Window, r: Request, trace: seq<Request>, from: int)
    requires r.at - w.started < WINDOW_LEN && Inside(r, r.ip, from) && Hits(w, r.ip) < MAX_PER_WINDOW
    ensures Admitted(Some(w), [r] + trace, r.ip, from) == 1 + Admitted(Some(Counted(w, r.ip)), trace, r.ip, from)
  {
    assert ([r] + trace)[1..] == trace;
  }

  // The window after `n` more admitted requests of an address.
  function After(w: Window, ip: string, n: nat): Window {
    w.(hits := w.hits[ip := Hits(w, ip) + n])
  }

  lemma AfterNext(w: Window, ip: string, n: nat)
    ensures After(Counted(w, ip), ip, n) == After(w, ip, n + 1)
    ensures Hits(Counted(w, ip), ip) == Hits(w, ip) + 1 && Counted(w, ip) == After(w, ip, 1)
  {
    assert Counted(w, ip).hits[ip := Hits(w, ip) + 1 + n] == w.hits[ip := Hits(w, ip) + n + 1];
  }

  lemma {:induction false} BurstAdmitted(w: Window, ip: string, at: int, n: nat, rest: seq<Request>, from: int)
    requires at - w.started < WINDOW_LEN && Inside(Request(ip, at), ip, from)
    requires n > 0 && Hits(w, ip) + n <= MAX_PER_WINDOW
    ensures Admitted(Some(w), Burst(ip, at, n) + rest, ip, from) == n + Admitted(Some(After(w, ip, n)), rest, ip, from)
    decreases n
  {
    var tail := Burst(ip, at, n - 1) + rest;
    assert Burst(ip, at, n) + rest == [Request(ip, at)] + tail;
    OneAdmitted(w, Request(ip, at), tail, from);
    AfterNext(w, ip, n - 1);
    if n == 1 {
      assert tail == rest;
    } else {
      BurstAdmitted(Counted(w, ip), ip, at, n - 1, rest, from);
    }
  }

  // A burst at the end of one window and another at the start of the next get
  // twice the limit through within one window length.
  lemma TwiceTheLimitIsReached(ip: string, other: string)
    requires ip != other
    ensures var trace := [Request(other, 0)] + Burst(ip, WINDOW_LEN - 1, MAX_PER_WINDOW) + Burst(ip, WINDOW_LEN, MAX_PER_WINDOW);
      Ordered(trace) && Admitted(None, trace, ip, WINDOW_LEN - 1) == 240
  {
    var late, early := Burst(ip, WINDOW_LEN - 1, MAX_PER_WINDOW), Burst(ip, WINDOW_LEN, MAX_PER_WINDOW);
    var trace := [Request(other, 0)] + late + early;
    assert trace[1..] == late + early;
    var w := Step(None, Request(other, 0)).0;
    BurstAdmitted(w, ip, WINDOW_LEN - 1, MAX_PER_WINDOW, early, WINDOW_LEN - 1);
    var spent := After(w, ip, MAX_PER_WINDOW);
    var newest := Window(WINDOW_LEN, map[]);
    assert early[0] == Request(ip, WINDOW_LEN);
    assert Step(Some(spent), early[0]) == Step(Some(newest), early[0]);
    BurstAdmitted(newest, ip, WINDOW_LEN, MAX_PER_WINDOW, [], WINDOW_LEN - 1);
    assert early + [] == early;
  }
}
