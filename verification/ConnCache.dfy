/**
  The per-address connection cache of the Spectral and QUIC transports (transport/spectral.go,
  transport/quic.go), which differ only in the library they dial. A dial holds the lock from the
  lookup to the stream it returns; an eviction goroutine per established connection waits for it
  to die, takes the lock, and removes it from the cache if it is still the cached one.

  Connections are numbered in the order they are established.
 */
module ConnCache {
  import opened Bytes

  type Addr = string

  datatype State = State(
    cache: map<Addr, nat>,
    established: seq<Addr>,      // the address of each connection
    dead: set<nat>,
    watched: set<nat>,           // connections whose eviction goroutine has not run yet
    failed: set<nat>             // connections on which opening a stream has failed
  )

  datatype Event =
    | DialAddr(addr: Addr, dialOk: bool, streamOk: bool)
    | Die(c: nat)
    | Evict(c: nat)

  const EMPTY: State := State(map[], [], {}, {}, {})

  /** The connection a dial uses, if it gets one: the cached one or a new one with its watcher. */
  function Connect(s: State, addr: Addr, dialOk: bool): State {
    if addr in s.cache || !dialOk then s else
    s.(cache := s.cache[addr := |s.established|], established := s.established + [addr],
       watched := s.watched + {|s.established|})
  }

  function OpenStream(s: State, addr: Addr, streamOk: bool): State {
    if addr !in s.cache || streamOk then s else
    s.(cache := s.cache - {addr}, failed := s.failed + {s.cache[addr]})
  }

  function Evicted(s: State, c: nat): State
    requires c < |s.established|
  {
    var addr := s.established[c];
    var t := s.(watched := s.watched - {c});
    if addr in s.cache && s.cache[addr] == c then t.(cache := s.cache - {addr}) else t
  }

  function Step(s: State, e: Event): State {
    match e
    case DialAddr(addr, dialOk, streamOk) => OpenStream(Connect(s, addr, dialOk), addr, streamOk)
    case Die(c) => if c < |s.established| then s.(dead := s.dead + {c}) else s
    case Evict(c) => if c in s.watched && c in s.dead && c < |s.established| then Evicted(s, c) else s
  }

  function Run(es: seq<Event>): State {
    if es == [] then EMPTY else Step(Run(es[..|es| - 1]), es[|es| - 1])
  }

  predicate Cached(s: State, c: nat) {
    c < |s.established| && s.established[c] in s.cache && s.cache[s.established[c]] == c
  }

  /** No connection to the same address was established after `c`. */
  ghost predicate Newest(s: State, c: nat)
    requires c < |s.established|
  {
    forall d :: c < d < |s.established| ==> s.established[d] != s.established[c]
  }

  ghost predicate Inv(s: State) {
    && (forall a :: a in s.cache ==>
          && s.cache[a] < |s.established| && s.established[s.cache[a]] == a
          && Newest(s, s.cache[a]) && s.cache[a] in s.watched)
    && (forall c :: c in s.watched ==> c < |s.established|)
    && (forall c :: c in s.dead ==> c < |s.established|)
    && (forall c: nat :: c < |s.established| ==> Cached(s, c) || c in s.failed || (c in s.dead && c !in s.watched))
  }

  lemma ConnectKeeps(s: State, addr: Addr, dialOk: bool)
    requires Inv(s)
    ensures Inv(Connect(s, addr, dialOk))
  {
    var t := Connect(s, addr, dialOk);
    if addr !in s.cache && dialOk {
      forall a | a in t.cache ensures Newest(t, t.cache[a]) {
        if a != addr { assert Newest(s, s.cache[a]); }
      }
      forall c: nat | c < |t.established| ensures Cached(t, c) || c in t.failed || (c in t.dead && c !in t.watched) {
        if c < |s.established| {
          assert Cached(s, c) || c in s.failed || (c in s.dead && c !in s.watched);
        }
      }
    }
  }

  lemma OpenStreamKeeps(s: State, addr: Addr, streamOk: bool)
    requires Inv(s)
    ensures Inv(OpenStream(s, addr, streamOk))
  {
    var t := OpenStream(s, addr, streamOk);
    forall a | a in t.cache ensures Newest(t, t.cache[a]) { assert Newest(s, s.cache[a]); }
    forall c: nat | c < |t.established| ensures Cached(t, c) || c in t.failed || (c in t.dead && c !in t.watched) {
      assert Cached(s, c) || c in s.failed || (c in s.dead && c !in s.watched);
    }
  }

  lemma EvictKeeps(s: State, c: nat)
    requires Inv(s) && c < |s.established| && c in s.dead
    ensures Inv(Evicted(s, c))
  {
    var t := Evicted(s, c);
    forall a | a in t.cache ensures Newest(t, t.cache[a]) { assert Newest(s, s.cache[a]); }
    forall d: nat | d < |t.established| ensures Cached(t, d) || d in t.failed || (d in t.dead && d !in t.watched) {
      assert Cached(s, d) || d in s.failed || (d in s.dead && d !in s.watched);
    }
  }

  lemma StepKeeps(s: State, e: Event)
    requires Inv(s)
    ensures Inv(Step(s, e))
  {
    match e
    case DialAddr(addr, dialOk, streamOk) =>
      ConnectKeeps(s, addr, dialOk);
      OpenStreamKeeps(Connect(s, addr, dialOk), addr, streamOk);
    case Die(c) =>
      var t := Step(s, e);
      forall a | a in t.cache ensures Newest(t, t.cache[a]) { assert Newest(s, s.cache[a]); }
      forall d: nat | d < |t.established| ensures Cached(t, d) || d in t.failed || (d in t.dead && d !in t.watched) {
        assert Cached(s, d) || d in s.failed || (d in s.dead && d !in s.watched);
      }
    case Evict(c) =>
      if c in s.watched && c in s.dead && c < |s.established| { EvictKeeps(s, c); }
  }

  lemma {:induction false} RunKeeps(es: seq<Event>)
    ensures Inv(Run(es))
  {
    if es != [] {
      RunKeeps(es[..|es| - 1]);
      StepKeeps(Run(es[..|es| - 1]), es[|es| - 1]);
    }
  }

  /**
    Cache agreement: in every interleaving the connection cached for an address is the most recently
    established one to that address, and its eviction goroutine is still pending.
   */
  lemma CacheAgreement(es: seq<Event>, addr: Addr)
    requires addr in Run(es).cache
    ensures var s := Run(es); var c := s.cache[addr];
      && c < |s.established| && s.established[c] == addr && c in s.watched
      && forall d :: c < d < |s.established| ==> s.established[d] != addr
  {
    RunKeeps(es);
    assert Newest(Run(es), Run(es).cache[addr]);
  }

  /** A watcher of a connection that is not the newest to its address changes nothing in the cache. */
  lemma StaleWatcherIsHarmless(es: seq<Event>, c: nat, d: nat)
    requires c < d < |Run(es).established| && Run(es).established[c] == Run(es).established[d]
    ensures Step(Run(es), Evict(c)).cache == Run(es).cache
  {
    RunKeeps(es);
    var s := Run(es);
    if s.established[c] in s.cache { assert Newest(s, s.cache[s.established[c]]); }
  }

  /**
    Every outcome of a dial: the cached connection is used if there is one, else a new one if it can
    be established; afterwards the address is cached exactly if a stream was opened on it, and
    nothing else has changed.
   */
  lemma DialOutcome(s: State, addr: Addr, dialOk: bool, streamOk: bool)
    ensures var t := Step(s, DialAddr(addr, dialOk, streamOk)); var n := |s.established|;
      var used := if addr in s.cache then Some(s.cache[addr]) else if dialOk then Some(n) else None;
      && t.established == s.established + (if addr !in s.cache && dialOk then [addr] else [])
      && (addr in t.cache <==> used.Some? && streamOk) && (addr in t.cache ==> t.cache[addr] == used.value)
      && t.cache - {addr} == s.cache - {addr} && t.dead == s.dead
      && t.watched == s.watched + (if addr !in s.cache && dialOk then {n} else {})
      && t.failed == s.failed + (if used.Some? && !streamOk then {used.value} else {})
  {
  }

  /** A connection that dies stays cached until its eviction runs. */
  lemma DieOutcome(s: State, c: nat)
    requires c < |s.established|
    ensures Step(s, Die(c)) == s.(dead := s.dead + {c})
  {
  }

  /** Every outcome of an eviction: it waits for the death of its connection, and removes that one alone. */
  lemma EvictOutcome(s: State, c: nat)
    requires c < |s.established|
    ensures var t := Step(s, Evict(c));
      if c in s.watched && c in s.dead
      then
        && t.watched == s.watched - {c} && t.dead == s.dead && t.established == s.established && t.failed == s.failed
        && (forall a :: a in t.cache <==> a in s.cache && !(a == s.established[c] && s.cache[a] == c))
        && (forall a :: a in t.cache ==> t.cache[a] == s.cache[a])
      else t == s
  {
  }

  /** The pending evictions of dead connections, run in any order. */
  function Evictions(cs: seq<nat>): (es: seq<Event>)
    ensures |es| == |cs| && forall i :: 0 <= i < |cs| ==> es[i] == Evict(cs[i])
  {
    seq(|cs|, i requires 0 <= i < |cs| => Evict(cs[i]))
  }

  /** The dead connections among `cs` have lost their watchers, and nothing else has happened. */
  ghost predicate Drained(s: State, t: State, cs: seq<nat>) {
    && t.dead == s.dead && t.established == s.established && t.watched <= s.watched
    && forall i :: 0 <= i < |cs| && cs[i] in s.dead && cs[i] < |s.established| ==> cs[i] !in t.watched
  }

  lemma EvictStep(s: State, c: nat)
    ensures var t := Step(s, Evict(c));
      && t.dead == s.dead && t.established == s.established && t.watched <= s.watched
      && (c in s.dead && c < |s.established| ==> c !in t.watched)
  {
  }

  lemma DrainOne(s: State, t: State, cs: seq<nat>, c: nat)
    requires Drained(s, t, cs)
    ensures Drained(s, Step(t, Evict(c)), cs + [c])
  {
    EvictStep(t, c);
  }

  lemma RunLast(es: seq<Event>, e: Event)
    ensures Run(es + [e]) == Step(Run(es), e)
  {
    assert (es + [e])[..|es|] == es;
  }

  lemma {:induction false} EvictionsRun(es: seq<Event>, cs: seq<nat>)
    ensures Drained(Run(es), Run(es + Evictions(cs)), cs)
    decreases |cs|
  {
    if cs == [] {
      assert es + Evictions(cs) == es;
    } else {
      var init := cs[..|cs| - 1];
      EvictionsRun(es, init);
      var c := cs[|cs| - 1];
      assert es + Evictions(cs) == (es + Evictions(init)) + [Evict(c)];
      RunLast(es + Evictions(init), Evict(c));
      DrainOne(Run(es), Run(es + Evictions(init)), init, c);
      assert init + [c] == cs;
    }
  }

  /** Once the watchers of all dead connections have run, in any order, only live connections are cached. */
  lemma OnlyLiveRemain(es: seq<Event>, cs: seq<nat>, addr: Addr)
    requires forall c :: c in Run(es).watched && c in Run(es).dead ==> c in cs
    requires addr in Run(es + Evictions(cs)).cache
    ensures var t := Run(es + Evictions(cs)); t.cache[addr] !in t.dead
  {
    EvictionsRun(es, cs);
    RunKeeps(es + Evictions(cs));
    var t := Run(es + Evictions(cs));
    var c := t.cache[addr];
    assert c in t.watched && c in Run(es).watched;
  }

  // ---- a single connection per server -----------------------------------------------------

  predicate Live(s: State, a: Addr, c: nat) {
    c < |s.established| && s.established[c] == a && c !in s.dead
  }

  /** The documented property: at most one live connection to the address. */
  ghost predicate Single(s: State, a: Addr) {
    forall c, d :: Live(s, a, c) && Live(s, a, d) ==> c == d
  }

  /** The dial that breaks it: no connection to `a` is cached, but one on which a stream has failed is alive. */
  ghost predicate Duplicates(s: State, e: Event, a: Addr) {
    && e.DialAddr? && e.addr == a && e.dialOk && a !in s.cache
    && exists c :: Live(s, a, c) && c in s.failed
  }

  /** Opening a stream establishes and kills nothing; a new connection is the last one. */
  lemma DialLives(s: State, e: Event, a: Addr, c: nat)
    requires e.DialAddr?
    ensures var t := Step(s, e);
      Live(t, a, c) <==>
        Live(s, a, c) || (e.addr == a && e.dialOk && a !in s.cache && c == |s.established| && c !in s.dead)
  {
    var u := Connect(s, e.addr, e.dialOk);
    assert Step(s, e).established == u.established && Step(s, e).dead == s.dead;
  }

  /** A step other than a dial only ever ends lives. */
  lemma OtherLives(s: State, e: Event, a: Addr, c: nat)
    requires !e.DialAddr?
    ensures Live(Step(s, e), a, c) ==> Live(s, a, c)
  {
  }

  /** With one connection to `a` at most, a step makes a second one if and only if it is a dial that duplicates. */
  lemma StepKeepsSingleIff(s: State, e: Event, a: Addr)
    requires Inv(s) && Single(s, a)
    ensures Single(Step(s, e), a) <==> !Duplicates(s, e, a)
  {
    var t := Step(s, e);
    if !e.DialAddr? {
      forall c: nat ensures Live(t, a, c) ==> Live(s, a, c) { OtherLives(s, e, a, c); }
    } else {
      var n := |s.established|;
      forall c: nat ensures Live(t, a, c) <==>
        Live(s, a, c) || (e.addr == a && e.dialOk && a !in s.cache && c == n)
      {
        DialLives(s, e, a, c);
      }
      if e.addr == a && e.dialOk && a !in s.cache {
        assert Live(t, a, n);
        if c: nat :| Live(s, a, c) {
          assert !Cached(s, c);
          assert c in s.failed && c != n;
        }
      }
    }
  }

  ghost predicate AlwaysSingle(es: seq<Event>, a: Addr) {
    forall k: nat :: k <= |es| ==> Single(Run(es[..k]), a)
  }

  ghost predicate NeverDuplicates(es: seq<Event>, a: Addr) {
    forall k: nat :: k < |es| ==> !Duplicates(Run(es[..k]), es[k], a)
  }

  lemma AlwaysSingleSnoc(es: seq<Event>, e: Event, a: Addr)
    ensures AlwaysSingle(es + [e], a) <==> AlwaysSingle(es, a) && Single(Run(es + [e]), a)
  {
    var all := es + [e];
    assert all[..|all|] == all;
    forall k: nat | k <= |es| ensures all[..k] == es[..k] {}
    if AlwaysSingle(all, a) {
      forall k: nat | k <= |es| ensures Single(Run(es[..k]), a) {
        assert Single(Run(all[..k]), a);
      }
      assert Single(Run(all[..|all|]), a);
    }
  }

  lemma NeverDuplicatesSnoc(es: seq<Event>, e: Event, a: Addr)
    ensures NeverDuplicates(es + [e], a) <==> NeverDuplicates(es, a) && !Duplicates(Run(es), e, a)
  {
    var all := es + [e];
    assert es[..|es|] == es && all[..|es|] == es && all[|es|] == e;
    forall k: nat | k < |es| ensures all[..k] == es[..k] && all[k] == es[k] {}
    if NeverDuplicates(all, a) {
      forall k: nat | k < |es| ensures !Duplicates(Run(es[..k]), es[k], a) {
        assert !Duplicates(Run(all[..k]), all[k], a);
      }
      assert !Duplicates(Run(all[..|es|]), all[|es|], a);
    }
  }

  /**
    The transports' promise of a single connection per server, exactly: it holds throughout a run
    if and only if the run never dials an uncached address that has a live connection on which a
    stream has failed.
   */
  lemma {:induction false} SingleConnectionIff(es: seq<Event>, a: Addr)
    ensures AlwaysSingle(es, a) <==> NeverDuplicates(es, a)
  {
    if es != [] {
      var init, e := es[..|es| - 1], es[|es| - 1];
      assert init + [e] == es;
      SingleConnectionIff(init, a);
      AlwaysSingleSnoc(init, e, a);
      NeverDuplicatesSnoc(init, e, a);
      RunKeeps(init);
      RunLast(init, e);
      if AlwaysSingle(init, a) {
        assert Single(Run(init), a) by { assert init[..|init|] == init; }
        StepKeepsSingleIff(Run(init), e, a);
      }
    }
  }

  /** The same of one dial, from any reachable state: something the caller can tell before dialing. */
  lemma DialDuplicatesIff(es: seq<Event>, a: Addr, dialOk: bool, streamOk: bool)
    requires Single(Run(es), a)
    ensures var s := Run(es);
      !Single(Step(s, DialAddr(a, dialOk, streamOk)), a) <==>
        a !in s.cache && dialOk && exists c :: Live(s, a, c) && c in s.failed
  {
    RunKeeps(es);
    StepKeepsSingleIff(Run(es), DialAddr(a, dialOk, streamOk), a);
  }

  /**
    Connection reuse: in every run a live connection on which no stream has failed is the cached
    one, so of two live connections to an address the earlier has had a stream fail.
   */
  lemma OneUsableConnectionPerAddress(es: seq<Event>, a: Addr)
    ensures var s := Run(es);
      && (forall c :: Live(s, a, c) && c !in s.failed ==> a in s.cache && s.cache[a] == c)
      && (forall c, d :: c < d && Live(s, a, c) && Live(s, a, d) ==> c in s.failed)
  {
    RunKeeps(es);
    var s := Run(es);
    forall c | Live(s, a, c) && c !in s.failed ensures a in s.cache && s.cache[a] == c {
      assert Cached(s, c);
    }
    forall c, d | c < d && Live(s, a, c) && Live(s, a, d) ensures c in s.failed {
      assert Cached(s, c) ==> Newest(s, c);
    }
  }

  /** A run that breaks the promise: after a failed stream the next dial opens a second live connection. */
  lemma FailedStreamLeavesTwoConnections(a: Addr)
    ensures var s := Run([DialAddr(a, true, false), DialAddr(a, true, true)]);
      s.established == [a, a] && s.dead == {} && s.cache == map[a := 1] && !Single(s, a)
  {
    var e0, e1 := DialAddr(a, true, false), DialAddr(a, true, true);
    var one, two := [e0], [e0, e1];
    assert one[..|one| - 1] == [] && two[..|two| - 1] == one;
    var s1 := Run(one);
    assert s1 == Step(Run([]), e0);
    assert s1.cache == map[] && s1.established == [a];
    var s2 := Run([e0, e1]);
    assert s2 == Step(s1, e1);
    assert Live(s2, a, 0) && Live(s2, a, 1);
  }

  /** The transport object; its history is ghost. */
  class Transport {
    var connections: map<Addr, nat>
    var established: seq<Addr>
    ghost var dead: set<nat>
    ghost var watched: set<nat>
    ghost var failed: set<nat>

    ghost function View(): State
      reads this
    {
      State(connections, established, dead, watched, failed)
    }

    constructor ()
      ensures View() == EMPTY
    {
      connections, established := map[], [];
      dead, watched, failed := {}, {}, {};
    }

    /** Returns the connection a stream was opened on. */
    method Dial(addr: Addr, dialOk: bool, streamOk: bool) returns (conn: Option<nat>)
      modifies this
      ensures View() == Step(old(View()), DialAddr(addr, dialOk, streamOk))
      ensures conn.Some? <==> (addr in old(connections) || dialOk) && streamOk
      ensures conn.Some? ==> addr in connections && connections[addr] == conn.value
    {
      if addr !in connections {
        if !dialOk {
          return None;
        }
        connections := connections[addr := |established|];
        watched := watched + {|established|};
        established := established + [addr];
      }
      var c := connections[addr];
      if !streamOk {
        connections := connections - {addr};
        failed := failed + {c};
        return None;
      }
      conn := Some(c);
    }

    /** The eviction goroutine of a connection whose context is done. */
    method RunWatcher(c: nat)
      requires c < |established| && c in dead && c in watched
      modifies this
      ensures View() == Step(old(View()), Evict(c))
    {
      var addr := established[c];
      if addr in connections && connections[addr] == c {
        connections := connections - {addr};
      }
      watched := watched - {c};
    }
  }
}
