/** Heartbeats: what a configuration must satisfy, what client and server make of it, and when silence is noticed. */
module Heartbeat {
  import opened Basics

  const MILLISECOND := 1_000_000

  // ---------------------------------------------------------------- configuration

  datatype ConfigError = BadInterval | BadTimeout | BadSkew | NoDataDir | NoSecret

  class Config {
    var listenAddr: string
    var dataDir: string
    var certFile: string
    var keyFile: string
    var heartbeatInterval: int64
    var heartbeatTimeout: int64
    var maxTimestampSkew: int64
    var isPublic: bool
    var sharedSecret: string

    /** What a running server can rely on. */
    ghost predicate Accepted()
      reads this
    {
      && 0 < heartbeatInterval <= heartbeatTimeout
      && 0 < maxTimestampSkew
      && listenAddr != ""
      && (isPublic <==> sharedSecret == "")
    }

    method Trim(trim: string -> string, join: (string, string) -> string)
      modifies this`listenAddr, this`dataDir, this`certFile, this`keyFile, this`sharedSecret
      ensures listenAddr == (if trim(old(listenAddr)) == "" then ":8443" else trim(old(listenAddr)))
      ensures dataDir == (if trim(old(dataDir)) == "" then join(".", "data") else trim(old(dataDir)))
      ensures certFile == trim(old(certFile)) && keyFile == trim(old(keyFile))
      ensures sharedSecret == trim(old(sharedSecret))
    {
      listenAddr := trim(listenAddr);
      dataDir := trim(dataDir);
      certFile := trim(certFile);
      keyFile := trim(keyFile);
      sharedSecret := trim(sharedSecret);
      if listenAddr == "" {
        listenAddr := ":8443";
      }
      if dataDir == "" {
        dataDir := join(".", "data");
      }
    }

    method LocateKeys(join: (string, string) -> string)
      modifies this`certFile, this`keyFile
      ensures certFile == (if old(certFile) == "" then join(dataDir, "tls.crt") else old(certFile))
      ensures keyFile == (if old(keyFile) == "" then join(dataDir, "tls.key") else old(keyFile))
    {
      if certFile == "" {
        certFile := join(dataDir, "tls.crt");
      }
      if keyFile == "" {
        keyFile := join(dataDir, "tls.key");
      }
    }

    /**
     `trim` is strings.TrimSpace, `join` is filepath.Join, and `makes` says for which directories os.MkdirAll succeeds.
     The durations are never changed.
     */
    method NormalizeAndValidate(trim: string -> string, join: (string, string) -> string, makes: string -> bool)
      returns (error: Option<ConfigError>)
      modifies this`listenAddr, this`dataDir, this`certFile, this`keyFile, this`sharedSecret
      ensures listenAddr == (if trim(old(listenAddr)) == "" then ":8443" else trim(old(listenAddr)))
      ensures dataDir == (if trim(old(dataDir)) == "" then join(".", "data") else trim(old(dataDir)))
      ensures error == Some(BadInterval) <==> heartbeatInterval <= 0
      ensures error == Some(BadTimeout) <==> 0 < heartbeatInterval && heartbeatTimeout < heartbeatInterval
      ensures error == Some(BadSkew) <==> 0 < heartbeatInterval <= heartbeatTimeout && maxTimestampSkew <= 0
      ensures error == Some(NoDataDir) <==>
              0 < heartbeatInterval <= heartbeatTimeout && 0 < maxTimestampSkew && !makes(dataDir)
      ensures error == None <==>
              0 < heartbeatInterval <= heartbeatTimeout && 0 < maxTimestampSkew && makes(dataDir)
              && (isPublic || trim(old(sharedSecret)) != "")
      ensures error == None ==> Accepted()
      ensures sharedSecret == if error == None && isPublic then "" else trim(old(sharedSecret))
      ensures var reached := error == None || error == Some(NoSecret);
              && certFile == (if reached && trim(old(certFile)) == "" then join(dataDir, "tls.crt")
                              else trim(old(certFile)))
              && keyFile == (if reached && trim(old(keyFile)) == "" then join(dataDir, "tls.key")
                             else trim(old(keyFile)))
    {
      Trim(trim, join);
      if heartbeatInterval <= 0 {
        return Some(BadInterval);
      }
      if heartbeatTimeout < heartbeatInterval {
        return Some(BadTimeout);
      }
      if maxTimestampSkew <= 0 {
        return Some(BadSkew);
      }
      if !makes(dataDir) {
        return Some(NoDataDir);
      }
      LocateKeys(join);
      if isPublic {
        sharedSecret := "";
      } else if sharedSecret == "" {
        return Some(NoSecret);
      }
      return None;
    }
  }

  // ---------------------------------------------------------------- negotiation

  /** The server announces whole seconds, `uint32(d / time.Second)`, for a positive duration d. */
  function Announced(d: int64): (seconds: nat)
    requires d > 0
  {
    d / SECOND % TWO_32
  }

  datatype Negotiated = Negotiated(interval: int64, timeout: int64)

  /** What the client makes of the announced seconds. */
  function Adopt(intervalSec: nat, timeoutSec: nat): Negotiated
    requires intervalSec < TWO_32 && timeoutSec < TWO_32
  {
    var interval := if intervalSec * SECOND <= 0 then 10 * SECOND else intervalSec * SECOND;
    Negotiated(interval, if timeoutSec * SECOND < interval then 30 * SECOND else timeoutSec * SECOND)
  }

  /** The negotiated pair is usable, exactly if the announced seconds kept their order or the interval is short. */
  lemma NegotiationIsSound(interval: int64, timeout: int64)
    requires 0 < interval <= timeout
    ensures var n := Adopt(Announced(interval), Announced(timeout));
            && 0 < n.interval
            && (n.interval <= n.timeout <==> Announced(interval) <= Announced(timeout) || Announced(interval) <= 30)
            && (timeout < TWO_32 * SECOND ==> n.interval <= n.timeout)
  {
    Truncated(interval, timeout);
  }

  /** Below 2^32 seconds, truncation keeps the order of durations. */
  lemma Truncated(interval: int64, timeout: int64)
    requires 0 < interval <= timeout
    ensures timeout < TWO_32 * SECOND ==>
              && Announced(interval) == interval / SECOND <= timeout / SECOND == Announced(timeout)
              && interval - SECOND < Announced(interval) * SECOND <= interval
              && timeout - SECOND < Announced(timeout) * SECOND <= timeout
  {
    assert interval / SECOND <= timeout / SECOND;
  }

  /**
   From one second up, client and server agree up to a fraction of a second, and the client's own pings come more often
   than the server's timeout. A shorter interval makes the client fall back to 10 seconds, and to a timeout of 30
   seconds if the server's is below 10.
   */
  lemma ClientPingsInTime(interval: int64, timeout: int64)
    requires 0 < interval <= timeout < TWO_32 * SECOND
    ensures var n := Adopt(Announced(interval), Announced(timeout));
            && (n.interval <= timeout <==> SECOND <= interval || 10 * SECOND <= timeout)
            && (SECOND <= interval ==>
                interval - SECOND < n.interval <= interval && timeout - SECOND < n.timeout <= timeout)
            && n.interval % SECOND == 0 && n.timeout % SECOND == 0
            && (interval < SECOND ==> n.interval == 10 * SECOND)
            && (interval < SECOND && 10 * SECOND <= timeout ==> timeout - SECOND < n.timeout <= timeout)
            && (interval < SECOND && timeout < 10 * SECOND ==> n.timeout == 30 * SECOND)
  {
    Truncated(interval, timeout);
  }

  /** A timeout of 2^32 + 5 seconds is announced as 5: the client ends with an interval above its timeout. */
  lemma LongTimeoutsBreakNegotiation()
    ensures var interval, timeout := 40 * SECOND, (TWO_32 + 5) * SECOND;
            && 0 < interval <= timeout < TWO_63
            && Adopt(Announced(interval), Announced(timeout)) == Negotiated(40 * SECOND, 30 * SECOND)
  {}

  // ---------------------------------------------------------------- detection

  /** The time of the last frame that arrived up to a given time. */
  type Hearing = nat -> nat

  ghost predicate Sensible(heard: Hearing) {
    forall t, u :: t <= u ==> heard(t) <= heard(u) <= u
  }

  /** Arrivals are stored in milliseconds. */
  function Stored(t: nat): nat {
    t / MILLISECOND * MILLISECOND
  }

  predicate TimedOut(now: nat, heard: Hearing, timeout: nat) {
    now - Stored(heard(now)) > timeout
  }

  /** When the session is closed out of the given number of ticks after `now`, one every interval. */
  function ClosedAt(now: nat, interval: nat, timeout: nat, heard: Hearing, writable: nat -> bool, ticks: nat)
    : Option<nat>
    decreases ticks
  {
    if ticks == 0 then None
    else
      var tick := now + interval;
      if TimedOut(tick, heard, timeout) || !writable(tick) then Some(tick)
      else ClosedAt(tick, interval, timeout, heard, writable, ticks - 1)
  }

  /** The loop of monitorSession with ideal ticks; after `ticks` of them somebody else closes the session. */
  method MonitorSession(start: nat, interval: nat, timeout: nat, heard: Hearing, writable: nat -> bool, ticks: nat)
    returns (closed: Option<nat>)
    ensures closed == ClosedAt(start, interval, timeout, heard, writable, ticks)
  {
    var now: nat := start;
    for i := 0 to ticks
      invariant ClosedAt(start, interval, timeout, heard, writable, ticks) ==
                ClosedAt(now, interval, timeout, heard, writable, ticks - i)
    {
      now := now + interval;
      if now - Stored(heard(now)) > timeout {
        return Some(now);
      }
      var sent := writable(now);
      if !sent {
        return Some(now);
      }
    }
    return None;
  }

  /** Arrival times are rounded down to a millisecond. */
  lemma StoredRoundsDown(t: nat)
    ensures Stored(t) <= t < Stored(t) + 1_000_000 && Stored(t) % 1_000_000 == 0
  {}

  /** The k-th tick finds the session silent for too long, or cannot write its ping. */
  predicate BadTick(start: nat, interval: nat, timeout: nat, heard: Hearing, writable: nat -> bool, k: nat) {
    var tick: nat := start + k * interval;
    tick - heard(tick) / 1_000_000 * 1_000_000 > timeout || !writable(tick)
  }

  lemma TicksShift(start: nat, interval: nat, timeout: nat, heard: Hearing, writable: nat -> bool, k: nat)
    ensures BadTick(start, interval, timeout, heard, writable, k + 1)
            <==> BadTick(start + interval, interval, timeout, heard, writable, k)
    ensures start + (k + 1) * interval == start + interval + k * interval
  {
    assert start + (k + 1) * interval == start + interval + k * interval;
  }

  /** The session is closed exactly at the first such tick, and not at all if there is none. */
  lemma {:induction false} ClosedAtFirstBadTick(start: nat, interval: nat, timeout: nat, heard: Hearing,
                                                writable: nat -> bool, ticks: nat) returns (first: nat)
    ensures 1 <= first <= ticks + 1
    ensures forall k :: 1 <= k < first ==> !BadTick(start, interval, timeout, heard, writable, k)
    ensures first <= ticks ==>
              && BadTick(start, interval, timeout, heard, writable, first)
              && ClosedAt(start, interval, timeout, heard, writable, ticks) == Some(start + first * interval)
    ensures first == ticks + 1 ==> ClosedAt(start, interval, timeout, heard, writable, ticks) == None
    decreases ticks
  {
    first := 1;
    if ticks > 0 {
      assert start + 1 * interval == start + interval;
      if !BadTick(start, interval, timeout, heard, writable, 1) {
        var later := ClosedAtFirstBadTick(start + interval, interval, timeout, heard, writable, ticks - 1);
        forall k | 1 <= k <= later + 1 && !(k == 1)
          ensures BadTick(start, interval, timeout, heard, writable, k)
                  <==> BadTick(start + interval, interval, timeout, heard, writable, k - 1)
        {
          TicksShift(start, interval, timeout, heard, writable, k - 1);
        }
        TicksShift(start, interval, timeout, heard, writable, later);
        first := later + 1;
      }
    }
  }

  function Max(a: nat, b: nat): nat {
    if a < b then b else a
  }

  /** Nobody is closed for silence before the timeout has passed, up to the rounding to a millisecond. */
  lemma {:induction false} NotTooEarly(start: nat, interval: nat, timeout: nat, heard: Hearing, writable: nat -> bool,
                                       ticks: nat)
    requires Sensible(heard)
    ensures var closed := ClosedAt(start, interval, timeout, heard, writable, ticks);
            closed.Some? && writable(closed.value) ==> closed.value > heard(closed.value) + timeout - MILLISECOND
    decreases ticks
  {
    if ticks > 0 {
      NotTooEarly(start + interval, interval, timeout, heard, writable, ticks - 1);
    }
  }

  /** A session silent since t0 is closed one interval after the timeout at the latest, or after the first tick. */
  lemma {:induction false} NotTooLate(start: nat, interval: nat, timeout: nat, heard: Hearing, writable: nat -> bool,
                                      ticks: nat, t0: nat)
    requires Sensible(heard) && (forall t :: t >= t0 ==> heard(t) == t0)
    requires ticks > 0 && start + ticks * interval > t0 + timeout
    ensures var closed := ClosedAt(start, interval, timeout, heard, writable, ticks);
            closed.Some? && closed.value <= Max(t0 + timeout, start) + interval
    decreases ticks
  {
    var tick := start + interval;
    if tick > t0 + timeout {
      assert TimedOut(tick, heard, timeout);
    } else if !TimedOut(tick, heard, timeout) && writable(tick) {
      assert tick + (ticks - 1) * interval == start + ticks * interval;
      assert ticks > 1;
      NotTooLate(tick, interval, timeout, heard, writable, ticks - 1, t0);
    }
  }
}
