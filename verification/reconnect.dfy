/**
 * The reconnect watchdog in `loop`: when the Wi-Fi link is down and at least
 * `interval` (30 000 ms) has passed since the last reconnect, it disconnects,
 * reconnects and remembers the time. Times are `millis()` values held in
 * 32-bit unsigned integers, so the elapsed time is a wrap-around difference.
 */
module Reconnect {

  /** 2^32: the range of `unsigned int` and `unsigned long` on the ESP32. */
  const Modulus := 0x1_0000_0000

  newtype u32 = x: int | 0 <= x < 0x1_0000_0000

  /** `interval = 30*1000`. */
  const Interval: u32 := 30 * 1000

  /** Unsigned 32-bit subtraction `a - b`, which wraps around modulo 2^32. */
  function WrapSub(a: u32, b: u32): (r: u32)
    ensures r as int == if a >= b then a as int - b as int else a as int - b as int + Modulus
    ensures (b as int + r as int) % Modulus == a as int
  {
    ((a as int - b as int) % Modulus) as u32
  }

  /**
   * The guard of `loop`: link down and at least `interval` elapsed since
   * `previousMillis`, either without a wrap of the clock or across one.
   */
  predicate ReconnectDue(connected: bool, currentMillis: u32, previousMillis: u32): (r: bool)
    ensures r <==> (
      && !connected
      && (|| previousMillis as int + Interval as int <= currentMillis as int
          || (currentMillis < previousMillis
              && previousMillis as int + Interval as int <= currentMillis as int + Modulus)))
  {
    !connected && WrapSub(currentMillis, previousMillis) >= Interval
  }

  /** The `millis()` reading at real time `t` (in ms since boot): the count wraps after 2^32. */
  function Millis(t: nat): u32
  {
    (t % Modulus) as u32
  }

  /**
   * For two readings less than 2^32 ms (about 49.7 days) apart, the wrapped
   * difference is the real elapsed time, across a wrap of `millis()` too.
   */
  lemma ElapsedIsRealTime(earlier: nat, later: nat)
    requires earlier <= later < earlier + Modulus
    ensures WrapSub(Millis(later), Millis(earlier)) as int == later - earlier
  {
  }

  /** One call of `loop` with the link state and the clock reading it observes. */
  datatype Tick = Tick(connected: bool, currentMillis: u32)

  /** The times at which a run of `loop` calls reconnects, starting from `previousMillis`. */
  function Reconnects(previousMillis: u32, ticks: seq<Tick>): seq<u32>
    decreases |ticks|
  {
    if ticks == [] then []
    else if ReconnectDue(ticks[0].connected, ticks[0].currentMillis, previousMillis) then
      [ticks[0].currentMillis] + Reconnects(ticks[0].currentMillis, ticks[1..])
    else
      Reconnects(previousMillis, ticks[1..])
  }

  /** The value of `previousMillis` after a run of `loop` calls. */
  function PreviousAfter(previousMillis: u32, ticks: seq<Tick>): u32
    decreases |ticks|
  {
    if ticks == [] then previousMillis
    else if ReconnectDue(ticks[0].connected, ticks[0].currentMillis, previousMillis) then
      PreviousAfter(ticks[0].currentMillis, ticks[1..])
    else
      PreviousAfter(previousMillis, ticks[1..])
  }

  /**
   * `previousMillis` only moves when a reconnect fires: after a run it holds
   * the time of the last reconnect, or its old value if there was none.
   */
  lemma {:induction false} PreviousIsLastReconnect(previousMillis: u32, ticks: seq<Tick>)
    ensures var f := Reconnects(previousMillis, ticks);
      PreviousAfter(previousMillis, ticks) == if f == [] then previousMillis else f[|f| - 1]
    decreases |ticks|
  {
    if ticks != [] {
      var t := ticks[0];
      if ReconnectDue(t.connected, t.currentMillis, previousMillis) {
        PreviousIsLastReconnect(t.currentMillis, ticks[1..]);
      } else {
        PreviousIsLastReconnect(previousMillis, ticks[1..]);
      }
    }
  }

  /**
   * No two reconnects are less than `interval` apart in wrapped time, and the
   * first is at least `interval` after the starting `previousMillis`.
   */
  lemma {:induction false} ReconnectsSpaced(previousMillis: u32, ticks: seq<Tick>)
    ensures var f := Reconnects(previousMillis, ticks);
      && (|f| > 0 ==> WrapSub(f[0], previousMillis) >= Interval)
      && forall i :: 0 < i < |f| ==> WrapSub(f[i], f[i - 1]) >= Interval
    decreases |ticks|
  {
    if ticks != [] {
      var t := ticks[0];
      if ReconnectDue(t.connected, t.currentMillis, previousMillis) {
        ReconnectsSpaced(t.currentMillis, ticks[1..]);
        var rest := Reconnects(t.currentMillis, ticks[1..]);
        var f := [t.currentMillis] + rest;
        assert forall i :: 0 < i < |f| ==> f[i] == rest[i - 1];
      } else {
        ReconnectsSpaced(previousMillis, ticks[1..]);
      }
    }
  }

  /** While the link stays up, no reconnect is issued. */
  lemma {:induction false} ConnectedNeverReconnects(previousMillis: u32, ticks: seq<Tick>)
    requires forall i :: 0 <= i < |ticks| ==> ticks[i].connected
    ensures Reconnects(previousMillis, ticks) == []
    decreases |ticks|
  {
    if ticks != [] {
      ConnectedNeverReconnects(previousMillis, ticks[1..]);
    }
  }

  /** The global `previousMillis` and the check `loop` runs on every pass. */
  class Watchdog {
    var previousMillis: u32

    /** `previousMillis = 0` at program start. */
    constructor ()
      ensures previousMillis == 0
    {
      previousMillis := 0;
    }

    /**
     * One pass of `loop`: `reconnect` tells whether `WiFi.disconnect()` and
     * `WiFi.reconnect()` are issued; only then is `previousMillis` updated.
     */
    method Loop(connected: bool, currentMillis: u32) returns (reconnect: bool)
      modifies this
      ensures reconnect <==> !connected && WrapSub(currentMillis, old(previousMillis)) >= Interval
      ensures previousMillis == if reconnect then currentMillis else old(previousMillis)
      ensures Reconnects(old(previousMillis), [Tick(connected, currentMillis)])
           == if reconnect then [currentMillis] else []
      ensures previousMillis == PreviousAfter(old(previousMillis), [Tick(connected, currentMillis)])
    {
      reconnect := !connected && WrapSub(currentMillis, previousMillis) >= Interval;
      if reconnect {
        previousMillis := currentMillis;
      }
    }
  }
}
