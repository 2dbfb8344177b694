/**
 * The relay/mode state machine of the loop controller, as values.
 *
 * Four relays (Relay1..Relay4 on GPIO 27, 32, 22 and 21) are driven by
 * `digitalWrite`. Relay1..Relay3 select the antenna loop configuration; the
 * relays are active low. Relay4 switches the auxiliary power supply. The
 * `activeMode` buffer names the configuration last selected and `power`
 * mirrors Relay4.
 */
module LoopModes {

  /** The level `digitalWrite` drives onto a pin. */
  datatype Level = Low | High

  /** Number of relays, and so of pins in the bank. */
  const RelayCount := 4

  /** Size of the `activeMode` character buffer, terminator included. */
  const ModeBufferSize := 10

  /** The levels of Relay1..Relay4, at indices 0..3. */
  type Bank = s: seq<Level> | |s| == RelayCount witness [Low, Low, Low, Low]

  /** The four loop configurations. */
  datatype Mode = A | B | Crossed | Vertical

  /** The levels a mode writes to Relay1, Relay2 and Relay3. */
  function Pattern(m: Mode): (r: seq<Level>)
    ensures |r| == 3
  {
    match m
    case A => [Low, High, High]
    case B => [High, Low, High]
    case Crossed => [Low, Low, High]
    case Vertical => [High, High, Low]
  }

  /** The label a mode copies into `activeMode`; it fits the buffer with its terminator. */
  function Label(m: Mode): (r: string)
    ensures 0 < |r| && |r| + 1 <= ModeBufferSize
    ensures '\0' !in r
  {
    match m
    case A => "A"
    case B => "B"
    case Crossed => "Crossed"
    case Vertical => "Vertical"
  }

  /** The four Relay1-3 patterns are pairwise distinct, and so are the four labels. */
  lemma PatternsAndLabelsDistinct(m: Mode, n: Mode)
    ensures Pattern(m) == Pattern(n) <==> m == n
    ensures Label(m) == Label(n) <==> m == n
  {
  }

  /** The controller's global state: the pin levels, the `activeMode` label and `power`. */
  datatype State = State(relays: Bank, activeMode: string, power: bool)

  /** The operations that change the state: `loopA` .. `vertical`, `on` and `off`. */
  datatype Op = SetMode(mode: Mode) | On | Off

  /**
   * The state after one operation. A mode operation touches only Relay1-3 and
   * `activeMode`; `on` and `off` touch only Relay4 and `power`, and leave
   * them agreeing.
   */
  function Apply(s: State, op: Op): (r: State)
    ensures op.SetMode? ==> r.relays[3] == s.relays[3] && r.power == s.power
    ensures !op.SetMode? ==> r.relays[..3] == s.relays[..3] && r.activeMode == s.activeMode
    ensures !op.SetMode? ==> PowerConsistent(r) && r.power == op.On?
  {
    match op
    case SetMode(m) => State(Pattern(m) + [s.relays[3]], Label(m), s.power)
    case On => State(s.relays[..3] + [High], s.activeMode, true)
    case Off => State(s.relays[..3] + [Low], s.activeMode, false)
  }

  /** The state after a sequence of operations, applied in order. */
  function Run(s: State, ops: seq<Op>): State
    decreases |ops|
  {
    if ops == [] then s else Run(Apply(s, ops[0]), ops[1..])
  }

  /** Any run of mode operations leaves Relay4 and `power` as they were. */
  lemma {:induction false} ModeOpsKeepPower(s: State, ops: seq<Op>)
    requires forall i :: 0 <= i < |ops| ==> ops[i].SetMode?
    ensures Run(s, ops).relays[3] == s.relays[3] && Run(s, ops).power == s.power
    decreases |ops|
  {
    if ops != [] {
      ModeOpsKeepPower(Apply(s, ops[0]), ops[1..]);
    }
  }

  /** Any run of `on`/`off` operations leaves Relay1-3 and `activeMode` as they were. */
  lemma {:induction false} PowerOpsKeepMode(s: State, ops: seq<Op>)
    requires forall i :: 0 <= i < |ops| ==> !ops[i].SetMode?
    ensures Run(s, ops).relays[..3] == s.relays[..3] && Run(s, ops).activeMode == s.activeMode
    decreases |ops|
  {
    if ops != [] {
      PowerOpsKeepMode(Apply(s, ops[0]), ops[1..]);
    }
  }

  /** Every operation is idempotent. */
  lemma ApplyIdempotent(s: State, op: Op)
    ensures Apply(Apply(s, op), op) == Apply(s, op)
  {
  }

  /** The mode axis and the power axis are independent: their operations commute. */
  lemma ModeAndPowerCommute(s: State, m: Mode, on: bool)
    ensures var p := if on then On else Off;
      Apply(Apply(s, SetMode(m)), p) == Apply(Apply(s, p), SetMode(m))
  {
  }

  /** Relay1-3 show the pattern of the mode that `activeMode` names. */
  ghost predicate ModeConsistent(s: State)
  {
    exists m :: s.relays[..3] == Pattern(m) && s.activeMode == Label(m)
  }

  /** Relay4 is HIGH exactly when `power` is set. */
  predicate PowerConsistent(s: State)
  {
    s.relays[3] == High <==> s.power
  }

  /** The invariant of the running controller. */
  ghost predicate Invariant(s: State)
  {
    ModeConsistent(s) && PowerConsistent(s)
  }

  /**
   * In a mode-consistent state the pins show exactly one pattern, the one
   * belonging to `activeMode`.
   */
  lemma ExactlyOnePattern(s: State, m: Mode)
    requires ModeConsistent(s)
    ensures s.relays[..3] == Pattern(m) <==> s.activeMode == Label(m)
  {
  }

  /** Every operation preserves the invariant. */
  lemma ApplyKeepsInvariant(s: State, op: Op)
    requires Invariant(s)
    ensures Invariant(Apply(s, op))
  {
  }

  /** Every sequence of operations preserves the invariant. */
  lemma {:induction false} RunKeepsInvariant(s: State, ops: seq<Op>)
    requires Invariant(s)
    ensures Invariant(Run(s, ops))
    decreases |ops|
  {
    if ops != [] {
      ApplyKeepsInvariant(s, ops[0]);
      RunKeepsInvariant(Apply(s, ops[0]), ops[1..]);
    }
  }

  /** The boot sequence of `setup`: `off()` then `vertical()`. */
  function Boot(s: State): (r: State)
    ensures r == BootState
  {
    Apply(Apply(s, Off), SetMode(Vertical))
  }

  /** The state right after boot, whatever the pins and globals held before. */
  const BootState := State([High, High, Low, Low], "Vertical", false)

  /** The state boot reaches from any prior state satisfies the invariant. */
  lemma BootEstablishesInvariant(s: State)
    ensures Invariant(Boot(s))
  {
  }

  /**
   * Starting from boot, after any sequence of operations Relay1-3 show some
   * mode's pattern and `activeMode` names that mode, Relay4 mirrors `power`,
   * and no other mode's pattern or label is shown.
   */
  lemma ReachableStatesConsistent(s: State, ops: seq<Op>, m: Mode)
    ensures Invariant(Run(Boot(s), ops))
    ensures Run(Boot(s), ops).relays[..3] == Pattern(m) <==> Run(Boot(s), ops).activeMode == Label(m)
  {
    BootEstablishesInvariant(s);
    RunKeepsInvariant(Boot(s), ops);
    ExactlyOnePattern(Run(Boot(s), ops), m);
  }
}
