/**
 * The controller's global state and the functions that update it in place:
 * the four relay pins, the 10-character `activeMode` buffer and the `power`
 * flag, with `loopA`, `loopB`, `crossed`, `vertical`, `on`, `off`, the boot
 * sequence of `setup` and the `getStatus` read-back.
 */
module Controller {
  import opened LoopModes
  import opened CStrings
  import opened Status

  class LoopController {
    /** Output levels of Relay1..Relay4 (`digitalRead` returns the last level written). */
    var pins: array<Level>
    /** `char activeMode[10]`. */
    var activeMode: array<char>
    var power: bool

    ghost predicate Valid()
      reads this
    {
      pins.Length == RelayCount && activeMode.Length == ModeBufferSize
    }

    /** The abstract state: pin levels, the C string in `activeMode`, and `power`. */
    ghost function Current(): State
      reads this, pins, activeMode
      requires Valid()
    {
      State(pins[..], CString(activeMode[..]), power)
    }

    /**
     * The globals as the program starts: a zero-filled `activeMode`, `power`
     * false, and whatever levels the pins happen to have.
     */
    constructor (initial: Bank)
      ensures Valid() && fresh(pins) && fresh(activeMode)
      ensures Current() == State(initial, "", false)
    {
      pins := new Level[] [initial[0], initial[1], initial[2], initial[3]];
      activeMode := new char[ModeBufferSize](_ => NUL);
      power := false;
      new;
      assert pins[..] == initial;
    }

    /** `digitalWrite` to one of the relays. */
    method DigitalWrite(relay: nat, level: Level)
      requires Valid() && relay < RelayCount
      modifies pins
      ensures pins[..] == old(pins[..])[relay := level]
    {
      pins[relay] := level;
    }

    /** Writes a mode's row to Relay1-3 and copies its label into `activeMode`. */
    method SelectMode(m: Mode, r1: Level, r2: Level, r3: Level)
      requires Valid() && [r1, r2, r3] == Pattern(m)
      modifies pins, activeMode
      ensures pins[..] == [r1, r2, r3, old(pins[3])]
      ensures CString(activeMode[..]) == Label(m) && power == old(power)
      ensures Current() == Apply(old(Current()), SetMode(m))
    {
      DigitalWrite(0, r1);
      DigitalWrite(1, r2);
      DigitalWrite(2, r3);
      StrCpy(activeMode, Label(m));
    }

    /** `loopA`: Relay1-3 = (LOW, HIGH, HIGH), `activeMode` = "A". */
    method LoopA()
      requires Valid()
      modifies pins, activeMode
      ensures pins[..] == [Low, High, High, old(pins[3])]
      ensures CString(activeMode[..]) == "A" && power == old(power)
      ensures Current() == Apply(old(Current()), SetMode(A))
    {
      SelectMode(A, Low, High, High);
    }

    /** `loopB`: Relay1-3 = (HIGH, LOW, HIGH), `activeMode` = "B". */
    method LoopB()
      requires Valid()
      modifies pins, activeMode
      ensures pins[..] == [High, Low, High, old(pins[3])]
      ensures CString(activeMode[..]) == "B" && power == old(power)
      ensures Current() == Apply(old(Current()), SetMode(B))
    {
      SelectMode(B, High, Low, High);
    }

    /** `crossed`: Relay1-3 = (LOW, LOW, HIGH), `activeMode` = "Crossed". */
    method Crossed()
      requires Valid()
      modifies pins, activeMode
      ensures pins[..] == [Low, Low, High, old(pins[3])]
      ensures CString(activeMode[..]) == "Crossed" && power == old(power)
      ensures Current() == Apply(old(Current()), SetMode(LoopModes.Crossed))
    {
      SelectMode(LoopModes.Crossed, Low, Low, High);
    }

    /** `vertical`: Relay1-3 = (HIGH, HIGH, LOW), `activeMode` = "Vertical". */
    method Vertical()
      requires Valid()
      modifies pins, activeMode
      ensures pins[..] == [High, High, Low, old(pins[3])]
      ensures CString(activeMode[..]) == "Vertical" && power == old(power)
      ensures Current() == Apply(old(Current()), SetMode(LoopModes.Vertical))
    {
      SelectMode(LoopModes.Vertical, High, High, Low);
    }

    /** `on`: Relay4 HIGH and `power` set; Relay1-3 and `activeMode` untouched. */
    method On()
      requires Valid()
      modifies pins, this`power
      ensures pins[..] == old(pins[..3]) + [High] && power
      ensures activeMode[..] == old(activeMode[..])
      ensures Current() == Apply(old(Current()), LoopModes.On)
    {
      DigitalWrite(3, High);
      power := true;
    }

    /** `off`: Relay4 LOW and `power` cleared; Relay1-3 and `activeMode` untouched. */
    method Off()
      requires Valid()
      modifies pins, this`power
      ensures pins[..] == old(pins[..3]) + [Low] && !power
      ensures activeMode[..] == old(activeMode[..])
      ensures Current() == Apply(old(Current()), LoopModes.Off)
    {
      DigitalWrite(3, Low);
      power := false;
    }

    /** The relay part of `setup`: `off()` then `vertical()`. */
    method Setup()
      requires Valid()
      modifies pins, activeMode, this`power
      ensures Current() == BootState && Invariant(Current())
    {
      ghost var before := Current();
      Off();
      Vertical();
      BootEstablishesInvariant(before);
    }

    /** `getStatus`: reads back the pins and builds the document field by field. */
    method GetStatus() returns (doc: Doc)
      requires Valid()
      ensures doc == StatusOf(Current())
    {
      doc := [];
      doc := AddBool(doc, "D0", pins[0] == High);
      doc := AddBool(doc, "D1", pins[1] == High);
      doc := AddBool(doc, "D2", pins[2] == High);
      doc := AddBool(doc, "D3", pins[3] == High);
      doc := AddBool(doc, "power", power);
      doc := AddString(doc, "mode", CString(activeMode[..]));
      StatusFieldByField(Current());
    }
  }
}
