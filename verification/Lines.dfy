/** Which interrupt is served: the lowest pending line, and on it the lowest
    device whose bit is on. */
module Lines {
  import opened Nucleus

  const LINETWO: nat := 2
  const WORDBITS: nat := 32

  /** The word with bit `j` alone on; none beyond the width of a word. */
  function Bit(j: nat): bv32 { if j == 0 then 1 else Shifted(Bit(j - 1)) }

  function Shifted(word: bv32): bv32 { word << 1 }

  predicate Covers(word: bv32, bits: bv32) { bits & word == bits }

  ghost predicate On(word: bv32, j: nat) { Covers(word, Bit(j)) }

  /** `d` is the lowest bit on, from bit `low` up. */
  ghost predicate Lowest(word: bv32, low: nat, d: nat) {
    low <= d && On(word, d) && forall j :: low <= j < d ==> !On(word, j)
  }

  ghost predicate SomeDevice(word: bv32) { exists d :: 0 <= d < DEVPERINT && On(word, d) }

  /** A word covers the bit beyond its width, so that the scan always ends. */
  lemma BitsRunOut(word: bv32)
    ensures Bit(0) == 1 && On(word, WORDBITS)
  {
    assert Bit(8) == 0x100;
    assert Bit(16) == 0x1_0000;
    assert Bit(24) == 0x100_0000;
  }

  /** Scans the bit map for the lowest bit that is on; 32 when none is. */
  method GetDeviceNumber(bitMap: bv32) returns (devNum: nat)
    ensures devNum <= WORDBITS && Lowest(bitMap, 0, devNum)
  {
    BitsRunOut(bitMap);
    hide Covers, Shifted;
    var currentDevice: bv32 := 1;
    var found := false;
    devNum := 0;
    while !found
      invariant devNum <= WORDBITS && currentDevice == Bit(devNum)
      invariant found ==> On(bitMap, devNum)
      invariant forall j :: 0 <= j < devNum ==> !On(bitMap, j)
      decreases !found, WORDBITS - devNum
    {
      if Covers(bitMap, currentDevice) {
        found := true;
      } else {
        currentDevice := Shifted(currentDevice);
        devNum := devNum + 1;
      }
    }
  }

  /** `e` is what the lowest interrupting device of the lowest pending line, which
      is `line`, asks for. A line without an interrupting device has device 32. */
  ghost predicate Raised(pending: bv32, bitMaps: seq<bv32>, busy: bool, line: nat, e: Event)
    requires |bitMaps| == 5
  {
    && line <= TERMINT && Lowest(pending, LINETWO, line)
    && if line == LINETWO then e == Timer else
         exists d: nat :: Lowest(bitMaps[line - DISKINT], 0, d) && e == Device(DeviceIndex(line, d, busy))
  }

  /** A line on which a device interrupts leads to one of the device semaphores. */
  lemma InReach(word: bv32, d: nat)
    requires SomeDevice(word) && Lowest(word, 0, d)
    ensures d < DEVPERINT && forall line, busy :: DISKINT <= line <= TERMINT ==> DeviceIndex(line, d, busy) < CLCKTIMER
  {
    hide On;
  }

  lemma Served(pending: bv32, bitMaps: seq<bv32>, busy: bool, line: nat, e: Event)
    requires |bitMaps| == 5 && Raised(pending, bitMaps, busy, line, e)
    requires forall j :: DISKINT <= j <= TERMINT && On(pending, j) ==> SomeDevice(bitMaps[j - DISKINT])
    ensures e == Timer || (e.Device? && e.i < CLCKTIMER)
  {
    if line != LINETWO {
      assert LINETWO < line && On(pending, line);
      var d: nat :| Lowest(bitMaps[line - DISKINT], 0, d) && e == Device(DeviceIndex(line, d, busy));
      hide On;
      InReach(bitMaps[line - DISKINT], d);
    }
  }

  /** The lines are polled in order, the clock's first. `bitMaps` has the device
      bits of lines 3 to 7; `busy` tells, of the terminal that interrupts, whether
      its transmitter is the cause. */
  method WhichInterrupt(pending: bv32, bitMaps: seq<bv32>, busy: bool) returns (e: Event, ghost line: nat)
    requires |bitMaps| == 5 && exists j :: LINETWO <= j <= TERMINT && On(pending, j)
    ensures Raised(pending, bitMaps, busy, line, e)
  {
    LineBits();
    if Covers(pending, 0x04) {
      return Timer, LINETWO;
    }
    var lineNum: nat;
    if Covers(pending, 0x08) {
      lineNum := 3;
    } else if Covers(pending, 0x10) {
      lineNum := 4;
    } else if Covers(pending, 0x20) {
      lineNum := 5;
    } else if Covers(pending, 0x40) {
      lineNum := 6;
    } else {
      lineNum := 7;
    }
    assert Lowest(pending, LINETWO, lineNum);
    var devNum := GetDeviceNumber(bitMaps[lineNum - DISKINT]);
    e := Device(DeviceIndex(lineNum, devNum, busy));
    line := lineNum;
  }

  lemma LineBits()
    ensures Bit(2) == 0x04 && Bit(3) == 0x08 && Bit(4) == 0x10 && Bit(5) == 0x20 && Bit(6) == 0x40 && Bit(7) == 0x80
  {
  }
}
