/** The disks of user processes: from a sector number to the command words of the
    device, and back to the block. */
module Disks {
  const SEEKSHIFT: int := 0x100              // << 8
  const SECTORSHIFT: int := 0x100            // << 8
  const HEADSHIFT: int := 0x1_0000           // << 16
  const WORD: int := 0x1_0000_0000
  const DISKSEEK: int := 2
  const READBLK: int := 3
  const WRITEBLK: int := 4
  const PAGESIZE: int := 4096
  const PAGEWORDS: int := 1024
  const OSCODETOP: int := 0x2002_0000        // ROM, and the 32 pages of code above it

  /** Sector numbers from here on repeat the command words of smaller ones. */
  const SECTORS: int := 0x1000_0000

  datatype Address = Address(cylinder: int, head: int, sector: int)

  // --------------------------------------------------------------- the addresses

  /** Division and remainder as C has them, towards zero. */
  function Quotient(n: int, d: int): int
    requires d > 0
  {
    if n >= 0 then n / d else -((-n) / d)
  }

  function Remainder(n: int, d: int): int
    requires d > 0
  {
    n - Quotient(n, d) * d
  }

  function Split(sectNo: int): Address {
    var head := Remainder(sectNo, 2);
    var rest := Quotient(sectNo, 2);
    Address(Quotient(rest, 8), head, Remainder(rest, 8))
  }

  /** No two sector numbers, of either sign, have the same address. */
  lemma SplitInjective(s: int, t: int)
    requires Split(s) == Split(t)
    ensures s == t
  {
    Rejoined(s);
    Rejoined(t);
  }

  lemma Rejoined(s: int)
    ensures var a := Split(s); s == 16 * a.cylinder + 2 * a.sector + a.head
  {
  }

  /** The command words; fields that do not overlap are added, and a word that
      grows too long loses its top. */
  function SeekWord(a: Address): int { (a.cylinder * SEEKSHIFT + DISKSEEK) % WORD }

  function MoveWord(a: Address, command: int): int { (a.head * HEADSHIFT + a.sector * SECTORSHIFT + command) % WORD }

  /** What the device makes of its two command words. */
  function Decoded(seek: int, move: int): Address {
    Address(seek / SEEKSHIFT, move / HEADSHIFT, move / SECTORSHIFT % 0x100)
  }

  lemma InRange(s: nat)
    ensures var a := Split(s); a.cylinder == s / 16 && 0 <= a.head < 2 && 0 <= a.sector < 8
  {
  }

  /** The device decodes the address of the sector number less its multiples of
      `SECTORS`: for the smaller ones, the address that was meant. */
  lemma DecodedIs(s: nat, command: int)
    requires command == READBLK || command == WRITEBLK
    ensures Decoded(SeekWord(Split(s)), MoveWord(Split(s), command)) == Split(s % SECTORS)
  {
    InRange(s);
    Reduced(s);
    var a := Split(s);
    hide Split;
    Shortened(a.cylinder);
    var b := Address(a.cylinder % 0x100_0000, a.head, a.sector);
    Recombined(b, s % SECTORS);
    MovedWord(a, command);
    DecodedWords(b, command);
    hide Decoded, MoveWord;
  }

  /** Only the seek word can grow too long. */
  lemma MovedWord(a: Address, command: int)
    requires (command == READBLK || command == WRITEBLK) && 0 <= a.head < 2 && 0 <= a.sector < 8
    ensures MoveWord(a, command) == a.head * HEADSHIFT + a.sector * SECTORSHIFT + command
  {
  }

  lemma DecodedWords(b: Address, command: int)
    requires (command == READBLK || command == WRITEBLK) && 0 <= b.head < 2 && 0 <= b.sector < 8
    ensures Decoded(b.cylinder * SEEKSHIFT + DISKSEEK, b.head * HEADSHIFT + b.sector * SECTORSHIFT + command) == b
  {
  }

  lemma Recombined(a: Address, s: nat)
    requires s == 16 * a.cylinder + 2 * a.sector + a.head && 0 <= a.head < 2 && 0 <= a.sector < 8
    ensures Split(s) == a
  {
  }

  /** Two sector numbers are the same to the device exactly when they agree up to
      a multiple of `SECTORS`. */
  lemma AliasesIff(s: nat, t: nat, command: int)
    requires command == READBLK || command == WRITEBLK
    ensures (SeekWord(Split(s)) == SeekWord(Split(t)) && MoveWord(Split(s), command) == MoveWord(Split(t), command))
      <==> s % SECTORS == t % SECTORS
  {
    Reduced(s);
    Reduced(t);
    InRange(s);
    InRange(t);
    Rejoined(s);
    Rejoined(t);
    hide Split;
    var a, b := Split(s), Split(t);
    Shortened(a.cylinder);
    Shortened(b.cylinder);
    MovedWord(a, command);
    MovedWord(b, command);
    hide MoveWord;
    var c, d := a.cylinder % 0x100_0000, b.cylinder % 0x100_0000;
    Same(c, a.sector, a.head, d, b.sector, b.head);
    Same(0, a.sector, a.head, 0, b.sector, b.head);
  }

  lemma Same(c: int, sector: int, head: int, c': int, sector': int, head': int)
    requires 0 <= sector < 8 && 0 <= sector' < 8 && 0 <= head < 2 && 0 <= head' < 2
    ensures 16 * c + 2 * sector + head == 16 * c' + 2 * sector' + head' <==>
      c == c' && sector == sector' && head == head'
  {
  }

  /** The seek word keeps the low 24 bits of the cylinder. */
  lemma Shortened(c: nat)
    ensures (c * SEEKSHIFT + DISKSEEK) % WORD == (c % 0x100_0000) * SEEKSHIFT + DISKSEEK
  {
    var q, r := c / 0x100_0000, c % 0x100_0000;
    assert c * SEEKSHIFT + DISKSEEK == q * WORD + (r * SEEKSHIFT + DISKSEEK);
    Multiple(q, r * SEEKSHIFT + DISKSEEK);
  }

  lemma Multiple(q: nat, x: nat)
    requires x < WORD
    ensures (q * WORD + x) % WORD == x
  {
  }

  lemma Reduced(s: nat)
    ensures var a := Split(s); s % SECTORS == 16 * (a.cylinder % 0x100_0000) + 2 * a.sector + a.head
  {
    InRange(s);
    Rejoined(s);
    hide Split;
    Cut(Split(s).cylinder, 2 * Split(s).sector + Split(s).head);
  }

  lemma Cut(c: nat, r: nat)
    requires r < 16
    ensures (16 * c + r) % SECTORS == 16 * (c % 0x100_0000) + r
  {
    var q, x := c / 0x100_0000, c % 0x100_0000;
    Whole(q, 16 * x + r);
    assert 16 * c + r == q * SECTORS + (16 * x + r);
  }

  lemma Whole(q: nat, x: nat)
    requires x < SECTORS
    ensures (q * SECTORS + x) % SECTORS == x
  {
  }

  // ------------------------------------------------------------------ the buffers

  function DiskBuffer(diskNo: int): int { OSCODETOP + diskNo * PAGESIZE }
  function TapeBuffer(procID: int): int { OSCODETOP + (procID - 1) * PAGESIZE }

  ghost predicate InPage(w: int, p: int) { p <= w < p + PAGESIZE }

  ghost predicate Overlap(p: int, q: int) { exists w :: InPage(w, p) && InPage(w, q) }

  /** The page through which disk `diskNo` is read and written is also the page
      into which the loader of process `diskNo + 1` reads its tape, and no other's. */
  lemma BuffersCollideIff(diskNo: int, procID: int)
    ensures Overlap(DiskBuffer(diskNo), TapeBuffer(procID)) <==> diskNo == procID - 1
  {
    if diskNo == procID - 1 {
      assert InPage(DiskBuffer(diskNo), DiskBuffer(diskNo));
    }
  }

  // --------------------------------------------------------------------- transfers

  /** Word by word, as `copyPage` has it. */
  method CopyPage(source: array<int>, target: array<int>)
    requires source.Length == target.Length == PAGEWORDS
    modifies target
    ensures target[..] == old(source[..])
  {
    var i := 0;
    while i < PAGEWORDS
      invariant 0 <= i <= PAGEWORDS
      invariant target[..i] == old(source[..])[..i]
      invariant forall j :: i <= j < PAGEWORDS ==> source[j] == old(source[j])
    {
      target[i] := source[i];
      i := i + 1;
    }
  }

  class Disk {
    var arm: int
    var blocks: map<Address, seq<int>>
    const buffer: array<int>

    constructor ()
      ensures fresh(buffer) && buffer.Length == PAGEWORDS && blocks == map[]
    {
      arm, blocks := 0, map[];
      buffer := new int[PAGEWORDS];
    }

    ghost function BlockAt(a: Address): seq<int>
      reads this
    {
      if a in blocks then blocks[a] else seq(PAGEWORDS, _ => 0)
    }

    ghost predicate Valid()
      reads this
    {
      buffer.Length == PAGEWORDS && forall a :: a in blocks ==> |blocks[a]| == PAGEWORDS
    }

    /** The device: a seek moves the arm; a transfer moves one block. */
    method Seek(word: int)
      modifies `arm
      ensures arm == word / SEEKSHIFT
    {
      arm := word / SEEKSHIFT;
    }

    method Transfer(word: int)
      requires Valid()
      modifies `blocks, buffer
      ensures Valid()
      ensures var a := Address(arm, word / HEADSHIFT, word / SECTORSHIFT % 0x100);
        && (word % SECTORSHIFT == WRITEBLK ==>
              blocks == old(blocks)[a := old(buffer[..])] && buffer[..] == old(buffer[..]))
        && (word % SECTORSHIFT == READBLK ==> blocks == old(blocks) && buffer[..] == BlockAt(a))
    {
      var a := Address(arm, word / HEADSHIFT, word / SECTORSHIFT % 0x100);
      if word % SECTORSHIFT == WRITEBLK {
        blocks := blocks[a := buffer[..]];
      } else if word % SECTORSHIFT == READBLK {
        var block := if a in blocks then blocks[a] else seq(PAGEWORDS, _ => 0);
        var i := 0;
        while i < PAGEWORDS
          invariant 0 <= i <= PAGEWORDS && buffer[..i] == block[..i] && blocks == old(blocks)
        {
          buffer[i] := block[i];
          i := i + 1;
        }
      }
    }

    /** DISK_PUT and DISK_GET, between taking and leaving the disk's mutex. */
    method DiskIO(page: array<int>, sectNo: nat, command: int)
      requires Valid() && page.Length == PAGEWORDS && page != buffer
      requires command == READBLK || command == WRITEBLK
      modifies this, buffer, page
      ensures Valid()
      ensures command == WRITEBLK ==>
        blocks == old(blocks)[Split(sectNo % SECTORS) := old(page[..])] && page[..] == old(page[..])
      ensures command == READBLK ==> blocks == old(blocks) && page[..] == BlockAt(Split(sectNo % SECTORS))
    {
      var a := Split(sectNo);
      DecodedIs(sectNo, command);
      CommandOf(sectNo, command);
      hide Split, SeekWord, MoveWord;
      if command == WRITEBLK {
        CopyPage(page, buffer);
      }
      Seek(SeekWord(a));
      Transfer(MoveWord(a, command));
      if command == READBLK {
        CopyPage(buffer, page);
      }
    }
  }

  lemma CommandOf(s: nat, command: int)
    requires command == READBLK || command == WRITEBLK
    ensures MoveWord(Split(s), command) % SECTORSHIFT == command
  {
    InRange(s);
    hide Split;
  }

  // ------------------------------------------------------------------- round trip

  datatype Put = Put(sectNo: nat, page: seq<int>)

  /** The blocks of a disk after the given puts; see `DiskIO`. */
  ghost function AfterPuts(blocks: map<Address, seq<int>>, puts: seq<Put>): map<Address, seq<int>>
    decreases |puts|
  {
    if puts == [] then blocks else AfterPuts(blocks[Split(puts[0].sectNo % SECTORS) := puts[0].page], puts[1..])
  }

  /** The page last put to `sectNo`, or `before` when none was. */
  ghost function LastPut(before: seq<int>, puts: seq<Put>, sectNo: nat): seq<int>
    decreases |puts|
  {
    if puts == [] then before
    else LastPut(if puts[0].sectNo % SECTORS == sectNo % SECTORS then puts[0].page else before, puts[1..], sectNo)
  }

  /** What a get of `sectNo` finds is what was last put there, whatever was put to
      other sectors in between. Sector numbers that differ by a multiple of
      `SECTORS`, and only those, count as one. */
  lemma {:induction false} GetFindsLastPut(blocks: map<Address, seq<int>>, puts: seq<Put>, sectNo: nat,
    before: seq<int>)
    requires Found(blocks, sectNo) == before
    ensures Found(AfterPuts(blocks, puts), sectNo) == LastPut(before, puts, sectNo)
    decreases |puts|
  {
    if puts != [] {
      var p := puts[0];
      if Split(p.sectNo % SECTORS) == Split(sectNo % SECTORS) {
        SplitInjective(p.sectNo % SECTORS, sectNo % SECTORS);
      }
      hide Split;
      GetFindsLastPut(blocks[Split(p.sectNo % SECTORS) := p.page], puts[1..], sectNo,
        if p.sectNo % SECTORS == sectNo % SECTORS then p.page else before);
    }
  }

  /** The block a get of `sectNo` reads. */
  ghost function Found(blocks: map<Address, seq<int>>, sectNo: nat): seq<int> {
    var a := Split(sectNo % SECTORS);
    if a in blocks then blocks[a] else seq(PAGEWORDS, _ => 0)
  }
}
