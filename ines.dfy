/** The iNES file reader: `inesparser` (nes.js:704-738) and
    `Cartridge.fromRomData` (nes.js:1087-1095). Only the magic number, the
    two bank counts and the trainer bit of the 16-byte header are read. */
module Ines {
  import opened Wrappers
  import opened Bytes
  import opened Buff

  datatype InesError = InvalidHeader

  /** What `inesparser` returns: the PRG ROM and the CHR ROM bytes. */
  datatype Rom = Rom(prg: seq<Byte>, chr: seq<Byte>)

  const HeaderSize: nat := 16
  const TrainerSize: nat := 512
  /** PRG ROM comes in 16 KB banks, CHR ROM in 8 KB banks. */
  const PrgBank: nat := 0x4000
  const ChrBank: nat := 0x2000

  function Min(a: int, b: int): int
  {
    if a <= b then a else b
  }

  /** `buffer.slice(start, end)` for bounds that are not negative: both are
      clamped to the buffer, and the result is empty unless start < end. */
  function Slice(b: seq<Byte>, start: nat, end: nat): (r: seq<Byte>)
    ensures |r| <= |b| && |r| <= if start <= end then end - start else 0
    ensures end <= |b| && start <= end ==> r == b[start..end]
    ensures start <= |b| <= end ==> r == b[start..]
    ensures end <= start || |b| <= start ==> r == []
  {
    var from := Min(start, |b|);
    var to := Min(end, |b|);
    if from < to then b[from..to] else []
  }

  /** `read8() * banks`: a missing byte reads as `undefined`, and the product
      is NaN, written None. */
  function BankBytes(count: Option<Byte>, bank: nat): Option<nat>
  {
    if count.Some? then Some(count.value * bank) else None
  }

  /** `(flags6 & 4) == 4 ? 512 : 0`; `undefined & 4` is 0. */
  function TrainerLength(flags6: Option<Byte>): nat
  {
    if flags6.Some? && And(flags6.value, 4) == 4 then TrainerSize else 0
  }

  /** `inesparser(buffer)`. The cursor starts on the PRG data at 16, or 528
      after a trainer. A NaN size turns the slice bound, and with the PRG size
      the cursor too, into NaN, which `slice` reads as 0: that slice is
      empty. */
  function InesParse(b: seq<Byte>): Result<Rom, InesError>
  {
    if ReadUInt32LE(b) != MagicWord then Failure(InvalidHeader)
    else
      var prgsize := BankBytes(ReadInt8(b, 4), PrgBank);
      var chrsize := BankBytes(ReadInt8(b, 5), ChrBank);
      var cursor := HeaderSize + TrainerLength(ReadInt8(b, 6));
      match prgsize
      case None => Success(Rom([], []))
      case Some(p) =>
        var chr := match chrsize
          case None => []
          case Some(c) => Slice(b, cursor + p, cursor + p + c);
        Success(Rom(Slice(b, cursor, cursor + p), chr))
  }

  /** The object `new Cartridge({ prg, chr })` builds. */
  datatype Cartridge = Cartridge(prg: seq<Byte>, chr: seq<Byte>)

  /** `Cartridge.fromRomData(romData)`: the parser's two ROMs in a cartridge,
      or the parser's error. */
  function FromRomData(romData: seq<Byte>): (r: Result<Cartridge, InesError>)
    ensures r.Success? <==> InesParse(romData).Success?
    ensures r.Success? ==>
      r.value.prg == InesParse(romData).value.prg && r.value.chr == InesParse(romData).value.chr
    ensures r.Failure? ==> r.error == InvalidHeader
  {
    match InesParse(romData)
    case Failure(e) => Failure(e)
    case Success(rom) => Success(Cartridge(rom.prg, rom.chr))
  }

  /** The parser throws exactly when the buffer does not start with
      4E 45 53 1A. */
  lemma InesParseChecksMagic(b: seq<Byte>)
    ensures InesParse(b).Success? <==> |b| >= 4 && b[..4] == Magic
  {
    MagicWordMeansMagicBytes(b);
  }

  /** Where the PRG data begins: after the header, and after the trainer when
      bit 2 of byte 6 is set. */
  function PrgStart(b: seq<Byte>): nat
    requires |b| >= 7
  {
    HeaderSize + if And(b[6], 4) == 4 then TrainerSize else 0
  }

  /** On a buffer holding the whole image, PRG is the byte-4 × 16 KB bytes at
      the PRG start and CHR the byte-5 × 8 KB bytes right after them. */
  lemma InesParseLayout(b: seq<Byte>)
    requires |b| >= 7 && b[..4] == Magic
    requires PrgStart(b) + b[4] * PrgBank + b[5] * ChrBank <= |b|
    ensures var r := InesParse(b);
      var o, p, c := PrgStart(b), b[4] * PrgBank, b[5] * ChrBank;
      && r.Success?
      && |r.value.prg| == p && r.value.prg == b[o..o + p]
      && |r.value.chr| == c && r.value.chr == b[o + p..o + p + c]
  {
    InesParseChecksMagic(b);
  }

  /** On a buffer cut short, PRG is whatever part of its bank data is there,
      and CHR is empty unless PRG is complete. */
  lemma InesParseTruncated(b: seq<Byte>)
    requires |b| >= 7 && b[..4] == Magic
    ensures var r := InesParse(b);
      var o, p := PrgStart(b), b[4] * PrgBank;
      && r.Success?
      && |r.value.prg| <= p
      && r.value.prg == (if o < |b| then b[o..Min(o + p, |b|)] else [])
      && (|r.value.prg| < p ==> r.value.chr == [])
  {
    InesParseChecksMagic(b);
  }

  /** A header too short to hold the bank counts yields two empty ROMs. */
  lemma InesParseShortHeader(b: seq<Byte>)
    requires 4 <= |b| < 16 && b[..4] == Magic
    ensures InesParse(b) == Success(Rom([], []))
  {
    InesParseChecksMagic(b);
  }

  /** An iNES image: the magic, the two bank counts, byte 6, nine more header
      bytes, the trainer when byte 6 announces one, the PRG and CHR banks, and
      anything after them. */
  function Image(flags6: Byte, header: seq<Byte>, trainer: seq<Byte>,
                 prg: seq<Byte>, chr: seq<Byte>, trailer: seq<Byte>): seq<Byte>
    requires |header| == 9
    requires |trainer| == TrainerLength(Some(flags6))
    requires |prg| % PrgBank == 0 && |prg| / PrgBank < 256
    requires |chr| % ChrBank == 0 && |chr| / ChrBank < 256
  {
    Magic + [(|prg| / PrgBank) as Byte, (|chr| / ChrBank) as Byte, flags6] + header
      + trainer + prg + chr + trailer
  }

  /** Parsing an image gives back its PRG and CHR banks, with or without a
      trainer and whatever follows them. */
  lemma {:induction false} InesParseImage(flags6: Byte, header: seq<Byte>, trainer: seq<Byte>,
                                          prg: seq<Byte>, chr: seq<Byte>, trailer: seq<Byte>)
    requires |header| == 9
    requires |trainer| == TrainerLength(Some(flags6))
    requires |prg| % PrgBank == 0 && |prg| / PrgBank < 256
    requires |chr| % ChrBank == 0 && |chr| / ChrBank < 256
    ensures InesParse(Image(flags6, header, trainer, prg, chr, trailer)) == Success(Rom(prg, chr))
  {
    var b := Image(flags6, header, trainer, prg, chr, trailer);
    var head := Magic + [(|prg| / PrgBank) as Byte, (|chr| / ChrBank) as Byte, flags6] + header;
    assert |head| == HeaderSize;
    assert b == head + trainer + prg + chr + trailer;
    assert b[..4] == Magic;
    assert b[4] == (|prg| / PrgBank) as Byte && b[5] == (|chr| / ChrBank) as Byte && b[6] == flags6;
    assert b[4] * PrgBank == |prg| && b[5] * ChrBank == |chr|;
    var o := PrgStart(b);
    assert o == |head| + |trainer|;
    InesParseLayout(b);
    assert b[o..o + |prg|] == prg;
    assert b[o + |prg|..o + |prg| + |chr|] == chr;
  }
}
