/**
 The trade partner's status block read from Scarlet/Violet memory
 (`TradeMyStatus`, a fixed 0x30-byte buffer) and the display wrapper
 `TradePartnerSV`. Every member is a getter computed from the bytes.
 */
module TradePartnerSV {
  import opened Records
  import Decimal
  import PartnerDetails

  type StatusBytes = s: seq<uint8> | |s| == 0x30 witness seq(0x30, _ => 0)

  /** Reads `s[i..i+4]` as an unsigned little-endian 32-bit integer. */
  function ReadUInt32LittleEndian(s: seq<uint8>, i: nat): (v: uint32)
    requires i + 4 <= |s|
  {
    s[i] as int + 0x100 * (s[i + 1] as int) + 0x1_0000 * (s[i + 2] as int) + 0x100_0000 * (s[i + 3] as int)
  }

  datatype TradeMyStatus = TradeMyStatus(data: StatusBytes) {

    function ID32(): uint32 { ReadUInt32LittleEndian(data, 0) }

    /** `SID7`: the millions of the 32-bit value, at most 4294. */
    function SID7(): (sid: nat)
      ensures sid <= 4294 && sid * 1_000_000 <= ID32() < (sid + 1) * 1_000_000
    {
      ID32() / 1_000_000
    }

    /** `TID7`: the six low decimal digits, which recombine with `SID7` to the 32-bit value. */
    function TID7(): (tid: nat)
      ensures tid < 1_000_000 && SID7() * 1_000_000 + tid == ID32()
    {
      ID32() % 1_000_000
    }

    /** `Game`, `Gender`, `Language`: one byte each, so never negative and below 256. */
    function Game(): (g: int)
      ensures 0 <= g < 256
    {
      data[4]
    }

    function Gender(): (g: int)
      ensures 0 <= g < 256
    {
      data[5]
    }

    function Language(): (l: int)
      ensures 0 <= l < 256
    {
      data[6]
    }

    /** `OT`: the 24 bytes at offset 8 decoded by `decode` (PKHeX's `StringConverter8.GetString`). */
    function OT(decode: seq<uint8> -> string): string {
      decode(data[8..32])
    }

    /** The status block seen through the `ITradePartner` interface. */
    function AsPartner(decode: seq<uint8> -> string): (p: PartnerDetails.TradePartner)
      ensures p.tid7 == TID7() && p.sid7 == SID7() && p.ot == OT(decode)
      ensures p.game == Game() && p.gender == Gender() && p.language == Language()
    {
      PartnerDetails.TradePartner(TID7(), SID7(), OT(decode), Game(), Gender(), Language())
    }
  }

  /** `TradePartnerSV(info)`: the status block formatted for display. */
  datatype TradePartnerSV = TradePartnerSV(info: TradeMyStatus) {
    /** `$"{Info.TID7:D6}"`: at least six digits that read back as the trainer ID. */
    function TID7(): (s: string)
      ensures |s| >= 6 && Decimal.AllDigits(s) && Decimal.Value(s) == info.TID7()
    {
      Decimal.PaddedRoundTrip(info.TID7(), 6);
      Decimal.Padded(info.TID7(), 6)
    }

    /** `$"{Info.SID7:D4}"`: at least four digits that read back as the secret ID. */
    function SID7(): (s: string)
      ensures |s| >= 4 && Decimal.AllDigits(s) && Decimal.Value(s) == info.SID7()
    {
      Decimal.PaddedRoundTrip(info.SID7(), 4);
      Decimal.Padded(info.SID7(), 4)
    }

    /** `TrainerName`: the OT of the status block. */
    function TrainerName(decode: seq<uint8> -> string): string {
      info.OT(decode)
    }
  }

  /** The two displayed IDs split the 32-bit value at the first byte exactly. */
  lemma Id7Split(st: TradeMyStatus)
    ensures st.TID7() < 1_000_000
    ensures st.SID7() * 1_000_000 + st.TID7() == ReadUInt32LittleEndian(st.data, 0)
    ensures st.SID7() <= 4294
  {
    var v := ReadUInt32LittleEndian(st.data, 0);
    assert v as int < 4295 * 1_000_000;
  }

  /** Game, gender and language are bytes 4, 5 and 6. */
  lemma ByteFields(st: TradeMyStatus)
    ensures st.Game() == st.data[4] && 0 <= st.Game() < 256
    ensures st.Gender() == st.data[5] && 0 <= st.Gender() < 256
    ensures st.Language() == st.data[6] && 0 <= st.Language() < 256
  {
  }

  /** The decoded values depend on the bytes only: the OT on bytes 8 to 31 alone. */
  lemma DecodedFromBytes(a: TradeMyStatus, b: TradeMyStatus, decode: seq<uint8> -> string)
    requires a.data[..7] == b.data[..7]
    requires a.data[8..32] == b.data[8..32]
    ensures a.AsPartner(decode) == b.AsPartner(decode)
  {
    assert forall i :: 0 <= i < 7 ==> a.data[i] == a.data[..7][i] == b.data[..7][i] == b.data[i];
  }

  /** The displayed trainer ID is always six digits, the secret ID four. */
  lemma DisplayWidths(p: TradePartnerSV)
    ensures |p.TID7()| == 6 && Decimal.AllDigits(p.TID7()) && Decimal.Value(p.TID7()) == p.info.TID7()
    ensures |p.SID7()| == 4 && Decimal.AllDigits(p.SID7()) && Decimal.Value(p.SID7()) == p.info.SID7()
  {
    Id7Split(p.info);
    assert Decimal.Pow10(6) == 1_000_000 by {
      assert Decimal.Pow10(6) == 10 * 10 * 10 * 10 * 10 * 10 * Decimal.Pow10(0);
    }
    assert Decimal.Pow10(4) == 10_000 by {
      assert Decimal.Pow10(4) == 10 * 10 * 10 * 10 * Decimal.Pow10(0);
    }
    Decimal.PaddedExact(p.info.TID7(), 6);
    Decimal.PaddedExact(p.info.SID7(), 4);
  }

  lemma TrainerNameIsOT(p: TradePartnerSV, decode: seq<uint8> -> string)
    ensures p.TrainerName(decode) == p.info.OT(decode) == decode(p.info.data[8..32])
  {
  }

  /**
   Stamping the decoded partner on a record (`TrainerTID7`, then `TrainerSID7`)
   gives the record the partner's raw ID32, provided the intermediate value
   (new TID7 under the record's old SID7) does not wrap.
   */
  lemma StampedIdIsPartnerId(st: TradeMyStatus, decode: seq<uint8> -> string, id32: uint32)
    requires Sid7(id32) * 1_000_000 + st.TID7() < 0x1_0000_0000
    ensures var p := st.AsPartner(decode);
            WithSid7(WithTid7(id32, p.tid7), p.sid7) == st.ID32()
  {
    Id7Split(st);
    var p := st.AsPartner(decode);
    PartnerDetails.Id7ReadBack(id32, p.tid7, p.sid7);
    var fin := WithSid7(WithTid7(id32, p.tid7), p.sid7);
    assert fin == Sid7(fin) * 1_000_000 + Tid7(fin);
  }
}
