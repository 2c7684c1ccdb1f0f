/**
 The partner-detail applicator of `TradeExtensions<T>` (`CanUsePartnerDetails`):
 copy a record, stamp the trade partner's identity on the copy, keep it shiny
 under the new trainer IDs, and ask the legality checker whether the copy is
 acceptable, falling back to the record's own game version.
 */
module PartnerDetails {
  import opened Records

  /** `ITradePartner`: the identity the other side of the trade reports. */
  datatype TradePartner = TradePartner(tid7: uint32, sid7: uint32, ot: string, game: int, gender: int, language: int)

  /** The PID rewrite of line 47: a new high half chosen so that the XOR with `id32` is `xor`. */
  function ShinyPid(pid: bv32, id32: uint32, xor: bv32): bv32 {
    (((Tid16(id32) as bv32) ^ (Sid16(id32) as bv32) ^ (pid & 0xFFFF) ^ xor) << 16) | (pid & 0xFFFF)
  }

  /** Lines 36-41: the partner's identity stamped on the copy. */
  function Stamped(p: Fields, partner: TradePartner): Fields {
    p.(otName := partner.ot, otGender := partner.gender,
       id32 := WithSid7(WithTid7(p.id32, partner.tid7), partner.sid7),
       language := partner.language, version := partner.game)
  }

  /** Lines 43-44: the species name restored on the copy `s` when the original `p` had no nickname. */
  function Named(p: Fields, s: Fields, lib: Library): Fields {
    if !p.isNicknamed then s.(isNicknamed := false, nickname := lib.speciesName(s)) else s
  }

  /** Lines 46-47: the PID of the copy `s` rewritten when the original `p` is shiny. */
  function Reshined(p: Fields, s: Fields): Fields {
    if IsShiny(p) then s.(pid := ShinyPid(s.pid, s.id32, ShinyXor(p.pid, p.id32))) else s
  }

  /** Refreshes the checksum of `s` when the original `p` had a bad one (lines 49, 57, 74). */
  function CheckedAgainst(p: Fields, s: Fields, lib: Library): Fields {
    if !ChecksumValid(p, lib) then Refreshed(s, lib) else s
  }

  /** The copy after lines 34-50: partner identity, nickname, PID and checksum. */
  function WithPartner(p: Fields, partner: TradePartner, lib: Library): Fields {
    CheckedAgainst(p, Reshined(p, Named(p, Stamped(p, partner), lib)), lib)
  }

  /** The copy after lines 55-58: the same, but with the record's own game version. */
  function WithOwnVersion(p: Fields, partner: TradePartner, lib: Library): Fields {
    CheckedAgainst(p, WithPartner(p, partner, lib).(version := p.version), lib)
  }

  /** Lines 34-50 of `CanUsePartnerDetails`: the clone with the partner's details applied. */
  method StampPartnerDetails(pk: Pkm, partner: TradePartner, lib: Library) returns (res: Pkm)
    ensures fresh(res) && unchanged(pk)
    ensures res.data == WithPartner(pk.data, partner, lib)
  {
    ghost var p := pk.data;
    res := pk.Clone();

    res.data := res.data.(otName := partner.ot);
    res.data := res.data.(otGender := partner.gender);
    res.SetTrainerTID7(partner.tid7);
    res.SetTrainerSID7(partner.sid7);
    res.data := res.data.(language := partner.language);
    res.data := res.data.(version := partner.game);
    assert res.data == Stamped(p, partner);

    if !pk.data.isNicknamed {
      res.ClearNickname(lib);
    }
    assert res.data == Named(p, Stamped(p, partner), lib);

    if IsShiny(pk.data) {
      res.data := res.data.(pid := ShinyPid(res.data.pid, res.data.id32, ShinyXor(pk.data.pid, pk.data.id32)));
    }
    assert res.data == Reshined(p, Named(p, Stamped(p, partner), lib));

    if !ChecksumValid(pk.data, lib) {
      res.RefreshChecksum(lib);
    }
  }

  /**
   `CanUsePartnerDetails`. The clone `res` is returned on every path; `ok` says
   whether the legality checker accepted it. `pk` itself is never written, and
   whether the force option is set makes no difference to either result.
   */
  method CanUsePartnerDetails(pk: Pkm, partner: TradePartner, forceTradePartnerInfo: bool, lib: Library)
    returns (ok: bool, res: Pkm)
    ensures fresh(res) && unchanged(pk)
    ensures ok <==> lib.valid(WithPartner(pk.data, partner, lib)) || lib.valid(WithOwnVersion(pk.data, partner, lib))
    ensures res.data == if lib.valid(WithPartner(pk.data, partner, lib)) then WithPartner(pk.data, partner, lib)
                        else WithOwnVersion(pk.data, partner, lib)
  {
    ghost var p := pk.data;
    ghost var fallback := WithOwnVersion(p, partner, lib);
    res := StampPartnerDetails(pk, partner, lib);

    if !lib.valid(res.data) {
      res.data := res.data.(version := pk.data.version);

      if !ChecksumValid(pk.data, lib) {
        res.RefreshChecksum(lib);
      }
      assert res.data == fallback;

      if !lib.valid(res.data) {
        if !forceTradePartnerInfo {
          return false, res;
        }

        // The force path assigns the version the record already has.
        res.data := res.data.(version := pk.data.version);

        if !ChecksumValid(pk.data, lib) {
          res.RefreshChecksum(lib);
        }
        ForceRetryIsSameRecord(p, partner, lib);

        if !lib.valid(res.data) {
          return false, res;
        }
      }
    }
    return true, res;
  }

  // ---------------------------------------------------------------------
  // What the two candidate copies are
  // ---------------------------------------------------------------------

  /** Both candidates carry the partner's name, gender and language, and the partner-derived ID32. */
  lemma PartnerIdentityCarried(p: Fields, partner: TradePartner, lib: Library)
    ensures var a := WithPartner(p, partner, lib);
            a.otName == partner.ot && a.otGender == partner.gender && a.language == partner.language &&
            a.id32 == WithSid7(WithTid7(p.id32, partner.tid7), partner.sid7) && a.version == partner.game
    ensures var r := WithOwnVersion(p, partner, lib);
            r.otName == partner.ot && r.otGender == partner.gender && r.language == partner.language &&
            r.id32 == WithSid7(WithTid7(p.id32, partner.tid7), partner.sid7) && r.version == p.version
  {
    var st := Stamped(p, partner);
    var n := Named(p, st, lib);
    var rs := Reshined(p, n);
    assert SameIdentity(n, st) && SameIdentity(rs, n);
    CheckedKeepsIdentity(p, rs, lib);
    var a := WithPartner(p, partner, lib);
    CheckedKeepsIdentity(p, a.(version := p.version), lib);
  }

  /** Trainer name, gender, language, ID32 and version agree. */
  predicate SameIdentity(a: Fields, b: Fields) {
    a.otName == b.otName && a.otGender == b.otGender && a.language == b.language &&
    a.id32 == b.id32 && a.version == b.version
  }

  lemma CheckedKeepsIdentity(p: Fields, s: Fields, lib: Library)
    ensures SameIdentity(CheckedAgainst(p, s, lib), s)
  {
  }

  /**
   Setting TID7 then SID7 reads back as the partner's IDs whenever the pair is a
   genuine 32-bit ID and the intermediate ID32 (new TID7 under the old SID7)
   does not wrap.
   */
  lemma Id7ReadBack(id32: uint32, tid7: uint32, sid7: uint32)
    requires tid7 < 1_000_000 && sid7 * 1_000_000 + tid7 < 0x1_0000_0000
    requires Sid7(id32) * 1_000_000 + tid7 < 0x1_0000_0000
    ensures Tid7(WithSid7(WithTid7(id32, tid7), sid7)) == tid7
    ensures Sid7(WithSid7(WithTid7(id32, tid7), sid7)) == sid7
  {
    var mid := WithTid7(id32, tid7);
    assert mid == Sid7(id32) * 1_000_000 + tid7;
    assert Tid7(mid) == tid7;
    var fin := WithSid7(mid, sid7);
    assert fin == sid7 * 1_000_000 + tid7;
  }

  /** The nickname is reset to the species name exactly when the original had none. */
  lemma NicknameClearedIffNotNicknamed(p: Fields, partner: TradePartner, lib: Library)
    ensures var a := WithPartner(p, partner, lib);
            var r := WithOwnVersion(p, partner, lib);
            (!p.isNicknamed ==> !a.isNicknamed && !r.isNicknamed && a.nickname == r.nickname) &&
            (p.isNicknamed ==> a.isNicknamed && r.isNicknamed && a.nickname == p.nickname && r.nickname == p.nickname)
  {
  }

  /** The rewritten PID keeps its low half and the XOR it had with the old IDs. */
  lemma ShinyPidKeepsXor(pid: bv32, id32: uint32, xor: bv32)
    requires xor < 0x1_0000
    ensures ShinyPid(pid, id32, xor) & 0xFFFF == pid & 0xFFFF
    ensures ShinyXor(ShinyPid(pid, id32, xor), id32) == xor
  {
  }

  /** The pid and ID32 of the first candidate: the partner's IDs and, for a non-shiny original, its PID. */
  lemma PartnerCandidateIds(p: Fields, partner: TradePartner, lib: Library)
    ensures var ids := WithSid7(WithTid7(p.id32, partner.tid7), partner.sid7);
            var a := WithPartner(p, partner, lib);
            a.id32 == ids &&
            a.pid == (if IsShiny(p) then ShinyPid(p.pid, ids, ShinyXor(p.pid, p.id32)) else p.pid)
  {
    var n := Named(p, Stamped(p, partner), lib);
    assert n.pid == p.pid;
    CheckedKeepsIds(p, Reshined(p, n), lib);
  }

  /** The fallback candidate has the first candidate's PID and ID32. */
  lemma FallbackSameIds(p: Fields, partner: TradePartner, lib: Library)
    ensures WithOwnVersion(p, partner, lib).pid == WithPartner(p, partner, lib).pid
    ensures WithOwnVersion(p, partner, lib).id32 == WithPartner(p, partner, lib).id32
  {
    CheckedKeepsIds(p, WithPartner(p, partner, lib).(version := p.version), lib);
  }

  /** A shiny record stays exactly as shiny under the partner's IDs. */
  lemma ShinyPreserved(p: Fields, partner: TradePartner, lib: Library)
    requires IsShiny(p)
    ensures var a := WithPartner(p, partner, lib);
            ShinyXor(a.pid, a.id32) == ShinyXor(p.pid, p.id32) && IsShiny(a)
    ensures IsShiny(WithOwnVersion(p, partner, lib))
  {
    var a := WithPartner(p, partner, lib);
    PartnerCandidateIds(p, partner, lib);
    FallbackSameIds(p, partner, lib);
    RewrittenPidShiny(p.pid, p.id32, a.pid, a.id32);
  }

  /** The PID rewrite of line 47 applied to a shiny PID under new IDs gives a shiny PID. */
  lemma RewrittenPidShiny(pid: bv32, id32: uint32, newPid: bv32, newId32: uint32)
    requires ShinyXor(pid, id32) < 16
    requires newPid == ShinyPid(pid, newId32, ShinyXor(pid, id32))
    ensures newPid & 0xFFFF == pid & 0xFFFF && ShinyXor(newPid, newId32) == ShinyXor(pid, id32)
    ensures ShinyXor(newPid, newId32) < 16
  {
    ShinyPidKeepsXor(pid, newId32, ShinyXor(pid, id32));
  }

  /** A non-shiny record keeps its PID in both candidates. */
  lemma PlainPidKept(p: Fields, partner: TradePartner, lib: Library)
    requires !IsShiny(p)
    ensures WithPartner(p, partner, lib).pid == p.pid && WithOwnVersion(p, partner, lib).pid == p.pid
  {
    PartnerCandidateIds(p, partner, lib);
    FallbackSameIds(p, partner, lib);
  }

  lemma CheckedKeepsIds(p: Fields, s: Fields, lib: Library)
    ensures CheckedAgainst(p, s, lib).pid == s.pid && CheckedAgainst(p, s, lib).id32 == s.id32
  {
  }

  /**
   The checksum is recomputed only when the ORIGINAL record's checksum was bad:
   then both candidates end with a valid checksum; otherwise both keep the old
   stored checksum, although their other fields changed.
   */
  lemma ChecksumOnlyRefreshedWhenOriginalInvalid(p: Fields, partner: TradePartner, lib: Library)
    ensures !ChecksumValid(p, lib) ==>
              ChecksumValid(WithPartner(p, partner, lib), lib) && ChecksumValid(WithOwnVersion(p, partner, lib), lib)
    ensures ChecksumValid(p, lib) ==>
              WithPartner(p, partner, lib).checksum == p.checksum && WithOwnVersion(p, partner, lib).checksum == p.checksum
  {
  }

  /** The fallback candidate differs from the first one only in version and checksum. */
  lemma FallbackOnlyChangesVersion(p: Fields, partner: TradePartner, lib: Library)
    ensures var a := WithPartner(p, partner, lib);
            WithOwnVersion(p, partner, lib).(version := a.version, checksum := a.checksum) == a
  {
  }

  /** Lines 72-75 rebuild the record lines 55-58 already built. */
  lemma ForceRetryIsSameRecord(p: Fields, partner: TradePartner, lib: Library)
    ensures CheckedAgainst(p, WithOwnVersion(p, partner, lib).(version := p.version), lib) == WithOwnVersion(p, partner, lib)
  {
    var r := WithOwnVersion(p, partner, lib);
    assert r.version == p.version;
    assert r.(version := p.version) == r;
    if !ChecksumValid(p, lib) {
      assert ChecksumValid(r, lib);
    }
  }

  /**
   The final version is the partner's exactly when the first check passed
   (or the two versions coincide); otherwise the record's own.
   */
  lemma FinalVersion(p: Fields, partner: TradePartner, lib: Library)
    ensures var final := if lib.valid(WithPartner(p, partner, lib)) then WithPartner(p, partner, lib)
                         else WithOwnVersion(p, partner, lib);
            final.version == (if lib.valid(WithPartner(p, partner, lib)) then partner.game else p.version)
  {
  }
}
