/**
 The creature record the trade helpers transform (PKHeX's `PKM`), as far as
 the helpers read or write it, together with the library it is handed to.

 PKHeX keeps every property of a record in one byte buffer and exposes it
 through getters and setters; here that buffer is the value `Fields`, and a
 record object (`Pkm`) owns one such value which its setters replace.
 Everything the game-data library computes (legality, checksums, default
 names, suggestions) is a parameter of type `Library`: deterministic, but
 otherwise unknown to this model.
 */
module Records {

  type uint8 = x: int | 0 <= x < 0x100
  type uint16 = x: int | 0 <= x < 0x1_0000
  type uint32 = x: int | 0 <= x < 0x1_0000_0000

  datatype Option<T> = None | Some(value: T)

  /** The concrete record class behind a `PKM` reference. */
  datatype Kind = PK8 | PB8 | PK9 | OtherFormat

  datatype Date = Date(year: int, month: int, day: int)

  /** `GameVersion.GO`: records transferred from GO carry no real met date. */
  const GO: int := 34

  /** What `LegalityAnalysis.EncounterMatch` identifies; opaque here. */
  datatype Encounter = Encounter(id: int)

  /** A parsed showdown set (`IBattleTemplate`); opaque here. */
  datatype BattleTemplate = BattleTemplate(text: string)

  /** The nickname pair a naming helper writes. */
  datatype NicknameState = NicknameState(isNicknamed: bool, nickname: string)

  /** The properties of a record that the trade helpers read or write. */
  datatype Fields = Fields(
    kind: Kind,
    species: uint16, form: uint8, gender: uint8, nature: int, statNature: int,
    pid: bv32, id32: uint32,
    otName: string, otGender: int, language: int, version: int, battleVersion: int,
    isNicknamed: bool, nickname: string,
    isEgg: bool, fatefulEncounter: bool,
    eggLocation: int, metLocation: int, metDate: Date, eggMetDate: Option<Date>,
    heldItem: int, currentLevel: int, exp: int, metLevel: int,
    currentHandler: int, otFriendship: int, htName: string, htFriendship: int,
    htLanguage: int, htGender: int,
    otMemory: int, otIntensity: int, otFeeling: int, otTextVar: int,
    htMemory: int, htIntensity: int, htFeeling: int, htTextVar: int,
    evs: seq<int>, markings: seq<int>,
    moves: seq<int>, ppUps: seq<int>, pp: seq<int>, relearnMoves: seq<int>,
    ribbons: set<nat>, hyperTraining: set<nat>,
    dynamaxLevel: int, obedienceLevel: int, teraTypeOverride: int,
    decorationByte: uint8,  // Data[0xD0], the Alcremie decoration byte
    checksum: int)

  /** The game-data library the helpers call into. */
  datatype Library = Library(
    valid: Fields -> bool,                                    // new LegalityAnalysis(pk).Valid
    encounter: Fields -> Encounter,                           // new LegalityAnalysis(pk).EncounterMatch
    checksumOf: Fields -> int,                                // checksum of the data, checksum slot zeroed
    speciesName: Fields -> string,                            // the name ClearNickname restores
    defaultNickname: (Fields, Fields) -> NicknameState,       // SetDefaultNickname(la), la over the second record
    dynamaxLevel: Fields -> int,                              // GetSuggestedDynamaxLevel(pk, 0)
    suggestedRibbons: (Fields, BattleTemplate, Encounter) -> set<nat>,
    suggestedMoves: Fields -> seq<int>,
    eggCycles: Encounter -> Option<int>,                      // `enc is IHatchCycle h ? h.EggCycles`
    hatchCycles: Fields -> int,                               // PersonalInfo.HatchCycles
    suggestedRelearn: (Fields, Encounter) -> seq<int>,
    maxPP: (int, int) -> int,                                 // maximum PP of a move for a PP-up count
    suggestedHyperTraining: Fields -> set<nat>)

  // ---------------------------------------------------------------------
  // Trainer IDs and shininess, as PKHeX derives them from ID32 and PID
  // ---------------------------------------------------------------------

  function Tid16(id32: uint32): uint16 { id32 % 0x1_0000 }
  function Sid16(id32: uint32): uint16 { id32 / 0x1_0000 }

  /** The six-digit trainer ID and four-digit secret ID of the gen 7+ format. */
  function Tid7(id32: uint32): nat { id32 % 1_000_000 }
  function Sid7(id32: uint32): nat { id32 / 1_000_000 }

  /** ID32 after `TrainerTID7 = v` (unsigned arithmetic wraps at 2^32). */
  function WithTid7(id32: uint32, v: uint32): uint32 {
    (Sid7(id32) * 1_000_000 + v) % 0x1_0000_0000
  }

  /** ID32 after `TrainerSID7 = v`. */
  function WithSid7(id32: uint32, v: uint32): uint32 {
    (v * 1_000_000 + Tid7(id32)) % 0x1_0000_0000
  }

  /** `(PID >> 16) ^ (PID & 0xFFFF) ^ TID16 ^ SID16`. */
  function ShinyXor(pid: bv32, id32: uint32): (x: bv32)
    ensures x < 0x1_0000
  {
    (pid >> 16) ^ (pid & 0xFFFF) ^ (Tid16(id32) as bv32) ^ (Sid16(id32) as bv32)
  }

  function IsShiny(f: Fields): bool { ShinyXor(f.pid, f.id32) < 16 }

  predicate ChecksumValid(f: Fields, lib: Library) {
    f.checksum == lib.checksumOf(f.(checksum := 0))
  }

  /** The data after `RefreshChecksum()`. */
  function Refreshed(f: Fields, lib: Library): (r: Fields)
    ensures ChecksumValid(r, lib)
    ensures r.(checksum := f.checksum) == f
  {
    f.(checksum := lib.checksumOf(f.(checksum := 0)))
  }

  /** A record object: a reference to one mutable data buffer. */
  class Pkm {
    var data: Fields

    constructor FromData(d: Fields)
      ensures data == d
    {
      data := d;
    }

    /** `Clone()`: a new object holding a copy of the data. */
    method Clone() returns (c: Pkm)
      ensures fresh(c) && c.data == data
    {
      c := new Pkm.FromData(data);
    }

    method SetTrainerTID7(v: uint32)
      modifies this
      ensures data == old(data).(id32 := WithTid7(old(data.id32), v))
    {
      data := data.(id32 := WithTid7(data.id32, v));
    }

    method SetTrainerSID7(v: uint32)
      modifies this
      ensures data == old(data).(id32 := WithSid7(old(data.id32), v))
    {
      data := data.(id32 := WithSid7(data.id32, v));
    }

    method ClearNickname(lib: Library)
      modifies this
      ensures data == old(data).(isNicknamed := false, nickname := lib.speciesName(old(data)))
    {
      data := data.(isNicknamed := false, nickname := lib.speciesName(data));
    }

    method RefreshChecksum(lib: Library)
      modifies this
      ensures data == Refreshed(old(data), lib)
    {
      data := Refreshed(data, lib);
    }

    /** `ClearMemories()`: every OT and handler memory field reset. */
    method ClearMemories()
      modifies this
      ensures data == old(data).(otMemory := 0, otIntensity := 0, otFeeling := 0, otTextVar := 0,
                                 htMemory := 0, htIntensity := 0, htFeeling := 0, htTextVar := 0)
    {
      data := data.(otMemory := 0, otIntensity := 0, otFeeling := 0, otTextVar := 0,
                    htMemory := 0, htIntensity := 0, htFeeling := 0, htTextVar := 0);
    }

    method SetEVs(evs: seq<int>)
      modifies this
      ensures data == old(data).(evs := evs)
    {
      data := data.(evs := evs);
    }

    method SetMarking(index: nat, value: int)
      requires index < |data.markings|
      modifies this
      ensures data == old(data).(markings := old(data.markings)[index := value])
    {
      data := data.(markings := data.markings[index := value]);
    }

    method ClearRelearnMoves()
      modifies this
      ensures data == old(data).(relearnMoves := [0, 0, 0, 0])
    {
      data := data.(relearnMoves := [0, 0, 0, 0]);
    }

    /** `SetDefaultNickname(la)` where `la` analysed the record `analysed`. */
    method SetDefaultNickname(analysed: Fields, lib: Library)
      modifies this
      ensures var n := lib.defaultNickname(old(data), analysed);
              data == old(data).(isNicknamed := n.isNicknamed, nickname := n.nickname)
    {
      var n := lib.defaultNickname(data, analysed);
      data := data.(isNicknamed := n.isNicknamed, nickname := n.nickname);
    }

    method SetSuggestedRibbons(template: BattleTemplate, enc: Encounter, lib: Library)
      modifies this
      ensures data == old(data).(ribbons := lib.suggestedRibbons(old(data), template, enc))
    {
      data := data.(ribbons := lib.suggestedRibbons(data, template, enc));
    }

    /** `SetSuggestedMoves()`: the four move slots. */
    method SetSuggestedMoves(lib: Library)
      modifies this
      ensures data == old(data).(moves := FitSlots(lib.suggestedMoves(old(data))))
    {
      data := data.(moves := FitSlots(lib.suggestedMoves(data)));
    }

    /** `CurrentFriendship = v` writes the friendship of the current handler. */
    method SetCurrentFriendship(v: int)
      modifies this
      ensures data == if old(data.currentHandler) == 0 then old(data).(otFriendship := v)
                      else old(data).(htFriendship := v)
    {
      if data.currentHandler == 0 {
        data := data.(otFriendship := v);
      } else {
        data := data.(htFriendship := v);
      }
    }

    method SetRelearnMoves(moves: seq<int>)
      modifies this
      ensures data == old(data).(relearnMoves := moves)
    {
      data := data.(relearnMoves := moves);
    }

    /** `SetMaximumPPCurrent(pk.Moves)`: each slot's PP at its maximum. */
    method SetMaximumPPCurrent(lib: Library)
      requires |data.moves| == 4 && |data.ppUps| == 4
      modifies this
      ensures data == old(data).(pp := MaxPP(old(data.moves), old(data.ppUps), lib))
    {
      data := data.(pp := MaxPP(data.moves, data.ppUps, lib));
    }

    method SetSuggestedHyperTrainingData(lib: Library)
      modifies this
      ensures data == old(data).(hyperTraining := lib.suggestedHyperTraining(old(data)))
    {
      data := data.(hyperTraining := lib.suggestedHyperTraining(data));
    }
  }

  /** A move list as the four move slots: truncated or padded with empty slots. */
  function FitSlots(s: seq<int>): (r: seq<int>)
    ensures |r| == 4
    ensures forall i :: 0 <= i < 4 ==> r[i] == if i < |s| then s[i] else 0
  {
    if |s| >= 4 then s[..4] else s + seq(4 - |s|, _ => 0)
  }

  function MaxPP(moves: seq<int>, ppUps: seq<int>, lib: Library): (r: seq<int>)
    requires |moves| == 4 && |ppUps| == 4
    ensures |r| == 4 && forall i :: 0 <= i < 4 ==> r[i] == lib.maxPP(moves[i], ppUps[i])
  {
    seq(4, i requires 0 <= i < 4 => lib.maxPP(moves[i], ppUps[i]))
  }
}
