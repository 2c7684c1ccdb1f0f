/**
 The trainer-identity comparison of `TradeExtensions<T>`: whether a requested
 record carries trainer details of its own, or only the bot's generated
 defaults (or the trainer data saved for the bot's game).
 */
module TrainerIdentity {
  import opened Records

  /** `ITrainerInfo`, as far as the comparison reads it. */
  datatype TrainerInfo = TrainerInfo(ot: string, tid16: uint16, sid16: uint16, gender: int, language: int, game: int)

  /** The `Legality` settings the bot generates trainers from. */
  datatype LegalitySettings = LegalitySettings(
    generateOT: string, generateTID16: uint16, generateSID16: uint16,
    generateGenderOT: int, generateLanguage: int, generatePathTrainerInfo: string)

  /**
   `IsEqualTInfo`: a missing trainer is never equal; otherwise name, gender,
   language, TID16 and SID16 must all agree, and the game is ignored.
   */
  function IsEqualTInfo(t: TrainerInfo, compare: Option<TrainerInfo>): (r: bool)
    ensures r <==> compare.Some? && t.(game := compare.value.game) == compare.value
  {
    if compare.None? then false
    else if t.ot != compare.value.ot then false
    else if t.gender != compare.value.gender then false
    else if t.language != compare.value.language then false
    else if t.tid16 != compare.value.tid16 then false
    else if t.sid16 != compare.value.sid16 then false
    else true
  }

  /** The trainer a record names: its OT, IDs, gender, language and version. */
  function SetTrainer(record: Fields): (t: TrainerInfo)
    ensures t.tid16 + 0x1_0000 * t.sid16 == record.id32
    ensures t.ot == record.otName && t.gender == record.otGender && t.language == record.language && t.game == record.version
  {
    TrainerInfo(record.otName, Tid16(record.id32), Sid16(record.id32), record.otGender, record.language, record.version)
  }

  /** The trainer the bot generates, on the fallback trainer's game. */
  function DefaultTrainer(config: LegalitySettings, fallback: TrainerInfo): (t: TrainerInfo)
    ensures t.game == fallback.game && t.ot == config.generateOT
    ensures t.tid16 == config.generateTID16 && t.sid16 == config.generateSID16
    ensures t.gender == config.generateGenderOT && t.language == config.generateLanguage
  {
    TrainerInfo(config.generateOT, config.generateTID16, config.generateSID16,
                config.generateGenderOT, config.generateLanguage, fallback.game)
  }

  /**
   `HasSetDetails`. `saved` is what `TrainerSettings.GetSavedTrainerData` returns
   for the fallback trainer; it is consulted only when a trainer-data path is set.
   */
  function HasSetDetails(config: LegalitySettings, record: Fields, fallback: TrainerInfo, saved: TrainerInfo): (r: bool)
    ensures r <==>
              !(record.otName == config.generateOT && record.otGender == config.generateGenderOT &&
                record.language == config.generateLanguage &&
                record.id32 == config.generateTID16 + 0x1_0000 * config.generateSID16) &&
              (config.generatePathTrainerInfo == "" ||
               !(record.otName == saved.ot && record.otGender == saved.gender && record.language == saved.language &&
                 record.id32 == saved.tid16 + 0x1_0000 * saved.sid16))
  {
    var setTrainer := SetTrainer(record);
    var almTrainer := if config.generatePathTrainerInfo != "" then Some(saved) else None;
    IdHalves(record.id32, config.generateTID16, config.generateSID16);
    IdHalves(record.id32, saved.tid16, saved.sid16);
    !IsEqualTInfo(setTrainer, Some(DefaultTrainer(config, fallback))) && !IsEqualTInfo(setTrainer, almTrainer)
  }

  /** An ID32 has TID16 and SID16 as its halves exactly when it is their combination. */
  lemma IdHalves(id32: uint32, tid16: uint16, sid16: uint16)
    ensures Tid16(id32) == tid16 && Sid16(id32) == sid16 <==> id32 == tid16 + 0x1_0000 * sid16
  {
    if id32 == tid16 + 0x1_0000 * sid16 {
      assert id32 / 0x1_0000 == sid16 && id32 % 0x1_0000 == tid16;
    }
  }

  /** Equality of trainers is an equivalence on present trainers. */
  lemma IsEqualTInfoEquivalence(a: TrainerInfo, b: TrainerInfo, c: TrainerInfo)
    ensures IsEqualTInfo(a, Some(a))
    ensures IsEqualTInfo(a, Some(b)) ==> IsEqualTInfo(b, Some(a))
    ensures IsEqualTInfo(a, Some(b)) && IsEqualTInfo(b, Some(c)) ==> IsEqualTInfo(a, Some(c))
  {
  }
}
