/**
 `EggTrade` and `TrashBytes` of `TradeExtensions<T>`: turning a requested
 record into a freshly laid egg, and the nickname/met-date normalisation
 that picks, among the record and two altered copies, one the legality
 checker accepts.

 The clock is a parameter: `today` is `DateTime.Today` (read by `EggTrade`),
 `now` the date of `DateTime.Now` (read by `TrashBytes`).
 */
module EggTrading {
  import opened Records

  // ---------------------------------------------------------------------
  // Lines 144-224: the egg reset, in the three stages of the source
  // ---------------------------------------------------------------------

  /** The egg nickname for a language ID (lines 145-155). */
  function EggName(language: int): (name: string)
    ensures |name| >= 1
    ensures language !in {1, 3, 4, 5, 7, 8, 9, 10} ==> name == "Egg"
  {
    match language
    case 1 => "\U{30BF}\U{30DE}\U{30B4}"
    case 3 => "\U{0152}uf"
    case 4 => "Uovo"
    case 5 => "Ei"
    case 7 => "Huevo"
    case 8 => "\U{C54C}"
    case 9 => "\U{86CB}"
    case 10 => "\U{86CB}"
    case _ => "Egg"
  }

  /** Lines 158-163: any record that is neither PB8 nor PK9 gets the PK8 location. */
  function EggLocation(kind: Kind): int {
    match kind
    case PB8 => 60010
    case PK9 => 30023
    case _ => 60002
  }

  /** Lines 171-176. */
  function MetLocation(kind: Kind): int {
    match kind
    case PB8 => 65535
    case PK9 => 0
    case _ => 30002
  }

  /** The six `SetMarking(i, 0)` calls: the first six markings cleared, any others kept. */
  function ClearedMarkings(m: seq<int>): (r: seq<int>)
    requires |m| >= 6
    ensures |r| == |m| && forall i :: 0 <= i < |m| ==> r[i] == if i < 6 then 0 else m[i]
  {
    m[0 := 0][1 := 0][2 := 0][3 := 0][4 := 0][5 := 0]
  }

  /** Lines 144-176: egg name, egg flag, locations, dates, item and level. */
  function AsEgg(f: Fields, today: Date): Fields {
    f.(isNicknamed := true, nickname := EggName(f.language), isEgg := true,
       eggLocation := EggLocation(f.kind), metDate := today, eggMetDate := Some(today),
       heldItem := 0, currentLevel := 1, exp := 0, metLevel := 1, metLocation := MetLocation(f.kind))
  }

  /** Lines 178-193: handler, friendship, memories, nature, EVs, markings, relearn moves. */
  function Unhandled(f: Fields): Fields
    requires |f.markings| >= 6
  {
    f.(currentHandler := 0, otFriendship := 1, htName := "", htFriendship := 0,
       otMemory := 0, otIntensity := 0, otFeeling := 0, otTextVar := 0,
       htMemory := 0, htIntensity := 0, htFeeling := 0, htTextVar := 0,
       statNature := f.nature, evs := [0, 0, 0, 0, 0, 0], markings := ClearedMarkings(f.markings),
       relearnMoves := [0, 0, 0, 0])
  }

  /** Lines 195-224: the handler fields of the concrete format, and its format-specific fields. */
  function FormatReset(f: Fields, lib: Library): Fields {
    match f.kind
    case PK8 | PB8 =>
      var h := f.(htLanguage := 0, htGender := 0, htMemory := 0, htFeeling := 0, htIntensity := 0);
      h.(dynamaxLevel := lib.dynamaxLevel(h))
    case PK9 =>
      f.(htLanguage := 0, htGender := 0, htMemory := 0, htFeeling := 0, htIntensity := 0,
         obedienceLevel := 1, version := 0, battleVersion := 0, teraTypeOverride := 19)
    case OtherFormat => f
  }

  /** The caller's record after lines 144-224. */
  function EggReset(f: Fields, today: Date, lib: Library): Fields
    requires |f.markings| >= 6
  {
    FormatReset(Unhandled(AsEgg(f, today)), lib)
  }

  // ---------------------------------------------------------------------
  // TrashBytes (lines 244-264)
  // ---------------------------------------------------------------------

  /** Lines 246-248: the copy with today's met date, unless the record came from GO. */
  function MetCandidate(f: Fields, now: Date): Fields {
    if f.version != GO then f.(metDate := now) else f
  }

  /**
   Lines 251-257: the copy renamed to a placeholder and then to its default
   nickname, made only when the met copy is legal. `la` is the optional
   analysis argument, standing for the record it analysed; without it the
   renamed copy itself is analysed.
   */
  function TrashCandidate(met: Fields, la: Option<Fields>, lib: Library): Fields {
    if lib.valid(met) then
      var placeholder := met.(isNicknamed := true, nickname := "MANUMANUMANU");
      var n := lib.defaultNickname(placeholder, if la.Some? then la.value else placeholder);
      placeholder.(isNicknamed := n.isNicknamed, nickname := n.nickname)
    else met
  }

  /** Which of the three records `TrashBytes` returns. */
  datatype TrashPick = Renamed | MetDated | Unchanged

  /** Lines 259-263. */
  function Pick(f: Fields, la: Option<Fields>, now: Date, lib: Library): TrashPick {
    var met := MetCandidate(f, now);
    if lib.valid(TrashCandidate(met, la, lib)) then Renamed
    else if lib.valid(met) then MetDated
    else Unchanged
  }

  function TrashResult(f: Fields, la: Option<Fields>, now: Date, lib: Library): Fields {
    match Pick(f, la, now, lib)
    case Renamed => TrashCandidate(MetCandidate(f, now), la, lib)
    case MetDated => MetCandidate(f, now)
    case Unchanged => f
  }

  /**
   `TrashBytes`: the record itself when neither copy is legal, otherwise a new
   object holding the chosen copy. The argument record is never written.
   */
  method TrashBytes(pkm: Pkm, la: Option<Fields>, now: Date, lib: Library) returns (r: Pkm)
    ensures r == pkm <==> Pick(old(pkm.data), la, now, lib) == Unchanged
    ensures r != pkm ==> fresh(r)
    ensures r.data == TrashResult(pkm.data, la, now, lib)
  {
    var pkMet := pkm.Clone();
    if pkMet.data.version != GO {
      pkMet.data := pkMet.data.(metDate := now);
    }

    var analysis := lib.valid(pkMet.data);
    var pkTrash := pkMet.Clone();
    if analysis {
      pkTrash.data := pkTrash.data.(isNicknamed := true);
      pkTrash.data := pkTrash.data.(nickname := "MANUMANUMANU");
      pkTrash.SetDefaultNickname(if la.Some? then la.value else pkTrash.data, lib);
    }

    r := pkm;
    if lib.valid(pkTrash.data) {
      r := pkTrash;
    } else if analysis {
      r := pkMet;
    }
  }

  // ---------------------------------------------------------------------
  // Lines 227-241: suggestions applied to the record TrashBytes returned
  // ---------------------------------------------------------------------

  /** `CurrentFriendship = enc is IHatchCycle h ? h.EggCycles : PersonalInfo.HatchCycles`. */
  function HatchFriendship(g: Fields, lib: Library): int {
    match lib.eggCycles(lib.encounter(g))
    case Some(cycles) => cycles
    case None => lib.hatchCycles(g)
  }

  function Befriended(g: Fields, v: int): Fields {
    if g.currentHandler == 0 then g.(otFriendship := v) else g.(htFriendship := v)
  }

  /** Lines 227-230: ribbons for the first analysis, then the suggested moves. */
  function WithRibbonsAndMoves(g: Fields, template: BattleTemplate, lib: Library): Fields {
    var withRibbons := g.(ribbons := lib.suggestedRibbons(g, template, lib.encounter(g)));
    withRibbons.(moves := FitSlots(lib.suggestedMoves(withRibbons)))
  }

  /**
   Lines 231-237 on the record `g` the second analysis looked at: friendship
   and relearn moves (the library fills a zeroed four-slot buffer).
   */
  function Relearned(g: Fields, lib: Library): Fields {
    Befriended(g, HatchFriendship(g, lib)).(relearnMoves := FitSlots(lib.suggestedRelearn(g, lib.encounter(g))))
  }

  /** Lines 239-241: PP-ups cleared, PP at maximum, hyper training. */
  function Maxed(g: Fields, lib: Library): Fields
    requires |g.moves| == 4
  {
    var ppReset := g.(ppUps := [0, 0, 0, 0]);
    var maxed := ppReset.(pp := MaxPP(ppReset.moves, ppReset.ppUps, lib));
    maxed.(hyperTraining := lib.suggestedHyperTraining(maxed))
  }

  function Trained(g: Fields, lib: Library): Fields
    requires |g.moves| == 4
  {
    Maxed(Relearned(g, lib), lib)
  }

  function Suggested(g: Fields, template: BattleTemplate, lib: Library): Fields {
    Trained(WithRibbonsAndMoves(g, template, lib), lib)
  }

  /** Lines 227-241. */
  method ApplySuggestions(pk: Pkm, template: BattleTemplate, lib: Library)
    modifies pk
    ensures pk.data == Suggested(old(pk.data), template, lib)
  {
    SuggestRibbonsAndMoves(pk, template, lib);
    Train(pk, lib);
  }

  /** Lines 227-230. */
  method SuggestRibbonsAndMoves(pk: Pkm, template: BattleTemplate, lib: Library)
    modifies pk
    ensures pk.data == WithRibbonsAndMoves(old(pk.data), template, lib)
  {
    var enc := lib.encounter(pk.data);
    pk.SetSuggestedRibbons(template, enc, lib);
    pk.SetSuggestedMoves(lib);
  }

  /** Lines 231-241. */
  method Train(pk: Pkm, lib: Library)
    requires |pk.data.moves| == 4
    modifies pk
    ensures pk.data == Trained(old(pk.data), lib)
  {
    Relearn(pk, lib);
    MaximisePP(pk, lib);
  }

  /** Lines 231-237. */
  method Relearn(pk: Pkm, lib: Library)
    modifies pk
    ensures pk.data == Relearned(old(pk.data), lib)
  {
    var analysed := pk.data;  // what the second analysis looked at
    var enc := lib.encounter(pk.data);
    var friendship := match lib.eggCycles(enc) case Some(cycles) => cycles case None => lib.hatchCycles(pk.data);
    pk.SetCurrentFriendship(friendship);
    assert pk.data == Befriended(analysed, HatchFriendship(analysed, lib));

    var relearn := FitSlots(lib.suggestedRelearn(analysed, enc));
    pk.SetRelearnMoves(relearn);
  }

  /** Lines 239-241. */
  method MaximisePP(pk: Pkm, lib: Library)
    requires |pk.data.moves| == 4
    modifies pk
    ensures pk.data == Maxed(old(pk.data), lib)
  {
    pk.data := pk.data.(ppUps := [0, 0, 0, 0]);
    pk.SetMaximumPPCurrent(lib);
    pk.SetSuggestedHyperTrainingData(lib);
  }

  /** Lines 144-224 on the caller's record. */
  method ResetAsEgg(pk: Pkm, today: Date, lib: Library)
    requires |pk.data.markings| >= 6
    modifies pk
    ensures pk.data == EggReset(old(pk.data), today, lib)
  {
    MarkAsEgg(pk, today);
    ClearHandler(pk);
    ResetFormatFields(pk, lib);
  }

  /** Lines 144-176. */
  method MarkAsEgg(pk: Pkm, today: Date)
    modifies pk
    ensures pk.data == AsEgg(old(pk.data), today)
  {
    pk.data := pk.data.(isNicknamed := true);
    pk.data := pk.data.(nickname := EggName(pk.data.language));
    pk.data := pk.data.(isEgg := true);
    pk.data := pk.data.(eggLocation := EggLocation(pk.data.kind));
    pk.data := pk.data.(metDate := today);
    pk.data := pk.data.(eggMetDate := Some(pk.data.metDate));
    pk.data := pk.data.(heldItem := 0);
    pk.data := pk.data.(currentLevel := 1);
    pk.data := pk.data.(exp := 0);
    pk.data := pk.data.(metLevel := 1);
    pk.data := pk.data.(metLocation := MetLocation(pk.data.kind));
  }

  /** Lines 178-193. */
  method ClearHandler(pk: Pkm)
    requires |pk.data.markings| >= 6
    modifies pk
    ensures pk.data == Unhandled(old(pk.data))
  {
    pk.data := pk.data.(currentHandler := 0);
    pk.data := pk.data.(otFriendship := 1);
    pk.data := pk.data.(htName := "");
    pk.data := pk.data.(htFriendship := 0);
    pk.ClearMemories();
    pk.data := pk.data.(statNature := pk.data.nature);
    pk.SetEVs([0, 0, 0, 0, 0, 0]);
    pk.SetMarking(0, 0);
    pk.SetMarking(1, 0);
    pk.SetMarking(2, 0);
    pk.SetMarking(3, 0);
    pk.SetMarking(4, 0);
    pk.SetMarking(5, 0);
    pk.ClearRelearnMoves();
  }

  /** The five handler assignments each format branch of lines 195-224 begins with. */
  method ClearHandlerDetails(pk: Pkm)
    modifies pk
    ensures pk.data == old(pk.data).(htLanguage := 0, htGender := 0, htMemory := 0, htFeeling := 0, htIntensity := 0)
  {
    pk.data := pk.data.(htLanguage := 0);
    pk.data := pk.data.(htGender := 0);
    pk.data := pk.data.(htMemory := 0);
    pk.data := pk.data.(htFeeling := 0);
    pk.data := pk.data.(htIntensity := 0);
  }

  /** Lines 195-224. */
  method ResetFormatFields(pk: Pkm, lib: Library)
    modifies pk
    ensures pk.data == FormatReset(old(pk.data), lib)
  {
    if pk.data.kind == PK8 || pk.data.kind == PB8 {
      ClearHandlerDetails(pk);
      pk.data := pk.data.(dynamaxLevel := lib.dynamaxLevel(pk.data));
    } else if pk.data.kind == PK9 {
      ClearHandlerDetails(pk);
      pk.data := pk.data.(obedienceLevel := 1);
      pk.data := pk.data.(version := 0);
      pk.data := pk.data.(battleVersion := 0);
      pk.data := pk.data.(teraTypeOverride := 19);
    }
  }

  /**
   `EggTrade`. The suggestions of lines 227-241 go to whatever record
   `TrashBytes` returned; the parameter is rebound to it, so the caller's
   record receives them only when `TrashBytes` returned that record itself.
   */
  method EggTrade(pk: Pkm, template: BattleTemplate, today: Date, now: Date, lib: Library)
    requires |pk.data.markings| >= 6
    modifies pk
    ensures var reset := EggReset(old(pk.data), today, lib);
            pk.data == if Pick(reset, None, now, lib) == Unchanged then Suggested(reset, template, lib) else reset
  {
    ResetAsEgg(pk, today, lib);
    var current := TrashBytes(pk, None, now, lib);
    ApplySuggestions(current, template, lib);
  }

  // ---------------------------------------------------------------------
  // What the egg reset guarantees
  // ---------------------------------------------------------------------

  /** After lines 144-224 the record is a level-1 egg met today, with no handler, memories, EVs or markings. */
  lemma EggResetShape(f: Fields, today: Date, lib: Library)
    requires |f.markings| >= 6
    ensures var r := EggReset(f, today, lib);
            r.isEgg && r.isNicknamed && r.nickname == EggName(f.language) &&
            r.eggLocation == EggLocation(f.kind) && r.metLocation == MetLocation(f.kind) &&
            r.metDate == today && r.eggMetDate == Some(today) &&
            r.heldItem == 0 && r.currentLevel == 1 && r.exp == 0 && r.metLevel == 1 &&
            r.currentHandler == 0 && r.otFriendship == 1 && r.htName == "" && r.htFriendship == 0 &&
            r.statNature == f.nature && r.evs == [0, 0, 0, 0, 0, 0] && r.relearnMoves == [0, 0, 0, 0]
    ensures var r := EggReset(f, today, lib);
            r.otMemory == r.otIntensity == r.otFeeling == r.otTextVar == 0 &&
            r.htMemory == r.htIntensity == r.htFeeling == r.htTextVar == 0 &&
            |r.markings| == |f.markings| &&
            (forall i :: 0 <= i < |f.markings| ==> r.markings[i] == if i < 6 then 0 else f.markings[i])
  {
    var u := Unhandled(AsEgg(f, today));
    FormatResetScope(u, lib);
  }

  /** The format-specific fields of lines 195-224. */
  lemma EggResetFormat(f: Fields, today: Date, lib: Library)
    requires |f.markings| >= 6
    ensures var r := EggReset(f, today, lib);
            (f.kind != OtherFormat ==> r.htLanguage == 0 && r.htGender == 0) &&
            (f.kind == PK9 ==> r.obedienceLevel == 1 && r.version == 0 && r.battleVersion == 0 && r.teraTypeOverride == 19) &&
            (f.kind != PK9 ==> r.version == f.version && r.battleVersion == f.battleVersion) &&
            (f.kind == OtherFormat ==> r.htLanguage == f.htLanguage && r.htGender == f.htGender && r.dynamaxLevel == f.dynamaxLevel)
  {
    FormatResetScope(Unhandled(AsEgg(f, today)), lib);
  }

  /** The identity of the creature and its trainer, its moves and ribbons, and the stored checksum are untouched. */
  lemma EggResetKeepsIdentity(f: Fields, today: Date, lib: Library)
    requires |f.markings| >= 6
    ensures var r := EggReset(f, today, lib);
            r.kind == f.kind && r.species == f.species && r.form == f.form && r.gender == f.gender &&
            r.nature == f.nature && r.pid == f.pid && r.id32 == f.id32 &&
            r.otName == f.otName && r.otGender == f.otGender && r.language == f.language &&
            r.fatefulEncounter == f.fatefulEncounter && r.moves == f.moves && r.ppUps == f.ppUps &&
            r.ribbons == f.ribbons && r.checksum == f.checksum
  {
    FormatResetScope(Unhandled(AsEgg(f, today)), lib);
  }

  /** The fields lines 195-224 may write; every other field keeps its value. */
  lemma FormatResetScope(f: Fields, lib: Library)
    ensures FormatScoped(f, FormatReset(f, lib))
  {
    match f.kind
    case PK8 | PB8 => Gen8ResetScope(f, lib);
    case PK9 => Pk9ResetScope(f, lib);
    case OtherFormat =>
  }

  /** `r` agrees with `f` on every field lines 195-224 do not write. */
  predicate FormatScoped(f: Fields, r: Fields) {
    r.(htLanguage := f.htLanguage, htGender := f.htGender, htMemory := f.htMemory, htFeeling := f.htFeeling,
       htIntensity := f.htIntensity, dynamaxLevel := f.dynamaxLevel, obedienceLevel := f.obedienceLevel,
       version := f.version, battleVersion := f.battleVersion, teraTypeOverride := f.teraTypeOverride) == f
  }

  lemma Gen8ResetScope(f: Fields, lib: Library)
    requires f.kind == PK8 || f.kind == PB8
    ensures FormatScoped(f, FormatReset(f, lib))
  {
    var h := f.(htLanguage := 0, htGender := 0, htMemory := 0, htFeeling := 0, htIntensity := 0);
    assert FormatReset(f, lib) == h.(dynamaxLevel := lib.dynamaxLevel(h));
  }

  lemma Pk9ResetScope(f: Fields, lib: Library)
    requires f.kind == PK9
    ensures FormatScoped(f, FormatReset(f, lib))
  {
  }

  /** Resetting an egg again changes nothing but, possibly, the suggested Dynamax level. */
  lemma EggResetIdempotent(f: Fields, today: Date, lib: Library)
    requires |f.markings| >= 6
    ensures var r := EggReset(f, today, lib);
            |r.markings| >= 6 && EggReset(r, today, lib).(dynamaxLevel := r.dynamaxLevel) == r
  {
    var r := EggReset(f, today, lib);
    EggResetShape(f, today, lib);
    EggResetFormat(f, today, lib);
    EggResetKeepsIdentity(f, today, lib);
    var a := AsEgg(r, today);
    assert a == r;
    var u := Unhandled(a);
    assert u.markings == r.markings;
    assert u == r;
  }

  // ---------------------------------------------------------------------
  // What TrashBytes guarantees
  // ---------------------------------------------------------------------

  /** The renamed copy is chosen exactly when both copies are legal; the met copy when only it is. */
  lemma PickCases(f: Fields, la: Option<Fields>, now: Date, lib: Library)
    ensures var met := MetCandidate(f, now);
            var trash := TrashCandidate(met, la, lib);
            (Pick(f, la, now, lib) == Renamed <==> lib.valid(met) && lib.valid(trash)) &&
            (Pick(f, la, now, lib) == MetDated <==> lib.valid(met) && !lib.valid(trash)) &&
            (Pick(f, la, now, lib) == Unchanged <==> !lib.valid(met))
  {
    var met := MetCandidate(f, now);
    if !lib.valid(met) {
      assert TrashCandidate(met, la, lib) == met;
    }
  }

  /** A copy is returned only if it is legal; otherwise the record comes back as it was. */
  lemma TrashResultLegal(f: Fields, la: Option<Fields>, now: Date, lib: Library)
    ensures Pick(f, la, now, lib) != Unchanged ==> lib.valid(TrashResult(f, la, now, lib))
    ensures Pick(f, la, now, lib) == Unchanged ==> TrashResult(f, la, now, lib) == f
  {
    PickCases(f, la, now, lib);
  }

  /** Only the nickname and the met date can differ from the record. */
  lemma TrashOnlyNameAndDate(f: Fields, la: Option<Fields>, now: Date, lib: Library)
    ensures NameDateScoped(f, TrashResult(f, la, now, lib))
  {
    var met := MetCandidate(f, now);
    MetCandidateScope(f, now);
    if lib.valid(met) {
      RenamedScope(f, met, la, lib);
    }
  }

  /** `r` agrees with `f` on every field except the met date and the nickname pair. */
  predicate NameDateScoped(f: Fields, r: Fields) {
    r.(metDate := f.metDate, isNicknamed := f.isNicknamed, nickname := f.nickname) == f
  }

  lemma MetCandidateScope(f: Fields, now: Date)
    ensures NameDateScoped(f, MetCandidate(f, now))
  {
  }

  lemma RenamedScope(f: Fields, met: Fields, la: Option<Fields>, lib: Library)
    requires NameDateScoped(f, met) && lib.valid(met)
    ensures NameDateScoped(f, TrashCandidate(met, la, lib))
  {
    var t := TrashCandidate(met, la, lib);
    assert t == met.(isNicknamed := t.isNicknamed, nickname := t.nickname);
  }

  /** A record from GO keeps its met date; any other copy that is returned is met today. */
  lemma TrashMetDate(f: Fields, la: Option<Fields>, now: Date, lib: Library)
    ensures f.version == GO ==> TrashResult(f, la, now, lib).metDate == f.metDate
    ensures f.version != GO && Pick(f, la, now, lib) != Unchanged ==> TrashResult(f, la, now, lib).metDate == now
  {
  }

  // ---------------------------------------------------------------------
  // What the suggestions write, and what the caller sees
  // ---------------------------------------------------------------------

  /** Lines 227-241 write ribbons, moves, friendship, relearn moves, PP-ups, PP and hyper training only. */
  lemma SuggestedScope(g: Fields, template: BattleTemplate, lib: Library)
    ensures var s := Suggested(g, template, lib);
            s.(ribbons := g.ribbons, moves := g.moves, otFriendship := g.otFriendship, htFriendship := g.htFriendship,
               relearnMoves := g.relearnMoves, ppUps := g.ppUps, pp := g.pp, hyperTraining := g.hyperTraining) == g
  {
    var w := WithRibbonsAndMoves(g, template, lib);
    var b := Befriended(w, HatchFriendship(w, lib));
    assert b.(otFriendship := w.otFriendship, htFriendship := w.htFriendship) == w;
  }

  /** Four moves with no PP-ups at full PP, four relearn slots, and the hatch counter as friendship. */
  lemma SuggestedMoves(g: Fields, template: BattleTemplate, lib: Library)
    requires g.currentHandler == 0
    ensures var s := Suggested(g, template, lib);
            var w := WithRibbonsAndMoves(g, template, lib);
            |s.moves| == 4 && s.ppUps == [0, 0, 0, 0] && s.pp == MaxPP(s.moves, [0, 0, 0, 0], lib) &&
            |s.relearnMoves| == 4 && s.otFriendship == HatchFriendship(w, lib)
  {
  }

  /**
   The caller's record after `EggTrade`: always the reset egg; it also carries
   the suggestions exactly when `TrashBytes` returned it unchanged, and otherwise
   keeps its old moves and PP-ups.
   */
  lemma EggTradeOutcome(f: Fields, template: BattleTemplate, today: Date, now: Date, lib: Library)
    requires |f.markings| >= 6
    ensures var reset := EggReset(f, today, lib);
            var final := if Pick(reset, None, now, lib) == Unchanged then Suggested(reset, template, lib) else reset;
            final.isEgg && final.nickname == EggName(f.language) && final.metDate == today && final.species == f.species &&
            (Pick(reset, None, now, lib) == Unchanged ==> final.ppUps == [0, 0, 0, 0] && |final.moves| == 4) &&
            (Pick(reset, None, now, lib) != Unchanged ==> final.moves == f.moves && final.ppUps == f.ppUps &&
                                                          final.relearnMoves == [0, 0, 0, 0])
  {
    var reset := EggReset(f, today, lib);
    EggResetShape(f, today, lib);
    EggResetKeepsIdentity(f, today, lib);
    SuggestedScope(reset, template, lib);
    SuggestedMoves(reset, template, lib);
  }
}
