# Trade helpers of SysBot.NET, modelled in Dafny

This project models the record-handling core of the SysBot.NET trade bot.

- **Partner details.** `CanUsePartnerDetails` copies a requested Pokémon record and stamps the trade partner's name, gender, language, game and generation-7 trainer IDs (a six-digit TID7 and a four-digit SID7) on the copy. When the original is shiny, it rewrites the copy's PID so that it stays shiny under the new IDs. It refreshes the checksum when the original's checksum was bad, and asks the legality checker about the copy. If the checker refuses, it retries with the record's own game version.
- **Trainer comparison.** `HasSetDetails` and `IsEqualTInfo` decide whether a requested record carries trainer details of its own, or only the bot's generated defaults.
- **Egg trades.** `EggTrade` resets a record into a freshly laid egg, passes it through `TrashBytes`, and applies the library's suggestions to whatever `TrashBytes` returned. `TrashBytes` builds a copy with today's met date (records from GO keep theirs) and, when that copy is legal, a second copy renamed to its default nickname; otherwise the second copy is a plain clone of the first. It returns the second copy when the legality checker accepts it, else the dated copy when that is accepted. When neither is accepted, it returns the original record unchanged, without checking it.
- **Images and forms.** `PokeImg` and its three helpers build the HOME capture-image URL. `FormOutput` picks a form suffix from a form-name list. `HasMark` finds the first mark ribbon.
- **Scarlet/Violet partner block.** `TradeMyStatus` and `TradePartnerSV` read the trade partner's 0x30-byte status block.
- **Discord helpers.** `SpliceAtWord` cuts a long list into the pieces that fit a length budget. `GetBorderColor` picks the embed colour of a trade.

Module layout:

- `Records`: the PKHeX record (`PKM`). It is a class `Pkm` whose one mutable field `data: Fields` holds every property the helpers read or write. Each setter the helpers call is a method that updates that value, and `Clone()` returns a fresh object with the same data.
  - The legality checker and PKHeX's suggestion and checksum routines are the fields of a `Library` value. Each is a total function, so the same record always gets the same answer.
  - Trainer IDs follow PKHeX's generation 7+ layout: TID16/SID16 are the halves of ID32, and TID7/SID7 are `ID32 % 1_000_000` and `ID32 / 1_000_000`. A record is shiny when `(PID >> 16) ^ (PID & 0xFFFF) ^ TID16 ^ SID16 < 16`.
- `Decimal`: `ToString()` and `ToString("Dk")` on non-negative integers, with a reading-back function.
- `Text`: `String.Split(char)`, `string.Join`, `Char.IsWhiteSpace` and `String.Trim()`.
- `PartnerDetails`, `TrainerIdentity`, `EggTrading` and `TradeImages` come from `TradeExtensions.cs`.
- `TradePartnerSV` comes from `TradePartnerSV.cs`.
- `ExtraCommandUtil` comes from `ExtraCommandUtil.cs`.

The methods that change records are proved against functions such as the following:

- `WithPartner` and `WithOwnVersion`: the two candidate copies.
- `EggReset`: the egg reset.
- `TrashResult` and `Pick`: the `TrashBytes` choice.
- `Suggested`: the suggestion phase.

The lemmas state what those functions guarantee.

Two behaviours of the code are easy to misread:

- When neither altered copy is legal, `TrashBytes` returns the original object unchanged (lines 259-263). `EggTrading.TrashBytes` states this.
- `EggTrade` rebinds its parameter to the result of `TrashBytes` (line 226). The caller's record therefore receives the suggestions of lines 227-241 only when `TrashBytes` returned that very object. `EggTrading.EggTrade` and `EggTrading.EggTradeOutcome` state this.

## Model

| member | source | states |
|---|---|---|
| PartnerDetails.StampPartnerDetails | SysBot.Pokemon/Helpers/TradeExtensions.cs:34-50 | Returns a fresh clone and leaves the original untouched. The clone carries the partner identity, the restored nickname, the rewritten PID and the refreshed checksum (`WithPartner`). |
| PartnerDetails.CanUsePartnerDetails | SysBot.Pokemon/Helpers/TradeExtensions.cs:30-91 | Returns true iff the partner copy or the own-version copy is legal. The returned clone is the partner copy when that is legal, else the own-version copy. The force option changes neither result, and `pk` is never written. |
| PartnerDetails.PartnerIdentityCarried | SysBot.Pokemon/Helpers/TradeExtensions.cs:36-41 | Both candidates carry the partner's OT name, gender, language and stamped ID32. The first has the partner's game; the fallback has the record's own version. |
| PartnerDetails.Id7ReadBack | SysBot.Pokemon/Helpers/TradeExtensions.cs:38-39 | Setting TID7 then SID7 reads back as the partner's TID7 and SID7 when the IDs fit 32 bits without wrapping. |
| PartnerDetails.NicknameClearedIffNotNicknamed | SysBot.Pokemon/Helpers/TradeExtensions.cs:43-44 | In both candidates the nickname flag is cleared when the original had no nickname. Otherwise both keep the original nickname. |
| PartnerDetails.ShinyPidKeepsXor | SysBot.Pokemon/Helpers/TradeExtensions.cs:47 | The rewritten PID keeps its low 16 bits, and its shiny XOR with the new IDs is the requested value. |
| PartnerDetails.PartnerCandidateIds | SysBot.Pokemon/Helpers/TradeExtensions.cs:38-47 | The first candidate's ID32 is the stamped one. Its PID is the rewrite of the original PID for a shiny original, else the original PID. |
| PartnerDetails.FallbackSameIds | SysBot.Pokemon/Helpers/TradeExtensions.cs:55-58 | The fallback candidate has the first candidate's PID and ID32. |
| PartnerDetails.ShinyPreserved | SysBot.Pokemon/Helpers/TradeExtensions.cs:46-47 | A shiny original gives a first candidate with the very same shiny XOR. Both candidates are shiny. |
| PartnerDetails.RewrittenPidShiny | SysBot.Pokemon/Helpers/TradeExtensions.cs:47 | Under any new IDs, the line-47 rewrite of a shiny PID keeps its low half and its XOR, and so is shiny. |
| PartnerDetails.PlainPidKept | SysBot.Pokemon/Helpers/TradeExtensions.cs:46-47 | A non-shiny original keeps its PID in both candidates. |
| PartnerDetails.ChecksumOnlyRefreshedWhenOriginalInvalid | SysBot.Pokemon/Helpers/TradeExtensions.cs:49-58 | When the original's checksum was bad, both candidates end with a valid checksum. Otherwise both keep the original's stored checksum. |
| PartnerDetails.FallbackOnlyChangesVersion | SysBot.Pokemon/Helpers/TradeExtensions.cs:53-58 | The fallback candidate differs from the first only in version and checksum. |
| PartnerDetails.ForceRetryIsSameRecord | SysBot.Pokemon/Helpers/TradeExtensions.cs:71-77 | The forced retry rebuilds exactly the fallback record, so its legality check repeats the previous one. |
| PartnerDetails.FinalVersion | SysBot.Pokemon/Helpers/TradeExtensions.cs:53-90 | The returned copy has the partner's game when the first check passed, else the record's own version. |
| TrainerIdentity.IsEqualTInfo | SysBot.Pokemon/Helpers/TradeExtensions.cs:119-140 | True iff a trainer to compare against exists and agrees on OT, gender, language, TID16 and SID16. The game is ignored. |
| TrainerIdentity.IsEqualTInfoEquivalence | SysBot.Pokemon/Helpers/TradeExtensions.cs:119-140 | On present trainers, trainer equality is reflexive, symmetric and transitive. |
| TrainerIdentity.SetTrainer | SysBot.Pokemon/Helpers/TradeExtensions.cs:95-102 | The record's trainer: its TID16 and SID16 recombine to its ID32, and it takes the OT name, gender, language and version from the record. |
| TrainerIdentity.DefaultTrainer | SysBot.Pokemon/Helpers/TradeExtensions.cs:104-111 | The generated trainer has the configured OT, TID16, SID16, gender and language, and the fallback trainer's game. |
| TrainerIdentity.HasSetDetails | SysBot.Pokemon/Helpers/TradeExtensions.cs:93-117 | True iff the record's name, gender, language and ID32 differ from the generated defaults, and, when a trainer-data path is set, also from the saved trainer. Both directions are stated in record fields. |
| EggTrading.EggName | SysBot.Pokemon/Helpers/TradeExtensions.cs:145-155 | The egg nickname is non-empty, and it is "Egg" for every language outside the listed ones. |
| EggTrading.ClearedMarkings | SysBot.Pokemon/Helpers/TradeExtensions.cs:186-191 | The first six markings become 0; the others and the length are kept. |
| EggTrading.MarkAsEgg | SysBot.Pokemon/Helpers/TradeExtensions.cs:144-176 | The record becomes `AsEgg` of its old data: egg name and flag, locations of its format, today's dates, no item, level 1. |
| EggTrading.ClearHandler | SysBot.Pokemon/Helpers/TradeExtensions.cs:178-193 | The record becomes `Unhandled` of its old data: handler, friendship, memories, nature, EVs, six markings and relearn moves reset. |
| EggTrading.ClearHandlerDetails | SysBot.Pokemon/Helpers/TradeExtensions.cs:197-201 | Exactly the five handler fields that each format branch begins with are zeroed. |
| EggTrading.ResetFormatFields | SysBot.Pokemon/Helpers/TradeExtensions.cs:195-224 | The record becomes `FormatReset` of its old data: PK8/PB8 handler fields and Dynamax level; PK9 handler fields, obedience, versions and Tera type; other formats are unchanged. |
| EggTrading.ResetAsEgg | SysBot.Pokemon/Helpers/TradeExtensions.cs:144-224 | The record becomes `EggReset` of its old data. |
| EggTrading.TrashBytes | SysBot.Pokemon/Helpers/TradeExtensions.cs:244-264 | Returns the same object iff neither copy was picked, and a fresh object otherwise. The result holds `TrashResult` of the argument's data, and the argument is never written. |
| EggTrading.SuggestRibbonsAndMoves | SysBot.Pokemon/Helpers/TradeExtensions.cs:227-230 | Ribbons are suggested from the first analysis, then moves, fitted to four slots. |
| EggTrading.Relearn | SysBot.Pokemon/Helpers/TradeExtensions.cs:231-237 | The current handler's friendship becomes the egg cycles of the encounter, or the species' hatch cycles. The relearn moves become the four suggested ones. |
| EggTrading.MaximisePP | SysBot.Pokemon/Helpers/TradeExtensions.cs:239-241 | PP-ups are zeroed, each PP is at its maximum, and hyper training is suggested. |
| EggTrading.Train | SysBot.Pokemon/Helpers/TradeExtensions.cs:231-241 | The record becomes `Trained` of its old data. |
| EggTrading.ApplySuggestions | SysBot.Pokemon/Helpers/TradeExtensions.cs:227-241 | The record becomes `Suggested` of its old data. |
| EggTrading.EggTrade | SysBot.Pokemon/Helpers/TradeExtensions.cs:142-242 | The caller's record ends as the reset egg. It carries the suggestions as well only when `TrashBytes` picked neither copy. |
| EggTrading.EggResetShape | SysBot.Pokemon/Helpers/TradeExtensions.cs:144-193 | After the reset the record is a level-1 nicknamed egg, met and laid today at its format's locations. It has no item, EXP, handler, memories, EVs or first six markings, and its stat nature is its nature. |
| EggTrading.EggResetFormat | SysBot.Pokemon/Helpers/TradeExtensions.cs:195-224 | For each format, which handler, version, obedience and Tera fields the reset writes and which it keeps. |
| EggTrading.EggResetKeepsIdentity | SysBot.Pokemon/Helpers/TradeExtensions.cs:142-224 | The reset keeps the species, form, gender, nature, PID, IDs, OT, language, fateful flag, moves, ribbons and stored checksum. |
| EggTrading.FormatResetScope | SysBot.Pokemon/Helpers/TradeExtensions.cs:195-224 | The format branch writes no field outside its own ten. |
| EggTrading.Gen8ResetScope | SysBot.Pokemon/Helpers/TradeExtensions.cs:195-212 | The PK8/PB8 branch writes no field outside that set. |
| EggTrading.Pk9ResetScope | SysBot.Pokemon/Helpers/TradeExtensions.cs:213-224 | The PK9 branch writes no field outside that set. |
| EggTrading.EggResetIdempotent | SysBot.Pokemon/Helpers/TradeExtensions.cs:144-224 | Resetting an egg again changes nothing except possibly the suggested Dynamax level. |
| EggTrading.PickCases | SysBot.Pokemon/Helpers/TradeExtensions.cs:250-263 | The renamed copy is picked iff both copies are legal. The dated copy is picked iff only it is legal. Neither is picked iff the dated copy is illegal. |
| EggTrading.TrashResultLegal | SysBot.Pokemon/Helpers/TradeExtensions.cs:252-263 | Any copy returned is legal. Otherwise the record comes back as it was. |
| EggTrading.TrashOnlyNameAndDate | SysBot.Pokemon/Helpers/TradeExtensions.cs:246-263 | The result differs from the record only in met date, nickname flag and nickname. |
| EggTrading.MetCandidateScope | SysBot.Pokemon/Helpers/TradeExtensions.cs:246-248 | The dated copy differs only in its met date. |
| EggTrading.RenamedScope | SysBot.Pokemon/Helpers/TradeExtensions.cs:251-257 | The renamed copy differs from the dated copy only in the nickname pair. |
| EggTrading.TrashMetDate | SysBot.Pokemon/Helpers/TradeExtensions.cs:246-248 | A GO record keeps its met date. Any other record that comes back as a copy is met today. |
| EggTrading.SuggestedScope | SysBot.Pokemon/Helpers/TradeExtensions.cs:227-241 | The suggestion phase writes only ribbons, moves, friendship, relearn moves, PP-ups, PP and hyper training. |
| EggTrading.SuggestedMoves | SysBot.Pokemon/Helpers/TradeExtensions.cs:229-240 | After the suggestions there are four moves with no PP-ups at full PP and four relearn slots. Friendship is the hatch counter of the second analysis. |
| EggTrading.EggTradeOutcome | SysBot.Pokemon/Helpers/TradeExtensions.cs:226-241 | The caller always gets the egg. On the path where `TrashBytes` returned it, it has four moves with no PP-ups. On the other paths it keeps its old moves and PP-ups, with cleared relearn moves. |
| TradeImages.DetermineGenderCode | SysBot.Pokemon/Helpers/TradeExtensions.cs:363-375 | "md"/"fd" iff the species is gender dependent and in form 0, chosen by gender. Otherwise the code is "fo", "mo", "uk" or "mf" from the gender ratio, in that priority. |
| TradeImages.DetermineForm | SysBot.Pokemon/Helpers/TradeExtensions.cs:377-385 | Form 0 for Sinistea, Polteageist, Rockruff and Mothim, and for Alcremie when shiny or Gigantamax-capable. Otherwise the record's own form. |
| TradeImages.SpecialSpecies | SysBot.Pokemon/Helpers/TradeExtensions.cs:387-394 | Sneasel and Basculegion get "md"/"fd" by gender, and Basculegion's form becomes its gender. Other species are left as they were. |
| TradeImages.HandleSpecialSpecies | SysBot.Pokemon/Helpers/TradeExtensions.cs:387-394 | The two `ref` results are those of `SpecialSpecies`. |
| TradeImages.SpecialSpeciesCode | SysBot.Pokemon/Helpers/TradeExtensions.cs:387-394 | A valid gender code stays one. |
| TradeImages.PokeImg | SysBot.Pokemon/Helpers/TradeExtensions.cs:337-361 | The URL starts with the HOME capture base URL. `PokeImgFields` and `ImageFieldsRead` state what follows it. |
| TradeImages.PokeImgIgnoresSize | SysBot.Pokemon/Helpers/TradeExtensions.cs:337-342 | The URL is the same for both sizes. |
| TradeImages.AlcremieSuffixValue | SysBot.Pokemon/Helpers/TradeExtensions.cs:358 | The decoration segment is all digits. It reads back as Alcremie's decoration byte without Gigantamax, else as 0. |
| TradeImages.NameFields | SysBot.Pokemon/Helpers/TradeExtensions.cs:360 | A name built from seven underscore-free fields in the URL's shape splits on '_' back into exactly those fields. |
| TradeImages.ImageFieldsRead | SysBot.Pokemon/Helpers/TradeExtensions.cs:344-360 | The seven fields read back as: species (at least four digits), `DetermineForm` (at least three digits; the form `HandleSpecialSpecies` assigns does not reach it), the post-special gender code, g/n, the decoration value, "f", and r/n + ".png". |
| TradeImages.PokeImgFields | SysBot.Pokemon/Helpers/TradeExtensions.cs:337-361 | The URL starts with the capture base URL. The rest splits on '_' into exactly those seven fields. |
| TradeImages.FormSuffixEmpty | SysBot.Pokemon/Helpers/TradeExtensions.cs:400-406 | An empty list, a one-entry list or form 0 give the empty suffix. |
| TradeImages.FormSuffixDash | SysBot.Pokemon/Helpers/TradeExtensions.cs:403-406 | A non-empty suffix contains '-'. It is the clamped entry itself or that entry after '-', and never the blanked entry 0. |
| TradeImages.FormOutput | SysBot.Pokemon/Helpers/TradeExtensions.cs:396-407 | Entry 0 of a non-empty list is blanked and nothing else is written. The result is `FormSuffix` of the list, with the byte cast of the clamp proved exact. |
| TradeImages.HasMark | SysBot.Pokemon/Helpers/TradeExtensions.cs:409-421 | Returns true iff some ribbon from MarkLunchtime to MarkSlump is set, with the lowest such index. Otherwise it returns false with the default index 0. |
| TradePartnerSV.TradeMyStatus.SID7 | SysBot.Pokemon/SV/BotTrade/TradePartnerSV.cs:20 | SID7 is at most 4294, and it is the millions of the little-endian ID32. |
| TradePartnerSV.TradeMyStatus.TID7 | SysBot.Pokemon/SV/BotTrade/TradePartnerSV.cs:21 | TID7 is below 1_000_000, and with SID7 it recombines to the ID32. |
| TradePartnerSV.TradeMyStatus.Game | SysBot.Pokemon/SV/BotTrade/TradePartnerSV.cs:23 | The game is a byte value, 0-255. |
| TradePartnerSV.TradeMyStatus.Gender | SysBot.Pokemon/SV/BotTrade/TradePartnerSV.cs:24 | The gender is a byte value, 0-255. |
| TradePartnerSV.TradeMyStatus.Language | SysBot.Pokemon/SV/BotTrade/TradePartnerSV.cs:25 | The language is a byte value, 0-255. |
| TradePartnerSV.TradePartnerSV.TID7 | SysBot.Pokemon/SV/BotTrade/TradePartnerSV.cs:11 | The displayed TID7 has at least six characters, all digits, and reads back as the TID7. |
| TradePartnerSV.TradePartnerSV.SID7 | SysBot.Pokemon/SV/BotTrade/TradePartnerSV.cs:12 | The displayed SID7 has at least four characters, all digits, and reads back as the SID7. |
| TradePartnerSV.TradeMyStatus.AsPartner | SysBot.Pokemon/SV/BotTrade/TradePartnerSV.cs:16-27 | The partner interface reads TID7, SID7, OT, game, gender and language from the block. |
| TradePartnerSV.Id7Split | SysBot.Pokemon/SV/BotTrade/TradePartnerSV.cs:20-21 | TID7 is below 1_000_000 and SID7 at most 4294, and together they recombine to the little-endian ID32. |
| TradePartnerSV.ByteFields | SysBot.Pokemon/SV/BotTrade/TradePartnerSV.cs:23-25 | Game, gender and language are the bytes at offsets 4, 5 and 6. |
| TradePartnerSV.DecodedFromBytes | SysBot.Pokemon/SV/BotTrade/TradePartnerSV.cs:20-27 | The partner depends only on bytes 0-6 and 8-31. |
| TradePartnerSV.DisplayWidths | SysBot.Pokemon/SV/BotTrade/TradePartnerSV.cs:11-12 | The displayed TID7 is exactly six digits and the SID7 exactly four, each reading back as the number. |
| TradePartnerSV.TrainerNameIsOT | SysBot.Pokemon/SV/BotTrade/TradePartnerSV.cs:13 | The trainer name is the OT decoded from bytes 8-31. |
| TradePartnerSV.StampedIdIsPartnerId | SysBot.Pokemon/SV/BotTrade/TradePartnerSV.cs:20-21 | Stamping the decoded TID7 and SID7 on a record gives it the partner's raw ID32, barring wrap-around of the intermediate value. |
| ExtraCommandUtil.Separator | SysBot.Pokemon.Discord/Helpers/ExtraCommandUtil.cs:96 | The separator is ',' iff the entry has one; else '\|' iff it has one; else new line. |
| ExtraCommandUtil.Skip | SysBot.Pokemon.Discord/Helpers/ExtraCommandUtil.cs:96 | `Skip(start)` keeps all elements for a non-positive count and none past the end. Otherwise it keeps the tail after `start`, in order. |
| ExtraCommandUtil.CostIncreasing | SysBot.Pokemon.Discord/Helpers/ExtraCommandUtil.cs:104-106 | The counter strictly increases with every piece. |
| ExtraCommandUtil.FitsBudgetUnique | SysBot.Pokemon.Discord/Helpers/ExtraCommandUtil.cs:104-110 | Exactly one count of leading pieces fits the budget the way the loop decides. |
| ExtraCommandUtil.EachAt | SysBot.Pokemon.Discord/Helpers/ExtraCommandUtil.cs:108 | The j-th element of the mapped list is the j-th piece mapped. |
| ExtraCommandUtil.SpliceAtWord | SysBot.Pokemon.Discord/Helpers/ExtraCommandUtil.cs:92-112 | An entry whose `Length` (UTF-16 code units) is below the budget comes back whole and untrimmed. Otherwise the result is the leading pieces that fit the budget, each trimmed, in order. |
| ExtraCommandUtil.SurrogatePairCounted | SysBot.Pokemon.Discord/Helpers/ExtraCommandUtil.cs:98-106 | A character above U+FFFF counts as two units: "😀,ab" has length 5, so with a budget of 5 it is split, only "😀" fits, and its trimmed form is "😀" itself. |
| ExtraCommandUtil.ReturnedPiecesWithinBudget | SysBot.Pokemon.Discord/Helpers/ExtraCommandUtil.cs:104-110 | Every returned prefix of pieces costs less than the budget. |
| ExtraCommandUtil.GetBorderColor | SysBot.Pokemon.Discord/Helpers/ExtraCommandUtil.cs:113-125 | Gold iff the record is fateful and shiny, or has shiny XOR 0. Orange iff shiny otherwise; teal iff not shiny. Purple/blue without a record, by `gift`. The PK8 palette is used iff the bot trades PK8. |
| ExtraCommandUtil.NoRecordColor | SysBot.Pokemon.Discord/Helpers/ExtraCommandUtil.cs:115-119 | Without a record, the colour depends only on `gift` and on whether the bot trades PK8. |
| Text.SplitJoin | SysBot.Pokemon.Discord/Helpers/ExtraCommandUtil.cs:96 | Joining the split pieces with the separator gives back the entry. |
| Text.SplitPiecesFree | SysBot.Pokemon.Discord/Helpers/ExtraCommandUtil.cs:96 | No split piece contains the separator. |
| Text.JoinSplit | SysBot.Pokemon/Helpers/TradeExtensions.cs:360 | Splitting a join of separator-free pieces gives the pieces back. |
| Text.Trim | SysBot.Pokemon.Discord/Helpers/ExtraCommandUtil.cs:108 | A trimmed piece neither starts nor ends with white space. |
| Text.TrimMiddle | SysBot.Pokemon.Discord/Helpers/ExtraCommandUtil.cs:108 | The trimmed piece is a middle slice of the original, and everything cut off on either side is white space. |
| Text.TrimKeeps | SysBot.Pokemon.Discord/Helpers/ExtraCommandUtil.cs:108 | A piece with no white space at either end is unchanged by trimming. |
| Text.Utf16Length | SysBot.Pokemon.Discord/Helpers/ExtraCommandUtil.cs:98-106 | `Length` is between the character count and twice it. |
| Text.Utf16LengthAppend | SysBot.Pokemon.Discord/Helpers/ExtraCommandUtil.cs:98-106 | The length of a concatenation is the sum of the lengths. |
| Text.Utf16LengthBmp | SysBot.Pokemon.Discord/Helpers/ExtraCommandUtil.cs:98-106 | `Length` equals the character count iff no character lies above U+FFFF. |
| Decimal.PaddedRoundTrip | SysBot.Pokemon/Helpers/TradeExtensions.cs:344-347 | `ToString("Dk")` has at least k characters, all digits, and reads back as the number. |
| Decimal.PaddedExact | SysBot.Pokemon/SV/BotTrade/TradePartnerSV.cs:11-12 | Below 10^k, `ToString("Dk")` is exactly k digits. |
| Decimal.DigitsRoundTrip | SysBot.Pokemon/Helpers/TradeExtensions.cs:358 | `ToString()` is all digits and reads back as the number. |

## Left out

- Logging (`executor.Log`, `la.Report()`) and the partner-details message of lines 87-88 are output only. They are not modelled.
- `ItemImg` and `IsUrlValid` are network calls and are not modelled.
- The legality checker, checksums, default nicknames and the suggestion routines are PKHeX code that is not part of this model. They are fields of `Records.Library`, deterministic but otherwise unconstrained.
- `EggTrade`'s two `LegalityAnalysis` objects are modelled as the library's answer for the record at the time each object was built.
- `StringConverter8.GetString` (the partner's OT) is a decoder parameter.
- `GameInfo.GetStrings` and `FormConverter.GetFormList` are not modelled. `FormOutput` receives the list they build.
- The `GenderDependent` enum is a set of species numbers, and `PersonalInfo` is a gender-ratio value. Both are inputs.
- `TrainerSettings.GetSavedTrainerData` is an input trainer, consulted only when a trainer-data path is set.
- `DateTime.Today` and `DateTime.Now` are the date parameters `today` and `now`.
- The `CurrentLevel` and `EXP` setters are modelled as plain field writes. PKHeX's derivation of one from the other is not modelled.
- `MarkTitle` is static text and is not modelled.
- `ReactionVerification`, `EmbedUtil` and `DictWipeMonitor` of ExtraCommandUtil.cs are not modelled. They are Discord I/O, timers, and a background task on a shared dictionary.
- HelpModule.cs and CloneModule.cs are not modelled; they are Discord event handlers and command wrappers.
- `Records.Pkm.SetTrainerTID7`, `Records.Pkm.SetTrainerSID7`: PKHeX's setters are assumed to recombine ID32 as `SID7 * 1_000_000 + TID7`, wrapping at 2^32. The read-back lemmas therefore carry a no-wrap side condition.
- `PartnerDetails.ShinyPreserved`: states the preserved XOR and shininess. The low-half fact sits in `PartnerDetails.RewrittenPidShiny` and `PartnerDetails.ShinyPidKeepsXor` instead.
- `EggTrading.EggTrade`, `EggTrading.ResetAsEgg`, `EggTrading.ClearHandler`, `EggTrading.Unhandled`: require a record with at least six marking slots. The six unconditional `SetMarking` calls of lines 186-191 are PKHeX code that is not part of this model, and what they do on a format with fewer slots is unknown here. The PK8, PB8 and PK9 records that the format branch of lines 195-224 handles all have six.
- `TradePartnerSV.TradeMyStatus.OT` and `TradePartnerSV.TradePartnerSV.TrainerName` compute through the decoder parameter and carry no contract of their own. `TradePartnerSV.TrainerNameIsOT` and `TradePartnerSV.DecodedFromBytes` state what they read.
- `ExtraCommandUtil.SpliceAtWord`: the C# `int` counter could overflow past 2^31 on an entry of about two billion characters. The model counts in unbounded integers.
- `Text.IsWhiteSpace` lists the characters .NET classes as white space. It is a fixed table of code points, with no Unicode database behind it.
- `EggTrading.EggTrade`: `pk is PK8`, `pk is PB8` and `pk is PK9` are decided by the record's `kind`. PKHeX formats other than these three fall into `OtherFormat`.
