/**
 The image and form helpers of `TradeExtensions<T>`: the HOME capture-image
 URL of a record (`PokeImg` with its three helpers), the form suffix picked
 from a form-name list (`FormOutput`) and the search for a mark ribbon
 (`HasMark`).
 */
module TradeImages {
  import opened Records
  import Decimal
  import Text

  // National dex numbers of the species the helpers single out.
  const Mothim := 414
  const Sneasel := 215
  const Rockruff := 744
  const Sinistea := 854
  const Polteageist := 855
  const Alcremie := 869
  const Basculegion := 902

  /** The gender-ratio flags of a species' `PersonalInfo`. */
  datatype PersonalGender = PersonalGender(onlyFemale: bool, onlyMale: bool, genderless: bool)

  // ---------------------------------------------------------------------
  // DetermineGenderCode, DetermineForm, HandleSpecialSpecies (lines 363-394)
  // ---------------------------------------------------------------------

  /** The gender codes that can appear in a capture-image name. */
  predicate IsGenderCode(code: string) {
    code == "md" || code == "fd" || code == "fo" || code == "mo" || code == "uk" || code == "mf"
  }

  /**
   `DetermineGenderCode`. `genderDependent` is the set of species numbers the
   `GenderDependent` enum defines; `personal` is the record's `PersonalInfo`.
   A gender-dependent species in its base form is drawn as male or female
   ("md"/"fd"); otherwise the code names the species' gender ratio.
   */
  function DetermineGenderCode(f: Fields, genderDependent: set<int>, personal: PersonalGender): (code: string)
    ensures IsGenderCode(code)
    ensures code == "md" <==> f.species as int in genderDependent && f.form == 0 && f.gender == 0
    ensures code == "fd" <==> f.species as int in genderDependent && f.form == 0 && f.gender != 0
    ensures code == "fo" <==> !(f.species as int in genderDependent && f.form == 0) && personal.onlyFemale
    ensures code == "mo" <==> !(f.species as int in genderDependent && f.form == 0) && !personal.onlyFemale && personal.onlyMale
    ensures code == "uk" <==>
              !(f.species as int in genderDependent && f.form == 0) && !personal.onlyFemale && !personal.onlyMale && personal.genderless
  {
    if f.species as int in genderDependent && f.form == 0 then
      (if f.gender == 0 then "md" else "fd")
    else if personal.onlyFemale then "fo"
    else if personal.onlyMale then "mo"
    else if personal.genderless then "uk"
    else "mf"
  }

  /**
   `DetermineForm`: Sinistea, Polteageist, Rockruff and Mothim are always drawn
   in form 0, and so is Alcremie when it is shiny or can Gigantamax; every other
   record keeps its own form.
   */
  function DetermineForm(f: Fields, canGmax: bool): (form: int)
    ensures form == 0 || form == f.form as int
    ensures f.species as int in {Sinistea, Polteageist, Rockruff, Mothim} ==> form == 0
    ensures f.species as int == Alcremie && (IsShiny(f) || canGmax) ==> form == 0
    ensures (!(f.species as int in {Sinistea, Polteageist, Rockruff, Mothim}) &&
             !(f.species as int == Alcremie && (IsShiny(f) || canGmax))) ==> form == f.form as int
  {
    var s := f.species as int;
    if s == Sinistea || s == Polteageist || s == Rockruff || s == Mothim then 0
    else if s == Alcremie && (IsShiny(f) || canGmax) then 0
    else f.form as int
  }

  /** Gender code and form after `HandleSpecialSpecies`. */
  datatype Drawn = Drawn(genderCode: string, form: int)

  /**
   What `HandleSpecialSpecies` leaves in its `ref` parameters: Sneasel and
   Basculegion are drawn male or female by their gender, and Basculegion's form
   becomes its gender; everything else is left as it was.
   */
  function SpecialSpecies(f: Fields, genderCode: string, form: int): (d: Drawn)
    ensures f.species as int == Sneasel || f.species as int == Basculegion ==>
              d.genderCode == (if f.gender == 0 then "md" else "fd")
    ensures f.species as int == Basculegion ==> d.form == f.gender as int
    ensures f.species as int != Sneasel && f.species as int != Basculegion ==> d == Drawn(genderCode, form)
    ensures f.species as int == Sneasel ==> d.form == form
  {
    if f.species as int == Sneasel || f.species as int == Basculegion then
      Drawn(if f.gender == 0 then "md" else "fd", if f.species as int == Basculegion then f.gender as int else form)
    else
      Drawn(genderCode, form)
  }

  /** `HandleSpecialSpecies(pkm, ref genderCode, ref form)`. */
  method HandleSpecialSpecies(f: Fields, genderCode: string, form: int) returns (genderCode': string, form': int)
    ensures Drawn(genderCode', form') == SpecialSpecies(f, genderCode, form)
  {
    genderCode', form' := genderCode, form;
    if f.species as int == Sneasel || f.species as int == Basculegion {
      genderCode' := if f.gender == 0 then "md" else "fd";
      form' := if f.species as int == Basculegion then f.gender as int else form';
    }
  }

  /** A gender code stays a gender code through `HandleSpecialSpecies`. */
  lemma SpecialSpeciesCode(f: Fields, genderCode: string, form: int)
    requires IsGenderCode(genderCode)
    ensures IsGenderCode(SpecialSpecies(f, genderCode, form).genderCode)
  {
  }

  // ---------------------------------------------------------------------
  // PokeImg (lines 337-361)
  // ---------------------------------------------------------------------

  const CaptureUrl := "https://raw.githubusercontent.com/Poke-Legend/HomeImages/master/128x128/poke_capture_"

  /** The decoration segment: Alcremie's decoration byte after seven zeros, else eight zeros. */
  function AlcremieSuffix(f: Fields, canGmax: bool): string {
    if f.species as int == Alcremie && !canGmax then "0000000" + Decimal.Digits(f.decorationByte as nat) else "00000000"
  }

  /**
   The seven underscore-separated fields of the image name (lines 344-360).
   The form field is formatted from `DetermineForm` before `HandleSpecialSpecies`
   runs, so only the gender code of the special-species step reaches the name.
   */
  function ImageFields(f: Fields, canGmax: bool, genderDependent: set<int>, personal: PersonalGender): (fields: seq<string>)
  {
    var speciesFormatted := Decimal.Padded(f.species as nat, 4);
    var form := DetermineForm(f, canGmax);
    var formFormatted := Decimal.Padded(form, 3);
    var genderCode := DetermineGenderCode(f, genderDependent, personal);
    var drawn := SpecialSpecies(f, genderCode, form);
    var shinyCode := if IsShiny(f) then "r" else "n";
    var gmaxCode := if canGmax then "g" else "n";
    [speciesFormatted, formFormatted, drawn.genderCode, gmaxCode, AlcremieSuffix(f, canGmax), "f", shinyCode + ".png"]
  }

  /** `PokeImg`: the base URL, then the fields between underscores. */
  function PokeImg(f: Fields, canGmax: bool, fullSize: bool, genderDependent: set<int>, personal: PersonalGender): (url: string)
    ensures |url| >= |CaptureUrl| && url[..|CaptureUrl|] == CaptureUrl
  {
    var baseUrl := if fullSize then CaptureUrl else CaptureUrl;
    baseUrl + Text.Join(ImageFields(f, canGmax, genderDependent, personal), '_')
  }

  /** The URL does not depend on the requested size. */
  lemma PokeImgIgnoresSize(f: Fields, canGmax: bool, genderDependent: set<int>, personal: PersonalGender)
    ensures PokeImg(f, canGmax, true, genderDependent, personal) == PokeImg(f, canGmax, false, genderDependent, personal)
  {
  }

  /** A digit string has no underscore in it. */
  lemma DigitsFree(s: string)
    requires Decimal.AllDigits(s)
    ensures '_' !in s
  {
  }

  /** When no field can hold '_', the name after the base splits back into its seven fields. */
  lemma NameFields(b: string, p0: string, p1: string, code: string, p3: string, p4: string, shiny: string)
    requires Decimal.AllDigits(p0) && Decimal.AllDigits(p1) && Decimal.AllDigits(p4)
    requires IsGenderCode(code) && (p3 == "g" || p3 == "n") && (shiny == "r" || shiny == "n")
    ensures var url := b + Text.Join([p0, p1, code, p3, p4, "f", shiny + ".png"], '_');
            |url| > |b| && url[..|b|] == b &&
            Text.Split(url[|b|..], '_') == [p0, p1, code, p3, p4, "f", shiny + ".png"]
  {
    var fields := [p0, p1, code, p3, p4, "f", shiny + ".png"];
    DigitsFree(p0);
    DigitsFree(p1);
    DigitsFree(p4);
    assert '_' !in shiny + ".png";
    assert (b + Text.Join(fields, '_'))[|b|..] == Text.Join(fields, '_');
    Text.JoinSplit(fields, '_');
  }

  /** The decoration segment is all digits and reads back as the decoration byte (Alcremie) or zero. */
  lemma AlcremieSuffixValue(f: Fields, canGmax: bool)
    ensures Decimal.AllDigits(AlcremieSuffix(f, canGmax))
    ensures Decimal.Value(AlcremieSuffix(f, canGmax)) ==
              if f.species as int == Alcremie && !canGmax then f.decorationByte as int else 0
  {
    if f.species as int == Alcremie && !canGmax {
      Decimal.DigitsRoundTrip(f.decorationByte as nat);
      assert "0000000" == Decimal.Zeros(7);
      Decimal.LeadingZerosValue(7, Decimal.Digits(f.decorationByte as nat));
    } else {
      assert "00000000" == Decimal.Zeros(8);
      Decimal.ZerosValue(8);
    }
  }

  /**
   What the fields say: the species (at least four digits), the form of
   `DetermineForm` (at least three digits, whatever `HandleSpecialSpecies` did
   to the form), the gender code after `HandleSpecialSpecies`, 'g' or 'n' for
   Gigantamax, the decoration segment, 'f', and 'r' or 'n' for shininess
   followed by ".png".
   */
  lemma ImageFieldsRead(f: Fields, canGmax: bool, genderDependent: set<int>, personal: PersonalGender)
    ensures var parts := ImageFields(f, canGmax, genderDependent, personal);
            |parts| == 7 &&
            |parts[0]| >= 4 && Decimal.AllDigits(parts[0]) && Decimal.Value(parts[0]) == f.species as int &&
            |parts[1]| >= 3 && Decimal.AllDigits(parts[1]) && Decimal.Value(parts[1]) == DetermineForm(f, canGmax) &&
            parts[2] == SpecialSpecies(f, DetermineGenderCode(f, genderDependent, personal), DetermineForm(f, canGmax)).genderCode &&
            parts[3] == (if canGmax then "g" else "n") &&
            Decimal.AllDigits(parts[4]) &&
            Decimal.Value(parts[4]) == (if f.species as int == Alcremie && !canGmax then f.decorationByte as int else 0) &&
            parts[5] == "f" &&
            parts[6] == (if IsShiny(f) then "r" else "n") + ".png"
  {
    var parts := ImageFields(f, canGmax, genderDependent, personal);
    var form := DetermineForm(f, canGmax);
    assert parts[0] == Decimal.Padded(f.species as nat, 4);
    assert parts[1] == Decimal.Padded(form, 3);
    assert parts[4] == AlcremieSuffix(f, canGmax);
    Decimal.PaddedRoundTrip(f.species as nat, 4);
    Decimal.PaddedRoundTrip(form, 3);
    AlcremieSuffixValue(f, canGmax);
  }

  /** Reading the URL back: after the base URL it splits on '_' into exactly the seven fields. */
  lemma PokeImgFields(f: Fields, canGmax: bool, fullSize: bool, genderDependent: set<int>, personal: PersonalGender)
    ensures var url := PokeImg(f, canGmax, fullSize, genderDependent, personal);
            |url| > |CaptureUrl| && url[..|CaptureUrl|] == CaptureUrl &&
            Text.Split(url[|CaptureUrl|..], '_') == ImageFields(f, canGmax, genderDependent, personal)
  {
    var parts := ImageFields(f, canGmax, genderDependent, personal);
    ImageFieldsRead(f, canGmax, genderDependent, personal);
    SpecialSpeciesCode(f, DetermineGenderCode(f, genderDependent, personal), DetermineForm(f, canGmax));
    NameFields(CaptureUrl, parts[0], parts[1], parts[2], parts[3], parts[4], if IsShiny(f) then "r" else "n");
  }

  // ---------------------------------------------------------------------
  // FormOutput (lines 396-407), after the form list is built
  // ---------------------------------------------------------------------

  /**
   The suffix `FormOutput` returns for a form-name list whose first entry has
   been blanked: the entry at `form`, or at the last index when `form` is past
   the end, kept as it is when it already holds '-', and otherwise prefixed
   with '-' unless it is empty.
   */
  function FormSuffix(names: seq<string>, form: uint8): (r: string)
  {
    if |names| == 0 then ""
    else
      var blanked := names[0 := ""];
      var s := blanked[if form as int >= |names| then |names| - 1 else form as int];
      if '-' in s then s else if s == "" then "" else "-" + s
  }

  /** An empty list and form 0 both give the empty suffix. */
  lemma FormSuffixEmpty(names: seq<string>, form: uint8)
    requires |names| == 0 || form == 0 || |names| == 1
    ensures FormSuffix(names, form) == ""
  {
    if |names| > 0 {
      assert names[0 := ""][0] == "";
    }
  }

  /** Any non-empty suffix has a '-' in it, and it is the chosen name itself or that name after a '-'. */
  lemma FormSuffixDash(names: seq<string>, form: uint8)
    requires FormSuffix(names, form) != ""
    ensures '-' in FormSuffix(names, form)
    ensures var i := if form as int >= |names| then |names| - 1 else form as int;
            0 < i < |names| &&
            (FormSuffix(names, form) == names[i] || FormSuffix(names, form) == "-" + names[i])
  {
    var i := if form as int >= |names| then |names| - 1 else form as int;
    var r := FormSuffix(names, form);
    assert names[0 := ""][0] == "";
    assert i != 0;
    assert names[0 := ""][i] == names[i];
    if '-' !in names[i] {
      assert r == "-" + names[i];
      assert r[0] == '-';
    }
  }

  /**
   `FormOutput(species, form, out formString)` once `formString` holds the
   form names of the species: blanks the first name and returns the suffix.
   */
  method FormOutput(form: uint8, formString: array<string>) returns (r: string)
    modifies formString
    ensures formString.Length == 0 ==> r == ""
    ensures formString.Length > 0 ==> formString[..] == old(formString[..])[0 := ""]
    ensures r == FormSuffix(old(formString[..]), form)
  {
    if formString.Length == 0 {
      return "";
    }
    formString[0] := "";
    var index := form;
    if index as int >= formString.Length {
      // The byte cast of Length - 1 is exact: the list is shorter than 256 entries here.
      assert (formString.Length - 1) % 256 == formString.Length - 1;
      index := ((formString.Length - 1) % 256) as uint8;
    }
    var s := formString[index];
    r := if '-' in s then s else if s == "" then "" else "-" + s;
  }

  // ---------------------------------------------------------------------
  // HasMark (lines 409-421)
  // ---------------------------------------------------------------------

  // `RibbonIndex` values of the first and last mark, and the enum's default.
  const MarkLunchtime := 53
  const MarkSlump := 97
  const DefaultRibbon := 0

  /**
   `HasMark(pk, out result)`: whether any mark from MarkLunchtime to MarkSlump
   is set, and if so the first set one; `result` is the default otherwise.
   */
  method HasMark(pk: Fields) returns (found: bool, result: nat)
    ensures found <==> exists m :: MarkLunchtime <= m <= MarkSlump && m in pk.ribbons
    ensures found ==> MarkLunchtime <= result <= MarkSlump && result in pk.ribbons
    ensures found ==> forall m :: MarkLunchtime <= m < result ==> m !in pk.ribbons
    ensures !found ==> result == DefaultRibbon
  {
    result := DefaultRibbon;
    var mark := MarkLunchtime;
    while mark <= MarkSlump
      invariant MarkLunchtime <= mark <= MarkSlump + 1
      invariant forall m :: MarkLunchtime <= m < mark ==> m !in pk.ribbons
    {
      if mark in pk.ribbons {
        result := mark;
        return true, result;
      }
      mark := mark + 1;
    }
    return false, result;
  }
}
