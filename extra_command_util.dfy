/**
 Two helpers of the Discord front end (`ExtraCommandUtil<T>`): cutting a long
 list into the pieces that fit a length budget (`SpliceAtWord`), and the
 embed colour for a trade (`GetBorderColor`).
 */
module ExtraCommandUtil {
  import opened Records
  import Text

  // ---------------------------------------------------------------------
  // SpliceAtWord (lines 92-112)
  // ---------------------------------------------------------------------

  /** Line 96: split on ',' if the entry has one, else on '|' if it has one, else on new lines. */
  function Separator(entry: string): (c: char)
    ensures c == ',' <==> ',' in entry
    ensures c == '|' <==> ',' !in entry && '|' in entry
    ensures c == '\n' <==> ',' !in entry && '|' !in entry
  {
    if ',' in entry then ',' else if '|' in entry then '|' else '\n'
  }

  /** `Skip(start)`: the first `start` elements dropped; a negative count drops nothing. */
  function Skip<T>(s: seq<T>, start: int): (r: seq<T>)
    ensures |r| == if start <= 0 then |s| else if start >= |s| then 0 else |s| - start
    ensures forall i :: 0 <= i < |r| ==> r[i] == s[i + (|s| - |r|)]
  {
    if start <= 0 then s else if start >= |s| then [] else s[start..]
  }

  /** The pieces the loop of lines 104-110 walks through. */
  function Pieces(entry: string, start: int): seq<string> {
    Skip(Text.Split(entry, Separator(entry)), start)
  }

  /**
   The value `counter` has after the given pieces: each piece's `Length`
   (its UTF-16 code units) plus two.
   */
  function Cost(pieces: seq<string>): (n: nat)
    ensures n >= 2 * |pieces|
  {
    if pieces == [] then 0 else Cost(pieces[..|pieces| - 1]) + Text.Utf16Length(pieces[|pieces| - 1]) + 2
  }

  /** Adding a piece raises the cost by that piece's length plus two. */
  lemma CostStep(pieces: seq<string>, i: nat)
    requires i < |pieces|
    ensures Cost(pieces[..i + 1]) == Cost(pieces[..i]) + Text.Utf16Length(pieces[i]) + 2
  {
    assert pieces[..i + 1][..i] == pieces[..i];
  }

  /** The cost of a prefix grows strictly with the prefix. */
  lemma {:induction false} CostIncreasing(pieces: seq<string>, i: nat, j: nat)
    requires i < j <= |pieces|
    ensures Cost(pieces[..i]) < Cost(pieces[..j])
    decreases j - i
  {
    CostStep(pieces, j - 1);
    if i < j - 1 {
      CostIncreasing(pieces, i, j - 1);
    }
  }

  /**
   `k` leading pieces fit the budget the way the loop decides: the first `k`
   cost less than `length`, and one more would not.
   */
  predicate FitsBudget(pieces: seq<string>, length: int, k: nat) {
    k <= |pieces| && (k > 0 ==> Cost(pieces[..k]) < length) && (k < |pieces| ==> Cost(pieces[..k + 1]) >= length)
  }

  /** At most one count fits the budget, so the result of the loop is determined. */
  lemma FitsBudgetUnique(pieces: seq<string>, length: int, k1: nat, k2: nat)
    requires FitsBudget(pieces, length, k1) && FitsBudget(pieces, length, k2)
    ensures k1 == k2
  {
    if k1 < k2 {
      if k1 + 1 < k2 {
        CostIncreasing(pieces, k1 + 1, k2);
      }
    } else if k2 < k1 {
      if k2 + 1 < k1 {
        CostIncreasing(pieces, k2 + 1, k1);
      }
    }
  }

  /** `f` applied to each element, in order (the `Select` of the loop body). */
  function Each(f: string -> string, pieces: seq<string>): (r: seq<string>)
    ensures |r| == |pieces|
  {
    if pieces == [] then [] else Each(f, pieces[..|pieces| - 1]) + [f(pieces[|pieces| - 1])]
  }

  lemma EachStep(f: string -> string, pieces: seq<string>, i: nat)
    requires i < |pieces|
    ensures Each(f, pieces[..i + 1]) == Each(f, pieces[..i]) + [f(pieces[i])]
  {
    assert pieces[..i + 1][..i] == pieces[..i];
  }

  /** The `j`-th element of the result is `f` of the `j`-th element. */
  lemma {:induction false} EachAt(f: string -> string, pieces: seq<string>, j: nat)
    requires j < |pieces|
    ensures Each(f, pieces)[j] == f(pieces[j])
    decreases |pieces|
  {
    var n := |pieces| - 1;
    if j < n {
      EachAt(f, pieces[..n], j);
      assert pieces[..n][j] == pieces[j];
    }
  }

  /**
   `SpliceAtWord`: an entry shorter than the budget comes back whole and
   untrimmed (lengths are `Length`, counted in UTF-16 code units); otherwise the leading pieces that fit the budget, each trimmed,
   in their order.
   */
  method SpliceAtWord(entry: string, start: int, length: int) returns (list: seq<string>)
    ensures Text.Utf16Length(entry) < length ==> list == [entry]
    ensures Text.Utf16Length(entry) >= length ==>
              var pieces := Pieces(entry, start);
              FitsBudget(pieces, length, |list|) && list == Each(Text.Trim, pieces[..|list|])
  {
    var counter := 0;
    list := [];
    var temp := Pieces(entry, start);

    if Text.Utf16Length(entry) < length {
      list := list + [entry];
      return list;
    }

    var i := 0;
    assert temp[..0] == [];
    while i < |temp|
      invariant 0 <= i <= |temp| && |list| == i
      invariant counter == Cost(temp[..i])
      invariant i > 0 ==> counter < length
      invariant list == Each(Text.Trim, temp[..i])
    {
      var line := temp[i];
      CostStep(temp, i);
      EachStep(Text.Trim, temp, i);
      counter := counter + Text.Utf16Length(line) + 2;
      if counter < length {
        list := list + [Text.Trim(line)];
      } else {
        break;
      }
      i := i + 1;
    }
  }

  /**
   A character above U+FFFF counts twice: "\U{1F600},ab" is five code units
   long, so with a budget of five it is split, only its first piece fits, and
   trimming leaves that piece as it is: `SpliceAtWord` returns ["\U{1F600}"].
   */
  lemma SurrogatePairCounted()
    ensures Text.Utf16Length("\U{1F600},ab") == 5
    ensures Pieces("\U{1F600},ab", 0) == ["\U{1F600}", "ab"]
    ensures FitsBudget(Pieces("\U{1F600},ab", 0), 5, 1)
    ensures Each(Text.Trim, Pieces("\U{1F600},ab", 0)[..1]) == ["\U{1F600}"]
  {
    var e := "\U{1F600},ab";
    assert Text.Utf16Length("\U{1F600}") == 2 by {
      assert "\U{1F600}"[..0] == [];
    }
    assert Text.Utf16Length(e) == 5 by {
      assert e == "\U{1F600}" + ",ab";
      Text.Utf16LengthAppend("\U{1F600}", ",ab");
      Text.Utf16LengthBmp(",ab");
    }
    assert ',' in e by {
      assert e[1] == ',';
    }
    Text.SplitAfter("\U{1F600}", "ab", ',');
    assert e == "\U{1F600}" + [','] + "ab";
    Text.SplitWithout("ab", ',');
    var pieces := ["\U{1F600}", "ab"];
    assert Pieces(e, 0) == pieces;
    Text.Utf16LengthBmp("ab");
    CostStep(pieces, 0);
    CostStep(pieces, 1);
    assert pieces[..0] == [] && pieces[..2] == pieces;
    Text.TrimKeeps("\U{1F600}");
    EachStep(Text.Trim, pieces, 0);
  }

  /** Every piece that is returned is within the budget together with those before it. */
  lemma ReturnedPiecesWithinBudget(pieces: seq<string>, length: int, k: nat)
    requires FitsBudget(pieces, length, k)
    ensures forall j :: 0 < j <= k ==> Cost(pieces[..j]) < length
  {
    forall j | 0 < j <= k
      ensures Cost(pieces[..j]) < length
    {
      if j < k {
        CostIncreasing(pieces, j, k);
      }
    }
  }

  // ---------------------------------------------------------------------
  // GetBorderColor (lines 113-125)
  // ---------------------------------------------------------------------

  datatype Color = Purple | Blue | DarkPurple | DarkBlue | Gold | LightOrange | Teal | DarkOrange | DarkTeal

  /**
   `GetBorderColor(gift, pkm)` of a bot whose record type is `botKind`
   (`swsh` is "the bot trades PK8 records").
   */
  function GetBorderColor(botKind: Kind, gift: bool, pkm: Option<Fields>): (c: Color)
    ensures c == Gold <==> pkm.Some? && ((IsShiny(pkm.value) && pkm.value.fatefulEncounter) || ShinyXor(pkm.value.pid, pkm.value.id32) == 0)
    ensures c == LightOrange || c == DarkOrange <==> pkm.Some? && IsShiny(pkm.value) && c != Gold
    ensures c == Teal || c == DarkTeal <==> pkm.Some? && !IsShiny(pkm.value)
    ensures c == Purple || c == DarkPurple <==> pkm.None? && gift
    ensures c == Blue || c == DarkBlue <==> pkm.None? && !gift
    ensures c != Gold ==> (c == Purple || c == Blue || c == LightOrange || c == Teal <==> botKind == PK8)
  {
    var swsh := botKind == PK8;
    if pkm.None? && swsh then
      (if gift then Purple else Blue)
    else if pkm.None? && !swsh then
      (if gift then DarkPurple else DarkBlue)
    else if pkm.Some? && swsh then
      (if (IsShiny(pkm.value) && pkm.value.fatefulEncounter) || ShinyXor(pkm.value.pid, pkm.value.id32) == 0 then Gold
       else if IsShiny(pkm.value) then LightOrange
       else Teal)
    else if pkm.Some? && !swsh then
      (if (IsShiny(pkm.value) && pkm.value.fatefulEncounter) || ShinyXor(pkm.value.pid, pkm.value.id32) == 0 then Gold
       else if IsShiny(pkm.value) then DarkOrange
       else DarkTeal)
    else
      assert false; Teal
  }

  /** Without a record the colour depends only on `gift` and on whether the bot trades PK8 records. */
  lemma NoRecordColor(k1: Kind, k2: Kind, gift: bool)
    requires (k1 == PK8) == (k2 == PK8)
    ensures GetBorderColor(k1, gift, None) == GetBorderColor(k2, gift, None)
  {
  }
}
