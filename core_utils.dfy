/**
 * The brand-id helpers shared by every package: turning a dashed brand id
 * into a display name, and recognising the brand ids the system knows.
 */
module CoreUtils {
  import opened Common
  import opened Text

  const Saithavys: string := "saithavys"
  const PartlyOffice: string := "partly-office"
  const GPrismo: string := "g-prismo"
  /** The fourth entry of the brand table, which the validator does not list. */
  const DefaultBrand: string := "default"

  /** The display names kept beside the brand table. */
  function BrandDisplayName(id: string): Option<string> {
    if id == Saithavys then Some("SaithavyS")
    else if id == PartlyOffice then Some("Partly Office")
    else if id == GPrismo then Some("G Prismo")
    else if id == DefaultBrand then Some("Default")
    else None
  }

  /** `word.charAt(0).toUpperCase() + word.slice(1)` */
  function Capitalize(w: string): string {
    if w == [] then [] else [ToUpperAscii(w[0])] + w[1..]
  }

  function CapitalizeAll(words: seq<string>): seq<string> {
    if words == [] then [] else [Capitalize(words[0])] + CapitalizeAll(words[1..])
  }

  /** `brandId.split('-').map(capitalize).join(' ')` */
  function FormatBrandName(brandId: string): string {
    Join(CapitalizeAll(SplitOn(brandId, '-')), " ")
  }

  /**
   * The character the display name holds at position `i`: a dash becomes a
   * space, a character starting a piece is upper-cased, any other is kept.
   */
  function DisplayChar(s: string, i: nat, atStart: bool): char
    requires i < |s|
  {
    if s[i] == '-' then ' '
    else if (i == 0 && atStart) || (i > 0 && s[i - 1] == '-') then ToUpperAscii(s[i])
    else s[i]
  }

  /**
   * The display name computed character by character; `atStart` says whether
   * the first character of `s` starts a piece.
   */
  function FormatFrom(s: string, atStart: bool): (r: string)
    ensures |r| == |s|
    ensures forall i :: 0 <= i < |s| ==> r[i] == DisplayChar(s, i, atStart)
  {
    if s == [] then []
    else if s[0] == '-' then [' '] + FormatFrom(s[1..], true)
    else [if atStart then ToUpperAscii(s[0]) else s[0]] + FormatFrom(s[1..], false)
  }

  /** Capitalizes every piece but the first, and the first too when `first` holds. */
  function CapitalizeFrom(words: seq<string>, first: bool): seq<string> {
    if words == [] then []
    else [if first then Capitalize(words[0]) else words[0]] + CapitalizeAll(words[1..])
  }

  lemma JoinConsFirst(c: char, p: string, rest: seq<string>, sep: string)
    ensures Join([[c] + p] + rest, sep) == [c] + Join([p] + rest, sep)
  {
    if rest != [] {
      assert ([[c] + p] + rest)[1..] == rest;
      assert ([p] + rest)[1..] == rest;
    }
  }

  lemma {:induction false} SplitCapitalizeJoin(s: string, atStart: bool)
    ensures Join(CapitalizeFrom(SplitOn(s, '-'), atStart), " ") == FormatFrom(s, atStart)
    decreases |s|
  {
    if s == [] {
    } else if s[0] == '-' {
      SplitCapitalizeJoin(s[1..], true);
      var rest := SplitOn(s[1..], '-');
      assert SplitOn(s, '-') == [""] + rest;
      assert CapitalizeFrom(rest, true) == CapitalizeAll(rest);
      var caps := CapitalizeFrom([""] + rest, atStart);
      assert caps == [""] + CapitalizeAll(rest);
      assert caps[1..] == CapitalizeAll(rest);
    } else {
      SplitCapitalizeJoin(s[1..], false);
      var rest := SplitOn(s[1..], '-');
      var c := if atStart then ToUpperAscii(s[0]) else s[0];
      assert SplitOn(s, '-') == [[s[0]] + rest[0]] + rest[1..];
      assert ([[s[0]] + rest[0]] + rest[1..])[1..] == rest[1..];
      assert (if atStart then Capitalize([s[0]] + rest[0]) else [s[0]] + rest[0]) == [c] + rest[0] by {
        assert ([s[0]] + rest[0])[1..] == rest[0];
      }
      assert CapitalizeFrom(rest, false) == [rest[0]] + CapitalizeAll(rest[1..]);
      JoinConsFirst(c, rest[0], CapitalizeAll(rest[1..]), " ");
    }
  }

  /**
   * `formatBrandName` replaces each dash by one space and upper-cases the
   * first character of each piece, leaving every other character as it is.
   */
  lemma FormatBrandNamePointwise(s: string)
    ensures |FormatBrandName(s)| == |s|
    ensures forall i :: 0 <= i < |s| ==> FormatBrandName(s)[i] == DisplayChar(s, i, true)
  {
    var words := SplitOn(s, '-');
    if words != [] {
      assert CapitalizeFrom(words, true) == CapitalizeAll(words);
    }
    SplitCapitalizeJoin(s, true);
  }

  function Count(s: string, c: char): nat {
    if s == [] then 0 else (if s[0] == c then 1 else 0) + Count(s[1..], c)
  }

  lemma {:induction false} FormatFromCounts(s: string, atStart: bool)
    ensures Count(FormatFrom(s, atStart), ' ') == Count(s, '-') + Count(s, ' ')
    ensures Count(FormatFrom(s, atStart), '-') == 0
    decreases |s|
  {
    if s != [] {
      var r := FormatFrom(s, atStart);
      FormatFromCounts(s[1..], s[0] == '-');
      assert r[1..] == FormatFrom(s[1..], s[0] == '-');
    }
  }

  /**
   * The display name is as long as the id, holds no dash, and its spaces are
   * the id's dashes plus the spaces the id already had.
   */
  lemma FormatBrandNameCounts(s: string)
    ensures |FormatBrandName(s)| == |s|
    ensures Count(FormatBrandName(s), ' ') == Count(s, '-') + Count(s, ' ')
    ensures Count(FormatBrandName(s), '-') == 0
  {
    FormatBrandNamePointwise(s);
    SplitCapitalizeJoin(s, true);
    assert CapitalizeFrom(SplitOn(s, '-'), true) == CapitalizeAll(SplitOn(s, '-'));
    FormatFromCounts(s, true);
  }

  lemma {:induction false} NoDashCounted(s: string)
    requires Count(s, '-') == 0
    ensures '-' !in s
    decreases |s|
  {
    if s != [] {
      NoDashCounted(s[1..]);
    }
  }

  /** Formatting a display name again changes nothing. */
  lemma FormatBrandNameIdempotent(s: string)
    ensures FormatBrandName(FormatBrandName(s)) == FormatBrandName(s)
  {
    var r := FormatBrandName(s);
    FormatBrandNamePointwise(s);
    FormatBrandNameCounts(s);
    NoDashCounted(r);
    FormatBrandNamePointwise(r);
    var rr := FormatBrandName(r);
    forall i | 0 <= i < |r| ensures rr[i] == r[i] {
      assert r[i] != '-' by { assert r[i] in r; }
      if i > 0 {
        assert r[i - 1] != '-' by { assert r[i - 1] in r; }
      }
    }
  }

  lemma FormatIsFormatFrom(s: string)
    ensures FormatBrandName(s) == FormatFrom(s, true)
  {
    var words := SplitOn(s, '-');
    assert CapitalizeFrom(words, true) == CapitalizeAll(words);
    SplitCapitalizeJoin(s, true);
  }

  /** Formatting works piecewise: the second part starts a piece when the first ends in a dash. */
  lemma {:induction false} FormatFromAppend(a: string, b: string, atStart: bool)
    ensures FormatFrom(a + b, atStart) == FormatFrom(a, atStart) + FormatFrom(b, if a == [] then atStart else a[|a| - 1] == '-')
    decreases |a|
  {
    if a != [] {
      assert (a + b)[1..] == a[1..] + b;
      FormatFromAppend(a[1..], b, a[0] == '-');
    }
  }

  /** A piece without a dash is capitalized when it starts a piece and kept otherwise. */
  lemma {:induction false} FormatFromWord(w: string, atStart: bool)
    requires '-' !in w
    ensures FormatFrom(w, atStart) == if atStart then Capitalize(w) else w
    decreases |w|
  {
    if w != [] {
      assert '-' !in w[1..] by {
        forall c | c in w[1..] ensures c != '-' { assert c in w; }
      }
      FormatFromWord(w[1..], false);
      assert w == [w[0]] + w[1..];
    }
  }

  /** The two-piece brand ids: each piece is capitalized and the dash becomes a space. */
  lemma FormatTwoPieces(a: string, b: string)
    requires a != [] && '-' !in a && '-' !in b
    ensures FormatBrandName(a + "-" + b) == Capitalize(a) + " " + Capitalize(b)
  {
    FormatIsFormatFrom(a + "-" + b);
    FormatFromAppend(a + "-", b, true);
    FormatFromAppend(a, "-", true);
    FormatFromWord(a, true);
    FormatFromWord(b, true);
  }

  lemma PartlyOfficePieces()
    ensures PartlyOffice == "partly" + "-" + "office"
    ensures '-' !in "partly" && '-' !in "office"
    ensures Capitalize("partly") + " " + Capitalize("office") == "Partly Office"
  {
  }

  lemma FormatPartlyOffice()
    ensures FormatBrandName(PartlyOffice) == "Partly Office"
  {
    PartlyOfficePieces();
    FormatTwoPieces("partly", "office");
  }

  lemma GPrismoPieces()
    ensures GPrismo == "g" + "-" + "prismo"
    ensures '-' !in "g" && '-' !in "prismo"
    ensures Capitalize("g") + " " + Capitalize("prismo") == "G Prismo"
  {
  }

  lemma FormatGPrismo()
    ensures FormatBrandName(GPrismo) == "G Prismo"
  {
    GPrismoPieces();
    FormatTwoPieces("g", "prismo");
  }

  /**
   * The formatter does not reproduce the display-name table for the first
   * brand: it keeps the final letter lower-case.
   */
  lemma SaithavysPieces()
    ensures '-' !in Saithavys
    ensures Capitalize(Saithavys) == "Saithavys"
    ensures "Saithavys" != "SaithavyS"
  {
    assert "Saithavys"[8] != "SaithavyS"[8];
  }

  lemma FormatDiffersFromDisplayName()
    ensures FormatBrandName(Saithavys) == "Saithavys"
    ensures BrandDisplayName(Saithavys) == Some("SaithavyS")
    ensures Some(FormatBrandName(Saithavys)) != BrandDisplayName(Saithavys)
  {
    SaithavysPieces();
    FormatIsFormatFrom(Saithavys);
    FormatFromWord(Saithavys, true);
  }

  const ValidBrands: seq<string> := [Saithavys, PartlyOffice, GPrismo]

  /** `validBrands.includes(brandId)` */
  predicate IsValidBrandId(brandId: string) {
    brandId in ValidBrands
  }

  /** Exactly the three listed brands are valid; the table's default brand is not. */
  lemma ValidBrandIds(brandId: string)
    ensures IsValidBrandId(brandId) <==> brandId == Saithavys || brandId == PartlyOffice || brandId == GPrismo
    ensures !IsValidBrandId(DefaultBrand)
    ensures BrandDisplayName(DefaultBrand).Some?
  {
    assert DefaultBrand[0] == 'd';
  }
}
