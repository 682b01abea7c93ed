/**
 * The JavaScript string operations the brand-context validator and the brand
 * helpers rely on: `split` on a character and on runs of separator characters
 * (`/\s+/`, `/[.!?]+/`), `split(/\n\s*\n/)` for paragraphs, `join`, case
 * mapping restricted to ASCII letters, and `includes`.
 */
module Text {
  import opened Common

  /** The characters `\s` matches in a JavaScript regular expression. */
  predicate IsWhitespace(c: char) {
    || c == ' ' || c == '\t' || c == '\n' || c == '\r' || c == '\U{B}' || c == '\U{C}'
    || c == '\U{A0}' || c == '\U{1680}' || ('\U{2000}' <= c <= '\U{200A}')
    || c == '\U{2028}' || c == '\U{2029}' || c == '\U{202F}' || c == '\U{205F}' || c == '\U{3000}' || c == '\U{FEFF}'
  }

  /** The characters of the class `[.!?]`. */
  predicate IsSentenceEnd(c: char) {
    c == '.' || c == '!' || c == '?'
  }

  /** The separator classes split on: `\s` and `[.!?]`. */
  datatype Separator = Whitespace | SentenceEnd

  predicate Sep(k: Separator, c: char) {
    match k
    case Whitespace => IsWhitespace(c)
    case SentenceEnd => IsSentenceEnd(c)
  }

  function ToLowerAscii(c: char): char {
    if 'A' <= c <= 'Z' then (c as int + 32) as char else c
  }

  function ToUpperAscii(c: char): char {
    if 'a' <= c <= 'z' then (c as int - 32) as char else c
  }

  /** `toLowerCase()` on ASCII letters; every other character is kept. */
  function Lower(s: string): (r: string)
    ensures |r| == |s|
    ensures forall i :: 0 <= i < |s| ==> r[i] == ToLowerAscii(s[i])
  {
    if s == [] then [] else [ToLowerAscii(s[0])] + Lower(s[1..])
  }

  lemma LowerIdempotent(s: string)
    ensures Lower(Lower(s)) == Lower(s)
  {
  }

  /** `s.includes(t)`, scanning start positions from the left. */
  function Contains(s: string, t: string): bool
    decreases |s|
  {
    if |t| > |s| then false
    else if s[..|t|] == t then true
    else Contains(s[1..], t)
  }

  predicate OccursAt(s: string, t: string, i: int) {
    0 <= i <= |s| - |t| && s[i..i + |t|] == t
  }

  /** `Contains` holds exactly when `t` occurs at some position of `s`. */
  lemma {:induction false} ContainsIffOccurs(s: string, t: string)
    ensures Contains(s, t) <==> exists i :: OccursAt(s, t, i)
    decreases |s|
  {
    if |t| > |s| {
    } else if s[..|t|] == t {
      assert OccursAt(s, t, 0);
    } else {
      ContainsIffOccurs(s[1..], t);
      forall i ensures OccursAt(s[1..], t, i) <==> OccursAt(s, t, i + 1) {
        if 0 <= i <= |s[1..]| - |t| {
          assert s[1..][i..i + |t|] == s[i + 1..i + 1 + |t|];
        }
      }
      if exists i :: OccursAt(s, t, i) {
        var i :| OccursAt(s, t, i);
        assert i != 0;
        assert OccursAt(s[1..], t, i - 1);
      }
    }
  }

  /** Drops the run of separator characters `s` starts with. */
  function SkipRun(s: string, sep: Separator): (r: string)
    ensures |r| <= |s| && r == s[|s| - |r|..]
    ensures r == [] || !Sep(sep, r[0])
    ensures forall i :: 0 <= i < |s| - |r| ==> Sep(sep, s[i])
  {
    if s == [] || !Sep(sep, s[0]) then s else SkipRun(s[1..], sep)
  }

  /**
   * `s.split(re)` for a pattern matching maximal runs of `sep` characters:
   * a leading or trailing run yields an empty first or last piece, and the
   * empty string yields one empty piece.
   */
  function SplitRuns(s: string, sep: Separator): (pieces: seq<string>)
    ensures |pieces| >= 1
    decreases |s|
  {
    if s == [] then [""]
    else if Sep(sep, s[0]) then [""] + SplitRuns(SkipRun(s, sep), sep)
    else
      var rest := SplitRuns(s[1..], sep);
      [[s[0]] + rest[0]] + rest[1..]
  }

  /**
   * The number of maximal runs of `sep` characters in `s`, counted by a
   * left-to-right scan: a run starts at a separator character that does not
   * follow another one. `afterSep` says whether the character before `s` was
   * a separator.
   */
  function RunStarts(s: string, sep: Separator, afterSep: bool): nat
    decreases |s|
  {
    if s == [] then 0
    else (if Sep(sep, s[0]) && !afterSep then 1 else 0) + RunStarts(s[1..], sep, Sep(sep, s[0]))
  }

  function RunCount(s: string, sep: Separator): nat {
    RunStarts(s, sep, false)
  }

  /** Inside a run, the rest of the run starts nothing new. */
  lemma {:induction false} RunStartsSkipRun(s: string, sep: Separator)
    ensures RunStarts(s, sep, true) == RunStarts(SkipRun(s, sep), sep, false)
    decreases |s|
  {
    if s != [] && Sep(sep, s[0]) {
      RunStartsSkipRun(s[1..], sep);
    }
  }

  /** Splitting on maximal separator runs gives one piece more than there are runs. */
  lemma {:induction false} SplitRunsCount(s: string, sep: Separator)
    ensures |SplitRuns(s, sep)| == 1 + RunCount(s, sep)
    decreases |s|
  {
    if s != [] {
      if Sep(sep, s[0]) {
        RunStartsSkipRun(s[1..], sep);
        assert SkipRun(s, sep) == SkipRun(s[1..], sep);
        SplitRunsCount(SkipRun(s, sep), sep);
      } else {
        SplitRunsCount(s[1..], sep);
      }
    }
  }

  function Concat(pieces: seq<string>): string {
    if pieces == [] then [] else pieces[0] + Concat(pieces[1..])
  }

  /** `s` with every separator character removed. */
  function Without(s: string, sep: Separator): string {
    if s == [] then [] else (if Sep(sep, s[0]) then [] else [s[0]]) + Without(s[1..], sep)
  }

  lemma {:induction false} WithoutSkipRun(s: string, sep: Separator)
    ensures Without(SkipRun(s, sep), sep) == Without(s, sep)
    decreases |s|
  {
    if s != [] && Sep(sep, s[0]) {
      WithoutSkipRun(s[1..], sep);
    }
  }

  predicate NoSeparator(p: string, sep: Separator) {
    forall c :: c in p ==> !Sep(sep, c)
  }

  /** No piece holds a separator character. */
  lemma {:induction false} SplitRunsNoSeparator(s: string, sep: Separator)
    ensures forall p :: p in SplitRuns(s, sep) ==> NoSeparator(p, sep)
    decreases |s|
  {
    if s == [] {
    } else if Sep(sep, s[0]) {
      SplitRunsNoSeparator(SkipRun(s, sep), sep);
    } else {
      var rest := SplitRuns(s[1..], sep);
      SplitRunsNoSeparator(s[1..], sep);
      assert rest[0] in rest;
      assert NoSeparator([s[0]] + rest[0], sep);
      forall p | p in SplitRuns(s, sep) ensures NoSeparator(p, sep) {
        if p != [s[0]] + rest[0] {
          assert p in rest;
        }
      }
    }
  }

  /** Put back together, the pieces are the input with its separators taken out. */
  lemma {:induction false} SplitRunsConcat(s: string, sep: Separator)
    ensures Concat(SplitRuns(s, sep)) == Without(s, sep)
    decreases |s|
  {
    if s == [] {
    } else if Sep(sep, s[0]) {
      var t := SkipRun(s, sep);
      SplitRunsConcat(t, sep);
      WithoutSkipRun(s, sep);
      assert ([""] + SplitRuns(t, sep))[1..] == SplitRuns(t, sep);
    } else {
      var rest := SplitRuns(s[1..], sep);
      SplitRunsConcat(s[1..], sep);
      var pieces := [[s[0]] + rest[0]] + rest[1..];
      assert pieces[1..] == rest[1..];
      assert Concat(rest) == rest[0] + Concat(rest[1..]);
      assert Concat(pieces) == ([s[0]] + rest[0]) + Concat(rest[1..]);
    }
  }

  /** A string without separators is a single piece. */
  lemma {:induction false} NoSeparatorOnePiece(s: string, sep: Separator)
    requires forall c :: c in s ==> !Sep(sep, c)
    ensures SplitRuns(s, sep) == [s]
    decreases |s|
  {
    if s != [] {
      assert s[0] in s;
      forall c | c in s[1..] ensures !Sep(sep, c) {
        assert c in s;
      }
      NoSeparatorOnePiece(s[1..], sep);
      assert s == [s[0]] + s[1..];
    }
  }

  /** `s.split(/\s+/).length` */
  function WordCount(s: string): (n: nat)
    ensures n >= 1
  {
    |SplitRuns(s, Whitespace)|
  }

  /** `s.split(/[.!?]+/).length - 1`: one less than the number of pieces. */
  function SentenceCount(s: string): (n: nat)
  {
    |SplitRuns(s, SentenceEnd)| - 1
  }

  /**
   * The word count is one more than the number of whitespace runs, and the
   * sentence count is the number of runs of `.`, `!` and `?`.
   */
  lemma CountsAreRunCounts(s: string)
    ensures WordCount(s) == 1 + RunCount(s, Whitespace)
    ensures SentenceCount(s) == RunCount(s, SentenceEnd)
  {
    SplitRunsCount(s, Whitespace);
    SplitRunsCount(s, SentenceEnd);
  }

  /** Empty content is one (empty) word and no sentence; a lone blank is two empty words. */
  lemma WordCountExamples()
    ensures WordCount("") == 1
    ensures SentenceCount("") == 0
    ensures WordCount(" ") == 2
  {
    assert SkipRun(" ", Whitespace) == "";
  }

  /**
   * Where a `\n\s*\n` match starting at a newline ends: the greedy `\s*` runs
   * over the whitespace after the newline and gives back characters until the
   * last newline in that run. `t` is the text after the first newline; the
   * result is the length of the match's remainder within `t`, if any.
   */
  function BlankLineEnd(t: string): (r: Option<nat>)
    ensures r.Some? ==> 1 <= r.value <= |t| && t[r.value - 1] == '\n'
    ensures r.Some? ==> forall i :: 0 <= i < r.value ==> IsWhitespace(t[i])
    decreases |t|
  {
    if t == [] || !IsWhitespace(t[0]) then None
    else
      var later := BlankLineEnd(t[1..]);
      if later.Some? then Some(later.value + 1)
      else if t[0] == '\n' then Some(1)
      else None
  }

  /** `s.split(/\n\s*\n/)`: paragraphs separated by a blank line. */
  function Paragraphs(s: string): (pieces: seq<string>)
    ensures |pieces| >= 1
    decreases |s|
  {
    if s == [] then [""]
    else if s[0] == '\n' && BlankLineEnd(s[1..]).Some? then
      [""] + Paragraphs(s[1 + BlankLineEnd(s[1..]).value..])
    else
      var rest := Paragraphs(s[1..]);
      [[s[0]] + rest[0]] + rest[1..]
  }

  /** Text without a newline is one paragraph. */
  lemma {:induction false} NoNewlineOneParagraph(s: string)
    requires '\n' !in s
    ensures Paragraphs(s) == [s]
    decreases |s|
  {
    if s != [] {
      assert s[0] != '\n' by { assert s[0] in s; }
      assert '\n' !in s[1..] by {
        forall c | c in s[1..] ensures c != '\n' { assert c in s; }
      }
      NoNewlineOneParagraph(s[1..]);
      assert s == [s[0]] + s[1..];
    }
  }

  /** A `\n\s*\n` match starts at position `q` of `s`. */
  predicate BlankAt(s: string, q: int) {
    0 <= q < |s| && s[q] == '\n' && BlankLineEnd(s[q + 1..]).Some?
  }

  /** Text in which the pattern matches nowhere is one paragraph. */
  lemma {:induction false} NoBlankLineOneParagraph(s: string)
    requires forall q :: 0 <= q < |s| ==> !BlankAt(s, q)
    ensures Paragraphs(s) == [s]
    decreases |s|
  {
    if s != [] {
      assert !BlankAt(s, 0);
      forall q | 0 <= q < |s| - 1 ensures !BlankAt(s[1..], q) {
        assert !BlankAt(s, q + 1);
        assert s[1..][q + 1..] == s[q + 2..];
      }
      NoBlankLineOneParagraph(s[1..]);
      assert s == [s[0]] + s[1..];
    }
  }

  /** Where no match starts, the first character joins the first paragraph of the rest. */
  lemma ParagraphsStep(s: string)
    requires s != [] && !BlankAt(s, 0)
    ensures Paragraphs(s) == [[s[0]] + Paragraphs(s[1..])[0]] + Paragraphs(s[1..])[1..]
  {
  }

  /**
   * `split` cuts at the first match: the first paragraph is the text before
   * it, and the rest is the split of the text after the match.
   */
  lemma {:induction false} ParagraphsCutAtFirstBlankLine(s: string, q: nat)
    requires BlankAt(s, q)
    requires forall p :: 0 <= p < q ==> !BlankAt(s, p)
    ensures Paragraphs(s) == [s[..q]] + Paragraphs(s[q + 1 + BlankLineEnd(s[q + 1..]).value..])
    decreases q
  {
    var e := BlankLineEnd(s[q + 1..]).value;
    if q > 0 {
      var t := s[1..];
      assert t[q..] == s[q + 1..];
      assert BlankAt(t, q - 1);
      forall p | 0 <= p < q - 1 ensures !BlankAt(t, p) {
        assert !BlankAt(s, p + 1);
        assert t[p + 1..] == s[p + 2..];
      }
      ParagraphsCutAtFirstBlankLine(t, q - 1);
      assert t[q + e..] == s[q + 1 + e..];
      assert !BlankAt(s, 0);
      ParagraphsStep(s);
      assert [s[0]] + t[..q - 1] == s[..q];
    }
  }

  /** The JavaScript results for two newlines and for a single one. */
  lemma ParagraphExample()
    ensures Paragraphs("\n\n") == ["", ""]
    ensures Paragraphs("\n") == ["\n"]
  {
    assert BlankLineEnd("") == None;
    assert BlankLineEnd("\n") == Some(1);
    assert "\n\n"[1..] == "\n";
    assert "\n\n"[1 + 1..] == "";
    assert "\n"[1..] == "";
    assert Paragraphs("") == [""];
    assert "\n" + "" == "\n";
  }

  /** `s.split(c)` for a single character: every occurrence splits, empty pieces included. */
  function SplitOn(s: string, c: char): (pieces: seq<string>)
    ensures |pieces| >= 1
  {
    if s == [] then [""]
    else if s[0] == c then [""] + SplitOn(s[1..], c)
    else
      var rest := SplitOn(s[1..], c);
      [[s[0]] + rest[0]] + rest[1..]
  }

  /** `pieces.join(sep)` */
  function Join(pieces: seq<string>, sep: string): string {
    if pieces == [] then ""
    else if |pieces| == 1 then pieces[0]
    else pieces[0] + sep + Join(pieces[1..], sep)
  }

  /** Splitting on a character and joining with it again gives the input back. */
  lemma {:induction false} SplitJoinRoundTrip(s: string, c: char)
    ensures Join(SplitOn(s, c), [c]) == s
  {
    if s != [] {
      SplitJoinRoundTrip(s[1..], c);
      var rest := SplitOn(s[1..], c);
      if s[0] == c {
        assert s == [c] + s[1..];
      } else if |rest| == 1 {
        assert s == [s[0]] + s[1..];
      } else {
        assert Join(rest, [c]) == rest[0] + [c] + Join(rest[1..], [c]);
        assert s == [s[0]] + s[1..];
      }
    }
  }
}
