/**
 * The Python `str` primitives the invoice code relies on: the whitespace
 * class shared by `str.isspace`, `str.strip`, `str.split` and the regular
 * expression `\s`, line splitting, joining and upper-casing.
 */
module Strings {

  /** Python's `str.isspace` for one character (also what `\s` matches in a str pattern). */
  predicate IsSpace(c: char) {
    ('\U{9}' <= c <= '\U{D}') || ('\U{1C}' <= c <= '\U{20}') || c == '\U{85}' || c == '\U{A0}'
    || c == '\U{1680}' || ('\U{2000}' <= c <= '\U{200A}') || c == '\U{2028}' || c == '\U{2029}'
    || c == '\U{202F}' || c == '\U{205F}' || c == '\U{3000}'
  }

  /** The characters at which Python's `str.splitlines` breaks a string. */
  predicate IsLineBreak(c: char) {
    c == '\n' || c == '\r' || c == '\U{B}' || c == '\U{C}' || ('\U{1C}' <= c <= '\U{1E}')
    || c == '\U{85}' || c == '\U{2028}' || c == '\U{2029}'
  }

  /** A string made of whitespace only (the empty string included). */
  predicate Blank(s: string) {
    forall i :: 0 <= i < |s| ==> IsSpace(s[i])
  }

  /** A string with no line-break character. */
  predicate SingleLine(s: string) {
    forall i :: 0 <= i < |s| ==> !IsLineBreak(s[i])
  }

  /** A string that `str.strip` leaves unchanged. */
  predicate Stripped(s: string) {
    s == [] || (!IsSpace(s[0]) && !IsSpace(s[|s| - 1]))
  }

  /** The non-whitespace characters of `s`, in order. */
  function NonSpace(s: string): string {
    if s == [] then [] else (if IsSpace(s[0]) then [] else [s[0]]) + NonSpace(s[1..])
  }

  /** Python's `str.lstrip()`: drops the leading whitespace. */
  function TrimStart(s: string): (r: string)
    ensures |r| <= |s| && r == s[|s| - |r|..]
    ensures r != [] ==> !IsSpace(r[0])
  {
    if s != [] && IsSpace(s[0]) then TrimStart(s[1..]) else s
  }

  /** What `TrimStart` drops is whitespace. */
  lemma {:induction false} TrimStartDropsBlank(s: string)
    ensures Blank(s[..|s| - |TrimStart(s)|])
  {
    if s != [] && IsSpace(s[0]) {
      TrimStartDropsBlank(s[1..]);
      var k := |s| - |TrimStart(s)|;
      assert s[..k] == [s[0]] + s[1..][..k - 1];
      BlankCons(s[0], s[1..][..k - 1]);
    }
  }

  /** Python's `str.rstrip()`: drops the trailing whitespace. */
  function TrimEnd(s: string): (r: string)
    ensures |r| <= |s| && r == s[..|r|]
    ensures r != [] ==> !IsSpace(r[|r| - 1])
  {
    if s != [] && IsSpace(s[|s| - 1]) then TrimEnd(s[..|s| - 1]) else s
  }

  /** What `TrimEnd` drops is whitespace. */
  lemma {:induction false} TrimEndDropsBlank(s: string)
    ensures Blank(s[|TrimEnd(s)|..])
  {
    if s != [] && IsSpace(s[|s| - 1]) {
      var init := s[..|s| - 1];
      TrimEndDropsBlank(init);
      var n := |TrimEnd(s)|;
      var tail := s[n..];
      forall i | 0 <= i < |tail| ensures IsSpace(tail[i]) {
        if n + i < |s| - 1 {
          assert tail[i] == init[n..][i];
        }
      }
    }
  }

  /** Python's `str.strip()`. */
  function Strip(s: string): (r: string)
    ensures Stripped(r)
  {
    TrimEnd(TrimStart(s))
  }

  /** Stripping gives the empty string exactly for an all-whitespace text. */
  lemma {:induction false} StripEmpty(s: string)
    ensures Strip(s) == [] <==> Blank(s)
  {
    StripEmptyIffBlank(s, TrimStart(s), Strip(s));
  }

  /** Stripping removes whitespace only. */
  lemma {:induction false} StripKeepsText(s: string)
    ensures NonSpace(Strip(s)) == NonSpace(s)
  {
    TrimStartKeepsNonSpace(s);
    TrimEndKeepsNonSpace(TrimStart(s));
  }

  /** Stripping a single line gives a single line. */
  lemma {:induction false} StripSingleLine(s: string)
    requires SingleLine(s)
    ensures SingleLine(Strip(s))
  {
    var k := |s| - |TrimStart(s)|;
    var r := Strip(s);
    assert r == s[k..k + |r|] by {
      assert r == TrimStart(s)[..|r|];
    }
    SliceSingleLine(s, k, k + |r|);
  }

  /** A slice of a single line is a single line. */
  lemma {:induction false} SliceSingleLine(s: string, lo: nat, hi: nat)
    requires lo <= hi <= |s| && SingleLine(s)
    ensures SingleLine(s[lo..hi])
  {
    var r := s[lo..hi];
    forall i | 0 <= i < |r| ensures !IsLineBreak(r[i]) {
      assert r[i] == s[lo + i];
    }
  }

  lemma {:induction false} TrimStartKeepsNonSpace(s: string)
    ensures NonSpace(TrimStart(s)) == NonSpace(s)
  {
    var t := TrimStart(s);
    var lead := s[..|s| - |t|];
    TrimStartDropsBlank(s);
    NonSpaceBlank(lead);
    assert s == lead + t;
    NonSpaceConcat(lead, t);
  }

  lemma {:induction false} TrimEndKeepsNonSpace(s: string)
    ensures NonSpace(TrimEnd(s)) == NonSpace(s)
  {
    var r := TrimEnd(s);
    var trail := s[|r|..];
    TrimEndDropsBlank(s);
    NonSpaceBlank(trail);
    assert s == r + trail;
    NonSpaceConcat(r, trail);
  }

  lemma {:induction false} StripEmptyIffBlank(s: string, t: string, r: string)
    requires t == TrimStart(s) && r == TrimEnd(t)
    ensures r == [] <==> Blank(s)
  {
    var k := |s| - |t|;
    TrimStartDropsBlank(s);
    TrimEndDropsBlank(t);
    if r == [] {
      assert t[|r|..] == t;
      assert t == [];
      assert s[..k] == s;
    } else {
      assert !IsSpace(r[0]);
      assert r[0] == s[k];
    }
  }

  lemma {:induction false} NonSpaceConcat(a: string, b: string)
    ensures NonSpace(a + b) == NonSpace(a) + NonSpace(b)
  {
    if a != [] {
      assert (a + b)[1..] == a[1..] + b;
      NonSpaceConcat(a[1..], b);
    } else {
      assert a + b == b;
    }
  }

  /** A leading whitespace character adds nothing to `NonSpace`. */
  lemma {:induction false} NonSpaceSpaceCons(c: char, s: string)
    requires IsSpace(c)
    ensures NonSpace([c] + s) == NonSpace(s)
  {
    assert ([c] + s)[1..] == s;
  }

  lemma {:induction false} NonSpaceBlank(s: string)
    requires Blank(s)
    ensures NonSpace(s) == []
  {
    if s != [] { NonSpaceBlank(s[1..]); }
  }

  /** The separator of party addresses holds no line break. */
  lemma {:induction false} CommaSpaceSingleLine()
    ensures SingleLine(", ")
  {
    var sep := ", ";
    assert |sep| == 2 && sep[0] == ',' && sep[1] == ' ';
    forall i | 0 <= i < |sep| ensures !IsLineBreak(sep[i]) {
      if i == 0 { assert sep[i] == ','; } else { assert sep[i] == ' '; }
    }
  }

  /** A single space is whitespace. */
  lemma {:induction false} SpaceBlank()
    ensures Blank(" ")
  {
    var sep := " ";
    assert |sep| == 1 && sep[0] == ' ';
  }

  /** Python's `sep.join(parts)`. */
  function Join(parts: seq<string>, sep: string): string {
    if parts == [] then ""
    else if |parts| == 1 then parts[0]
    else parts[0] + sep + Join(parts[1..], sep)
  }

  /** Joining single-line parts with a single-line separator gives a single line. */
  lemma {:induction false} JoinSingleLine(parts: seq<string>, sep: string)
    requires forall i :: 0 <= i < |parts| ==> SingleLine(parts[i])
    requires SingleLine(sep)
    ensures SingleLine(Join(parts, sep))
  {
    if |parts| > 1 {
      JoinSingleLine(parts[1..], sep);
      var rest := Join(parts[1..], sep);
      assert Join(parts, sep) == parts[0] + sep + rest;
      forall i | 0 <= i < |parts[0] + sep + rest|
        ensures !IsLineBreak((parts[0] + sep + rest)[i])
      {
        if i < |parts[0]| {
        } else if i < |parts[0]| + |sep| {
          assert (parts[0] + sep + rest)[i] == sep[i - |parts[0]|];
        } else {
          assert (parts[0] + sep + rest)[i] == rest[i - |parts[0]| - |sep|];
        }
      }
    } else if |parts| == 1 {
      assert SingleLine(parts[0]);
    }
  }

  /** The concatenation of `parts` (what a join with separators removed leaves). */
  function Concat(parts: seq<string>): string {
    if parts == [] then "" else parts[0] + Concat(parts[1..])
  }

  /** Joining with a blank separator keeps exactly the parts' non-whitespace characters. */
  lemma {:induction false} JoinNonSpace(parts: seq<string>, sep: string)
    requires Blank(sep)
    ensures NonSpace(Join(parts, sep)) == NonSpace(Concat(parts))
  {
    if |parts| == 1 {
      assert parts[1..] == [];
      assert Concat(parts) == parts[0] + "" == parts[0];
    } else if |parts| > 1 {
      JoinNonSpace(parts[1..], sep);
      NonSpaceConcat(parts[0] + sep, Join(parts[1..], sep));
      NonSpaceConcat(parts[0], sep);
      NonSpaceBlank(sep);
      NonSpaceConcat(parts[0], Concat(parts[1..]));
    }
  }

  /**
   * The pieces of `s` between line-break characters. Unlike `str.splitlines`
   * it splits "\r\n" into two breaks and keeps a trailing empty piece; the two
   * differ only in empty pieces, which every caller in the model drops.
   */
  function SplitAtLineBreaks(s: string): (r: seq<string>)
    ensures |r| >= 1
  {
    if s == [] then [""]
    else
      var rest := SplitAtLineBreaks(s[1..]);
      if IsLineBreak(s[0]) then [""] + rest
      else [[s[0]] + rest[0]] + rest[1..]
  }

  /** `[l.strip() for l in pieces if l.strip()]`. */
  function StripNonBlank(pieces: seq<string>): (r: seq<string>)
    ensures |r| <= |pieces|
  {
    if pieces == [] then []
    else
      var l := Strip(pieces[0]);
      var rest := StripNonBlank(pieces[1..]);
      if l != "" then [l] + rest else rest
  }

  /** `[l.strip() for l in s.splitlines() if l.strip()]`: the non-blank lines of `s`, stripped. */
  function NonBlankLines(s: string): seq<string> {
    StripNonBlank(SplitAtLineBreaks(s))
  }

  lemma {:induction false} SplitPiecesSingleLine(s: string)
    ensures forall i :: 0 <= i < |SplitAtLineBreaks(s)| ==> SingleLine(SplitAtLineBreaks(s)[i])
  {
    if s != [] {
      SplitPiecesSingleLine(s[1..]);
      var rest := SplitAtLineBreaks(s[1..]);
      if !IsLineBreak(s[0]) {
        var first := [s[0]] + rest[0];
        assert forall k :: 0 <= k < |rest[0]| ==> first[k + 1] == rest[0][k];
        assert SingleLine(first);
      }
    }
  }

  lemma {:induction false} StripNonBlankShape(pieces: seq<string>)
    requires forall i :: 0 <= i < |pieces| ==> SingleLine(pieces[i])
    ensures forall i :: 0 <= i < |StripNonBlank(pieces)| ==>
              var l := StripNonBlank(pieces)[i]; l != "" && Stripped(l) && SingleLine(l)
  {
    if pieces != [] {
      var rest := pieces[1..];
      var l, kept := Strip(pieces[0]), StripNonBlank(rest);
      assert forall i :: 0 <= i < |kept| ==> kept[i] != "" && Stripped(kept[i]) && SingleLine(kept[i]) by {
        assert forall i :: 0 <= i < |rest| ==> SingleLine(rest[i]) by {
          forall i | 0 <= i < |rest| ensures SingleLine(rest[i]) {
            assert rest[i] == pieces[i + 1];
          }
        }
        StripNonBlankShape(rest);
      }
      assert Stripped(l) && SingleLine(l) by {
        StripSingleLine(pieces[0]);
      }
      assert StripNonBlank(pieces) == if l != "" then [l] + kept else kept;
    }
  }

  /** Every line `NonBlankLines` yields is non-empty, stripped and free of line breaks. */
  lemma {:induction false} NonBlankLinesShape(s: string)
    ensures forall i :: 0 <= i < |NonBlankLines(s)| ==>
              var l := NonBlankLines(s)[i]; l != "" && Stripped(l) && SingleLine(l)
  {
    SplitPiecesSingleLine(s);
    StripNonBlankShape(SplitAtLineBreaks(s));
  }

  /** Every piece is whitespace only. */
  predicate AllBlank(pieces: seq<string>) {
    pieces == [] || (Blank(pieces[0]) && AllBlank(pieces[1..]))
  }

  lemma {:induction false} AllBlankCons(p: string, rest: seq<string>)
    ensures AllBlank([p] + rest) <==> Blank(p) && AllBlank(rest)
  {
    assert ([p] + rest)[1..] == rest;
  }

  lemma {:induction false} BlankCons(c: char, s: string)
    ensures Blank([c] + s) <==> IsSpace(c) && Blank(s)
  {
    var cs := [c] + s;
    assert cs[0] == c;
    assert forall i :: 0 <= i < |s| ==> cs[i + 1] == s[i];
  }

  lemma {:induction false} SplitBlankPieces(s: string)
    ensures AllBlank(SplitAtLineBreaks(s)) <==> Blank(s)
  {
    if s == [] {
      assert SplitAtLineBreaks(s) == [""];
    } else {
      SplitBlankPieces(s[1..]);
      var rest := SplitAtLineBreaks(s[1..]);
      assert s == [s[0]] + s[1..];
      BlankCons(s[0], s[1..]);
      if IsLineBreak(s[0]) {
        AllBlankCons("", rest);
      } else {
        assert rest == [rest[0]] + rest[1..];
        AllBlankCons(rest[0], rest[1..]);
        AllBlankCons([s[0]] + rest[0], rest[1..]);
        BlankCons(s[0], rest[0]);
      }
    }
  }

  lemma {:induction false} StripNonBlankEmpty(pieces: seq<string>)
    ensures StripNonBlank(pieces) == [] <==> AllBlank(pieces)
  {
    if pieces != [] {
      StripNonBlankEmpty(pieces[1..]);
      StripEmpty(pieces[0]);
    }
  }

  /** A text has no non-blank line iff it is all whitespace. */
  lemma {:induction false} NonBlankLinesEmpty(s: string)
    ensures NonBlankLines(s) == [] <==> Blank(s)
  {
    SplitBlankPieces(s);
    StripNonBlankEmpty(SplitAtLineBreaks(s));
  }

  lemma {:induction false} SplitKeepsNonSpace(s: string)
    ensures NonSpace(Concat(SplitAtLineBreaks(s))) == NonSpace(s)
  {
    if s != [] {
      SplitKeepsNonSpace(s[1..]);
      NonSpaceHead(s);
      var rest := SplitAtLineBreaks(s[1..]);
      if IsLineBreak(s[0]) {
        LineBreakIsSpace(s[0]);
        SplitAtBreakConcat(s);
      } else {
        SplitAtOtherConcat(s);
        NonSpaceConcat([s[0]], Concat(rest));
      }
    }
  }

  lemma NonSpaceHead(s: string)
    requires s != []
    ensures NonSpace(s) == NonSpace([s[0]]) + NonSpace(s[1..])
  {
    assert s == [s[0]] + s[1..];
    NonSpaceConcat([s[0]], s[1..]);
  }

  /** A line break opens a new piece, so the joined pieces lose it. */
  lemma SplitAtBreakConcat(s: string)
    requires s != [] && IsLineBreak(s[0])
    ensures Concat(SplitAtLineBreaks(s)) == Concat(SplitAtLineBreaks(s[1..]))
  {
    ConcatCons("", SplitAtLineBreaks(s[1..]));
  }

  /** Any other character joins the first piece, so the joined pieces keep it in front. */
  lemma SplitAtOtherConcat(s: string)
    requires s != [] && !IsLineBreak(s[0])
    ensures Concat(SplitAtLineBreaks(s)) == [s[0]] + Concat(SplitAtLineBreaks(s[1..]))
  {
    var rest := SplitAtLineBreaks(s[1..]);
    var head, tail := rest[0], rest[1..];
    assert SplitAtLineBreaks(s) == [[s[0]] + head] + tail;
    ConcatCons([s[0]] + head, tail);
    HeadTail(rest);
    ConcatCons(head, tail);
    AppendAssoc([s[0]], head, Concat(tail));
  }

  /** Appending is associative. */
  lemma AppendAssoc<T>(a: seq<T>, b: seq<T>, c: seq<T>)
    ensures (a + b) + c == a + (b + c)
  {
    assert |(a + b) + c| == |a + (b + c)|;
  }

  lemma {:induction false} ConcatCons(p: string, rest: seq<string>)
    ensures Concat([p] + rest) == p + Concat(rest)
  {
    assert ([p] + rest)[1..] == rest;
  }

  lemma {:induction false} ConcatOne(parts: seq<string>)
    requires |parts| == 1
    ensures Concat(parts) == parts[0]
  {
    assert parts[1..] == [];
    assert parts[0] + "" == parts[0];
  }

  /** Every line-break character is whitespace. */
  lemma {:induction false} LineBreakIsSpace(c: char)
    requires IsLineBreak(c)
    ensures IsSpace(c)
  {
  }

  lemma {:induction false} StripNonBlankKeepsNonSpace(pieces: seq<string>)
    ensures NonSpace(Concat(StripNonBlank(pieces))) == NonSpace(Concat(pieces))
  {
    if pieces != [] {
      StripNonBlankKeepsNonSpace(pieces[1..]);
      var l := Strip(pieces[0]);
      StripKeepsText(pieces[0]);
      StripEmpty(pieces[0]);
      var rest := StripNonBlank(pieces[1..]);
      NonSpaceConcat(pieces[0], Concat(pieces[1..]));
      if l != "" {
        assert ([l] + rest)[1..] == rest;
        NonSpaceConcat(l, Concat(rest));
      } else {
        NonSpaceBlank(pieces[0]);
      }
    }
  }

  // ------------------------- stripping a text keeps its non-blank lines

  /** The pieces of a text with one more character in front. */
  lemma {:induction false} SplitCons(d: char, x: string)
    ensures SplitAtLineBreaks([d] + x) ==
      if IsLineBreak(d) then [""] + SplitAtLineBreaks(x)
      else [[d] + SplitAtLineBreaks(x)[0]] + SplitAtLineBreaks(x)[1..]
  {
    assert ([d] + x)[0] == d && ([d] + x)[1..] == x;
  }

  /** The pieces of a text with one more character at the end. */
  lemma {:induction false} SplitSnoc(s: string, c: char)
    ensures SplitAtLineBreaks(s + [c]) ==
      if IsLineBreak(c) then SplitAtLineBreaks(s) + [""]
      else
        var p := SplitAtLineBreaks(s);
        p[..|p| - 1] + [p[|p| - 1] + [c]]
  {
    if s == [] {
      assert s + [c] == [c] + s;
      SplitCons(c, s);
    } else {
      var d, s1 := s[0], s[1..];
      assert s == [d] + s1;
      assert s + [c] == [d] + (s1 + [c]);
      SplitSnoc(s1, c);
      SplitCons(d, s1);
      SplitCons(d, s1 + [c]);
      var r := SplitAtLineBreaks(s1);
      if IsLineBreak(d) && !IsLineBreak(c) {
        SnocAfterBreak(r, c);
      } else if !IsLineBreak(d) && IsLineBreak(c) {
        BreakAfterPiece(d, r);
      } else if !IsLineBreak(d) {
        SnocInPiece(d, r, c);
      }
    }
  }

  lemma SnocAfterBreak(r: seq<string>, c: char)
    requires |r| >= 1
    ensures var p := [""] + r;
      [""] + (r[..|r| - 1] + [r[|r| - 1] + [c]]) == p[..|p| - 1] + [p[|p| - 1] + [c]]
  {
    var p := [""] + r;
    assert p[..|p| - 1] == [""] + r[..|r| - 1] && p[|p| - 1] == r[|r| - 1];
  }

  lemma BreakAfterPiece(d: char, r: seq<string>)
    requires |r| >= 1
    ensures [[d] + (r + [""])[0]] + (r + [""])[1..] == ([[d] + r[0]] + r[1..]) + [""]
  {
    assert (r + [""])[0] == r[0] && (r + [""])[1..] == r[1..] + [""];
  }

  lemma SnocInPiece(d: char, r: seq<string>, c: char)
    requires |r| >= 1
    ensures var r2 := r[..|r| - 1] + [r[|r| - 1] + [c]];
      var p := [[d] + r[0]] + r[1..];
      [[d] + r2[0]] + r2[1..] == p[..|p| - 1] + [p[|p| - 1] + [c]]
  {
    var r2 := r[..|r| - 1] + [r[|r| - 1] + [c]];
    var p := [[d] + r[0]] + r[1..];
    if |r| == 1 {
      assert r2 == [r[0] + [c]] && p == [[d] + r[0]];
      assert [d] + (r[0] + [c]) == ([d] + r[0]) + [c];
    } else {
      assert r2[0] == r[0] && r2[1..] == r[1..|r| - 1] + [r[|r| - 1] + [c]];
      assert p[..|p| - 1] == [[d] + r[0]] + r[1..|r| - 1] && p[|p| - 1] == r[|r| - 1];
    }
  }

  /** What `StripNonBlank` keeps of one piece: its stripped form, unless that is empty. */
  function KeptLine(p: string): seq<string> {
    if Strip(p) != "" then [Strip(p)] else []
  }

  /** `StripNonBlank` over a list with one more piece in front. */
  lemma {:induction false} StripNonBlankCons(p: string, rest: seq<string>)
    ensures StripNonBlank([p] + rest) == KeptLine(p) + StripNonBlank(rest)
  {
    assert ([p] + rest)[0] == p && ([p] + rest)[1..] == rest;
  }

  /** A non-empty list is its head in front of its tail. */
  lemma HeadTail<T>(xs: seq<T>)
    requires xs != []
    ensures xs == [xs[0]] + xs[1..]
  {
    assert |[xs[0]] + xs[1..]| == |xs|;
  }

  /** Appending at the end of a non-empty list leaves its head in front. */
  lemma HeadTailSnoc<T>(xs: seq<T>, y: T)
    requires xs != []
    ensures xs + [y] == [xs[0]] + (xs[1..] + [y])
  {
    HeadTail(xs);
  }

  /** `StripNonBlank` over a list with one more piece at the end. */
  lemma {:induction false} StripNonBlankSnoc(pieces: seq<string>, p: string)
    ensures StripNonBlank(pieces + [p]) == StripNonBlank(pieces) + KeptLine(p)
  {
    if pieces == [] {
      assert pieces + [p] == [p] + [];
      StripNonBlankCons(p, []);
    } else {
      var p0, rest := pieces[0], pieces[1..];
      var front, middle, back := KeptLine(p0), StripNonBlank(rest), KeptLine(p);
      assert StripNonBlank(pieces + [p]) == front + (middle + back) by {
        HeadTailSnoc(pieces, p);
        StripNonBlankCons(p0, rest + [p]);
        StripNonBlankSnoc(rest, p);
      }
      assert StripNonBlank(pieces) == front + middle by {
        HeadTail(pieces);
        StripNonBlankCons(p0, rest);
      }
      AppendAssoc(front, middle, back);
    }
  }

  /** Stripping ignores a leading whitespace character. */
  lemma {:induction false} StripSpaceCons(c: char, x: string)
    requires IsSpace(c)
    ensures Strip([c] + x) == Strip(x)
  {
    assert ([c] + x)[1..] == x;
  }

  lemma {:induction false} TrimStartSnoc(x: string, c: char)
    requires IsSpace(c)
    ensures TrimStart(x + [c]) == if TrimStart(x) == [] then [] else TrimStart(x) + [c]
  {
    if x == [] {
      assert TrimStart([c]) == [] by {
        assert [c][1..] == [];
      }
      assert x + [c] == [c];
    } else if IsSpace(x[0]) {
      assert TrimStart(x + [c]) == TrimStart(x[1..] + [c]) by {
        assert (x + [c])[0] == x[0] && (x + [c])[1..] == x[1..] + [c];
      }
      TrimStartSnoc(x[1..], c);
    } else {
      assert (x + [c])[0] == x[0];
    }
  }

  /** Stripping ignores a trailing whitespace character. */
  lemma {:induction false} StripSpaceSnoc(x: string, c: char)
    requires IsSpace(c)
    ensures Strip(x + [c]) == Strip(x)
  {
    TrimStartSnoc(x, c);
    var t := TrimStart(x);
    if t != [] {
      assert (t + [c])[..|t|] == t;
    }
  }

  /** A leading whitespace character changes no non-blank line. */
  lemma {:induction false} NonBlankLinesSpaceCons(c: char, x: string)
    requires IsSpace(c)
    ensures NonBlankLines([c] + x) == NonBlankLines(x)
  {
    SplitCons(c, x);
    var r := SplitAtLineBreaks(x);
    if IsLineBreak(c) {
      StripNonBlankCons("", r);
    } else {
      assert r == [r[0]] + r[1..];
      StripNonBlankCons([c] + r[0], r[1..]);
      StripNonBlankCons(r[0], r[1..]);
      StripSpaceCons(c, r[0]);
    }
  }

  /** A trailing whitespace character changes no non-blank line. */
  lemma {:induction false} NonBlankLinesSpaceSnoc(s: string, c: char)
    requires IsSpace(c)
    ensures NonBlankLines(s + [c]) == NonBlankLines(s)
  {
    SplitSnoc(s, c);
    var p := SplitAtLineBreaks(s);
    if IsLineBreak(c) {
      StripNonBlankSnoc(p, "");
    } else {
      var init, last := p[..|p| - 1], p[|p| - 1];
      assert p == init + [last];
      StripNonBlankSnoc(init, last);
      StripNonBlankSnoc(init, last + [c]);
      StripSpaceSnoc(last, c);
    }
  }

  lemma {:induction false} NonBlankLinesTrimStart(s: string)
    ensures NonBlankLines(TrimStart(s)) == NonBlankLines(s)
  {
    if s != [] && IsSpace(s[0]) {
      assert s == [s[0]] + s[1..];
      NonBlankLinesSpaceCons(s[0], s[1..]);
      NonBlankLinesTrimStart(s[1..]);
    }
  }

  lemma {:induction false} NonBlankLinesTrimEnd(s: string)
    ensures NonBlankLines(TrimEnd(s)) == NonBlankLines(s)
  {
    if s != [] && IsSpace(s[|s| - 1]) {
      var init := s[..|s| - 1];
      assert s == init + [s[|s| - 1]];
      NonBlankLinesSpaceSnoc(init, s[|s| - 1]);
      NonBlankLinesTrimEnd(init);
    }
  }

  /** Stripping a text first changes none of its non-blank lines. */
  lemma {:induction false} NonBlankLinesStrip(s: string)
    ensures NonBlankLines(Strip(s)) == NonBlankLines(s)
  {
    NonBlankLinesTrimStart(s);
    NonBlankLinesTrimEnd(TrimStart(s));
  }

  /** Splitting into stripped non-blank lines loses only whitespace. */
  lemma {:induction false} NonBlankLinesKeepText(s: string)
    ensures NonSpace(Concat(NonBlankLines(s))) == NonSpace(s)
  {
    SplitKeepsNonSpace(s);
    StripNonBlankKeepsNonSpace(SplitAtLineBreaks(s));
  }

  // ------------------------------------------------------------- words

  /** Python's `s.split()`: the maximal runs of non-whitespace characters, in order. */
  function Words(s: string): (r: seq<string>)
    ensures s != [] && !IsSpace(s[0]) ==> r != []
  {
    if s == [] then []
    else
      var rest := Words(s[1..]);
      if IsSpace(s[0]) then rest
      else if |s| > 1 && !IsSpace(s[1]) then [[s[0]] + rest[0]] + rest[1..]
      else [[s[0]]] + rest
  }

  /** A non-empty run of non-whitespace characters. */
  predicate IsWord(w: string) {
    w != [] && forall i :: 0 <= i < |w| ==> !IsSpace(w[i])
  }

  /** Every word is non-empty and free of whitespace. */
  lemma {:induction false} WordsAreWords(s: string)
    ensures forall i :: 0 <= i < |Words(s)| ==> IsWord(Words(s)[i])
  {
    if s != [] {
      WordsAreWords(s[1..]);
      var rest := Words(s[1..]);
      if !IsSpace(s[0]) && |s| > 1 && !IsSpace(s[1]) {
        var w := [s[0]] + rest[0];
        assert IsWord(rest[0]);
        assert forall k :: 1 <= k < |w| ==> w[k] == rest[0][k - 1];
        assert IsWord(w);
      }
    }
  }

  /** The words hold exactly the non-whitespace characters, in order. */
  lemma {:induction false} WordsKeepText(s: string)
    ensures Concat(Words(s)) == NonSpace(s)
  {
    if s != [] {
      WordsKeepText(s[1..]);
      var rest := Words(s[1..]);
      if !IsSpace(s[0]) {
        if |s| > 1 && !IsSpace(s[1]) {
          assert rest == [rest[0]] + rest[1..];
          ConcatCons(rest[0], rest[1..]);
          ConcatCons([s[0]] + rest[0], rest[1..]);
        } else {
          ConcatCons([s[0]], rest);
        }
      }
    }
  }

  /** An all-whitespace text has no words. */
  lemma {:induction false} WordsBlank(s: string)
    requires Blank(s)
    ensures Words(s) == []
  {
    if s != [] {
      WordsBlank(s[1..]);
    }
  }

  /** Leading whitespace does not change the words. */
  lemma {:induction false} WordsTrimStart(s: string)
    ensures Words(TrimStart(s)) == Words(s)
  {
    if s != [] && IsSpace(s[0]) {
      WordsTrimStart(s[1..]);
    }
  }

  /** The words of a text with one more character in front. */
  lemma {:induction false} WordsCons(c: char, s: string)
    ensures Words([c] + s) ==
      if IsSpace(c) then Words(s)
      else if s != [] && !IsSpace(s[0]) then [[c] + Words(s)[0]] + Words(s)[1..]
      else [[c]] + Words(s)
  {
    var x := [c] + s;
    assert x[0] == c && x[1..] == s;
    if s != [] {
      assert x[1] == s[0];
    }
  }

  /** Two texts that meet at whitespace have the words of the one followed by those of the other. */
  lemma {:induction false} WordsConcat(a: string, b: string)
    requires a == [] || b == [] || IsSpace(a[|a| - 1]) || IsSpace(b[0])
    ensures Words(a + b) == Words(a) + Words(b)
  {
    if a == [] {
      assert a + b == b;
    } else {
      var c, tail := a[0], a[1..];
      assert Words(a) == Words([c] + tail) by {
        assert a == [c] + tail;
      }
      assert Words(a + b) == Words([c] + (tail + b)) by {
        assert a + b == [c] + (tail + b);
      }
      if tail == [] {
        WordsHead(c, b);
      } else {
        WordsConcat(tail, b);
        WordsConsConcat(c, tail, b);
      }
    }
  }

  /** The case of `WordsConcat` where the first text is one character. */
  lemma WordsHead(c: char, b: string)
    requires b == [] || IsSpace(c) || IsSpace(b[0])
    ensures Words([c] + ([] + b)) == Words([c] + []) + Words(b)
  {
    assert [] + b == b;
    WordsCons(c, b);
    WordsCons(c, []);
  }

  /** The step of `WordsConcat`: one more character in front of both. */
  lemma WordsConsConcat(c: char, tail: string, b: string)
    requires tail != [] && Words(tail + b) == Words(tail) + Words(b)
    ensures Words([c] + (tail + b)) == Words([c] + tail) + Words(b)
  {
    var u, v := Words(tail), Words(b);
    WordsCons(c, tail + b);
    WordsCons(c, tail);
    assert (tail + b)[0] == tail[0];
    if !IsSpace(c) && !IsSpace(tail[0]) {
      MergeFirst(c, u, v);
    }
  }

  lemma MergeFirst(c: char, u: seq<string>, v: seq<string>)
    requires u != []
    ensures [[c] + (u + v)[0]] + (u + v)[1..] == ([[c] + u[0]] + u[1..]) + v
  {
    assert (u + v)[0] == u[0] && (u + v)[1..] == u[1..] + v;
  }

  /** Trailing whitespace does not change the words. */
  lemma {:induction false} WordsTrimEnd(s: string)
    ensures Words(TrimEnd(s)) == Words(s)
  {
    var r := TrimEnd(s);
    var trail := s[|r|..];
    TrimEndDropsBlank(s);
    assert s == r + trail;
    WordsConcat(r, trail);
    WordsBlank(trail);
  }

  /** Stripping does not change the words. */
  lemma {:induction false} WordsStrip(s: string)
    ensures Words(Strip(s)) == Words(s)
  {
    WordsTrimStart(s);
    WordsTrimEnd(TrimStart(s));
  }

  /** The words of each part, part after part. */
  function WordsOfAll(parts: seq<string>): seq<string> {
    if parts == [] then [] else Words(parts[0]) + WordsOfAll(parts[1..])
  }

  /** Joining with a single space never fuses two parts' words: they stay apart, in order. */
  lemma {:induction false} WordsOfJoin(parts: seq<string>)
    ensures Words(Join(parts, " ")) == WordsOfAll(parts)
  {
    if |parts| == 1 {
      assert parts[1..] == [];
    } else if |parts| > 1 {
      WordsOfJoin(parts[1..]);
      var rest := Join(parts[1..], " ");
      assert (" " + rest)[0] == ' ' && (" " + rest)[1..] == rest;
      assert parts[0] + " " + rest == parts[0] + (" " + rest);
      WordsConcat(parts[0], " " + rest);
    }
  }

  /** `x + y` loses trailing whitespace only within `y` when `y` starts a word. */
  lemma {:induction false} TrimEndAppend(x: string, y: string)
    requires y != [] && !IsSpace(y[0])
    ensures TrimEnd(x + y) == x + TrimEnd(y)
    decreases |y|
  {
    if IsSpace(y[|y| - 1]) {
      var init := y[..|y| - 1];
      assert (x + y)[..|x + y| - 1] == x + init;
      TrimEndAppend(x, init);
    }
  }

  /** `sep.join` of words whose first gains a leading character gains that character in front. */
  lemma {:induction false} JoinConsChar(c: char, w: seq<string>, sep: string)
    requires w != []
    ensures Join([[c] + w[0]] + w[1..], sep) == [c] + Join(w, sep)
  {
    var v := [[c] + w[0]] + w[1..];
    assert v[0] == [c] + w[0] && v[1..] == w[1..];
  }

  /** `sep.join` of a first part followed by at least one more. */
  lemma {:induction false} JoinCons(p: string, w: seq<string>, sep: string)
    requires w != []
    ensures Join([p] + w, sep) == p + sep + Join(w, sep)
  {
    assert ([p] + w)[1..] == w;
  }

  /** The first whitespace-delimited token of `s`: `s.split()[0]` for a non-blank `s`. */
  function FirstToken(s: string): (r: string)
    ensures forall i :: 0 <= i < |r| ==> !IsSpace(r[i])
  {
    var t := TrimStart(s);
    TakeNonSpace(t)
  }

  function TakeNonSpace(s: string): (r: string)
    ensures |r| <= |s| && r == s[..|r|]
    ensures forall i :: 0 <= i < |r| ==> !IsSpace(r[i])
    ensures |r| < |s| ==> IsSpace(s[|r|])
  {
    if s == [] || IsSpace(s[0]) then [] else [s[0]] + TakeNonSpace(s[1..])
  }

  /**
   * Python's `str.upper()` for one character, restricted to the characters
   * whose upper case is an ASCII letter: a..z, dotless i and long s.
   */
  function UpperChar(c: char): char {
    if 'a' <= c <= 'z' then (c as int - 32) as char
    else if c == '\U{131}' then 'I'
    else if c == '\U{17F}' then 'S'
    else c
  }

  /** `s.upper()` as far as comparison with ASCII upper-case words goes. */
  function Upper(s: string): (r: string)
    ensures |r| == |s|
  {
    if s == [] then [] else [UpperChar(s[0])] + Upper(s[1..])
  }

  /** Upper-casing maps each character on its own. */
  lemma {:induction false} UpperAt(s: string)
    ensures forall i :: 0 <= i < |s| ==> Upper(s)[i] == UpperChar(s[i])
  {
    if s != [] {
      UpperAt(s[1..]);
      assert forall i :: 1 <= i < |s| ==> Upper(s)[i] == Upper(s[1..])[i - 1];
    }
  }
}
