/** `TextCleaner` of invoice_qc/utils.py: whitespace normalisation and first-match field lookup. */
module TextCleaner {
  import opened Optional
  import opened Strings
  import opened Regex

  /** Every whitespace character is a plain space and no two whitespace characters are adjacent. */
  predicate SpacesNormalised(s: string) {
    (forall i :: 0 <= i < |s| && IsSpace(s[i]) ==> s[i] == ' ') &&
    (forall i :: 0 <= i < |s| - 1 ==> !IsSpace(s[i]) || !IsSpace(s[i + 1]))
  }

  /** `re.sub(r'\s+', ' ', s)`: each maximal run of whitespace becomes one space. */
  function CollapseSpaces(s: string): (r: string)
    ensures r == [] <==> s == []
    ensures r != [] ==> (IsSpace(r[0]) <==> IsSpace(s[0]))
    decreases |s|
  {
    if s == [] then []
    else if IsSpace(s[0]) then [' '] + CollapseSpaces(TrimStart(s[1..]))
    else [s[0]] + CollapseSpaces(s[1..])
  }

  /** After collapsing, no whitespace other than a single space remains. */
  lemma {:induction false} CollapseNormalised(s: string)
    ensures SpacesNormalised(CollapseSpaces(s))
    decreases |s|
  {
    if s != [] {
      if IsSpace(s[0]) {
        var t := TrimStart(s[1..]);
        CollapseNormalised(t);
        ConsNormalised(' ', CollapseSpaces(t));
      } else {
        CollapseNormalised(s[1..]);
        ConsNormalised(s[0], CollapseSpaces(s[1..]));
      }
    }
  }

  /** Prefixing one character keeps a string normalised unless it starts a second space. */
  lemma {:induction false} ConsNormalised(head: char, c: string)
    requires SpacesNormalised(c)
    requires IsSpace(head) ==> head == ' ' && (c != [] ==> !IsSpace(c[0]))
    ensures SpacesNormalised([head] + c)
  {
    var r := [head] + c;
    forall i | 0 <= i < |r| && IsSpace(r[i]) ensures r[i] == ' ' {
      if i > 0 { assert r[i] == c[i - 1]; }
    }
    forall i | 0 <= i < |r| - 1 ensures !IsSpace(r[i]) || !IsSpace(r[i + 1]) {
      if i > 0 { assert r[i] == c[i - 1] && r[i + 1] == c[i]; }
    }
  }

  /** Collapsing whitespace runs keeps every other character, in order. */
  lemma {:induction false} CollapseKeepsNonSpace(s: string)
    ensures NonSpace(CollapseSpaces(s)) == NonSpace(s)
    decreases |s|, 1
  {
    if s != [] {
      if IsSpace(s[0]) {
        CollapseSpaceRun(s);
      } else {
        var rest := s[1..];
        CollapseKeepsNonSpace(rest);
        assert CollapseSpaces(s) == [s[0]] + CollapseSpaces(rest);
        NonSpaceConcat([s[0]], CollapseSpaces(rest));
        assert s == [s[0]] + rest;
        NonSpaceConcat([s[0]], rest);
      }
    }
  }

  /** The whitespace-run case of `CollapseKeepsNonSpace`. */
  lemma {:induction false} CollapseSpaceRun(s: string)
    requires s != [] && IsSpace(s[0])
    ensures NonSpace(CollapseSpaces(s)) == NonSpace(s)
    decreases |s|, 0
  {
    var rest := s[1..];
    var t := TrimStart(rest);
    assert NonSpace(s) == NonSpace(rest) by {
      assert s == [s[0]] + rest;
      NonSpaceSpaceCons(s[0], rest);
    }
    TrimStartKeepsNonSpace(rest);
    assert NonSpace(CollapseSpaces(s)) == NonSpace(CollapseSpaces(t)) by {
      assert CollapseSpaces(s) == [' '] + CollapseSpaces(t);
      NonSpaceSpaceCons(' ', CollapseSpaces(t));
    }
    CollapseKeepsNonSpace(t);
  }

  /** A slice of a normalised string is normalised. */
  lemma {:induction false} SliceNormalised(s: string, lo: nat, hi: nat)
    requires lo <= hi <= |s| && SpacesNormalised(s)
    ensures SpacesNormalised(s[lo..hi])
  {
    var r := s[lo..hi];
    forall i | 0 <= i < |r| - 1 ensures !IsSpace(r[i]) || !IsSpace(r[i + 1]) {
      assert r[i] == s[lo + i] && r[i + 1] == s[lo + i + 1];
    }
  }

  /** Stripping a normalised string keeps it normalised. */
  lemma {:induction false} StripNormalised(c: string)
    requires SpacesNormalised(c)
    ensures SpacesNormalised(Strip(c))
  {
    var t := TrimStart(c);
    var r := Strip(c);
    assert r == t[..|r|];
    assert r == c[|c| - |t|..|c| - |t| + |r|];
    SliceNormalised(c, |c| - |t|, |c| - |t| + |r|);
  }

  /**
   * `TextCleaner.clean_text`: "" for empty input; otherwise whitespace runs
   * collapsed to one space and the ends stripped.
   */
  function CleanText(text: string): (r: string)
    ensures text == "" ==> r == ""
    ensures Stripped(r)
    ensures SpacesNormalised(r)
    ensures NonSpace(r) == NonSpace(text)
  {
    if text == "" then ""
    else
      var c := CollapseSpaces(text);
      CollapseNormalised(text);
      StripNormalised(c);
      StripKeepsText(c);
      CollapseKeepsNonSpace(text);
      Strip(c)
  }

  /**
   * `clean_text` is `" ".join(text.split())`: the text's words, in order,
   * separated by exactly one space.
   */
  lemma {:induction false} CleanTextWords(text: string)
    ensures CleanText(text) == Join(Words(text), " ")
  {
    if text != "" {
      if IsSpace(text[0]) {
        var u := TrimStart(text[1..]);
        WordsTrimStart(text[1..]);
        assert CollapseSpaces(text) == [' '] + CollapseSpaces(u);
        assert TrimStart([' '] + CollapseSpaces(u)) == CollapseSpaces(u) by {
          assert ([' '] + CollapseSpaces(u))[1..] == CollapseSpaces(u);
        }
        if u != [] {
          CollapseTrimEnd(u);
        }
      } else {
        CollapseTrimEnd(text);
      }
    }
  }

  /** For a text that starts with a word, collapsing and dropping the trailing space joins its words. */
  lemma {:induction false} CollapseTrimEnd(t: string)
    requires t != [] && !IsSpace(t[0])
    ensures TrimEnd(CollapseSpaces(t)) == Join(Words(t), " ")
    decreases |t|, 0
  {
    var c, s := t[0], t[1..];
    assert CollapseSpaces(t) == [c] + CollapseSpaces(s) by {
      assert t == [c] + s;
    }
    assert Words(t) == Words([c] + s) by {
      assert t == [c] + s;
    }
    if s == [] {
      assert Words([c] + s) == [[c]] by {
        WordsCons(c, s);
      }
    } else if !IsSpace(s[0]) {
      var w := Words(s);
      assert Words([c] + s) == [[c] + w[0]] + w[1..] by {
        WordsCons(c, s);
      }
      assert TrimEnd([c] + CollapseSpaces(s)) == [c] + Join(w, " ") by {
        CollapseTrimEnd(s);
        TrimEndAppend([c], CollapseSpaces(s));
      }
      JoinConsChar(c, w, " ");
    } else {
      var u := TrimStart(s[1..]);
      assert Words([c] + s) == [[c]] + Words(u) by {
        WordsCons(c, s);
        SpaceRunFacts(s);
      }
      assert [c] + CollapseSpaces(s) == [c, ' '] + CollapseSpaces(u) by {
        SpaceRunFacts(s);
      }
      CollapseSpaceGap(c, u);
    }
  }

  /** A whitespace run collapses to one space and separates no words. */
  lemma {:induction false} SpaceRunFacts(s: string)
    requires s != [] && IsSpace(s[0])
    ensures CollapseSpaces(s) == [' '] + CollapseSpaces(TrimStart(s[1..]))
    ensures Words(s) == Words(TrimStart(s[1..]))
  {
    WordsTrimStart(s[1..]);
  }

  /** A one-character word, one space, then the collapsed rest of the text. */
  lemma {:induction false} CollapseSpaceGap(c: char, u: string)
    requires !IsSpace(c) && (u == [] || !IsSpace(u[0]))
    ensures TrimEnd([c, ' '] + CollapseSpaces(u)) == Join([[c]] + Words(u), " ")
    decreases |u|, 1
  {
    if u == [] {
      assert TrimEnd([c, ' '] + CollapseSpaces(u)) == [c] by {
        assert [c, ' '] + CollapseSpaces(u) == [c, ' '];
        assert [c, ' '][..1] == [c];
      }
      assert Join([[c]] + Words(u), " ") == [c] by {
        assert [[c]] + Words(u) == [[c]];
      }
    } else {
      var cu, w := CollapseSpaces(u), Words(u);
      assert TrimEnd([c, ' '] + cu) == [c, ' '] + Join(w, " ") by {
        CollapseTrimEnd(u);
        TrimEndAppend([c, ' '], cu);
      }
      assert Join([[c]] + w, " ") == [c, ' '] + Join(w, " ") by {
        JoinCons([c], w, " ");
        assert [c] + " " + Join(w, " ") == [c, ' '] + Join(w, " ");
      }
    }
  }

  /** Index of the first pattern of `patterns` that `search` matches in `text`, or |patterns|. */
  function FirstMatch(search: Matcher, patterns: seq<string>, text: string): (k: nat)
    ensures k <= |patterns|
    ensures k < |patterns| ==> search(Source(patterns[k]), text).Some?
  {
    if patterns == [] then 0
    else if search(Source(patterns[0]), text).Some? then 0
    else 1 + FirstMatch(search, patterns[1..], text)
  }

  /** No pattern before the first matching one matches. */
  lemma {:induction false} FirstMatchIsFirst(search: Matcher, patterns: seq<string>, text: string)
    ensures forall j :: 0 <= j < FirstMatch(search, patterns, text) ==> search(Source(patterns[j]), text).None?
  {
    if patterns != [] && search(Source(patterns[0]), text).None? {
      FirstMatchIsFirst(search, patterns[1..], text);
      assert forall j :: 1 <= j < |patterns| ==> patterns[j] == patterns[1..][j - 1];
    }
  }

  lemma {:induction false} FirstMatchUnique(search: Matcher, patterns: seq<string>, text: string, k: nat)
    requires k <= |patterns|
    requires forall j :: 0 <= j < k ==> search(Source(patterns[j]), text).None?
    requires k < |patterns| ==> search(Source(patterns[k]), text).Some?
    ensures FirstMatch(search, patterns, text) == k
  {
    if patterns != [] && search(Source(patterns[0]), text).None? {
      FirstMatchUnique(search, patterns[1..], text, k - 1);
    }
  }

  /**
   * `TextCleaner.extract_field`: the cleaned group 1 of the first pattern that
   * matches, None when none does. The source fails when that match has no
   * group 1, so callers pass patterns whose first match captures one.
   */
  function ExtractField(search: Matcher, text: string, patterns: seq<string>): (r: Option<string>)
    requires var k := FirstMatch(search, patterns, text);
      k < |patterns| ==> Group(search(Source(patterns[k]), text).value, 1).Some?
    ensures r.None? <==> forall i :: 0 <= i < |patterns| ==> search(Source(patterns[i]), text).None?
    ensures r.Some? ==> Stripped(r.value) && SpacesNormalised(r.value)
  {
    var k := FirstMatch(search, patterns, text);
    FirstMatchIsFirst(search, patterns, text);
    if k < |patterns| then
      var value := Strip(GroupText(search(Source(patterns[k]), text).value, 1));
      Some(CleanText(value))
    else None
  }

  /** The value comes from the first pattern that matches: its group 1, stripped and cleaned. */
  lemma {:induction false} ExtractFieldUsesFirstMatch(search: Matcher, text: string, patterns: seq<string>, i: nat)
    requires i < |patterns| && search(Source(patterns[i]), text).Some?
    requires forall j :: 0 <= j < i ==> search(Source(patterns[j]), text).None?
    requires Group(search(Source(patterns[i]), text).value, 1).Some?
    ensures FirstMatch(search, patterns, text) == i
    ensures ExtractField(search, text, patterns) ==
      Some(CleanText(Strip(GroupText(search(Source(patterns[i]), text).value, 1))))
  {
    FirstMatchUnique(search, patterns, text, i);
  }
}
