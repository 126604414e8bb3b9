/** The name normaliser `build_name`, shared by backstage.py and catalog.py: trim,
    lower-case, turn every separator into one '_' and every '&' into "and".

    Unicode decomposition and the dropping of combining marks (`strip_accents`) are not
    part of this model: on ASCII text they change nothing. `str.lower` is modelled on the
    letters A-Z only, which is exact on ASCII text. */
module Names {

  /** Python's `str.isspace`: the characters `str.strip()` removes. */
  predicate IsSpace(c: char) {
    ('\t' <= c <= '\r') || ('\U{1c}' <= c <= ' ') || c == '\U{85}' || c == '\U{a0}' ||
    c == '\U{1680}' || ('\U{2000}' <= c <= '\U{200a}') || c == '\U{2028}' || c == '\U{2029}' ||
    c == '\U{202f}' || c == '\U{205f}' || c == '\U{3000}'
  }

  /** The characters `build_name` maps to '_': the string "!@#$%^*()[]{};:,./<>?\\|`~-=+ "
      of backstage.py (the Python escape "\\|" keeps its backslash). In code-point order
      these are 29 characters: every printable ASCII character that is not a letter, a
      digit, '"', '&', '\'' or '_'. */
  predicate IsSeparator(c: char) {
    (' ' <= c <= '!') || ('#' <= c <= '%') || ('(' <= c <= '/') || (':' <= c <= '@') ||
    ('[' <= c <= '^') || c == '`' || ('{' <= c <= '~')
  }

  predicate IsUpper(c: char) {
    'A' <= c <= 'Z'
  }

  /** Number of occurrences of `c` in `s`. */
  function Count(s: string, c: char): nat {
    if s == [] then 0 else (if s[0] == c then 1 else 0) + Count(s[1..], c)
  }

  /** `s.lstrip()` */
  function TrimLeft(s: string): string {
    if s != [] && IsSpace(s[0]) then TrimLeft(s[1..]) else s
  }

  /** `s.rstrip()` */
  function TrimRight(s: string): string {
    if s != [] && IsSpace(s[|s| - 1]) then TrimRight(s[..|s| - 1]) else s
  }

  /** `s.strip()` */
  function Strip(s: string): string {
    TrimRight(TrimLeft(s))
  }

  /** `lstrip` drops the leading white space and nothing else. */
  lemma {:induction false} TrimLeftSpec(s: string)
    ensures |TrimLeft(s)| <= |s| && TrimLeft(s) == s[|s| - |TrimLeft(s)|..]
    ensures forall i :: 0 <= i < |s| - |TrimLeft(s)| ==> IsSpace(s[i])
    ensures TrimLeft(s) == [] || !IsSpace(TrimLeft(s)[0])
  {
    if s != [] && IsSpace(s[0]) {
      var t := TrimLeft(s[1..]);
      TrimLeftSpec(s[1..]);
      assert s[1..][|s| - 1 - |t|..] == s[|s| - |t|..];
      forall i | 0 < i < |s| - |t|
        ensures IsSpace(s[i])
      {
        assert s[i] == s[1..][i - 1];
      }
    }
  }

  /** `rstrip` drops the trailing white space and nothing else. */
  lemma {:induction false} TrimRightSpec(s: string)
    ensures |TrimRight(s)| <= |s| && TrimRight(s) == s[..|TrimRight(s)|]
    ensures forall i :: |TrimRight(s)| <= i < |s| ==> IsSpace(s[i])
    ensures TrimRight(s) == [] || !IsSpace(TrimRight(s)[|TrimRight(s)| - 1])
  {
    if s != [] && IsSpace(s[|s| - 1]) {
      TrimRightSpec(s[..|s| - 1]);
    }
  }

  /** `strip` keeps one contiguous slice of the text: white space lies before and after
      it, and it neither starts nor ends with white space. */
  lemma StripSpec(s: string)
    ensures exists lo, hi :: (0 <= lo <= hi <= |s| && Strip(s) == s[lo..hi] &&
      (forall i :: 0 <= i < lo ==> IsSpace(s[i])) &&
      (forall i :: hi <= i < |s| ==> IsSpace(s[i])))
    ensures Strip(s) == [] || (!IsSpace(Strip(s)[0]) && !IsSpace(Strip(s)[|Strip(s)| - 1]))
  {
    var t := TrimLeft(s);
    TrimLeftSpec(s);
    TrimRightSpec(t);
    var r := Strip(s);
    var lo := |s| - |t|;
    var hi := lo + |r|;
    assert t == s[lo..];
    assert r == t[..|r|];
    assert r == s[lo..hi];
    forall i | hi <= i < |s|
      ensures IsSpace(s[i])
    {
      assert s[i] == t[i - lo];
    }
    if r != [] {
      assert r[0] == t[0];
    }
  }

  function LowerChar(c: char): char {
    if IsUpper(c) then (c as int - 'A' as int + 'a' as int) as char else c
  }

  /** `s.lower()` on ASCII letters. */
  function Lower(s: string): string {
    seq(|s|, i requires 0 <= i < |s| => LowerChar(s[i]))
  }

  /** The first `translate`: each separator becomes one '_'. */
  function ReplaceSeparators(s: string): string {
    seq(|s|, i requires 0 <= i < |s| => if IsSeparator(s[i]) then '_' else s[i])
  }

  /** The second `translate`: each '&' becomes "and". */
  function ExpandAmpersands(s: string): string {
    if s == [] then [] else (if s[0] == '&' then "and" else [s[0]]) + ExpandAmpersands(s[1..])
  }

  /** What `build_name` writes for one character of the stripped text. */
  function TranslateChar(c: char): string {
    if IsSeparator(c) then "_" else if c == '&' then "and" else [LowerChar(c)]
  }

  function TranslateAll(s: string): string {
    if s == [] then [] else TranslateChar(s[0]) + TranslateAll(s[1..])
  }

  /** `build_name(name)`, one character of the stripped text at a time. That this is the
      chain `strip`, `lower`, `translate`, `translate` of backstage.py:114 is the lemma
      `BuildNameIsPipeline`. */
  function BuildName(name: string): string {
    TranslateAll(Strip(name))
  }

  lemma {:induction false} ExpandAmpersandsAppend(a: string, b: string)
    ensures ExpandAmpersands(a + b) == ExpandAmpersands(a) + ExpandAmpersands(b)
  {
    if a != [] {
      assert (a + b)[0] == a[0];
      assert (a + b)[1..] == a[1..] + b;
      ExpandAmpersandsAppend(a[1..], b);
    } else {
      assert a + b == b;
    }
  }

  lemma {:induction false} TranslateAllAppend(a: string, b: string)
    ensures TranslateAll(a + b) == TranslateAll(a) + TranslateAll(b)
  {
    if a != [] {
      assert (a + b)[0] == a[0];
      assert (a + b)[1..] == a[1..] + b;
      TranslateAllAppend(a[1..], b);
    } else {
      assert a + b == b;
    }
  }

  lemma {:induction false} PipelineIsCharwise(s: string)
    ensures ExpandAmpersands(ReplaceSeparators(Lower(s))) == TranslateAll(s)
  {
    if s != [] {
      var t := ReplaceSeparators(Lower(s));
      assert t[1..] == ReplaceSeparators(Lower(s[1..]));
      assert !IsSeparator('&');
      PipelineIsCharwise(s[1..]);
    }
  }

  /** `build_name` is the stripped text lower-cased, with each separator replaced by '_'
      and then each '&' by "and". */
  lemma BuildNameIsPipeline(name: string)
    ensures BuildName(name) == ExpandAmpersands(ReplaceSeparators(Lower(Strip(name))))
  {
    PipelineIsCharwise(Strip(name));
  }

  // ---------------------------------------------------------------------------
  // Properties of build_name

  lemma {:induction false} TranslateAllClean(s: string)
    ensures forall i :: 0 <= i < |TranslateAll(s)| ==>
      !IsSeparator(TranslateAll(s)[i]) && TranslateAll(s)[i] != '&' && !IsUpper(TranslateAll(s)[i])
  {
    if s != [] {
      TranslateAllClean(s[1..]);
    }
  }

  /** The output holds no separator, no '&' and no upper-case ASCII letter. */
  lemma BuildNameClean(name: string)
    ensures forall i :: 0 <= i < |BuildName(name)| ==>
      !IsSeparator(BuildName(name)[i]) && BuildName(name)[i] != '&' && !IsUpper(BuildName(name)[i])
  {
    TranslateAllClean(Strip(name));
  }

  lemma {:induction false} TranslateAllLength(s: string)
    ensures |TranslateAll(s)| == |s| + 2 * Count(s, '&')
  {
    if s != [] {
      TranslateAllLength(s[1..]);
    }
  }

  /** Separators are not collapsed: only each '&' lengthens the stripped text, by two. */
  lemma BuildNameLength(name: string)
    ensures |BuildName(name)| == |Strip(name)| + 2 * Count(Strip(name), '&')
  {
    TranslateAllLength(Strip(name));
  }

  lemma {:induction false} TranslateAllAt(s: string, i: nat)
    requires i < |s| && Count(s, '&') == 0
    ensures |TranslateAll(s)| == |s|
    ensures TranslateAll(s)[i] == if IsSeparator(s[i]) then '_' else LowerChar(s[i])
  {
    TranslateAllLength(s);
    if i > 0 {
      TranslateAllAt(s, i - 1);
      TranslateAllAt(s[1..], i - 1);
    }
  }

  /** Without an '&', character i of the output is '_' for a separator and the
      lower-cased character otherwise. */
  lemma BuildNameAt(name: string, i: nat)
    requires i < |Strip(name)| && Count(Strip(name), '&') == 0
    ensures |BuildName(name)| == |Strip(name)|
    ensures BuildName(name)[i] ==
      if IsSeparator(Strip(name)[i]) then '_' else LowerChar(Strip(name)[i])
  {
    TranslateAllAt(Strip(name), i);
  }

  /** A character that is not white space translates to text that neither starts nor
      ends with white space. */
  lemma TranslateCharEnds(c: char)
    requires !IsSpace(c)
    ensures TranslateChar(c) != []
    ensures !IsSpace(TranslateChar(c)[0]) && !IsSpace(TranslateChar(c)[|TranslateChar(c)| - 1])
  {
  }

  lemma {:induction false} TranslateAllEnds(s: string)
    requires s != [] && !IsSpace(s[0]) && !IsSpace(s[|s| - 1])
    ensures TranslateAll(s) != []
    ensures !IsSpace(TranslateAll(s)[0]) && !IsSpace(TranslateAll(s)[|TranslateAll(s)| - 1])
  {
    var n := |s|;
    var first, last := TranslateChar(s[0]), TranslateChar(s[n - 1]);
    TranslateCharEnds(s[0]);
    TranslateCharEnds(s[n - 1]);
    assert TranslateAll(s) == first + TranslateAll(s[1..]);
    assert s == s[..n - 1] + [s[n - 1]];
    TranslateAllAppend(s[..n - 1], [s[n - 1]]);
    assert TranslateAll([s[n - 1]]) == last;
    var r := TranslateAll(s);
    assert r[0] == first[0];
    assert r[|r| - 1] == last[|last| - 1];
  }

  /** Text with no white space at either end is its own `strip()`. */
  lemma StripNoop(s: string)
    requires s == [] || (!IsSpace(s[0]) && !IsSpace(s[|s| - 1]))
    ensures Strip(s) == s
  {
    assert TrimLeft(s) == s;
  }

  lemma {:induction false} ExpandNoop(s: string)
    requires forall i :: 0 <= i < |s| ==> s[i] != '&'
    ensures ExpandAmpersands(s) == s
  {
    if s != [] {
      ExpandNoop(s[1..]);
    }
  }

  /** Normalising an identifier again changes nothing. */
  lemma BuildNameIdempotent(name: string)
    ensures BuildName(BuildName(name)) == BuildName(name)
  {
    var y := BuildName(name);
    BuildNameIsPipeline(y);
    BuildNameClean(name);
    StripSpec(name);
    if Strip(name) != [] {
      TranslateAllEnds(Strip(name));
    }
    StripNoop(y);
    assert Lower(y) == y;
    assert ReplaceSeparators(y) == y;
    ExpandNoop(y);
  }

  /** Runs of separators are not collapsed: " / " between two words becomes "___". */
  lemma SeparatorRunKept(a: string, b: string)
    requires a != [] && b != [] && !IsSpace(a[0]) && !IsSpace(b[|b| - 1])
    ensures BuildName(a + " / " + b) == TranslateAll(a) + "___" + TranslateAll(b)
  {
    var s := a + " / " + b;
    assert s[0] == a[0] && s[|s| - 1] == b[|b| - 1];
    StripNoop(s);
    TranslateSeparatorRun(a, b);
  }

  lemma TranslateSeparatorRun(a: string, b: string)
    ensures TranslateAll(a + " / " + b) == TranslateAll(a) + "___" + TranslateAll(b)
  {
    var sep := " / ";
    TranslateAllAppend(a + sep, b);
    TranslateAllAppend(a, sep);
    SpacedSlash();
  }

  /** Each of the three characters of " / " is a separator. */
  lemma SpacedSlash()
    ensures TranslateAll(" / ") == "___"
  {
    var sep := " / ";
    assert sep[1..] == "/ " && sep[1..][1..] == " " && sep[1..][1..][1..] == [];
  }

  /** Each '&' becomes "and", and only its own place changes. */
  lemma AmpersandExpanded(a: string, b: string)
    requires a != [] && b != [] && !IsSpace(a[0]) && !IsSpace(b[|b| - 1])
    ensures BuildName(a + "&" + b) == TranslateAll(a) + "and" + TranslateAll(b)
  {
    var s := a + "&" + b;
    assert s[0] == a[0] && s[|s| - 1] == b[|b| - 1];
    StripNoop(s);
    TranslateAmpersandRun(a, b);
  }

  lemma TranslateAmpersandRun(a: string, b: string)
    ensures TranslateAll(a + "&" + b) == TranslateAll(a) + "and" + TranslateAll(b)
  {
    var amp := "&";
    TranslateAllAppend(a + amp, b);
    TranslateAllAppend(a, amp);
    assert TranslateAll(amp) == "and" + TranslateAll(amp[1..]);
  }
}
