/** The directory-name prefixes of backstage.py: `remove_prefix`, `remove_all_prefix`,
    `get_prefix`, and the `startswith` chain that classifies a directory. */
module Prefixes {
  import opened Wrappers

  /** The four levels of the organisational hierarchy. */
  datatype Kind = Unit | Division | Vertical | Team

  /** The directory-name prefix that marks each level. */
  function KindPrefix(k: Kind): string {
    match k
    case Unit => "unit="
    case Division => "division="
    case Vertical => "vertical="
    case Team => "team="
  }

  /** The prefix without its '='; also the suffix word of the level's group names. */
  function KindWord(k: Kind): string {
    match k
    case Unit => "unit"
    case Division => "division"
    case Vertical => "vertical"
    case Team => "team"
  }

  /** The prefixes `remove_all_prefix` strips, in the order it strips them. */
  const AllPrefixes: seq<string> := ["unit=", "division=", "vertical=", "team="]

  predicate StartsWith(s: string, p: string) {
    |p| <= |s| && s[..|p|] == p
  }

  predicate EndsWith(s: string, t: string) {
    |t| <= |s| && s[|s| - |t|..] == t
  }

  /** `remove_prefix(text, prefix)`: drops one leading occurrence of `prefix`, if any. */
  function RemovePrefix(text: string, prefix: string): (r: string)
    ensures StartsWith(text, prefix) ==> text == prefix + r
    ensures !StartsWith(text, prefix) ==> r == text
  {
    if StartsWith(text, prefix) then text[|prefix|..] else text
  }

  /** Applying `remove_prefix` for each of `prefixes`, first to last. */
  function RemovePrefixes(text: string, prefixes: seq<string>): string {
    if prefixes == [] then text
    else RemovePrefix(RemovePrefixes(text, prefixes[..|prefixes| - 1]), prefixes[|prefixes| - 1])
  }

  /** What `remove_all_prefix` returns. */
  function RemoveAllPrefix(text: string): string {
    RemovePrefixes(text, AllPrefixes)
  }

  /** `remove_all_prefix(text)`: the loop over the prefix list. */
  method RemoveAllPrefixLoop(text: string) returns (finalText: string)
    ensures finalText == RemoveAllPrefix(text)
  {
    var prefix := AllPrefixes;
    finalText := text;
    for i := 0 to |prefix|
      invariant finalText == RemovePrefixes(text, prefix[..i])
    {
      assert prefix[..i + 1][..i] == prefix[..i];
      finalText := RemovePrefix(finalText, prefix[i]);
    }
    assert prefix[..|prefix|] == prefix;
  }

  /** `remove_all_prefix` strips "unit=", then "division=", then "vertical=", then "team=",
      each at most once. */
  lemma RemoveAllPrefixInOrder(text: string)
    ensures RemoveAllPrefix(text) ==
      RemovePrefix(RemovePrefix(RemovePrefix(RemovePrefix(text, "unit="), "division="), "vertical="), "team=")
  {
    var ps := AllPrefixes;
    assert ps[..1][..0] == [] && ps[..2][..1] == ps[..1] && ps[..3][..2] == ps[..2] && ps[..4][..3] == ps[..3];
    assert RemovePrefixes(text, ps[..1]) == RemovePrefix(text, "unit=");
    assert RemovePrefixes(text, ps[..2]) == RemovePrefix(RemovePrefixes(text, ps[..1]), "division=");
    assert RemovePrefixes(text, ps[..3]) == RemovePrefix(RemovePrefixes(text, ps[..2]), "vertical=");
    assert ps[..4] == ps;
  }

  lemma {:induction false} RemovePrefixesSuffix(text: string, prefixes: seq<string>)
    ensures |RemovePrefixes(text, prefixes)| <= |text|
    ensures RemovePrefixes(text, prefixes) == text[|text| - |RemovePrefixes(text, prefixes)|..]
  {
    if prefixes != [] {
      RemovePrefixesSuffix(text, prefixes[..|prefixes| - 1]);
    }
  }

  /** The display name is what is left of the directory name at its end. */
  lemma RemoveAllPrefixIsSuffix(text: string)
    ensures |RemoveAllPrefix(text)| <= |text|
    ensures RemoveAllPrefix(text) == text[|text| - |RemoveAllPrefix(text)|..]
  {
    RemovePrefixesSuffix(text, AllPrefixes);
  }

  /** `s.find(c)`: the index of the first `c`, or -1. */
  function Find(s: string, c: char): (i: int)
    ensures -1 <= i < |s|
    ensures 0 <= i ==> s[i] == c
  {
    if s == [] then -1
    else if s[0] == c then 0
    else
      var k := Find(s[1..], c);
      if k < 0 then -1 else k + 1
  }

  /** `find` returns the first occurrence, and -1 only when there is none. */
  lemma {:induction false} FindSpec(s: string, c: char)
    ensures 0 <= Find(s, c) ==> forall j :: 0 <= j < Find(s, c) ==> s[j] != c
    ensures Find(s, c) == -1 ==> forall j :: 0 <= j < |s| ==> s[j] != c
  {
    if s != [] && s[0] != c {
      FindSpec(s[1..], c);
      assert forall j :: 1 <= j < |s| ==> s[j] == s[1..][j - 1];
    }
  }

  /** `get_prefix(text)`: the text before the first '=', or all of it when there is none. */
  function GetPrefix(text: string): (r: string)
    ensures StartsWith(text, r)
    ensures r == text || text[|r|] == '='
  {
    if Find(text, '=') >= 0 then text[0..Find(text, '=')] else text
  }

  /** What `get_prefix` returns holds no '='. */
  lemma GetPrefixSpec(text: string)
    ensures '=' !in GetPrefix(text)
  {
    FindSpec(text, '=');
  }

  /** The `startswith` chain of `main`: which level a directory name belongs to, if any. */
  function Classify(path: string): Option<Kind> {
    if StartsWith(path, "unit=") then Some(Unit)
    else if StartsWith(path, "division=") then Some(Division)
    else if StartsWith(path, "vertical=") then Some(Vertical)
    else if StartsWith(path, "team=") then Some(Team)
    else None
  }

  /** A directory is of level `k` exactly when its name carries `k`'s prefix. */
  lemma ClassifyIff(path: string, k: Kind)
    ensures Classify(path) == Some(k) <==> StartsWith(path, KindPrefix(k))
  {
    if StartsWith(path, KindPrefix(k)) {
      assert path[0] == KindPrefix(k)[0];
    }
  }

  /** On a classified name, `get_prefix` recovers the level's word. */
  lemma GetPrefixOfClassified(path: string, k: Kind)
    requires Classify(path) == Some(k)
    ensures GetPrefix(path) == KindWord(k)
  {
    var w := KindWord(k);
    assert KindPrefix(k) == w + "=";
    assert path[|w|] == '=';
    assert forall j :: 0 <= j < |w| ==> path[j] == w[j] != '=';
    FindSpec(path, '=');
    assert Find(path, '=') == |w|;
  }
}
