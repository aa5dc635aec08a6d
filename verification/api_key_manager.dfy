/**
 * The Yelp API key check of FoodTinder/Utils/APIKeyManager.swift: the
 * `YelpAPIKey` entry of the app's Info dictionary is trimmed of whitespace
 * and newlines, and refused when missing, empty or still the `YOUR_...`
 * placeholder. The source stops the process (`fatalError`) on each refusal;
 * here each refusal is an error value.
 */
module APIKeyManager {
  import opened Wrappers

  /** An Info-dictionary value: only strings are usable as a key. */
  datatype InfoValue = InfoString(s: string) | InfoOther

  datatype KeyError = MissingKey | EmptyKey | PlaceholderKey

  const InfoKey: string := "YelpAPIKey"
  const Placeholder: string := "YOUR_"

  /**
   * `CharacterSet.whitespacesAndNewlines`: Unicode general category Z
   * (space, line and paragraph separators), tab, U+000A to U+000D and
   * U+0085.
   */
  predicate IsWhitespaceOrNewline(c: char) {
    || '\U{0009}' <= c <= '\U{000D}'
    || c == '\U{0020}'
    || c == '\U{0085}'
    || c == '\U{00A0}'
    || c == '\U{1680}'
    || '\U{2000}' <= c <= '\U{200A}'
    || c == '\U{2028}'
    || c == '\U{2029}'
    || c == '\U{202F}'
    || c == '\U{205F}'
    || c == '\U{3000}'
  }

  predicate AllWhitespace(s: string) {
    forall i :: 0 <= i < |s| ==> IsWhitespaceOrNewline(s[i])
  }

  /** `s` has no whitespace at either end. */
  predicate IsTrimmed(s: string) {
    s != [] ==> !IsWhitespaceOrNewline(s[0]) && !IsWhitespaceOrNewline(s[|s| - 1])
  }

  /** Drops the leading whitespace. */
  function TrimStart(s: string): (r: string)
    ensures |r| <= |s| && r == s[|s| - |r|..]
    ensures AllWhitespace(s[..|s| - |r|])
    ensures r != [] ==> !IsWhitespaceOrNewline(r[0])
  {
    if s != [] && IsWhitespaceOrNewline(s[0]) then
      var r := TrimStart(s[1..]);
      assert s[1..][..|s| - 1 - |r|] == s[1..|s| - |r|];
      r
    else s
  }

  /** Drops the trailing whitespace. */
  function TrimEnd(s: string): (r: string)
    ensures |r| <= |s| && r == s[..|r|]
    ensures AllWhitespace(s[|r|..])
    ensures r != [] ==> !IsWhitespaceOrNewline(r[|r| - 1])
  {
    if s != [] && IsWhitespaceOrNewline(s[|s| - 1]) then
      var r := TrimEnd(s[..|s| - 1]);
      assert s[|r|..] == s[..|s| - 1][|r|..] + [s[|s| - 1]];
      r
    else s
  }

  /**
   * `trimmingCharacters(in: .whitespacesAndNewlines)`: the middle slice
   * `s[i..j]` left when the whitespace at both ends is removed.
   */
  function Trim(s: string): (r: string)
    ensures IsTrimmed(r)
    ensures exists i, j :: 0 <= i <= j <= |s| && r == s[i..j] && AllWhitespace(s[..i]) && AllWhitespace(s[j..])
  {
    var t := TrimStart(s);
    var r := TrimEnd(t);
    var i := |s| - |t|;
    var j := i + |r|;
    assert r == s[i..j] && s[j..] == t[|r|..];
    assert r != [] ==> r[0] == t[0];
    r
  }

  /** Trimming twice is trimming once. */
  lemma {:induction false} TrimIdempotent(s: string)
    ensures Trim(Trim(s)) == Trim(s)
  {
    var r := Trim(s);
    TrimmedIsFixed(r);
  }

  /** A string with no whitespace at either end is its own trim. */
  lemma TrimmedIsFixed(s: string)
    requires IsTrimmed(s)
    ensures Trim(s) == s
  {
    assert TrimStart(s) == s;
    assert TrimEnd(s) == s;
  }

  predicate StartsWith(s: string, prefix: string) {
    |prefix| <= |s| && s[..|prefix|] == prefix
  }

  /**
   * `APIKeyManager.yelpAPIKey`: the trimmed `YelpAPIKey` entry, refused when
   * the entry is missing (or not a string, or there is no Info dictionary),
   * empty after trimming, or starting with the placeholder `YOUR_`.
   */
  function YelpAPIKey(info: Option<map<string, InfoValue>>): (r: Result<string, KeyError>)
    ensures r.Success? <==>
      && info.Some? && InfoKey in info.value && info.value[InfoKey].InfoString?
      && Trim(info.value[InfoKey].s) != []
      && !StartsWith(Trim(info.value[InfoKey].s), Placeholder)
    ensures r.Success? ==> r.value == Trim(info.value[InfoKey].s)
    ensures r.Success? ==> r.value != [] && IsTrimmed(r.value) && !StartsWith(r.value, Placeholder)
    ensures r == Failure(MissingKey) <==> info.None? || InfoKey !in info.value || !info.value[InfoKey].InfoString?
  {
    if info.None? || InfoKey !in info.value || !info.value[InfoKey].InfoString? then
      Failure(MissingKey)
    else
      var trimmedValue := Trim(info.value[InfoKey].s);
      if trimmedValue == [] then Failure(EmptyKey)
      else if StartsWith(trimmedValue, Placeholder) then Failure(PlaceholderKey)
      else Success(trimmedValue)
  }

  /** A string made only of whitespace and newlines trims to the empty string. */
  lemma TrimBlank(s: string)
    requires AllWhitespace(s)
    ensures Trim(s) == []
  {
    var i, j :| 0 <= i <= j <= |s| && Trim(s) == s[i..j];
  }

  lemma {:induction false} TrimStartDropsPadding(pad: string, rest: string)
    requires AllWhitespace(pad)
    requires rest != [] ==> !IsWhitespaceOrNewline(rest[0])
    ensures TrimStart(pad + rest) == rest
  {
    if pad != [] {
      assert (pad + rest)[1..] == pad[1..] + rest;
      TrimStartDropsPadding(pad[1..], rest);
    }
  }

  lemma {:induction false} TrimEndDropsPadding(rest: string, pad: string)
    requires AllWhitespace(pad)
    requires rest != [] ==> !IsWhitespaceOrNewline(rest[|rest| - 1])
    ensures TrimEnd(rest + pad) == rest
  {
    if pad != [] {
      var shorter := pad[..|pad| - 1];
      assert (rest + pad)[..|rest + pad| - 1] == rest + shorter;
      TrimEndDropsPadding(rest, shorter);
    }
  }

  /** Trimming removes exactly the whitespace padding around a trimmed core. */
  lemma TrimDropsPadding(before: string, core: string, after: string)
    requires AllWhitespace(before) && AllWhitespace(after) && IsTrimmed(core)
    ensures Trim(before + core + after) == core
  {
    if core == [] {
      assert before + core + after == before + after;
      TrimBlank(before + after);
    } else {
      assert before + core + after == before + (core + after);
      TrimStartDropsPadding(before, core + after);
      TrimEndDropsPadding(core, after);
    }
  }

  /** A value made only of whitespace and newlines is refused as empty. */
  lemma BlankValueIsEmptyKey(info: map<string, InfoValue>, v: string)
    requires InfoKey in info && info[InfoKey] == InfoString(v)
    requires AllWhitespace(v)
    ensures YelpAPIKey(Some(info)) == Failure(EmptyKey)
  {
    TrimBlank(v);
  }

  /** The placeholder is recognised even inside whitespace padding. */
  lemma PaddedPlaceholderIsRefused(info: map<string, InfoValue>, before: string, rest: string, after: string)
    requires AllWhitespace(before) && AllWhitespace(after)
    requires rest != [] ==> !IsWhitespaceOrNewline(rest[|rest| - 1])
    requires InfoKey in info && info[InfoKey] == InfoString(before + Placeholder + rest + after)
    ensures YelpAPIKey(Some(info)) == Failure(PlaceholderKey)
  {
    PaddedPlaceholderTrims(before, rest, after);
  }

  lemma PaddedPlaceholderTrims(before: string, rest: string, after: string)
    requires AllWhitespace(before) && AllWhitespace(after)
    requires rest != [] ==> !IsWhitespaceOrNewline(rest[|rest| - 1])
    ensures Trim(before + Placeholder + rest + after) == Placeholder + rest
    ensures StartsWith(Placeholder + rest, Placeholder)
  {
    var core := Placeholder + rest;
    assert IsTrimmed(core) by {
      assert core[0] == 'Y';
      assert rest == [] ==> core[|core| - 1] == '_';
    }
    assert before + Placeholder + rest + after == before + core + after;
    TrimDropsPadding(before, core, after);
    assert core[..|Placeholder|] == Placeholder;
  }
}
