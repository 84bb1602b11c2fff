/**
 * The JavaScript string operations the application relies on:
 * `trim`, `toLowerCase`, `includes`, `replace` with a string pattern,
 * and the truthiness of an optional string field.
 */
module Text {
  import opened Wrappers

  /** WhiteSpace and LineTerminator code points of ECMAScript 2023, sections 12.2 and 12.3;
      these are what `String.prototype.trim` removes. */
  predicate IsSpace(c: char) {
    c == '\t' || c == '\n' || c == '\U{000B}' || c == '\U{000C}' || c == '\r' || c == ' '
    || c == '\U{00A0}' || c == '\U{1680}' || ('\U{2000}' <= c <= '\U{200A}')
    || c == '\U{2028}' || c == '\U{2029}' || c == '\U{202F}' || c == '\U{205F}'
    || c == '\U{3000}' || c == '\U{FEFF}'
  }

  /** A field that JavaScript treats as truthy: present and not the empty string. */
  predicate Truthy(v: Option<string>) {
    v.Some? && v.value != ""
  }

  function TrimStart(s: string): (r: string)
    ensures |r| <= |s| && r == s[|s| - |r|..]
    ensures forall i :: 0 <= i < |s| - |r| ==> IsSpace(s[i])
    ensures r == [] || !IsSpace(r[0])
  {
    if s != [] && IsSpace(s[0]) then TrimStart(s[1..]) else s
  }

  function TrimEnd(s: string): (r: string)
    ensures |r| <= |s| && r == s[..|r|]
    ensures forall i :: |r| <= i < |s| ==> IsSpace(s[i])
    ensures r == [] || !IsSpace(r[|r| - 1])
  {
    if s != [] && IsSpace(s[|s| - 1]) then TrimEnd(s[..|s| - 1]) else s
  }

  /** `s.trim()` */
  function Trim(s: string): (r: string)
    ensures |r| <= |s|
    ensures IsTrimmed(r)
    ensures exists i :: CutFrom(s, r, i)
  {
    TrimCuts(s);
    TrimEnd(TrimStart(s))
  }

  /** Trimming the start and then the end cuts white space from both ends and nothing else. */
  lemma TrimCuts(s: string)
    ensures CutFrom(s, TrimEnd(TrimStart(s)), |s| - |TrimStart(s)|)
  {
    var t := TrimStart(s);
    CutOfCuts(s, t, TrimEnd(t), |s| - |t|);
  }

  /** A suffix cut followed by a prefix cut, both of white space only, is one cut. */
  lemma CutOfCuts(s: string, t: string, r: string, i: int)
    requires 0 <= i <= |s| && t == s[i..] && |r| <= |t| && r == t[..|r|]
    requires forall k :: 0 <= k < i ==> IsSpace(s[k])
    requires forall k :: |r| <= k < |t| ==> IsSpace(t[k])
    ensures CutFrom(s, r, i)
  {
    forall k | i + |r| <= k < |s|
      ensures IsSpace(s[k])
    {
      assert s[k] == t[k - i];
    }
  }

  /** `r` is the slice of `s` starting at `i`, and everything outside it is white space. */
  predicate CutFrom(s: string, r: string, i: int) {
    0 <= i <= |s| - |r| && r == s[i..i + |r|]
    && (forall k :: 0 <= k < i ==> IsSpace(s[k]))
    && (forall k :: i + |r| <= k < |s| ==> IsSpace(s[k]))
  }

  predicate IsTrimmed(s: string) {
    s == [] || (!IsSpace(s[0]) && !IsSpace(s[|s| - 1]))
  }

  /** `!s.trim()`: the string is empty after trimming. */
  predicate IsBlank(s: string) {
    Trim(s) == ""
  }

  lemma TrimOfTrimmed(s: string)
    requires IsTrimmed(s)
    ensures Trim(s) == s
  {
  }

  lemma TrimIdempotent(s: string)
    ensures Trim(Trim(s)) == Trim(s)
  {
    TrimOfTrimmed(Trim(s));
  }

  /** A string is blank exactly when every character in it is white space. */
  lemma BlankIffAllSpace(s: string)
    ensures IsBlank(s) <==> forall i :: 0 <= i < |s| ==> IsSpace(s[i])
  {
    var t := TrimStart(s);
    assert t != [] ==> t[0] == s[|s| - |t|];
    assert t != [] ==> TrimEnd(t) != [];
  }

  /** ASCII case mapping of `toLowerCase`. */
  function LowerChar(c: char): char {
    if 'A' <= c <= 'Z' then (c as int - 'A' as int + 'a' as int) as char else c
  }

  /** `s.toLowerCase()` */
  function ToLower(s: string): (r: string)
    ensures |r| == |s|
    ensures forall i :: 0 <= i < |s| ==> r[i] == LowerChar(s[i])
  {
    if s == [] then [] else [LowerChar(s[0])] + ToLower(s[1..])
  }

  lemma ToLowerIdempotent(s: string)
    ensures ToLower(ToLower(s)) == ToLower(s)
  {
  }

  lemma ToLowerConcat(a: string, b: string)
    ensures ToLower(a + b) == ToLower(a) + ToLower(b)
  {
  }

  lemma LowerCharSpace(c: char)
    ensures IsSpace(LowerChar(c)) == IsSpace(c)
  {
  }

  lemma {:induction false} TrimStartLower(s: string)
    ensures TrimStart(ToLower(s)) == ToLower(TrimStart(s))
  {
    if s != [] {
      var l := ToLower(s);
      assert l == [LowerChar(s[0])] + ToLower(s[1..]);
      LowerCharSpace(s[0]);
      if IsSpace(s[0]) {
        assert l[1..] == ToLower(s[1..]);
        TrimStartLower(s[1..]);
      }
    }
  }

  lemma {:induction false} TrimEndLower(s: string)
    ensures TrimEnd(ToLower(s)) == ToLower(TrimEnd(s))
  {
    var l := ToLower(s);
    if s == [] {
      assert l == [];
    } else {
      var n := |s| - 1;
      LowerCharSpace(s[n]);
      assert IsSpace(l[n]) == IsSpace(s[n]);
      if IsSpace(s[n]) {
        assert l[..n] == ToLower(s[..n]);
        assert TrimEnd(l) == TrimEnd(l[..n]);
        TrimEndLower(s[..n]);
      } else {
        assert TrimEnd(l) == l;
      }
    }
  }

  /** Trimming and lower-casing commute, so the order in which a schema applies
      its `trim` and `lowercase` setters does not matter. */
  lemma TrimLowerCommute(s: string)
    ensures Trim(ToLower(s)) == ToLower(Trim(s))
  {
    TrimStartLower(s);
    TrimEndLower(TrimStart(s));
  }

  predicate OccursAt(s: string, t: string, j: int) {
    0 <= j && j + |t| <= |s| && s[j..j + |t|] == t
  }

  /** First occurrence of `t` in `s` at or after position `k`. */
  function IndexFrom(s: string, t: string, k: nat): (r: Option<nat>)
    decreases |s| + 1 - k
    ensures r.Some? ==> k <= r.value && OccursAt(s, t, r.value)
    ensures r.Some? ==> forall j :: k <= j < r.value ==> !OccursAt(s, t, j)
    ensures r.None? ==> forall j :: k <= j ==> !OccursAt(s, t, j)
  {
    if k + |t| > |s| then None
    else if s[k..k + |t|] == t then Some(k)
    else IndexFrom(s, t, k + 1)
  }

  /** `s.indexOf(t)`, with `None` for -1. */
  function IndexOf(s: string, t: string): (r: Option<nat>)
    ensures r.Some? <==> exists j :: OccursAt(s, t, j)
    ensures r.Some? ==> OccursAt(s, t, r.value) && forall j :: 0 <= j < r.value ==> !OccursAt(s, t, j)
  {
    IndexFrom(s, t, 0)
  }

  /** `s.includes(t)` */
  predicate Includes(s: string, t: string) {
    IndexOf(s, t).Some?
  }

  /** Every string includes the empty string, so an empty search term keeps everything. */
  lemma IncludesEmpty(s: string)
    ensures Includes(s, "")
  {
    assert OccursAt(s, "", 0);
  }

  /** `s.replace(pat, rep)` with a string pattern: only the first occurrence is replaced. */
  function ReplaceFirst(s: string, pat: string, rep: string): (r: string)
    ensures !Includes(s, pat) ==> r == s
    ensures Includes(s, pat) ==> |r| == |s| - |pat| + |rep|
    ensures Includes(s, pat) ==>
      exists i :: OccursAt(s, pat, i) && (forall j :: 0 <= j < i ==> !OccursAt(s, pat, j))
                  && r == s[..i] + rep + s[i + |pat|..]
  {
    match IndexOf(s, pat)
    case None => s
    case Some(i) => s[..i] + rep + s[i + |pat|..]
  }

  /** Replacing the pattern by itself gives back the string. */
  lemma ReplaceWithItself(s: string, pat: string)
    ensures ReplaceFirst(s, pat, pat) == s
  {
    if Includes(s, pat) {
      var i := IndexOf(s, pat).value;
      assert s == s[..i] + s[i..i + |pat|] + s[i + |pat|..];
    }
  }

  lemma ReplacePrefix(pat: string, rest: string, rep: string)
    ensures ReplaceFirst(pat + rest, pat, rep) == rep + rest
  {
    var s := pat + rest;
    assert OccursAt(s, pat, 0);
    assert IndexOf(s, pat) == Some(0);
    assert s[|pat|..] == rest;
  }

  /** `s.toLowerCase().includes(term.toLowerCase())`: the search of the list views. */
  predicate MatchesSearch(s: string, term: string) {
    Includes(ToLower(s), ToLower(term))
  }

  /** An empty search term matches every string. */
  lemma EmptySearchMatches(s: string)
    ensures MatchesSearch(s, "")
  {
    IncludesEmpty(ToLower(s));
  }

  /** The search does not see case: lower-casing either side changes nothing. */
  lemma SearchIgnoresCase(s: string, term: string)
    ensures MatchesSearch(ToLower(s), term) == MatchesSearch(s, term)
    ensures MatchesSearch(s, ToLower(term)) == MatchesSearch(s, term)
  {
    ToLowerIdempotent(s);
    ToLowerIdempotent(term);
  }

  /** A string is found by its own text. */
  lemma SearchFindsItself(s: string)
    ensures MatchesSearch(s, s)
  {
    assert OccursAt(ToLower(s), ToLower(s), 0);
  }
}
