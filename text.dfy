/** Text helpers with PHP's meaning: `trim` with its default character list,
    and the emptiness tests used by validation rules and by `empty()`. */
module Text {
  import opened Common

  /** The characters PHP's `trim` strips by default: space, tab, line feed,
      carriage return, NUL and vertical tab. */
  predicate IsTrimmed(c: char)
  {
    c == ' ' || c == '\t' || c == '\n' || c == '\r' || c == '\0' || c == '\U{0B}'
  }

  /** `ltrim`: drops the leading run of trimmed characters. */
  function TrimLeft(s: string): (r: string)
    ensures |r| <= |s| && r == s[|s| - |r|..]
    ensures r == [] || !IsTrimmed(r[0])
    ensures forall i :: 0 <= i < |s| - |r| ==> IsTrimmed(s[i])
  {
    if s != [] && IsTrimmed(s[0]) then TrimLeft(s[1..]) else s
  }

  /** `rtrim`: drops the trailing run of trimmed characters. */
  function TrimRight(s: string): (r: string)
    ensures |r| <= |s| && r == s[..|r|]
    ensures r == [] || !IsTrimmed(r[|r| - 1])
    ensures forall i :: |r| <= i < |s| ==> IsTrimmed(s[i])
  {
    if s != [] && IsTrimmed(s[|s| - 1]) then TrimRight(s[..|s| - 1]) else s
  }

  /** `trim`: what remains of `s` once both runs of trimmed characters are
      dropped. It neither starts nor ends with a trimmed character, and it is
      empty only when `s` consists of trimmed characters alone. */
  function Trim(s: string): (r: string)
    ensures |r| <= |s|
    ensures r == [] || (!IsTrimmed(r[0]) && !IsTrimmed(r[|r| - 1]))
    ensures r == [] <==> forall i :: 0 <= i < |s| ==> IsTrimmed(s[i])
  {
    TrimLeft(TrimRight(s))
  }

  /** `s[start..end]` is what trimming keeps of `s`: only trimmed characters
      stand around it, and it is empty or begins and ends with an untrimmed
      character. */
  predicate Kept(s: string, start: nat, end: nat)
  {
    start <= end <= |s| &&
    (forall k :: 0 <= k < start ==> IsTrimmed(s[k])) &&
    (forall k :: end <= k < |s| ==> IsTrimmed(s[k])) &&
    (start == end || (!IsTrimmed(s[start]) && !IsTrimmed(s[end - 1])))
  }

  /** A part `r` taken from the back of a prefix `front` of `s`, with only
      trimmed characters after `front` and before `r`, is kept by trimming. */
  lemma KeptSuffixOfPrefix(s: string, front: string, r: string)
    requires |front| <= |s| && front == s[..|front|]
    requires forall i :: |front| <= i < |s| ==> IsTrimmed(s[i])
    requires |r| <= |front| && r == front[|front| - |r|..]
    requires forall i :: 0 <= i < |front| - |r| ==> IsTrimmed(front[i])
    requires r == [] || (!IsTrimmed(r[0]) && !IsTrimmed(r[|r| - 1]))
    ensures r == s[|front| - |r|..|front|]
    ensures Kept(s, |front| - |r|, |front|)
  {
    var start := |front| - |r|;
    forall k | 0 <= k < start ensures IsTrimmed(s[k]) {
      assert front[k] == s[k];
    }
    assert r == [] || (r[0] == s[start] && r[|r| - 1] == s[|front| - 1]);
  }

  /** `trim` keeps one contiguous part of `s` and strips only trimmed
      characters around it. */
  lemma TrimInfix(s: string) returns (start: nat, end: nat)
    ensures Kept(s, start, end) && Trim(s) == s[start..end]
  {
    var front := TrimRight(s);
    var r := TrimLeft(front);
    KeptSuffixOfPrefix(s, front, r);
    start, end := |front| - |r|, |front|;
  }

  /** A string without surrounding trimmed characters is left as it is, so
      trimming twice is trimming once. */
  lemma TrimIdempotent(s: string)
    ensures Trim(Trim(s)) == Trim(s)
  {
    var r := Trim(s);
    if r != [] {
      assert TrimRight(r) == r;
      assert TrimLeft(r) == r;
    }
  }

  /** A string that neither starts nor ends with a trimmed character is its own trim. */
  lemma TrimKeeps(s: string)
    requires s == [] || (!IsTrimmed(s[0]) && !IsTrimmed(s[|s| - 1]))
    ensures Trim(s) == s
  {
  }

  /** Appending a trimmed character does not change what `rtrim` keeps. */
  lemma {:induction false} TrimRightAppend(s: string, c: char)
    requires IsTrimmed(c)
    ensures TrimRight(s + [c]) == TrimRight(s)
  {
    assert (s + [c])[..|s|] == s;
  }

  /** Laravel's `required` rule on a string: it fails for a blank string. */
  predicate Filled(s: string)
  {
    Trim(s) != []
  }

  /** PHP's `empty()` on a nullable string: null, "" and "0" are empty. */
  predicate PhpEmpty(s: Option<string>)
  {
    s.None? || s.value == "" || s.value == "0"
  }
}
