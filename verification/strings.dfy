/** The java.lang.String operations the bill code relies on: trim, toLowerCase,
    replace(CharSequence, CharSequence) and endsWith. */
module Strings {

  /** `String.trim` removes every leading and trailing character whose code is
      at most U+0020. */
  predicate IsBlank(c: char) {
    c <= ' '
  }

  function TrimStart(s: string): (r: string)
    ensures |r| <= |s| && r == s[|s| - |r|..]
    ensures r == [] || !IsBlank(r[0])
    ensures forall i :: 0 <= i < |s| - |r| ==> IsBlank(s[i])
    decreases |s|
  {
    if s != [] && IsBlank(s[0]) then TrimStart(s[1..]) else s
  }

  function TrimEnd(s: string): (r: string)
    ensures |r| <= |s| && r == s[..|r|]
    ensures r == [] || !IsBlank(r[|r| - 1])
    ensures forall i :: |r| <= i < |s| ==> IsBlank(s[i])
    decreases |s|
  {
    if s != [] && IsBlank(s[|s| - 1]) then TrimEnd(s[..|s| - 1]) else s
  }

  /** `String.trim`: a text no longer than `s` that neither starts nor ends
      with a blank. `TrimSlice` shows it is exactly `s` without its leading and
      trailing blanks. */
  function Trim(s: string): (r: string)
    ensures |r| <= |s|
    ensures r == [] || (!IsBlank(r[0]) && !IsBlank(r[|r| - 1]))
  {
    TrimEnd(TrimStart(s))
  }

  /** Trimming keeps the slice between the leading and the trailing blanks:
      everything before it and everything after it is blank. */
  lemma {:induction false} TrimSlice(s: string)
    ensures var k := |s| - |TrimStart(s)|; var r := Trim(s);
      k + |r| <= |s| && r == s[k..k + |r|]
      && (forall i :: 0 <= i < k ==> IsBlank(s[i]))
      && (forall i :: k + |r| <= i < |s| ==> IsBlank(s[i]))
  {
    var t := TrimStart(s);
    var k := |s| - |t|;
    var r := TrimEnd(t);
    assert t == s[k..];
    assert r == t[..|r|];
    assert t[..|r|] == s[k..k + |r|];
    forall i | k + |r| <= i < |s|
      ensures IsBlank(s[i])
    {
      assert s[i] == t[i - k];
    }
  }

  lemma TrimKeepsUnpadded(s: string)
    requires s == [] || (!IsBlank(s[0]) && !IsBlank(s[|s| - 1]))
    ensures Trim(s) == s
  {
  }

  lemma TrimIdempotent(s: string)
    ensures Trim(Trim(s)) == Trim(s)
  {
    TrimKeepsUnpadded(Trim(s));
  }

  /** `s.trim().isEmpty()` holds exactly when every character of `s` is blank. */
  lemma TrimEmptyIffBlank(s: string)
    ensures Trim(s) == [] <==> forall i :: 0 <= i < |s| ==> IsBlank(s[i])
  {
    var t := TrimStart(s);
    var k := |s| - |t|;
    if t != [] {
      assert s[k] == t[0];
    }
    assert forall j :: k <= j < |s| ==> s[j] == t[j - k];
  }

  /** Trimming a padded-free text followed by one space gives the text back. */
  lemma TrimDropsTrailingSpace(s: string)
    requires s != [] && !IsBlank(s[0]) && !IsBlank(s[|s| - 1])
    ensures Trim(s + " ") == s
  {
    assert TrimStart(s + " ") == s + " ";
    assert (s + " ")[..|s|] == s;
  }

  function LowerChar(c: char): char {
    if 'A' <= c <= 'Z' then (c as int + 32) as char else c
  }

  /** `String.toLowerCase`, for the ASCII letters. */
  function ToLower(s: string): (r: string)
    ensures |r| == |s|
    ensures forall i :: 0 <= i < |s| ==> r[i] == LowerChar(s[i])
  {
    seq(|s|, i requires 0 <= i < |s| => LowerChar(s[i]))
  }

  lemma ToLowerAppend(a: string, b: string)
    ensures ToLower(a + b) == ToLower(a) + ToLower(b)
  {
    assert forall i :: 0 <= i < |a + b| ==> ToLower(a + b)[i] == (ToLower(a) + ToLower(b))[i];
  }

  lemma ToLowerKeepsNonLetters(s: string)
    requires forall i :: 0 <= i < |s| ==> !('A' <= s[i] <= 'Z')
    ensures ToLower(s) == s
  {
  }

  /** No character of `s` is a capital A–Z. */
  predicate NoCapital(s: string) {
    forall i :: 0 <= i < |s| ==> !('A' <= s[i] <= 'Z')
  }

  lemma ToLowerNoCapital(s: string)
    ensures NoCapital(ToLower(s))
  {
  }

  lemma {:induction false} TrimNoCapital(s: string)
    requires NoCapital(s)
    ensures NoCapital(Trim(s))
  {
    var r := Trim(s);
    var k := |s| - |TrimStart(s)|;
    TrimSlice(s);
    var mid := s[k..k + |r|];
    assert r == mid;
    forall i | 0 <= i < |r|
      ensures !('A' <= r[i] <= 'Z')
    {
      assert mid[i] == s[k + i];
    }
  }

  lemma {:induction false} ReplaceNoCapital(s: string, target: string, replacement: string)
    requires target != [] && NoCapital(s) && NoCapital(replacement)
    ensures NoCapital(Replace(s, target, replacement))
  {
    var r := Replace(s, target, replacement);
    forall i | 0 <= i < |r|
      ensures !('A' <= r[i] <= 'Z')
    {
      if r[i] in s {
        var j :| 0 <= j < |s| && s[j] == r[i];
      } else {
        var j :| 0 <= j < |replacement| && replacement[j] == r[i];
      }
    }
  }

  /** Index of the first element equal to x (`String.indexOf`, `List.indexOf`),
      with |s| standing for "not found". */
  function IndexOf<T(==)>(s: seq<T>, x: T): (i: nat)
    ensures i <= |s|
    ensures i < |s| ==> s[i] == x
    ensures forall j :: 0 <= j < i ==> s[j] != x
  {
    if s == [] then 0 else if s[0] == x then 0 else 1 + IndexOf(s[1..], x)
  }

  /** `String.endsWith`: `s` is some text followed by `suffix`. */
  predicate EndsWith(s: string, suffix: string)
    ensures EndsWith(s, suffix) <==> exists p :: p + suffix == s
  {
    if |suffix| <= |s| && s[|s| - |suffix|..] == suffix then
      assert s[..|s| - |suffix|] + suffix == s;
      true
    else
      assert forall p :: p + suffix == s ==> s[|p|..] == suffix;
      false
  }

  /** `String.replace(target, replacement)`: every non-overlapping occurrence of
      `target`, found from left to right, is replaced; the output is not scanned
      again, so removing "rmb" from "rrmbmb" leaves "rmb". */
  function Replace(s: string, target: string, replacement: string): (r: string)
    requires target != []
    ensures (forall i :: 0 <= i < |s| ==> s[i] != target[0]) ==> r == s
    ensures replacement == [] ==> |r| <= |s|
    ensures forall i :: 0 <= i < |r| ==> r[i] in s || r[i] in replacement
    decreases |s|
  {
    if |s| < |target| then s
    else if s[..|target|] == target then replacement + Replace(s[|target|..], target, replacement)
    else [s[0]] + Replace(s[1..], target, replacement)
  }

  /** Characters that cannot start an occurrence of `target` pass through unchanged. */
  lemma {:induction false} ReplaceSkipsPrefix(p: string, t: string, target: string, replacement: string)
    requires target != []
    requires forall i :: 0 <= i < |p| ==> p[i] != target[0]
    ensures Replace(p + t, target, replacement) == p + Replace(t, target, replacement)
    decreases |p|
  {
    if p != [] {
      var s := p + t;
      if |s| < |target| {
        assert |t| < |target|;
      } else {
        assert s[..|target|][0] == p[0];
        assert s[1..] == p[1..] + t;
        ReplaceSkipsPrefix(p[1..], t, target, replacement);
      }
    } else {
      assert p + t == t;
    }
  }

  lemma ReplaceWhole(target: string, replacement: string)
    requires target != []
    ensures Replace(target, target, replacement) == replacement
  {
    assert target[|target|..] == [];
  }
}
