/** The JavaScript string built-ins the core relies on: `String.prototype.trim`,
    `toLowerCase`, `indexOf` and `includes`. Strings are sequences of characters. */
module JsString {
  import opened Wrappers

  /** JavaScript truthiness of an optional string: present and non-empty. */
  predicate Truthy(s: Option<string>)
  {
    s.Some? && s.value != ""
  }

  /** The code points `trim` removes: ECMAScript WhiteSpace and LineTerminator. */
  predicate IsWhitespace(c: char)
  {
    var n := c as int;
    n == 0x09 || n == 0x0A || n == 0x0B || n == 0x0C || n == 0x0D || n == 0x20 ||
    n == 0xA0 || n == 0x1680 || (0x2000 <= n <= 0x200A) || n == 0x2028 || n == 0x2029 ||
    n == 0x202F || n == 0x205F || n == 0x3000 || n == 0xFEFF
  }

  /** Scans forward from `k` over whitespace: the index of the first
      character at or after `k` that is not whitespace, or `|s|`. */
  function SkipForward(s: string, k: nat): (r: nat)
    requires k <= |s|
    ensures k <= r <= |s|
    ensures forall j :: k <= j < r ==> IsWhitespace(s[j])
    ensures r < |s| ==> !IsWhitespace(s[r])
    decreases |s| - k
  {
    if k < |s| && IsWhitespace(s[k]) then SkipForward(s, k + 1) else k
  }

  /** Scans backward from `k` over whitespace: one past the last character
      before `k` that is not whitespace, or 0. */
  function SkipBackward(s: string, k: nat): (r: nat)
    requires k <= |s|
    ensures r <= k
    ensures forall j :: r <= j < k ==> IsWhitespace(s[j])
    ensures 0 < r ==> !IsWhitespace(s[r - 1])
  {
    if 0 < k && IsWhitespace(s[k - 1]) then SkipBackward(s, k - 1) else k
  }

  /** The backward scan never passes a character that is not whitespace. */
  lemma {:induction false} SkipBackwardStopsAbove(s: string, i: nat, k: nat)
    requires i < k <= |s| && !IsWhitespace(s[i])
    ensures i < SkipBackward(s, k)
    decreases k
  {
    if IsWhitespace(s[k - 1]) {
      SkipBackwardStopsAbove(s, i, k - 1);
    }
  }

  /** Where `trim` cuts `s`: everything before the first cut and after the
      second is whitespace, and what lies between starts and ends with a
      character that is not. */
  function TrimBounds(s: string): (b: (nat, nat))
    ensures b.0 <= b.1 <= |s|
    ensures forall k :: 0 <= k < b.0 ==> IsWhitespace(s[k])
    ensures forall k :: b.1 <= k < |s| ==> IsWhitespace(s[k])
    ensures b.0 < b.1 ==> !IsWhitespace(s[b.0]) && !IsWhitespace(s[b.1 - 1])
  {
    var i := SkipForward(s, 0);
    if i == |s| then (i, i)
    else
      SkipBackwardStopsAbove(s, i, |s|);
      (i, SkipBackward(s, |s|))
  }

  /** `String.prototype.trim`: the part of `s` between the two cuts. */
  function Trim(s: string): (r: string)
    ensures |r| <= |s|
    ensures r != [] ==> !IsWhitespace(r[0]) && !IsWhitespace(r[|r| - 1])
  {
    s[TrimBounds(s).0..TrimBounds(s).1]
  }

  /** Any way of cutting `s` with the properties of `TrimBounds` keeps the
      same string: `trim` is determined by removing whitespace at both ends
      and nowhere else. */
  lemma TrimUnique(s: string, i: nat, j: nat)
    requires i <= j <= |s|
    requires forall k :: 0 <= k < i ==> IsWhitespace(s[k])
    requires forall k :: j <= k < |s| ==> IsWhitespace(s[k])
    requires i < j ==> !IsWhitespace(s[i]) && !IsWhitespace(s[j - 1])
    ensures Trim(s) == s[i..j]
  {
  }

  /** A string with no whitespace at either end is left as it is. */
  lemma TrimKeepsTrimmed(s: string)
    requires s == [] || (!IsWhitespace(s[0]) && !IsWhitespace(s[|s| - 1]))
    ensures Trim(s) == s
  {
    TrimUnique(s, 0, |s|);
  }

  /** Trimming twice is trimming once. */
  lemma TrimIdempotent(s: string)
    ensures Trim(Trim(s)) == Trim(s)
  {
    TrimKeepsTrimmed(Trim(s));
  }

  /** The ASCII case mapping of one character; everything else is kept. */
  function LowerChar(c: char): (r: char)
    ensures !('A' <= r <= 'Z')
    ensures !('A' <= c <= 'Z') ==> r == c
    ensures 'A' <= c <= 'Z' ==> r as int == c as int + 32
  {
    if 'A' <= c <= 'Z' then (c as int + 32) as char else c
  }

  /** `toLowerCase`: each character is mapped on its own, so the length and
      every position are kept. */
  function ToLower(s: string): (r: string)
    ensures |r| == |s|
    ensures forall i :: 0 <= i < |s| ==> r[i] == LowerChar(s[i])
  {
    seq(|s|, i requires 0 <= i < |s| => LowerChar(s[i]))
  }

  /** Lower-casing what is already lower case changes nothing. */
  lemma ToLowerIdempotent(s: string)
    ensures ToLower(ToLower(s)) == ToLower(s)
  {
    var t := ToLower(s);
    forall i | 0 <= i < |s|
      ensures ToLower(t)[i] == t[i]
    {
      assert !('A' <= t[i] <= 'Z');
    }
  }

  /** `t` occurs in `s` starting at position `k`. */
  predicate OccursAt(s: string, t: string, k: nat)
  {
    k + |t| <= |s| && s[k..k + |t|] == t
  }

  /** `t` occurs somewhere in `s`. */
  ghost predicate Occurs(s: string, t: string)
  {
    exists k: nat :: OccursAt(s, t, k)
  }

  /** `s.indexOf(t, k)` for `k <= |s|`: the first position at or after `k`
      where `t` occurs, or -1 when there is none. */
  function IndexOfFrom(s: string, t: string, k: nat): (r: int)
    requires k <= |s|
    ensures r == -1 || (k <= r && OccursAt(s, t, r))
    ensures r == -1 ==> forall j: nat :: k <= j ==> !OccursAt(s, t, j)
    ensures r != -1 ==> forall j: nat :: k <= j < r ==> !OccursAt(s, t, j)
    decreases |s| - k
  {
    if k + |t| > |s| then -1
    else if s[k..k + |t|] == t then k
    else IndexOfFrom(s, t, k + 1)
  }

  /** `s.indexOf(t)`. */
  function IndexOf(s: string, t: string): (r: int)
    ensures r == -1 <==> forall j: nat :: !OccursAt(s, t, j)
    ensures r != -1 ==> 0 <= r && OccursAt(s, t, r) && forall j: nat :: j < r ==> !OccursAt(s, t, j)
  {
    IndexOfFrom(s, t, 0)
  }

  /** `s.includes(t)`. */
  predicate Includes(s: string, t: string)
  {
    IndexOf(s, t) != -1
  }

  lemma IncludesIff(s: string, t: string)
    ensures Includes(s, t) <==> Occurs(s, t)
  {
  }

  lemma IncludesEmpty(s: string)
    ensures Includes(s, "")
  {
    assert OccursAt(s, "", 0);
  }
}
