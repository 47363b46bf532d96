/**
 The three JavaScript string operations the screens use: `trim`, `toLowerCase`
 and `includes`. Strings are sequences of characters.
 */
module Text {

  /** The characters `String.prototype.trim` strips: ECMAScript WhiteSpace and LineTerminator. */
  predicate IsWhitespace(c: char)
  {
    c == '\t' || c == '\n' || c == '\U{000B}' || c == '\U{000C}' || c == '\r' || c == ' ' ||
    c == '\U{00A0}' || c == '\U{1680}' || ('\U{2000}' <= c <= '\U{200A}') ||
    c == '\U{2028}' || c == '\U{2029}' || c == '\U{202F}' || c == '\U{205F}' ||
    c == '\U{3000}' || c == '\U{FEFF}'
  }

  /** Empty or made of whitespace only: the strings whose trim is falsy. */
  predicate IsBlank(s: string)
  {
    forall k :: 0 <= k < |s| ==> IsWhitespace(s[k])
  }

  /** The first position at or after `i` that does not hold whitespace, or `|s|`. */
  function SkipBlank(s: string, i: nat): (k: nat)
    requires i <= |s|
    ensures i <= k <= |s|
    ensures forall j :: i <= j < k ==> IsWhitespace(s[j])
    ensures k < |s| ==> !IsWhitespace(s[k])
    decreases |s| - i
  {
    if i < |s| && IsWhitespace(s[i]) then SkipBlank(s, i + 1) else i
  }

  /** The end of `s[lo..hi]` once its trailing whitespace is dropped. */
  function DropBlank(s: string, lo: nat, hi: nat): (k: nat)
    requires lo <= hi <= |s|
    ensures lo <= k <= hi
    ensures forall j :: k <= j < hi ==> IsWhitespace(s[j])
    ensures k > lo ==> !IsWhitespace(s[k - 1])
    decreases hi
  {
    if lo < hi && IsWhitespace(s[hi - 1]) then DropBlank(s, lo, hi - 1) else hi
  }

  /**
   `String.prototype.trim`: the stretch of `s` left after removing leading
   and trailing whitespace. It is empty exactly when `s` is blank.
   */
  function Trim(s: string): (r: string)
    ensures var i := SkipBlank(s, 0);
      OccursAt(s, r, i) && IsBlank(s[..i]) && IsBlank(s[i + |r|..])
    ensures r == [] <==> IsBlank(s)
    ensures |r| > 0 ==> !IsWhitespace(r[0]) && !IsWhitespace(r[|r| - 1])
  {
    var i := SkipBlank(s, 0);
    var e := DropBlank(s, i, |s|);
    BlankAround(s, i, e);
    EmptyIffBlank(s, i, e);
    s[i..e]
  }

  /** The prefix a scan skipped and the suffix it dropped are blank. */
  lemma BlankAround(s: string, i: nat, e: nat)
    requires i == SkipBlank(s, 0) && e == DropBlank(s, i, |s|)
    ensures IsBlank(s[..i]) && IsBlank(s[e..])
  {
    forall k | 0 <= k < i ensures IsWhitespace(s[..i][k]) {
    }
    forall k | 0 <= k < |s| - e ensures IsWhitespace(s[e..][k]) {
      assert s[e..][k] == s[e + k];
    }
  }

  /** Nothing is left between the two scans exactly when `s` is blank. */
  lemma EmptyIffBlank(s: string, i: nat, e: nat)
    requires i == SkipBlank(s, 0) && e == DropBlank(s, i, |s|)
    ensures i == e <==> IsBlank(s)
  {
    if i == e {
      forall k | 0 <= k < |s| ensures IsWhitespace(s[k]) {
      }
    } else {
      assert !IsWhitespace(s[i]);
    }
  }

  /** A trimmed string is its own trim. */
  lemma TrimIdempotent(s: string)
    ensures Trim(Trim(s)) == Trim(s)
  {
    var t := Trim(s);
    if |t| > 0 {
      assert SkipBlank(t, 0) == 0;
      assert DropBlank(t, 0, |t|) == |t|;
    }
  }

  /** `toLowerCase` on one character; only the ASCII letters are mapped. */
  function LowerChar(c: char): char
  {
    if 'A' <= c <= 'Z' then (c as int + 32) as char else c
  }

  /**
   `toLowerCase`: no ASCII capital remains, each one becomes its small
   letter, and every other character is kept in place.
   */
  function ToLower(s: string): (r: string)
    ensures |r| == |s|
    ensures forall k :: 0 <= k < |r| ==> !('A' <= r[k] <= 'Z')
    ensures forall k :: 0 <= k < |s| && 'A' <= s[k] <= 'Z' ==> r[k] as int == s[k] as int + 32
    ensures forall k :: 0 <= k < |s| && !('A' <= s[k] <= 'Z') ==> r[k] == s[k]
  {
    seq(|s|, k requires 0 <= k < |s| => LowerChar(s[k]))
  }

  /** Lower-casing twice is lower-casing once. */
  lemma ToLowerIdempotent(s: string)
    ensures ToLower(ToLower(s)) == ToLower(s)
  {
  }

  /** `q` occurs in `s` starting at position `k`. */
  predicate OccursAt(s: string, q: string, k: nat)
  {
    k + |q| <= |s| && s[k..k + |q|] == q
  }

  /** `String.prototype.includes`: `q` occurs somewhere in `s`. */
  function Includes(s: string, q: string): (r: bool)
    ensures r <==> exists k: nat :: OccursAt(s, q, k)
    decreases |s|
  {
    if OccursAt(s, q, 0) then
      true
    else if |s| == 0 then
      NowhereInEmpty(s, q);
      false
    else
      OccursPastHead(s, q);
      Includes(s[1..], q)
  }

  /** A non-empty query that is not at the start of the empty string is nowhere in it. */
  lemma NowhereInEmpty(s: string, q: string)
    requires |s| == 0 && !OccursAt(s, q, 0)
    ensures forall k: nat :: !OccursAt(s, q, k)
  {
  }

  /** When `q` is not at the head of `s`, it occurs in `s` exactly when it occurs in the tail. */
  lemma OccursPastHead(s: string, q: string)
    requires |s| > 0 && !OccursAt(s, q, 0)
    ensures (exists k: nat :: OccursAt(s, q, k)) <==> (exists k: nat :: OccursAt(s[1..], q, k))
  {
    if exists k: nat :: OccursAt(s[1..], q, k) {
      var k: nat :| OccursAt(s[1..], q, k);
      assert s[k + 1..k + 1 + |q|] == s[1..][k..k + |q|];
      assert OccursAt(s, q, k + 1);
    }
    if exists k: nat :: OccursAt(s, q, k) {
      var k: nat :| OccursAt(s, q, k);
      assert s[1..][k - 1..k - 1 + |q|] == s[k..k + |q|];
      assert OccursAt(s[1..], q, k - 1);
    }
  }

  /** Every string includes the empty string. */
  lemma IncludesEmpty(s: string)
    ensures Includes(s, "")
  {
    assert OccursAt(s, "", 0);
  }
}
