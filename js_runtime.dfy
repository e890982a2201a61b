/**
 * The fragments of ECMAScript semantics that index.js relies on:
 * loosely typed values, truthiness, `String.prototype.trim` and
 * `String.prototype.toLowerCase`.
 */
module JsRuntime {

  /** A JavaScript value as far as the handlers inspect it. Numbers are integers here. */
  datatype JsValue =
    | Undefined
    | Null
    | Bool(b: bool)
    | Number(n: int)
    | Str(s: string)
    | Object

  /** ECMAScript ToBoolean: `undefined`, `null`, `false`, `0` and `""` are falsy. */
  predicate Truthy(v: JsValue) {
    match v
    case Undefined => false
    case Null => false
    case Bool(b) => b
    case Number(n) => n != 0
    case Str(s) => s != ""
    case Object => true
  }

  /** Property access on these values throws a TypeError. */
  predicate IsNullish(v: JsValue) {
    v.Undefined? || v.Null?
  }

  /** The characters `trim` removes: ECMAScript WhiteSpace (with every Zs space) and LineTerminator. */
  predicate IsWhiteSpace(c: char) {
    || ('\t' <= c <= '\r') || c == ' ' || c == '\U{00A0}' || c == '\U{1680}'
    || ('\U{2000}' <= c <= '\U{200A}')
    || c == '\U{2028}' || c == '\U{2029}' || c == '\U{202F}' || c == '\U{205F}'
    || c == '\U{3000}' || c == '\U{FEFF}'
  }

  predicate AllWhiteSpace(s: string) {
    forall i :: 0 <= i < |s| ==> IsWhiteSpace(s[i])
  }

  /** Neither end of `s` is white space. */
  predicate Trimmed(s: string) {
    s == [] || (!IsWhiteSpace(s[0]) && !IsWhiteSpace(s[|s| - 1]))
  }

  /** The first index at or after `i` that does not hold white space, or `|s|`. */
  function SkipForward(s: string, i: nat): (j: nat)
    requires i <= |s|
    ensures i <= j <= |s|
    ensures forall k :: i <= k < j ==> IsWhiteSpace(s[k])
    ensures j == |s| || !IsWhiteSpace(s[j])
    decreases |s| - i
  {
    if i < |s| && IsWhiteSpace(s[i]) then SkipForward(s, i + 1) else i
  }

  /** The least index `i` in `lo..j` such that `s[i..j]` is all white space. */
  function SkipBackward(s: string, lo: nat, j: nat): (i: nat)
    requires lo <= j <= |s|
    ensures lo <= i <= j
    ensures forall k :: i <= k < j ==> IsWhiteSpace(s[k])
    ensures i == lo || !IsWhiteSpace(s[i - 1])
    decreases j
  {
    if lo < j && IsWhiteSpace(s[j - 1]) then SkipBackward(s, lo, j - 1) else j
  }

  /** `s.trim()`: the slice of `s` between its leading and its trailing white space. */
  function Trim(s: string): string {
    var a := SkipForward(s, 0);
    s[a..SkipBackward(s, a, |s|)]
  }

  /** `SkipForward` stops at the first character that is not white space. */
  lemma SkipForwardAt(s: string, i: nat, j: nat)
    requires i <= j <= |s|
    requires forall k :: i <= k < j ==> IsWhiteSpace(s[k])
    requires j == |s| || !IsWhiteSpace(s[j])
    ensures SkipForward(s, i) == j
  {
  }

  /** `SkipBackward` stops just after the last character that is not white space. */
  lemma SkipBackwardAt(s: string, lo: nat, i: nat, j: nat)
    requires lo <= i <= j <= |s|
    requires forall k :: i <= k < j ==> IsWhiteSpace(s[k])
    requires i == lo || !IsWhiteSpace(s[i - 1])
    ensures SkipBackward(s, lo, j) == i
  {
  }

  /** Neither end of `trim`'s result is white space. */
  lemma TrimTrimmed(s: string)
    ensures Trimmed(Trim(s))
  {
  }

  /** What `trim` removed is white space on both sides of its result. */
  lemma TrimSplit(s: string) returns (p: string, q: string)
    ensures s == p + Trim(s) + q
    ensures AllWhiteSpace(p) && AllWhiteSpace(q)
  {
    var a := SkipForward(s, 0);
    var b := SkipBackward(s, a, |s|);
    p, q := s[..a], s[b..];
    assert s[..a] + s[a..b] == s[..b];
    assert s[..b] + s[b..] == s;
    assert forall k :: 0 <= k < |q| ==> q[k] == s[b + k];
  }

  /** Trim removes exactly the white space around a trimmed core, whatever that padding is. */
  lemma TrimOfPadded(p: string, t: string, q: string)
    requires AllWhiteSpace(p) && AllWhiteSpace(q) && Trimmed(t)
    ensures Trim(p + t + q) == t
  {
    var s := p + t + q;
    var i, j := |p|, |p| + |t|;
    assert forall k :: 0 <= k < i ==> s[k] == p[k];
    assert forall k :: j <= k < |s| ==> s[k] == q[k - j];
    if t == [] {
      SkipForwardAt(s, 0, |s|);
      SkipBackwardAt(s, |s|, |s|, |s|);
    } else {
      assert s[i] == t[0] && s[j - 1] == t[|t| - 1];
      SkipForwardAt(s, 0, i);
      SkipBackwardAt(s, i, j, |s|);
      assert s[i..j] == t;
    }
  }

  lemma AllWhiteSpaceAppend(a: string, b: string)
    requires AllWhiteSpace(a) && AllWhiteSpace(b)
    ensures AllWhiteSpace(a + b)
  {
  }

  /** White space around a string never reaches through `trim`. */
  lemma TrimAbsorbsPadding(p: string, t: string, q: string)
    requires AllWhiteSpace(p) && AllWhiteSpace(q)
    ensures Trim(p + t + q) == Trim(t)
  {
    var c := Trim(t);
    var p', q' := TrimSplit(t);
    TrimTrimmed(t);
    AllWhiteSpaceAppend(p, p');
    AllWhiteSpaceAppend(q', q);
    calc {
      p + t + q;
      p + (p' + c + q') + q;
      (p + p') + c + (q' + q);
    }
    TrimOfPadded(p + p', c, q' + q);
  }

  /** Trimming twice is trimming once. */
  lemma TrimIdempotent(s: string)
    ensures Trim(Trim(s)) == Trim(s)
  {
  }

  /** The lower-case mapping of `toLowerCase` for ASCII letters and U+212A KELVIN SIGN. */
  function ToLowerChar(c: char): char {
    if 'A' <= c <= 'Z' then (c as int + 32) as char
    else if c == '\U{212A}' then 'k'
    else c
  }

  /** `s.toLowerCase()`, character by character. */
  function ToLower(s: string): string {
    seq(|s|, i requires 0 <= i < |s| => ToLowerChar(s[i]))
  }

  /** Lower-casing neither creates nor removes white space. */
  lemma LowerKeepsWhiteSpace(c: char)
    ensures IsWhiteSpace(ToLowerChar(c)) == IsWhiteSpace(c)
  {
  }

  lemma LowerAppend(a: string, b: string)
    ensures ToLower(a + b) == ToLower(a) + ToLower(b)
  {
  }

  /** `s.trim().toLowerCase()` equals `s.toLowerCase().trim()`. */
  lemma TrimLowerCommute(s: string)
    ensures ToLower(Trim(s)) == Trim(ToLower(s))
  {
    var c := Trim(s);
    var p, q := TrimSplit(s);
    TrimTrimmed(s);
    LowerAppend(p + c, q);
    LowerAppend(p, c);
    forall i | 0 <= i < |p| ensures IsWhiteSpace(ToLower(p)[i]) { LowerKeepsWhiteSpace(p[i]); }
    forall i | 0 <= i < |q| ensures IsWhiteSpace(ToLower(q)[i]) { LowerKeepsWhiteSpace(q[i]); }
    if c != [] {
      LowerKeepsWhiteSpace(c[0]);
      LowerKeepsWhiteSpace(c[|c| - 1]);
    }
    TrimOfPadded(ToLower(p), ToLower(c), ToLower(q));
  }
}
