/** The two string operations the scorer applies to a posting-frequency label:
    `String.prototype.trim` and `String.prototype.toLowerCase`. */
module JsText {

  /** ECMAScript's WhiteSpace and LineTerminator code points: the characters
      `trim` removes from both ends of a string. */
  predicate IsWs(c: char) {
    || c == ' ' || c == '\t' || c == '\n' || c == '\r'
    || c == '\U{000B}' || c == '\U{000C}' || c == '\U{00A0}' || c == '\U{1680}'
    || ('\U{2000}' <= c <= '\U{200A}')
    || c == '\U{2028}' || c == '\U{2029}' || c == '\U{202F}' || c == '\U{205F}'
    || c == '\U{3000}' || c == '\U{FEFF}'
  }

  /** Every character of `s` is white space. */
  predicate AllWs(s: string) {
    forall k :: 0 <= k < |s| ==> IsWs(s[k])
  }

  /** `s` neither starts nor ends with white space. */
  predicate Trimmed(s: string) {
    |s| == 0 || (!IsWs(s[0]) && !IsWs(s[|s| - 1]))
  }

  /** Length of the longest all-white-space prefix of `s`. */
  function LeadingWs(s: string): (n: nat)
    ensures n <= |s|
    ensures forall k :: 0 <= k < n ==> IsWs(s[k])
    ensures n < |s| ==> !IsWs(s[n])
  {
    if |s| == 0 || !IsWs(s[0]) then 0 else 1 + LeadingWs(s[1..])
  }

  /** Length of the longest all-white-space suffix of `s`. */
  function TrailingWs(s: string): (n: nat)
    ensures n <= |s|
    ensures forall k :: |s| - n <= k < |s| ==> IsWs(s[k])
    ensures n < |s| ==> !IsWs(s[|s| - 1 - n])
  {
    if |s| == 0 || !IsWs(s[|s| - 1]) then 0 else 1 + TrailingWs(s[..|s| - 1])
  }

  /** `s.trim()`: `s` without its leading and trailing white space. */
  function Trim(s: string): (t: string)
    ensures Trimmed(t)
    ensures exists i :: 0 <= i <= |s| - |t| && AllWs(s[..i]) && s[i..i + |t|] == t && AllWs(s[i + |t|..])
  {
    var a := LeadingWs(s);
    var rest := s[a..];
    var t := rest[..|rest| - TrailingWs(rest)];
    assert s[a..a + |t|] == t;
    assert AllWs(s[..a]);
    assert s[a + |t|..] == rest[|t|..];
    assert AllWs(s[a + |t|..]);
    t
  }

  /** The leading white space of a string is determined by the string:
      any prefix length with the defining property is `LeadingWs`. */
  lemma LeadingWsUnique(s: string, n: nat)
    requires n <= |s|
    requires forall k :: 0 <= k < n ==> IsWs(s[k])
    requires n < |s| ==> !IsWs(s[n])
    ensures LeadingWs(s) == n
  {
  }

  /** The trailing counterpart of `LeadingWsUnique`. */
  lemma TrailingWsUnique(s: string, n: nat)
    requires n <= |s|
    requires forall k :: |s| - n <= k < |s| ==> IsWs(s[k])
    requires n < |s| ==> !IsWs(s[|s| - 1 - n])
    ensures TrailingWs(s) == n
  {
  }

  /** `trim` is characterised by its result: whatever white space surrounds
      a trimmed string, trimming gives back exactly that string. */
  lemma TrimUnique(p: string, t: string, q: string)
    requires AllWs(p) && Trimmed(t) && AllWs(q)
    ensures Trim(p + t + q) == t
  {
    var s := p + t + q;
    if |t| == 0 {
      assert s == p + q;
      LeadingWsUnique(s, |s|);
    } else {
      LeadingWsUnique(s, |p|);
      var rest := s[|p|..];
      assert rest == t + q;
      TrailingWsUnique(rest, |q|);
      assert rest[..|rest| - |q|] == t;
    }
  }

  /** Trimming twice is trimming once. */
  lemma TrimIdempotent(s: string)
    ensures Trim(Trim(s)) == Trim(s)
  {
    var t := Trim(s);
    assert [] + t + [] == t;
    TrimUnique([], t, []);
  }

  /** A label made only of white space trims to the empty string. */
  lemma TrimBlank(s: string)
    requires AllWs(s)
    ensures Trim(s) == ""
  {
    assert s + "" + "" == s;
    TrimUnique(s, "", "");
  }

  /** Upper-case letters of Basic Latin and Latin-1 Supplement. */
  predicate IsUpper(c: char) {
    ('A' <= c <= 'Z') || ('\U{00C0}' <= c <= '\U{00DE}' && c != '\U{00D7}')
  }

  /** `toLowerCase` on one character, restricted to Basic Latin and Latin-1,
      where every upper-case letter sits 32 code points below its lower case. */
  function LowerChar(c: char): char {
    if IsUpper(c) then (c as int + 32) as char else c
  }

  /** `s.toLowerCase()`, character by character: each upper-case letter
      becomes its lower case 32 code points up, every other character is
      kept, so the result has no upper-case letter left. */
  function Lower(s: string): (r: string)
    ensures |r| == |s|
    ensures forall k :: 0 <= k < |s| ==>
      r[k] == s[k] || (IsUpper(s[k]) && r[k] as int == s[k] as int + 32)
    ensures forall k :: 0 <= k < |r| ==> !IsUpper(r[k])
    ensures (forall k :: 0 <= k < |s| ==> !IsUpper(s[k])) ==> r == s
  {
    seq(|s|, k requires 0 <= k < |s| => LowerChar(s[k]))
  }

  /** Lower-casing is idempotent. */
  lemma LowerNormalises(s: string)
    ensures Lower(Lower(s)) == Lower(s)
  {
  }

  /** Lower-casing neither creates nor removes white space, so it keeps a
      trimmed string trimmed. */
  lemma LowerKeepsTrimmed(s: string)
    requires Trimmed(s)
    ensures Trimmed(Lower(s))
    ensures AllWs(s) <==> AllWs(Lower(s))
  {
  }
}
