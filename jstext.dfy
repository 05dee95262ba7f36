/** JavaScript strings as the server sees them: sequences of UTF-16 code
    units, so that `length` counts what JavaScript counts, and
    `String.prototype.trim`, which both the socket handler and the message
    schema apply to a message body. */
module JsText {

  /** One UTF-16 code unit. A character outside the Basic Multilingual
      Plane takes two of them, and counts two towards `length`. */
  newtype CodeUnit = x: int | 0 <= x < 0x1_0000

  type Text = seq<CodeUnit>

  /** The code units of a string literal of the server's own. Every such
      literal is plain ASCII, so each character is one code unit; a
      character beyond the Basic Multilingual Plane would need two and is
      written as the replacement character U+FFFD. */
  function Units(s: string): (r: Text)
    ensures |r| == |s|
    ensures forall i :: 0 <= i < |s| && s[i] as int < 0x1_0000 ==> r[i] as int == s[i] as int
  {
    seq(|s|, i requires 0 <= i < |s| => if s[i] as int < 0x1_0000 then s[i] as int as CodeUnit else 0xFFFD)
  }

  /** The code units ECMAScript calls WhiteSpace or LineTerminator: exactly
      those `trim` removes at either end. */
  predicate IsJsSpace(c: CodeUnit) {
    || c == 0x09 || c == 0x0A || c == 0x0B || c == 0x0C || c == 0x0D
    || c == 0x20 || c == 0xA0 || c == 0x1680
    || (0x2000 <= c <= 0x200A)
    || c == 0x2028 || c == 0x2029 || c == 0x202F || c == 0x205F
    || c == 0x3000 || c == 0xFEFF
  }

  /** Every code unit of s is white space (true of the empty text). */
  predicate IsBlank(s: Text) {
    forall i :: 0 <= i < |s| ==> IsJsSpace(s[i])
  }

  /** The number of white-space code units s starts with. */
  function LeadingBlanks(s: Text): (n: nat)
    ensures n <= |s|
    ensures IsBlank(s[..n])
    ensures n < |s| ==> !IsJsSpace(s[n])
  {
    if s != [] && IsJsSpace(s[0]) then
      var k := LeadingBlanks(s[1..]);
      assert s[..1 + k] == [s[0]] + s[1..][..k];
      1 + k
    else 0
  }

  /** The number of white-space code units s ends with. */
  function TrailingBlanks(s: Text): (n: nat)
    ensures n <= |s|
    ensures IsBlank(s[|s| - n..])
    ensures n < |s| ==> !IsJsSpace(s[|s| - 1 - n])
  {
    if s != [] && IsJsSpace(s[|s| - 1]) then
      var init := s[..|s| - 1];
      var k := TrailingBlanks(init);
      assert s[|s| - (1 + k)..] == init[|init| - k..] + [s[|s| - 1]];
      1 + k
    else 0
  }

  /** `s.trim()`: s without its leading and trailing white space. The
      result is the slice of s that starts after the leading blanks, is
      followed only by blanks, and neither starts nor ends with a blank;
      it is empty exactly when s is all blank. */
  function Trim(s: Text): (r: Text)
    ensures |r| <= |s|
    ensures r == [] <==> IsBlank(s)
    ensures r != [] ==> !IsJsSpace(r[0]) && !IsJsSpace(r[|r| - 1])
    ensures LeadingBlanks(s) + |r| <= |s|
    ensures r == s[LeadingBlanks(s)..LeadingBlanks(s) + |r|]
    ensures IsBlank(s[LeadingBlanks(s) + |r|..])
  {
    var a := LeadingBlanks(s);
    if a == |s| then
      assert s[..a] == s;
      []
    else
      var b := TrailingBlanks(s);
      s[a..|s| - b]
  }

  /** Trimming twice is trimming once: the message the schema stores
      (trimmed again by its setter) is the text the handler trimmed. */
  lemma TrimIdempotent(s: Text)
    ensures Trim(Trim(s)) == Trim(s)
  {
  }
}
