/** Identifiers. Users and messages are keyed by MongoDB ObjectIds; the
    server handles them as 24-digit hexadecimal text. The store casts any
    24-digit hex text to an ObjectId regardless of letter case and prints it
    back in lower case; plain text comparisons on the socket side do not. */
module Identity {
  import opened JsText
  import opened Outcomes

  /** A user account as the server reads it (the password hash is never
      selected). */
  datatype User = User(id: Text, username: Text)

  /** 0-9, A-F or a-f. */
  predicate IsHexDigit(c: CodeUnit) {
    (0x30 <= c <= 0x39) || (0x41 <= c <= 0x46) || (0x61 <= c <= 0x66)
  }

  /** 0-9 or a-f: the digits of a printed ObjectId. */
  predicate IsLowerHexDigit(c: CodeUnit) {
    (0x30 <= c <= 0x39) || (0x61 <= c <= 0x66)
  }

  /** The route parameter check `/^[0-9a-fA-F]{24}$/`, which is also the
      set of texts the store accepts as an ObjectId. */
  predicate IsObjectIdText(s: Text) {
    |s| == 24 && forall i :: 0 <= i < |s| ==> IsHexDigit(s[i])
  }

  /** An ObjectId as `_id.toString()` prints it. */
  predicate IsCanonicalId(s: Text) {
    |s| == 24 && forall i :: 0 <= i < |s| ==> IsLowerHexDigit(s[i])
  }

  function LowerHexDigit(c: CodeUnit): (d: CodeUnit)
    requires IsHexDigit(c)
    ensures IsLowerHexDigit(d)
    ensures IsLowerHexDigit(c) ==> d == c
  {
    if 0x41 <= c <= 0x46 then c + 0x20 else c
  }

  /** What the store makes of an id it is given: the ObjectId with those
      hex digits when the text is one, nothing (a cast error) otherwise. */
  function CastObjectId(s: Text): (r: Option<Text>)
    ensures r.Some? <==> IsObjectIdText(s)
    ensures r.Some? ==> IsCanonicalId(r.value)
    ensures r.Some? ==> forall i :: 0 <= i < |s| ==> r.value[i] == LowerHexDigit(s[i])
  {
    if IsObjectIdText(s) then
      Some(seq(|s|, i requires 0 <= i < |s| => LowerHexDigit(s[i])))
    else None
  }

  /** A printed ObjectId casts to itself. */
  lemma {:induction false} CanonicalCastsToItself(s: Text)
    requires IsCanonicalId(s)
    ensures CastObjectId(s) == Some(s)
  {
    assert IsObjectIdText(s);
    var t := CastObjectId(s).value;
    assert |t| == |s|;
    forall i | 0 <= i < |s| ensures t[i] == s[i] {
      assert IsLowerHexDigit(s[i]);
    }
    assert t == s;
  }

  /** Two texts that differ only in the case of their hex letters name the
      same ObjectId. */
  lemma {:induction false} CastIgnoresCase(s: Text, t: Text)
    requires IsObjectIdText(s) && IsObjectIdText(t)
    requires forall i :: 0 <= i < 24 ==> LowerHexDigit(s[i]) == LowerHexDigit(t[i])
    ensures CastObjectId(s) == CastObjectId(t)
  {
    var a, b := CastObjectId(s).value, CastObjectId(t).value;
    assert |a| == |b| == 24;
    forall i | 0 <= i < 24 ensures a[i] == b[i] { }
    assert a == b;
  }
}
