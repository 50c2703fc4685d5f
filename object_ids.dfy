/** The store's identifiers: MongoDB ObjectIds, written as 24 hexadecimal
    characters, and the way bson's `ObjectId(x)` turns a request value into one. */
module ObjectIds {
  import opened Values

  const IdLength: nat := 24

  predicate IsHexChar(c: char) {
    '0' <= c <= '9' || 'a' <= c <= 'f' || 'A' <= c <= 'F'
  }

  predicate IsLowerHexChar(c: char) {
    '0' <= c <= '9' || 'a' <= c <= 'f'
  }

  /** A string the driver accepts as an ObjectId: exactly 24 hex digits, either case. */
  predicate IsObjectIdText(s: string) {
    |s| == IdLength && forall i :: 0 <= i < |s| ==> IsHexChar(s[i])
  }

  /** The form in which the store prints an identifier (`toHexString`). */
  predicate IsCanonical(s: string) {
    |s| == IdLength && forall i :: 0 <= i < |s| ==> IsLowerHexChar(s[i])
  }

  function LowerHex(c: char): (d: char)
    requires IsHexChar(c)
    ensures IsLowerHexChar(d)
    ensures IsLowerHexChar(c) ==> d == c
  {
    if 'A' <= c <= 'F' then (c as int - 'A' as int + 'a' as int) as char else c
  }

  /** The identifier a 24-hex-digit string denotes (hex digits are case-insensitive). */
  function Canonicalize(s: string): (t: string)
    requires IsObjectIdText(s)
    ensures IsCanonical(t)
  {
    seq(|s|, i requires 0 <= i < |s| => LowerHex(s[i]))
  }

  /** Outcome of `ObjectId(x)`: the identifier parsed from a hex string; a freshly
      generated identifier (bson generates one for `undefined`, `null` and numbers,
      and such an identifier names no stored document); or a thrown format error. */
  datatype IdParse = Parsed(id: string) | Generated | Malformed

  function Parse(f: Field): (p: IdParse)
    ensures p.Parsed? ==> IsCanonical(p.id)
  {
    match f
    case Absent => Generated
    case Null => Generated
    case Number(_) => Generated
    case Text(s) => if IsObjectIdText(s) then Parsed(Canonicalize(s)) else Malformed
    case Other => Malformed
  }

  /** A string parses exactly when it is 24 hex digits; everything that is neither a
      string nor `undefined`/`null`/a number is refused. */
  lemma ParseAccepts(f: Field)
    ensures Parse(f).Parsed? <==> f.Text? && IsObjectIdText(f.s)
    ensures Parse(f).Malformed? <==> f.Other? || (f.Text? && !IsObjectIdText(f.s))
  {
  }

  /** Printing a stored identifier and parsing it back yields the same identifier. */
  lemma ParseRoundTrip(id: string)
    requires IsCanonical(id)
    ensures Parse(Text(id)) == Parsed(id)
  {
    var t := Canonicalize(id);
    assert |t| == |id|;
    forall i | 0 <= i < |id| ensures t[i] == id[i] {
      assert IsLowerHexChar(id[i]);
    }
  }

  /** Upper- and lower-case spellings of an identifier name the same document. */
  lemma ParseIgnoresCase(s: string, t: string)
    requires IsObjectIdText(s) && |t| == |s|
    requires forall i :: 0 <= i < |s| ==> t[i] == s[i] || (IsHexChar(t[i]) && LowerHex(t[i]) == LowerHex(s[i]))
    ensures Parse(Text(t)) == Parse(Text(s))
  {
    assert IsObjectIdText(t);
    assert Canonicalize(t) == Canonicalize(s);
  }
}
