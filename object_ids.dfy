/**
 * The document store's 12-byte identifier and its text form.
 *
 * An identifier is held as its 24 hexadecimal digits (two per byte). Its
 * string form is 24 lower-case hex digits; a string is accepted as an
 * identifier exactly when it is 24 hex digits in either case.
 */
module ObjectIds {
  import opened Wrappers

  /** One hexadecimal digit: half a byte. */
  type Nibble = n: int | 0 <= n < 16

  const ID_LENGTH := 24

  /** Twelve bytes, as twenty-four hex digits, most significant first. */
  type ObjectId = digits: seq<Nibble> | |digits| == ID_LENGTH witness seq(ID_LENGTH, i => 0)

  /** The message `PyObjectId.validate` fails with. */
  const INVALID_OBJECT_ID := "Invalid ObjectId"

  predicate IsHexDigit(c: char) {
    '0' <= c <= '9' || 'a' <= c <= 'f' || 'A' <= c <= 'F'
  }

  /** `ObjectId.is_valid` on a string, abstracted to: exactly 24 hexadecimal digits. */
  predicate IsValid(s: string) {
    |s| == ID_LENGTH && forall i :: 0 <= i < |s| ==> IsHexDigit(s[i])
  }

  /** A hex digit with its letter, if any, in lower case. */
  function FoldCase(c: char): char {
    if 'A' <= c <= 'F' then (c as int - 'A' as int + 'a' as int) as char else c
  }

  /** The lower-case spelling of a well-formed identifier string. */
  function Canonical(s: string): (t: string)
    requires IsValid(s)
    ensures |t| == |s|
  {
    seq(|s|, i requires 0 <= i < |s| => FoldCase(s[i]))
  }

  function DigitValue(c: char): Nibble
    requires IsHexDigit(c)
  {
    if '0' <= c <= '9' then c as int - '0' as int
    else if 'a' <= c <= 'f' then c as int - 'a' as int + 10
    else c as int - 'A' as int + 10
  }

  /** The lower-case hex digit for `n`; reading it back gives `n`. */
  function DigitChar(n: Nibble): (c: char)
    ensures IsHexDigit(c) && FoldCase(c) == c
    ensures DigitValue(c) == n
  {
    if n < 10 then ('0' as int + n) as char else ('a' as int + n - 10) as char
  }

  /** `ObjectId(s)` for a string `s`: None where the library raises InvalidId. */
  function Parse(s: string): (r: Option<ObjectId>)
    ensures r.Some? <==> IsValid(s)
  {
    if IsValid(s) then Some(seq(ID_LENGTH, i requires 0 <= i < ID_LENGTH => DigitValue(s[i])))
    else None
  }

  /** `str(oid)`: the 24 lower-case hex digits of the identifier. */
  function ToString(o: ObjectId): (s: string)
    ensures IsValid(s)
    ensures forall i :: 0 <= i < |s| ==> FoldCase(s[i]) == s[i]
  {
    seq(ID_LENGTH, i requires 0 <= i < ID_LENGTH => DigitChar(o[i]))
  }

  /** The string form of an identifier parses back to that identifier. */
  lemma {:induction false} ParseToString(o: ObjectId)
    ensures Parse(ToString(o)) == Some(o)
  {
    var s := ToString(o);
    var p := Parse(s).value;
    forall i | 0 <= i < ID_LENGTH
      ensures p[i] == o[i]
    {
      assert s[i] == DigitChar(o[i]);
    }
    assert p == o;
  }

  lemma DigitValueFoldCase(c: char)
    requires IsHexDigit(c)
    ensures IsHexDigit(FoldCase(c)) && DigitValue(FoldCase(c)) == DigitValue(c)
  {
  }

  lemma DigitCharValue(c: char)
    requires IsHexDigit(c)
    ensures DigitChar(DigitValue(c)) == FoldCase(c)
  {
  }

  /** Parsing then printing a well-formed string gives its lower-case spelling. */
  lemma ToStringParse(s: string)
    requires IsValid(s)
    ensures ToString(Parse(s).value) == Canonical(s)
  {
  }

  /**
   * Two well-formed strings name the same identifier exactly when they agree
   * once the case of their letters is ignored.
   */
  lemma {:induction false} SameIdentifier(s: string, t: string)
    requires IsValid(s) && IsValid(t)
    ensures Parse(s) == Parse(t) <==> Canonical(s) == Canonical(t)
  {
    if Parse(s) == Parse(t) {
      ToStringParse(s);
      ToStringParse(t);
    }
    if Canonical(s) == Canonical(t) {
      var p, q := Parse(s).value, Parse(t).value;
      forall i | 0 <= i < ID_LENGTH
        ensures p[i] == q[i]
      {
        assert FoldCase(s[i]) == Canonical(s)[i] == Canonical(t)[i] == FoldCase(t[i]);
        DigitValueFoldCase(s[i]);
        DigitValueFoldCase(t[i]);
      }
      assert p == q;
    }
  }

  /**
   * `PyObjectId.validate` on a string: the identifier when the string is
   * well-formed, otherwise the failure "Invalid ObjectId".
   */
  function Validate(v: string): (r: Result<ObjectId, string>)
    ensures r.Success? <==> IsValid(v)
    ensures r.Failure? ==> r.error == INVALID_OBJECT_ID
    ensures r.Success? ==> ToString(r.value) == Canonical(v)
  {
    match Parse(v)
    case Some(o) => ToStringParse(v); Success(o)
    case None => Failure(INVALID_OBJECT_ID)
  }
}
