/**
 * uuid.Parse and UUID.String of github.com/google/uuid, as far as the
 * location lookup needs them: which arguments parse as a UUID, and that the
 * canonical text of a parsed UUID is 36 characters long.
 */
module Uuid {
  import opened Wrappers
  import opened GoStrings

  predicate IsHexDigit(c: char) {
    '0' <= c <= '9' || 'a' <= c <= 'f' || 'A' <= c <= 'F'
  }

  predicate AllHex(s: string) {
    forall i :: 0 <= i < |s| ==> IsHexDigit(s[i])
  }

  /** The hyphenated form xxxxxxxx-xxxx-xxxx-xxxx-xxxxxxxxxxxx. */
  predicate Hyphenated(s: string) {
    && |s| == 36
    && s[8] == '-' && s[13] == '-' && s[18] == '-' && s[23] == '-'
    && AllHex(s[..8]) && AllHex(s[9..13]) && AllHex(s[14..18]) && AllHex(s[19..23]) && AllHex(s[24..])
  }

  function HyphenatedDigits(s: string): string
    requires Hyphenated(s)
  {
    s[..8] + s[9..13] + s[14..18] + s[19..23] + s[24..]
  }

  /** A parsed UUID: its 32 hexadecimal digits, lower-cased. */
  datatype Uuid = Uuid(digits: string)

  /**
   * uuid.Parse: the 36-character hyphenated form, the same behind a
   * case-insensitive "urn:uuid:" prefix (45 characters), the hyphenated form
   * behind any one leading and trailing character (38 characters; the braces
   * are not checked), or 32 bare hex digits. Everything else is an error.
   */
  function Parse(s: string): (r: Option<Uuid>)
    ensures r.Some? ==> |s| in {32, 36, 38, 45}
    ensures r.Some? ==> |r.value.digits| == 32 && AllHex(r.value.digits)
  {
    if |s| == 36 && Hyphenated(s) then Some(Uuid(Lower(HyphenatedDigits(s))))
    else if |s| == 45 && EqualFold(s[..9], "urn:uuid:") && Hyphenated(s[9..]) then
      Some(Uuid(Lower(HyphenatedDigits(s[9..]))))
    else if |s| == 38 && Hyphenated(s[1..37]) then Some(Uuid(Lower(HyphenatedDigits(s[1..37]))))
    else if |s| == 32 && AllHex(s) then Some(Uuid(Lower(s)))
    else None
  }

  /** UUID.String: the canonical lower-case hyphenated form. */
  function String(u: Uuid): (t: string)
    requires |u.digits| == 32
    ensures |t| == 36
    ensures t[8] == '-' && t[13] == '-' && t[18] == '-' && t[23] == '-'
  {
    u.digits[..8] + "-" + u.digits[8..12] + "-" + u.digits[12..16] + "-" + u.digits[16..20] + "-" + u.digits[20..]
  }

  /** The canonical text of a parsed UUID is never empty, so it never equals the id of a zero Location. */
  lemma StringNeverEmpty(s: string)
    requires Parse(s).Some?
    ensures !EqualFold("", String(Parse(s).value))
  {
    if EqualFold("", String(Parse(s).value)) {
      EqualFoldSameLength("", String(Parse(s).value));
    }
  }
}
