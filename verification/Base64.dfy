/** The platform's `btoa` and `atob`, which the audio utilities use to carry
    raw PCM bytes inside JSON-framed messages.

    `btoa` takes a "binary string" (every character a code point of at most
    U+00FF, one per byte) and produces the base64 encoding of section 4 of
    RFC 4648, with `=` padding. `atob` is the forgiving-base64 decoder of the
    WHATWG Infra standard: it drops ASCII whitespace, drops one or two
    trailing `=` when the length is a multiple of four, rejects a length of
    the form 4k+1 and any character outside the alphabet, and otherwise
    decodes, discarding the bits left over by a short final group. Both throw
    an `InvalidCharacterError` DOMException on bad input. */
module Base64 {
  import opened Wrappers

  type byte = b: int | 0 <= b < 256

  /** A base64 digit value. */
  type sextet = v: int | 0 <= v < 64

  /** The DOMException that `btoa` and `atob` throw. */
  datatype DomException = InvalidCharacterError

  // ---------------------------------------------------------------------
  // Binary strings: one character per byte

  /** The string whose character i has code point b[i]
      (what `String.fromCharCode` builds byte by byte). */
  function BinaryString(b: seq<byte>): (s: string)
    ensures IsBinaryString(s) && BinaryBytes(s) == b
  {
    seq(|b|, i requires 0 <= i < |b| => b[i] as char)
  }

  /** True when every character is a code point of at most U+00FF. */
  predicate IsBinaryString(s: string)
  {
    forall i :: 0 <= i < |s| ==> s[i] as int < 256
  }

  /** The bytes of a binary string (character i gives byte i). */
  function BinaryBytes(s: string): (b: seq<byte>)
    requires IsBinaryString(s)
    ensures |b| == |s|
  {
    seq(|s|, i requires 0 <= i < |s| => s[i] as int)
  }

  /** The other direction: a binary string is rebuilt from its bytes. */
  lemma BinaryStringOfBinaryBytes(s: string)
    requires IsBinaryString(s)
    ensures BinaryString(BinaryBytes(s)) == s
  {
  }

  // ---------------------------------------------------------------------
  // The alphabet of section 4 of RFC 4648

  predicate IsAlphabetChar(c: char)
  {
    ('A' <= c <= 'Z') || ('a' <= c <= 'z') || ('0' <= c <= '9') || c == '+' || c == '/'
  }

  /** The character that encodes digit value v. */
  function DigitChar(v: sextet): (c: char)
    ensures IsAlphabetChar(c)
  {
    if v < 26 then ('A' as int + v) as char
    else if v < 52 then ('a' as int + (v - 26)) as char
    else if v < 62 then ('0' as int + (v - 52)) as char
    else if v == 62 then '+'
    else '/'
  }

  /** The digit value of an alphabet character; the inverse of DigitChar. */
  function DigitValue(c: char): (v: sextet)
    requires IsAlphabetChar(c)
    ensures DigitChar(v) == c
  {
    if 'A' <= c <= 'Z' then c as int - 'A' as int
    else if 'a' <= c <= 'z' then c as int - 'a' as int + 26
    else if '0' <= c <= '9' then c as int - '0' as int + 52
    else if c == '+' then 62
    else 63
  }

  lemma DigitValueOfDigitChar(v: sextet)
    ensures DigitValue(DigitChar(v)) == v
  {
  }

  // ---------------------------------------------------------------------
  // Encoding (btoa)

  /** The digit values of b without padding: four per whole 3-byte group,
      then two for a trailing single byte or three for a trailing pair. */
  function EncodeSextets(b: seq<byte>): (v: seq<sextet>)
    decreases |b|
  {
    if |b| == 0 then []
    else if |b| == 1 then [b[0] / 4, (b[0] % 4) * 16]
    else if |b| == 2 then [b[0] / 4, (b[0] % 4) * 16 + b[1] / 16, (b[1] % 16) * 4]
    else [b[0] / 4, (b[0] % 4) * 16 + b[1] / 16, (b[1] % 16) * 4 + b[2] / 64, b[2] % 64]
         + EncodeSextets(b[3..])
  }

  function DigitChars(v: seq<sextet>): (s: string)
    ensures |s| == |v|
    ensures forall i :: 0 <= i < |v| ==> s[i] == DigitChar(v[i])
  {
    seq(|v|, i requires 0 <= i < |v| => DigitChar(v[i]))
  }

  /** The `=` characters that complete the last group of four. */
  function Padding(byteCount: nat): string
  {
    if byteCount % 3 == 1 then "==" else if byteCount % 3 == 2 then "=" else ""
  }

  /** Base64 encoding with padding, section 4 of RFC 4648. */
  function Encode(b: seq<byte>): (e: string)
    ensures |e| == 4 * ((|b| + 2) / 3)
  {
    EncodeSextetsLength(b);
    DigitChars(EncodeSextets(b)) + Padding(|b|)
  }

  /** `btoa`: throws when a character does not fit in one byte. */
  function Btoa(s: string): (r: Result<string, DomException>)
    ensures r.Success? <==> IsBinaryString(s)
  {
    if IsBinaryString(s) then Success(Encode(BinaryBytes(s))) else Failure(InvalidCharacterError)
  }

  // ---------------------------------------------------------------------
  // Decoding (atob)

  /** ASCII whitespace as the Infra standard defines it: TAB, LF, FF, CR, SPACE. */
  predicate IsAsciiWhitespace(c: char)
  {
    c == '\t' || c == '\n' || c == '\U{C}' || c == '\r' || c == ' '
  }

  function RemoveWhitespace(s: string): (t: string)
    ensures forall i :: 0 <= i < |t| ==> !IsAsciiWhitespace(t[i])
    ensures |t| <= |s|
  {
    if |s| == 0 then ""
    else if IsAsciiWhitespace(s[0]) then RemoveWhitespace(s[1..])
    else [s[0]] + RemoveWhitespace(s[1..])
  }

  /** Drops one or two trailing `=` (applied only when the length is a
      multiple of four). */
  function StripPadding(s: string): string
  {
    if |s| >= 2 && s[|s| - 2] == '=' && s[|s| - 1] == '=' then s[..|s| - 2]
    else if |s| >= 1 && s[|s| - 1] == '=' then s[..|s| - 1]
    else s
  }

  predicate AllAlphabet(s: string)
  {
    forall i :: 0 <= i < |s| ==> IsAlphabetChar(s[i])
  }

  function DigitValues(s: string): (v: seq<sextet>)
    requires AllAlphabet(s)
    ensures |v| == |s|
    ensures forall i :: 0 <= i < |s| ==> v[i] == DigitValue(s[i])
  {
    seq(|s|, i requires 0 <= i < |s| => DigitValue(s[i]))
  }

  /** The bytes carried by unpadded digit values: three per whole group of
      four, one for a trailing pair, two for a trailing triple; leftover bits
      are discarded. */
  function DecodeSextets(v: seq<sextet>): (b: seq<byte>)
    requires |v| % 4 != 1
    decreases |v|
  {
    if |v| == 0 then []
    else
      var b0: byte := v[0] as int * 4 + v[1] / 16;
      if |v| == 2 then [b0]
      else
        var b1: byte := (v[1] % 16) as int * 16 + v[2] / 4;
        if |v| == 3 then [b0, b1]
        else [b0, b1, (v[2] % 4) as int * 64 + v[3]] + DecodeSextets(v[4..])
  }

  /** `atob`: forgiving-base64 decode, giving a binary string. */
  function Atob(s: string): (r: Result<string, DomException>)
    ensures r.Success? ==> IsBinaryString(r.value)
  {
    var t := RemoveWhitespace(s);
    var u := if |t| % 4 == 0 then StripPadding(t) else t;
    if |u| % 4 == 1 || !AllAlphabet(u) then Failure(InvalidCharacterError)
    else Success(BinaryString(DecodeSextets(DigitValues(u))))
  }

  // ---------------------------------------------------------------------
  // Round trip

  lemma {:induction false} EncodeSextetsLength(b: seq<byte>)
    ensures |EncodeSextets(b)| == 4 * (|b| / 3) + (if |b| % 3 == 0 then 0 else |b| % 3 + 1)
    decreases |b|
  {
    if |b| >= 3 {
      EncodeSextetsLength(b[3..]);
    }
  }

  /** Decoding the digit values of b gives back b. */
  lemma {:induction false} DecodeEncodeSextets(b: seq<byte>)
    ensures |EncodeSextets(b)| % 4 != 1
    ensures DecodeSextets(EncodeSextets(b)) == b
    decreases |b|
  {
    EncodeSextetsLength(b);
    if |b| >= 3 {
      var v := EncodeSextets(b);
      DecodeEncodeSextets(b[3..]);
      assert v[4..] == EncodeSextets(b[3..]);
      assert b == [b[0], b[1], b[2]] + b[3..];
    }
  }

  lemma DigitValuesOfDigitChars(v: seq<sextet>)
    ensures AllAlphabet(DigitChars(v))
    ensures DigitValues(DigitChars(v)) == v
  {
    forall i | 0 <= i < |v| ensures DigitValue(DigitChar(v[i])) == v[i] {
      DigitValueOfDigitChar(v[i]);
    }
  }

  lemma {:induction false} RemoveWhitespaceOfAlphabet(s: string)
    requires forall i :: 0 <= i < |s| ==> IsAlphabetChar(s[i]) || s[i] == '='
    ensures RemoveWhitespace(s) == s
    decreases |s|
  {
    if |s| > 0 {
      RemoveWhitespaceOfAlphabet(s[1..]);
    }
  }

  /** Dropping the padding after a run of digits leaves the digits. */
  lemma StripPaddingAfterDigits(d: string, p: string)
    requires AllAlphabet(d) && (p == "" || p == "=" || p == "==")
    ensures StripPadding(d + p) == d
  {
    var t := d + p;
    if p == "==" {
      assert t[..|t| - 2] == d;
    } else if p == "=" {
      assert |d| > 0 ==> t[|t| - 2] == d[|d| - 1];
      assert t[..|t| - 1] == d;
    } else {
      assert t == d;
    }
  }

  lemma PaddedDigitsHaveNoWhitespace(d: string, p: string)
    requires AllAlphabet(d) && (p == "" || p == "=" || p == "==")
    ensures RemoveWhitespace(d + p) == d + p
  {
    var t := d + p;
    forall i | 0 <= i < |t| ensures IsAlphabetChar(t[i]) || t[i] == '=' {
      if i < |d| {
        assert t[i] == d[i];
      }
    }
    RemoveWhitespaceOfAlphabet(t);
  }

  /** `atob` of digits followed by their padding decodes the digits. */
  lemma AtobOfPaddedDigits(d: string, p: string)
    requires AllAlphabet(d) && |d| % 4 != 1
    requires (p == "" || p == "=" || p == "==") && |d + p| % 4 == 0
    ensures Atob(d + p) == Success(BinaryString(DecodeSextets(DigitValues(d))))
  {
    PaddedDigitsHaveNoWhitespace(d, p);
    StripPaddingAfterDigits(d, p);
  }

  /** `atob` inverts `btoa` on every byte sequence, the empty one included:
      decoding the encoding of b gives the binary string of b. */
  lemma AtobEncode(b: seq<byte>)
    ensures Atob(Encode(b)) == Success(BinaryString(b))
  {
    var v := EncodeSextets(b);
    var p := Padding(|b|);
    DecodeEncodeSextets(b);
    PaddingCompletesGroup(b);
    assert |DigitChars(v) + p| == |v| + |p|;
    DigitValuesOfDigitChars(v);
    AtobOfPaddedDigits(DigitChars(v), p);
  }

  /** The padding brings the encoding to a whole number of 4-character groups. */
  lemma {:induction false} PaddingCompletesGroup(b: seq<byte>)
    ensures |EncodeSextets(b)| % 4 != 1
    ensures (|EncodeSextets(b)| + |Padding(|b|)|) % 4 == 0
    decreases |b|
  {
    if |b| >= 3 {
      PaddingCompletesGroup(b[3..]);
      assert |EncodeSextets(b)| == 4 + |EncodeSextets(b[3..])|;
      assert Padding(|b|) == Padding(|b[3..]|);
    }
  }

  /** The transport round trip of the audio utilities: `btoa` accepts every
      binary string built from bytes, and `atob` of its output returns that
      string. */
  lemma BtoaAtobRoundTrip(b: seq<byte>)
    ensures Btoa(BinaryString(b)) == Success(Encode(b))
    ensures Atob(Btoa(BinaryString(b)).value) == Success(BinaryString(b))
  {
    AtobEncode(b);
  }

  /** `atob` refuses a payload whose digit count leaves remainder 1 modulo
      four. */
  lemma AtobRejects(s: string)
    requires AllAlphabet(s) && |s| % 4 == 1
    ensures Atob(s).Failure?
  {
    RemoveWhitespaceOfAlphabet(s);
  }

  /** `atob` refuses a payload holding a character that is neither a digit,
      nor ASCII whitespace, nor `=`, wherever it stands. */
  lemma AtobRejectsForeign(s: string, i: nat)
    requires i < |s| && !IsAlphabetChar(s[i]) && !IsAsciiWhitespace(s[i]) && s[i] != '='
    ensures Atob(s).Failure?
  {
    var t := RemoveWhitespace(s);
    RemoveWhitespaceKeeps(s, i);
    var j :| 0 <= j < |t| && t[j] == s[i];
    var u := if |t| % 4 == 0 then StripPadding(t) else t;
    assert u <= t;
    assert j < |u|;
    assert !IsAlphabetChar(u[j]);
  }

  /** A character that is not whitespace survives its removal. */
  lemma {:induction false} RemoveWhitespaceKeeps(s: string, i: nat)
    requires i < |s| && !IsAsciiWhitespace(s[i])
    ensures exists j :: 0 <= j < |RemoveWhitespace(s)| && RemoveWhitespace(s)[j] == s[i]
    decreases |s|
  {
    if i > 0 {
      RemoveWhitespaceKeeps(s[1..], i - 1);
      var t := RemoveWhitespace(s[1..]);
      var j :| 0 <= j < |t| && t[j] == s[1..][i - 1];
      if !IsAsciiWhitespace(s[0]) {
        assert RemoveWhitespace(s)[j + 1] == t[j];
      } else {
        assert RemoveWhitespace(s) == t;
      }
    } else {
      assert RemoveWhitespace(s)[0] == s[0];
    }
  }
}
