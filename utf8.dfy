/** The lead/continuation byte structure of UTF-8 (section 3 of RFC 3629). Only the
    framing is checked: overlong three- and four-byte forms and surrogates are not. */
module Utf8 {
  import opened GoBytes

  predicate IsContinuation(b: byte) {
    0x80 <= b < 0xC0
  }

  /** The number of bytes of the character that `b` starts, or 0 when `b` cannot start one. */
  function EncodedLength(b: byte): nat {
    if b < 0x80 then 1
    else if 0xC2 <= b < 0xE0 then 2
    else if 0xE0 <= b < 0xF0 then 3
    else if 0xF0 <= b < 0xF5 then 4
    else 0
  }

  /** `s` splits into whole encoded characters: a lead byte followed by as many
      continuation bytes as it announces, again and again to the end. */
  predicate WellFramed(s: GoString)
    decreases |s|
  {
    s == [] ||
    (var n := EncodedLength(s[0]);
     0 < n <= |s| && (forall k | 1 <= k < n :: IsContinuation(s[k])) && WellFramed(s[n..]))
  }

  predicate IsAscii(s: GoString) {
    forall k | 0 <= k < |s| :: s[k] < 0x80
  }

  /** An ASCII prefix changes nothing about whether the rest is well framed. */
  lemma {:induction false} AsciiPrefix(p: GoString, s: GoString)
    requires IsAscii(p)
    ensures WellFramed(p + s) == WellFramed(s)
    decreases |p|
  {
    if p != [] {
      var t := p + s;
      assert t[0] == p[0] && EncodedLength(t[0]) == 1;
      assert t[1..] == p[1..] + s;
      AsciiPrefix(p[1..], s);
    } else {
      assert p + s == s;
    }
  }
}
