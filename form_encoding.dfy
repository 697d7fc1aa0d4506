/**
 * Percent-encoding as the site applies it through the platform: the
 * application/x-www-form-urlencoded serializer behind `URLSearchParams.toString()`
 * (section 5.2 of the WHATWG URL Standard) and `encodeURIComponent` (section 19.2.6.5 of
 * ECMA-262). Both write each character that is not kept as the `%XX` escapes of its UTF-8
 * bytes, with upper-case hexadecimal digits. A decoder for well-formed output is given
 * next to them, and decoding undoes encoding.
 */
module FormEncoding {
  import opened Wrappers
  import opened Strings
  import Seqs

  /** Characters the form serializer leaves as they are: ASCII letters, digits and `*-._`. */
  predicate FormKeeps(c: char) {
    ('a' <= c <= 'z') || ('A' <= c <= 'Z') || ('0' <= c <= '9') || c == '*' || c == '-' || c == '.' || c == '_'
  }

  /** Characters `encodeURIComponent` leaves as they are: ASCII letters, digits and `-_.!~*'()`. */
  predicate UriKeeps(c: char) {
    ('a' <= c <= 'z') || ('A' <= c <= 'Z') || ('0' <= c <= '9')
    || c == '-' || c == '_' || c == '.' || c == '!' || c == '~' || c == '*' || c == '\'' || c == '(' || c == ')'
  }

  /** The UTF-8 bytes of a Unicode scalar value. */
  function Utf8(c: char): (bs: seq<nat>)
    ensures 1 <= |bs| <= 4
    ensures forall k :: 0 <= k < |bs| ==> bs[k] < 256
  {
    var n := c as int;
    if n < 0x80 then [n]
    else if n < 0x800 then [0xC0 + n / 64, 0x80 + n % 64]
    else if n < 0x10000 then [0xE0 + n / 4096, 0x80 + (n / 64) % 64, 0x80 + n % 64]
    else [0xF0 + n / 262144, 0x80 + (n / 4096) % 64, 0x80 + (n / 64) % 64, 0x80 + n % 64]
  }

  function HexDigit(d: nat): char
    requires d < 16
  {
    "0123456789ABCDEF"[d]
  }

  predicate IsHex(c: char) {
    ('0' <= c <= '9') || ('A' <= c <= 'F') || ('a' <= c <= 'f')
  }

  function HexValue(c: char): (d: nat)
    requires IsHex(c)
    ensures d < 16
  {
    if '0' <= c <= '9' then c as int - '0' as int
    else if 'A' <= c <= 'F' then c as int - 'A' as int + 10
    else c as int - 'a' as int + 10
  }

  lemma HexRoundTrip(d: nat)
    requires d < 16
    ensures IsHex(HexDigit(d)) && HexValue(HexDigit(d)) == d
  {
  }

  /** `%XX` for a byte. */
  function PercentByte(b: nat): (r: string)
    requires b < 256
    ensures |r| == 3 && r[0] == '%' && IsHex(r[1]) && IsHex(r[2])
    ensures 16 * HexValue(r[1]) + HexValue(r[2]) == b
  {
    HexRoundTrip(b / 16);
    HexRoundTrip(b % 16);
    ['%', HexDigit(b / 16), HexDigit(b % 16)]
  }

  function PercentBytes(bs: seq<nat>): (r: string)
    requires forall k :: 0 <= k < |bs| ==> bs[k] < 256
    ensures |r| == 3 * |bs|
  {
    if bs == [] then "" else PercentByte(bs[0]) + PercentBytes(bs[1..])
  }

  /**
   * The encoding of one character: a space is `+` in the form serializer, a kept character
   * stands for itself, and any other is the escapes of its UTF-8 bytes.
   */
  function EncodeChar(c: char, keep: char -> bool, plus: bool): (r: string)
    ensures |r| >= 1
  {
    if plus && c == ' ' then "+" else if keep(c) then [c] else PercentBytes(Utf8(c))
  }

  function Encode(s: string, keep: char -> bool, plus: bool): string
  {
    if s == [] then "" else EncodeChar(s[0], keep, plus) + Encode(s[1..], keep, plus)
  }

  /** The form serializer's encoding of a name or a value. */
  function FormEncode(s: string): string {
    Encode(s, FormKeeps, true)
  }

  /** `encodeURIComponent(s)`. */
  function UriComponentEncode(s: string): string {
    Encode(s, UriKeeps, false)
  }

  /** `URLSearchParams` built by `append` in this order, then `toString()`. */
  function SerializePairs(pairs: seq<(string, string)>): string
  {
    if pairs == [] then ""
    else
      var first := FormEncode(pairs[0].0) + "=" + FormEncode(pairs[0].1);
      if |pairs| == 1 then first else first + "&" + SerializePairs(pairs[1..])
  }

  // ---- decoding ----

  /** The byte written as `%XX` at index `i`, if there is one. */
  function ByteAt(s: string, i: nat): Option<nat>
  {
    if i + 3 <= |s| && s[i] == '%' && IsHex(s[i + 1]) && IsHex(s[i + 2])
    then Some(16 * HexValue(s[i + 1]) + HexValue(s[i + 2]))
    else None
  }

  /** A continuation byte's six payload bits, if the `%XX` at `i` is one. */
  function ContAt(s: string, i: nat): Option<nat>
  {
    var b := ByteAt(s, i);
    if b.Some? && 0x80 <= b.value < 0xC0 then Some(b.value - 0x80) else None
  }

  predicate IsScalar(n: int) {
    (0 <= n < 0xD800) || (0xE000 <= n < 0x110000)
  }

  /** Decodes the escapes of one UTF-8 encoded character: the character and the length read. */
  function DecodeEscapes(s: string): Option<(char, nat)>
  {
    var lead := ByteAt(s, 0);
    if lead.None? then None
    else
      var b := lead.value;
      if b < 0x80 then Some((b as char, 3))
      else if 0xC0 <= b < 0xE0 then
        var c1 := ContAt(s, 3);
        if c1.None? then None
        else
          var n := (b - 0xC0) * 64 + c1.value;
          if IsScalar(n) then Some((n as char, 6)) else None
      else if 0xE0 <= b < 0xF0 then
        var c1 := ContAt(s, 3);
        var c2 := ContAt(s, 6);
        if c1.None? || c2.None? then None
        else
          var n := (b - 0xE0) * 4096 + c1.value * 64 + c2.value;
          if IsScalar(n) then Some((n as char, 9)) else None
      else if 0xF0 <= b < 0xF8 then
        var c1 := ContAt(s, 3);
        var c2 := ContAt(s, 6);
        var c3 := ContAt(s, 9);
        if c1.None? || c2.None? || c3.None? then None
        else
          var n := (b - 0xF0) * 262144 + c1.value * 4096 + c2.value * 64 + c3.value;
          if IsScalar(n) then Some((n as char, 12)) else None
      else None
  }

  /** Decodes text written by `Encode` with the same `plus` flag; `None` when it is malformed. */
  function Decode(s: string, plus: bool): Option<string>
    decreases |s|
  {
    if s == [] then Some("")
    else if s[0] == '%' then
      match DecodeEscapes(s)
      case None => None
      case Some(p) =>
        if 1 <= p.1 <= |s| then
          match Decode(s[p.1..], plus)
          case None => None
          case Some(rest) => Some([p.0] + rest)
        else None
    else
      match Decode(s[1..], plus)
      case None => None
      case Some(rest) => Some([if plus && s[0] == '+' then ' ' else s[0]] + rest)
  }

  // ---- decoding undoes encoding ----

  /** The encoder's `keep` set must not hold the characters the decoder treats specially. */
  predicate Decodable(keep: char -> bool, plus: bool) {
    !keep('%') && (plus ==> !keep('+'))
  }

  lemma {:induction false} PercentBytesSlice(bs: seq<nat>, rest: string, k: nat)
    requires forall j :: 0 <= j < |bs| ==> bs[j] < 256
    requires k < |bs|
    ensures 3 * k + 3 <= |PercentBytes(bs) + rest|
    ensures (PercentBytes(bs) + rest)[3 * k..3 * k + 3] == PercentByte(bs[k])
  {
    PercentBytesAt(bs, k);
    assert (PercentBytes(bs) + rest)[3 * k..3 * k + 3] == PercentBytes(bs)[3 * k..3 * k + 3];
  }

  lemma {:induction false} PercentBytesAt(bs: seq<nat>, k: nat)
    requires forall j :: 0 <= j < |bs| ==> bs[j] < 256
    requires k < |bs|
    ensures PercentBytes(bs)[3 * k..3 * k + 3] == PercentByte(bs[k])
  {
    if k > 0 {
      PercentBytesAt(bs[1..], k - 1);
      var p := PercentByte(bs[0]);
      var t := PercentBytes(bs[1..]);
      assert PercentBytes(bs) == p + t;
      Seqs.SliceOfSecond(p, t, 3 * k, 3 * k + 3);
    }
  }

  lemma ByteAtEscape(s: string, i: nat, b: nat)
    requires b < 256 && i + 3 <= |s| && s[i..i + 3] == PercentByte(b)
    ensures ByteAt(s, i) == Some(b)
  {
    assert s[i] == s[i..i + 3][0] && s[i + 1] == s[i..i + 3][1] && s[i + 2] == s[i..i + 3][2];
  }

  lemma PercentBytesAppend(bs: seq<nat>, rest: string, k: nat)
    requires forall j :: 0 <= j < |bs| ==> bs[j] < 256
    requires k < |bs|
    ensures ByteAt(PercentBytes(bs) + rest, 3 * k) == Some(bs[k])
  {
    PercentBytesSlice(bs, rest, k);
    ByteAtEscape(PercentBytes(bs) + rest, 3 * k, bs[k]);
  }

  lemma Utf8Decodes(c: char, rest: string)
    ensures DecodeEscapes(PercentBytes(Utf8(c)) + rest) == Some((c, 3 * |Utf8(c)|))
  {
    var n := c as int;
    if n < 0x80 {
      PercentBytesAppend(Utf8(c), rest, 0);
      assert ByteAt(PercentBytes(Utf8(c)) + rest, 0) == Some(n);
    } else if n < 0x800 {
      Utf8Decodes2(c, rest);
    } else if n < 0x10000 {
      Utf8Decodes3(c, rest);
    } else {
      Utf8Decodes4(c, rest);
    }
  }

  lemma Utf8Decodes2(c: char, rest: string)
    requires 0x80 <= c as int < 0x800
    ensures DecodeEscapes(PercentBytes(Utf8(c)) + rest) == Some((c, 6))
  {
    PercentBytesAppend(Utf8(c), rest, 0);
    PercentBytesAppend(Utf8(c), rest, 1);
    Decode2(c, PercentBytes(Utf8(c)) + rest);
  }

  lemma Utf8Decodes3(c: char, rest: string)
    requires 0x800 <= c as int < 0x10000
    ensures DecodeEscapes(PercentBytes(Utf8(c)) + rest) == Some((c, 9))
  {
    PercentBytesAppend(Utf8(c), rest, 0);
    PercentBytesAppend(Utf8(c), rest, 1);
    PercentBytesAppend(Utf8(c), rest, 2);
    Decode3(c, PercentBytes(Utf8(c)) + rest);
  }

  lemma Utf8Decodes4(c: char, rest: string)
    requires 0x10000 <= c as int
    ensures DecodeEscapes(PercentBytes(Utf8(c)) + rest) == Some((c, 12))
  {
    PercentBytesAppend(Utf8(c), rest, 0);
    PercentBytesAppend(Utf8(c), rest, 1);
    PercentBytesAppend(Utf8(c), rest, 2);
    PercentBytesAppend(Utf8(c), rest, 3);
    Decode4(c, PercentBytes(Utf8(c)) + rest);
  }

  lemma Decode2(c: char, s: string)
    requires 0x80 <= c as int < 0x800
    requires ByteAt(s, 0) == Some(Utf8(c)[0]) && ByteAt(s, 3) == Some(Utf8(c)[1])
    ensures DecodeEscapes(s) == Some((c, 6))
  {
    var n := c as int;
    assert (n / 64) * 64 + n % 64 == n;
  }

  lemma Decode3(c: char, s: string)
    requires 0x800 <= c as int < 0x10000
    requires ByteAt(s, 0) == Some(Utf8(c)[0]) && ByteAt(s, 3) == Some(Utf8(c)[1]) && ByteAt(s, 6) == Some(Utf8(c)[2])
    ensures DecodeEscapes(s) == Some((c, 9))
  {
    Split3(c as int);
  }

  lemma Decode4(c: char, s: string)
    requires 0x10000 <= c as int
    requires ByteAt(s, 0) == Some(Utf8(c)[0]) && ByteAt(s, 3) == Some(Utf8(c)[1])
    requires ByteAt(s, 6) == Some(Utf8(c)[2]) && ByteAt(s, 9) == Some(Utf8(c)[3])
    ensures DecodeEscapes(s) == Some((c, 12))
  {
    Split4(c as int);
  }

  lemma Split3(n: nat)
    requires n < 0x10000
    ensures n / 4096 < 16
    ensures (n / 4096) * 4096 + ((n / 64) % 64) * 64 + n % 64 == n
  {
    var q := n / 64;
    assert q * 64 + n % 64 == n;
    assert (q / 64) * 64 + q % 64 == q;
    assert n / 4096 == q / 64;
  }

  lemma Split4(n: nat)
    requires n < 0x110000
    ensures n / 262144 < 8
    ensures (n / 262144) * 262144 + ((n / 4096) % 64) * 4096 + ((n / 64) % 64) * 64 + n % 64 == n
  {
    var q := n / 64;
    var q2 := q / 64;
    assert q * 64 + n % 64 == n;
    assert q2 * 64 + q % 64 == q;
    assert (q2 / 64) * 64 + q2 % 64 == q2;
    assert n / 4096 == q2;
    assert n / 262144 == q2 / 64;
  }

  lemma {:induction false} DecodeEncode(s: string, keep: char -> bool, plus: bool)
    requires Decodable(keep, plus)
    ensures Decode(Encode(s, keep, plus), plus) == Some(s)
  {
    if s != [] {
      var c := s[0];
      var e := EncodeChar(c, keep, plus);
      var t := Encode(s[1..], keep, plus);
      DecodeEncode(s[1..], keep, plus);
      assert Encode(s, keep, plus) == e + t;
      if plus && c == ' ' {
        assert (e + t)[1..] == t;
      } else if keep(c) {
        assert (e + t)[0] == c && (e + t)[1..] == t;
      } else {
        Utf8Decodes(c, t);
        assert (e + t)[0] == '%';
        assert (e + t)[|e|..] == t;
      }
      assert s == [c] + s[1..];
    }
  }

  /** What `Encode` writes never holds a character that is neither kept, `+`, `%` nor a hex digit. */
  lemma {:induction false} EncodeAlphabet(s: string, keep: char -> bool, plus: bool, x: char)
    requires !keep(x) && x != '+' && x != '%' && !IsHex(x)
    ensures x !in Encode(s, keep, plus)
  {
    if s != [] {
      EncodeAlphabet(s[1..], keep, plus, x);
      var c := s[0];
      if !(plus && c == ' ') && !keep(c) {
        PercentBytesAlphabet(Utf8(c), x);
      }
    }
  }

  lemma {:induction false} PercentBytesAlphabet(bs: seq<nat>, x: char)
    requires forall k :: 0 <= k < |bs| ==> bs[k] < 256
    requires x != '%' && !IsHex(x)
    ensures x !in PercentBytes(bs)
  {
    if bs != [] {
      PercentBytesAlphabet(bs[1..], x);
    }
  }

  /** The application/x-www-form-urlencoded parser, for text without malformed escapes. */
  function ParsePairs(s: string): Option<seq<(string, string)>>
  {
    if s == "" then Some([]) else ParsePieces(Split(s, '&'))
  }

  /** One `name=value` piece: the name before the first `=`, the value after it. */
  function ParsePiece(piece: string): Option<(string, string)>
  {
    var nv := Split(piece, '=');
    var name := Decode(nv[0], true);
    var value := Decode(Join(nv[1..], "="), true);
    if name.None? || value.None? then None else Some((name.value, value.value))
  }

  function ParsePieces(pieces: seq<string>): Option<seq<(string, string)>>
  {
    if pieces == [] then Some([])
    else
      var pair := ParsePiece(pieces[0]);
      var rest := ParsePieces(pieces[1..]);
      if pair.None? || rest.None? then None
      else Some([pair.value] + rest.value)
  }

  function EncodedPair(p: (string, string)): string {
    FormEncode(p.0) + "=" + FormEncode(p.1)
  }

  function EncodedPairs(pairs: seq<(string, string)>): (r: seq<string>)
    ensures |r| == |pairs|
  {
    if pairs == [] then [] else [EncodedPair(pairs[0])] + EncodedPairs(pairs[1..])
  }

  lemma {:induction false} SerializeIsJoin(pairs: seq<(string, string)>)
    ensures SerializePairs(pairs) == Join(EncodedPairs(pairs), "&")
  {
    if |pairs| > 1 {
      SerializeIsJoin(pairs[1..]);
      assert EncodedPairs(pairs)[1..] == EncodedPairs(pairs[1..]);
    }
  }

  lemma FormEncodeNoSeparators(s: string)
    ensures '&' !in FormEncode(s) && '=' !in FormEncode(s)
  {
    EncodeAlphabet(s, FormKeeps, true, '&');
    EncodeAlphabet(s, FormKeeps, true, '=');
  }

  lemma {:induction false} ParseEncodedPieces(pairs: seq<(string, string)>)
    ensures ParsePieces(EncodedPairs(pairs)) == Some(pairs)
  {
    if pairs != [] {
      ParseEncodedPieces(pairs[1..]);
      PairDecodes(pairs[0]);
      assert EncodedPairs(pairs)[0] == EncodedPair(pairs[0]);
      assert EncodedPairs(pairs)[1..] == EncodedPairs(pairs[1..]);
      assert pairs == [pairs[0]] + pairs[1..];
    }
  }

  /** One piece `name=value` splits at its one `=` and both halves decode back. */
  lemma PairDecodes(p: (string, string))
    ensures ParsePiece(EncodedPair(p)) == Some(p)
  {
    FormEncodeNoSeparators(p.0);
    FormEncodeNoSeparators(p.1);
    SplitJoin([FormEncode(p.0), FormEncode(p.1)], '=');
    assert Join([FormEncode(p.0), FormEncode(p.1)], "=") == EncodedPair(p);
    assert Join([FormEncode(p.1)], "=") == FormEncode(p.1);
    assert Split(EncodedPair(p), '=')[1..] == [FormEncode(p.1)];
    DecodeEncode(p.0, FormKeeps, true);
    DecodeEncode(p.1, FormKeeps, true);
  }

  /** Parsing the serialized query gives back exactly the appended pairs, in order. */
  lemma SerializeRoundTrip(pairs: seq<(string, string)>)
    ensures ParsePairs(SerializePairs(pairs)) == Some(pairs)
  {
    SerializeIsJoin(pairs);
    ParseEncodedPieces(pairs);
    if pairs == [] {
    } else {
      assert SerializePairs(pairs) != "" by {
        assert EncodedPairs(pairs)[0] == EncodedPair(pairs[0]);
        assert '=' in EncodedPair(pairs[0]);
        JoinContains(EncodedPairs(pairs), "&");
      }
      var pieces := EncodedPairs(pairs);
      forall k | 0 <= k < |pieces| ensures '&' !in pieces[k] {
        PieceNoAmp(pairs, k);
      }
      SplitJoin(pieces, '&');
    }
  }

  lemma {:induction false} PieceNoAmp(pairs: seq<(string, string)>, k: nat)
    requires k < |pairs|
    ensures '&' !in EncodedPairs(pairs)[k]
  {
    if k == 0 {
      FormEncodeNoSeparators(pairs[0].0);
      FormEncodeNoSeparators(pairs[0].1);
    } else {
      PieceNoAmp(pairs[1..], k - 1);
      assert EncodedPairs(pairs)[k] == EncodedPairs(pairs[1..])[k - 1];
    }
  }

  lemma {:induction false} JoinContains(parts: seq<string>, sep: string)
    requires |parts| >= 1
    ensures |Join(parts, sep)| >= |parts[0]|
  {
  }

  /** An empty list serializes to the empty string, and a non-empty one never does. */
  lemma SerializeEmptyIff(pairs: seq<(string, string)>)
    ensures SerializePairs(pairs) == "" <==> pairs == []
  {
    SerializeRoundTrip(pairs);
  }
}
