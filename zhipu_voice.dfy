/**
 * Query-string construction of the Zhipu voice API
 * (crates/zhipu/src/voice.rs): percent-encoding of a query value as in
 * sections 2.1 and 2.3 of RFC 3986, and the URL that `Voice::list` requests.
 */
module ZhipuVoice {
  import opened Wrappers
  import opened Wire
  import Utf8
  import opened Strings

  /** The unreserved characters of section 2.3 of RFC 3986, copied unchanged. */
  predicate IsUnreserved(c: char) {
    ('a' <= c <= 'z') || ('A' <= c <= 'Z') || ('0' <= c <= '9') || c == '-' || c == '_' || c == '.' || c == '~'
  }

  /** The uppercase hexadecimal digit of a value below 16 (`{:X}`). */
  function HexDigit(v: int): (c: char)
    requires 0 <= v < 16
    ensures IsUnreserved(c)
  {
    if v < 10 then ('0' as int + v) as char else ('A' as int + (v - 10)) as char
  }

  /** `format!("%{:02X}", b)`: a percent sign and two uppercase hexadecimal digits. */
  function PercentByte(b: byte): (r: string)
    ensures |r| == 3
  {
    ['%', HexDigit(b / 16), HexDigit(b % 16)]
  }

  /** The percent-encoded form of a sequence of bytes. */
  function PercentBytes(bs: seq<byte>): (r: string)
    ensures |r| == 3 * |bs|
  {
    if bs == [] then [] else PercentByte(bs[0]) + PercentBytes(bs[1..])
  }

  /**
   * What `url_encode` writes for one character: an unreserved character
   * itself, any other character three characters per byte of its UTF-8
   * encoding.
   */
  function EncodeUrlChar(c: char): (r: string)
    ensures IsUnreserved(c) ==> r == [c]
    ensures !IsUnreserved(c) ==> |r| == 3 * |Utf8.EncodeChar(c)|
  {
    if IsUnreserved(c) then [c] else PercentBytes(Utf8.EncodeChar(c))
  }

  /**
   * The meaning of `url_encode(s)`: the encodings of the characters, in
   * order. It is never shorter than `s`, and leaves a string of unreserved
   * characters unchanged.
   */
  function UrlEncoded(s: string): (r: string)
    ensures |r| >= |s|
    ensures (forall i :: 0 <= i < |s| ==> IsUnreserved(s[i])) ==> r == s
  {
    if s == [] then [] else EncodeUrlChar(s[0]) + UrlEncoded(s[1..])
  }

  /**
   * `url_encode`: walks the characters, pushing unreserved ones and, for
   * every other one, `%XX` for each byte of its UTF-8 encoding.
   */
  method UrlEncode(s: string) returns (result: string)
    ensures result == UrlEncoded(s)
  {
    result := "";
    for i := 0 to |s|
      invariant result == UrlEncoded(s[..i])
    {
      var c := s[i];
      UrlEncodedSnoc(s[..i], c);
      assert s[..i + 1] == s[..i] + [c];
      if IsUnreserved(c) {
        result := result + [c];
      } else {
        var bytes := Utf8.EncodeChar(c);
        result := PushPercentBytes(result, bytes);
      }
    }
    assert s[..|s|] == s;
  }

  /** The inner loop of `url_encode`: `%XX` pushed for each byte. */
  method PushPercentBytes(prefix: string, bytes: seq<byte>) returns (result: string)
    ensures result == prefix + PercentBytes(bytes)
  {
    result := prefix;
    for j := 0 to |bytes|
      invariant result == prefix + PercentBytes(bytes[..j])
    {
      PercentBytesSnoc(bytes[..j], bytes[j]);
      assert bytes[..j + 1] == bytes[..j] + [bytes[j]];
      result := result + PercentByte(bytes[j]);
    }
    assert bytes[..|bytes|] == bytes;
  }

  lemma {:induction false} PercentBytesAppend(a: seq<byte>, b: seq<byte>)
    ensures PercentBytes(a + b) == PercentBytes(a) + PercentBytes(b)
    decreases |a|
  {
    if a == [] {
      assert a + b == b;
    } else {
      assert (a + b)[0] == a[0];
      assert (a + b)[1..] == a[1..] + b;
      PercentBytesAppend(a[1..], b);
    }
  }

  lemma PercentBytesSnoc(a: seq<byte>, b: byte)
    ensures PercentBytes(a + [b]) == PercentBytes(a) + PercentByte(b)
  {
    PercentBytesAppend(a, [b]);
    assert PercentBytes([b]) == PercentByte(b) + PercentBytes([]);
  }

  /** Encoding distributes over concatenation: `url_encode(a ++ b) == url_encode(a) ++ url_encode(b)`. */
  lemma {:induction false} UrlEncodedAppend(a: string, b: string)
    ensures UrlEncoded(a + b) == UrlEncoded(a) + UrlEncoded(b)
    decreases |a|
  {
    if a == [] {
      assert a + b == b;
    } else {
      assert (a + b)[0] == a[0];
      assert (a + b)[1..] == a[1..] + b;
      UrlEncodedAppend(a[1..], b);
    }
  }

  lemma UrlEncodedSnoc(a: string, c: char)
    ensures UrlEncoded(a + [c]) == UrlEncoded(a) + EncodeUrlChar(c)
  {
    UrlEncodedAppend(a, [c]);
    assert UrlEncoded([c]) == EncodeUrlChar(c) + UrlEncoded([]);
  }

  /**
   * Per character: an unreserved character is copied unchanged, and any
   * other becomes `%XX`, two uppercase hex digits, once per byte of its
   * UTF-8 encoding.
   */
  lemma EncodeUrlCharCases(c: char)
    ensures IsUnreserved(c) ==> EncodeUrlChar(c) == [c]
    ensures !IsUnreserved(c) ==>
      var bs := Utf8.EncodeChar(c);
      && |EncodeUrlChar(c)| == 3 * |bs|
      && forall k :: 0 <= k < |bs| ==>
           EncodeUrlChar(c)[3 * k..3 * k + 3] == ['%', HexDigit(bs[k] / 16), HexDigit(bs[k] % 16)]
  {
    if !IsUnreserved(c) {
      var bs := Utf8.EncodeChar(c);
      forall k | 0 <= k < |bs|
        ensures PercentBytes(bs)[3 * k..3 * k + 3] == PercentByte(bs[k])
      {
        PercentBytesAt(bs, k);
      }
    }
  }

  lemma {:induction false} PercentBytesAt(bs: seq<byte>, k: nat)
    requires k < |bs|
    ensures PercentBytes(bs)[3 * k..3 * k + 3] == PercentByte(bs[k])
    decreases k
  {
    if k > 0 {
      PercentBytesAt(bs[1..], k - 1);
      assert PercentBytes(bs) == PercentByte(bs[0]) + PercentBytes(bs[1..]);
      assert PercentBytes(bs)[3 * k..3 * k + 3] == PercentBytes(bs[1..])[3 * (k - 1)..3 * (k - 1) + 3];
    }
  }

  /** The length `url_encode` promises: one per unreserved character, three per UTF-8 byte of the others. */
  function EncodedLength(s: string): nat {
    if s == [] then 0
    else (if IsUnreserved(s[0]) then 1 else 3 * |Utf8.EncodeChar(s[0])|) + EncodedLength(s[1..])
  }

  /** The output length formula and the output alphabet: only unreserved characters and `%`. */
  lemma {:induction false} UrlEncodedShape(s: string)
    ensures |UrlEncoded(s)| == EncodedLength(s)
    ensures forall i :: 0 <= i < |UrlEncoded(s)| ==> IsUnreserved(UrlEncoded(s)[i]) || UrlEncoded(s)[i] == '%'
    decreases |s|
  {
    if s != [] {
      UrlEncodedShape(s[1..]);
      PercentBytesAlphabet(Utf8.EncodeChar(s[0]));
      var head := EncodeUrlChar(s[0]);
      var tail := UrlEncoded(s[1..]);
      assert UrlEncoded(s) == head + tail;
      forall i | 0 <= i < |head + tail|
        ensures IsUnreserved((head + tail)[i]) || (head + tail)[i] == '%'
      {
        if i >= |head| {
          assert (head + tail)[i] == tail[i - |head|];
        }
      }
    }
  }

  lemma {:induction false} PercentBytesAlphabet(bs: seq<byte>)
    ensures forall i :: 0 <= i < |PercentBytes(bs)| ==> IsUnreserved(PercentBytes(bs)[i]) || PercentBytes(bs)[i] == '%'
    decreases |bs|
  {
    if bs != [] {
      PercentBytesAlphabet(bs[1..]);
      var head := PercentByte(bs[0]);
      var tail := PercentBytes(bs[1..]);
      forall i | 0 <= i < |head + tail|
        ensures IsUnreserved((head + tail)[i]) || (head + tail)[i] == '%'
      {
        if i >= 3 {
          assert (head + tail)[i] == tail[i - 3];
        }
      }
    }
  }

  // ---------------------------------------------------------------------------
  // Decoding, the partner of the encoder
  // ---------------------------------------------------------------------------

  predicate IsHexDigit(c: char) {
    ('0' <= c <= '9') || ('A' <= c <= 'F')
  }

  function HexValue(c: char): (v: int)
    requires IsHexDigit(c)
    ensures 0 <= v < 16
  {
    if '0' <= c <= '9' then c as int - '0' as int else c as int - 'A' as int + 10
  }

  /**
   * Percent-decoding into bytes (section 2.1 of RFC 3986): `%XX` gives the
   * byte `XX`, an unreserved character gives its ASCII code; anything else
   * is rejected.
   */
  function PercentDecode(t: string): Option<seq<byte>>
    decreases |t|
  {
    if t == [] then Some([])
    else if t[0] == '%' then
      if |t| >= 3 && IsHexDigit(t[1]) && IsHexDigit(t[2]) then
        match PercentDecode(t[3..])
        case Some(rest) => Some([HexValue(t[1]) * 16 + HexValue(t[2])] + rest)
        case None => None
      else None
    else if IsUnreserved(t[0]) then
      match PercentDecode(t[1..])
      case Some(rest) => Some([t[0] as int] + rest)
      case None => None
    else None
  }

  lemma HexDigitValue(v: int)
    requires 0 <= v < 16
    ensures IsHexDigit(HexDigit(v)) && HexValue(HexDigit(v)) == v
  {
  }

  /** Some(b) prepended to an optional byte sequence. */
  function PrependBytes(bs: seq<byte>, o: Option<seq<byte>>): Option<seq<byte>> {
    match o
    case Some(rest) => Some(bs + rest)
    case None => None
  }

  /** Decoding one `%XX` triple in front of `t`. */
  lemma PercentDecodeByte(b: byte, t: string)
    ensures PercentDecode(PercentByte(b) + t) == PrependBytes([b], PercentDecode(t))
  {
    var u := PercentByte(b) + t;
    HexDigitValue(b / 16);
    HexDigitValue(b % 16);
    assert u[0] == '%' && u[1] == HexDigit(b / 16) && u[2] == HexDigit(b % 16);
    assert u[3..] == t;
  }

  /** Decoding the percent-encoding of some bytes in front of `t`. */
  lemma {:induction false} PercentDecodeBytes(bs: seq<byte>, t: string)
    ensures PercentDecode(PercentBytes(bs) + t) == PrependBytes(bs, PercentDecode(t))
    decreases |bs|
  {
    if bs == [] {
      assert PercentBytes(bs) + t == t;
      if PercentDecode(t).Some? {
        assert bs + PercentDecode(t).value == PercentDecode(t).value;
      }
    } else {
      var b := bs[0];
      assert PercentBytes(bs) + t == PercentByte(b) + (PercentBytes(bs[1..]) + t);
      PercentDecodeByte(b, PercentBytes(bs[1..]) + t);
      PercentDecodeBytes(bs[1..], t);
      PrependTwice([b], bs[1..], PercentDecode(t));
      assert [b] + bs[1..] == bs;
    }
  }

  lemma PrependTwice(xs: seq<byte>, ys: seq<byte>, o: Option<seq<byte>>)
    ensures PrependBytes(xs, PrependBytes(ys, o)) == PrependBytes(xs + ys, o)
  {
    if o.Some? {
      assert xs + (ys + o.value) == (xs + ys) + o.value;
    }
  }

  /** Decoding what was encoded gives the UTF-8 bytes of the original string. */
  lemma {:induction false} PercentDecodeUrlEncoded(s: string)
    ensures PercentDecode(UrlEncoded(s)) == Some(Utf8.Encode(s))
    decreases |s|
  {
    if s != [] {
      var c := s[0];
      var tail := UrlEncoded(s[1..]);
      PercentDecodeUrlEncoded(s[1..]);
      if IsUnreserved(c) {
        assert UrlEncoded(s) == [c] + tail;
        assert ([c] + tail)[1..] == tail;
      } else {
        PercentDecodeBytes(Utf8.EncodeChar(c), tail);
      }
    }
  }

  // ---------------------------------------------------------------------------
  // Voice::list
  // ---------------------------------------------------------------------------

  /** `VoiceType`. */
  datatype VoiceType = Official | Private

  /** `VoiceListQuery`: the two optional filters. */
  datatype VoiceListQuery = VoiceListQuery(voiceName: Option<string>, voiceType: Option<VoiceType>)

  /** How `list` writes a voice type in the query. */
  function VoiceTypeParam(t: VoiceType): (r: string)
    ensures r == if t == Official then "OFFICIAL" else "PRIVATE"
  {
    match t
    case Official => "OFFICIAL"
    case Private => "PRIVATE"
  }

  /** The query parameters `list` collects, in order: `voiceName=` (percent-encoded) before `voiceType=`. */
  function Params(q: VoiceListQuery): seq<string> {
    (if q.voiceName.Some? then ["voiceName=" + UrlEncoded(q.voiceName.value)] else [])
    + (if q.voiceType.Some? then ["voiceType=" + VoiceTypeParam(q.voiceType.value)] else [])
  }

  /**
   * What `list` appends to the endpoint URL: nothing without filters, else
   * `?` and the parameters joined by `&`. It is empty exactly when no filter
   * is set, and otherwise starts with `?`.
   */
  function QueryString(query: Option<VoiceListQuery>): (r: string)
    ensures r == "" <==> query.None? || (query.value.voiceName.None? && query.value.voiceType.None?)
    ensures r != "" ==> r[0] == '?'
  {
    if query.None? || Params(query.value) == [] then "" else "?" + Join(Params(query.value), "&")
  }

  /**
   * `Voice::list` builds its URL from the endpoint URL `url`: it collects
   * the parameters into a vector and, when there are any, appends `?` and
   * their `&`-join.
   */
  method ListUrl(url: string, query: Option<VoiceListQuery>) returns (result: string)
    ensures result == url + QueryString(query)
  {
    result := url;
    if query.Some? {
      var q := query.value;
      var params: seq<string> := [];
      if q.voiceName.Some? {
        var encoded := UrlEncode(q.voiceName.value);
        params := params + ["voiceName=" + encoded];
      }
      if q.voiceType.Some? {
        var typeStr := VoiceTypeParam(q.voiceType.value);
        params := params + ["voiceType=" + typeStr];
      }
      assert params == Params(q);
      if |params| != 0 {
        result := result + "?" + Join(params, "&");
      }
    }
    assert result == url + QueryString(query);
  }

  /**
   * The four cases of the URL: unchanged without a query or without
   * filters; otherwise `?voiceName=<encoded>`, `?voiceType=<type>`, or
   * both joined by `&` with the name first.
   */
  lemma QueryStringCases(query: Option<VoiceListQuery>)
    ensures query.None? || (query.value.voiceName.None? && query.value.voiceType.None?) ==> QueryString(query) == ""
    ensures query.Some? && query.value.voiceName.Some? && query.value.voiceType.None? ==>
      QueryString(query) == "?" + ("voiceName=" + UrlEncoded(query.value.voiceName.value))
    ensures query.Some? && query.value.voiceName.None? && query.value.voiceType.Some? ==>
      QueryString(query) == "?" + ("voiceType=" + VoiceTypeParam(query.value.voiceType.value))
    ensures query.Some? && query.value.voiceName.Some? && query.value.voiceType.Some? ==>
      QueryString(query) == "?" + ("voiceName=" + UrlEncoded(query.value.voiceName.value))
                            + "&" + ("voiceType=" + VoiceTypeParam(query.value.voiceType.value))
  {
    if query.Some? {
      var ps := Params(query.value);
      if |ps| == 2 {
        assert Join(ps, "&") == ps[0] + "&" + Join(ps[1..], "&");
        assert Join(ps[1..], "&") == ps[1];
      }
    }
  }
}
