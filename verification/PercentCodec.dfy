/** Percent-encoding as the host's encodeURIComponent and decodeURIComponent do it: section 2.1 of
    RFC 3986 over UTF-8.  A Dafny char is a Unicode scalar value, so a string here is exactly a
    well-formed string of the source (one without lone surrogates). */
module PercentCodec {
  import opened Wrappers

  type Octet = n: nat | n < 256

  const MARKS := "-_.!~*'()"

  predicate Unreserved(c: char) {
    'A' <= c <= 'Z' || 'a' <= c <= 'z' || '0' <= c <= '9' || c in MARKS
  }

  function Utf8(c: char): seq<Octet> {
    var n := c as int;
    if n < 0x80 then [n]
    else if n < 0x800 then [0xC0 + n / 64, 0x80 + n % 64]
    else if n < 0x10000 then [0xE0 + n / 4096, 0x80 + n / 64 % 64, 0x80 + n % 64]
    else [0xF0 + n / 262144, 0x80 + n / 4096 % 64, 0x80 + n / 64 % 64, 0x80 + n % 64]
  }

  predicate Continuation(o: Octet) {
    0x80 <= o < 0xC0
  }

  /** How many octets the encoding that starts with this octet has; 0 for an octet that starts none. */
  function SequenceLength(lead: Octet): nat {
    if lead < 0x80 then 1
    else if lead < 0xC0 then 0
    else if lead < 0xE0 then 2
    else if lead < 0xF0 then 3
    else if lead < 0xF8 then 4
    else 0
  }

  /** The scalar value that the octets encode; overlong forms and surrogates are refused. */
  function FromUtf8(o: seq<Octet>): Option<char> {
    if |o| == 1 && o[0] < 0x80 then
      Some(o[0] as char)
    else if |o| == 2 && SequenceLength(o[0]) == 2 && Continuation(o[1]) then
      var n: int := (o[0] as int - 0xC0) * 64 + (o[1] as int - 0x80);
      if 0x80 <= n then Some(n as char) else None
    else if |o| == 3 && SequenceLength(o[0]) == 3 && Continuation(o[1]) && Continuation(o[2]) then
      var n: int := (o[0] as int - 0xE0) * 4096 + (o[1] as int - 0x80) * 64 + (o[2] as int - 0x80);
      if 0x800 <= n && !(0xD800 <= n < 0xE000) then Some(n as char) else None
    else if |o| == 4 && SequenceLength(o[0]) == 4
            && Continuation(o[1]) && Continuation(o[2]) && Continuation(o[3]) then
      var n: int := (o[0] as int - 0xF0) * 262144 + (o[1] as int - 0x80) * 4096 + (o[2] as int - 0x80) * 64 + (o[3] as int - 0x80);
      if 0x10000 <= n < 0x110000 then Some(n as char) else None
    else
      None
  }

  function HexDigit(n: nat): char
    requires n < 16
  {
    if n < 10 then ('0' as int + n) as char else ('A' as int + n - 10) as char
  }

  function HexValue(c: char): Option<nat> {
    if '0' <= c <= '9' then Some(c as int - '0' as int)
    else if 'A' <= c <= 'F' then Some(c as int - 'A' as int + 10)
    else if 'a' <= c <= 'f' then Some(c as int - 'a' as int + 10)
    else None
  }

  function Triplet(o: Octet): string {
    ['%', HexDigit(o / 16), HexDigit(o % 16)]
  }

  function Triplets(os: seq<Octet>): string {
    if os == [] then "" else Triplet(os[0]) + Triplets(os[1..])
  }

  function EncodeChar(c: char): string {
    if Unreserved(c) then [c] else Triplets(Utf8(c))
  }

  function Encode(s: string): string {
    if s == "" then "" else EncodeChar(s[0]) + Encode(s[1..])
  }

  /** The octet written by the triplet that the string starts with, if it starts with one. */
  function LeadingOctet(s: string): Option<Octet> {
    if 3 <= |s| && s[0] == '%' && HexValue(s[1]).Some? && HexValue(s[2]).Some? then
      Some(HexValue(s[1]).value * 16 + HexValue(s[2]).value)
    else None
  }

  function LeadingOctets(s: string, n: nat): Option<seq<Octet>>
    decreases n
  {
    if n == 0 then Some([])
    else if LeadingOctet(s).None? then None
    else
      var tail := LeadingOctets(s[3..], n - 1);
      if tail.Some? then Some([LeadingOctet(s).value] + tail.value) else None
  }

  /** The first decoded character of a nonempty string and how many characters it took. */
  function DecodeOne(s: string): (r: Result<(char, nat)>)
    requires s != ""
    ensures r.Ok? ==> 1 <= r.value.1 <= |s|
  {
    if s[0] != '%' then Ok((s[0], 1))
    else
      match LeadingOctet(s)
      case None => Err("URI malformed")
      case Some(lead) =>
        var n := SequenceLength(lead);
        if n == 0 || |s| < 3 * n then Err("URI malformed")
        else
          match LeadingOctets(s, n)
          case None => Err("URI malformed")
          case Some(octets) =>
            match FromUtf8(octets)
            case None => Err("URI malformed")
            case Some(c) => Ok((c, 3 * n))
  }

  function Decode(s: string): Result<string> {
    if s == "" then Ok("")
    else
      var first :- DecodeOne(s);
      var rest :- Decode(s[first.1..]);
      Ok([first.0] + rest)
  }

  lemma TwoOctets(c: char)
    requires 0x80 <= c as int < 0x800
    ensures FromUtf8(Utf8(c)) == Some(c)
  {
    var n := c as int;
    assert n / 64 * 64 + n % 64 == n;
  }

  lemma ThreeOctets(c: char)
    requires 0x800 <= c as int < 0x10000
    ensures FromUtf8(Utf8(c)) == Some(c)
  {
    var n := c as int;
    assert n / 4096 * 4096 + n / 64 % 64 * 64 + n % 64 == n;
  }

  lemma FourOctets(c: char)
    requires 0x10000 <= c as int
    ensures FromUtf8(Utf8(c)) == Some(c)
  {
    var n := c as int;
    assert n / 262144 * 262144 + n / 4096 % 64 * 4096 + n / 64 % 64 * 64 + n % 64 == n;
  }

  lemma Utf8RoundTrip(c: char)
    ensures FromUtf8(Utf8(c)) == Some(c)
    ensures SequenceLength(Utf8(c)[0]) == |Utf8(c)|
  {
    if 0x10000 <= c as int {
      FourOctets(c);
    } else if 0x800 <= c as int {
      ThreeOctets(c);
    } else if 0x80 <= c as int {
      TwoOctets(c);
    }
  }

  lemma TripletDecode(o: Octet, rest: string)
    ensures LeadingOctet(Triplet(o) + rest) == Some(o)
  {
    assert o == o / 16 * 16 + o % 16;
  }

  lemma LeadingOctetsStep(o: Octet, tail: string, os: seq<Octet>)
    requires LeadingOctets(tail, |os|) == Some(os)
    ensures LeadingOctets(Triplet(o) + tail, 1 + |os|) == Some([o] + os)
  {
    TripletDecode(o, tail);
    assert (Triplet(o) + tail)[3..] == tail;
  }

  lemma {:induction false} TripletsDecode(os: seq<Octet>, rest: string)
    ensures LeadingOctets(Triplets(os) + rest, |os|) == Some(os)
    ensures |Triplets(os)| == 3 * |os|
  {
    if os == [] {
    } else {
      TripletsDecode(os[1..], rest);
      LeadingOctetsStep(os[0], Triplets(os[1..]) + rest, os[1..]);
      assert Triplets(os) + rest == Triplet(os[0]) + (Triplets(os[1..]) + rest);
      assert [os[0]] + os[1..] == os;
    }
  }

  lemma DecodeOctets(s: string, os: seq<Octet>, c: char)
    requires s != "" && s[0] == '%' && os != [] && |s| >= 3 * |os|
    requires LeadingOctets(s, |os|) == Some(os) && SequenceLength(os[0]) == |os| && FromUtf8(os) == Some(c)
    ensures DecodeOne(s) == Ok((c, 3 * |os|))
  {
    assert LeadingOctet(s) == Some(os[0]);
  }

  lemma DecodeEncodedChar(c: char, rest: string)
    ensures EncodeChar(c) != ""
    ensures DecodeOne(EncodeChar(c) + rest) == Ok((c, |EncodeChar(c)|))
  {
    if !Unreserved(c) {
      Utf8RoundTrip(c);
      TripletsDecode(Utf8(c), rest);
      DecodeOctets(Triplets(Utf8(c)) + rest, Utf8(c), c);
    }
  }

  /** Decoding undoes encoding, for every well-formed string. */
  lemma {:induction false} DecodeEncode(s: string)
    ensures Decode(Encode(s)) == Ok(s)
  {
    if s != "" {
      DecodeEncodedChar(s[0], Encode(s[1..]));
      assert Encode(s)[|EncodeChar(s[0])|..] == Encode(s[1..]);
      DecodeEncode(s[1..]);
      assert [s[0]] + s[1..] == s;
    }
  }

  lemma {:induction false} TripletsAlphabet(os: seq<Octet>, c: char)
    requires c in Triplets(os)
    ensures Unreserved(c) || c == '%'
  {
    if c in Triplet(os[0]) {
      assert c == '%' || '0' <= c <= '9' || 'A' <= c <= 'F';
    } else {
      TripletsAlphabet(os[1..], c);
    }
  }

  /** Encoded text holds only unreserved characters and percent signs, so no cookie separator. */
  lemma {:induction false} EncodeAlphabet(s: string, c: char)
    requires c in Encode(s)
    ensures Unreserved(c) || c == '%'
  {
    if c in EncodeChar(s[0]) {
      if !Unreserved(s[0]) {
        TripletsAlphabet(Utf8(s[0]), c);
      }
    } else {
      EncodeAlphabet(s[1..], c);
    }
  }

  lemma HexDigits(n: nat)
    requires n < 16
    ensures HexDigit(n) == "0123456789ABCDEF"[n]
    ensures HexValue("0123456789ABCDEF"[n]) == Some(n)
    ensures HexValue("0123456789abcdef"[n]) == Some(n)
  {
    var upper, lower := "0123456789ABCDEF", "0123456789abcdef";
    if n < 10 {
      assert upper[n] as int == '0' as int + n && lower[n] == upper[n];
    } else {
      assert upper[n] as int == 'A' as int + n - 10 && lower[n] as int == 'a' as int + n - 10;
    }
  }

  lemma DecodeAscii(hi: char, lo: char, n: nat)
    requires n < 0x80 && HexValue(hi) == Some(n / 16) && HexValue(lo) == Some(n % 16)
    ensures Decode(['%', hi, lo]) == Ok([n as char])
  {
    var s := ['%', hi, lo];
    assert LeadingOctet(s) == Some(n);
    assert LeadingOctets(s[3..], 0) == Some([]);
    assert [n as Octet] + [] == [n];
    assert LeadingOctets(s, 1) == Some([n]);
    assert FromUtf8([n]) == Some(n as char);
    assert DecodeOne(s) == Ok((n as char, 3));
    assert s[3..] == "" && Decode("") == Ok("");
    assert [n as char] + "" == [n as char];
  }

  lemma Marks(c: char)
    ensures Unreserved(c) ==
            ('A' <= c <= 'Z' || 'a' <= c <= 'z' || '0' <= c <= '9'
             || c == '-' || c == '_' || c == '.' || c == '!' || c == '~' || c == '*' || c == '\'' || c == '(' || c == ')')
  {
    assert MARKS == ['-', '_', '.', '!', '~', '*', '\'', '(', ')'];
  }

  lemma EncodeAscii(n: nat)
    requires n < 0x80
    ensures Encode([n as char]) == if Unreserved(n as char) then [n as char] else Triplet(n)
  {
    var c := n as char;
    assert [c][1..] == "" && Encode("") == "";
    assert Encode([c]) == EncodeChar(c) + "";
    assert Utf8(c) == [n] && [n as Octet][1..] == [];
    assert Triplets([n]) == Triplet(n) + "";
  }

  /** What the codec writes and reads for one ASCII character: letters, digits and the nine marks stand for
      themselves, every other becomes a percent sign and two upper-case hexadecimal digits, and digits of
      either case are read. */
  lemma SingleOctets(n: nat)
    requires n < 0x80
    ensures var c := n as char;
      Encode([c]) ==
      if 'A' <= c <= 'Z' || 'a' <= c <= 'z' || '0' <= c <= '9'
         || c == '-' || c == '_' || c == '.' || c == '!' || c == '~' || c == '*' || c == '\'' || c == '(' || c == ')'
      then [c]
      else ['%', "0123456789ABCDEF"[n / 16], "0123456789ABCDEF"[n % 16]]
    ensures Decode(['%', "0123456789ABCDEF"[n / 16], "0123456789ABCDEF"[n % 16]]) == Ok([n as char])
    ensures Decode(['%', "0123456789abcdef"[n / 16], "0123456789abcdef"[n % 16]]) == Ok([n as char])
  {
    HexDigits(n / 16);
    HexDigits(n % 16);
    Marks(n as char);
    EncodeAscii(n);
    DecodeAscii("0123456789ABCDEF"[n / 16], "0123456789ABCDEF"[n % 16], n);
    DecodeAscii("0123456789abcdef"[n / 16], "0123456789abcdef"[n % 16], n);
  }
}
