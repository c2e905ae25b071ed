/** The Cookie request header: src/utils/req-header-cookie.ts.  The header is the cookie-string of
    section 4.2.1 of RFC 6265 with percent-encoded names and values. */
module Cookies {
  import opened Wrappers
  import opened PercentCodec

  // Assigning a string to this name of a plain object reaches the prototype setter, which ignores it.
  const PROTO := "__proto__"

  /** The pieces of s between the leftmost non-overlapping occurrences of sep. */
  function Split(s: string, sep: string): (parts: seq<string>)
    requires sep != ""
    ensures parts != []
  {
    if |s| < |sep| then [s]
    else if s[..|sep|] == sep then [""] + Split(s[|sep|..], sep)
    else
      var rest := Split(s[1..], sep);
      [[s[0]] + rest[0]] + rest[1..]
  }

  function Join(parts: seq<string>, sep: string): string {
    if parts == [] then ""
    else if |parts| == 1 then parts[0]
    else parts[0] + sep + Join(parts[1..], sep)
  }

  function Put(cookies: map<string, string>, name: string, value: string): map<string, string> {
    if name == PROTO then cookies else cookies[name := value]
  }

  /** Adds one piece of the header; a missing value counts as the empty string. */
  function AddPair(cookies: map<string, string>, piece: string): Result<map<string, string>> {
    var pair := Split(piece, "=");
    var name :- Decode(pair[0]);
    var value :- Decode(if |pair| > 1 then pair[1] else "");
    Ok(Put(cookies, name, value))
  }

  function AddPairs(pieces: seq<string>): Result<map<string, string>> {
    if pieces == [] then Ok(map[])
    else
      var cookies :- AddPairs(pieces[..|pieces| - 1]);
      AddPair(cookies, pieces[|pieces| - 1])
  }

  function ParseHeader(header: string): Result<map<string, string>> {
    if header == "" then Ok(map[]) else AddPairs(Split(header, "; "))
  }

  function Pair(name: string, value: string): string {
    Encode(name) + "=" + Encode(value)
  }

  function Pairs(names: seq<string>, cookies: map<string, string>): (pairs: seq<string>)
    requires forall name :: name in names ==> name in cookies
    ensures |pairs| == |names|
  {
    if names == [] then []
    else
      var last := names[|names| - 1];
      Pairs(names[..|names| - 1], cookies) + [Pair(last, cookies[last])]
  }

  /** names lists the keys of the object in the order in which the host enumerates them. */
  ghost predicate Enumerates(names: seq<string>, cookies: map<string, string>) {
    && (forall name :: name in cookies <==> name in names)
    && (forall i, j :: 0 <= i < j < |names| ==> names[i] != names[j])
  }

  function Stringify(names: seq<string>, cookies: map<string, string>): string
    requires forall name :: name in names ==> name in cookies
  {
    Join(Pairs(names, cookies), "; ")
  }

  method Parse(header: string) returns (r: Result<map<string, string>>)
    ensures r == ParseHeader(header)
  {
    if header == "" {
      return Ok(map[]);
    }
    var pieces := Split(header, "; ");
    var cookies := Ok(map[]);
    for i := 0 to |pieces|
      invariant cookies == AddPairs(pieces[..i])
    {
      assert pieces[..i + 1][..i] == pieces[..i];
      if cookies.Ok? {
        cookies := AddPair(cookies.value, pieces[i]);
      }
    }
    assert pieces[..|pieces|] == pieces;
    return cookies;
  }

  class Request {
    var cookie: string

    /** order: how the host enumerates the parsed object once the name is deleted. */
    method Remove(name: string, order: seq<string>) returns (r: Result<()>)
      requires ParseHeader(cookie).Ok? ==> Enumerates(order, ParseHeader(cookie).value - {name})
      modifies this
      ensures old(ParseHeader(cookie)).Ok? ==>
                r.Ok? && ParseHeader(cookie) == Ok(old(ParseHeader(cookie)).value - {name})
      ensures old(ParseHeader(cookie)).Err? ==> r.Err? && cookie == old(cookie)
    {
      if cookie == "" {
        assert ParseHeader(cookie).value - {name} == ParseHeader(cookie).value;
        return Ok(());
      }
      var parsed := Parse(cookie);
      if parsed.Err? {
        return Err(parsed.error);
      }
      var cookies := parsed.value - {name};
      ParsedHasNoProto(Split(cookie, "; "));
      RoundTrip(order, cookies);
      cookie := Stringify(order, cookies);
      return Ok(());
    }
  }

  lemma {:induction false} SplitFirst(part: string, sep: string, rest: string)
    requires sep != "" && sep[0] !in part
    ensures Split(part, sep) == [part]
    ensures Split(part + sep + rest, sep) == [part] + Split(rest, sep)
  {
    var s := part + sep + rest;
    if part == "" {
      assert s[..|sep|] == sep && s[|sep|..] == rest;
    } else {
      assert s[0] == part[0] && s[1..] == part[1..] + sep + rest;
      assert s[..|sep|][0] != sep[0];
      SplitFirst(part[1..], sep, rest);
      assert [part[0]] + part[1..] == part;
      assert |part| >= |sep| ==> part[..|sep|][0] != sep[0];
    }
  }

  /** Splitting undoes joining when no part contains the separator's first character. */
  lemma {:induction false} SplitJoin(parts: seq<string>, sep: string)
    requires sep != "" && parts != []
    requires forall p :: p in parts ==> sep[0] !in p
    ensures Split(Join(parts, sep), sep) == parts
  {
    SplitFirst(parts[0], sep, Join(parts[1..], sep));
    if |parts| > 1 {
      SplitJoin(parts[1..], sep);
    }
  }

  lemma EncodedIsPlain(s: string)
    ensures '=' !in Encode(s) && ';' !in Encode(s)
  {
    if '=' in Encode(s) {
      EncodeAlphabet(s, '=');
    }
    if ';' in Encode(s) {
      EncodeAlphabet(s, ';');
    }
  }

  lemma {:induction false} SplitPair(name: string, value: string)
    ensures Split(Pair(name, value), "=") == [Encode(name), Encode(value)]
    ensures ';' !in Pair(name, value)
  {
    EncodedIsPlain(name);
    EncodedIsPlain(value);
    SplitFirst(Encode(name), "=", Encode(value));
    SplitFirst(Encode(value), "=", "");
  }

  lemma AddEncodedPair(cookies: map<string, string>, name: string, value: string)
    ensures AddPair(cookies, Pair(name, value)) == Ok(Put(cookies, name, value))
    ensures ';' !in Pair(name, value)
  {
    SplitPair(name, value);
    DecodeEncode(name);
    DecodeEncode(value);
  }

  lemma {:induction false} PairsAt(names: seq<string>, cookies: map<string, string>, i: nat)
    requires i < |names| && forall name :: name in names ==> name in cookies
    ensures Pairs(names, cookies)[i] == Pair(names[i], cookies[names[i]])
  {
    if i < |names| - 1 {
      PairsAt(names[..|names| - 1], cookies, i);
    }
  }

  /** The cookies under the names put one after the other. */
  function PutAll(names: seq<string>, cookies: map<string, string>): map<string, string>
    requires forall name :: name in names ==> name in cookies
  {
    if names == [] then map[]
    else
      var last := names[|names| - 1];
      Put(PutAll(names[..|names| - 1], cookies), last, cookies[last])
  }

  lemma {:induction false} PutAllKeeps(names: seq<string>, cookies: map<string, string>)
    requires forall name :: name in names ==> name in cookies
    ensures forall name :: name in PutAll(names, cookies) <==> name in names && name != PROTO
    ensures forall name :: name in PutAll(names, cookies) ==> PutAll(names, cookies)[name] == cookies[name]
  {
    if names != [] {
      var n := |names| - 1;
      PutAllKeeps(names[..n], cookies);
      assert names == names[..n] + [names[n]];
    }
  }

  lemma AddPairsThen(pieces: seq<string>, piece: string, cookies: map<string, string>, added: map<string, string>)
    requires AddPairs(pieces) == Ok(cookies) && AddPair(cookies, piece) == Ok(added)
    ensures AddPairs(pieces + [piece]) == Ok(added)
  {
    assert (pieces + [piece])[..|pieces|] == pieces;
  }

  lemma AddNextPair(cookies: map<string, string>, pieces: seq<string>, name: string, value: string)
    requires AddPairs(pieces) == Ok(cookies)
    ensures AddPairs(pieces + [Pair(name, value)]) == Ok(Put(cookies, name, value))
  {
    AddEncodedPair(cookies, name, value);
    AddPairsThen(pieces, Pair(name, value), cookies, Put(cookies, name, value));
  }

  lemma {:induction false} AddEncodedPairs(names: seq<string>, cookies: map<string, string>)
    requires forall name :: name in names ==> name in cookies
    ensures AddPairs(Pairs(names, cookies)) == Ok(PutAll(names, cookies))
  {
    if names != [] {
      var init, last := names[..|names| - 1], names[|names| - 1];
      AddEncodedPairs(init, cookies);
      AddNextPair(PutAll(init, cookies), Pairs(init, cookies), last, cookies[last]);
    }
  }

  lemma PairsSplit(names: seq<string>, cookies: map<string, string>)
    requires names != [] && forall name :: name in names ==> name in cookies
    ensures Stringify(names, cookies) != ""
    ensures Split(Stringify(names, cookies), "; ") == Pairs(names, cookies)
  {
    var pairs := Pairs(names, cookies);
    forall p | p in pairs ensures ';' !in p {
      var i :| 0 <= i < |pairs| && pairs[i] == p;
      PairsAt(names, cookies, i);
      AddEncodedPair(map[], names[i], cookies[names[i]]);
    }
    SplitJoin(pairs, "; ");
    PairsAt(names, cookies, 0);
  }

  lemma PutAllIsAll(names: seq<string>, cookies: map<string, string>)
    requires Enumerates(names, cookies)
    ensures PutAll(names, cookies) == cookies - {PROTO}
  {
    PutAllKeeps(names, cookies);
  }

  lemma WithoutProto(cookies: map<string, string>)
    ensures cookies - {PROTO} == cookies <==> PROTO !in cookies
  {
    assert PROTO !in cookies - {PROTO};
  }

  lemma ParsePairs(names: seq<string>, cookies: map<string, string>)
    requires forall name :: name in names ==> name in cookies
    ensures ParseHeader(Stringify(names, cookies)) == Ok(PutAll(names, cookies))
  {
    if names != [] {
      PairsSplit(names, cookies);
      AddEncodedPairs(names, cookies);
    }
  }

  /** Printing and parsing again gives back every cookie except one named __proto__, whatever the
      enumeration order; so the round trip is the identity exactly for maps without that name. */
  lemma RoundTrip(names: seq<string>, cookies: map<string, string>)
    requires Enumerates(names, cookies)
    ensures ParseHeader(Stringify(names, cookies)) == Ok(cookies - {PROTO})
    ensures ParseHeader(Stringify(names, cookies)) == Ok(cookies) <==> PROTO !in cookies
  {
    ParsePairs(names, cookies);
    PutAllIsAll(names, cookies);
    WithoutProto(cookies);
  }

  /** A separator that the string does not start with is not matched at its first character. */
  lemma SplitStep(s: string, rest: seq<string>)
    requires s != "" && !(|s| >= 2 && s[..2] == "; ")
    requires Split(s[1..], "; ") == rest && rest != []
    ensures Split(s, "; ") == [[s[0]] + rest[0]] + rest[1..]
  {
    if |s| == 1 {
      assert s[1..] == "" && rest == [""] && s == [s[0]] + "";
    }
  }

  lemma SplitMatch(s: string)
    ensures Split("; " + s, "; ") == [""] + Split(s, "; ")
  {
    assert ("; " + s)[..2] == "; " && ("; " + s)[2..] == s;
  }

  lemma SplitTail(s: string, header: string, piece: string, before: seq<string>)
    requires header != "" && !(|header| >= 2 && header[..2] == "; ") && s == header + "; " + piece
    requires Split(header[1..], "; ") == before
    requires Split(s[1..], "; ") == before + [piece]
    ensures Split(s, "; ") == Split(header, "; ") + [piece]
  {
    assert s[..2] != "; " by {
      assert s[0] == header[0] && s[1] == if |header| == 1 then ';' else header[1];
      assert |header| >= 2 ==> header[..2] == [header[0], header[1]];
      assert s[..2] == [s[0], s[1]];
    }
    SplitStep(s, before + [piece]);
    SplitStep(header, before);
    assert (before + [piece])[0] == before[0] && (before + [piece])[1..] == before[1..] + [piece];
  }

  /** The last separator splits off the piece behind it. */
  lemma {:induction false} SplitLast(header: string, piece: string)
    requires ';' !in piece
    ensures Split(header + "; " + piece, "; ") == Split(header, "; ") + [piece]
    decreases |header|
  {
    var s := header + "; " + piece;
    if header == "" {
      SplitFirst("", "; ", piece);
      SplitFirst(piece, "; ", "");
      assert s == "" + "; " + piece;
    } else if |header| >= 2 && header[..2] == "; " {
      var rest := header[2..];
      assert s == "; " + (rest + "; " + piece) && header == "; " + rest;
      SplitMatch(rest + "; " + piece);
      SplitMatch(rest);
      SplitLast(rest, piece);
    } else {
      SplitLast(header[1..], piece);
      assert s[1..] == header[1..] + "; " + piece;
      SplitTail(s, header, piece, Split(header[1..], "; "));
    }
  }

  lemma LaterPiece(header: string, piece: string, cookies: map<string, string>, added: map<string, string>)
    requires header != "" && ';' !in piece
    requires ParseHeader(header) == Ok(cookies) && AddPair(cookies, piece) == Ok(added)
    ensures ParseHeader(header + "; " + piece) == Ok(added)
  {
    SplitLast(header, piece);
    AddPairsThen(Split(header, "; "), piece, cookies, added);
  }

  /** Of two cookies with the same name the later one counts: a pair appended to a header that parses sets
      its name, whatever stood there before, unless the name is __proto__. */
  lemma LaterPairCounts(header: string, name: string, value: string, cookies: map<string, string>)
    requires header != "" && ParseHeader(header) == Ok(cookies)
    ensures ParseHeader(header + "; " + (Encode(name) + "=" + Encode(value))) ==
            Ok(if name == "__proto__" then cookies else cookies[name := value])
  {
    AddEncodedPair(cookies, name, value);
    LaterPiece(header, Pair(name, value), cookies, Put(cookies, name, value));
  }

  /** A header of a single piece. */
  lemma OnePiece(piece: string, pair: seq<string>, name: string, value: string)
    requires piece != "" && ';' !in piece && name != "__proto__"
    requires Split(piece, "=") == pair && pair != []
    requires Decode(pair[0]) == Ok(name) && Decode(if |pair| > 1 then pair[1] else "") == Ok(value)
    ensures ParseHeader(piece) == Ok(map[name := value])
  {
    SplitFirst(piece, "; ", "");
    assert AddPair(map[], piece) == Ok(map[name := value]);
    AddPairsThen([], piece, map[], map[name := value]);
    assert [] + [piece] == [piece];
  }

  /** A piece without an equals sign is a cookie with an empty value. */
  lemma MissingValue(name: string)
    requires name != "" && name != "__proto__"
    ensures ParseHeader(Encode(name)) == Ok(map[name := ""])
  {
    EncodedIsPlain(name);
    DecodeEncode(name);
    SplitFirst(Encode(name), "=", "");
    OnePiece(Encode(name), [Encode(name)], name, "");
  }

  lemma SplitAgain(piece: string, name: string, behind: string, parts: seq<string>)
    requires '=' !in name && piece == name + "=" + behind && Split(behind, "=") == parts
    ensures Split(piece, "=") == [name] + parts
  {
    SplitFirst(name, "=", behind);
  }

  /** What stands behind a second equals sign does not count. */
  lemma SecondEquals(name: string, value: string, more: string)
    requires name != "__proto__" && ';' !in more
    ensures ParseHeader(Encode(name) + "=" + (Encode(value) + "=" + more)) == Ok(map[name := value])
  {
    var behind := Encode(value) + "=" + more;
    var piece := Encode(name) + "=" + behind;
    EncodedIsPlain(name);
    EncodedIsPlain(value);
    SplitAgain(behind, Encode(value), more, Split(more, "="));
    SplitAgain(piece, Encode(name), behind, Split(behind, "="));
    DecodeEncode(name);
    DecodeEncode(value);
    OnePiece(piece, Split(piece, "="), name, value);
  }

  /** No header parses to a map with a cookie named __proto__. */
  lemma {:induction false} ParsedHasNoProto(pieces: seq<string>)
    ensures AddPairs(pieces).Ok? ==> PROTO !in AddPairs(pieces).value
  {
    if pieces != [] {
      ParsedHasNoProto(pieces[..|pieces| - 1]);
    }
  }
}
