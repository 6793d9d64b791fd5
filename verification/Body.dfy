/** Subscription bodies: base64 (section 4 of RFC 4648) or plain text, one share link per line. */
module Body {
  import opened Text

  type Byte = x: nat | x < 256
  type Bytes = seq<Byte>

  const LF: Byte := 10
  const CR: Byte := 13
  const EQUALS: Byte := 61
  const COLON: Byte := 58
  /** "vless://" in ASCII. */
  const VLESS: Bytes := [118, 108, 101, 115, 115, 58, 47, 47]

  // ----- strings.TrimSpace on UTF-8 bytes -----

  predicate Space1(a: Byte) { 9 <= a <= 13 || a == 32 }
  predicate Space2(a: Byte, b: Byte) { a == 0xC2 && (b == 0x85 || b == 0xA0) }
  predicate Space3(a: Byte, b: Byte, c: Byte) {
    || (a == 0xE1 && b == 0x9A && c == 0x80)
    || (a == 0xE2 && b == 0x80 && (0x80 <= c <= 0x8A || c == 0xA8 || c == 0xA9 || c == 0xAF))
    || (a == 0xE2 && b == 0x81 && c == 0x9F)
    || (a == 0xE3 && b == 0x80 && c == 0x80)
  }

  /** The number of bytes of the white-space character a text begins with. */
  function LeadingSpace(s: Bytes): (n: nat)
    ensures n <= |s|
  {
    if |s| >= 1 && Space1(s[0]) then 1
    else if |s| >= 2 && Space2(s[0], s[1]) then 2
    else if |s| >= 3 && Space3(s[0], s[1], s[2]) then 3
    else 0
  }

  function TrailingSpace(s: Bytes): (n: nat)
    ensures n <= |s|
  {
    var k := |s|;
    if k >= 1 && Space1(s[k - 1]) then 1
    else if k >= 2 && Space2(s[k - 2], s[k - 1]) then 2
    else if k >= 3 && Space3(s[k - 3], s[k - 2], s[k - 1]) then 3
    else 0
  }

  function TrimBytes(s: Bytes): Bytes
    decreases |s|
  {
    var lead, trail := LeadingSpace(s), TrailingSpace(s);
    if lead > 0 then TrimBytes(s[lead..])
    else if trail > 0 then TrimBytes(s[..|s| - trail])
    else s
  }

  // ----- base64 -----

  function Symbol(n: nat): Byte
    requires n < 64
  {
    if n < 26 then 65 + n else if n < 52 then 71 + n else if n < 62 then n - 4 else if n == 62 then 43 else 47
  }

  function Sextet(b: Byte): (n: Option<nat>)
    ensures n.Some? ==> n.value < 64
  {
    if 65 <= b <= 90 then Some(b - 65)
    else if 97 <= b <= 122 then Some(b - 71)
    else if 48 <= b <= 57 then Some(b + 4)
    else if b == 43 then Some(62)
    else if b == 47 then Some(63)
    else None
  }

  predicate InAlphabet(b: Byte) { Sextet(b).Some? }

  function First(a: nat, b: nat): Byte
    requires a < 64 && b < 64
  {
    4 * a + b / 16
  }

  function Second(b: nat, c: nat): Byte
    requires b < 64 && c < 64
  {
    16 * (b % 16) + c / 4
  }

  function Third(c: nat, d: nat): Byte
    requires c < 64 && d < 64
  {
    64 * (c % 4) + d
  }

  /** The decoder ignores line breaks anywhere. */
  function Unwrap(s: Bytes): Bytes {
    Filter(s, b => b != LF && b != CR)
  }

  /** Decoding of text without line breaks; the bits an incomplete group leaves over are ignored. */
  function Groups(s: Bytes, padded: bool): Option<Bytes>
    decreases |s|
  {
    if s == [] then Some([])
    else if |s| < 2 || !InAlphabet(s[0]) || !InAlphabet(s[1]) then None
    else
      var a, b := Sextet(s[0]).value, Sextet(s[1]).value;
      if (if padded then s[2..] == [EQUALS, EQUALS] else |s| == 2) then Some([First(a, b)])
      else if |s| < 3 || !InAlphabet(s[2]) then None
      else
        var c := Sextet(s[2]).value;
        if (if padded then s[3..] == [EQUALS] else |s| == 3) then Some([First(a, b), Second(b, c)])
        else if |s| < 4 || !InAlphabet(s[3]) then None
        else
          var rest := Groups(s[4..], padded);
          if rest.None? then None else Some([First(a, b), Second(b, c), Third(c, Sextet(s[3]).value)] + rest.value)
  }

  /** StdEncoding (padded) and RawStdEncoding (unpadded). */
  function DecodeBase64(s: Bytes, padded: bool): Option<Bytes> {
    Groups(Unwrap(s), padded)
  }

  function EncodeBase64(p: Bytes, padded: bool): Bytes
    decreases |p|
  {
    if p == [] then []
    else if |p| == 1 then
      [Symbol(p[0] / 4), Symbol(p[0] % 4 * 16)] + if padded then [EQUALS, EQUALS] else []
    else if |p| == 2 then
      [Symbol(p[0] / 4), Symbol(p[0] % 4 * 16 + p[1] / 16), Symbol(p[1] % 16 * 4)] + if padded then [EQUALS] else []
    else
      [Symbol(p[0] / 4), Symbol(p[0] % 4 * 16 + p[1] / 16), Symbol(p[1] % 16 * 4 + p[2] / 64), Symbol(p[2] % 64)]
      + EncodeBase64(p[3..], padded)
  }

  // ----- lines -----

  /** strings.ReplaceAll(s, "\r\n", "\n"). */
  function UnixLines(s: Bytes): Bytes
    decreases |s|
  {
    if s == [] then []
    else if |s| >= 2 && s[0] == CR && s[1] == LF then [LF] + UnixLines(s[2..])
    else [s[0]] + UnixLines(s[1..])
  }

  function SplitLines(s: Bytes): seq<Bytes> {
    Split(UnixLines(s), LF)
  }

  function LowerByte(b: Byte): Byte {
    if 65 <= b <= 90 then b + 32 else b
  }

  /** strings.HasPrefix(strings.ToLower(s), "vless://"); no letter outside ASCII folds to one of these. */
  predicate IsVless(s: Bytes) {
    |s| >= |VLESS| && forall i :: 0 <= i < |VLESS| ==> LowerByte(s[i]) == VLESS[i]
  }

  function Extract(lines: seq<Bytes>): seq<Bytes> {
    if lines == [] then []
    else
      var line := TrimBytes(lines[0]);
      (if IsVless(line) then [line] else []) + Extract(lines[1..])
  }

  /** The share links of a text. */
  function Links(text: Bytes): seq<Bytes> {
    Extract(SplitLines(text))
  }

  // ----- decodeSubscriptionBody -----

  function AsCandidate(c: Option<Bytes>): seq<Bytes> {
    if c.Some? then [c.value] else []
  }

  function Candidates(text: Bytes): seq<Bytes> {
    [text] + AsCandidate(DecodeBase64(text, false)) + AsCandidate(DecodeBase64(text, true))
  }

  function FirstWithLinks(cands: seq<Bytes>): Option<seq<Bytes>> {
    if cands == [] then None
    else if Links(cands[0]) != [] then Some(Links(cands[0]))
    else FirstWithLinks(cands[1..])
  }

  /** None is "no vless lines". */
  function DecodeBody(body: Bytes): Option<seq<Bytes>> {
    FirstWithLinks(Candidates(TrimBytes(body)))
  }

  lemma {:induction false} ExtractSnoc(lines: seq<Bytes>, last: Bytes)
    ensures Extract(lines + [last]) == Extract(lines) + if IsVless(TrimBytes(last)) then [TrimBytes(last)] else []
  {
    hide TrimBytes, IsVless;
    if lines == [] {
      assert ([] + [last])[1..] == [];
    } else {
      ExtractSnoc(lines[1..], last);
      assert (lines + [last])[1..] == lines[1..] + [last];
    }
  }

  method ExtractVless(lines: seq<Bytes>) returns (vless: seq<Bytes>)
    ensures vless == Extract(lines)
  {
    hide TrimBytes, IsVless;
    vless := [];
    for i := 0 to |lines|
      invariant vless == Extract(lines[..i])
    {
      var line := TrimBytes(lines[i]);
      ExtractSnoc(lines[..i], lines[i]);
      assert lines[..i + 1] == lines[..i] + [lines[i]];
      if IsVless(line) {
        vless := vless + [line];
      }
    }
    assert lines[..|lines|] == lines;
  }

  method DecodeSubscriptionBody(body: Bytes) returns (links: Option<seq<Bytes>>)
    ensures links == DecodeBody(body)
  {
    hide TrimBytes, DecodeBase64, SplitLines, Extract;
    var text := TrimBytes(body);
    var cands := [text];
    var raw, std := DecodeBase64(text, false), DecodeBase64(text, true);
    if raw.Some? { cands := cands + [raw.value]; }
    if std.Some? { cands := cands + [std.value]; }
    assert cands == Candidates(text);
    for i := 0 to |cands|
      invariant FirstWithLinks(cands) == FirstWithLinks(cands[i..])
    {
      var v := ExtractVless(SplitLines(cands[i]));
      if v != [] {
        return Some(v);
      }
      assert cands[i..][1..] == cands[i + 1..];
    }
    return None;
  }
}

/** What subscription providers send is what the gateway reads. */
module BodyProofs {
  import opened Text
  import opened Body
  import opened BodyTrim

  // ----- base64 round trip -----

  lemma SymbolDecodes(n: nat)
    requires n < 64
    ensures Sextet(Symbol(n)) == Some(n)
  {
  }

  lemma NotSymbols()
    ensures !InAlphabet(EQUALS) && !InAlphabet(COLON) && !InAlphabet(LF) && !InAlphabet(CR)
  {
  }

  lemma GroupRejoins(x: Byte, y: Byte, z: Byte)
    ensures First(x / 4, x % 4 * 16 + y / 16) == x && First(x / 4, x % 4 * 16) == x
    ensures Second(x % 4 * 16 + y / 16, y % 16 * 4 + z / 64) == y && Second(x % 4 * 16 + y / 16, y % 16 * 4) == y
    ensures Third(y % 16 * 4 + z / 64, z % 64) == z
  {
  }

  /** The symbols of one group, as the decoder reads them. */
  lemma GroupDecodes(x: Byte, y: Byte, z: Byte)
    ensures Sextet(Symbol(x / 4)) == Some(x / 4) && Sextet(Symbol(z % 64)) == Some(z % 64)
    ensures Sextet(Symbol(x % 4 * 16 + y / 16)) == Some(x % 4 * 16 + y / 16)
    ensures Sextet(Symbol(y % 16 * 4 + z / 64)) == Some(y % 16 * 4 + z / 64)
  {
    hide Symbol, Sextet;
    SymbolDecodes(x / 4);
    SymbolDecodes(x % 4 * 16 + y / 16);
    SymbolDecodes(y % 16 * 4 + z / 64);
    SymbolDecodes(z % 64);
  }

  lemma ShortUndoEncode(p: Bytes, padded: bool)
    requires 1 <= |p| <= 2
    ensures Groups(EncodeBase64(p, padded), padded) == Some(p)
  {
    NotSymbols();
    hide Symbol, Sextet, First, Second, Third;
    var x, y: Byte := p[0], if |p| > 1 then p[1] else 0;
    var e := EncodeBase64(p, padded);
    GroupRejoins(x, y, 0);
    GroupDecodes(x, y, 0);
    if |p| == 1 {
      assert p == [x] && x % 4 * 16 == x % 4 * 16 + y / 16;
      assert padded ==> e[2..] == [EQUALS, EQUALS];
    } else {
      assert p == [x, y] && y % 16 * 4 == y % 16 * 4 + 0 / 64;
      assert padded ==> e[2..][0] == e[2] && e[3..] == [EQUALS];
    }
  }

  lemma {:induction false} GroupsUndoEncode(p: Bytes, padded: bool)
    ensures Groups(EncodeBase64(p, padded), padded) == Some(p)
    decreases |p|
  {
    NotSymbols();
    hide Symbol, Sextet, First, Second, Third;
    if 1 <= |p| <= 2 {
      ShortUndoEncode(p, padded);
    } else if p != [] {
      var e := EncodeBase64(p, padded);
      GroupRejoins(p[0], p[1], p[2]);
      GroupDecodes(p[0], p[1], p[2]);
      GroupsUndoEncode(p[3..], padded);
      assert e[2..][0] == e[2] && e[3..][0] == e[3];
      assert e[4..] == EncodeBase64(p[3..], padded);
      assert p == [p[0], p[1], p[2]] + p[3..];
    }
  }

  /** Two of the vectors of section 10 of RFC 4648, and one that needs both punctuation symbols:
      "f" is "Zg==", "foob" is "Zm9vYg==", the bytes 251 and 255 are "+/8=". */
  lemma KnownEncodings()
    ensures EncodeBase64([102], true) == [90, 103, 61, 61] && EncodeBase64([102], false) == [90, 103]
    ensures EncodeBase64([102, 111, 111, 98], true) == [90, 109, 57, 118, 89, 103, 61, 61]
    ensures EncodeBase64([251, 255], true) == [43, 47, 56, 61]
  {
    assert [102, 111, 111, 98][3..] == [98];
    assert EncodeBase64([98], true) == [89, 103, 61, 61];
  }

  /** "vless://u" and "VLESS://u" are share links, "vmess://u" and "vless:/u" are not. */
  lemma SchemeVectors()
    ensures IsVless([118, 108, 101, 115, 115, 58, 47, 47, 117]) && IsVless([86, 76, 69, 83, 83, 58, 47, 47, 117])
    ensures !IsVless([118, 109, 101, 115, 115, 58, 47, 47, 117]) && !IsVless([118, 108, 101, 115, 115, 58, 47, 117])
  {
    var vmess: Bytes := [118, 109, 101, 115, 115, 58, 47, 47, 117];
    var slash: Bytes := [118, 108, 101, 115, 115, 58, 47, 117];
    assert LowerByte(vmess[1]) != VLESS[1] && LowerByte(slash[7]) != VLESS[7];
  }

  /** Where both decoders accept, they agree. */
  lemma {:induction false} DecodersAgree(s: Bytes)
    requires Groups(s, false).Some? && Groups(s, true).Some?
    ensures Groups(s, false) == Groups(s, true)
    decreases |s|
  {
    NotSymbols();
    hide Sextet, First, Second, Third;
    if |s| < 4 {
      assert s == [];
    } else {
      assert InAlphabet(s[2]) && InAlphabet(s[3]);
      assert s[2..][0] == s[2] && s[3..][0] == s[3];
      DecodersAgree(s[4..]);
    }
  }

  // ----- base64 text is never mistaken for plain text -----

  lemma {:induction false} AcceptedBytes(s: Bytes, padded: bool)
    requires Groups(s, padded).Some?
    ensures forall b :: b in s ==> InAlphabet(b) || b == EQUALS
    decreases |s|
  {
    hide Sextet, First, Second, Third;
    if s != [] {
      if |s| > 4 {
        AcceptedBytes(s[4..], padded);
        assert s == s[..4] + s[4..];
      }
    }
  }

  lemma AcceptedNoColon(text: Bytes, padded: bool)
    requires DecodeBase64(text, padded).Some?
    ensures COLON !in text
  {
    hide Groups, Sextet;
    NotSymbols();
    AcceptedBytes(Unwrap(text), padded);
    assert COLON in text ==> COLON in Unwrap(text);
  }

  lemma {:induction false} UnixBytes(s: Bytes, b: Byte)
    requires b in UnixLines(s)
    ensures b in s
    decreases |s|
  {
    if |s| >= 2 && s[0] == CR && s[1] == LF {
      if b != LF { UnixBytes(s[2..], b); }
    } else if b != s[0] {
      UnixBytes(s[1..], b);
    }
  }

  lemma {:induction false} SplitBytes(s: Bytes, sep: Byte, part: Bytes, b: Byte)
    requires part in Split(s, sep) && b in part
    ensures b in s
  {
    if s != [] {
      var rest := Split(s[1..], sep);
      if part in rest { SplitBytes(s[1..], sep, part, b); }
      else if part != [] && part[1..] == rest[0] {
        if b in rest[0] { SplitBytes(s[1..], sep, rest[0], b); }
      }
    }
  }

  lemma {:induction false} TrimBytesInside(s: Bytes, b: Byte)
    requires b in TrimBytes(s)
    ensures b in s
    decreases |s|
  {
    hide LeadingSpace, TrailingSpace;
    if LeadingSpace(s) > 0 {
      TrimBytesInside(s[LeadingSpace(s)..], b);
    } else if TrailingSpace(s) > 0 {
      TrimBytesInside(s[..|s| - TrailingSpace(s)], b);
    }
  }

  lemma {:induction false} NoLinksWithoutColon(lines: seq<Bytes>)
    requires forall line :: line in lines ==> COLON !in line
    ensures Extract(lines) == []
  {
    hide TrimBytes;
    if lines != [] {
      var line := TrimBytes(lines[0]);
      assert lines[0] in lines;
      if IsVless(line) {
        assert LowerByte(line[5]) == VLESS[5];
        TrimBytesInside(lines[0], COLON);
        assert false;
      }
      NoLinksWithoutColon(lines[1..]);
    }
  }

  lemma Base64HasNoLinks(text: Bytes, padded: bool)
    requires DecodeBase64(text, padded).Some?
    ensures Links(text) == []
  {
    hide DecodeBase64, UnixLines, Split, Extract;
    AcceptedNoColon(text, padded);
    forall line | line in SplitLines(text)
      ensures COLON !in line
    {
      if COLON in line {
        SplitBytes(UnixLines(text), LF, line, COLON);
        UnixBytes(text, COLON);
      }
    }
    NoLinksWithoutColon(SplitLines(text));
  }

  /** A body that is a payload in base64, padded or not and wrapped anywhere, yields the payload's links. */
  lemma Base64Body(body: Bytes, payload: Bytes, padded: bool)
    requires Unwrap(TrimBytes(body)) == EncodeBase64(payload, padded)
    requires Links(payload) != []
    ensures DecodeBody(body) == Some(Links(payload))
  {
    hide TrimBytes, Groups, Unwrap, EncodeBase64, Links;
    var text := TrimBytes(body);
    GroupsUndoEncode(payload, padded);
    Base64HasNoLinks(text, padded);
    var raw, std := DecodeBase64(text, false), DecodeBase64(text, true);
    if raw.Some? && std.Some? { DecodersAgree(Unwrap(text)); }
    Firsts(text, raw, std, payload);
  }

  lemma Firsts(text: Bytes, raw: Option<Bytes>, std: Option<Bytes>, payload: Bytes)
    requires Links(text) == [] && Links(payload) != []
    requires raw == Some(payload) || std == Some(payload)
    requires raw.Some? ==> raw == Some(payload)
    requires std.Some? ==> std == Some(payload)
    ensures FirstWithLinks([text] + AsCandidate(raw) + AsCandidate(std)) == Some(Links(payload))
  {
    hide Links;
    if raw.Some? {
      assert ([text] + [payload] + AsCandidate(std))[1..] == [payload] + AsCandidate(std);
    } else {
      assert ([text] + [] + [payload])[1..] == [payload];
    }
  }

  // ----- lists of share links -----

  /** A line without a line end of its own. */
  predicate OneLine(line: Bytes) {
    LF !in line && (line == [] || line[|line| - 1] != CR)
  }

  predicate OneLineEach(lines: seq<Bytes>) {
    forall line :: line in lines ==> OneLine(line)
  }

  /** Each line but the last ends in LF or, where `crlf` says so, in CR LF. A last line that is empty
      stands for a final line end. */
  function Lines(lines: seq<Bytes>, crlf: seq<bool>): Bytes
    requires |crlf| == |lines|
  {
    if lines == [] then []
    else if |lines| == 1 then lines[0]
    else lines[0] + (if crlf[0] then [CR, LF] else [LF]) + Lines(lines[1..], crlf[1..])
  }

  lemma UnixOneLine(line: Bytes, crlf: bool, rest: Bytes)
    requires OneLine(line)
    ensures UnixLines(line + (if crlf then [CR, LF] else [LF]) + rest) == line + [LF] + UnixLines(rest)
    ensures UnixLines(line) == line
  {
    hide UnixLines;
    var eol: Bytes := if crlf then [CR, LF] else [LF];
    UnixNoLf(line);
    UnixEol(crlf);
    UnixConcat(line, eol);
    UnixConcat(line + eol, rest);
  }

  lemma {:induction false} UnixJoins(lines: seq<Bytes>, crlf: seq<bool>)
    requires |crlf| == |lines| && OneLineEach(lines)
    ensures UnixLines(Lines(lines, crlf)) == Join(lines, LF)
  {
    hide OneLine, UnixLines;
    if lines != [] {
      var line := lines[0];
      assert line in lines;
      UnixOneLine(line, crlf[0], if |lines| > 1 then Lines(lines[1..], crlf[1..]) else []);
      if |lines| > 1 { UnixJoins(lines[1..], crlf[1..]); }
    } else {
      UnixNothing();
    }
  }

  lemma NoLfEach(lines: seq<Bytes>)
    requires OneLineEach(lines)
    ensures forall line :: line in lines ==> LF !in line
  {
    forall line | line in lines
      ensures LF !in line
    {
      assert OneLine(line);
    }
  }

  /** The links of a text of lines, blank lines and comments included, are those of the lines. */
  lemma LinksOfLines(lines: seq<Bytes>, crlf: seq<bool>)
    requires lines != [] && |crlf| == |lines| && OneLineEach(lines)
    ensures Links(Lines(lines, crlf)) == Extract(lines)
  {
    hide Lines, UnixLines, Split, Join, Extract, OneLineEach;
    UnixJoins(lines, crlf);
    NoLfEach(lines);
    SplitJoin(lines, LF);
  }

  /** Whatever links a body holds when read as plain text, those are its links. */
  lemma PlainText(body: Bytes)
    requires Links(body) != []
    ensures DecodeBody(body) == Some(Links(body))
  {
    hide Links, DecodeBase64, TrimBytes;
    TrimLinks(body);
  }

  /** Lines in plain text: exactly their links, in order. */
  lemma PlainBody(lines: seq<Bytes>, crlf: seq<bool>)
    requires lines != [] && |crlf| == |lines| && OneLineEach(lines) && Extract(lines) != []
    ensures DecodeBody(Lines(lines, crlf)) == Some(Extract(lines))
  {
    hide Lines, Links, Extract, DecodeBody, OneLineEach;
    LinksOfLines(lines, crlf);
    PlainText(Lines(lines, crlf));
  }

  lemma EncodedBytes(p: Bytes, padded: bool)
    ensures forall b :: b in EncodeBase64(p, padded) ==> InAlphabet(b) || b == EQUALS
  {
  }

  lemma SymbolsAreNotSpace(s: Bytes)
    requires forall b :: b in s ==> InAlphabet(b) || b == EQUALS
    ensures TrimBytes(s) == s && Unwrap(s) == s
  {
    assert forall b :: b in s ==> 32 < b < 128;
    hide InAlphabet;
    FilterAll(s, b => b != LF && b != CR);
    var k := |s|;
    assert k > 0 ==> s[0] in s && s[k - 1] in s;
    assert LeadingSpace(s) == 0;
    assert TrailingSpace(s) == 0;
  }

  /** The same lines as padded or unpadded base64. */
  lemma EncodedBody(lines: seq<Bytes>, crlf: seq<bool>, padded: bool)
    requires lines != [] && |crlf| == |lines| && OneLineEach(lines) && Extract(lines) != []
    ensures DecodeBody(EncodeBase64(Lines(lines, crlf), padded)) == Some(Extract(lines))
  {
    hide Lines, Links, Extract, EncodeBase64, TrimBytes, Unwrap, DecodeBody, InAlphabet, OneLineEach;
    var payload := Lines(lines, crlf);
    var body := EncodeBase64(payload, padded);
    EncodedBytes(payload, padded);
    SymbolsAreNotSpace(body);
    LinksOfLines(lines, crlf);
    Base64Body(body, payload, padded);
  }

  // ----- lists of nothing but share links -----

  /** A trimmed share link on one line. */
  predicate VlessLine(line: Bytes) {
    LF !in line && TrimBytes(line) == line && IsVless(line)
  }

  predicate AllVless(lines: seq<Bytes>) {
    forall line :: line in lines ==> VlessLine(line)
  }

  lemma {:induction false} ExtractAll(lines: seq<Bytes>)
    requires AllVless(lines)
    ensures Extract(lines) == lines
  {
    hide TrimBytes, IsVless;
    if lines != [] {
      assert lines[0] in lines;
      ExtractAll(lines[1..]);
    }
  }

  lemma {:induction false} TrimmedEnds(s: Bytes)
    ensures var t := TrimBytes(s); t != [] ==> t[|t| - 1] != CR
    decreases |s|
  {
    if LeadingSpace(s) > 0 {
      TrimmedEnds(s[LeadingSpace(s)..]);
    } else if TrailingSpace(s) > 0 {
      TrimmedEnds(s[..|s| - TrailingSpace(s)]);
    }
  }

  lemma VlessLinesEach(lines: seq<Bytes>)
    requires AllVless(lines)
    ensures OneLineEach(lines)
  {
    hide TrimBytes, IsVless;
    forall line | line in lines
      ensures OneLine(line)
    {
      assert VlessLine(line);
      TrimmedEnds(line);
    }
  }

  /** A list of share links is decoded to itself, in order, however it is sent. */
  lemma ListOfLinks(lines: seq<Bytes>, crlf: seq<bool>, padded: bool)
    requires lines != [] && |crlf| == |lines| && AllVless(lines)
    ensures DecodeBody(Lines(lines, crlf)) == Some(lines)
    ensures DecodeBody(EncodeBase64(Lines(lines, crlf), padded)) == Some(lines)
  {
    hide AllVless, OneLineEach, Extract, Lines, DecodeBody, EncodeBase64;
    ExtractAll(lines);
    VlessLinesEach(lines);
    PlainBody(lines, crlf);
    EncodedBody(lines, crlf, padded);
  }
}
