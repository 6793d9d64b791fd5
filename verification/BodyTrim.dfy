/** White space around a text is no part of any line's link. */
module BodyTrim {
  import opened Text
  import opened Body

  // ----- white space in UTF-8 -----

  /** The encoding of a character (section 3 of RFC 3629). */
  function Utf8(c: char): Bytes {
    var n := c as nat;
    if n < 0x80 then [n]
    else if n < 0x800 then [0xC0 + n / 0x40, 0x80 + n % 0x40]
    else if n < 0x1_0000 then [0xE0 + n / 0x1000, 0x80 + n / 0x40 % 0x40, 0x80 + n % 0x40]
    else [0xF0 + n / 0x4_0000, 0x80 + n / 0x1000 % 0x40, 0x80 + n / 0x40 % 0x40, 0x80 + n % 0x40]
  }

  /** The byte patterns are the encodings of exactly the characters that are white space. */
  lemma SpaceInUtf8(c: char)
    ensures IsSpace(c) <==> LeadingSpace(Utf8(c)) == |Utf8(c)|
    ensures IsSpace(c) <==> TrailingSpace(Utf8(c)) == |Utf8(c)|
  {
  }

  // ----- one white-space character before or after a line -----

  /** White space at the front is recognised by its own bytes alone. */
  lemma LeadingOf(sp: Bytes, rest: Bytes)
    requires sp != [] && LeadingSpace(sp) == |sp|
    ensures LeadingSpace(sp + rest) == |sp|
  {
  }

  lemma TrailingOf(rest: Bytes, sp: Bytes)
    requires sp != [] && TrailingSpace(sp) == |sp|
    ensures TrailingSpace(rest + sp) == |sp|
  {
  }

  lemma SpaceBothWays(sp: Bytes)
    requires 1 <= |sp| <= 3
    ensures LeadingSpace(sp) == |sp| <==> TrailingSpace(sp) == |sp|
  {
  }

  /** No white-space character ends where another begins. */
  lemma NoSpaceAcross(line: Bytes, sp: Bytes)
    requires line != [] && LeadingSpace(line) == 0 && sp != [] && LeadingSpace(sp) == |sp|
    ensures LeadingSpace(line + sp) == 0
  {
    var all := line + sp;
    assert all[0] == line[0];
    if |line| == 1 {
      assert all[1] == sp[0];
    } else {
      assert all[1] == line[1];
      if |line| == 2 { assert all[2] == sp[0]; } else { assert all[2] == line[2]; }
    }
  }

  lemma TrimBefore(sp: Bytes, line: Bytes)
    requires sp != [] && LeadingSpace(sp) == |sp|
    ensures TrimBytes(sp + line) == TrimBytes(line)
  {
    LeadingOf(sp, line);
    hide LeadingSpace, TrailingSpace;
    assert (sp + line)[|sp|..] == line;
  }

  lemma NothingLeft()
    ensures TrimBytes([]) == [] && LeadingSpace([]) == 0
  {
  }

  lemma Prefix(s: Bytes, n: nat)
    requires n == LeadingSpace(s) > 0
    ensures LeadingSpace(s[..n]) == n && |s[..n]| == n
  {
  }

  lemma Suffix(s: Bytes, n: nat)
    requires n == TrailingSpace(s) > 0
    ensures n <= 3 && TrailingSpace(s[|s| - n..]) == n && |s[|s| - n..]| == n
  {
  }

  lemma {:induction false} TrimAfter(line: Bytes, sp: Bytes)
    requires sp != [] && LeadingSpace(sp) == |sp| == TrailingSpace(sp)
    ensures TrimBytes(line + sp) == TrimBytes(line)
    decreases |line|
  {
    hide LeadingSpace, TrailingSpace;
    var n := LeadingSpace(line);
    if line == [] {
      NothingLeft();
      assert line + sp == sp && sp[|sp|..] == [];
    } else if n > 0 {
      Prefix(line, n);
      LeadingOf(line[..n], line[n..] + sp);
      assert line + sp == line[..n] + (line[n..] + sp) && (line + sp)[n..] == line[n..] + sp;
      TrimAfter(line[n..], sp);
    } else {
      NoSpaceAcross(line, sp);
      TrailingOf(line, sp);
      assert (line + sp)[..|line + sp| - |sp|] == line;
    }
  }

  // ----- lines -----

  lemma SplitHead(c: Byte, s: Bytes)
    ensures c != LF ==> Split([c] + s, LF) == [[c] + Split(s, LF)[0]] + Split(s, LF)[1..]
    ensures c == LF ==> Split([c] + s, LF) == [[]] + Split(s, LF)
  {
    assert ([c] + s)[1..] == s;
  }

  lemma {:induction false} SplitBefore(a: Bytes, s: Bytes)
    requires LF !in a
    ensures Split(a + s, LF) == [a + Split(s, LF)[0]] + Split(s, LF)[1..]
  {
    hide Split;
    var p := Split(s, LF);
    if a == [] {
      assert a + s == s && a + p[0] == p[0] && p == [p[0]] + p[1..];
    } else {
      SplitBefore(a[1..], s);
      SplitHead(a[0], a[1..] + s);
      assert [a[0]] + (a[1..] + s) == a + s && [a[0]] + (a[1..] + p[0]) == a + p[0];
      assert ([a[1..] + p[0]] + p[1..])[1..] == p[1..];
    }
  }

  function ExtendLast(p: seq<Bytes>, a: Bytes): seq<Bytes>
    requires p != []
  {
    p[..|p| - 1] + [p[|p| - 1] + a]
  }

  lemma ExtendTail(h: Bytes, p: seq<Bytes>, c: Byte, a: Bytes)
    requires p != []
    ensures ExtendLast([h] + p, a) == [h] + ExtendLast(p, a)
    ensures ExtendLast([[c] + p[0]] + p[1..], a) == [[c] + ExtendLast(p, a)[0]] + ExtendLast(p, a)[1..]
  {
    var q := [[c] + p[0]] + p[1..];
    if |p| == 1 {
      assert [c] + (p[0] + a) == [c] + p[0] + a;
    } else {
      assert q[..|q| - 1] == [[c] + p[0]] + p[1..][..|p| - 2];
    }
    assert ([h] + p)[..|p|] == [h] + p[..|p| - 1];
  }

  lemma SplitNothing(a: Bytes)
    ensures Split<Byte>([], LF) == [[]] && ExtendLast([[]], a) == [a]
  {
    assert [] + a == a;
  }

  lemma {:induction false} SplitAfter(s: Bytes, a: Bytes)
    requires LF !in a
    ensures Split(s + a, LF) == ExtendLast(Split(s, LF), a)
  {
    SplitNothing(a);
    hide Split, ExtendLast;
    if s == [] {
      SplitPrefix(a, [], LF);
      assert s + a == a;
    } else {
      var tail := s[1..];
      SplitAfter(tail, a);
      SplitHead(s[0], tail);
      SplitHead(s[0], tail + a);
      ExtendTail([], Split(tail, LF), s[0], a);
      assert [s[0]] + tail == s && [s[0]] + (tail + a) == s + a;
    }
  }

  lemma {:induction false} SplitLastLf(s: Bytes)
    ensures Split(s + [LF], LF) == Split(s, LF) + [[]]
  {
    if s == [] {
      SplitPrefix([], [], LF);
      assert [] + [LF] + [] == [LF] && s + [LF] == [LF];
    } else {
      hide Split;
      var tail := s[1..];
      SplitLastLf(tail);
      SplitHead(s[0], tail);
      SplitHead(s[0], tail + [LF]);
      assert [s[0]] + tail == s && [s[0]] + (tail + [LF]) == s + [LF];
      assert (Split(tail, LF) + [[]])[1..] == Split(tail, LF)[1..] + [[]];
    }
  }

  lemma BlankLine()
    ensures !IsVless(TrimBytes([]))
  {
    NothingLeft();
  }

  lemma UnixCons(c: Byte, t: Bytes)
    ensures UnixLines([c] + t)
      == if c == CR && t != [] && t[0] == LF then [LF] + UnixLines(t[1..]) else [c] + UnixLines(t)
  {
    var s := [c] + t;
    assert s[1..] == t && (t != [] ==> s[1] == t[0] && s[2..] == t[1..]);
  }

  /** Line ends are rewritten piece by piece, except where a CR meets an LF. */
  lemma {:induction false} UnixConcat(s: Bytes, r: Bytes)
    requires s != [] && s[|s| - 1] == CR && r != [] ==> r[0] != LF
    ensures UnixLines(s + r) == UnixLines(s) + UnixLines(r)
    decreases |s|
  {
    UnixNothing();
    hide UnixLines;
    if s == [] {
      assert s + r == r;
    } else {
      var c, t := s[0], s[1..];
      assert s == [c] + t && s + r == [c] + (t + r);
      UnixCons(c, t);
      UnixCons(c, t + r);
      if t == [] {
        assert t + r == r;
      } else if c == CR && t[0] == LF {
        assert (t + r)[1..] == t[1..] + r;
        UnixConcat(t[1..], r);
      } else {
        UnixConcat(t, r);
      }
    }
  }

  lemma UnixNothing()
    ensures UnixLines([]) == []
  {
  }

  /** What has no LF has no line end to rewrite. */
  lemma {:induction false} UnixNoLf(s: Bytes)
    requires LF !in s
    ensures UnixLines(s) == s
    decreases |s|
  {
    if s != [] {
      UnixNoLf(s[1..]);
      UnixCons(s[0], s[1..]);
      hide UnixLines;
      assert s == [s[0]] + s[1..];
    }
  }

  lemma UnixEol(crlf: bool)
    ensures UnixLines(if crlf then [CR, LF] else [LF]) == [LF]
  {
    UnixCons(LF, []);
    if crlf {
      UnixCons(CR, [LF]);
      assert [CR] + [LF] == [CR, LF] && [LF][1..] == [];
    }
  }

  // ----- the front of a text -----

  lemma SameFront(g: Bytes, h: Bytes, tail: seq<Bytes>)
    requires TrimBytes(g) == TrimBytes(h)
    ensures Extract([g] + tail) == Extract([h] + tail)
  {
    hide TrimBytes, IsVless;
    assert ([g] + tail)[1..] == tail && ([h] + tail)[1..] == tail;
  }

  lemma FrontLine(sp: Bytes, unix: Bytes)
    requires sp != [] && LeadingSpace(sp) == |sp| && LF !in sp
    ensures Extract(Split(sp + unix, LF)) == Extract(Split(unix, LF))
  {
    hide TrimBytes, Extract, Split, LeadingSpace;
    SplitBefore(sp, unix);
    var p := Split(unix, LF);
    TrimBefore(sp, p[0]);
    SameFront(sp + p[0], p[0], p[1..]);
    assert p == [p[0]] + p[1..];
  }

  lemma EmptyFront(unix: Bytes)
    ensures Extract(Split([LF] + unix, LF)) == Extract(Split(unix, LF))
  {
    BlankLine();
    assert ([LF] + unix)[1..] == unix;
    assert ([[]] + Split(unix, LF))[1..] == Split(unix, LF);
    hide TrimBytes, IsVless;
  }

  lemma FrontStep(s: Bytes)
    requires LeadingSpace(s) > 0
    ensures Links(s[LeadingSpace(s)..]) == Links(s)
  {
    var n := LeadingSpace(s);
    var sp, rest := s[..n], s[n..];
    Prefix(s, n);
    assert s == sp + rest;
    if s[0] == LF {
      assert UnixLines(s) == [LF] + UnixLines(rest);
      EmptyFront(UnixLines(rest));
    } else if s[0] == CR {
      assert n == 1 && sp == [CR];
      if rest != [] && rest[0] == LF {
        assert s[2..] == rest[1..];
      } else {
        assert UnixLines(s) == sp + UnixLines(rest);
        FrontLine(sp, UnixLines(rest));
      }
    } else {
      assert LF !in sp && CR !in sp;
      UnixNoLf(sp);
      UnixConcat(sp, rest);
      FrontLine(sp, UnixLines(rest));
    }
    hide UnixLines, Extract, Split;
  }

  // ----- the back of a text -----

  lemma BackLine(unix: Bytes, sp: Bytes)
    requires sp != [] && LeadingSpace(sp) == |sp| == TrailingSpace(sp) && LF !in sp
    ensures Extract(Split(unix + sp, LF)) == Extract(Split(unix, LF))
  {
    hide TrimBytes, IsVless, Split, Extract, LeadingSpace, TrailingSpace;
    SplitAfter(unix, sp);
    var p := Split(unix, LF);
    var init, last := p[..|p| - 1], p[|p| - 1];
    TrimAfter(last, sp);
    ExtractSnoc(init, last + sp);
    ExtractSnoc(init, last);
    assert p == init + [last];
  }

  lemma EmptyBack(unix: Bytes)
    ensures Extract(Split(unix + [LF], LF)) == Extract(Split(unix, LF))
  {
    BlankLine();
    hide TrimBytes, IsVless, Split, Extract;
    SplitLastLf(unix);
    ExtractSnoc(Split(unix, LF), []);
  }

  lemma LastLf(rest: Bytes)
    ensures Links(rest + [LF]) == Links(rest)
  {
    hide UnixLines, Extract, Split, LeadingSpace, TrailingSpace;
    if rest != [] && rest[|rest| - 1] == CR {
      var p := rest[..|rest| - 1];
      assert rest == p + [CR] && rest + [LF] == p + [CR, LF];
      UnixEol(true);
      UnixConcat(p, [CR, LF]);
      UnixNoLf([CR]);
      UnixConcat(p, [CR]);
      CrSpace();
      BackLine(UnixLines(p), [CR]);
      EmptyBack(UnixLines(p));
    } else {
      UnixEol(false);
      UnixConcat(rest, [LF]);
      EmptyBack(UnixLines(rest));
    }
  }

  lemma CrSpace()
    ensures LeadingSpace([CR]) == 1 == TrailingSpace([CR])
  {
  }

  lemma BackStep(s: Bytes)
    requires TrailingSpace(s) > 0
    ensures Links(s[..|s| - TrailingSpace(s)]) == Links(s)
  {
    hide UnixLines, Extract, Split, LeadingSpace, TrailingSpace;
    var n := TrailingSpace(s);
    var rest, sp := s[..|s| - n], s[|s| - n..];
    Suffix(s, n);
    SpaceBothWays(sp);
    SpaceIsPlain(sp);
    assert s == rest + sp;
    if sp == [LF] {
      LastLf(rest);
    } else {
      UnixNoLf(sp);
      UnixConcat(rest, sp);
      BackLine(UnixLines(rest), sp);
    }
  }

  lemma SpaceIsPlain(sp: Bytes)
    requires 1 <= |sp| <= 3 && TrailingSpace(sp) == |sp|
    ensures LF in sp ==> sp == [LF]
  {
  }

  /** Trimming a text changes none of its links. */
  lemma {:induction false} TrimLinks(text: Bytes)
    ensures Links(TrimBytes(text)) == Links(text)
    decreases |text|
  {
    hide Links, LeadingSpace, TrailingSpace;
    var lead, trail := LeadingSpace(text), TrailingSpace(text);
    if lead > 0 {
      FrontStep(text);
      TrimLinks(text[lead..]);
    } else if trail > 0 {
      BackStep(text);
      TrimLinks(text[..|text| - trail]);
    }
  }
}
