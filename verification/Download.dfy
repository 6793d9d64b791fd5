/** From the downloaded bodies to the node lists of the tunnels. */
module Download {
  import opened Text
  import opened Body
  import opened RefreshSpec
  import opened RefreshProofs
  import BodyProofs
  import SL = ShareLink

  /** What the libraries make of a line: its URL, if it is one, and its text. */
  datatype Reader = Reader(json: SL.Json, url: Bytes -> Option<SL.Link>, text: Bytes -> string)

  /** vless.ParseURI accepts the line. */
  predicate Parses(r: Reader, line: Bytes) {
    r.url(line).Some? && SL.Parse(r.json, r.url(line).value).Some?
  }

  /** The links of the lines that parse, in order. */
  function Parsed(r: Reader, lines: seq<Bytes>): (links: seq<string>)
    ensures forall l :: l in links <==> exists line :: line in lines && Parses(r, line) && Trim(r.text(line)) == l
  {
    if lines == [] then []
    else (if Parses(r, lines[0]) then [Trim(r.text(lines[0]))] else []) + Parsed(r, lines[1..])
  }

  lemma {:induction false} ParsedSnoc(r: Reader, lines: seq<Bytes>, last: Bytes)
    ensures Parsed(r, lines + [last])
      == Parsed(r, lines) + if Parses(r, last) then [Trim(r.text(last))] else []
  {
    hide Parses, Trim;
    if lines == [] {
      assert ([] + [last])[1..] == [];
    } else {
      ParsedSnoc(r, lines[1..], last);
      assert (lines + [last])[1..] == lines[1..] + [last];
    }
  }

  /** The loop of FetchAndUpdate: lines that do not parse are skipped. */
  method ParseLines(r: Reader, lines: seq<Bytes>) returns (links: seq<string>)
    ensures links == Parsed(r, lines)
  {
    hide Parses, Trim;
    links := [];
    for i := 0 to |lines|
      invariant links == Parsed(r, lines[..i])
    {
      ParsedSnoc(r, lines[..i], lines[i]);
      assert lines[..i + 1] == lines[..i] + [lines[i]];
      if Parses(r, lines[i]) {
        links := links + [Trim(r.text(lines[i]))];
      }
    }
    assert lines[..|lines|] == lines;
  }

  datatype Reply = Reply(sub: nat, body: Bytes)

  /** A refresh of one subscription from the body it got; without links in it nothing is touched. */
  function Refreshed(db: Db, r: Reader, reply: Reply): Db {
    match DecodeBody(reply.body)
    case None => db
    case Some(lines) => At(db, reply.sub, Parsed(r, lines), Restored)
  }

  function AllRefreshed(db: Db, r: Reader, replies: seq<Reply>): Db
    decreases |replies|
  {
    if replies == [] then db else AllRefreshed(Refreshed(db, r, replies[0]), r, replies[1..])
  }

  /** A line of the body is this link, and parses. */
  predicate Offers(r: Reader, body: Bytes, link: string) {
    var lines := DecodeBody(body);
    lines.Some? && exists line :: line in lines.value && Parses(r, line) && Trim(r.text(line)) == link
  }

  /** The reply was for another subscription, held no links at all, or offers the node's link. */
  predicate Spared(n: Node, r: Reader, reply: Reply) {
    n.sub != reply.sub || DecodeBody(reply.body).None? || (n.link != "" && Offers(r, reply.body, n.link))
  }

  predicate SparedByAll(n: Node, r: Reader, replies: seq<Reply>) {
    forall reply :: reply in replies ==> Spared(n, r, reply)
  }

  lemma OneReply(db: Db, r: Reader, reply: Reply, t: nat, bound: nat)
    requires Valid(db)
    ensures Valid(Refreshed(db, r, reply))
    ensures Listing(Refreshed(db, r, reply), t, bound) == Filter(Listing(db, t, bound), n => Spared(n, r, reply))
  {
    hide DecodeBody, Parses, Trim, At, Valid, Listing;
    var before := Listing(db, t, bound);
    match DecodeBody(reply.body) {
      case None =>
        FilterAll(before, n => Spared(n, r, reply));
      case Some(lines) =>
        var links := Parsed(r, lines);
        StageValid(db, reply.sub, links, Restored);
        RefreshFiltersListing(db, reply.sub, links, Restored, t, bound);
        FilterSame(before, Showing(reply.sub, links, Restored), n => Spared(n, r, reply));
    }
  }

  /** Over any downloads of any subscriptions each tunnel lists exactly those of its nodes that every
      download spared, in the old order. */
  lemma {:induction false} DownloadsFilterListing(db: Db, r: Reader, replies: seq<Reply>, t: nat, bound: nat)
    requires Valid(db)
    ensures Listing(AllRefreshed(db, r, replies), t, bound)
      == Filter(Listing(db, t, bound), n => SparedByAll(n, r, replies))
    decreases |replies|
  {
    hide Refreshed, Spared, Listing, Valid;
    if replies == [] {
      FilterAll(Listing(db, t, bound), n => SparedByAll(n, r, replies));
    } else {
      var reply, rest := replies[0], replies[1..];
      OneReply(db, r, reply, t, bound);
      DownloadsFilterListing(Refreshed(db, r, reply), r, rest, t, bound);
      assert replies == [reply] + rest;
      FilterFilter(Listing(db, t, bound), n => Spared(n, r, reply), n => SparedByAll(n, r, rest),
                   n => SparedByAll(n, r, replies));
    }
  }

  /** What a body of lines offers, plain or in base64: the links of those lines that parse. */
  lemma OfferedLines(r: Reader, lines: seq<Bytes>, crlf: seq<bool>, padded: bool, link: string)
    requires lines != [] && |crlf| == |lines| && BodyProofs.OneLineEach(lines) && Extract(lines) != []
    ensures var text := BodyProofs.Lines(lines, crlf);
      && (Offers(r, text, link) <==> link in Parsed(r, Extract(lines)))
      && (Offers(r, EncodeBase64(text, padded), link) <==> link in Parsed(r, Extract(lines)))
  {
    hide DecodeBody, EncodeBase64, Parses, Trim, Extract, BodyProofs.Lines;
    BodyProofs.PlainBody(lines, crlf);
    BodyProofs.EncodedBody(lines, crlf, padded);
  }
}
