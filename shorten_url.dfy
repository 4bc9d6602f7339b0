/** The URL-shortening service: three handlers over one `urls` table keyed by a
    random short id, and the generator that draws a free id. The table is a map
    from short id to its target and click counter. */
module ShortenUrl {
  import opened Responses

  const ShortUrlNotFound: string := "Short URL not found"

  /** The host and port baked into every returned short URL. */
  const BaseUrl: string := "http://127.0.0.1:8000/"

  /** The length `shorten_url` asks the generator for. */
  const DefaultLength: nat := 6

  /** Python's string.ascii_letters and string.digits, in their order. */
  const AsciiLowercase: string := "abcdefghijklmnopqrstuvwxyz"
  const AsciiUppercase: string := "ABCDEFGHIJKLMNOPQRSTUVWXYZ"
  const AsciiLetters: string := AsciiLowercase + AsciiUppercase
  const Digits: string := "0123456789"
  const Chars: string := AsciiLetters + Digits

  /** An independent description of the alphabet. */
  predicate IsAsciiAlnum(c: char) {
    'a' <= c <= 'z' || 'A' <= c <= 'Z' || '0' <= c <= '9'
  }

  /** A string the generator can draw: `length` symbols of the alphabet. */
  predicate IsShortId(s: string, length: nat) {
    |s| == length && forall i :: 0 <= i < |s| ==> s[i] in Chars
  }

  /** One row of `urls`: the redirect target and how often it was followed. */
  datatype Link = Link(fullUrl: string, clicks: nat)

  /** The body of GET /stats/{short_id}: {"url": ..., "clicks": ...}. */
  datatype UrlStats = UrlStats(url: string, clicks: nat)

  type Links = map<string, Link>

  /** The insert of shorten_url: a new row with no clicks under a free id. */
  function Shorten(t: Links, id: string, url: string): (r: Links)
    requires id !in t
    ensures r.Keys == t.Keys + {id} && |r| == |t| + 1
    ensures r[id] == Link(url, 0)
    ensures forall k :: k in t ==> r[k] == t[k]
  {
    t[id := Link(url, 0)]
  }

  /** The short URL shorten_url answers with. */
  function ShortUrl(id: string): (r: string)
    ensures |r| == |BaseUrl| + |id|
    ensures r[..|BaseUrl|] == BaseUrl && r[|BaseUrl|..] == id
  {
    BaseUrl + id
  }

  /** redirected_to_url: count one more click and redirect to the target, or 404. */
  function Resolve(t: Links, id: string): (r: (Links, Response<string>))
    ensures id !in t ==> r.0 == t && r.1 == NotFound(ShortUrlNotFound)
    ensures id in t ==>
      r.1 == Ok(t[id].fullUrl) &&
      r.0.Keys == t.Keys &&
      r.0[id].fullUrl == t[id].fullUrl && r.0[id].clicks == t[id].clicks + 1 &&
      (forall k :: k in t && k != id ==> r.0[k] == t[k])
  {
    if id !in t then (t, NotFound(ShortUrlNotFound))
    else
      var link := t[id];
      (t[id := Link(link.fullUrl, link.clicks + 1)], Ok(link.fullUrl))
  }

  /** get_stats: the stored target and counter, or 404. */
  function Stats(t: Links, id: string): (r: Response<UrlStats>)
    ensures r.Ok? <==> id in t
    ensures r.Ok? ==> r.value.url == t[id].fullUrl && r.value.clicks == t[id].clicks
    ensures r.NotFound? ==> r.detail == ShortUrlNotFound
  {
    if id in t then Ok(UrlStats(t[id].fullUrl, t[id].clicks)) else NotFound(ShortUrlNotFound)
  }

  /** Every symbol the generator draws from is an ASCII letter or digit, and every
      ASCII letter and digit is one of them: 26 + 26 + 10 symbols. */
  lemma AlphabetIsAsciiAlnum()
    ensures |Chars| == 62
    ensures forall c :: c in Chars <==> IsAsciiAlnum(c)
  {
    forall c ensures c in Chars <==> IsAsciiAlnum(c) {
      LowercaseRange(c);
      UppercaseRange(c);
      DigitsRange(c);
    }
  }

  lemma LowercaseRange(c: char)
    ensures c in AsciiLowercase <==> 'a' <= c <= 'z'
  {
  }

  lemma UppercaseRange(c: char)
    ensures c in AsciiUppercase <==> 'A' <= c <= 'Z'
  {
  }

  lemma DigitsRange(c: char)
    ensures c in Digits <==> '0' <= c <= '9'
  {
  }

  /** Shortening a URL and then following the new id once redirects to exactly that
      URL and leaves one click on it, which the stats then report. */
  lemma ShortenThenRedirect(t: Links, id: string, url: string)
    requires id !in t
    ensures var (t1, r) := Resolve(Shorten(t, id, url), id);
      r == Ok(url) && t1[id] == Link(url, 1) &&
      Stats(t1, id) == Ok(UrlStats(url, 1))
  {
  }

  /** For an id that has no row, both lookups are a 404 and nothing changes. */
  lemma UnknownIdNotFound(t: Links, id: string)
    requires id !in t
    ensures Resolve(t, id) == (t, NotFound(ShortUrlNotFound))
    ensures Stats(t, id) == NotFound(ShortUrlNotFound)
  {
  }

  /** The requests that change the table. A shorten carries the id the generator
      drew; the PRIMARY KEY on short_id refuses an id that already has a row. */
  datatype Request = ShortenRequest(id: string, url: string) | RedirectRequest(id: string)

  function Step(t: Links, req: Request): Links {
    match req
    case ShortenRequest(id, url) => if id in t then t else Shorten(t, id, url)
    case RedirectRequest(id) => Resolve(t, id).0
  }

  /** The table after serving `reqs` in order. */
  function Run(t: Links, reqs: seq<Request>): Links
    decreases |reqs|
  {
    if reqs == [] then t else Run(Step(t, reqs[0]), reqs[1..])
  }

  /** A row, once inserted, is never removed, its target never changes and its
      counter never goes down, whatever requests follow. */
  lemma {:induction false} RowsPersist(t: Links, reqs: seq<Request>)
    ensures forall id :: id in t ==>
      id in Run(t, reqs) &&
      Run(t, reqs)[id].fullUrl == t[id].fullUrl &&
      Run(t, reqs)[id].clicks >= t[id].clicks
    decreases |reqs|
  {
    if reqs != [] {
      var t1 := Step(t, reqs[0]);
      RowsPersist(t1, reqs[1..]);
      assert forall id :: id in t ==>
        id in t1 && t1[id].fullUrl == t[id].fullUrl && t1[id].clicks >= t[id].clicks;
    }
  }

  /** Every redirect of an id adds exactly one click to it; nothing else does. */
  function Hits(reqs: seq<Request>, id: string): nat {
    if reqs == [] then 0
    else (if reqs[0] == RedirectRequest(id) then 1 else 0) + Hits(reqs[1..], id)
  }

  lemma {:induction false} ClicksCountRedirects(t: Links, reqs: seq<Request>, id: string)
    requires id in t
    ensures id in Run(t, reqs)
    ensures Run(t, reqs)[id].clicks == t[id].clicks + Hits(reqs, id)
    decreases |reqs|
  {
    if reqs != [] {
      var t1 := Step(t, reqs[0]);
      assert id in t1 && t1[id].clicks == t[id].clicks + (if reqs[0] == RedirectRequest(id) then 1 else 0);
      ClicksCountRedirects(t1, reqs[1..], id);
    }
  }

  /** The service process: the table held in place and changed by each handler. */
  class UrlServer {
    var urls: Links

    /** A fresh database: no rows. */
    constructor ()
      ensures urls == map[]
    {
      urls := map[];
    }

    /** generate_short_id: draw `length` symbols, one random choice each, and
        redraw the whole string until it names no row. The source retries without
        bound; here at most `attempts` draws are made, and None means the source
        would still be drawing. `drawn` lists every candidate in the order drawn. */
    method GenerateShortId(length: nat, attempts: nat) returns (r: Option<string>, ghost drawn: seq<string>)
      ensures |drawn| <= attempts
      ensures forall j :: 0 <= j < |drawn| ==> IsShortId(drawn[j], length)
      ensures r.Some? ==> IsShortId(r.value, length) && r.value !in urls
      ensures r.Some? ==> drawn != [] && r.value == drawn[|drawn| - 1]
      ensures r.Some? ==> forall j :: 0 <= j < |drawn| - 1 ==> drawn[j] in urls
      ensures r.None? ==> |drawn| == attempts && forall j :: 0 <= j < |drawn| ==> drawn[j] in urls
    {
      drawn := [];
      var tries := 0;
      while tries < attempts
        invariant tries <= attempts && |drawn| == tries
        invariant forall j :: 0 <= j < |drawn| ==> IsShortId(drawn[j], length) && drawn[j] in urls
      {
        var candidate := "";
        var i := 0;
        while i < length
          invariant i <= length
          invariant IsShortId(candidate, i)
        {
          var k :| 0 <= k < |Chars|;  // random.choice(chars)
          candidate := candidate + [Chars[k]];
          i := i + 1;
        }
        drawn := drawn + [candidate];
        if candidate !in urls {
          return Some(candidate), drawn;
        }
        tries := tries + 1;
      }
      r := None;
    }

    /** shorten_url: insert (short_id, url, 0) under a freshly drawn id. */
    method ShortenUrl(url: string, attempts: nat) returns (r: Option<string>)
      modifies this
      ensures r.None? ==> urls == old(urls)
      ensures r.Some? ==> |r.value| == |BaseUrl| + DefaultLength
      ensures r.Some? ==>
        var id := r.value[|BaseUrl|..];
        r.value == ShortUrl(id) && IsShortId(id, DefaultLength) &&
        id !in old(urls) && urls == Shorten(old(urls), id, url)
    {
      var id, _ := GenerateShortId(DefaultLength, attempts);
      if id.None? {
        return None;
      }
      urls := urls[id.value := Link(url, 0)];
      r := Some(ShortUrl(id.value));
    }

    method RedirectedToUrl(id: string) returns (r: Response<string>)
      modifies this
      ensures (urls, r) == Resolve(old(urls), id)
    {
      if id !in urls {
        return NotFound(ShortUrlNotFound);
      }
      var link := urls[id];
      var clicks := link.clicks + 1;
      urls := urls[id := Link(link.fullUrl, clicks)];
      r := Ok(link.fullUrl);
    }

    method GetStats(id: string) returns (r: Response<UrlStats>)
      ensures r == Stats(urls, id)
    {
      if id !in urls {
        return NotFound(ShortUrlNotFound);
      }
      var link := urls[id];
      r := Ok(UrlStats(link.fullUrl, link.clicks));
    }
  }
}
