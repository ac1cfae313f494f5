/** `RtTicketDistiller.will_handle` and the URL parsing of
    `RtTicketDistiller.tidy_url` (distil/rt_ticket.py): which locators name
    an RT ticket, and how the ticket number is taken out of them. */
module RtUrl {
  import opened Common
  import opened Text

  const ShortPrefix: string := "rt://"
  const WebHost: string := "https://rt.engineroom.anchor.net.au/"
  const TicketPath: string := WebHost + "Ticket/"
  const QueryPart: string := ".html?id="
  const DisplayPrefix: string := TicketPath + "Display" + QueryPart
  const TicketApiPrefix: string := "https://ticket.api.anchor.com.au/ticket/"

  /** `will_handle(url)`. */
  predicate WillHandle(url: string) {
    StartsWith(url, ShortPrefix) || StartsWith(url, WebHost)
  }

  /** `TICKET_URL_TEMPLATE(n)`: the ticket API address of ticket `n`. */
  function TicketApiUrl(id: string): string {
    TicketApiPrefix + id
  }

  /** `WEB_TICKET_URL_TEMPLATE(_id=n)`: the canonical web address of ticket `n`. */
  function WebTicketUrl(id: string): string {
    DisplayPrefix + id
  }

  /** The first step of `tidy_url`: a short `rt://` locator has every
      `rt://` in it replaced by the web display prefix, so that it becomes
      a display address; any other locator is left alone. */
  function Rewrite(url: string): (r: string)
    ensures !StartsWith(url, ShortPrefix) ==> r == url
    ensures StartsWith(url, ShortPrefix) ==> StartsWith(r, DisplayPrefix)
  {
    if StartsWith(url, ShortPrefix) then
      var rest := url[|ShortPrefix|..];
      assert url == ShortPrefix + rest;
      ReplaceAtStart(ShortPrefix, DisplayPrefix, rest);
      AffixesOfConcat(DisplayPrefix, ReplaceAll(rest, ShortPrefix, DisplayPrefix));
      ReplaceAll(url, ShortPrefix, DisplayPrefix)
    else url
  }

  predicate AllDigits(s: string) {
    forall i :: 0 <= i < |s| ==> IsDigit(s[i])
  }

  predicate AllWordChars(s: string) {
    forall i :: 0 <= i < |s| ==> IsWordChar(s[i])
  }

  /** `path` + `\w+` + `query` + `(\d+)` matched from the start of `url`:
      a non-empty word, the query, a non-empty digit run that `\d+` takes
      whole, then anything. */
  predicate IsShapedUrl(url: string, path: string, query: string, word: string, id: string, rest: string) {
    && url == path + word + query + id + rest
    && word != [] && AllWordChars(word)
    && id != [] && AllDigits(id)
    && (rest == [] || !IsDigit(rest[0]))
  }

  /** The parts of a matched URL; `id` is `group(1)`. */
  datatype RtMatch = RtMatch(word: string, id: string, rest: string)

  /** `(\d+)` at the start of `b`: the whole leading digit run and what follows. */
  function MatchDigits(b: string): (r: Option<(string, string)>)
    ensures r.Some? ==> && b == r.value.0 + r.value.1
                        && r.value.0 != [] && AllDigits(r.value.0)
                        && (r.value.1 == [] || !IsDigit(r.value.1[0]))
  {
    var d := LeadingRun(b, IsDigit);
    if d == 0 then None
    else
      assert b == b[..d] + b[d..];
      Some((b[..d], b[d..]))
  }

  /** `\w+` + `query` + `(\d+)` at the start of `a`. */
  function MatchAfterPath(a: string, query: string): (r: Option<RtMatch>)
    ensures r.Some? ==> && a == r.value.word + query + r.value.id + r.value.rest
                        && r.value.word != [] && AllWordChars(r.value.word)
                        && r.value.id != [] && AllDigits(r.value.id)
                        && (r.value.rest == [] || !IsDigit(r.value.rest[0]))
  {
    var w := LeadingRun(a, IsWordChar);
    if w == 0 || !StartsWith(a[w..], query) then None
    else
      match MatchDigits(a[w + |query|..])
      case None => None
      case Some((id, rest)) =>
        SplitAtQuery(a, w, query, id + rest);
        Some(RtMatch(a[..w], id, rest))
  }

  /** A string whose part from `w` is `query` then `b` is its first `w`
      characters, `query` and `b`. */
  lemma SplitAtQuery(a: string, w: nat, query: string, b: string)
    requires w <= |a| && StartsWith(a[w..], query) && a[w + |query|..] == b
    ensures a == a[..w] + query + b
  {
    assert a == a[..w] + a[w..];
    assert a[w..] == query + a[w + |query|..];
  }

  /** `re.match` of that shape, by hand: `None` when it does not match. */
  function MatchShape(url: string, path: string, query: string): (r: Option<RtMatch>)
    ensures r.Some? ==> IsShapedUrl(url, path, query, r.value.word, r.value.id, r.value.rest)
  {
    if !StartsWith(url, path) then None
    else
      match MatchAfterPath(url[|path|..], query)
      case None => None
      case Some(m) =>
        ShapedAfterPath(url, path, query, m);
        Some(m)
  }

  /** A match of the part after `path` is a match of the whole URL. */
  lemma ShapedAfterPath(url: string, path: string, query: string, m: RtMatch)
    requires StartsWith(url, path)
    requires url[|path|..] == m.word + query + m.id + m.rest
    requires m.word != [] && AllWordChars(m.word) && m.id != [] && AllDigits(m.id)
    requires m.rest == [] || !IsDigit(m.rest[0])
    ensures IsShapedUrl(url, path, query, m.word, m.id, m.rest)
  {
    var tail := url[|path|..];
    assert url == path + tail;
    assert path + m.word + query + m.id + m.rest == path + tail;
  }

  lemma MatchDigitsComplete(id: string, rest: string)
    requires id != [] && AllDigits(id)
    requires rest == [] || !IsDigit(rest[0])
    ensures MatchDigits(id + rest) == Some((id, rest))
  {
    LeadingRunOfAppend(id, rest, IsDigit);
    assert (id + rest)[..|id|] == id && (id + rest)[|id|..] == rest;
  }

  lemma MatchAfterPathComplete(query: string, word: string, id: string, rest: string)
    requires query != [] && !IsWordChar(query[0])
    requires word != [] && AllWordChars(word)
    requires id != [] && AllDigits(id)
    requires rest == [] || !IsDigit(rest[0])
    ensures MatchAfterPath(word + query + id + rest, query) == Some(RtMatch(word, id, rest))
  {
    var b := id + rest;
    var tail := query + b;
    var a := word + tail;
    assert a == word + query + id + rest;
    LeadingRunOfAppend(word, tail, IsWordChar);
    assert a[..|word|] == word && a[|word|..] == tail;
    assert tail[..|query|] == query;
    assert a[|word| + |query|..] == b;
    MatchDigitsComplete(id, rest);
  }

  /** Every URL of the shape is matched, with its own parts, provided the
      query does not start with a word character. */
  lemma MatchShapeComplete(url: string, path: string, query: string, word: string, id: string, rest: string)
    requires query != [] && !IsWordChar(query[0])
    requires IsShapedUrl(url, path, query, word, id, rest)
    ensures MatchShape(url, path, query) == Some(RtMatch(word, id, rest))
  {
    var a := word + query + id + rest;
    assert url == path + a;
    assert url[..|path|] == path && url[|path|..] == a;
    MatchAfterPathComplete(query, word, id, rest);
  }

  /** The RT web URL shape of `tidy_url`'s regular expression. */
  predicate IsRtWebUrl(url: string, word: string, id: string, rest: string) {
    IsShapedUrl(url, TicketPath, QueryPart, word, id, rest)
  }

  /** `re.match(r'https://rt\.engineroom\.anchor\.net\.au/Ticket/\w+\.html\?id=(\d+)', url)`. */
  function MatchRtUrl(url: string): (r: Option<RtMatch>)
    ensures r.Some? ==> IsRtWebUrl(url, r.value.word, r.value.id, r.value.rest)
  {
    MatchShape(url, TicketPath, QueryPart)
  }

  /** Every RT web URL is matched with its own parts. */
  lemma MatchComplete(url: string, word: string, id: string, rest: string)
    requires IsRtWebUrl(url, word, id, rest)
    ensures MatchRtUrl(url) == Some(RtMatch(word, id, rest))
  {
    assert QueryPart[0] == '.';
    MatchShapeComplete(url, TicketPath, QueryPart, word, id, rest);
  }

  /** A short locator `short + n + rest` has its leading `short` replaced
      and the digits after it copied. */
  lemma ReplaceShortForm(short: string, display: string, n: string, rest: string)
    requires short != [] && !IsDigit(short[0])
    requires display != [] && !IsDigit(display[0])
    requires AllDigits(n)
    requires rest == [] || !IsDigit(rest[0])
    ensures var t := ReplaceAll(rest, short, display);
      && ReplaceAll(short + n + rest, short, display) == display + n + t
      && (t == [] || !IsDigit(t[0]))
  {
    assert short + n + rest == short + (n + rest);
    ReplaceAtStart(short, display, n + rest);
    ReplaceSkips(n, rest, short, display);
    ReplaceFirst(rest, short, display);
  }

  /** The short locator `rt://N...` becomes `DisplayPrefix + N...`. */
  lemma RewriteShortForm(n: string, rest: string)
    requires AllDigits(n)
    requires rest == [] || !IsDigit(rest[0])
    ensures var t := ReplaceAll(rest, ShortPrefix, DisplayPrefix);
      && Rewrite(ShortPrefix + n + rest) == DisplayPrefix + n + t
      && (t == [] || !IsDigit(t[0]))
  {
    assert ShortPrefix[0] == 'r' && TicketPath[0] == 'h';
    assert DisplayPrefix[0] == TicketPath[0];
    ReplaceShortForm(ShortPrefix, DisplayPrefix, n, rest);
    assert (ShortPrefix + n + rest)[..|ShortPrefix|] == ShortPrefix;
  }

  /** A display address is matched with the word `Display` and its whole
      leading digit run. */
  lemma MatchDisplay(n: string, t: string)
    requires n != [] && AllDigits(n)
    requires t == [] || !IsDigit(t[0])
    ensures MatchRtUrl(DisplayPrefix + n + t) == Some(RtMatch("Display", n, t))
  {
    assert QueryPart[0] == '.';
    DisplayIsWord();
    assert DisplayPrefix + n + t == TicketPath + "Display" + QueryPart + n + t;
    MatchShapeComplete(DisplayPrefix + n + t, TicketPath, QueryPart, "Display", n, t);
  }

  lemma DisplayIsWord()
    ensures AllWordChars("Display")
  {
    var w := "Display";
    assert |w| == 7;
    assert w[0] == 'D' && w[1] == 'i' && w[2] == 's' && w[3] == 'p' && w[4] == 'l' && w[5] == 'a' && w[6] == 'y';
  }

  /** The match succeeds exactly on URLs of the RT web shape. */
  lemma MatchExactly(url: string)
    ensures MatchRtUrl(url).Some? <==> exists word, id, rest :: IsRtWebUrl(url, word, id, rest)
  {
    if exists word, id, rest :: IsRtWebUrl(url, word, id, rest) {
      var word, id, rest :| IsRtWebUrl(url, word, id, rest);
      MatchComplete(url, word, id, rest);
    }
  }

  /** The ticket number `tidy_url` takes from a locator: `group(1)` of the
      match on the rewritten locator, or `None`, for which it raises
      `ValueError`. */
  function TicketNumber(url: string): (r: Option<string>)
    ensures r.Some? ==> r.value != [] && AllDigits(r.value)
    ensures r.Some? <==> exists word, id, rest :: IsRtWebUrl(Rewrite(url), word, id, rest)
  {
    MatchExactly(Rewrite(url));
    match MatchRtUrl(Rewrite(url))
    case None => None
    case Some(m) => Some(m.id)
  }

  /** `rt://` locators and RT web URLs are the ones whose number is taken. */
  lemma TicketNumberOfForms(n: string, rest: string, url: string, word: string, id: string, tail: string)
    requires n != [] && AllDigits(n)
    requires rest == [] || !IsDigit(rest[0])
    requires IsRtWebUrl(url, word, id, tail)
    ensures TicketNumber(ShortPrefix + n + rest) == Some(n)
    ensures TicketNumber(url) == Some(id)
  {
    ShortFormAccepted(n, rest);
    WebFormAccepted(url, word, id, tail);
  }

  /** `rt://N...` is rewritten to the web display form, and its ticket
      number is the whole leading digit run N. */
  lemma ShortFormAccepted(n: string, rest: string)
    requires n != [] && AllDigits(n)
    requires rest == [] || !IsDigit(rest[0])
    ensures var t := ReplaceAll(rest, ShortPrefix, DisplayPrefix);
      && Rewrite(ShortPrefix + n + rest) == DisplayPrefix + n + t
      && MatchRtUrl(Rewrite(ShortPrefix + n + rest)) == Some(RtMatch("Display", n, t))
  {
    RewriteShortForm(n, rest);
    MatchDisplay(n, ReplaceAll(rest, ShortPrefix, DisplayPrefix));
  }

  /** A web-form URL is left as it is and its ticket number is taken. */
  lemma WebFormAccepted(url: string, word: string, id: string, rest: string)
    requires IsRtWebUrl(url, word, id, rest)
    ensures Rewrite(url) == url
    ensures MatchRtUrl(Rewrite(url)) == Some(RtMatch(word, id, rest))
  {
    assert url == TicketPath + (word + QueryPart + id + rest);
    assert StartsWith(url, TicketPath);
    assert TicketPath[0] == 'h' && ShortPrefix[0] == 'r';
    PrefixesDiffer(url, TicketPath, ShortPrefix);
    MatchComplete(url, word, id, rest);
  }

  /** Every locator `tidy_url` takes a number from is one `will_handle`
      claims. */
  lemma TidyUrlHandled(url: string)
    ensures TicketNumber(url).Some? ==> WillHandle(url)
  {
    if TicketNumber(url).Some? && !StartsWith(url, ShortPrefix) {
      var m := MatchRtUrl(url).value;
      WebUrlHandled(url, m.word + QueryPart + m.id + m.rest);
    }
  }

  /** An address under the ticket path is under the RT web host. */
  lemma WebUrlHandled(url: string, tail: string)
    requires url == TicketPath + tail
    ensures StartsWith(url, WebHost)
  {
    assert url == WebHost + ("Ticket/" + tail);
    AffixesOfConcat(WebHost, "Ticket/" + tail);
  }
}
