/** `RtTicketDistiller` (distil/rt_ticket.py): the ticket's lifecycle
    decisions (not found, merged, deleted), the customer details, the
    document it yields, and the distiller object whose `tidy_url` and
    `blobify` update its fields step by step. The HTTP responses are
    parameters; `enqueue_deletion` is recorded as the list of URLs passed
    to it. */
module RtTicket {
  import opened Common
  import opened Sequences
  import opened Text
  import opened MessageCleaner
  import opened RtUrl
  import opened NameCache
  import opened RtMessages

  /** A ticket as the ticket API returns it. `hasCode` is a `code` key in
      the body; `id` is `_id`; `lastUpdated` is an opaque timestamp. */
  datatype TicketRecord = TicketRecord(
    hasCode: bool,
    id: int,
    subject: string,
    status: string,
    queue: string,
    category: Option<string>,
    priority: int,
    lastUpdated: int,
    private: bool,
    customerUrl: Option<string>)

  // ----- Lifecycle (lines 134-182) -----

  /** Whether the ticket is indexed, and the URLs passed to
      `enqueue_deletion` on the way. */
  datatype Lifecycle = Halt(deletions: seq<string>) | Proceed(deletions: seq<string>, ticket: TicketRecord)

  /** The `_id` of a ticket as a string: the resolved ticket number. */
  function ResolvedId(t: TicketRecord): string {
    IntToString(t.id)
  }

  /** Lines 134-182, for the locator `url` (already rewritten by
      `tidy_url`) whose number was `supplied`. */
  function TicketLifecycle(url: string, supplied: string, resp: HttpResponse<TicketRecord>): (r: Lifecycle)
    ensures r.Proceed? <==> !RaisesForStatus(resp.status) && !resp.body.hasCode && resp.body.status != "deleted"
    ensures r.Proceed? ==> r.ticket == resp.body
    ensures |r.deletions| <= 2
  {
    if RaisesForStatus(resp.status) then
      Halt(if resp.status == 404 then [url] else [])
    else if resp.body.hasCode then
      Halt([])
    else
      var t := resp.body;
      var merged := if supplied != ResolvedId(t) then [url] else [];
      if t.status == "deleted" then Halt(merged + [WebTicketUrl(ResolvedId(t))])
      else Proceed(merged, t)
  }

  /** The locator asked for is dropped from the index exactly when the
      ticket API does not know it, when the ticket was merged away from it,
      or when it is the canonical URL of a deleted ticket. */
  lemma LifecycleDropsLocator(url: string, supplied: string, resp: HttpResponse<TicketRecord>)
    ensures url in TicketLifecycle(url, supplied, resp).deletions <==>
      || resp.status == 404
      || (!RaisesForStatus(resp.status) && !resp.body.hasCode
          && (supplied != ResolvedId(resp.body)
              || (resp.body.status == "deleted" && WebTicketUrl(ResolvedId(resp.body)) == url)))
  {
  }

  /** A ticket the API does not know is dropped from the index under the
      locator it was asked for; any other HTTP failure changes nothing. */
  lemma TicketNotFetched(url: string, supplied: string, resp: HttpResponse<TicketRecord>)
    requires RaisesForStatus(resp.status)
    ensures resp.status == 404 ==> TicketLifecycle(url, supplied, resp) == Halt([url])
    ensures resp.status != 404 ==> TicketLifecycle(url, supplied, resp) == Halt([])
  {
  }

  /** A merged ticket has its old locator dropped, and is then indexed
      under its new number unless it was also deleted. */
  lemma TicketMerged(url: string, supplied: string, resp: HttpResponse<TicketRecord>)
    requires !RaisesForStatus(resp.status) && !resp.body.hasCode
    requires supplied != ResolvedId(resp.body)
    ensures var r := TicketLifecycle(url, supplied, resp);
      && r.deletions[0] == url
      && (resp.body.status != "deleted" ==> r == Proceed([url], resp.body))
  {
  }

  /** A deleted ticket is dropped under its canonical web URL and nothing
      is indexed. */
  lemma TicketDeleted(url: string, supplied: string, resp: HttpResponse<TicketRecord>)
    requires !RaisesForStatus(resp.status) && !resp.body.hasCode
    requires resp.body.status == "deleted"
    ensures var r := TicketLifecycle(url, supplied, resp);
      && r.Halt?
      && r.deletions[|r.deletions| - 1] == WebTicketUrl(ResolvedId(resp.body))
      && (|r.deletions| == 2 <==> supplied != ResolvedId(resp.body))
  {
  }

  // ----- Customer (lines 185-207) -----

  /** `s.rpartition('/')[-1]`: what follows the last `/`, or all of `s`. */
  function LastSegment(s: string): (r: string)
    ensures '/' !in r && EndsWith(s, r)
    ensures |r| < |s| ==> s[|s| - |r| - 1] == '/'
  {
    if s == [] || s[|s| - 1] == '/' then []
    else
      var r := LastSegment(s[..|s| - 1]) + [s[|s| - 1]];
      assert s[..|s| - 1][|s| - |r|..] == s[|s| - |r|..|s| - 1];
      r
  }

  /** The id is what `rpartition` gives, and that is the only suffix with
      no `/` that is all of `s` or follows a `/`. */
  lemma LastSegmentUnique(s: string, t: string)
    requires '/' !in t && EndsWith(s, t)
    requires |t| == |s| || s[|s| - |t| - 1] == '/'
    ensures LastSegment(s) == t
  {
  }

  /** `customer_id`: `None` when the ticket has no customer URL. */
  function CustomerIdOf(customerUrl: Option<string>): (r: Option<string>)
    ensures r.None? <==> !Truthy(customerUrl)
    ensures r.Some? ==> r.value == LastSegment(customerUrl.value)
  {
    if Truthy(customerUrl) then Some(LastSegment(customerUrl.value)) else None
  }

  /** `' '.join([x for x in (customer_name, customer_id) if x is not None])`. */
  function CustomerDetails(name: Option<string>, id: Option<string>): (r: string)
    ensures name.None? && id.None? ==> r == ""
    ensures name.Some? && id.None? ==> r == name.value
    ensures name.None? && id.Some? ==> r == id.value
    ensures name.Some? && id.Some? ==> r == name.value + " " + id.value
  {
    match (name, id)
    case (None, None) => ""
    case (Some(n), None) => n
    case (None, Some(i)) => i
    case (Some(n), Some(i)) => n + " " + i
  }

  // ----- The document (lines 249-341) -----

  /** Everything the document is made of. */
  datatype TicketFacts = TicketFacts(
    url: string,
    number: string,
    subject: string,
    excerpt: string,
    status: string,
    queue: string,
    priority: int,
    realnames: seq<string>,
    emails: seq<string>,
    lastUpdated: int,
    customerVisible: bool,
    category: Option<string>,
    blob: string,
    publicBlob: Option<string>,
    lastContact: Option<int>,
    customerId: Option<string>,
    customerName: Option<string>,
    customerUrl: Option<string>)

  /** The facts of ticket `t`, given its selected messages `ms` after the
      first post at `k` was cut to the excerpt, and the customer name. */
  function FactsOf(t: TicketRecord, ms: seq<Message>, k: nat, customerName: Option<string>): TicketFacts
    requires k < |ms|
  {
    var number := ResolvedId(t);
    var realnames := DistinctNonEmpty(RealNames(ms));
    var emails := DistinctNonEmpty(Emails(ms));
    var publicLines := AllLines(Filter(ms, IsPublic));
    TicketFacts(
      WebTicketUrl(number), number, t.subject, ms[k].content, t.status, t.queue, t.priority,
      realnames, emails, t.lastUpdated, !t.private, t.category,
      TicketBlob(number, t.subject, realnames, emails, AllLines(ms)),
      if !t.private && publicLines != [] then Some(TicketBlob(number, t.subject, realnames, emails, publicLines)) else None,
      LatestContact(ms),
      CustomerIdOf(t.customerUrl), customerName, t.customerUrl)
  }

  /** The keys every ticket document has. */
  const BaseKeys: set<Key> := {
    Url, Blob, LocalId, Title, Excerpt, Subject, Status, Queue,
    Priority, RealName, Email, LastUpdated, CustomerVisible }

  /** The keys a ticket document has only when their value means something. */
  const OptionalKeys: set<Key> := {
    Category, PublicBlob, LastContact, CustomerId, CustomerName, CustomerUrl, Customer }

  /** `if cond: d[k] = v`. */
  function Put(d: Document, cond: bool, k: Key, v: Value): Document {
    if cond then d[k := v] else d
  }

  /** Lines 299-313: the dictionary literal. */
  function BaseDocument(f: TicketFacts): Document {
    map[
      Url := Str(f.url), Blob := Str(f.blob), LocalId := Str(f.number),
      Title := Str(f.subject), Excerpt := Str(f.excerpt), Subject := Str(f.subject),
      Status := Str(f.status), Queue := Str(f.queue), Priority := Num(f.priority),
      RealName := Strs(f.realnames), Email := Strs(f.emails),
      LastUpdated := Time(f.lastUpdated), CustomerVisible := Flag(f.customerVisible)]
  }

  /** Lines 299-339: the literal, then each optional key inserted when its
      value is truthy. */
  function TicketDocument(f: TicketFacts): Document {
    var d1 := Put(BaseDocument(f), Truthy(f.category), Category, Str(f.category.GetOr("")));
    var d2 := Put(d1, Truthy(f.publicBlob), PublicBlob, Str(f.publicBlob.GetOr("")));
    var d3 := Put(d2, f.lastContact.Some?, LastContact, Time(f.lastContact.GetOr(0)));
    var d4 := Put(d3, Truthy(f.customerId), CustomerId, Str(f.customerId.GetOr("")));
    var d5 := Put(d4, Truthy(f.customerName), CustomerName, Str(f.customerName.GetOr("")));
    var d6 := Put(d5, Truthy(f.customerUrl), CustomerUrl, Str(f.customerUrl.GetOr("")));
    var details := CustomerDetails(f.customerName, f.customerId);
    Put(d6, details != "", Customer, Str(details))
  }

  /** The document has every base key and only base and optional keys. */
  lemma TicketDocumentKeys(f: TicketFacts)
    ensures BaseKeys <= TicketDocument(f).Keys <= BaseKeys + OptionalKeys
  {
  }

  /** The optional insertions leave the base keys as the literal has them. */
  lemma TicketDocumentUrl(f: TicketFacts)
    ensures Url in TicketDocument(f) && TicketDocument(f)[Url] == Str(f.url)
  {
  }

  lemma TicketDocumentBlob(f: TicketFacts)
    ensures Blob in TicketDocument(f) && TicketDocument(f)[Blob] == Str(f.blob)
  {
  }

  lemma TicketDocumentExcerpt(f: TicketFacts)
    ensures Excerpt in TicketDocument(f) && TicketDocument(f)[Excerpt] == Str(f.excerpt)
  {
  }

  /** The document names the ticket, its text and its excerpt. */
  lemma TicketDocumentBase(f: TicketFacts)
    ensures var d := TicketDocument(f);
      && Url in d && d[Url] == Str(f.url)
      && Blob in d && d[Blob] == Str(f.blob)
      && Excerpt in d && d[Excerpt] == Str(f.excerpt)
  {
    TicketDocumentUrl(f);
    TicketDocumentBlob(f);
    TicketDocumentExcerpt(f);
  }

  /** Category, public blob and last contact are present exactly when their
      values are truthy. */
  lemma TicketDocumentOptional(f: TicketFacts)
    ensures Category in TicketDocument(f) <==> Truthy(f.category)
    ensures PublicBlob in TicketDocument(f) <==> Truthy(f.publicBlob)
    ensures LastContact in TicketDocument(f) <==> f.lastContact.Some?
  {
  }

  /** The customer name is present exactly when it is truthy, and it is
      the one given. */
  lemma TicketDocumentCustomerName(f: TicketFacts)
    ensures CustomerName in TicketDocument(f) <==> Truthy(f.customerName)
    ensures CustomerName in TicketDocument(f) ==> TicketDocument(f)[CustomerName] == Str(f.customerName.value)
  {
  }

  /** The customer id, customer URL and customer details are present
      exactly when their values are truthy. */
  lemma TicketDocumentCustomerLinks(f: TicketFacts)
    ensures CustomerId in TicketDocument(f) <==> Truthy(f.customerId)
    ensures CustomerUrl in TicketDocument(f) <==> Truthy(f.customerUrl)
    ensures Customer in TicketDocument(f) <==> CustomerDetails(f.customerName, f.customerId) != ""
  {
  }

  /** Lines 299-339: the document built key by key. */
  method AssembleDocument(f: TicketFacts) returns (doc: Document)
    ensures doc == TicketDocument(f)
  {
    doc := map[
      Url := Str(f.url), Blob := Str(f.blob), LocalId := Str(f.number),
      Title := Str(f.subject), Excerpt := Str(f.excerpt), Subject := Str(f.subject),
      Status := Str(f.status), Queue := Str(f.queue), Priority := Num(f.priority),
      RealName := Strs(f.realnames), Email := Strs(f.emails),
      LastUpdated := Time(f.lastUpdated), CustomerVisible := Flag(f.customerVisible)];
    if Truthy(f.category) {
      doc := doc[Category := Str(f.category.value)];
    }
    if Truthy(f.publicBlob) {
      doc := doc[PublicBlob := Str(f.publicBlob.value)];
    }
    if f.lastContact.Some? {
      doc := doc[LastContact := Time(f.lastContact.value)];
    }
    if Truthy(f.customerId) {
      doc := doc[CustomerId := Str(f.customerId.value)];
    }
    if Truthy(f.customerName) {
      doc := doc[CustomerName := Str(f.customerName.value)];
    }
    if Truthy(f.customerUrl) {
      doc := doc[CustomerUrl := Str(f.customerUrl.value)];
    }
    var details := CustomerDetails(f.customerName, f.customerId);
    if details != "" {
      doc := doc[Customer := Str(details)];
    }
  }

  /** The public blob is there exactly when the ticket is visible to the
      customer and one of its messages is. */
  lemma PublicBlobPresent(t: TicketRecord, ms: seq<Message>, k: nat, name: Option<string>)
    requires k < |ms|
    ensures var f := FactsOf(t, ms, k, name);
      Truthy(f.publicBlob) <==> !t.private && exists i :: 0 <= i < |ms| && !ms[i].private
  {
    var pub := Filter(ms, IsPublic);
    if exists i :: 0 <= i < |ms| && !ms[i].private {
      var i :| 0 <= i < |ms| && !ms[i].private;
      FilterMembership(ms, IsPublic, ms[i]);
      assert pub != [];
    } else {
      FilterKeepsNone(ms, IsPublic);
    }
    var f := FactsOf(t, ms, k, name);
    if f.publicBlob.Some? {
      var r := f.realnames;
      var e := f.emails;
      TicketBlobParts(f.number, f.subject, r, e, AllLines(pub));
    }
  }

  // ----- The whole of blobify -----

  /** Lines 213-341, once the ticket is known and its customer name looked
      up: the messages give one document, or an exception. */
  function MessagesOutcome(t: TicketRecord, customerName: Option<string>,
                           messagesResp: HttpResponse<seq<Message>>): (r: Outcome)
    ensures r.Raised? ==> r.error == RuntimeError || r.error == KeyError
    ensures r.Yielded? ==> |r.docs| <= 1
  {
    if RaisesForStatus(messagesResp.status) then Yielded([])
    else
      var ms := SelectMessages(messagesResp.body);
      if ms == [] then Raised(RuntimeError)
      else
        match FirstWithContent(ms)
        case None => Raised(KeyError)
        case Some(k) => Yielded([TicketDocument(FactsOf(t, TruncateFirstPost(ms, k), k, customerName))])
  }

  /** A failed message fetch yields nothing; otherwise the run raises
      `RuntimeError` when no message is left, `KeyError` when none has a
      body, and otherwise yields one document whose excerpt is the first six
      lines of the first message with a body, whose URL is the canonical
      one, and whose customer name is the one looked up. */
  lemma MessagesOutcomeCases(t: TicketRecord, name: Option<string>, mr: HttpResponse<seq<Message>>)
    ensures var o := MessagesOutcome(t, name, mr);
      var ms := SelectMessages(mr.body);
      && (RaisesForStatus(mr.status) ==> o == Yielded([]))
      && (!RaisesForStatus(mr.status) ==>
            && (ms == [] <==> o == Raised(RuntimeError))
            && (ms != [] && FirstWithContent(ms).None? <==> o == Raised(KeyError))
            && (o.Yielded? ==>
                  var k := FirstWithContent(ms).value;
                  var d := o.docs;
                  && |d| == 1
                  && Excerpt in d[0] && d[0][Excerpt] == Str(FirstLines(ms[k].content, ExcerptLines))
                  && Url in d[0] && d[0][Url] == Str(WebTicketUrl(ResolvedId(t)))
                  && (CustomerName in d[0] <==> Truthy(name))
                  && (CustomerName in d[0] ==> d[0][CustomerName] == Str(name.value))))
  {
    var ms := SelectMessages(mr.body);
    if !RaisesForStatus(mr.status) && ms != [] && FirstWithContent(ms).Some? {
      var k := FirstWithContent(ms).value;
      var f := FactsOf(t, TruncateFirstPost(ms, k), k, name);
      TicketDocumentBase(f);
      TicketDocumentCustomerName(f);
    }
  }

  /** Lines 213-341 step by step: fetch check, selection, the `for ...
      break` search and the cut of the first post in the message list. */
  method BuildDocument(t: TicketRecord, customerName: Option<string>,
                       messagesResp: HttpResponse<seq<Message>>) returns (outcome: Outcome)
    ensures outcome == MessagesOutcome(t, customerName, messagesResp)
  {
    if RaisesForStatus(messagesResp.status) {
      return Yielded([]);
    }
    var messages := SelectMessages(messagesResp.body);
    if |messages| == 0 {
      return Raised(RuntimeError);
    }
    var first := FindFirstPost(messages);
    if first.None? {
      return Raised(KeyError);
    }
    var k := first.value;
    messages := messages[k := messages[k].(content := FirstLines(messages[k].content, ExcerptLines))];
    var doc := AssembleDocument(FactsOf(t, messages, k, customerName));
    outcome := Yielded([doc]);
  }

  /** What one run of `blobify` amounts to: its outcome, the URLs passed to
      `enqueue_deletion`, the cache afterwards, and `self.url` afterwards. */
  datatype Run = Run(outcome: Outcome, deletions: seq<string>, entries: map<string, Entry>, url: string)

  /** Lines 113-341, for a distiller created for `url`, given the cache at
      `now` and the three API responses (ticket, customer, messages). */
  function Distil(url: string, entries: map<string, Entry>, now: int,
                  ticketResp: HttpResponse<TicketRecord>,
                  customerResp: HttpResponse<Option<string>>,
                  messagesResp: HttpResponse<seq<Message>>): (r: Run)
    ensures r.url == Rewrite(url)
  {
    var u := Rewrite(url);
    match TicketNumber(url)
    case None => Run(Raised(ValueError), [], entries, u)
    case Some(supplied) =>
      match TicketLifecycle(u, supplied, ticketResp)
      case Halt(dels) => Run(Yielded([]), dels, entries, u)
      case Proceed(dels, t) =>
        var res := Resolve(entries, CustomerIdOf(t.customerUrl), customerResp, now);
        Run(MessagesOutcome(t, res.name, messagesResp), dels, res.entries, u)
  }

  /** A locator that is not an RT ticket's raises `ValueError` before
      anything is fetched. */
  lemma DistilRejects(url: string, entries: map<string, Entry>, now: int,
                      tr: HttpResponse<TicketRecord>, cr: HttpResponse<Option<string>>,
                      mr: HttpResponse<seq<Message>>)
    requires forall word, id, rest :: !IsRtWebUrl(Rewrite(url), word, id, rest)
    ensures Distil(url, entries, now, tr, cr, mr) == Run(Raised(ValueError), [], entries, Rewrite(url))
  {
  }

  /** A ticket that is fetched and neither refused nor deleted has its
      merge deletion enqueued, its customer looked up through the cache, and
      its messages turned into the outcome; the name in the document is
      never the sentinel. */
  lemma DistilIndexes(url: string, entries: map<string, Entry>, now: int,
                      tr: HttpResponse<TicketRecord>, cr: HttpResponse<Option<string>>,
                      mr: HttpResponse<seq<Message>>)
    requires TicketNumber(url).Some?
    requires TicketLifecycle(Rewrite(url), TicketNumber(url).value, tr).Proceed?
    ensures var r := Distil(url, entries, now, tr, cr, mr);
      var res := Resolve(entries, CustomerIdOf(tr.body.customerUrl), cr, now);
      && r.deletions == (if TicketNumber(url).value != ResolvedId(tr.body) then [Rewrite(url)] else [])
      && r.entries == res.entries
      && r.outcome == MessagesOutcome(tr.body, res.name, mr)
      && (r.outcome.Yielded? && r.outcome.docs != [] && CustomerName in r.outcome.docs[0] ==>
            r.outcome.docs[0][CustomerName] != Str(NotFound))
  {
    var res := Resolve(entries, CustomerIdOf(tr.body.customerUrl), cr, now);
    MessagesOutcomeCases(tr.body, res.name, mr);
  }

  class RtTicketDistiller {
    var url: string
    var suppliedTicketId: Option<string>
    var ticketUrl: Option<string>
    var resolvedTicketId: Option<string>
    /** The URLs passed to `enqueue_deletion`, oldest first. */
    var deletions: seq<string>

    constructor(url: string)
      ensures this.url == url && deletions == []
      ensures suppliedTicketId.None? && ticketUrl.None? && resolvedTicketId.None?
    {
      this.url := url;
      suppliedTicketId := None;
      ticketUrl := None;
      resolvedTicketId := None;
      deletions := [];
    }

    /** `enqueue_deletion(url)`. */
    method EnqueueDeletion(u: string)
      modifies this
      ensures deletions == old(deletions) + [u]
      ensures url == old(url) && suppliedTicketId == old(suppliedTicketId)
      ensures ticketUrl == old(ticketUrl) && resolvedTicketId == old(resolvedTicketId)
    {
      deletions := deletions + [u];
    }

    /** `tidy_url()`: rewrites `self.url` and sets the ticket number and the
        ticket API URL, or reports the `ValueError` it raises, after the
        rewrite has already happened. */
    method TidyUrl() returns (error: Option<Error>)
      modifies this
      ensures url == Rewrite(old(url))
      ensures deletions == old(deletions) && resolvedTicketId == old(resolvedTicketId)
      ensures TicketNumber(old(url)).None? ==>
        && error == Some(ValueError)
        && suppliedTicketId == old(suppliedTicketId) && ticketUrl == old(ticketUrl)
      ensures TicketNumber(old(url)).Some? ==>
        && error.None?
        && suppliedTicketId == TicketNumber(old(url))
        && ticketUrl == Some(TicketApiUrl(TicketNumber(old(url)).value))
    {
      if StartsWith(url, ShortPrefix) {
        url := ReplaceAll(url, ShortPrefix, DisplayPrefix);
      }
      var m := MatchRtUrl(url);
      if m.None? {
        return Some(ValueError);
      }
      suppliedTicketId := Some(m.value.id);
      ticketUrl := Some(TicketApiUrl(m.value.id));
      error := None;
    }

    /** Lines 134-182: fetch check, merge and deletion handling for the
        ticket numbered `suppliedTicketId`; the ticket when it is to be
        indexed. */
    method CheckTicket(ticketResp: HttpResponse<TicketRecord>) returns (ticket: Option<TicketRecord>)
      requires suppliedTicketId.Some?
      modifies this
      ensures url == old(url) && suppliedTicketId == old(suppliedTicketId) && ticketUrl == old(ticketUrl)
      ensures resolvedTicketId ==
        if !RaisesForStatus(ticketResp.status) && !ticketResp.body.hasCode
        then Some(ResolvedId(ticketResp.body)) else old(resolvedTicketId)
      ensures var lc := TicketLifecycle(old(url), old(suppliedTicketId).value, ticketResp);
        && deletions == old(deletions) + lc.deletions
        && (ticket.Some? <==> lc.Proceed?)
        && (ticket.Some? ==> ticket.value == lc.ticket)
    {
      if RaisesForStatus(ticketResp.status) {
        if ticketResp.status == 404 {
          EnqueueDeletion(url);
        }
        return None;
      }
      if ticketResp.body.hasCode {
        return None;
      }
      var t := ticketResp.body;
      var number := ResolvedId(t);
      resolvedTicketId := Some(number);

      if suppliedTicketId.value != number {
        EnqueueDeletion(url);
      }
      if t.status == "deleted" {
        EnqueueDeletion(WebTicketUrl(number));
        return None;
      }
      ticket := Some(t);
    }

    /** `blobify()`: the documents for this ticket, with the deletions it
        enqueues and the customer names it caches on the way. */
    method Blobify(cache: CustomerNameCache, now: int,
                   ticketResp: HttpResponse<TicketRecord>,
                   customerResp: HttpResponse<Option<string>>,
                   messagesResp: HttpResponse<seq<Message>>)
      returns (outcome: Outcome)
      modifies this, cache
      ensures var r := Distil(old(url), old(cache.entries), now, ticketResp, customerResp, messagesResp);
        && outcome == r.outcome
        && deletions == old(deletions) + r.deletions
        && cache.entries == r.entries
        && url == r.url
      ensures TicketNumber(old(url)).None? ==>
        && suppliedTicketId == old(suppliedTicketId) && ticketUrl == old(ticketUrl)
        && resolvedTicketId == old(resolvedTicketId)
      ensures TicketNumber(old(url)).Some? ==>
        && suppliedTicketId == TicketNumber(old(url))
        && ticketUrl == Some(TicketApiUrl(TicketNumber(old(url)).value))
        && resolvedTicketId ==
             if !RaisesForStatus(ticketResp.status) && !ticketResp.body.hasCode
             then Some(ResolvedId(ticketResp.body)) else old(resolvedTicketId)
    {
      var error := TidyUrl();
      if error.Some? {
        return Raised(ValueError);
      }
      var ticket := CheckTicket(ticketResp);
      if ticket.None? {
        return Yielded([]);
      }
      var t := ticket.value;
      var customerName, _ := ResolveCustomerName(cache, CustomerIdOf(t.customerUrl), customerResp, now);
      outcome := BuildDocument(t, customerName, messagesResp);
    }
  }
}
