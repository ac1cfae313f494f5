/** Choosing a distiller for a URL, and what the worker reads of the
    documents the distillers yield: each distiller's `will_handle` claims a
    family of addresses, no address is claimed by both, and every document
    either distiller yields is one `index` can read. */
module Dispatch {
  import opened Common
  import opened Text
  import RtUrl
  import MessageCleaner
  import RtMessages
  import RtTicket
  import Customer
  import IndexingWorker

  /** Two prefixes that differ at some position both fit within cannot
      both start the same string. */
  lemma PrefixesDifferAt(s: string, p: string, q: string, k: nat)
    requires k < |p| && k < |q| && p[k] != q[k]
    ensures !(StartsWith(s, p) && StartsWith(s, q))
  {
  }

  /** No URL is handled by both the RT ticket distiller and the customer
      distiller. */
  lemma HandlersDisjoint(url: string)
    ensures !(RtUrl.WillHandle(url) && Customer.WillHandle(url))
  {
    assert RtUrl.ShortPrefix[0] == 'r';
    assert Customer.CustomerPrefix[0] == 'h';
    PrefixesDifferAt(url, RtUrl.ShortPrefix, Customer.CustomerPrefix, 0);
    assert RtUrl.WebHost[8] == 'r';
    assert Customer.CustomerPrefix[8] == 'c';
    PrefixesDifferAt(url, RtUrl.WebHost, Customer.CustomerPrefix, 8);
  }

  /** Every document the RT ticket distiller yields has a `url` and a
      string `blob`, so `index` does not raise on reading it. */
  lemma TicketDocumentsReadable(t: RtTicket.TicketRecord, name: Option<string>,
                                mr: HttpResponse<seq<MessageCleaner.Message>>)
    ensures var o := RtTicket.MessagesOutcome(t, name, mr);
      o.Yielded? ==> forall i :: 0 <= i < |o.docs| ==> IndexingWorker.Readable(o.docs[i])
  {
    var o := RtTicket.MessagesOutcome(t, name, mr);
    var ms := RtMessages.SelectMessages(mr.body);
    if o.Yielded? && o.docs != [] {
      var k := RtMessages.FirstWithContent(ms).value;
      var f := RtTicket.FactsOf(t, RtMessages.TruncateFirstPost(ms, k), k, name);
      assert o.docs == [RtTicket.TicketDocument(f)];
      TicketDocumentReadable(f);
    }
  }

  lemma TicketDocumentReadable(f: RtTicket.TicketFacts)
    ensures IndexingWorker.Readable(RtTicket.TicketDocument(f))
  {
    RtTicket.TicketDocumentUrl(f);
    RtTicket.TicketDocumentBlob(f);
  }

  /** Every document the customer distiller yields has a `url` and a
      string `blob`, so `index` does not raise on reading it. */
  lemma CustomerDocumentsReadable(resp: HttpResponse<Customer.CustomerRecord>,
                                  fetch: string -> HttpResponse<Customer.RawContact>)
    ensures var o := Customer.CustomerOutcome(resp, fetch);
      o.Yielded? ==> forall i :: 0 <= i < |o.docs| ==> IndexingWorker.Readable(o.docs[i])
  {
  }
}
