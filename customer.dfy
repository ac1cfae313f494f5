/** The customer distiller (distil/customer.py): a customer record from the
    customer API becomes one index document whose blob lists the customer's
    primary, billing and technical contacts. Each HTTP GET is a parameter:
    the customer response, and `fetch`, the response to a GET of a contact
    URL. */
module Customer {
  import opened Common
  import opened Sequences
  import opened Text

  /** `CustomerDistiller.will_handle`: customer API addresses. */
  const CustomerPrefix: string := "https://" + "customer.api.anchor.com.au/customers/"

  /** The NetSuite search the `functional_url` of a customer points into;
      the customer's `cust:<id>` tag follows it. */
  const NetsuiteSearch: string :=
    "https://system.netsuite.com/app/common/search/ubersearchresults.nl?quicksearch=T&searchtype=Uber&frame=be&Uber_NAMEtype=KEYWORDSTARTSWITH&Uber_NAME="

  predicate WillHandle(url: string) {
    StartsWith(url, CustomerPrefix)
  }

  /** A value of a contact's `phone_numbers` dictionary: a number, or the
      empty dictionary the API sends for a number that is not set. */
  datatype PhoneEntry = Number(text: string) | Unset

  /** The fields of a contact record from the API that the distiller reads;
      the phone dictionary as its (key, value) items. */
  datatype RawContact = RawContact(id: int, firstName: string, lastName: string, email: string,
                                   phoneNumbers: seq<(string, PhoneEntry)>)

  /** The contact dictionary `clean_contact` builds. */
  datatype Contact = Contact(id: int, name: string, email: string, phoneNumbers: seq<(string, string)>)

  /** The fields of a customer record that `blobify` reads; the three
      contact lists are lists of contact URLs. */
  datatype CustomerRecord = CustomerRecord(id: int, description: string, url: string,
                                           primary: seq<string>, billing: seq<string>,
                                           alternative: seq<string>)

  predicate NotSpace(c: char) {
    c != ' '
  }

  /** `v.replace(' ', '')`. */
  function RemoveSpaces(s: string): (r: string)
    ensures ' ' !in r
  {
    Filter(s, NotSpace)
  }

  /** Removing spaces keeps every other character, as often as it occurs. */
  lemma RemoveSpacesKeeps(s: string, c: char)
    requires c != ' '
    ensures multiset(RemoveSpaces(s))[c] == multiset(s)[c]
  {
    FilterMultiset(s, NotSpace, c);
  }

  /** The phone items `clean_contact` keeps: the ones whose value is not a
      dictionary, with the spaces taken out of the value. */
  function CleanPhones(entries: seq<(string, PhoneEntry)>): (r: seq<(string, string)>)
    ensures |r| <= |entries|
    ensures forall i :: 0 <= i < |r| ==> ' ' !in r[i].1
  {
    if entries == [] then []
    else match entries[0].1
      case Number(t) => [(entries[0].0, RemoveSpaces(t))] + CleanPhones(entries[1..])
      case Unset => CleanPhones(entries[1..])
  }

  /** An item is kept exactly when the record has it with a number as its
      value; the kept value is that number without spaces. */
  lemma {:induction false} CleanPhonesMembership(entries: seq<(string, PhoneEntry)>, key: string, value: string)
    ensures (key, value) in CleanPhones(entries) <==>
      exists i :: 0 <= i < |entries| && entries[i].0 == key && entries[i].1.Number?
                  && value == RemoveSpaces(entries[i].1.text)
  {
    if entries != [] {
      CleanPhonesMembership(entries[1..], key, value);
      if (key, value) in CleanPhones(entries[1..]) {
        var i :| 0 <= i < |entries[1..]| && entries[1..][i].0 == key && entries[1..][i].1.Number?
                 && value == RemoveSpaces(entries[1..][i].1.text);
        assert entries[i + 1] == entries[1..][i];
      }
      if exists i :: 0 <= i < |entries| && entries[i].0 == key && entries[i].1.Number?
                     && value == RemoveSpaces(entries[i].1.text) {
        var i :| 0 <= i < |entries| && entries[i].0 == key && entries[i].1.Number?
                 && value == RemoveSpaces(entries[i].1.text);
        if i > 0 {
          assert entries[1..][i - 1] == entries[i];
        }
      }
    }
  }

  /** `clean_contact`. */
  function CleanContact(raw: RawContact): (c: Contact)
    ensures c.id == raw.id && c.email == raw.email
    ensures c.name == raw.firstName + " " + raw.lastName
    ensures c.phoneNumbers == CleanPhones(raw.phoneNumbers)
    ensures forall i :: 0 <= i < |c.phoneNumbers| ==> ' ' !in c.phoneNumbers[i].1
  {
    Contact(raw.id, raw.firstName + " " + raw.lastName, raw.email, CleanPhones(raw.phoneNumbers))
  }

  /** The values of the phone dictionary, in item order. */
  function PhoneValues(phones: seq<(string, string)>): (r: seq<string>)
    ensures |r| == |phones| && forall i :: 0 <= i < |r| ==> r[i] == phones[i].1
  {
    seq(|phones|, i requires 0 <= i < |phones| => phones[i].1)
  }

  /** `contact_details`: the email when it is not empty, then the phone
      numbers. */
  function ContactDetails(c: Contact): (r: seq<string>)
    ensures |r| == (if c.email != "" then 1 else 0) + |c.phoneNumbers|
    ensures c.email != "" ==> r[0] == c.email
    ensures forall i :: 0 <= i < |c.phoneNumbers| ==> r[|r| - |c.phoneNumbers| + i] == c.phoneNumbers[i].1
  {
    (if c.email != "" then [c.email] else []) + PhoneValues(c.phoneNumbers)
  }

  /** `blobify_contact`: the name, followed by the details in parentheses
      when there are any. */
  function BlobifyContact(c: Contact): (r: string)
    ensures StartsWith(r, c.name)
    ensures r == c.name <==> ContactDetails(c) == []
    ensures r != c.name ==> StartsWith(r, c.name + " (") && EndsWith(r, ")")
  {
    var details := ContactDetails(c);
    if details != [] then
      var r := c.name + " (" + Join(details, ", ") + ")";
      assert r[..|c.name| + 2] == c.name + " (";
      r
    else c.name
  }

  /** A joined list starts with its first piece. */
  lemma JoinStartsWithFirst(parts: seq<string>, sep: string)
    requires parts != []
    ensures StartsWith(Join(parts, sep), parts[0])
  {
  }

  /** A contact's blob is the bare name exactly when the contact has
      neither an email nor a phone number; otherwise it is the name and, in
      parentheses, the email (when there is one) and every phone number,
      separated by `, `. The first detail is the email when there is one,
      else the first phone number. */
  lemma BlobifyContactShape(c: Contact)
    ensures BlobifyContact(c) == c.name <==> c.email == "" && c.phoneNumbers == []
    ensures ContactDetails(c) != [] ==> BlobifyContact(c) == c.name + " (" + Join(ContactDetails(c), ", ") + ")"
    ensures c.email != "" ==> StartsWith(BlobifyContact(c), c.name + " (" + c.email)
    ensures c.email == "" && c.phoneNumbers != [] ==>
      StartsWith(BlobifyContact(c), c.name + " (" + c.phoneNumbers[0].1)
  {
    var details := ContactDetails(c);
    if details != [] {
      JoinStartsWithFirst(details, ", ");
      var joined := Join(details, ", ");
      var r := c.name + " (" + joined + ")";
      assert r == c.name + " (" + joined[..|details[0]|] + joined[|details[0]|..] + ")";
      assert |r| > |c.name|;
    } else {
      assert |PhoneValues(c.phoneNumbers)| == 0;
    }
  }

  /** The GET of every URL of the list succeeds. */
  predicate AllFetched(fetch: string -> HttpResponse<RawContact>, urls: seq<string>) {
    forall i :: 0 <= i < |urls| ==> !RaisesForStatus(fetch(urls[i]).status)
  }

  /** The contacts `get_contacts` yields for a list of contact URLs, or
      `None` when it raises `RuntimeError` for a failed GET. */
  function ContactsOf(fetch: string -> HttpResponse<RawContact>, urls: seq<string>): (r: Option<seq<Contact>>)
    ensures r.Some? <==> AllFetched(fetch, urls)
    ensures r.Some? ==> (|r.value| == |urls|
      && forall i :: 0 <= i < |urls| ==> r.value[i] == CleanContact(fetch(urls[i]).body))
  {
    if urls == [] then Some([])
    else if RaisesForStatus(fetch(urls[0]).status) then None
    else match ContactsOf(fetch, urls[1..])
      case None => None
      case Some(rest) => Some([CleanContact(fetch(urls[0]).body)] + rest)
  }

  /** `get_contacts`, consumed to the end: the loop over the URLs. */
  method GetContacts(fetch: string -> HttpResponse<RawContact>, urls: seq<string>) returns (r: Option<seq<Contact>>)
    ensures r == ContactsOf(fetch, urls)
  {
    var contacts: seq<Contact> := [];
    var i := 0;
    while i < |urls|
      invariant 0 <= i <= |urls|
      invariant forall j :: 0 <= j < i ==> !RaisesForStatus(fetch(urls[j]).status)
      invariant |contacts| == i
      invariant forall j :: 0 <= j < i ==> contacts[j] == CleanContact(fetch(urls[j]).body)
    {
      var response := fetch(urls[i]);
      if RaisesForStatus(response.status) {
        return None;
      }
      contacts := contacts + [CleanContact(response.body)];
      i := i + 1;
    }
    assert ContactsOf(fetch, urls).Some?;
    assert contacts == ContactsOf(fetch, urls).value;
    return Some(contacts);
  }

  /** `[ blobify_contact(x) for x in contacts ]`. */
  function ContactBlobs(contacts: seq<Contact>): (r: seq<string>)
    ensures |r| == |contacts| && forall i :: 0 <= i < |r| ==> r[i] == BlobifyContact(contacts[i])
  {
    seq(|contacts|, i requires 0 <= i < |contacts| => BlobifyContact(contacts[i]))
  }

  /** One contacts section of the blob, e.g. `Primary contacts: a, b`. */
  function ContactSection(role: string, contacts: seq<Contact>): string {
    role + " contacts: " + Join(ContactBlobs(contacts), ", ")
  }

  /** The blob before the contact sections: `"<_id> <description>"`. */
  function CustomerHeading(c: CustomerRecord): string {
    IntToString(c.id) + " " + c.description
  }

  /** The finished blob: the heading, then the three sections in order,
      each on a line of its own. */
  function CustomerBlob(c: CustomerRecord, primary: seq<Contact>, billing: seq<Contact>, alternative: seq<Contact>): string {
    CustomerHeading(c)
      + "\n" + ContactSection("Primary", primary)
      + "\n" + ContactSection("Billing", billing)
      + "\n" + ContactSection("Technical", alternative)
  }

  /** The `functional_url` of customer `id`: its NetSuite keyword search. */
  function FunctionalUrlOf(id: int): string {
    NetsuiteSearch + "cust:" + IntToString(id)
  }

  /** `customerblob` once the three sections are in. */
  function CustomerDocument(c: CustomerRecord, primary: seq<Contact>, billing: seq<Contact>, alternative: seq<Contact>): Document {
    map[Url := Str(c.url), Blob := Str(CustomerBlob(c, primary, billing, alternative)),
        LocalId := Num(c.id), Title := Str(c.description), CustomerId := Num(c.id),
        CustomerName := Str(c.description), FunctionalUrl := Str(FunctionalUrlOf(c.id)),
        PrimaryContacts := Str(ContactSection("Primary", primary)),
        BillingContacts := Str(ContactSection("Billing", billing)),
        TechnicalContacts := Str(ContactSection("Technical", alternative))]
  }

  /** What `blobify` amounts to: `RuntimeError` for a failed customer or
      contact GET, otherwise the one document. */
  function CustomerOutcome(resp: HttpResponse<CustomerRecord>, fetch: string -> HttpResponse<RawContact>): (r: Outcome)
    ensures r.Raised? ==> r.error == RuntimeError
    ensures r.Yielded? ==> |r.docs| == 1
  {
    if RaisesForStatus(resp.status) then Raised(RuntimeError)
    else
      var c := resp.body;
      match (ContactsOf(fetch, c.primary), ContactsOf(fetch, c.billing), ContactsOf(fetch, c.alternative))
      case (Some(p), Some(b), Some(a)) => Yielded([CustomerDocument(c, p, b, a)])
      case _ => Raised(RuntimeError)
  }

  /** The document carries the customer's own address, id and description,
      and the NetSuite address tagged with its id. */
  lemma CustomerDocumentIdentity(c: CustomerRecord, p: seq<Contact>, b: seq<Contact>, a: seq<Contact>)
    ensures var d := CustomerDocument(c, p, b, a);
      && d[Url] == Str(c.url)
      && d[LocalId] == d[CustomerId] == Num(c.id)
      && d[Title] == d[CustomerName] == Str(c.description)
      && d[FunctionalUrl] == Str(FunctionalUrlOf(c.id))
  {
  }

  /** The functional address is the NetSuite search for the customer's
      `cust:<id>` tag. */
  lemma FunctionalUrlTagged(id: int)
    ensures StartsWith(FunctionalUrlOf(id), NetsuiteSearch)
    ensures EndsWith(FunctionalUrlOf(id), "cust:" + IntToString(id))
  {
    var tag := "cust:" + IntToString(id);
    assert FunctionalUrlOf(id) == NetsuiteSearch + tag;
    AffixesOfConcat(NetsuiteSearch, tag);
  }

  /** The document has exactly the seven fixed fields and the three
      contact sections, present even when a contact list is empty. */
  lemma CustomerDocumentKeys(c: CustomerRecord, p: seq<Contact>, b: seq<Contact>, a: seq<Contact>)
    ensures CustomerDocument(c, p, b, a).Keys ==
      {Url, Blob, LocalId, Title, CustomerId, CustomerName, FunctionalUrl,
       PrimaryContacts, BillingContacts, TechnicalContacts}
  {
  }

  /** Every section starts with its role and `contacts: `. */
  lemma ContactSectionHeading(role: string, contacts: seq<Contact>)
    ensures StartsWith(ContactSection(role, contacts), role + " contacts: ")
  {
    var heading := role + " contacts: ";
    var joined := Join(ContactBlobs(contacts), ", ");
    assert ContactSection(role, contacts)[..|heading|] == (heading + joined)[..|heading|] == heading;
  }

  /** A section for no contacts is the bare heading. */
  lemma EmptyContactSection(role: string)
    ensures ContactSection(role, []) == role + " contacts: "
  {
    assert ContactBlobs([]) == [];
  }

  /** Four pieces joined by newlines, and where each one sits. */
  lemma NewlineJoin(h: string, x: string, y: string, z: string)
    ensures var w := h + "\n" + x + "\n" + y + "\n" + z;
      && w[..|h|] == h
      && w[|h|..|h| + 1 + |x|] == "\n" + x
      && w[|h| + 1 + |x|..|h| + 2 + |x| + |y|] == "\n" + y
      && w[|h| + 2 + |x| + |y|..] == "\n" + z
  {
    var w := h + "\n" + x + "\n" + y + "\n" + z;
    assert w == h + ("\n" + x) + ("\n" + y) + ("\n" + z);
  }

  /** The blob starts with `"<_id> <description>"`, and the sections follow
      it in order, each after a newline: Primary, Billing, Technical. */
  lemma CustomerBlobLayout(c: CustomerRecord, p: seq<Contact>, b: seq<Contact>, a: seq<Contact>)
    ensures var blob := CustomerBlob(c, p, b, a);
      var head := CustomerHeading(c);
      var ps := ContactSection("Primary", p);
      var bs := ContactSection("Billing", b);
      && blob[..|head|] == head
      && blob[|head|..|head| + 1 + |ps|] == "\n" + ps
      && blob[|head| + 1 + |ps|..|head| + 2 + |ps| + |bs|] == "\n" + bs
      && blob[|head| + 2 + |ps| + |bs|..] == "\n" + ContactSection("Technical", a)
  {
    var head, ps, bs, ts := CustomerHeading(c), ContactSection("Primary", p),
                            ContactSection("Billing", b), ContactSection("Technical", a);
    assert CustomerBlob(c, p, b, a) == head + "\n" + ps + "\n" + bs + "\n" + ts;
    NewlineJoin(head, ps, bs, ts);
  }

  /** A customer with no contacts at all still gets all three headings. */
  lemma NoContactsBlob(c: CustomerRecord)
    ensures CustomerBlob(c, [], [], []) ==
      CustomerHeading(c) + "\n" + "Primary contacts: " + "\n" + "Billing contacts: " + "\n" + "Technical contacts: "
  {
    EmptyContactSection("Primary");
    EmptyContactSection("Billing");
    EmptyContactSection("Technical");
  }

  /** The lists of two URL lists together all fetch exactly when each does. */
  lemma AllFetchedAppend(fetch: string -> HttpResponse<RawContact>, x: seq<string>, y: seq<string>)
    ensures AllFetched(fetch, x + y) <==> AllFetched(fetch, x) && AllFetched(fetch, y)
  {
    if AllFetched(fetch, x) && AllFetched(fetch, y) {
      forall i | 0 <= i < |x + y|
        ensures !RaisesForStatus(fetch((x + y)[i]).status)
      {
        if i >= |x| {
          assert (x + y)[i] == y[i - |x|];
        }
      }
    }
    if AllFetched(fetch, x + y) {
      forall i | 0 <= i < |x|
        ensures !RaisesForStatus(fetch(x[i]).status)
      {
        assert (x + y)[i] == x[i];
      }
      forall i | 0 <= i < |y|
        ensures !RaisesForStatus(fetch(y[i]).status)
      {
        assert (x + y)[|x| + i] == y[i];
      }
    }
  }

  /** `blobify` raises `RuntimeError` exactly when the customer GET or the
      GET of one of its contacts fails; otherwise it yields one document. */
  lemma CustomerOutcomeCases(resp: HttpResponse<CustomerRecord>, fetch: string -> HttpResponse<RawContact>)
    ensures var o := CustomerOutcome(resp, fetch);
      && (RaisesForStatus(resp.status) ==> o.Raised?)
      && (!RaisesForStatus(resp.status) ==>
            (o.Raised? <==> !AllFetched(fetch, resp.body.primary + resp.body.billing + resp.body.alternative)))
  {
    var c := resp.body;
    AllFetchedAppend(fetch, c.primary, c.billing);
    AllFetchedAppend(fetch, c.primary + c.billing, c.alternative);
  }

  /** `CustomerDistiller.blobify`: the customer GET, the document with its
      seven fixed fields, then the three contact sections, each stored and
      appended to the blob after a newline. */
  method Blobify(resp: HttpResponse<CustomerRecord>, fetch: string -> HttpResponse<RawContact>)
    returns (outcome: Outcome)
    ensures outcome == CustomerOutcome(resp, fetch)
  {
    if RaisesForStatus(resp.status) {
      return Raised(RuntimeError);
    }
    var c := resp.body;
    var blob := IntToString(c.id) + " " + c.description;
    var doc: Document := map[Url := Str(c.url), Blob := Str(blob), LocalId := Num(c.id),
                             Title := Str(c.description), CustomerId := Num(c.id),
                             CustomerName := Str(c.description),
                             FunctionalUrl := Str(FunctionalUrlOf(c.id))];

    var primary := GetContacts(fetch, c.primary);
    if primary.None? {
      return Raised(RuntimeError);
    }
    var section := ContactSection("Primary", primary.value);
    blob := blob + "\n" + section;
    doc := doc[PrimaryContacts := Str(section)][Blob := Str(blob)];

    var billing := GetContacts(fetch, c.billing);
    if billing.None? {
      return Raised(RuntimeError);
    }
    section := ContactSection("Billing", billing.value);
    blob := blob + "\n" + section;
    doc := doc[BillingContacts := Str(section)][Blob := Str(blob)];

    var alternative := GetContacts(fetch, c.alternative);
    if alternative.None? {
      return Raised(RuntimeError);
    }
    section := ContactSection("Technical", alternative.value);
    blob := blob + "\n" + section;
    doc := doc[TechnicalContacts := Str(section)][Blob := Str(blob)];
    assert blob == CustomerBlob(c, primary.value, billing.value, alternative.value);
    assert doc == CustomerDocument(c, primary.value, billing.value, alternative.value);

    outcome := Yielded([doc]);
  }
}
