# UMAD indexing core in Dafny

UMAD keeps a search index of Anchor's records. Producers put resource URLs on
two Redis sorted sets, `umad_deletion_queue` and `umad_indexing_queue`. An
indexing worker drains both queues: deletions first, then indexing
requests. For each URL it asks a *distiller* for the documents to index.
This project models and proves properties of three parts of that system:

- **The RT ticket distiller** (`distil/rt_ticket.py`):
  - `will_handle`;
  - `clean_message`, the ordered clean-up of one message body, proved idempotent;
  - `tidy_url`, the locator parser, written as a hand parser for its regular expression;
  - `blobify`. It covers the ticket lifecycle (not found, refused, merged, deleted). It looks up the customer name through a Redis cache whose entries expire. It selects and sorts the messages and takes the excerpt from the first post, whose six-line cut also shortens that message in the blob. It then assembles the document by conditional key insertion.
- **The customer distiller** (`distil/customer.py`):
  - `clean_contact` and `blobify_contact`;
  - `will_handle`;
  - `get_contacts` and its error rule;
  - `blobify`, which builds the document and appends the three contact sections to its blob.
- **The indexing worker** (`indexing_worker/indexing_worker.py`):
  - the two-queue drain loop of `main`;
  - `index`, which adds documents in order until the first `None` document;
  - `delete`, which contains its errors.

Each source file is modelled in its own form:

- Pure code is written as datatypes, functions and lemmas. This covers the message cleaner, the URL parser, the contact formatting and the document contents.
- Code that changes state is written as classes with `modifies` clauses. This covers:
  - the distiller's fields set by `tidy_url` and `blobify`;
  - the name cache;
  - the worker's two queues and its trace of backend calls.

  Loops become `while` loops with invariants: the `for … break` search for the first post, `get_contacts`, the document loop of `index` and both drain loops. Each such method is proved equal to a specification function. The properties are proved about those functions.

HTTP responses, the cache clock and the search backend are parameters. A few choices about how they are represented:

- A response is a status code plus its decoded JSON body.
- `raise_for_status` raises for status codes 400 to 599, as the `requests` library defines it.
- The time `now` is passed to every cache operation.
- The backend is three values:
  - the URLs whose deletion fails;
  - the document stream each URL's distiller produces;
  - the documents the index refuses.

Modules, one per file:

- `Common`: values, document keys, errors, responses.
- `Sequences` and `Text`: list comprehensions, `strip`, `split`, `join`, `replace` and `str(int)`.
- `MessageCleaner`, `RtUrl`, `NameCache`, `RtMessages` and `RtTicket`: the RT ticket distiller.
- `Customer`: the customer distiller.
- `Dispatch`: the two distillers claim disjoint URLs, and every document they yield is one the worker can read.
- `IndexingWorker`: the worker.

## Model

| member | source | states |
|---|---|---|
| MessageCleaner.EmptyIsNoUnstallNotice | distil/rt_ticket.py:13 | The auto-unstall pattern does not match the empty body, so blanking a body is final. |
| MessageCleaner.IsUnstallNotice | distil/rt_ticket.py:13 | A body the auto-unstall pattern matches is longer than its three fixed phrases together, since it holds them all and a ticket number. |
| MessageCleaner.StrippedLines | distil/rt_ticket.py:45-46 | One entry per `\n`-separated piece of the body, each the piece with Python whitespace stripped from both ends; no entry holds a newline or starts or ends with whitespace. |
| MessageCleaner.FilteredLines | distil/rt_ticket.py:47-64 | The five filters in a row keep exactly the stripped lines that pass all of them, in their order; every surviving line is stripped and single, and is not quoted, blank, `.`, a bare greeting, a boilerplate line or an `On … wrote:` header. |
| MessageCleaner.FilteredLinesMembership | distil/rt_ticket.py:47-64 | A stripped line of the body survives the filters if and only if it passes every one of them. |
| Sequences.CutBefore | distil/rt_ticket.py:67-73 | `s[:s.index(x)]` for the first stop element: a prefix of the list with no stop element in it, followed in the list by a stop element unless it is the whole list. |
| MessageCleaner.CutSignature | distil/rt_ticket.py:67-73 | After the three cuts (short `Thanks…`, `Regards,`, `--`) the result is a prefix of the lines holding none of those lines, and the line right after it is one of them. |
| MessageCleaner.CleanLines | distil/rt_ticket.py:45-73 | Every kept line is a clean line, and the kept lines are the filtered lines up to the first stop line. |
| MessageCleaner.CleanMessage | distil/rt_ticket.py:28-93 | Only the seven fields survive; id, created and private are copied; `No Subject` becomes empty and no other subject changes; sender email and name are never `None` (a `None` email becomes empty); the name is the given name (empty for `None`) with quote marks stripped from both ends, so it has none left there; a non-empty body never matches the unstall pattern. |
| MessageCleaner.CleanedContent | distil/rt_ticket.py:76-91 | The cleaned body is empty exactly when no line survives or the joined lines are an unstall notice; otherwise splitting it on newlines gives the surviving lines back. |
| MessageCleaner.CleanLinesOfEmpty | distil/rt_ticket.py:45-48 | An empty body cleans to no lines at all. |
| MessageCleaner.StrippedLinesOfJoin | distil/rt_ticket.py:45-46 | Splitting and stripping stripped single lines joined by newlines gives the same lines. |
| MessageCleaner.FilteredLinesOfClean | distil/rt_ticket.py:47-64 | The filters drop nothing from a body whose lines are all clean. |
| MessageCleaner.CutSignatureOfClean | distil/rt_ticket.py:67-73 | The cuts remove nothing from lines without a stop line. |
| MessageCleaner.CleanLinesIdempotent | distil/rt_ticket.py:45-76 | Cleaning the joined clean lines again yields the same lines. |
| MessageCleaner.CleanIdempotent | distil/rt_ticket.py:28-93 | `clean_message` is idempotent: a cleaned message cleans to itself. |
| RtUrl.MatchDigits | distil/rt_ticket.py:104 | `(\d+)`: on success, a non-empty all-digit part that takes the whole leading digit run, and the rest, which together make up the input. |
| RtUrl.MatchAfterPath | distil/rt_ticket.py:104 | `\w+\.html\?id=(\d+)` at the start of a string: on success the string is the word, the query, the id and the rest, with a non-empty word of word characters and a maximal non-empty digit run. |
| RtUrl.MatchShape | distil/rt_ticket.py:104 | A match anchored at the start: on success the URL has the path, word, query, digit run and rest shape. |
| RtUrl.MatchRtUrl | distil/rt_ticket.py:104 | On success the URL has the RT web URL shape with the reported word, id and rest. |
| RtUrl.MatchDigitsComplete | distil/rt_ticket.py:104 | Conversely, digits followed by a non-digit are matched as exactly those digits. |
| RtUrl.MatchAfterPathComplete | distil/rt_ticket.py:104 | Every word-query-digits string is matched with its own parts, since the query does not start with a word character. |
| RtUrl.MatchShapeComplete | distil/rt_ticket.py:104 | Every URL of the shape is matched with its own parts. |
| RtUrl.MatchComplete | distil/rt_ticket.py:104 | Every RT web URL is matched with its own word, ticket number and rest. |
| RtUrl.MatchExactly | distil/rt_ticket.py:104-106 | The match succeeds if and only if the URL has the RT web shape. |
| RtUrl.ReplaceShortForm | distil/rt_ticket.py:101-102 | `replace` on `rt://N…` puts the display prefix in front of the same digits, and what follows them still does not start with a digit. |
| RtUrl.Rewrite | distil/rt_ticket.py:101-102 | A locator starting with `rt://` becomes one starting with the display prefix; any other locator is left alone. |
| RtUrl.RewriteShortForm | distil/rt_ticket.py:101-102 | `rt://N…` is rewritten to the display address of the same N. |
| RtUrl.MatchDisplay | distil/rt_ticket.py:102-104 | A display address is matched with the word `Display` and its whole digit run. |
| RtUrl.TicketNumber | distil/rt_ticket.py:101-107 | The ticket number is found if and only if the rewritten locator has the RT web shape, in which case it is a non-empty run of digits; otherwise `tidy_url` raises `ValueError`. |
| RtUrl.ShortFormAccepted | distil/rt_ticket.py:101-107 | `rt://N…` is accepted, and its number is the whole leading digit run N. |
| RtUrl.WebFormAccepted | distil/rt_ticket.py:101-107 | An RT web URL is not rewritten, and its number is the digit run after `?id=`. |
| RtUrl.TicketNumberOfForms | distil/rt_ticket.py:101-110 | Both accepted forms give the supplied ticket id N. |
| RtUrl.TidyUrlHandled | distil/rt_ticket.py:24-25 | Every locator `tidy_url` takes a ticket number from is one `will_handle` claims. |
| RtTicket.RtTicketDistiller.TidyUrl | distil/rt_ticket.py:98-110 | `self.url` is rewritten even when parsing then fails. On success the supplied id is the ticket number and `ticket_url` is the ticket API URL of that number. On failure `ValueError` is raised and both fields are left as they were. |
| NameCache.Lookup | distil/rt_ticket.py:118 | Redis `get`: a key never stored, or whose expiry has come, reads as nil; a live key reads as its value. |
| NameCache.LookupAfterStore | distil/rt_ticket.py:200-203 | A value stored with time to live `ttl` is read back at every instant before `ttl` seconds have passed, and reads as missing from then on. |
| NameCache.LookupOtherKey | distil/rt_ticket.py:200 | Storing under one key changes no other key. |
| NameCache.CustomerNameCache.constructor | distil/rt_ticket.py:116 | The connection sees whatever the shared Redis server already holds from earlier runs. |
| NameCache.CustomerNameCache.Get | distil/rt_ticket.py:118 | `cn_get` returns a value exactly when the key is stored and has not expired, and then it is the stored value. |
| NameCache.CustomerNameCache.SetEx | distil/rt_ticket.py:200 | `setex` stores the value to expire one time-to-live from now, and it is then read back. |
| NameCache.RetrievedName | distil/rt_ticket.py:192-197 | The name is the sentinel for a status other than 200 or a record without `description`, and otherwise the description. |
| NameCache.Resolve | distil/rt_ticket.py:188-207 | An untruthy id touches nothing. Otherwise the API is asked exactly on a cache miss, and then the fetched name is stored for one week. The key is always live afterwards. The name used is the cached value unless that is the sentinel, and it is never the sentinel. |
| NameCache.ResolveOnMiss | distil/rt_ticket.py:189-207 | On a miss the fetched name is cached for one week and used, unless the API refused or had no name. |
| NameCache.ResolveTwice | distil/rt_ticket.py:188-207 | A second lookup at the same instant hits the cache, fetches nothing and settles on the same name. |
| NameCache.ResolveAgainLater | distil/rt_ticket.py:188-207 | A name fetched now is served from the cache for the one-week time to live, and the first lookup at or after its end asks the customer API again. |
| NameCache.ResolveCustomerName | distil/rt_ticket.py:188-207 | The cache operations on the cache object give the name, the new entries and the fetch decision that `Resolve` specifies. |
| RtMessages.CleanAll | distil/rt_ticket.py:225 | Each message is replaced by its cleaned form, in order. |
| RtMessages.SortedAfterFirst | distil/rt_ticket.py:232 | A message no later than `m` and than every message of a sorted list stays in order in front of any sorted rearrangement of that list with `m` added. |
| RtMessages.InsertById | distil/rt_ticket.py:232 | Inserting into a list sorted by `_id` keeps it sorted and adds exactly that message. |
| RtMessages.SortById | distil/rt_ticket.py:232 | `sort(key=itemgetter('_id'))`: the result is sorted by id and is a permutation of the input. |
| RtMessages.InsertByIdStable | distil/rt_ticket.py:232 | Inserting a message places it after every message with the same id. |
| RtMessages.SortByIdStable | distil/rt_ticket.py:232 | The sort is stable: the messages that share an id keep their original order, as `list.sort` guarantees. |
| RtMessages.FilterSortedById | distil/rt_ticket.py:232-234 | Removing messages from a sorted list keeps it sorted. |
| RtMessages.SelectMessages | distil/rt_ticket.py:225-234 | The selected messages are sorted by id; none is from `git@bitts`; each has a subject, a body or a sender. |
| RtMessages.SelectedMessages | distil/rt_ticket.py:225-234 | Each cleaned message is selected, as often as it occurs, exactly when it is not the robot's and is useful; no other message is. |
| RtMessages.FirstWithContent | distil/rt_ticket.py:240-245 | The position of the first message with a body, every earlier one empty; `None` exactly when every body is empty. |
| RtMessages.FindFirstPost | distil/rt_ticket.py:241-245 | The `for … break` loop finds that same position. |
| RtMessages.FirstWithContentAt | distil/rt_ticket.py:242-245 | A message with a body preceded only by empty ones is the first post. |
| RtMessages.FirstWithContentNone | distil/rt_ticket.py:241-245 | With no body anywhere there is no first post. |
| RtMessages.FirstLinesSplit | distil/rt_ticket.py:246 | The excerpt consists of exactly the first six lines of the body, or all of them when there are fewer. |
| RtMessages.FirstLinesShort | distil/rt_ticket.py:246 | A body of at most six lines is kept whole. |
| RtMessages.TruncateFirstPost | distil/rt_ticket.py:246 | Cutting `first_post` changes only that message of the list, and only its body, which becomes its first six lines. |
| RtMessages.AllLinesAppend | distil/rt_ticket.py:275 | The lines of two message lists together are the lines of each in turn. |
| RtMessages.TruncationReachesBlob | distil/rt_ticket.py:246-275 | The lines indexed in the blob hold only the excerpt's lines of the first post; every other message contributes all its lines, in order. |
| RtMessages.DistinctNonEmpty | distil/rt_ticket.py:278-279 | `list(set(...))` of the non-empty values: no repeats, and a value is present exactly when it is a non-empty input value. |
| RtMessages.LatestContact | distil/rt_ticket.py:261-325 | `last_contact` is absent exactly when every message is private. Otherwise it is the `created` of some public message, and no public message is later. |
| RtMessages.TicketBlobParts | distil/rt_ticket.py:281-287 | The blob is the number, the subject, the names, the emails and all the lines, separated by single spaces. |
| RtTicket.TicketLifecycle | distil/rt_ticket.py:134-182 | The ticket goes on to be indexed exactly when it was fetched without error, has no `code` and is not deleted; then it is the fetched record. At most two URLs are enqueued for deletion. |
| RtTicket.LifecycleDropsLocator | distil/rt_ticket.py:134-182 | The locator asked for is enqueued for deletion exactly when the API answered 404, or a good record shows a merge or is the deleted canonical ticket at that URL. |
| RtTicket.TicketNotFetched | distil/rt_ticket.py:134-141 | A 404 enqueues deletion of the locator and stops; any other HTTP failure stops silently. |
| RtTicket.TicketMerged | distil/rt_ticket.py:170-173 | A merge enqueues deletion of the original locator first. Unless the ticket is also deleted, processing continues with the resolved ticket. |
| RtTicket.TicketDeleted | distil/rt_ticket.py:176-182 | A deleted ticket stops with its canonical web URL enqueued last, after the original locator exactly when it was merged. |
| RtTicket.RtTicketDistiller.CheckTicket | distil/rt_ticket.py:133-182 | The distiller enqueues the lifecycle's deletions in order and returns the ticket exactly when the lifecycle proceeds. `resolved_ticket_id` becomes the fetched ticket's `_id` once the ticket is fetched without a `code`, and is otherwise unchanged; `url`, the supplied id and `ticket_url` are unchanged. |
| RtTicket.LastSegment | distil/rt_ticket.py:186 | `rpartition('/')[-1]` is a suffix without `/`, and is the whole string or follows a `/`. |
| RtTicket.LastSegmentUnique | distil/rt_ticket.py:186 | That suffix is the only one with those properties. |
| RtTicket.CustomerIdOf | distil/rt_ticket.py:184-186 | The customer id is absent exactly when the customer URL is not truthy; otherwise it is the URL's last segment. |
| RtTicket.CustomerDetails | distil/rt_ticket.py:337 | The details are the name and the id that are not `None`, space-separated, or empty when both are `None`. |
| RtTicket.TicketDocumentKeys | distil/rt_ticket.py:299-339 | The document has all thirteen fixed keys and no key outside the fixed and optional ones. |
| RtTicket.TicketDocumentUrl | distil/rt_ticket.py:300 | The document's `url` is the canonical ticket URL. |
| RtTicket.TicketDocumentBlob | distil/rt_ticket.py:301 | The document's `blob` is the ticket blob. |
| RtTicket.TicketDocumentExcerpt | distil/rt_ticket.py:304 | The document's `excerpt` is the excerpt. |
| RtTicket.TicketDocumentBase | distil/rt_ticket.py:299-313 | The optional insertions leave `url`, `blob` and `excerpt` as the literal sets them. |
| RtTicket.TicketDocumentOptional | distil/rt_ticket.py:315-325 | `category`, `public_blob` and `last_contact` are present exactly when their values are truthy or exist. |
| RtTicket.TicketDocumentCustomerName | distil/rt_ticket.py:331-332 | `customer_name` is present exactly when the name is truthy, and is that name. |
| RtTicket.TicketDocumentCustomerLinks | distil/rt_ticket.py:327-339 | `customer_id`, `customer_url` and `customer` are present exactly when their values are truthy. |
| RtTicket.AssembleDocument | distil/rt_ticket.py:299-339 | Building the dictionary key by key gives the specified document. |
| RtTicket.PublicBlobPresent | distil/rt_ticket.py:250-297 | `public_blob` exists exactly when the ticket is not private and some message is public. |
| RtTicket.MessagesOutcome | distil/rt_ticket.py:213-341 | Only `RuntimeError` or `KeyError` escapes once the ticket is known, and a ticket yields at most one document. |
| RtTicket.MessagesOutcomeCases | distil/rt_ticket.py:213-247 | A failed message fetch yields nothing. Otherwise there are three cases. No message left raises `RuntimeError`. Messages that all have an empty body raise `KeyError`. Otherwise exactly one document is yielded; its excerpt is the first six lines of the first post, its URL is canonical and its customer name is the one looked up. |
| RtTicket.BuildDocument | distil/rt_ticket.py:213-341 | The imperative steps (fetch check, selection, first-post loop, in-place cut, key-by-key document) give the specified outcome. |
| RtTicket.Distil | distil/rt_ticket.py:98-102 | After a run, `self.url` is the rewritten locator. |
| RtTicket.DistilRejects | distil/rt_ticket.py:98-106 | A locator that is not an RT ticket's raises `ValueError` before anything is fetched, enqueued or cached. |
| RtTicket.DistilIndexes | distil/rt_ticket.py:113-341 | A ticket that proceeds enqueues only a merge deletion, updates the cache as the lookup specifies, and yields the messages' outcome. The customer name in its document is never the sentinel. |
| RtTicket.RtTicketDistiller.EnqueueDeletion | distil/rt_ticket.py:140 | Appends exactly the given URL to the deletions and changes nothing else. |
| RtTicket.RtTicketDistiller.Blobify | distil/rt_ticket.py:113-341 | The object-level run has the specified outcome, enqueued deletions, cache contents and rewritten URL. When the locator is accepted, the supplied id and `ticket_url` are the ones `tidy_url` sets and the resolved id is the fetched ticket's; when it is refused, those three fields are unchanged. |
| Customer.RemoveSpaces | distil/customer.py:53 | `replace(' ', '')` leaves no space. |
| Customer.RemoveSpacesKeeps | distil/customer.py:53 | Every other character is kept, as often as it occurs. |
| Customer.CleanPhones | distil/customer.py:53 | No kept phone value contains a space, and no entry is added. |
| Customer.CleanPhonesMembership | distil/customer.py:53 | An item is kept exactly when the record has that key with a number (not a dictionary), and its kept value is that number without spaces. |
| Customer.CleanContact | distil/customer.py:46-60 | The id and email are copied, the name is first name, space, last name, and the phone items are the record's items with a number as value, spaces removed (so `CleanPhonesMembership` describes them); no phone value has a space. |
| Customer.PhoneValues | distil/customer.py:18 | The phone dictionary's values, in item order. |
| Customer.ContactDetails | distil/customer.py:15-18 | The details are the email when it is not empty, followed by every phone value in order. |
| Customer.BlobifyContact | distil/customer.py:8-23 | The blob starts with the contact's name; it is the bare name exactly when there are no details, and otherwise continues with ` (` and ends with `)`. |
| Customer.BlobifyContactShape | distil/customer.py:15-23 | The contact's blob is the bare name exactly when there is neither email nor phone. Otherwise it is the name, ` (`, the details joined by `, ` and `)`; the first detail is the email when non-empty, else the first phone value. |
| Customer.ContactsOf | distil/customer.py:72-84 | The contacts are produced exactly when every contact GET succeeds, one cleaned contact per URL, in order. |
| Customer.GetContacts | distil/customer.py:77-84 | The loop over the URLs stops at the first failed GET and otherwise collects those contacts. |
| Customer.ContactBlobs | distil/customer.py:144 | Each contact's blob, in order. |
| Customer.CustomerDocumentIdentity | distil/customer.py:109-141 | `url` is `_url`; `local_id` and `customer_id` are `_id`; `title` and `customer_name` are `description`; `functional_url` is the NetSuite address of `_id`. |
| Customer.FunctionalUrlTagged | distil/customer.py:112 | The functional URL is the NetSuite keyword search, ending in `cust:<_id>`. |
| Customer.CustomerDocumentKeys | distil/customer.py:132-154 | The document has the seven fixed keys and all three contact sections, even for empty contact lists. |
| Customer.ContactSectionHeading | distil/customer.py:143-154 | Every section starts with its role and `contacts: `. |
| Customer.EmptyContactSection | distil/customer.py:143-154 | A section for no contacts is its bare heading. |
| Customer.CustomerBlobLayout | distil/customer.py:125-154 | The blob starts with `"<_id> <description>"`, then the Primary, Billing and Technical sections in that order, each after a newline. |
| Customer.NoContactsBlob | distil/customer.py:143-154 | A customer without contacts still gets all three headings. |
| Customer.CustomerOutcome | distil/customer.py:87-156 | The only exception `blobify` raises is `RuntimeError`, and a successful run yields exactly one document. |
| Customer.CustomerOutcomeCases | distil/customer.py:87-156 | A failed customer GET raises, and otherwise the run raises exactly when the GET of some contact of the three lists fails. |
| Customer.Blobify | distil/customer.py:87-156 | Building the document step by step, with `blob +=` for each section, gives the specified outcome. |
| Dispatch.HandlersDisjoint | distil/customer.py:68-69 | No URL is claimed both by the customer distiller and by the RT ticket distiller (`rt://` or the RT web host). |
| Dispatch.TicketDocumentsReadable | distil/rt_ticket.py:299-313 | Every document the RT ticket distiller yields has a `url` and a string `blob`, so `index` reads it without raising. |
| Dispatch.CustomerDocumentsReadable | distil/customer.py:132-141 | Every document the customer distiller yields has a `url` and a string `blob`, so `index` reads it without raising. |
| IndexingWorker.PopHead | indexing_worker/indexing_worker.py:86-92 | A dequeue returns nothing exactly when the queue is empty. Otherwise it returns the head, and the head followed by the new queue is the old queue. |
| IndexingWorker.PopHeadOfSuffix | indexing_worker/indexing_worker.py:86-92 | The dequeue after `done` steps returns the `done`-th URL. |
| IndexingWorker.DeletionEvents | indexing_worker/indexing_worker.py:85-96 | One deletion event per URL, in queue order: a success exactly when the backend deletes it, otherwise a reported failure, never an addition. |
| IndexingWorker.IndexedDocs | indexing_worker/indexing_worker.py:34-55 | The added documents are a prefix of the stream's documents, in order, each readable and not refused by the backend. They stop right before the first `None`, exception, document without `url` or without a string or list `blob`, or document the backend refuses. |
| IndexingWorker.IndexedDocsAt | indexing_worker/indexing_worker.py:34-55 | Each stream position before the stop holds the document added there; the stop is at the first other position. |
| IndexingWorker.AddEventsSnoc | indexing_worker/indexing_worker.py:55 | Adding one more document extends the trace by that addition. |
| IndexingWorker.AddEventsAreAdds | indexing_worker/indexing_worker.py:55 | The trace of `index` is one addition per added document, in order. |
| IndexingWorker.IndexedDocsStopAtNone | indexing_worker/indexing_worker.py:34-37 | Documents after the first `None` are never added, whatever they are, and the run does not raise. |
| IndexingWorker.IndexingEventsAreAdds | indexing_worker/indexing_worker.py:99-110 | Draining the indexing queue only ever adds documents. |
| IndexingWorker.IndexingEventsSnoc | indexing_worker/indexing_worker.py:99-110 | Indexing one more URL extends the trace by that URL's events alone. |
| IndexingWorker.IndexingStep | indexing_worker/indexing_worker.py:99-110 | The events of a queue's first `done + 1` URLs are those of its first `done`, then the next URL's. |
| IndexingWorker.IterationOrder | indexing_worker/indexing_worker.py:85-110 | In one outer iteration every deletion event precedes every addition. |
| IndexingWorker.Worker.PopDeletion | indexing_worker/indexing_worker.py:86-92 | Pops the head of the deletion queue and leaves the indexing queue and the trace alone. |
| IndexingWorker.Worker.PopIndexing | indexing_worker/indexing_worker.py:100-106 | Pops the head of the indexing queue and leaves the deletion queue and the trace alone. |
| IndexingWorker.Worker.Delete | indexing_worker/indexing_worker.py:60-67 | `delete` records a deletion, or reports a failed one, and never raises. |
| IndexingWorker.Worker.Index | indexing_worker/indexing_worker.py:26-57 | `index` adds the stream's documents in order up to the stop. It raises exactly when no distiller accepts the URL, or the stream stops at an exception, at a document whose `url` or `blob` cannot be read (`KeyError`, `TypeError`), or at a document the backend refuses. |
| IndexingWorker.Worker.IndexNext | indexing_worker/indexing_worker.py:100-110 | One round pops the next URL and indexes it, with any exception contained. |
| IndexingWorker.Worker.DrainDeletions | indexing_worker/indexing_worker.py:85-96 | The deletion queue is emptied, with one deletion event per URL in order; per-item failures do not stop the loop. The indexing queue is untouched. |
| IndexingWorker.Worker.DrainIndexing | indexing_worker/indexing_worker.py:99-110 | The indexing queue is emptied, with each URL's events in order; per-item exceptions do not stop the loop. The deletion queue is never looked at. |
| IndexingWorker.Worker.RunOnce | indexing_worker/indexing_worker.py:84-113 | One outer iteration empties both queues, every deletion's events before every indexing request's. |

## Left out

- HTTP requests, Redis connections and pipelines. Every response is a parameter, and so is `now` for the cache. The Redis sorted sets are sequences in score order, and one pipelined `zrange`/`zremrangebyrank` is one atomic step.
- The connection error of `redis.StrictRedis` (`distil/rt_ticket.py:115-120`) and the missing-credential `RuntimeError`s (`distil/rt_ticket.py:124-127`, `distil/customer.py:74-75`, `distil/customer.py:91-92`): credentials and a cache are assumed present.
- `dateutil` parsing and time-zone conversion (`distil/rt_ticket.py:210-211`, `261`, `325`): timestamps are opaque ordered integers.
- The regular-expression engine: both patterns are written as hand matchers. `TICKET_UNSTALL_RE` uses ASCII case folding, `\d` as `0-9`, `.` not matching a newline, and a search from any position.
- UTF-8 `encode` and the `str`/`unicode` split: all text is `string`.
- The error messages carried by exceptions: only the exception type is modelled.
- The `KeyError`s a record missing a field would raise: records are datatypes with every field present. The `KeyError`s modelled are `first_post['content']` on the empty `first_post` (`distil/rt_ticket.py:241-246`) and, in the worker, a document without `url` or `blob` (`indexing_worker/indexing_worker.py:38`, `50`).
- The messages response of `blobify` stands for the messages of the ticket number the locator supplied: `self.ticket_url` is set by `tidy_url` and is not updated after a merge (`distil/rt_ticket.py:214`). The model takes that response as given and does not relate it to the resolved ticket.
- `public_ticket_excerpt` (`distil/rt_ticket.py:250-258`): it is computed but never put in the document, so it does not affect anything the model observes.
- The debug and `mention` logging, the `DEBUG` flag, `PID_PREFIX`, and the console messages of `blobify`.
- The `Distiller` base class and `elasticsearch_backend` are not part of this model:
  - `enqueue_deletion` is recorded as a list of URLs;
  - `get_distiller(url).docs` is a map from URL to document stream;
  - `add_to_index` failures are a set of refused documents;
  - `delete_from_index` failures are a set of URLs.

  Consequently, deletions a distiller enqueues while the worker is indexing are not fed back into the worker's deletion queue.
- The outer `while True`, the blocking `brpop('barber')` and the outermost `try/except` of `main`: `RunOnce` is one pass up to the wait.
- Concurrent producers adding to the queues while they are drained.
- The top-level `indexing_worker.py` is not part of this model. It is an older single-queue worker.
- RtMessages.DistinctNonEmpty: the order of `list(set(...))` is arbitrary in Python; the model fixes first-appearance order, so only membership and the absence of repeats are claims about the source.
- Customer.PhoneValues: the order of a Python 2 dictionary's values is arbitrary; the model uses the order of the record's items.
- Customer.CustomerOutcomeCases: a failure is a status from 400 to 599, as `raise_for_status` defines it; other non-2xx statuses (such as 3xx) do not raise.
- RtTicket.TicketLifecycle: follows the code, where a merge does not end processing. The original locator is enqueued for deletion, then a deleted status still adds the canonical URL, and otherwise the resolved ticket is indexed. A design where a merge is a final outcome, with the original locator as its only deletion, is not what the code does and is not modelled.
- RtTicket.TicketLifecycle: the supplied and resolved ids are compared as strings, as the code does. A locator with leading zeros, such as `rt://0152`, therefore counts as merged into ticket 152.
- Ticket ids, priorities and customer ids are unbounded integers; the source has no fixed-width arithmetic on them.
