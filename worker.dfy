/** The indexing worker (indexing_worker/indexing_worker.py): two Redis
    sorted sets of URLs, modelled as sequences in score order, drained one
    head at a time — first every deletion, then every indexing request.
    The search backend is external and enters as parameters: `undeletable`,
    the URLs `delete_from_index` fails for; `distillers`, the document stream
    `get_distiller(url).docs` produces for each URL some distiller accepts;
    and `rejected`, the documents `add_to_index` fails for. The worker's
    visible effect is its trace of backend calls that succeeded or were
    reported. */
module IndexingWorker {
  import opened Common

  /** One step of a distiller's document stream: a document, a `None`
      document, or an exception raised while producing the next one. */
  datatype Produced = Doc(doc: Document) | NoDoc | Boom

  /** What the backend sees: a URL deleted from the index, a URL whose
      deletion failed and was reported, a document added to the index. */
  datatype Event = Deleted(url: string) | DeleteFailed(url: string) | Added(doc: Document)

  /** A pipelined `zrange(q, 0, 0)` and `zremrangebyrank(q, 0, 0)`: the
      lowest-ranked URL, if any, and the queue without it. */
  function PopHead(queue: seq<string>): (r: (Option<string>, seq<string>))
    ensures r.0.None? <==> queue == []
    ensures r.0.None? ==> r.1 == queue
    ensures r.0.Some? ==> [r.0.value] + r.1 == queue
  {
    if queue == [] then (None, queue) else (Some(queue[0]), queue[1..])
  }

  /** Popping what is left of a queue after its first `done` URLs. */
  lemma PopHeadOfSuffix(queue: seq<string>, done: nat)
    requires done <= |queue|
    ensures PopHead(queue[done..]) ==
      if done == |queue| then (None, []) else (Some(queue[done]), queue[done + 1..])
  {
  }

  /** What `delete(url)` leaves in the trace. */
  function DeletionEvent(url: string, undeletable: set<string>): Event {
    if url in undeletable then DeleteFailed(url) else Deleted(url)
  }

  /** The trace of deleting the given URLs, in order. */
  function DeletionEvents(urls: seq<string>, undeletable: set<string>): (r: seq<Event>)
    ensures |r| == |urls|
    ensures forall i :: 0 <= i < |r| ==> !r[i].Added? && r[i].url == urls[i]
    ensures forall i :: 0 <= i < |r| ==> (r[i].Deleted? <==> urls[i] !in undeletable)
  {
    seq(|urls|, i requires 0 <= i < |urls| => DeletionEvent(urls[i], undeletable))
  }

  /** What `index` reads of a document before adding it: `doc['url']` and
      `type(doc['blob'])` for the debug line, then `doc['blob'][:400]`. A
      missing key raises `KeyError`; a blob that is neither a string nor a
      list cannot be sliced and raises `TypeError`. */
  predicate Readable(d: Document) {
    Url in d && Blob in d && (d[Blob].Str? || d[Blob].Strs?)
  }

  /** A document `index` raises on: one it cannot read, or one the backend
      fails to add. */
  predicate Refused(d: Document, rejected: set<Document>) {
    !Readable(d) || d in rejected
  }

  /** The documents `index` adds from a stream: the documents in order, up
      to the first `None` document, the first exception or the first
      document it cannot read or the backend fails to add. */
  function IndexedDocs(stream: seq<Produced>, rejected: set<Document>): (r: seq<Document>)
    ensures |r| <= |stream|
    ensures forall i :: 0 <= i < |r| ==> stream[i] == Doc(r[i]) && !Refused(r[i], rejected)
    ensures |r| < |stream| ==> !(stream[|r|].Doc? && !Refused(stream[|r|].doc, rejected))
  {
    if stream == [] then []
    else match stream[0]
      case Doc(d) => if Refused(d, rejected) then [] else [d] + IndexedDocs(stream[1..], rejected)
      case _ => []
  }

  /** `index` raises when it stops on an exception rather than on a `None`
      document or the end of the stream. */
  predicate IndexRaises(stream: seq<Produced>, rejected: set<Document>) {
    stream != [] &&
    match stream[0]
    case NoDoc => false
    case Boom => true
    case Doc(d) => Refused(d, rejected) || IndexRaises(stream[1..], rejected)
  }

  /** The trace of adding the given documents, in order. */
  function AddEvents(docs: seq<Document>): seq<Event> {
    if docs == [] then [] else [Added(docs[0])] + AddEvents(docs[1..])
  }

  /** Where the documents added from a stream end. */
  lemma IndexedDocsAt(stream: seq<Produced>, rejected: set<Document>, i: nat)
    requires i <= |IndexedDocs(stream, rejected)| && i < |stream|
    ensures stream[i].Doc? && !Refused(stream[i].doc, rejected) ==>
      i < |IndexedDocs(stream, rejected)| && IndexedDocs(stream, rejected)[i] == stream[i].doc
    ensures !(stream[i].Doc? && !Refused(stream[i].doc, rejected)) ==> i == |IndexedDocs(stream, rejected)|
  {
  }

  lemma {:induction false} AddEventsSnoc(docs: seq<Document>, d: Document)
    ensures AddEvents(docs + [d]) == AddEvents(docs) + [Added(d)]
  {
    if docs != [] {
      assert (docs + [d])[1..] == docs[1..] + [d];
      AddEventsSnoc(docs[1..], d);
    }
  }

  lemma {:induction false} AddEventsAreAdds(docs: seq<Document>)
    ensures |AddEvents(docs)| == |docs|
    ensures forall i :: 0 <= i < |docs| ==> AddEvents(docs)[i] == Added(docs[i])
  {
    if docs != [] {
      AddEventsAreAdds(docs[1..]);
    }
  }

  /** The trace of `index(url)`: nothing when no distiller accepts the URL. */
  function IndexEvents(url: string, distillers: map<string, seq<Produced>>,
                       rejected: set<Document>): seq<Event> {
    if url in distillers then AddEvents(IndexedDocs(distillers[url], rejected)) else []
  }

  /** The trace of indexing the given URLs in order; an exception while
      indexing one URL does not stop the others. */
  function IndexingEvents(urls: seq<string>, distillers: map<string, seq<Produced>>,
                          rejected: set<Document>): seq<Event>
  {
    if urls == [] then []
    else IndexingEvents(urls[..|urls| - 1], distillers, rejected) + IndexEvents(urls[|urls| - 1], distillers, rejected)
  }

  /** Indexing only ever adds documents. */
  lemma {:induction false} IndexingEventsAreAdds(urls: seq<string>, distillers: map<string, seq<Produced>>,
                                                 rejected: set<Document>)
    ensures forall i :: 0 <= i < |IndexingEvents(urls, distillers, rejected)| ==>
      IndexingEvents(urls, distillers, rejected)[i].Added?
  {
    if urls != [] {
      IndexingEventsAreAdds(urls[..|urls| - 1], distillers, rejected);
      var last := urls[|urls| - 1];
      if last in distillers {
        AddEventsAreAdds(IndexedDocs(distillers[last], rejected));
      }
    }
  }

  /** Indexing one more URL extends the trace by that URL's events. */
  lemma IndexingEventsSnoc(urls: seq<string>, url: string, distillers: map<string, seq<Produced>>,
                           rejected: set<Document>)
    ensures IndexingEvents(urls + [url], distillers, rejected)
      == IndexingEvents(urls, distillers, rejected) + IndexEvents(url, distillers, rejected)
  {
    assert (urls + [url])[..|urls|] == urls;
  }

  /** The events of the first `done + 1` URLs of a queue. */
  lemma IndexingStep(queue: seq<string>, done: nat, distillers: map<string, seq<Produced>>,
                     rejected: set<Document>)
    requires done < |queue|
    ensures IndexingEvents(queue[..done + 1], distillers, rejected)
      == IndexingEvents(queue[..done], distillers, rejected) + IndexEvents(queue[done], distillers, rejected)
  {
    assert queue[..done + 1] == queue[..done] + [queue[done]];
    IndexingEventsSnoc(queue[..done], queue[done], distillers, rejected);
  }

  /** One element of the stream as `index` meets it: a document it adds
      extends the trace by one addition and leaves whether it raises to the
      rest of the stream; anything else ends the additions, raising unless
      it is a `None` document. */
  lemma IndexStreamStep(stream: seq<Produced>, rejected: set<Document>, i: nat)
    requires i <= |IndexedDocs(stream, rejected)| && i < |stream|
    ensures var docs := IndexedDocs(stream, rejected);
      if stream[i].Doc? && !Refused(stream[i].doc, rejected) then
        && i < |docs|
        && AddEvents(docs[..i + 1]) == AddEvents(docs[..i]) + [Added(stream[i].doc)]
        && IndexRaises(stream[i..], rejected) == IndexRaises(stream[i + 1..], rejected)
      else
        && docs[..i] == docs
        && (IndexRaises(stream[i..], rejected) <==> !stream[i].NoDoc?)
  {
    var docs := IndexedDocs(stream, rejected);
    IndexedDocsAt(stream, rejected, i);
    if stream[i].Doc? && !Refused(stream[i].doc, rejected) {
      AddEventsSnoc(docs[..i], stream[i].doc);
      assert docs[..i + 1] == docs[..i] + [stream[i].doc];
      assert stream[i..][1..] == stream[i + 1..];
    } else {
      assert docs[..i] == docs;
    }
  }

  /** Documents after the first `None` document are never added, whatever
      they are. */
  lemma {:induction false} IndexedDocsStopAtNone(docs: seq<Document>, rest: seq<Produced>, rejected: set<Document>)
    requires forall i :: 0 <= i < |docs| ==> !Refused(docs[i], rejected)
    ensures IndexedDocs(seq(|docs|, i requires 0 <= i < |docs| => Doc(docs[i])) + [NoDoc] + rest, rejected) == docs
    ensures !IndexRaises(seq(|docs|, i requires 0 <= i < |docs| => Doc(docs[i])) + [NoDoc] + rest, rejected)
  {
    var stream := seq(|docs|, i requires 0 <= i < |docs| => Doc(docs[i])) + [NoDoc] + rest;
    if docs == [] {
      assert stream[0] == NoDoc;
    } else {
      var tail := seq(|docs| - 1, i requires 0 <= i < |docs| - 1 => Doc(docs[1..][i]));
      assert stream[1..] == tail + [NoDoc] + rest;
      IndexedDocsStopAtNone(docs[1..], rest, rejected);
      assert stream[0] == Doc(docs[0]);
      assert [docs[0]] + docs[1..] == docs;
    }
  }

  /** One outer iteration puts every deletion before every addition: no
      event after an addition is a deletion. */
  lemma IterationOrder(deletions: seq<string>, indexing: seq<string>, undeletable: set<string>,
                       distillers: map<string, seq<Produced>>, rejected: set<Document>)
    ensures var t := DeletionEvents(deletions, undeletable) + IndexingEvents(indexing, distillers, rejected);
      forall i, j :: 0 <= i < j < |t| && t[i].Added? ==> t[j].Added?
  {
    var d := DeletionEvents(deletions, undeletable);
    var t := d + IndexingEvents(indexing, distillers, rejected);
    IndexingEventsAreAdds(indexing, distillers, rejected);
    forall i, j | 0 <= i < j < |t| && t[i].Added?
      ensures t[j].Added?
    {
      assert i >= |d|;
    }
  }

  class Worker {
    /** `umad_deletion_queue`, lowest score first. */
    var deletionQueue: seq<string>
    /** `umad_indexing_queue`, lowest score first. */
    var indexingQueue: seq<string>
    /** The backend calls made so far, oldest first. */
    var trace: seq<Event>

    constructor(deletions: seq<string>, indexing: seq<string>)
      ensures deletionQueue == deletions && indexingQueue == indexing && trace == []
    {
      deletionQueue := deletions;
      indexingQueue := indexing;
      trace := [];
    }

    /** Lines 86-93: take the head of the deletion queue. */
    method PopDeletion() returns (url: Option<string>)
      modifies this
      ensures (url, deletionQueue) == PopHead(old(deletionQueue))
      ensures indexingQueue == old(indexingQueue) && trace == old(trace)
    {
      var popped := PopHead(deletionQueue);
      url := popped.0;
      deletionQueue := popped.1;
    }

    /** Lines 100-107: take the head of the indexing queue. */
    method PopIndexing() returns (url: Option<string>)
      modifies this
      ensures (url, indexingQueue) == PopHead(old(indexingQueue))
      ensures deletionQueue == old(deletionQueue) && trace == old(trace)
    {
      var popped := PopHead(indexingQueue);
      url := popped.0;
      indexingQueue := popped.1;
    }

    /** `delete(url)`: a failure of the backend is reported, never raised. */
    method Delete(url: string, undeletable: set<string>)
      modifies this
      ensures trace == old(trace) + [DeletionEvent(url, undeletable)]
      ensures deletionQueue == old(deletionQueue) && indexingQueue == old(indexingQueue)
    {
      if url in undeletable {
        trace := trace + [DeleteFailed(url)];
      } else {
        trace := trace + [Deleted(url)];
      }
    }

    /** `index(url)`: `RuntimeError` when no distiller accepts the URL;
        otherwise every document of the stream is added in order until a
        `None` document ends the run or an exception escapes: from the
        stream, from reading a document, or from the backend. */
    method Index(url: string, distillers: map<string, seq<Produced>>, rejected: set<Document>)
      returns (raised: bool)
      modifies this
      ensures trace == old(trace) + IndexEvents(url, distillers, rejected)
      ensures raised <==> url !in distillers || IndexRaises(distillers[url], rejected)
      ensures deletionQueue == old(deletionQueue) && indexingQueue == old(indexingQueue)
    {
      if url !in distillers {
        return true;
      }
      var stream := distillers[url];
      ghost var docs := IndexedDocs(stream, rejected);
      var i := 0;
      while i < |stream|
        invariant 0 <= i <= |docs|
        invariant trace == old(trace) + AddEvents(docs[..i])
        invariant IndexRaises(stream, rejected) == IndexRaises(stream[i..], rejected)
        invariant deletionQueue == old(deletionQueue) && indexingQueue == old(indexingQueue)
      {
        IndexStreamStep(stream, rejected, i);
        match stream[i]
        case NoDoc =>
          return false;
        case Boom =>
          return true;
        case Doc(d) =>
          if !Readable(d) {
            return true;
          }
          if d in rejected {
            return true;
          }
          trace := trace + [Added(d)];
          i := i + 1;
      }
      assert docs[..i] == docs && stream[i..] == [];
      return false;
    }

    /** Lines 100-110, one round: take the head of the indexing queue and
        index it, with any exception caught and only logged. */
    method IndexNext(distillers: map<string, seq<Produced>>, rejected: set<Document>)
      returns (url: Option<string>)
      modifies this
      ensures (url, indexingQueue) == PopHead(old(indexingQueue))
      ensures trace == old(trace) + (if url.Some? then IndexEvents(url.value, distillers, rejected) else [])
      ensures deletionQueue == old(deletionQueue)
    {
      url := PopIndexing();
      if url.Some? {
        var _ := Index(url.value, distillers, rejected);
      }
    }

    /** Lines 85-96: pop and delete until the deletion queue is empty. */
    method DrainDeletions(undeletable: set<string>)
      modifies this
      ensures deletionQueue == []
      ensures trace == old(trace) + DeletionEvents(old(deletionQueue), undeletable)
      ensures indexingQueue == old(indexingQueue)
    {
      ghost var queue := deletionQueue;
      ghost var done := 0;
      while true
        invariant 0 <= done <= |queue|
        invariant deletionQueue == queue[done..]
        invariant trace == old(trace) + DeletionEvents(queue[..done], undeletable)
        invariant indexingQueue == old(indexingQueue)
        decreases |deletionQueue|
      {
        var url := PopDeletion();
        if url.None? {
          break;
        }
        Delete(url.value, undeletable);
        assert queue[..done + 1] == queue[..done] + [url.value];
        done := done + 1;
      }
      assert queue[..done] == queue;
    }

    /** Lines 99-110: pop and index until the indexing queue is empty; the
        deletion queue is not looked at again. */
    method DrainIndexing(distillers: map<string, seq<Produced>>, rejected: set<Document>)
      modifies this
      ensures indexingQueue == []
      ensures trace == old(trace) + IndexingEvents(old(indexingQueue), distillers, rejected)
      ensures deletionQueue == old(deletionQueue)
    {
      ghost var queue := indexingQueue;
      ghost var done := 0;
      while true
        invariant 0 <= done <= |queue|
        invariant indexingQueue == queue[done..]
        invariant trace == old(trace) + IndexingEvents(queue[..done], distillers, rejected)
        invariant deletionQueue == old(deletionQueue)
        decreases |indexingQueue|
      {
        PopHeadOfSuffix(queue, done);
        var url := IndexNext(distillers, rejected);
        if url.None? {
          break;
        }
        IndexingStep(queue, done, distillers, rejected);
        done := done + 1;
      }
      assert queue[..done] == queue;
    }

    /** Lines 84-113: one pass of the outer loop up to the wait on
        `barber`: both queues drained, deletions first. */
    method RunOnce(undeletable: set<string>, distillers: map<string, seq<Produced>>,
                   rejected: set<Document>)
      modifies this
      ensures deletionQueue == [] && indexingQueue == []
      ensures trace == old(trace) + DeletionEvents(old(deletionQueue), undeletable)
                                  + IndexingEvents(old(indexingQueue), distillers, rejected)
    {
      DrainDeletions(undeletable);
      DrainIndexing(distillers, rejected);
    }
  }
}
