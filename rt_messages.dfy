/** What `RtTicketDistiller.blobify` (distil/rt_ticket.py) does with the
    messages of a ticket once they are fetched: which messages it keeps and
    in what order, which one gives the excerpt, and the text it indexes. */
module RtMessages {
  import opened Common
  import opened Sequences
  import opened Text
  import opened MessageCleaner

  // ----- Selection (lines 225-234) -----

  /** `[clean_message(x) for x in messages]`. */
  function CleanAll(raw: seq<Message>): (r: seq<Message>)
    ensures |r| == |raw|
    ensures forall i :: 0 <= i < |r| ==> r[i] == CleanMessage(raw[i])
  {
    seq(|raw|, i requires 0 <= i < |raw| => CleanMessage(raw[i]))
  }

  /** A message sent by the `git@bitts` robot. */
  predicate FromBitts(m: Message) {
    StartsWith(m.fromEmail.GetOr(""), "git@bitts")
  }

  predicate NotFromBitts(m: Message) { !FromBitts(m) }

  /** A message with a subject, a body or a sender. */
  predicate IsUseful(m: Message) {
    m.subject != "" || m.content != "" || m.fromEmail.GetOr("") != ""
  }

  predicate SortedById(ms: seq<Message>) {
    forall i, j :: 0 <= i < j < |ms| ==> ms[i].id <= ms[j].id
  }

  /** A message whose id is below `m`'s and below every id of a sorted list
      stays sorted in front of any rearrangement of that list with `m`
      added, once that rearrangement is sorted. */
  lemma SortedAfterFirst(first: Message, m: Message, tail: seq<Message>, rest: seq<Message>)
    requires first.id <= m.id && SortedById([first] + tail)
    requires SortedById(rest) && multiset(rest) == multiset(tail) + multiset{m}
    ensures SortedById([first] + rest)
  {
    forall k | 0 <= k < |rest|
      ensures first.id <= rest[k].id
    {
      assert rest[k] in multiset(rest);
      if rest[k] != m {
        assert rest[k] in multiset(tail);
        var j :| 0 <= j < |tail| && tail[j] == rest[k];
        assert ([first] + tail)[0] == first && ([first] + tail)[j + 1] == tail[j];
      }
    }
    var r := [first] + rest;
    forall i, j | 0 <= i < j < |r|
      ensures r[i].id <= r[j].id
    {
      if i > 0 {
        assert r[i] == rest[i - 1] && r[j] == rest[j - 1];
      } else {
        assert r[j] == rest[j - 1];
      }
    }
  }

  /** Inserts `m` after every message whose id is not greater. */
  function InsertById(m: Message, sorted: seq<Message>): (r: seq<Message>)
    requires SortedById(sorted)
    ensures SortedById(r)
    ensures multiset(r) == multiset(sorted) + multiset{m}
  {
    if sorted == [] then [m]
    else if m.id < sorted[0].id then [m] + sorted
    else
      var tail := sorted[1..];
      var rest := InsertById(m, tail);
      assert sorted == [sorted[0]] + tail;
      SortedAfterFirst(sorted[0], m, tail, rest);
      [sorted[0]] + rest
  }

  /** `messages.sort(key=itemgetter('_id'))`, as an insertion sort that
      takes the messages in their original order. */
  function SortById(ms: seq<Message>): (r: seq<Message>)
    ensures SortedById(r)
    ensures multiset(r) == multiset(ms)
  {
    if ms == [] then []
    else
      assert ms == ms[..|ms| - 1] + [ms[|ms| - 1]];
      InsertById(ms[|ms| - 1], SortById(ms[..|ms| - 1]))
  }

  /** The test for messages with id `k`. */
  function HasId(k: int): Message -> bool {
    (m: Message) => m.id == k
  }

  /** Inserting `m` puts it after every message that has its id. */
  lemma {:induction false} InsertByIdStable(m: Message, sorted: seq<Message>, k: int)
    requires SortedById(sorted)
    ensures Filter(InsertById(m, sorted), HasId(k))
         == Filter(sorted, HasId(k)) + (if m.id == k then [m] else [])
  {
    if sorted == [] {
    } else if m.id < sorted[0].id {
      if m.id == k {
        FilterKeepsNone(sorted, HasId(k));
      }
    } else {
      var tail := sorted[1..];
      InsertByIdStable(m, tail, k);
      assert InsertById(m, sorted) == [sorted[0]] + InsertById(m, tail);
    }
  }

  /** The sort is stable: the messages sharing an id keep the order they
      had, as Python's `list.sort` promises. */
  lemma {:induction false} SortByIdStable(ms: seq<Message>, k: int)
    ensures Filter(SortById(ms), HasId(k)) == Filter(ms, HasId(k))
  {
    if ms != [] {
      var init := ms[..|ms| - 1];
      SortByIdStable(init, k);
      StableStep(init, ms[|ms| - 1], k);
      assert ms == init + [ms[|ms| - 1]];
    }
  }

  /** Sorting one more message keeps the order among the messages with id
      `k`, when sorting the others did. */
  lemma StableStep(init: seq<Message>, last: Message, k: int)
    requires Filter(SortById(init), HasId(k)) == Filter(init, HasId(k))
    ensures Filter(SortById(init + [last]), HasId(k)) == Filter(init + [last], HasId(k))
  {
    var ms := init + [last];
    assert ms[..|ms| - 1] == init && ms[|ms| - 1] == last;
    assert SortById(ms) == InsertById(last, SortById(init));
    InsertByIdStable(last, SortById(init), k);
    FilterSnoc(init, last, HasId(k));
  }

  /** Dropping messages from a sorted list leaves it sorted. */
  lemma {:induction false} FilterSortedById(ms: seq<Message>, keep: Message -> bool)
    requires SortedById(ms)
    ensures SortedById(Filter(ms, keep))
  {
    if ms != [] {
      FilterSortedById(ms[1..], keep);
      var first := ms[0];
      FilterPreserves(ms[1..], keep, (m: Message) => first.id <= m.id);
    }
  }

  /** Lines 225-234: clean every message, drop the robot's, sort by id and
      drop the messages with nothing in them. */
  function SelectMessages(raw: seq<Message>): (r: seq<Message>)
    ensures SortedById(r)
    ensures forall i :: 0 <= i < |r| ==> NotFromBitts(r[i]) && IsUseful(r[i])
  {
    var sorted := SortById(Filter(CleanAll(raw), NotFromBitts));
    FilterSortedById(sorted, IsUseful);
    assert forall i :: 0 <= i < |sorted| ==> NotFromBitts(sorted[i]) by {
      forall i | 0 <= i < |sorted|
        ensures NotFromBitts(sorted[i])
      {
        assert sorted[i] in multiset(sorted);
        FilterMembership(CleanAll(raw), NotFromBitts, sorted[i]);
      }
    }
    FilterPreserves(sorted, IsUseful, NotFromBitts);
    Filter(sorted, IsUseful)
  }

  /** The selected messages are exactly the cleaned messages that are not
      the robot's and have something in them, each as often as it occurs. */
  lemma SelectedMessages(raw: seq<Message>, m: Message)
    ensures multiset(SelectMessages(raw))[m]
         == if NotFromBitts(m) && IsUseful(m) then multiset(CleanAll(raw))[m] else 0
  {
    var kept := Filter(CleanAll(raw), NotFromBitts);
    FilterMultiset(CleanAll(raw), NotFromBitts, m);
    FilterMultiset(SortById(kept), IsUseful, m);
  }

  // ----- The first post and the excerpt (lines 240-247) -----

  /** The position of the first message with a body. */
  function FirstWithContent(ms: seq<Message>): (r: Option<nat>)
    ensures r.Some? ==> r.value < |ms| && ms[r.value].content != ""
    ensures r.Some? ==> forall j :: 0 <= j < r.value ==> ms[j].content == ""
    ensures r.None? ==> forall j :: 0 <= j < |ms| ==> ms[j].content == ""
  {
    if ms == [] then None
    else if ms[0].content != "" then Some(0)
    else
      match FirstWithContent(ms[1..])
      case None => None
      case Some(k) => Some(k + 1)
  }

  /** The `for ... break` search for `first_post`. */
  method FindFirstPost(ms: seq<Message>) returns (k: Option<nat>)
    ensures k == FirstWithContent(ms)
  {
    k := None;
    var i := 0;
    while i < |ms|
      invariant 0 <= i <= |ms|
      invariant forall j :: 0 <= j < i ==> ms[j].content == ""
      decreases |ms| - i
    {
      if ms[i].content != "" {
        k := Some(i);
        FirstWithContentAt(ms, i);
        return;
      }
      i := i + 1;
    }
    FirstWithContentNone(ms);
  }

  lemma {:induction false} FirstWithContentAt(ms: seq<Message>, i: nat)
    requires i < |ms| && ms[i].content != ""
    requires forall j :: 0 <= j < i ==> ms[j].content == ""
    ensures FirstWithContent(ms) == Some(i)
  {
    if i > 0 {
      FirstWithContentAt(ms[1..], i - 1);
    }
  }

  lemma {:induction false} FirstWithContentNone(ms: seq<Message>)
    requires forall j :: 0 <= j < |ms| ==> ms[j].content == ""
    ensures FirstWithContent(ms) == None
  {
    if ms != [] {
      FirstWithContentNone(ms[1..]);
    }
  }

  /** How many lines the excerpt keeps. */
  const ExcerptLines: nat := 6

  /** `'\n'.join(content.split('\n')[:n])`. */
  function FirstLines(content: string, n: nat): string {
    var lines := Split(content, '\n');
    Join(lines[..if n < |lines| then n else |lines|], "\n")
  }

  /** The kept text has exactly the first `n` lines of the body (all of
      them when there are fewer). */
  lemma FirstLinesSplit(content: string, n: nat)
    requires n > 0
    ensures var lines := Split(content, '\n');
      Split(FirstLines(content, n), '\n') == lines[..if n < |lines| then n else |lines|]
  {
    var lines := Split(content, '\n');
    SplitJoin(lines[..if n < |lines| then n else |lines|], '\n');
  }

  /** A body of at most `n` lines is kept whole. */
  lemma FirstLinesShort(content: string, n: nat)
    requires |Split(content, '\n')| <= n
    ensures FirstLines(content, n) == content
  {
    var lines := Split(content, '\n');
    assert lines[..|lines|] == lines;
    JoinSplit(content, '\n');
  }

  /** Line 246: `first_post` is the message itself, not a copy, so cutting
      its body cuts it in the message list too. */
  function TruncateFirstPost(ms: seq<Message>, k: nat): (r: seq<Message>)
    requires k < |ms|
    ensures |r| == |ms| && r[k].content == FirstLines(ms[k].content, ExcerptLines)
    ensures forall j :: 0 <= j < |ms| && j != k ==> r[j] == ms[j]
    ensures r[k] == ms[k].(content := r[k].content)
  {
    ms[k := ms[k].(content := FirstLines(ms[k].content, ExcerptLines))]
  }

  // ----- Indexed text (lines 275-297) -----

  /** `chain(*[m['content'].split('\n') for m in ms])`. */
  function AllLines(ms: seq<Message>): (r: seq<string>)
    ensures |r| >= |ms|
  {
    if ms == [] then [] else Split(ms[0].content, '\n') + AllLines(ms[1..])
  }

  lemma {:induction false} AllLinesAppend(a: seq<Message>, b: seq<Message>)
    ensures AllLines(a + b) == AllLines(a) + AllLines(b)
  {
    if a == [] {
      assert a + b == b;
    } else {
      assert (a + b)[1..] == a[1..] + b;
      AllLinesAppend(a[1..], b);
    }
  }

  /** The text of the ticket carries only the excerpt's lines of the first
      post: the other messages contribute all their lines. */
  lemma TruncationReachesBlob(ms: seq<Message>, k: nat)
    requires k < |ms|
    ensures var lines := Split(ms[k].content, '\n');
      AllLines(TruncateFirstPost(ms, k))
        == AllLines(ms[..k])
         + lines[..if ExcerptLines < |lines| then ExcerptLines else |lines|]
         + AllLines(ms[k + 1..])
  {
    var t := TruncateFirstPost(ms, k);
    assert t == ms[..k] + [t[k]] + ms[k + 1..];
    AllLinesAppend(ms[..k] + [t[k]], ms[k + 1..]);
    AllLinesAppend(ms[..k], [t[k]]);
    assert AllLines([t[k]]) == Split(t[k].content, '\n') by {
      assert [t[k]][1..] == [];
    }
    FirstLinesSplit(ms[k].content, ExcerptLines);
  }

  predicate IsPublic(m: Message) { !m.private }

  /** `x for x in xs if x != ''`, without repeats, in order of first
      appearance. */
  function DistinctNonEmpty(xs: seq<string>): (r: seq<string>)
    ensures NoDuplicates(r)
    ensures forall x :: x in r <==> x in xs && x != ""
  {
    if xs == [] then []
    else
      var init := xs[..|xs| - 1];
      var last := xs[|xs| - 1];
      assert xs == init + [last];
      var rest := DistinctNonEmpty(init);
      if last == "" || last in rest then rest else rest + [last]
  }

  function RealNames(ms: seq<Message>): seq<string> {
    seq(|ms|, i requires 0 <= i < |ms| => ms[i].fromRealname.GetOr(""))
  }

  function Emails(ms: seq<Message>): seq<string> {
    seq(|ms|, i requires 0 <= i < |ms| => ms[i].fromEmail.GetOr(""))
  }

  /** `max(created of the non-private messages)`, or `None` when every
      message is private. */
  function LatestContact(ms: seq<Message>): (r: Option<int>)
    ensures r.None? <==> forall i :: 0 <= i < |ms| ==> ms[i].private
    ensures r.Some? ==> exists i :: 0 <= i < |ms| && !ms[i].private && ms[i].created == r.value
    ensures r.Some? ==> forall i :: 0 <= i < |ms| && !ms[i].private ==> ms[i].created <= r.value
  {
    if ms == [] then None
    else
      var rest := LatestContact(ms[1..]);
      assert forall i :: 1 <= i < |ms| ==> ms[i] == ms[1..][i - 1];
      if ms[0].private then
        rest
      else
        match rest
        case None => Some(ms[0].created)
        case Some(c) =>
          if ms[0].created < c then
            var j :| 0 <= j < |ms[1..]| && !ms[1..][j].private && ms[1..][j].created == c;
            assert ms[j + 1] == ms[1..][j];
            rest
          else Some(ms[0].created)
  }

  /** `" ".join([number, subject, ' '.join(realnames), ' '.join(emails),
      ' '.join(lines)])`. */
  function TicketBlob(number: string, subject: string, realnames: seq<string>,
                      emails: seq<string>, lines: seq<string>): string {
    Join([number, subject, Join(realnames, " "), Join(emails, " "), Join(lines, " ")], " ")
  }

  /** The blob is the five parts with a space between each. */
  lemma TicketBlobParts(number: string, subject: string, realnames: seq<string>,
                        emails: seq<string>, lines: seq<string>)
    ensures var r := Join(realnames, " ");
      var e := Join(emails, " ");
      var l := Join(lines, " ");
      TicketBlob(number, subject, realnames, emails, lines)
        == number + " " + (subject + " " + (r + " " + (e + " " + l)))
  {
    var r := Join(realnames, " ");
    var e := Join(emails, " ");
    var l := Join(lines, " ");
    var parts := [number, subject, r, e, l];
    assert parts[1..] == [subject, r, e, l];
    assert parts[1..][1..] == [r, e, l];
    assert parts[1..][1..][1..] == [e, l];
    assert parts[1..][1..][1..][1..] == [l];
    assert Join([l], " ") == l;
    assert Join([e, l], " ") == e + " " + l;
    assert Join([r, e, l], " ") == r + " " + (e + " " + l);
    assert Join([subject, r, e, l], " ") == subject + " " + (r + " " + (e + " " + l));
  }
}
