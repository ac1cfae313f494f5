/** `RtTicketDistiller.clean_message` (distil/rt_ticket.py): the ordered
    clean-up of one ticket message, and the proof that running it twice
    changes nothing more than running it once. */
module MessageCleaner {
  import opened Common
  import opened Sequences
  import opened Text

  /** A ticket message as the ticket API returns it. `fromEmail` and
      `fromRealname` may be JSON null; `extra` holds every field other than
      the seven the distiller keeps. `created` is an opaque timestamp. */
  datatype Message = Message(
    id: int,
    fromEmail: Option<string>,
    fromRealname: Option<string>,
    content: string,
    subject: string,
    created: int,
    private: bool,
    extra: map<string, Value>)

  // ----- The auto-unstall notice (TICKET_UNSTALL_RE) -----

  /** Case folding of a pattern compiled with IGNORECASE but not UNICODE:
      only ASCII letters fold. */
  function LowerAscii(c: char): char {
    if 'A' <= c <= 'Z' then (c as int + 32) as char else c
  }

  predicate StartsWithIgnoringCase(s: string, literal: string) {
    |literal| <= |s| && forall i :: 0 <= i < |literal| ==> LowerAscii(s[i]) == LowerAscii(literal[i])
  }

  const UnstallOpening: string := "The ticket "
  const UnstallMiddle: string := " has not received a reply from the requestor for"
  const UnstallClosing: string := "Get on the phone with the client right now"

  /** `.*Get on the phone ...`: the closing words start somewhere on the
      current line (`.` does not match a newline). */
  predicate ClosingOnThisLine(s: string)
    decreases |s|
    ensures ClosingOnThisLine(s) ==> |s| >= |UnstallClosing|
  {
    StartsWithIgnoringCase(s, UnstallClosing)
    || (s != [] && s[0] != '\n' && ClosingOnThisLine(s[1..]))
  }

  /** The pattern matches at the very start of `s`. `\d+` must take the
      whole run of digits, since the next pattern character is a space. */
  predicate UnstallNoticeAt(s: string) {
    && StartsWithIgnoringCase(s, UnstallOpening)
    && var t := s[|UnstallOpening|..];
       var d := LeadingRun(t, IsDigit);
       && d > 0
       && StartsWithIgnoringCase(t[d..], UnstallMiddle)
       && ClosingOnThisLine(t[d + |UnstallMiddle|..])
  }

  /** `TICKET_UNSTALL_RE.search(s)`: the pattern matches at some position.
      A notice holds the three fixed phrases and at least one digit, so it
      is longer than the phrases put together. */
  predicate IsUnstallNotice(s: string)
    decreases |s|
    ensures IsUnstallNotice(s) ==> |s| > |UnstallOpening| + |UnstallMiddle| + |UnstallClosing|
  {
    UnstallNoticeAt(s) || (s != [] && IsUnstallNotice(s[1..]))
  }

  lemma EmptyIsNoUnstallNotice()
    ensures !IsUnstallNotice("")
  {
  }

  // ----- Line filters, in the order the distiller applies them -----

  /** Quoted lines. */
  predicate IsQuoted(line: string) {
    StartsWith(line, ">")
  }

  /** Empty lines, and lines holding a single dot. */
  predicate IsBlankOrDot(line: string) {
    line == "" || line == "."
  }

  /** Greeting-only lines (the length test of the source never fails for them). */
  predicate IsGreeting(line: string) {
    (line == "Hi," || line == "Hello,") && !(|line| > 20)
  }

  /** The auto-responder text customers quote back when they reply. */
  const Boilerplate: seq<string> := [
    "Hello and thanks for your email.",
    "This is an automated response from our email robots.",
    "If you\U{2019}d like to speak to someone about your issue immediately, please contact us via phone, being sure to keep the issue number handy so we can refer to it quickly:",
    "* Australia Local call 1300 883 979",
    "* US toll free (888) 250 8847",
    "If replying by email, please ensure that the subject line remains the same as it is now.",
    "In the meantime, feel free to check out the following resources, to learn a little more about the Anchor Team and how we work.",
    "* Our Blog: http://www.anchor.com.au/blog/"
  ]

  predicate IsBoilerplate(line: string) {
    exists i :: 0 <= i < |Boilerplate| && StartsWith(line, Boilerplate[i])
  }

  /** "On <date>, <someone> wrote:" reply headers. */
  predicate IsReplyHeader(line: string) {
    StartsWith(line, "On") && EndsWith(line, "wrote:")
  }

  predicate NotQuoted(line: string) { !IsQuoted(line) }
  predicate NotBlankOrDot(line: string) { !IsBlankOrDot(line) }
  predicate NotGreeting(line: string) { !IsGreeting(line) }
  predicate NotBoilerplate(line: string) { !IsBoilerplate(line) }
  predicate NotReplyHeader(line: string) { !IsReplyHeader(line) }

  // ----- Lines that end the useful body -----

  /** A short trailing platitude. */
  predicate IsShortThanks(line: string) {
    StartsWith(line, "Thanks") && |line| < 10
  }

  predicate IsRegards(line: string) { line == "Regards," }

  predicate IsSignatureMark(line: string) { line == "--" }

  predicate IsStopLine(line: string) {
    IsShortThanks(line) || IsRegards(line) || IsSignatureMark(line)
  }

  /** What every line surviving the filters satisfies. */
  predicate IsKeptLine(line: string) {
    && IsTrimmed(line, Whitespace)
    && '\n' !in line
    && !IsQuoted(line)
    && !IsBlankOrDot(line)
    && !IsGreeting(line)
    && !IsBoilerplate(line)
    && !IsReplyHeader(line)
  }

  /** What every line of cleaned content satisfies. */
  predicate IsCleanLine(line: string) {
    IsKeptLine(line) && !IsStopLine(line)
  }

  // ----- The pipeline -----

  /** The body split into lines, each stripped of surrounding whitespace. */
  function StrippedLines(content: string): (r: seq<string>)
    ensures |r| == |Split(content, '\n')|
    ensures forall i :: 0 <= i < |r| ==> r[i] == Strip(Split(content, '\n')[i])
    ensures forall i :: 0 <= i < |r| ==> IsTrimmed(r[i], Whitespace) && '\n' !in r[i]
  {
    var lines := Split(content, '\n');
    seq(|lines|, i requires 0 <= i < |lines| => Strip(lines[i]))
  }

  predicate IsSingleStrippedLine(line: string) {
    IsTrimmed(line, Whitespace) && '\n' !in line
  }

  // The lines that pass the first two, three, four and all five filters.
  predicate PassesTwoFilters(line: string) {
    NotQuoted(line) && NotBlankOrDot(line)
  }
  predicate PassesThreeFilters(line: string) {
    PassesTwoFilters(line) && NotGreeting(line)
  }
  predicate PassesFourFilters(line: string) {
    PassesThreeFilters(line) && NotBoilerplate(line)
  }
  predicate PassesFilters(line: string) {
    PassesFourFilters(line) && NotReplyHeader(line)
  }

  /** The stripped lines without quoted, blank, greeting, boilerplate and
      reply-header lines: exactly the stripped lines that pass every
      filter, in their order. */
  function FilteredLines(content: string): (r: seq<string>)
    ensures r == Filter(StrippedLines(content), PassesFilters)
    ensures forall i :: 0 <= i < |r| ==> IsKeptLine(r[i])
  {
    var s0 := StrippedLines(content);
    FiltersInOrder(s0);
    FilterPreserves(s0, PassesFilters, IsSingleStrippedLine);
    Filter(Filter(Filter(Filter(Filter(s0, NotQuoted), NotBlankOrDot), NotGreeting), NotBoilerplate), NotReplyHeader)
  }

  /** The five filters one after the other keep what passes all five. */
  lemma FiltersInOrder(lines: seq<string>)
    ensures Filter(Filter(Filter(Filter(Filter(lines, NotQuoted), NotBlankOrDot), NotGreeting), NotBoilerplate), NotReplyHeader)
         == Filter(lines, PassesFilters)
  {
    FilterFilter(lines, NotQuoted, NotBlankOrDot, PassesTwoFilters);
    FilterFilter(lines, PassesTwoFilters, NotGreeting, PassesThreeFilters);
    FilterFilter(lines, PassesThreeFilters, NotBoilerplate, PassesFourFilters);
    FilterFilter(lines, PassesFourFilters, NotReplyHeader, PassesFilters);
  }

  /** A stripped line of the body survives the filters exactly when it
      passes every one of them. */
  lemma FilteredLinesMembership(content: string, line: string)
    ensures line in FilteredLines(content) <==> line in StrippedLines(content) && PassesFilters(line)
  {
    FilterMembership(StrippedLines(content), PassesFilters, line);
  }

  /** Cut before the first short "Thanks" line, then before "Regards,",
      then before "--". */
  function CutSignature(lines: seq<string>): (r: seq<string>)
    ensures |r| <= |lines| && r == lines[..|r|]
    ensures forall i :: 0 <= i < |r| ==> !IsStopLine(r[i])
    ensures |r| < |lines| ==> IsStopLine(lines[|r|])
  {
    var a := CutBefore(lines, IsShortThanks);
    var b := CutBefore(a, IsRegards);
    var c := CutBefore(b, IsSignatureMark);
    assert forall i :: 0 <= i < |c| ==> c[i] == b[i] == a[i];
    c
  }

  /** The lines of the cleaned body, before the unstall check. */
  function CleanLines(content: string): (r: seq<string>)
    ensures forall i :: 0 <= i < |r| ==> IsCleanLine(r[i])
    ensures |r| <= |FilteredLines(content)| && r == FilteredLines(content)[..|r|]
    ensures |r| < |FilteredLines(content)| ==> IsStopLine(FilteredLines(content)[|r|])
  {
    CutSignature(FilteredLines(content))
  }

  const QuoteMarks: set<char> := {'\'', '"'}

  /** `clean_message(msg)`. */
  function CleanMessage(m: Message): (r: Message)
    ensures r.extra == map[]
    ensures r.id == m.id && r.created == m.created && r.private == m.private
    ensures r.subject != "No Subject"
    ensures r.subject == m.subject || (m.subject == "No Subject" && r.subject == "")
    ensures r.fromEmail.Some? && r.fromRealname.Some?
    ensures r.fromEmail == m.fromEmail || (m.fromEmail.None? && r.fromEmail == Some(""))
    ensures r.fromRealname == Some(Trim(m.fromRealname.GetOr(""), QuoteMarks))
    ensures IsTrimmed(r.fromRealname.value, QuoteMarks)
    ensures r.content == "" || !IsUnstallNotice(r.content)
  {
    var body := Join(CleanLines(m.content), "\n");
    Message(
      m.id,
      Some(m.fromEmail.GetOr("")),
      Some(Trim(m.fromRealname.GetOr(""), QuoteMarks)),
      if IsUnstallNotice(body) then "" else body,
      if m.subject == "No Subject" then "" else m.subject,
      m.created,
      m.private,
      map[])
  }

  /** The cleaned body is empty exactly when no line survives or the
      surviving lines form an unstall notice; otherwise its lines are the
      surviving lines. */
  lemma CleanedContent(m: Message)
    ensures var r := CleanMessage(m);
      && (r.content == "" <==> CleanLines(m.content) == [] || IsUnstallNotice(Join(CleanLines(m.content), "\n")))
      && (r.content != "" ==> Split(r.content, '\n') == CleanLines(m.content))
  {
    var lines := CleanLines(m.content);
    if lines != [] {
      JoinNonEmpty(lines, "\n");
      SplitJoin(lines, '\n');
    }
  }

  /** The empty body cleans to no lines. */
  lemma CleanLinesOfEmpty()
    ensures CleanLines("") == []
  {
    var s := StrippedLines("");
    assert Split("", '\n') == [""];
    assert s == [""];
    var q := Filter(s, NotQuoted);
    assert q == [""];
    assert Filter(q, NotBlankOrDot) == [];
  }

  /** Splitting joined clean lines and stripping them gives them back. */
  lemma StrippedLinesOfJoin(lines: seq<string>)
    requires lines != []
    requires forall i :: 0 <= i < |lines| ==> IsSingleStrippedLine(lines[i])
    ensures StrippedLines(Join(lines, "\n")) == lines
  {
    var joined := Join(lines, "\n");
    SplitJoin(lines, '\n');
    assert Split(joined, '\n') == lines;
    var s := StrippedLines(joined);
    forall i | 0 <= i < |lines| ensures s[i] == lines[i] {
      assert s[i] == Strip(lines[i]);
      TrimOfTrimmed(lines[i], Whitespace);
    }
  }

  /** The filters keep every clean line. */
  lemma FilteredLinesOfClean(content: string)
    requires forall i :: 0 <= i < |StrippedLines(content)| ==> IsCleanLine(StrippedLines(content)[i])
    ensures FilteredLines(content) == StrippedLines(content)
  {
    var lines := StrippedLines(content);
    FilterKeepsAll(lines, NotQuoted);
    FilterKeepsAll(lines, NotBlankOrDot);
    FilterKeepsAll(lines, NotGreeting);
    FilterKeepsAll(lines, NotBoilerplate);
    FilterKeepsAll(lines, NotReplyHeader);
  }

  /** No cut applies to lines that hold no stop line. */
  lemma CutSignatureOfClean(lines: seq<string>)
    requires forall i :: 0 <= i < |lines| ==> !IsStopLine(lines[i])
    ensures CutSignature(lines) == lines
  {
    CutBeforeKeepsAll(lines, IsShortThanks);
    CutBeforeKeepsAll(lines, IsRegards);
    CutBeforeKeepsAll(lines, IsSignatureMark);
  }

  /** Cleaning the joined clean lines gives the same lines. */
  lemma CleanLinesIdempotent(content: string)
    ensures CleanLines(Join(CleanLines(content), "\n")) == CleanLines(content)
  {
    var lines := CleanLines(content);
    if lines == [] {
      CleanLinesOfEmpty();
    } else {
      var again := Join(lines, "\n");
      assert forall i :: 0 <= i < |lines| ==> IsSingleStrippedLine(lines[i]);
      StrippedLinesOfJoin(lines);
      FilteredLinesOfClean(again);
      CutSignatureOfClean(lines);
    }
  }

  /** Cleaning is idempotent: a cleaned message cleans to itself. */
  lemma CleanIdempotent(m: Message)
    ensures CleanMessage(CleanMessage(m)) == CleanMessage(m)
  {
    var r := CleanMessage(m);
    var body := Join(CleanLines(m.content), "\n");
    CleanLinesIdempotent(m.content);
    if IsUnstallNotice(body) {
      CleanLinesOfEmpty();
      EmptyIsNoUnstallNotice();
    }
    TrimOfTrimmed(r.fromRealname.value, QuoteMarks);
  }
}
