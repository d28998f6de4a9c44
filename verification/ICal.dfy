/** The iCal feed of planned maintenances (BuildICal, backend/internal/feed/ical.go). */
module ICal {
  import opened Base
  import opened Lifecycle
  import opened Decimal
  import opened Uuids
  import opened ICalText

  /** A point in time in UTC, split into its calendar fields. */
  datatype Utc = Utc(year: int, month: nat, day: nat, hour: nat, minute: nat, second: nat)

  datatype Page = Page(name: string, slug: string, defaultLocale: string)

  datatype Event = Event(id: Uuid, title: string, description: string, status: MaintenanceStatus, start: Utc, end: Utc)

  /** A number with zeros in front up to the width. */
  function Padded(n: nat, width: nat): string {
    var digits := FormatNat(n);
    if |digits| >= width then digits else seq(width - |digits|, i => '0') + digits
  }

  /** The layout 20060102T150405Z. */
  function FormatTime(t: Utc): string {
    (if t.year < 0 then "-" + Padded(-t.year, 4) else Padded(t.year, 4)) + Padded(t.month, 2) + Padded(t.day, 2) + "T"
      + Padded(t.hour, 2) + Padded(t.minute, 2) + Padded(t.second, 2) + "Z"
  }

  function LocaleLang(locale: string): string {
    if |locale| >= 2 && (locale[0] == 'e' || locale[0] == 'E') && (locale[1] == 'n' || locale[1] == 'N')
    then "EN"
    else "RU"
  }

  function StatusText(s: MaintenanceStatus): string {
    if s == Scheduled then "TENTATIVE" else "CONFIRMED"
  }

  function TrimSlashes(s: string): string {
    if s != "" && s[|s| - 1] == '/' then TrimSlashes(s[..|s| - 1]) else s
  }

  function PageUrl(baseUrl: string, slug: string): string {
    TrimSlashes(baseUrl) + "/status/" + slug
  }

  /** An em dash in UTF-8, between spaces, and the suffix of calendar names. */
  const NAME_SUFFIX: string := " \U{E2}\U{80}\U{94} maintenance"

  function HeadLines(page: Page): seq<string> {
    [ "BEGIN:VCALENDAR", "VERSION:2.0", "PRODID:-//HealthPage//Maintenance//" + LocaleLang(page.defaultLocale),
      "CALSCALE:GREGORIAN", "METHOD:PUBLISH", "X-WR-CALNAME:" + Escape(page.name + NAME_SUFFIX) ]
  }

  function OpeningLines(m: Event, stamp: string): seq<string> {
    [ "BEGIN:VEVENT", "UID:maintenance-" + FormatUuid(m.id) + "@healthpage", "DTSTAMP:" + stamp,
      "DTSTART:" + FormatTime(m.start), "DTEND:" + FormatTime(m.end), "SUMMARY:" + Escape(m.title) ]
  }

  function DescriptionLines(m: Event): seq<string> {
    if m.description != "" then ["DESCRIPTION:" + Escape(m.description)] else []
  }

  function ClosingLines(m: Event, url: string): seq<string> {
    ["STATUS:" + StatusText(m.status), "URL:" + Escape(url), "END:VEVENT"]
  }

  function EventLines(m: Event, stamp: string, url: string): seq<string> {
    OpeningLines(m, stamp) + DescriptionLines(m) + ClosingLines(m, url)
  }

  function Concat(blocks: seq<seq<string>>): seq<string> {
    if blocks == [] then [] else Concat(blocks[..|blocks| - 1]) + blocks[|blocks| - 1]
  }

  function EventBlocks(ms: seq<Event>, stamp: string, url: string): seq<seq<string>> {
    seq(|ms|, i requires 0 <= i < |ms| => EventLines(ms[i], stamp, url))
  }

  /** The logical lines of the feed. */
  function CalendarLines(page: Page, ms: seq<Event>, baseUrl: string, now: Utc): seq<string> {
    HeadLines(page) +
    Concat(EventBlocks(ms, FormatTime(now), PageUrl(baseUrl, page.slug) + "/maintenances")) +
    ["END:VCALENDAR"]
  }

  /** The text of the feed: its logical lines, folded. */
  function Feed(page: Page, ms: seq<Event>, baseUrl: string, now: Utc): string {
    Join(Folded(CalendarLines(page, ms, baseUrl, now)))
  }

  method BuildICal(page: Page, ms: seq<Event>, baseUrl: string, now: Utc) returns (text: string)
    ensures text == Feed(page, ms, baseUrl, now)
  {
    var stamp := FormatTime(now);
    var url := PageUrl(baseUrl, page.slug) + "/maintenances";
    text := WriteCalendar(HeadLines(page), ms, stamp, url, ["END:VCALENDAR"]);
  }

  method WriteCalendar(head: seq<string>, ms: seq<Event>, stamp: string, url: string, foot: seq<string>)
    returns (text: string)
    ensures text == Join(Folded(head + Concat(EventBlocks(ms, stamp, url)) + foot))
  {
    var b := new Builder();
    b.WriteLines(head);
    assert b.lines == head;
    WriteEvents(b, ms, stamp, url, EventBlocks(ms, stamp, url));
    b.WriteLines(foot);
    assert b.lines == head + Concat(EventBlocks(ms, stamp, url)) + foot;
    return b.text;
  }

  lemma OneMoreBlock(start: seq<string>, blocks: seq<seq<string>>, i: nat)
    requires i < |blocks|
    ensures start + Concat(blocks[..i + 1]) == (start + Concat(blocks[..i])) + blocks[i]
  {
    assert blocks[..i + 1][..i] == blocks[..i];
  }

  lemma BlockOf(ms: seq<Event>, stamp: string, url: string, i: nat)
    requires i < |ms|
    ensures EventBlocks(ms, stamp, url)[i] == EventLines(ms[i], stamp, url)
  {
  }

  method WriteEvents(b: Builder, ms: seq<Event>, stamp: string, url: string, ghost blocks: seq<seq<string>>)
    requires b.Valid() && blocks == EventBlocks(ms, stamp, url)
    modifies b
    ensures b.Valid() && b.lines == old(b.lines) + Concat(blocks)
  {
    for i := 0 to |ms|
      invariant b.Valid() && b.lines == old(b.lines) + Concat(blocks[..i])
    {
      BlockOf(ms, stamp, url, i);
      WriteEvent(b, ms[i], stamp, url, blocks[i]);
      OneMoreBlock(old(b.lines), blocks, i);
    }
    assert blocks[..|ms|] == blocks;
  }

  /** The body of the loop, for one maintenance. */
  method WriteEvent(b: Builder, m: Event, stamp: string, url: string, ghost block: seq<string>)
    requires b.Valid() && block == EventLines(m, stamp, url)
    modifies b
    ensures b.Valid() && b.lines == old(b.lines) + block
  {
    ghost var start := b.lines;
    b.WriteLines(OpeningLines(m, stamp));
    if m.description != "" {
      b.WriteLine("DESCRIPTION:" + Escape(m.description));
    }
    ghost var middle := b.lines;
    assert middle == start + (OpeningLines(m, stamp) + DescriptionLines(m));
    b.WriteLines(ClosingLines(m, url));
    Regroup(start, OpeningLines(m, stamp) + DescriptionLines(m), ClosingLines(m, url));
  }

  lemma Regroup(a: seq<string>, b: seq<string>, c: seq<string>)
    ensures (a + b) + c == a + (b + c)
  {
  }

  // ----- Reading the feed back -----

  predicate AllPrintable(lines: seq<string>) {
    forall i :: 0 <= i < |lines| ==> Printable(lines[i])
  }

  lemma NoCrConcat(a: string, b: string)
    requires NoCr(a) && NoCr(b)
    ensures NoCr(a + b)
  {
  }

  lemma PropertyIsPrintable(name: string, value: string)
    requires name != "" && NoCr(name) && NoCr(value) && name[0] != ' ' && name[0] != '\t'
    ensures Printable(name + value)
  {
    NoCrConcat(name, value);
  }

  lemma EscapedHasNoCr(s: string)
    ensures NoCr(Escape(s))
  {
    EscapedIsOneLine(s);
  }

  lemma PaddedHasNoCr(n: nat, width: nat)
    ensures NoCr(Padded(n, width))
  {
    FormatNatText(n);
  }

  lemma TimeHasNoCr(t: Utc)
    ensures NoCr(FormatTime(t))
  {
    PaddedHasNoCr(if t.year < 0 then -t.year else t.year, 4);
    PaddedHasNoCr(t.month, 2);
    PaddedHasNoCr(t.day, 2);
    PaddedHasNoCr(t.hour, 2);
    PaddedHasNoCr(t.minute, 2);
    PaddedHasNoCr(t.second, 2);
    DateHasNoCr(
      if t.year < 0 then "-" + Padded(-t.year, 4) else Padded(t.year, 4), Padded(t.month, 2), Padded(t.day, 2),
      Padded(t.hour, 2), Padded(t.minute, 2), Padded(t.second, 2));
  }

  lemma DateHasNoCr(year: string, month: string, day: string, hour: string, minute: string, second: string)
    requires NoCr(year) && NoCr(month) && NoCr(day) && NoCr(hour) && NoCr(minute) && NoCr(second)
    ensures NoCr(year + month + day + "T" + hour + minute + second + "Z")
  {
    NoCrConcat(year, month);
    NoCrConcat(year + month, day);
    NoCrConcat(year + month + day, "T");
    NoCrConcat(year + month + day + "T", hour);
    NoCrConcat(year + month + day + "T" + hour, minute);
    NoCrConcat(year + month + day + "T" + hour + minute, second);
    NoCrConcat(year + month + day + "T" + hour + minute + second, "Z");
  }

  lemma HeadIsPrintable(page: Page)
    ensures AllPrintable(HeadLines(page))
  {
    CalendarNameIsPrintable(page.name + NAME_SUFFIX);
    ProductIsPrintable(page.defaultLocale);
    SixPrintable(
      "BEGIN:VCALENDAR", "VERSION:2.0", "PRODID:-//HealthPage//Maintenance//" + LocaleLang(page.defaultLocale),
      "CALSCALE:GREGORIAN", "METHOD:PUBLISH", "X-WR-CALNAME:" + Escape(page.name + NAME_SUFFIX));
  }

  lemma CalendarNameIsPrintable(name: string)
    ensures Printable("X-WR-CALNAME:" + Escape(name))
  {
    EscapedHasNoCr(name);
    PropertyIsPrintable("X-WR-CALNAME:", Escape(name));
  }

  lemma ProductIsPrintable(locale: string)
    ensures Printable("PRODID:-//HealthPage//Maintenance//" + LocaleLang(locale))
  {
    PropertyIsPrintable("PRODID:-//HealthPage//Maintenance//", LocaleLang(locale));
  }

  lemma UidIsPrintable(id: Uuid)
    ensures Printable("UID:maintenance-" + FormatUuid(id) + "@healthpage")
  {
    FormatIsPlain(id);
    NoCrConcat("UID:maintenance-", FormatUuid(id));
    NoCrConcat("UID:maintenance-" + FormatUuid(id), "@healthpage");
  }

  lemma TimesArePrintable(m: Event, stamp: string)
    requires NoCr(stamp)
    ensures Printable("DTSTAMP:" + stamp) && Printable("DTSTART:" + FormatTime(m.start))
    ensures Printable("DTEND:" + FormatTime(m.end))
  {
    TimeHasNoCr(m.start);
    TimeHasNoCr(m.end);
    DateIsPrintable("DTSTAMP:", stamp);
    DateIsPrintable("DTSTART:", FormatTime(m.start));
    DateIsPrintable("DTEND:", FormatTime(m.end));
  }

  lemma DateIsPrintable(name: string, value: string)
    requires name == "DTSTAMP:" || name == "DTSTART:" || name == "DTEND:"
    requires NoCr(value)
    ensures Printable(name + value)
  {
    PropertyIsPrintable(name, value);
  }

  lemma SummaryIsPrintable(title: string)
    ensures Printable("BEGIN:VEVENT") && Printable("SUMMARY:" + Escape(title))
  {
    EscapedHasNoCr(title);
    PropertyIsPrintable("SUMMARY:", Escape(title));
  }

  lemma OpeningIsPrintable(m: Event, stamp: string)
    requires NoCr(stamp)
    ensures AllPrintable(OpeningLines(m, stamp))
  {
    UidIsPrintable(m.id);
    TimesArePrintable(m, stamp);
    SummaryIsPrintable(m.title);
    SixPrintable(
      "BEGIN:VEVENT", "UID:maintenance-" + FormatUuid(m.id) + "@healthpage", "DTSTAMP:" + stamp,
      "DTSTART:" + FormatTime(m.start), "DTEND:" + FormatTime(m.end), "SUMMARY:" + Escape(m.title));
  }

  lemma SixPrintable(a: string, b: string, c: string, d: string, e: string, f: string)
    requires Printable(a) && Printable(b) && Printable(c) && Printable(d) && Printable(e) && Printable(f)
    ensures AllPrintable([a, b, c, d, e, f])
  {
  }

  lemma ClosingIsPrintable(m: Event, url: string)
    ensures AllPrintable(ClosingLines(m, url)) && AllPrintable(DescriptionLines(m))
  {
    EscapedHasNoCr(url);
    EscapedHasNoCr(m.description);
    PropertyIsPrintable("URL:", Escape(url));
    PropertyIsPrintable("STATUS:", StatusText(m.status));
    PropertyIsPrintable("DESCRIPTION:", Escape(m.description));
  }

  lemma PrintableConcat(a: seq<string>, b: seq<string>)
    requires AllPrintable(a) && AllPrintable(b)
    ensures AllPrintable(a + b)
  {
  }

  lemma EventIsPrintable(m: Event, stamp: string, url: string)
    requires NoCr(stamp)
    ensures AllPrintable(EventLines(m, stamp, url))
  {
    OpeningIsPrintable(m, stamp);
    ClosingIsPrintable(m, url);
    PrintableConcat(OpeningLines(m, stamp), DescriptionLines(m));
    PrintableConcat(OpeningLines(m, stamp) + DescriptionLines(m), ClosingLines(m, url));
  }

  lemma {:induction false} ConcatIsPrintable(blocks: seq<seq<string>>)
    requires forall i :: 0 <= i < |blocks| ==> AllPrintable(blocks[i])
    ensures AllPrintable(Concat(blocks))
  {
    if blocks != [] {
      ConcatIsPrintable(blocks[..|blocks| - 1]);
      PrintableConcat(Concat(blocks[..|blocks| - 1]), blocks[|blocks| - 1]);
    }
  }

  lemma BlocksArePrintable(ms: seq<Event>, stamp: string, url: string, blocks: seq<seq<string>>)
    requires NoCr(stamp) && blocks == EventBlocks(ms, stamp, url)
    ensures AllPrintable(Concat(blocks))
  {
    forall i | 0 <= i < |blocks| ensures AllPrintable(blocks[i]) {
      BlockOf(ms, stamp, url, i);
      EventIsPrintable(ms[i], stamp, url);
    }
    ConcatIsPrintable(blocks);
  }

  /**
   Main result, for every page and every maintenance whatever octets their texts hold: all physical
   lines of the feed are at most 75 octets, and unfolding and splitting it gives its logical lines.
   */
  lemma FeedReadsBack(page: Page, ms: seq<Event>, baseUrl: string, now: Utc)
    ensures Split(Unfold(Feed(page, ms, baseUrl, now))) == CalendarLines(page, ms, baseUrl, now)
    ensures forall i :: 0 <= i < |Split(Feed(page, ms, baseUrl, now))| ==>
              |Split(Feed(page, ms, baseUrl, now))[i]| <= 75
  {
    CalendarIsPrintable(page, ms, baseUrl, now);
    LinesReadBack(CalendarLines(page, ms, baseUrl, now), Feed(page, ms, baseUrl, now));
  }

  lemma CalendarIsPrintable(page: Page, ms: seq<Event>, baseUrl: string, now: Utc)
    ensures AllPrintable(CalendarLines(page, ms, baseUrl, now))
  {
    TimeHasNoCr(now);
    HeadIsPrintable(page);
    PartsArePrintable(HeadLines(page), ms, FormatTime(now), PageUrl(baseUrl, page.slug) + "/maintenances",
      "END:VCALENDAR");
  }

  lemma PartsArePrintable(head: seq<string>, ms: seq<Event>, stamp: string, url: string, foot: string)
    requires AllPrintable(head) && NoCr(stamp) && Printable(foot)
    ensures AllPrintable(head + Concat(EventBlocks(ms, stamp, url)) + [foot])
  {
    BlocksArePrintable(ms, stamp, url, EventBlocks(ms, stamp, url));
    ThreePrintable(head, Concat(EventBlocks(ms, stamp, url)), foot,
      head + Concat(EventBlocks(ms, stamp, url)) + [foot]);
  }

  lemma ThreePrintable(head: seq<string>, body: seq<string>, foot: string, lines: seq<string>)
    requires AllPrintable(head) && AllPrintable(body) && Printable(foot) && lines == head + body + [foot]
    ensures AllPrintable(lines)
  {
    PrintableConcat(head, body);
    PrintableConcat(head + body, [foot]);
  }

  lemma LinesReadBack(lines: seq<string>, text: string)
    requires AllPrintable(lines) && text == Join(Folded(lines))
    ensures Split(Unfold(text)) == lines
    ensures forall i :: 0 <= i < |Split(text)| ==> |Split(text)[i]| <= 75
  {
    UnfoldPrinted(lines);
    PrintedFits(lines);
  }

  /** The values of the lines with this property name, in order. */
  function Values(name: string, lines: seq<string>): seq<string> {
    if lines == [] then []
    else
      var front, last := lines[..|lines| - 1], lines[|lines| - 1];
      Values(name, front) + if IsProperty(name, last) then [last[|name|..]] else []
  }

  predicate IsProperty(name: string, line: string) {
    |name| <= |line| && line[..|name|] == name
  }

  lemma {:induction false} ValuesConcat(name: string, a: seq<string>, b: seq<string>)
    ensures Values(name, a + b) == Values(name, a) + Values(name, b)
  {
    if b == [] {
      assert a + b == a;
    } else {
      assert (a + b)[..|a + b| - 1] == a + b[..|b| - 1];
      ValuesConcat(name, a, b[..|b| - 1]);
    }
  }

  /** Two texts that differ in their first two characters. */
  predicate Apart(name: string, line: string) {
    |name| >= 2 && |line| >= 2 && (name[0] != line[0] || name[1] != line[1])
  }

  lemma {:induction false} NoValues(name: string, lines: seq<string>)
    requires forall i :: 0 <= i < |lines| ==> Apart(name, lines[i])
    ensures Values(name, lines) == []
  {
    if lines != [] {
      NoValues(name, lines[..|lines| - 1]);
      ApartIsOther(name, lines[|lines| - 1]);
    }
  }

  lemma ApartIsOther(name: string, line: string)
    requires Apart(name, line)
    ensures !IsProperty(name, line)
  {
    if |name| <= |line| {
      assert line[..|name|][0] == line[0] && line[..|name|][1] == line[1];
    }
  }

  lemma ApartByPrefix(name: string, prefix: string, value: string)
    requires Apart(name, prefix)
    ensures Apart(name, prefix + value)
  {
  }

  lemma OneValue(name: string, value: string)
    ensures Values(name, [name + value]) == [value]
  {
    assert (name + value)[..|name|] == name && (name + value)[|name|..] == value;
    assert [name + value][..0] == [];
  }

  lemma ValuesOfParts(name: string, before: seq<string>, value: string, after: seq<string>)
    requires forall i :: 0 <= i < |before| ==> Apart(name, before[i])
    requires forall i :: 0 <= i < |after| ==> Apart(name, after[i])
    ensures Values(name, before + [name + value] + after) == [value] && Values(name, before + after) == []
  {
    ValuesConcat(name, before, [name + value]);
    ValuesConcat(name, before + [name + value], after);
    ValuesConcat(name, before, after);
    NoValues(name, before);
    NoValues(name, after);
    OneValue(name, value);
  }

  const SUMMARY: string := "SUMMARY:"

  predicate AllApart(name: string, lines: seq<string>) {
    forall i :: 0 <= i < |lines| ==> Apart(name, lines[i])
  }

  /** The five lines in front of the summary are no summaries. */
  lemma OpeningIsApart(m: Event, stamp: string)
    ensures Apart(SUMMARY, "BEGIN:VEVENT") && Apart(SUMMARY, "UID:maintenance-" + FormatUuid(m.id) + "@healthpage")
    ensures Apart(SUMMARY, "DTSTAMP:" + stamp) && Apart(SUMMARY, "DTSTART:" + FormatTime(m.start))
    ensures Apart(SUMMARY, "DTEND:" + FormatTime(m.end))
  {
    ApartByPrefix(SUMMARY, "UID:maintenance-", FormatUuid(m.id));
    ApartByPrefix(SUMMARY, "UID:maintenance-" + FormatUuid(m.id), "@healthpage");
    ApartByPrefix(SUMMARY, "DTSTAMP:", stamp);
    ApartByPrefix(SUMMARY, "DTSTART:", FormatTime(m.start));
    ApartByPrefix(SUMMARY, "DTEND:", FormatTime(m.end));
  }

  lemma ClosingIsApart(m: Event, url: string)
    ensures AllApart(SUMMARY, ClosingLines(m, url))
  {
    ApartByPrefix(SUMMARY, "STATUS:", StatusText(m.status));
    ApartByPrefix(SUMMARY, "URL:", Escape(url));
  }

  /** A block whose opening ends with its summary, the only one in it. */
  lemma SummaryOfParts(a: string, b: string, c: string, d: string, e: string, title: string, after: seq<string>)
    requires Apart(SUMMARY, a) && Apart(SUMMARY, b) && Apart(SUMMARY, c) && Apart(SUMMARY, d) && Apart(SUMMARY, e)
    requires AllApart(SUMMARY, after)
    ensures Values(SUMMARY, [a, b, c, d, e, SUMMARY + title] + after) == [title]
  {
    ValuesOfParts(SUMMARY, [a, b, c, d, e], title, after);
    assert [a, b, c, d, e, SUMMARY + title] + after == [a, b, c, d, e] + [SUMMARY + title] + after;
  }

  lemma AfterSummaryIsApart(m: Event, url: string)
    ensures AllApart(SUMMARY, DescriptionLines(m) + ClosingLines(m, url))
  {
    ClosingIsApart(m, url);
    ApartByPrefix(SUMMARY, "DESCRIPTION:", Escape(m.description));
  }

  lemma SummaryOfBlock(m: Event, stamp: string, url: string)
    ensures Values(SUMMARY, EventLines(m, stamp, url)) == [Escape(m.title)]
  {
    OpeningIsApart(m, stamp);
    AfterSummaryIsApart(m, url);
    SummaryOfParts(
      "BEGIN:VEVENT", "UID:maintenance-" + FormatUuid(m.id) + "@healthpage", "DTSTAMP:" + stamp,
      "DTSTART:" + FormatTime(m.start), "DTEND:" + FormatTime(m.end), Escape(m.title),
      DescriptionLines(m) + ClosingLines(m, url));
    assert EventLines(m, stamp, url) == OpeningLines(m, stamp) + (DescriptionLines(m) + ClosingLines(m, url));
  }

  lemma {:induction false} SummariesOfBlocks(ms: seq<Event>, stamp: string, url: string)
    ensures Values(SUMMARY, Concat(EventBlocks(ms, stamp, url))) == EscapedTitles(ms)
  {
    if ms != [] {
      var front, last := ms[..|ms| - 1], ms[|ms| - 1];
      SummariesOfBlocks(front, stamp, url);
      SummaryOfBlock(last, stamp, url);
      assert EventBlocks(ms, stamp, url)[..|ms| - 1] == EventBlocks(front, stamp, url);
      BlockOf(ms, stamp, url, |ms| - 1);
      ValuesConcat(SUMMARY, Concat(EventBlocks(front, stamp, url)), EventLines(last, stamp, url));
    }
  }

  function EscapedTitles(ms: seq<Event>): seq<string> {
    if ms == [] then [] else EscapedTitles(ms[..|ms| - 1]) + [Escape(ms[|ms| - 1].title)]
  }

  lemma {:induction false} TitleAt(ms: seq<Event>, i: nat)
    requires i < |ms|
    ensures |EscapedTitles(ms)| == |ms| && Unescape(EscapedTitles(ms)[i]) == WithoutCr(ms[i].title)
  {
    if i == |ms| - 1 {
      TitlesLength(ms);
      UnescapeEscape(ms[i].title);
    } else {
      TitlesLength(ms);
      TitleAt(ms[..|ms| - 1], i);
    }
  }

  lemma {:induction false} TitlesLength(ms: seq<Event>)
    ensures |EscapedTitles(ms)| == |ms|
  {
    if ms != [] {
      TitlesLength(ms[..|ms| - 1]);
    }
  }

  lemma HeadIsApart(page: Page)
    ensures AllApart(SUMMARY, HeadLines(page))
  {
    ApartByPrefix(SUMMARY, "PRODID:-//HealthPage//Maintenance//", LocaleLang(page.defaultLocale));
    ApartByPrefix(SUMMARY, "X-WR-CALNAME:", Escape(page.name + NAME_SUFFIX));
  }

  lemma SummariesBetween(head: seq<string>, body: seq<string>, foot: string, lines: seq<string>)
    requires AllApart(SUMMARY, head) && Apart(SUMMARY, foot) && lines == head + body + [foot]
    ensures Values(SUMMARY, lines) == Values(SUMMARY, body)
  {
    ValuesConcat(SUMMARY, head, body);
    ValuesConcat(SUMMARY, head + body, [foot]);
    NoValues(SUMMARY, head);
    NoValues(SUMMARY, [foot]);
  }

  /**
   Main result: a reader that unfolds the feed, takes its SUMMARY lines and unescapes them gets the
   titles of the maintenances, in order, with carriage returns removed.
   */
  lemma TitlesComeBack(page: Page, ms: seq<Event>, baseUrl: string, now: Utc, i: nat)
    requires i < |ms|
    ensures |Values(SUMMARY, Split(Unfold(Feed(page, ms, baseUrl, now))))| == |ms|
    ensures Unescape(Values(SUMMARY, Split(Unfold(Feed(page, ms, baseUrl, now))))[i]) == WithoutCr(ms[i].title)
  {
    FeedReadsBack(page, ms, baseUrl, now);
    SummariesOfCalendar(page, ms, baseUrl, now);
    TitleAt(ms, i);
  }

  lemma SummariesOfCalendar(page: Page, ms: seq<Event>, baseUrl: string, now: Utc)
    ensures Values(SUMMARY, CalendarLines(page, ms, baseUrl, now)) == EscapedTitles(ms)
  {
    var stamp, url := FormatTime(now), PageUrl(baseUrl, page.slug) + "/maintenances";
    HeadIsApart(page);
    SummariesOfBlocks(ms, stamp, url);
    SummariesBetween(HeadLines(page), Concat(EventBlocks(ms, stamp, url)), "END:VCALENDAR",
      CalendarLines(page, ms, baseUrl, now));
  }
}
