/** What a calendar program reads off the feed: ids, times, states and texts of the maintenances. */
module ICalEvents {
  import opened Base
  import opened Lifecycle
  import opened Decimal
  import opened Uuids
  import opened ICalText
  import opened ICal

  // ----- Times -----

  /** Fields as a calendar has them, with a year of at most four digits. */
  predicate IsUtc(t: Utc) {
    0 <= t.year <= 9999 && t.month < 100 && t.day < 100 && t.hour < 100 && t.minute < 100 && t.second < 100
  }

  /** Form 2 of a date-time, section 3.3.5 of RFC 5545: eight digits, T, six digits, Z. */
  function ReadTime(s: string): Option<Utc> {
    if |s| != 16 || s[8] != 'T' || s[15] != 'Z' then None
    else
      var y, mo, d := ParseNat(s[..4]), ParseNat(s[4..6]), ParseNat(s[6..8]);
      var h, mi, se := ParseNat(s[9..11]), ParseNat(s[11..13]), ParseNat(s[13..15]);
      if y.None? || mo.None? || d.None? || h.None? || mi.None? || se.None? then None
      else Some(Utc(y.value, mo.value, d.value, h.value, mi.value, se.value))
  }

  lemma {:induction false} LeadingZeros(zeros: nat, digits: string, n: nat)
    requires ParseNat(digits) == Some(n)
    ensures ParseNat(seq(zeros, i => '0') + digits) == Some(n)
    decreases |digits|
  {
    var s := seq(zeros, i => '0') + digits;
    assert s[|s| - 1] == digits[|digits| - 1];
    assert s[..|s| - 1] == seq(zeros, i => '0') + digits[..|digits| - 1];
    if |digits| > 1 {
      LeadingZeros(zeros, digits[..|digits| - 1], ParseNat(digits[..|digits| - 1]).value);
    } else if zeros > 0 {
      OnlyZeros(zeros);
      assert s[..|s| - 1] == seq(zeros, i => '0');
    }
  }

  lemma {:induction false} OnlyZeros(zeros: nat)
    requires zeros > 0
    ensures ParseNat(seq(zeros, i => '0')) == Some(0)
  {
    var s := seq(zeros, i => '0');
    if zeros > 1 {
      assert s[..zeros - 1] == seq(zeros - 1, i => '0');
      OnlyZeros(zeros - 1);
    }
  }

  lemma {:induction false} DigitsNeeded(n: nat, limit: nat, width: nat)
    requires n < limit && limit == Power10(width) && width > 0
    ensures |FormatNat(n)| <= width
    decreases width
  {
    assert Power10(0) == 1;
    if n >= 10 {
      assert width > 1;
      DigitsNeeded(n / 10, Power10(width - 1), width - 1);
    }
  }

  function Power10(k: nat): nat {
    if k == 0 then 1 else 10 * Power10(k - 1)
  }

  lemma PaddedReads(n: nat, width: nat)
    requires (width == 2 && n < 100) || (width == 4 && n < 10000)
    ensures |Padded(n, width)| == width && ParseNat(Padded(n, width)) == Some(n)
  {
    assert Power10(1) == 10 && Power10(2) == 100 && Power10(3) == 1000 && Power10(4) == 10000;
    DigitsNeeded(n, Power10(width), width);
    FormatNatText(n);
    LeadingZeros(width - |FormatNat(n)|, FormatNat(n), n);
  }

  lemma SevenParts(y: string, mo: string, d: string, h: string, mi: string, se: string, s: string)
    requires |y| == 4 && |mo| == 2 && |d| == 2 && |h| == 2 && |mi| == 2 && |se| == 2
    requires s == y + mo + d + "T" + h + mi + se + "Z"
    ensures |s| == 16 && s[8] == 'T' && s[15] == 'Z' && s[..4] == y && s[4..6] == mo && s[6..8] == d
    ensures s[9..11] == h && s[11..13] == mi && s[13..15] == se
  {
  }

  /** Printed times read back. */
  lemma TimeReadsBack(t: Utc)
    requires IsUtc(t)
    ensures ReadTime(FormatTime(t)) == Some(t)
  {
    PaddedReads(t.year, 4);
    PaddedReads(t.month, 2);
    PaddedReads(t.day, 2);
    PaddedReads(t.hour, 2);
    PaddedReads(t.minute, 2);
    PaddedReads(t.second, 2);
    SevenParts(
      Padded(t.year, 4), Padded(t.month, 2), Padded(t.day, 2), Padded(t.hour, 2), Padded(t.minute, 2),
      Padded(t.second, 2), FormatTime(t));
  }

  // ----- Lines -----

  /** The two texts differ somewhere. */
  ghost predicate Unlike(name: string, prefix: string) {
    exists k :: 0 <= k < |name| && k < |prefix| && name[k] != prefix[k]
  }

  lemma UnlikeAt(name: string, prefix: string, k: nat)
    requires k < |name| && k < |prefix| && name[k] != prefix[k]
    ensures Unlike(name, prefix)
  {
  }

  lemma OtherName(name: string, prefix: string, value: string)
    requires Unlike(name, prefix)
    ensures !IsProperty(name, prefix + value) && !IsProperty(name, prefix)
  {
    var k :| 0 <= k < |name| && k < |prefix| && name[k] != prefix[k];
    if |name| <= |prefix + value| {
      assert (prefix + value)[..|name|][k] == prefix[k];
    }
    if |name| <= |prefix| {
      assert prefix[..|name|][k] == prefix[k];
    }
  }

  lemma LineValues(name: string, line: string)
    ensures Values(name, [line]) == if IsProperty(name, line) then [line[|name|..]] else []
  {
    assert [line][..0] == [] && Values(name, []) == [];
  }

  /** Of all lines exactly the k-th has the property. */
  lemma OneOf(name: string, lines: seq<string>, k: nat, value: string)
    requires k < |lines| && lines[k] == name + value
    requires forall i :: 0 <= i < |lines| && i != k ==> !IsProperty(name, lines[i])
    ensures Values(name, lines) == [value]
  {
    NoneOf(name, lines[..k]);
    NoneOf(name, lines[k + 1..]);
    OneValue(name, value);
    assert lines == lines[..k] + [lines[k]] + lines[k + 1..];
    ValuesConcat(name, lines[..k], [lines[k]]);
    ValuesConcat(name, lines[..k] + [lines[k]], lines[k + 1..]);
  }

  lemma {:induction false} NoneOf(name: string, lines: seq<string>)
    requires forall i :: 0 <= i < |lines| ==> !IsProperty(name, lines[i])
    ensures Values(name, lines) == []
  {
    if lines != [] {
      NoneOf(name, lines[..|lines| - 1]);
    }
  }

  // ----- Blocks -----

  /** The values of all blocks are the values of each, in order. */
  lemma {:induction false} ValuesOfBlocks(name: string, blocks: seq<seq<string>>, vs: seq<seq<string>>)
    requires |vs| == |blocks| && forall i :: 0 <= i < |blocks| ==> Values(name, blocks[i]) == vs[i]
    ensures Values(name, Concat(blocks)) == Concat(vs)
  {
    if blocks != [] {
      var k := |blocks| - 1;
      ValuesOfBlocks(name, blocks[..k], vs[..k]);
      ValuesConcat(name, Concat(blocks[..k]), blocks[k]);
    }
  }

  function Singles(values: seq<string>): seq<seq<string>> {
    seq(|values|, i requires 0 <= i < |values| => [values[i]])
  }

  /** Blocks of one value each. */
  lemma {:induction false} SinglesConcat(values: seq<string>)
    ensures Concat(Singles(values)) == values
  {
    if values != [] {
      var front := values[..|values| - 1];
      SinglesConcat(front);
      assert Singles(values)[..|values| - 1] == Singles(front);
    }
  }

  // ----- The lines of the feed, but for one kind -----

  /** The name is unlike the beginnings of all lines of an event, but for those of kind `own`. */
  ghost predicate UnlikeEventBut(name: string, own: nat) {
    && Unlike(name, "BEGIN:VEVENT") && (own == 1 || Unlike(name, "UID:maintenance-"))
    && (own == 2 || Unlike(name, "DTSTAMP:")) && (own == 3 || Unlike(name, "DTSTART:"))
    && (own == 4 || Unlike(name, "DTEND:")) && Unlike(name, "SUMMARY:")
    && (own == 6 || Unlike(name, "DESCRIPTION:"))
    && (own == 7 || Unlike(name, "STATUS:")) && (own == 8 || Unlike(name, "URL:")) && Unlike(name, "END:VEVENT")
  }

  ghost predicate UnlikeFrame(name: string) {
    && Unlike(name, "BEGIN:VCALENDAR") && Unlike(name, "VERSION:2.0")
    && Unlike(name, "PRODID:-//HealthPage//Maintenance//") && Unlike(name, "CALSCALE:GREGORIAN")
    && Unlike(name, "METHOD:PUBLISH") && Unlike(name, "X-WR-CALNAME:") && Unlike(name, "END:VCALENDAR")
  }

  lemma FrameIsOther(name: string, page: Page)
    requires UnlikeFrame(name)
    ensures forall i :: 0 <= i < |HeadLines(page)| ==> !IsProperty(name, HeadLines(page)[i])
    ensures !IsProperty(name, "END:VCALENDAR")
  {
    OtherName(name, "BEGIN:VCALENDAR", "");
    OtherName(name, "VERSION:2.0", "");
    OtherName(name, "PRODID:-//HealthPage//Maintenance//", LocaleLang(page.defaultLocale));
    OtherName(name, "CALSCALE:GREGORIAN", "");
    OtherName(name, "METHOD:PUBLISH", "");
    OtherName(name, "X-WR-CALNAME:", Escape(page.name + NAME_SUFFIX));
    OtherName(name, "END:VCALENDAR", "");
  }

  lemma OtherUid(name: string, prefix: string, id: string, suffix: string)
    requires Unlike(name, prefix)
    ensures !IsProperty(name, prefix + id + suffix)
  {
    OtherName(name, prefix, id + suffix);
    assert prefix + id + suffix == prefix + (id + suffix);
  }

  lemma OpeningIsOther(name: string, own: nat, m: Event, stamp: string)
    requires UnlikeEventBut(name, own)
    ensures |OpeningLines(m, stamp)| == 6
    ensures forall i :: 0 <= i < 6 && i != own ==> !IsProperty(name, OpeningLines(m, stamp)[i])
  {
    OtherName(name, "BEGIN:VEVENT", "");
    if own != 1 {
      OtherUid(name, "UID:maintenance-", FormatUuid(m.id), "@healthpage");
    }
    if own != 2 {
      OtherName(name, "DTSTAMP:", stamp);
    }
    if own != 3 {
      OtherName(name, "DTSTART:", FormatTime(m.start));
    }
    if own != 4 {
      OtherName(name, "DTEND:", FormatTime(m.end));
    }
    OtherName(name, "SUMMARY:", Escape(m.title));
    SixOther(
      name, own, "BEGIN:VEVENT", "UID:maintenance-" + FormatUuid(m.id) + "@healthpage", "DTSTAMP:" + stamp,
      "DTSTART:" + FormatTime(m.start), "DTEND:" + FormatTime(m.end), "SUMMARY:" + Escape(m.title),
      OpeningLines(m, stamp));
  }

  lemma SixOther(
    name: string, own: nat, a: string, b: string, c: string, d: string, e: string, f: string, lines: seq<string>)
    requires lines == [a, b, c, d, e, f] && !IsProperty(name, a) && !IsProperty(name, f)
    requires own == 1 || !IsProperty(name, b)
    requires own == 2 || !IsProperty(name, c)
    requires own == 3 || !IsProperty(name, d)
    requires own == 4 || !IsProperty(name, e)
    ensures |lines| == 6 && forall i :: 0 <= i < 6 && i != own ==> !IsProperty(name, lines[i])
  {
  }

  lemma ClosingIsOther(name: string, own: nat, m: Event, url: string)
    requires UnlikeEventBut(name, own)
    ensures own != 6 ==>
              forall i :: 0 <= i < |DescriptionLines(m)| ==> !IsProperty(name, DescriptionLines(m)[i])
    ensures |ClosingLines(m, url)| == 3
    ensures forall i :: 0 <= i < 3 && i + 7 != own ==> !IsProperty(name, ClosingLines(m, url)[i])
  {
    if own != 6 {
      OtherName(name, "DESCRIPTION:", Escape(m.description));
    }
    if own != 7 {
      OtherName(name, "STATUS:", StatusText(m.status));
    }
    if own != 8 {
      OtherName(name, "URL:", Escape(url));
    }
    OtherName(name, "END:VEVENT", "");
  }

  /** The block's one value of a property that stands in its opening. */
  lemma OpeningValue(name: string, own: nat, m: Event, stamp: string, url: string, value: string)
    requires UnlikeEventBut(name, own) && own < 6 && OpeningLines(m, stamp)[own] == name + value
    ensures Values(name, EventLines(m, stamp, url)) == [value]
  {
    OpeningIsOther(name, own, m, stamp);
    ClosingIsOther(name, own, m, url);
    NoneOf(name, DescriptionLines(m));
    NoneOf(name, ClosingLines(m, url));
    OneOf(name, OpeningLines(m, stamp), own, value);
    ValuesConcat(name, OpeningLines(m, stamp), DescriptionLines(m));
    ValuesConcat(name, OpeningLines(m, stamp) + DescriptionLines(m), ClosingLines(m, url));
  }

  lemma ClosingValue(name: string, own: nat, m: Event, stamp: string, url: string, value: string)
    requires UnlikeEventBut(name, own) && 7 <= own <= 8 && ClosingLines(m, url)[own - 7] == name + value
    ensures Values(name, EventLines(m, stamp, url)) == [value]
  {
    OpeningIsOther(name, own, m, stamp);
    ClosingIsOther(name, own, m, url);
    NoneOf(name, OpeningLines(m, stamp));
    NoneOf(name, DescriptionLines(m));
    OneOf(name, ClosingLines(m, url), own - 7, value);
    ValuesConcat(name, OpeningLines(m, stamp), DescriptionLines(m));
    ValuesConcat(name, OpeningLines(m, stamp) + DescriptionLines(m), ClosingLines(m, url));
  }

  lemma DescriptionValue(name: string, m: Event, stamp: string, url: string)
    requires UnlikeEventBut(name, 6) && name == "DESCRIPTION:"
    ensures Values(name, EventLines(m, stamp, url)) == if m.description != "" then [Escape(m.description)] else []
  {
    OpeningIsOther(name, 6, m, stamp);
    ClosingIsOther(name, 6, m, url);
    NoneOf(name, OpeningLines(m, stamp));
    NoneOf(name, ClosingLines(m, url));
    if m.description != "" {
      OneOf(name, DescriptionLines(m), 0, Escape(m.description));
    }
    ValuesConcat(name, OpeningLines(m, stamp), DescriptionLines(m));
    ValuesConcat(name, OpeningLines(m, stamp) + DescriptionLines(m), ClosingLines(m, url));
  }

  /** What the feed says under one property name is what its event blocks say. */
  lemma FeedValues(name: string, page: Page, ms: seq<Event>, baseUrl: string, now: Utc, vs: seq<seq<string>>)
    requires UnlikeFrame(name) && |vs| == |ms|
    requires forall i :: 0 <= i < |ms| ==>
               Values(name, EventLines(ms[i], FormatTime(now), PageUrl(baseUrl, page.slug) + "/maintenances")) == vs[i]
    ensures Values(name, Split(Unfold(Feed(page, ms, baseUrl, now)))) == Concat(vs)
  {
    FeedReadsBack(page, ms, baseUrl, now);
    FrameIsOther(name, page);
    var stamp, url := FormatTime(now), PageUrl(baseUrl, page.slug) + "/maintenances";
    var blocks := EventBlocks(ms, stamp, url);
    forall i | 0 <= i < |blocks| ensures Values(name, blocks[i]) == vs[i] {
      BlockOf(ms, stamp, url, i);
    }
    FramedValues(name, HeadLines(page), blocks, "END:VCALENDAR", vs);
  }

  lemma FramedValues(
    name: string, head: seq<string>, blocks: seq<seq<string>>, foot: string, vs: seq<seq<string>>)
    requires forall i :: 0 <= i < |head| ==> !IsProperty(name, head[i])
    requires !IsProperty(name, foot) && |vs| == |blocks|
    requires forall i :: 0 <= i < |blocks| ==> Values(name, blocks[i]) == vs[i]
    ensures Values(name, head + Concat(blocks) + [foot]) == Concat(vs)
  {
    NoneOf(name, head);
    LineValues(name, foot);
    ValuesOfBlocks(name, blocks, vs);
    ValuesOfThree(name, head, Concat(blocks), foot);
  }

  lemma ValuesOfThree(name: string, head: seq<string>, body: seq<string>, foot: string)
    requires Values(name, head) == [] && Values(name, [foot]) == []
    ensures Values(name, head + body + [foot]) == Values(name, body)
  {
    ValuesConcat(name, head, body);
    ValuesConcat(name, head + body, [foot]);
  }

  /** A property that every event has once: as many values as events, in their order. */
  lemma OnePerEvent(name: string, page: Page, ms: seq<Event>, baseUrl: string, now: Utc, values: seq<string>)
    requires UnlikeFrame(name) && |values| == |ms|
    requires var url := PageUrl(baseUrl, page.slug) + "/maintenances";
             forall i :: 0 <= i < |ms| ==> Values(name, EventLines(ms[i], FormatTime(now), url)) == [values[i]]
    ensures Values(name, Split(Unfold(Feed(page, ms, baseUrl, now)))) == values
  {
    SinglesConcat(values);
    FeedValues(name, page, ms, baseUrl, now, Singles(values));
  }

  // ----- Names -----

  lemma UidIsOnce()
    ensures UnlikeFrame("UID:") && UnlikeEventBut("UID:", 1)
  {
    FrameByFirst("UID:");
    EventByFirst("UID:", 1);
  }

  /** A name that begins like no line of the frame. */
  lemma FrameByFirst(name: string)
    requires name != "" && name[0] != 'B' && name[0] != 'V' && name[0] != 'P' && name[0] != 'C' && name[0] != 'M'
    requires name[0] != 'X' && name[0] != 'E'
    ensures UnlikeFrame(name)
  {
    UnlikeAt(name, "BEGIN:VCALENDAR", 0);
    UnlikeAt(name, "VERSION:2.0", 0);
    UnlikeAt(name, "PRODID:-//HealthPage//Maintenance//", 0);
    UnlikeAt(name, "CALSCALE:GREGORIAN", 0);
    UnlikeAt(name, "METHOD:PUBLISH", 0);
    UnlikeAt(name, "X-WR-CALNAME:", 0);
    UnlikeAt(name, "END:VCALENDAR", 0);
  }

  /** UID, STATUS and URL differ from the other lines of an event in their first two characters. */
  lemma EventByFirst(name: string, own: nat)
    requires (own == 1 && name == "UID:") || (own == 7 && name == "STATUS:") || (own == 8 && name == "URL:")
    ensures UnlikeEventBut(name, own)
  {
    UnlikeAt(name, "BEGIN:VEVENT", 0);
    UnlikeAt(name, "DTSTAMP:", 0);
    UnlikeAt(name, "DTSTART:", 0);
    UnlikeAt(name, "DTEND:", 0);
    UnlikeAt(name, "DESCRIPTION:", 0);
    UnlikeAt(name, "END:VEVENT", 0);
    UnlikeAt(name, "SUMMARY:", if own == 7 then 1 else 0);
    if own == 1 {
      UnlikeAt(name, "URL:", 1);
    } else {
      UnlikeAt(name, "UID:maintenance-", if own == 8 then 1 else 0);
    }
    if own != 7 {
      UnlikeAt(name, "STATUS:", 0);
    }
    if own == 7 {
      UnlikeAt(name, "URL:", 0);
    }
  }

  predicate IsDate(name: string, own: nat) {
    (own == 2 && name == "DTSTAMP:") || (own == 3 && name == "DTSTART:") || (own == 4 && name == "DTEND:")
    || (own == 6 && name == "DESCRIPTION:")
  }

  /** DTSTAMP, DTSTART, DTEND and DESCRIPTION differ from each other further on. */
  lemma DatesDiffer(name: string, own: nat)
    requires IsDate(name, own)
    ensures own == 2 || Unlike(name, "DTSTAMP:")
    ensures own == 3 || Unlike(name, "DTSTART:")
    ensures own == 4 || Unlike(name, "DTEND:")
    ensures own == 6 || Unlike(name, "DESCRIPTION:")
  {
    if own == 2 {
      UnlikeAt(name, "DTSTART:", 5);
      UnlikeAt(name, "DTEND:", 2);
      UnlikeAt(name, "DESCRIPTION:", 1);
    } else if own == 3 {
      UnlikeAt(name, "DTSTAMP:", 5);
      UnlikeAt(name, "DTEND:", 2);
      UnlikeAt(name, "DESCRIPTION:", 1);
    } else if own == 4 {
      UnlikeAt(name, "DTSTAMP:", 2);
      UnlikeAt(name, "DTSTART:", 2);
      UnlikeAt(name, "DESCRIPTION:", 1);
    } else {
      UnlikeAt(name, "DTSTAMP:", 1);
      UnlikeAt(name, "DTSTART:", 1);
      UnlikeAt(name, "DTEND:", 1);
    }
  }

  lemma BeginsWithD(name: string)
    requires name != "" && name[0] == 'D'
    ensures Unlike(name, "BEGIN:VEVENT") && Unlike(name, "UID:maintenance-") && Unlike(name, "SUMMARY:")
    ensures Unlike(name, "STATUS:") && Unlike(name, "URL:") && Unlike(name, "END:VEVENT")
  {
    UnlikeAt(name, "BEGIN:VEVENT", 0);
    UnlikeAt(name, "UID:maintenance-", 0);
    UnlikeAt(name, "SUMMARY:", 0);
    UnlikeAt(name, "STATUS:", 0);
    UnlikeAt(name, "URL:", 0);
    UnlikeAt(name, "END:VEVENT", 0);
  }

  lemma DatesAreOnce(name: string, own: nat)
    requires IsDate(name, own)
    ensures UnlikeEventBut(name, own) && UnlikeFrame(name)
  {
    assert name[0] == 'D';
    FrameByFirst(name);
    BeginsWithD(name);
    DatesDiffer(name, own);
  }

  // ----- Reading the events -----

  /** The values a reader of the feed finds under a name. */
  function ReadValues(name: string, page: Page, ms: seq<Event>, baseUrl: string, now: Utc): seq<string> {
    Values(name, Split(Unfold(Feed(page, ms, baseUrl, now))))
  }

  /** Main result: the starts and ends, and the time of the feed, are read back for every maintenance, in order. */
  lemma TimesComeBack(page: Page, ms: seq<Event>, baseUrl: string, now: Utc, i: nat)
    requires i < |ms| && IsUtc(ms[i].start) && IsUtc(ms[i].end) && IsUtc(now)
    ensures |ReadValues("DTSTART:", page, ms, baseUrl, now)| == |ms|
    ensures |ReadValues("DTEND:", page, ms, baseUrl, now)| == |ms|
    ensures |ReadValues("DTSTAMP:", page, ms, baseUrl, now)| == |ms|
    ensures ReadTime(ReadValues("DTSTART:", page, ms, baseUrl, now)[i]) == Some(ms[i].start)
    ensures ReadTime(ReadValues("DTEND:", page, ms, baseUrl, now)[i]) == Some(ms[i].end)
    ensures ReadTime(ReadValues("DTSTAMP:", page, ms, baseUrl, now)[i]) == Some(now)
  {
    StartsComeBack(page, ms, baseUrl, now);
    EndsComeBack(page, ms, baseUrl, now);
    StampsComeBack(page, ms, baseUrl, now);
    TimeReadsBack(ms[i].start);
    TimeReadsBack(ms[i].end);
    TimeReadsBack(now);
  }

  lemma StartValue(name: string, m: Event, stamp: string, url: string)
    requires name == "DTSTART:" && UnlikeEventBut(name, 3)
    ensures Values(name, EventLines(m, stamp, url)) == [FormatTime(m.start)]
  {
    OpeningValue(name, 3, m, stamp, url, FormatTime(m.start));
  }

  lemma EndValue(name: string, m: Event, stamp: string, url: string)
    requires name == "DTEND:" && UnlikeEventBut(name, 4)
    ensures Values(name, EventLines(m, stamp, url)) == [FormatTime(m.end)]
  {
    OpeningValue(name, 4, m, stamp, url, FormatTime(m.end));
  }

  lemma StartsComeBack(page: Page, ms: seq<Event>, baseUrl: string, now: Utc)
    ensures ReadValues("DTSTART:", page, ms, baseUrl, now) ==
            seq(|ms|, i requires 0 <= i < |ms| => FormatTime(ms[i].start))
  {
    var stamp, url := FormatTime(now), PageUrl(baseUrl, page.slug) + "/maintenances";
    DatesAreOnce("DTSTART:", 3);
    forall i | 0 <= i < |ms| ensures Values("DTSTART:", EventLines(ms[i], stamp, url)) == [FormatTime(ms[i].start)] {
      StartValue("DTSTART:", ms[i], stamp, url);
    }
    OnePerEvent("DTSTART:", page, ms, baseUrl, now, seq(|ms|, i requires 0 <= i < |ms| => FormatTime(ms[i].start)));
  }

  lemma EndsComeBack(page: Page, ms: seq<Event>, baseUrl: string, now: Utc)
    ensures ReadValues("DTEND:", page, ms, baseUrl, now) ==
            seq(|ms|, i requires 0 <= i < |ms| => FormatTime(ms[i].end))
  {
    var stamp, url := FormatTime(now), PageUrl(baseUrl, page.slug) + "/maintenances";
    DatesAreOnce("DTEND:", 4);
    forall i | 0 <= i < |ms| ensures Values("DTEND:", EventLines(ms[i], stamp, url)) == [FormatTime(ms[i].end)] {
      EndValue("DTEND:", ms[i], stamp, url);
    }
    OnePerEvent("DTEND:", page, ms, baseUrl, now, seq(|ms|, i requires 0 <= i < |ms| => FormatTime(ms[i].end)));
  }

  lemma StampsComeBack(page: Page, ms: seq<Event>, baseUrl: string, now: Utc)
    ensures ReadValues("DTSTAMP:", page, ms, baseUrl, now) == seq(|ms|, i => FormatTime(now))
  {
    var stamp, url := FormatTime(now), PageUrl(baseUrl, page.slug) + "/maintenances";
    DatesAreOnce("DTSTAMP:", 2);
    forall i | 0 <= i < |ms| ensures Values("DTSTAMP:", EventLines(ms[i], stamp, url)) == [FormatTime(now)] {
      OpeningValue("DTSTAMP:", 2, ms[i], stamp, url, stamp);
    }
    OnePerEvent("DTSTAMP:", page, ms, baseUrl, now, seq(|ms|, i => FormatTime(now)));
  }

  /** The id in a UID. */
  function ReadUid(s: string): Option<Uuid> {
    if |s| == 59 && s[..12] == "maintenance-" && s[48..] == "@healthpage" then ParseUuid(s[12..48]) else None
  }

  lemma UidReadsBack(id: Uuid)
    ensures ReadUid("maintenance-" + FormatUuid(id) + "@healthpage") == Some(id)
  {
    Uuids.FormatThenParse(id);
    FormatLength(id);
    var s := "maintenance-" + FormatUuid(id) + "@healthpage";
    assert s[..12] == "maintenance-" && s[12..48] == FormatUuid(id) && s[48..] == "@healthpage";
  }

  function UidOf(m: Event): string {
    "maintenance-" + FormatUuid(m.id) + "@healthpage"
  }

  /** Main result: every event carries the id of its maintenance, and says whether it is only planned. */
  lemma IdsComeBack(page: Page, ms: seq<Event>, baseUrl: string, now: Utc, i: nat)
    requires i < |ms|
    ensures |ReadValues("UID:", page, ms, baseUrl, now)| == |ms|
    ensures |ReadValues("STATUS:", page, ms, baseUrl, now)| == |ms|
    ensures ReadUid(ReadValues("UID:", page, ms, baseUrl, now)[i]) == Some(ms[i].id)
    ensures ReadValues("STATUS:", page, ms, baseUrl, now)[i] ==
            if ms[i].status == Scheduled then "TENTATIVE" else "CONFIRMED"
  {
    UidsComeBack(page, ms, baseUrl, now);
    StatesComeBack(page, ms, baseUrl, now);
    UidReadsBack(ms[i].id);
  }

  lemma UidsComeBack(page: Page, ms: seq<Event>, baseUrl: string, now: Utc)
    ensures ReadValues("UID:", page, ms, baseUrl, now) == seq(|ms|, i requires 0 <= i < |ms| => UidOf(ms[i]))
  {
    var stamp, url := FormatTime(now), PageUrl(baseUrl, page.slug) + "/maintenances";
    UidIsOnce();
    forall i | 0 <= i < |ms| ensures Values("UID:", EventLines(ms[i], stamp, url)) == [UidOf(ms[i])] {
      UidValue("UID:", ms[i], stamp, url);
    }
    OnePerEvent("UID:", page, ms, baseUrl, now, seq(|ms|, i requires 0 <= i < |ms| => UidOf(ms[i])));
  }

  lemma UidValue(name: string, m: Event, stamp: string, url: string)
    requires name == "UID:" && UnlikeEventBut(name, 1)
    ensures Values(name, EventLines(m, stamp, url)) == [UidOf(m)]
  {
    UidLine(m.id, OpeningLines(m, stamp)[1]);
    OpeningValue(name, 1, m, stamp, url, UidOf(m));
  }

  lemma UidLine(id: Uuid, line: string)
    requires line == "UID:maintenance-" + FormatUuid(id) + "@healthpage"
    ensures line == "UID:" + ("maintenance-" + FormatUuid(id) + "@healthpage")
  {
    assert "UID:maintenance-" == "UID:" + "maintenance-";
  }

  lemma StatesComeBack(page: Page, ms: seq<Event>, baseUrl: string, now: Utc)
    ensures ReadValues("STATUS:", page, ms, baseUrl, now) ==
            seq(|ms|, i requires 0 <= i < |ms| => StatusText(ms[i].status))
  {
    var stamp, url := FormatTime(now), PageUrl(baseUrl, page.slug) + "/maintenances";
    FrameByFirst("STATUS:");
    EventByFirst("STATUS:", 7);
    forall i | 0 <= i < |ms| ensures Values("STATUS:", EventLines(ms[i], stamp, url)) == [StatusText(ms[i].status)] {
      ClosingValue("STATUS:", 7, ms[i], stamp, url, StatusText(ms[i].status));
    }
    OnePerEvent("STATUS:", page, ms, baseUrl, now, seq(|ms|, i requires 0 <= i < |ms| => StatusText(ms[i].status)));
  }

  /** The base address without the slashes at its end. */
  lemma {:induction false} TrimmedIsBase(baseUrl: string)
    ensures TrimSlashes(baseUrl) <= baseUrl
    ensures forall i :: |TrimSlashes(baseUrl)| <= i < |baseUrl| ==> baseUrl[i] == '/'
    ensures TrimSlashes(baseUrl) != "" ==> TrimSlashes(baseUrl)[|TrimSlashes(baseUrl)| - 1] != '/'
  {
    if baseUrl != "" && baseUrl[|baseUrl| - 1] == '/' {
      TrimmedIsBase(baseUrl[..|baseUrl| - 1]);
    }
  }

  /** Every event links to the maintenances of the page. */
  lemma LinksComeBack(page: Page, ms: seq<Event>, baseUrl: string, now: Utc, i: nat)
    requires i < |ms|
    ensures |ReadValues("URL:", page, ms, baseUrl, now)| == |ms|
    ensures Unescape(ReadValues("URL:", page, ms, baseUrl, now)[i]) ==
            WithoutCr(TrimSlashes(baseUrl) + "/status/" + page.slug + "/maintenances")
  {
    var stamp, url := FormatTime(now), PageUrl(baseUrl, page.slug) + "/maintenances";
    FrameByFirst("URL:");
    EventByFirst("URL:", 8);
    forall k | 0 <= k < |ms| ensures Values("URL:", EventLines(ms[k], stamp, url)) == [Escape(url)] {
      ClosingValue("URL:", 8, ms[k], stamp, url, Escape(url));
    }
    OnePerEvent("URL:", page, ms, baseUrl, now, seq(|ms|, k => Escape(url)));
    UnescapeEscape(url);
  }

  /** The descriptions there are, in order. */
  function Descriptions(ms: seq<Event>): seq<string> {
    if ms == [] then []
    else Descriptions(ms[..|ms| - 1]) +
         if ms[|ms| - 1].description != "" then [WithoutCr(ms[|ms| - 1].description)] else []
  }

  function Unescaped(values: seq<string>): seq<string> {
    seq(|values|, i requires 0 <= i < |values| => Unescape(values[i]))
  }

  function DescriptionsOf(ms: seq<Event>): seq<seq<string>> {
    seq(|ms|, i requires 0 <= i < |ms| => if ms[i].description != "" then [Escape(ms[i].description)] else [])
  }

  lemma {:induction false} DescriptionsUnescape(ms: seq<Event>)
    ensures Unescaped(Concat(DescriptionsOf(ms))) == Descriptions(ms)
  {
    if ms != [] {
      var front, last := ms[..|ms| - 1], ms[|ms| - 1];
      DescriptionsUnescape(front);
      assert DescriptionsOf(ms)[..|ms| - 1] == DescriptionsOf(front);
      UnescapeEscape(last.description);
    }
  }

  /** Main result: the descriptions that are not empty come back in order, without carriage returns. */
  lemma DescriptionsComeBack(page: Page, ms: seq<Event>, baseUrl: string, now: Utc)
    ensures Unescaped(ReadValues("DESCRIPTION:", page, ms, baseUrl, now)) == Descriptions(ms)
  {
    var stamp, url := FormatTime(now), PageUrl(baseUrl, page.slug) + "/maintenances";
    DatesAreOnce("DESCRIPTION:", 6);
    forall i | 0 <= i < |ms| ensures Values("DESCRIPTION:", EventLines(ms[i], stamp, url)) == DescriptionsOf(ms)[i] {
      DescriptionValue("DESCRIPTION:", ms[i], stamp, url);
    }
    FeedValues("DESCRIPTION:", page, ms, baseUrl, now, DescriptionsOf(ms));
    DescriptionsUnescape(ms);
  }

  // ----- The calendar around the events -----

  /** The feed is one calendar of version 2.0 with the page's name. */
  lemma CalendarReadsBack(page: Page, ms: seq<Event>, baseUrl: string, now: Utc)
    ensures var lines := Split(Unfold(Feed(page, ms, baseUrl, now)));
            && |lines| >= 7 && lines[0] == "BEGIN:VCALENDAR" && lines[1] == "VERSION:2.0"
            && lines[|lines| - 1] == "END:VCALENDAR"
            && IsProperty("X-WR-CALNAME:", lines[5])
            && Unescape(lines[5][13..]) == WithoutCr(page.name + " \U{E2}\U{80}\U{94} maintenance")
  {
    FeedReadsBack(page, ms, baseUrl, now);
    HeadReadsBack(page, HeadLines(page));
    FrameLines(
      HeadLines(page), Concat(EventBlocks(ms, FormatTime(now), PageUrl(baseUrl, page.slug) + "/maintenances")),
      "END:VCALENDAR");
  }

  lemma HeadReadsBack(page: Page, head: seq<string>)
    requires head == HeadLines(page)
    ensures |head| == 6 && head[0] == "BEGIN:VCALENDAR" && head[1] == "VERSION:2.0"
    ensures IsProperty("X-WR-CALNAME:", head[5])
    ensures Unescape(head[5][13..]) == WithoutCr(page.name + " \U{E2}\U{80}\U{94} maintenance")
  {
    NameReadsBack("X-WR-CALNAME:", page.name + NAME_SUFFIX, head[5]);
  }

  lemma FrameLines(head: seq<string>, body: seq<string>, foot: string)
    requires |head| == 6
    ensures var lines := head + body + [foot];
            |lines| == |body| + 7 && lines[|lines| - 1] == foot && forall i :: 0 <= i < 6 ==> lines[i] == head[i]
  {
  }

  lemma NameReadsBack(property: string, name: string, line: string)
    requires line == property + Escape(name)
    ensures IsProperty(property, line) && Unescape(line[|property|..]) == WithoutCr(name)
  {
    UnescapeEscape(name);
    assert line[|property|..] == Escape(name);
  }
}
