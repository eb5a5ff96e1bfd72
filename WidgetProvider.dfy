/**
 * The home-screen widget's timeline provider: it shows the most recently saved
 * parking spot with how long ago it was saved, or an empty entry when there is
 * none, and asks to be refreshed a quarter of an hour later.
 */
module ParkedLocationWidget {
  import opened Wrappers
  import opened Numerics
  import opened Foreign
  import opened ParkedLocations

  /** The widget's fixed heading. */
  const WidgetTitle: string := "나의 주차위치"

  /** The timeline asks for its next entry this many seconds after now. */
  const RefreshInterval: real := 15.0 * 60.0

  /** What the widget shows; the map snapshot is not modelled. */
  datatype ParkedLocationEntry = ParkedLocationEntry(
    date: Date, title: string, address: string, timeElapsedText: string,
    coordinate: Option<Coordinate>, hasParkedLocation: bool)

  datatype Timeline = Timeline(entries: seq<ParkedLocationEntry>, refreshAfter: Date)

  // ---- Choosing the record ----

  /**
   * The position of the record with the latest `savedDate`; the first such
   * record when several share it. None exactly when there are no records.
   */
  function LatestIndex(records: seq<ParkedLocation>): (r: Option<nat>)
    reads records
    ensures r.None? <==> records == []
    ensures r.Some? ==> r.value < |records|
    ensures r.Some? ==> forall j :: 0 <= j < |records| ==> records[j].savedDate <= records[r.value].savedDate
    ensures r.Some? ==> forall j :: 0 <= j < r.value ==> records[j].savedDate < records[r.value].savedDate
  {
    if records == [] then None
    else
      var last := |records| - 1;
      match LatestIndex(records[..last])
      case None => Some(last)
      case Some(i) => if records[last].savedDate > records[i].savedDate then Some(last) else Some(i)
  }

  // ---- The elapsed-time text ----

  const MinutesSuffix: string := "분경과"
  const HoursSuffix: string := "시간경과"
  const HoursSeparator: string := "시간 "

  /** Whole minutes between the saved date and now: `Int(interval) / 60`, both rounding toward zero. */
  function ElapsedMinutes(now: Date, savedDate: Date): (m: int)
    ensures now >= savedDate ==> 60.0 * m as real <= now - savedDate < 60.0 * (m + 1) as real
    ensures now < savedDate ==> 60.0 * (m - 1) as real < now - savedDate <= 60.0 * m as real
  {
    TruncDiv(Trunc(now - savedDate), 60)
  }

  /**
   * The text for `m` elapsed minutes: "{m}분경과" under an hour, "{h}시간경과"
   * on a whole hour, "{h}시간 {m}분경과" otherwise. Reading it back gives `m`.
   */
  function ElapsedText(m: int): (t: string)
    ensures ParseElapsed(t) == Some(m)
  {
    if m < 60 then
      MinutesTextRoundTrip(m);
      Decimal(m) + MinutesSuffix
    else
      // m is positive here, so Swift's truncating `/` and `%` agree with Dafny's.
      var hours := m / 60;
      var minutes := m % 60;
      if minutes == 0 then
        HoursTextRoundTrip(hours);
        Decimal(hours) + HoursSuffix
      else
        HoursMinutesTextRoundTrip(hours, minutes);
        Decimal(hours) + HoursSeparator + Decimal(minutes) + MinutesSuffix
  }

  predicate EndsWith(t: string, suffix: string) {
    |suffix| <= |t| && t[|t| - |suffix|..] == suffix
  }

  /** The first position of `c` in `s`, if any. */
  function IndexOf(s: string, c: char): (r: Option<nat>)
    ensures r.None? ==> c !in s
    ensures r.Some? ==> r.value < |s| && s[r.value] == c && c !in s[..r.value]
  {
    if s == [] then None
    else if s[0] == c then Some(0)
    else
      match IndexOf(s[1..], c)
      case None => None
      case Some(i) =>
        assert s[..i + 1] == [s[0]] + s[1..][..i];
        Some(i + 1)
  }

  /** Reads an elapsed-time text back into minutes; None when it is not one. */
  function ParseElapsed(t: string): Option<int> {
    if EndsWith(t, HoursSuffix) then
      match ParseDecimal(t[..|t| - |HoursSuffix|])
      case Some(h) => Some(h * 60)
      case None => None
    else if EndsWith(t, MinutesSuffix) then
      ParseMinutesBody(t[..|t| - |MinutesSuffix|])
    else None
  }

  /** The part before "분경과": either "{m}" or "{h}시간 {m}". */
  function ParseMinutesBody(body: string): Option<int> {
    match IndexOf(body, '시')
    case None => ParseDecimal(body)
    case Some(k) =>
      if k + |HoursSeparator| <= |body| && body[k..k + |HoursSeparator|] == HoursSeparator then
        match (ParseDecimal(body[..k]), ParseDecimal(body[k + |HoursSeparator|..]))
        case (Some(h), Some(mm)) => Some(h * 60 + mm)
        case _ => None
      else None
  }

  lemma DecimalHasNoHourMark(n: int)
    ensures '시' !in Decimal(n)
  {
    var s := Decimal(n);
    forall i | 0 <= i < |s| ensures s[i] != '시' {
      if i > 0 {
        assert s[1..][i - 1] == s[i];
      }
    }
  }

  /** A text whose third-last character is '분' does not end in "시간경과". */
  lemma NotHoursText(t: string)
    requires |t| >= 3 && t[|t| - 3] == '분'
    ensures !EndsWith(t, HoursSuffix)
  {
    if |t| >= 4 {
      assert t[|t| - 4..][1] == t[|t| - 3];
    }
  }

  lemma {:induction false} IndexOfAfter(a: string, b: string, c: char)
    requires c !in a && |b| > 0 && b[0] == c
    ensures IndexOf(a + b, c) == Some(|a|)
  {
    if a != [] {
      assert (a + b)[1..] == a[1..] + b;
      IndexOfAfter(a[1..], b, c);
    }
  }

  lemma MinutesTextRoundTrip(m: int)
    ensures ParseElapsed(Decimal(m) + MinutesSuffix) == Some(m)
  {
    var t := Decimal(m) + MinutesSuffix;
    assert t[|t| - 3] == '분';
    NotHoursText(t);
    assert t[..|t| - |MinutesSuffix|] == Decimal(m);
    assert t[|t| - |MinutesSuffix|..] == MinutesSuffix;
    DecimalHasNoHourMark(m);
  }

  lemma HoursTextRoundTrip(h: int)
    ensures ParseElapsed(Decimal(h) + HoursSuffix) == Some(h * 60)
  {
    var t := Decimal(h) + HoursSuffix;
    assert t[|t| - |HoursSuffix|..] == HoursSuffix;
    assert t[..|t| - |HoursSuffix|] == Decimal(h);
  }

  lemma HoursMinutesBody(a: string, b: string, h: int, mm: int)
    requires '시' !in a && ParseDecimal(a) == Some(h) && ParseDecimal(b) == Some(mm)
    ensures ParseMinutesBody(a + HoursSeparator + b) == Some(h * 60 + mm)
  {
    var body := a + HoursSeparator + b;
    var k := |a|;
    assert body == a + (HoursSeparator + b);
    IndexOfAfter(a, HoursSeparator + b, '시');
    assert body[..k] == a;
    assert body[k..k + |HoursSeparator|] == HoursSeparator;
    assert body[k + |HoursSeparator|..] == b;
  }

  lemma HoursMinutesTextRoundTrip(h: int, mm: int)
    ensures ParseElapsed(Decimal(h) + HoursSeparator + Decimal(mm) + MinutesSuffix) == Some(h * 60 + mm)
  {
    var body := Decimal(h) + HoursSeparator + Decimal(mm);
    var t := body + MinutesSuffix;
    assert t[|t| - 3] == '분';
    NotHoursText(t);
    assert t[|t| - |MinutesSuffix|..] == MinutesSuffix;
    assert t[..|t| - |MinutesSuffix|] == body;
    DecimalHasNoHourMark(h);
    HoursMinutesBody(Decimal(h), Decimal(mm), h, mm);
  }

  /** Different elapsed minutes never show the same text. */
  lemma ElapsedTextInjective(m: int, n: int)
    requires ElapsedText(m) == ElapsedText(n)
    ensures m == n
  {
    assert ParseElapsed(ElapsedText(m)) == Some(m);
  }

  /** From an hour on, the text leads with the whole hours. */
  lemma ElapsedTextShowsHours(m: int)
    requires m >= 60
    ensures |Decimal(m / 60)| < |ElapsedText(m)|
    ensures ElapsedText(m)[..|Decimal(m / 60)|] == Decimal(m / 60)
    ensures m % 60 == 0 <==> EndsWith(ElapsedText(m), HoursSuffix)
  {
    var t := ElapsedText(m);
    var d := Decimal(m / 60);
    if m % 60 == 0 {
      assert t == d + HoursSuffix;
      assert t[..|d|] == d;
      assert t[|t| - |HoursSuffix|..] == HoursSuffix;
    } else {
      var mm := Decimal(m % 60);
      assert t == d + HoursSeparator + mm + MinutesSuffix;
      assert t[..|d|] == d;
      assert t[|t| - 3] == '분';
      NotHoursText(t);
    }
  }

  // ---- The entry ----

  /**
   * `fetchParkedLocationEntry`: when the app-group store opens and holds a
   * record, the entry for the latest one; otherwise the empty entry. A stored
   * record always has both coordinates, so the coordinate is always present.
   */
  function FetchEntry(storeOpened: bool, records: seq<ParkedLocation>, now: Date): (e: ParkedLocationEntry)
    reads records
    ensures e.date == now && e.title == WidgetTitle
    ensures e.hasParkedLocation <==> storeOpened && records != []
    ensures !e.hasParkedLocation ==> e.address == "" && e.timeElapsedText == "" && e.coordinate == None
    ensures e.hasParkedLocation ==>
      exists i :: 0 <= i < |records|
        && (forall j :: 0 <= j < |records| ==> records[j].savedDate <= records[i].savedDate)
        && e.address == records[i].title
        && e.timeElapsedText == ElapsedText(ElapsedMinutes(now, records[i].savedDate))
        && e.coordinate == Some(Coordinate(records[i].latitude, records[i].longitude))
  {
    if !storeOpened || records == [] then
      ParkedLocationEntry(now, WidgetTitle, "", "", None, false)
    else
      var i := LatestIndex(records).value;
      var location := records[i];
      ParkedLocationEntry(now, WidgetTitle, location.title,
                          ElapsedText(ElapsedMinutes(now, location.savedDate)),
                          Some(Coordinate(location.latitude, location.longitude)), true)
  }

  /** `getTimeline`: the one entry, to be replaced a quarter of an hour from now. */
  function GetTimeline(storeOpened: bool, records: seq<ParkedLocation>, now: Date): (t: Timeline)
    reads records
    ensures |t.entries| == 1 && t.entries[0] == FetchEntry(storeOpened, records, now)
    ensures t.refreshAfter > now && t.refreshAfter - now == 900.0
  {
    Timeline([FetchEntry(storeOpened, records, now)], now + RefreshInterval)
  }
}
