/**
 * The decisions the main map's view model makes when the camera or a filter
 * changes: raw pins near the centre when zoomed in, geohash buckets when zoomed
 * out, each kind only while its filter is on; and the tidying of the
 * reverse-geocoded address shown in the bottom sheet.
 *
 * The nearby raw pins come from repository queries whose code is not part of
 * this model; they are inputs here. Each function returns what the sink sends.
 */
module MainViewModel {
  import opened Wrappers
  import opened Grouping
  import opened SafeParkingAreas
  import opened NoParkingAreas
  import opened ClusterAnnotations
  import opened Clustering

  /** Above this altitude, in metres, the map shows buckets instead of pins. */
  const ClusterAltitude: real := 10000.0

  /** What the camera sink sends on the safe, danger and cluster subjects. */
  datatype CameraEmission<S, D> = CameraEmission(safe: seq<S>, danger: seq<D>, clusters: seq<ClusterAnnotation>)

  /** Each summary as a bucket pin with the given identifier, in order. */
  function ClusterPins(ss: seq<ClusterSummary>, identifier: string): (r: seq<ClusterAnnotation>)
    ensures |r| == |ss|
    ensures forall i :: 0 <= i < |ss| ==> r[i] == ClusterAnnotation(identifier, ss[i].coordinate, ss[i].count)
  {
    if ss == [] then [] else [ClusterAnnotation(identifier, ss[0].coordinate, ss[0].count)] + ClusterPins(ss[1..], identifier)
  }

  /** The bucket pins sent when zoomed out: safe buckets while that filter is on, then danger buckets likewise. */
  function BucketPins(safeFilter: bool, dangerFilter: bool,
                      safeSummaries: seq<ClusterSummary>, dangerSummaries: seq<ClusterSummary>): (r: seq<ClusterAnnotation>)
    ensures |r| == (if safeFilter then |safeSummaries| else 0) + (if dangerFilter then |dangerSummaries| else 0)
    ensures safeFilter ==> forall i :: 0 <= i < |safeSummaries| ==>
      r[i] == ClusterAnnotation("safeCluster", safeSummaries[i].coordinate, safeSummaries[i].count)
    ensures dangerFilter ==> forall i :: 0 <= i < |dangerSummaries| ==>
      r[|r| - |dangerSummaries| + i] == ClusterAnnotation("dangerCluster", dangerSummaries[i].coordinate, dangerSummaries[i].count)
  {
    (if safeFilter then ClusterPins(safeSummaries, "safeCluster") else [])
      + (if dangerFilter then ClusterPins(dangerSummaries, "dangerCluster") else [])
  }

  /**
   * The camera sink. At or below 10000 m: no buckets, and each kind's nearby
   * pins only while its filter is on. Above: no pins, and the buckets of each
   * kind whose filter is on, safe buckets first.
   */
  function CameraOutput<S, D>(altitude: real, safeFilter: bool, dangerFilter: bool,
                              safeNearby: seq<S>, dangerNearby: seq<D>,
                              safeAll: seq<SafeParkingArea>, dangerAll: seq<NoParkingArea>): (e: CameraEmission<S, D>)
    reads safeAll, dangerAll
    ensures e.clusters == [] || (e.safe == [] && e.danger == [])
    ensures altitude <= ClusterAltitude ==> e.clusters == []
    ensures altitude > ClusterAltitude ==> e.safe == [] && e.danger == []
    ensures !safeFilter ==> e.safe == []
    ensures !dangerFilter ==> e.danger == []
    ensures altitude <= ClusterAltitude && safeFilter ==> e.safe == safeNearby
    ensures altitude <= ClusterAltitude && dangerFilter ==> e.danger == dangerNearby
    ensures altitude > ClusterAltitude ==>
      e.clusters == BucketPins(safeFilter, dangerFilter, Summaries(SafeEntries(safeAll, 5)), Summaries(DangerEntries(dangerAll, 5)))
  {
    if altitude <= 10000.0 then
      CameraEmission(if safeFilter then safeNearby else [], if dangerFilter then dangerNearby else [], [])
    else
      CameraEmission([], [], BucketPins(safeFilter, dangerFilter,
                                        Summaries(SafeEntries(safeAll, 5)),
                                        Summaries(DangerEntries(dangerAll, 5))))
  }

  /**
   * Every bucket pin is a safe or a danger bucket, a kind appears only while
   * its filter is on, and all safe buckets come before all danger buckets.
   */
  lemma BucketPinOrder(safeFilter: bool, dangerFilter: bool,
                       safeSummaries: seq<ClusterSummary>, dangerSummaries: seq<ClusterSummary>)
    ensures var pins := BucketPins(safeFilter, dangerFilter, safeSummaries, dangerSummaries);
      && (forall i :: 0 <= i < |pins| ==>
            (pins[i].identifier == "safeCluster" && safeFilter) || (pins[i].identifier == "dangerCluster" && dangerFilter))
      && (forall i, j :: 0 <= i < j < |pins| && pins[j].identifier == "safeCluster" ==> pins[i].identifier == "safeCluster")
  {
    var safePins := if safeFilter then ClusterPins(safeSummaries, "safeCluster") else [];
    var dangerPins := if dangerFilter then ClusterPins(dangerSummaries, "dangerCluster") else [];
    var pins := safePins + dangerPins;
    forall i | 0 <= i < |pins|
      ensures (pins[i].identifier == "safeCluster" && safeFilter) || (pins[i].identifier == "dangerCluster" && dangerFilter)
      ensures pins[i].identifier == "safeCluster" <==> i < |safePins|
    {
      if i < |safePins| {
        assert pins[i] == safePins[i];
      } else {
        assert pins[i] == dangerPins[i - |safePins|];
      }
    }
  }

  function PinCounts(pins: seq<ClusterAnnotation>): int {
    if pins == [] then 0 else pins[0].count + PinCounts(pins[1..])
  }

  lemma {:induction false} PinCountsAppend(a: seq<ClusterAnnotation>, b: seq<ClusterAnnotation>)
    ensures PinCounts(a + b) == PinCounts(a) + PinCounts(b)
  {
    if a == [] {
      assert a + b == b;
    } else {
      assert (a + b)[1..] == a[1..] + b;
      PinCountsAppend(a[1..], b);
    }
  }

  lemma {:induction false} ClusterPinsCount(ss: seq<ClusterSummary>, identifier: string)
    ensures PinCounts(ClusterPins(ss, identifier)) == SumCounts(ss)
  {
    if ss != [] {
      assert ClusterPins(ss, identifier)[1..] == ClusterPins(ss[1..], identifier);
      ClusterPinsCount(ss[1..], identifier);
    }
  }

  /**
   * Zoomed out, the bucket pins account for every record of each kind whose
   * filter is on, each record exactly once.
   */
  lemma ZoomedOutPinsCountRecords<S, D>(altitude: real, safeFilter: bool, dangerFilter: bool,
                                        safeNearby: seq<S>, dangerNearby: seq<D>,
                                        safeAll: seq<SafeParkingArea>, dangerAll: seq<NoParkingArea>)
    requires altitude > ClusterAltitude
    ensures PinCounts(CameraOutput(altitude, safeFilter, dangerFilter, safeNearby, dangerNearby, safeAll, dangerAll).clusters)
         == (if safeFilter then |safeAll| else 0) + (if dangerFilter then |dangerAll| else 0)
  {
    var safeEs := SafeEntries(safeAll, DefaultPrecision);
    var dangerEs := DangerEntries(dangerAll, DefaultPrecision);
    ClusterPinsCount(Summaries(safeEs), "safeCluster");
    ClusterPinsCount(Summaries(dangerEs), "dangerCluster");
    SummariesPartition(safeEs);
    SummariesPartition(dangerEs);
    var safePins := if safeFilter then ClusterPins(Summaries(safeEs), "safeCluster") else [];
    var dangerPins := if dangerFilter then ClusterPins(Summaries(dangerEs), "dangerCluster") else [];
    PinCountsAppend(safePins, dangerPins);
  }

  /**
   * The safe-filter sink: above 10000 m it sends nothing at all; otherwise the
   * nearby safe pins while the filter is on, and no pins when it is off.
   */
  function SafeFilterOutput<S>(altitude: real, filter: bool, safeNearby: seq<S>): (r: Option<seq<S>>)
    ensures r.None? <==> altitude > ClusterAltitude
    ensures r.Some? ==> (r.value == safeNearby <== filter) && (r.value == [] <== !filter)
  {
    if altitude > 10000.0 then None else Some(if filter then safeNearby else [])
  }

  /** The danger-filter sink: whatever the altitude, the nearby danger pins while the filter is on, otherwise none. */
  function DangerFilterOutput<D>(filter: bool, dangerNearby: seq<D>): (r: seq<D>)
    ensures filter ==> r == dangerNearby
    ensures !filter ==> r == []
  {
    if filter then dangerNearby else []
  }

  /**
   * Zoomed in, toggling a filter sends the same pins the camera sink would send
   * for the same filter value.
   */
  lemma FilterSinksAgreeWithCamera<S, D>(altitude: real, safeFilter: bool, dangerFilter: bool,
                                         safeNearby: seq<S>, dangerNearby: seq<D>,
                                         safeAll: seq<SafeParkingArea>, dangerAll: seq<NoParkingArea>)
    requires altitude <= ClusterAltitude
    ensures SafeFilterOutput(altitude, safeFilter, safeNearby)
         == Some(CameraOutput(altitude, safeFilter, dangerFilter, safeNearby, dangerNearby, safeAll, dangerAll).safe)
    ensures DangerFilterOutput(dangerFilter, dangerNearby)
         == CameraOutput(altitude, safeFilter, dangerFilter, safeNearby, dangerNearby, safeAll, dangerAll).danger
  {
  }

  /**
   * Zoomed out, the camera sink sends no danger pins, yet switching the danger
   * filter on sends the nearby danger pins, which then sit on the map beside the
   * buckets; the safe filter has no such effect.
   */
  lemma DangerToggleShowsPinsWhenZoomedOut<S, D>(altitude: real, safeNearby: seq<S>, dangerNearby: seq<D>,
                                                 safeAll: seq<SafeParkingArea>, dangerAll: seq<NoParkingArea>)
    requires altitude > ClusterAltitude && dangerNearby != []
    ensures CameraOutput(altitude, true, true, safeNearby, dangerNearby, safeAll, dangerAll).danger == []
    ensures DangerFilterOutput(true, dangerNearby) != []
    ensures SafeFilterOutput(altitude, true, safeNearby) == None
  {
  }

  // ---- `checkDuplicateText` ----

  /** A word of an address: non-empty and free of spaces. */
  predicate IsWord(w: string) {
    w != [] && ' ' !in w
  }

  predicate AllWords(ws: seq<string>) {
    forall i :: 0 <= i < |ws| ==> IsWord(ws[i])
  }

  function SplitFrom(s: string, word: string): (ws: seq<string>)
    requires ' ' !in word
    ensures AllWords(ws)
    decreases |s|
  {
    if s == [] then (if word == [] then [] else [word])
    else if s[0] == ' ' then
      (if word == [] then SplitFrom(s[1..], []) else [word] + SplitFrom(s[1..], []))
    else SplitFrom(s[1..], word + [s[0]])
  }

  /** `split(separator: " ")`: the space-separated words, with empty pieces dropped. */
  function Split(s: string): (ws: seq<string>)
    ensures AllWords(ws)
  {
    SplitFrom(s, [])
  }

  /**
   * `joined(separator: " ")`: the first word opens the text, followed by a space
   * when more words come.
   */
  function Join(ws: seq<string>): (r: string)
    ensures ws == [] ==> r == ""
    ensures ws != [] ==> ws[0] <= r
    ensures |ws| > 1 ==> |ws[0]| < |r| && r[|ws[0]|] == ' '
  {
    if ws == [] then "" else if |ws| == 1 then ws[0] else ws[0] + " " + Join(ws[1..])
  }

  /** Words separated by single spaces: no space at either end and never two in a row. */
  predicate SingleSpaced(t: string) {
    t == [] || (t[0] != ' ' && t[|t| - 1] != ' ' && forall i :: 0 <= i < |t| - 1 && t[i] == ' ' ==> t[i + 1] != ' ')
  }

  /** Words joined with `" "` are single-spaced, and some text is left when there is a word. */
  lemma {:induction false} JoinSingleSpaced(ws: seq<string>)
    requires AllWords(ws)
    ensures SingleSpaced(Join(ws))
    ensures ws != [] ==> Join(ws) != []
  {
    if |ws| > 1 {
      var w, j := ws[0], Join(ws[1..]);
      JoinSingleSpaced(ws[1..]);
      var t := w + " " + j;
      assert Join(ws) == t;
      forall i | 0 <= i < |t| - 1 && t[i] == ' ' ensures t[i + 1] != ' ' {
        if i == |w| {
          assert t[i + 1] == j[0];
        } else if i > |w| {
          assert t[i] == j[i - |w| - 1] && t[i + 1] == j[i - |w|];
        }
      }
      assert t[0] == w[0] && w[0] in w;
      assert t[|t| - 1] == j[|j| - 1];
    } else if |ws| == 1 {
      assert ws[0][0] in ws[0] && ws[0][|ws[0]| - 1] in ws[0];
    }
  }

  lemma {:induction false} SplitFromWord(w: string, rest: string, word: string)
    requires ' ' !in w && ' ' !in word
    ensures SplitFrom(w + rest, word) == SplitFrom(rest, word + w)
    decreases |w|
  {
    if w != [] {
      assert (w + rest)[0] == w[0];
      assert (w + rest)[1..] == w[1..] + rest;
      assert word + [w[0]] + w[1..] == word + w;
      SplitFromWord(w[1..], rest, word + [w[0]]);
    } else {
      assert w + rest == rest;
      assert word + w == word;
    }
  }

  /** Splitting words joined with single spaces gives the words back. */
  lemma {:induction false} SplitJoin(ws: seq<string>)
    requires AllWords(ws)
    ensures Split(Join(ws)) == ws
  {
    if |ws| == 1 {
      SplitFromWord(ws[0], [], []);
      assert ws[0] + [] == ws[0];
      assert [] + ws[0] == ws[0];
    } else if |ws| > 1 {
      var rest := " " + Join(ws[1..]);
      assert Join(ws) == ws[0] + rest;
      SplitFromWord(ws[0], rest, []);
      assert [] + ws[0] == ws[0];
      assert rest[0] == ' ' && rest[1..] == Join(ws[1..]);
      SplitJoin(ws[1..]);
    }
  }

  /** The words of a string without spaces, if it is not empty, are just that string. */
  lemma SplitWord(w: string)
    requires IsWord(w)
    ensures Split(w) == [w]
  {
    SplitJoin([w]);
  }

  /** The words left once a doubled first word is dropped. */
  function DropDoubledFirst(ws: seq<string>): (r: seq<string>)
    ensures |ws| >= 2 && ws[0] == ws[1] ==> r == ws[1..]
    ensures !(|ws| >= 2 && ws[0] == ws[1]) ==> r == ws
  {
    if |ws| >= 2 && ws[0] == ws[1] then ws[1..] else ws
  }

  /**
   * `checkDuplicateText` as written: "" stays ""; otherwise the address is split
   * into words and `arr[0] == arr[1]` is compared, which traps unless there are at
   * least two words; the result is the words, without a doubled first word,
   * joined with single spaces.
   */
  function CheckDuplicateText(address: string): (r: Result<string, Trap>)
    ensures r.Err? <==> address != "" && |Split(address)| < 2
    ensures address == "" ==> r == Ok("")
    ensures r.Ok? && address != "" ==> Split(r.value) == DropDoubledFirst(Split(address))
    ensures r.Ok? ==> SingleSpaced(r.value)
  {
    if address == "" then Ok("")
    else
      var arr := Split(address);
      if |arr| < 2 then Err(IndexOutOfRange)
      else if arr[0] == arr[1] then
        SplitJoin(arr[1..]);
        JoinSingleSpaced(arr[1..]);
        Ok(Join(arr[1..]))
      else
        SplitJoin(arr);
        JoinSingleSpaced(arr);
        Ok(Join(arr))
  }

  /** An address of one word, such as a placemark with only its region set, traps. */
  lemma CheckDuplicateTextTrapsOnOneWord(address: string)
    requires IsWord(address)
    ensures CheckDuplicateText(address) == Err(IndexOutOfRange)
  {
    SplitWord(address);
  }

  /**
   * The address tidying the sink evidently intends: the same result as
   * `checkDuplicateText` wherever that does not trap, and a one-word address
   * (or one made only of spaces) comes back normalised instead of trapping.
   */
  function DeduplicateAddress(address: string): (r: string)
    ensures Split(r) == DropDoubledFirst(Split(address))
    ensures CheckDuplicateText(address).Ok? ==> r == CheckDuplicateText(address).value
    ensures address == "" ==> r == ""
    ensures SingleSpaced(r)
  {
    var words := Split(address);
    SplitJoin(DropDoubledFirst(words));
    JoinSingleSpaced(DropDoubledFirst(words));
    Join(DropDoubledFirst(words))
  }

  /**
   * The address sink as written: no address sends nothing; a found address goes
   * through `checkDuplicateText`, so a one-word or blank address traps.
   */
  function AddressOutputAsWritten(address: Option<string>): (r: Result<Option<string>, Trap>)
    ensures address.None? ==> r == Ok(None)
    ensures address.Some? ==> (r.Err? <==> CheckDuplicateText(address.value).Err?)
    ensures address.Some? && r.Ok? ==> r.value == Some(CheckDuplicateText(address.value).value)
  {
    match address
    case None => Ok(None)
    case Some(a) =>
      match CheckDuplicateText(a)
      case Err(e) => Err(e)
      case Ok(t) => Ok(Some(t))
  }

  /**
   * The address sink with the corrected tidying: a found address is sent
   * without a doubled first word and single-spaced; no address sends nothing;
   * wherever the sink as written does not trap, the same value.
   */
  function AddressOutput(address: Option<string>): (r: Option<string>)
    ensures r.Some? <==> address.Some?
    ensures r.Some? ==> Split(r.value) == DropDoubledFirst(Split(address.value)) && SingleSpaced(r.value)
    ensures AddressOutputAsWritten(address).Ok? ==> r == AddressOutputAsWritten(address).value
  {
    match address
    case None => None
    case Some(a) => Some(DeduplicateAddress(a))
  }
}
