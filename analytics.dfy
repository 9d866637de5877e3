/** The analytics controller: recording a view of a published profile, the
    owner's report over the profile's views, and the CSV export.

    Timestamps are milliseconds since the epoch; a day key is the timestamp
    divided by the length of a day (a UTC calendar day, which is what the
    date part of `toISOString` names). `extractDomain` and the ISO rendering
    of a timestamp are parameters. */
module Analytics {
  import opened Common
  import opened Seqs
  import opened Profiles

  const Day := 24 * 60 * 60 * 1000

  const DefaultSource := "DIRECT"
  const QrSource := "QR_SCAN"

  /** The stored length limits of the view columns. */
  const IpLimit := 45
  const TextLimit := 255

  const TopReferrerCount := 10

  datatype TrackRequest = TrackRequest(profileId: nat, source: Field<string>, referrer: Option<string>)

  /** What the request says about the visitor: the `x-forwarded-for` and
      `user-agent` headers and Express's `req.ip`. */
  datatype Visitor = Visitor(forwardedFor: Option<string>, ip: Option<string>, userAgent: Option<string>)

  datatype DayCount = DayCount(day: int, views: nat)

  datatype Report = Report(
    totalViews: nat,
    viewsLast7Days: nat,
    viewsLast30Days: nat,
    totalQRScans: nat,
    qrScansLast7Days: nat,
    viewsBySource: seq<Entry>,
    viewsByDay: seq<DayCount>,
    mobile: nat,
    desktop: nat,
    topReferrers: seq<Entry>)

  datatype AnalyticsReply =
    | Failure(status: nat, error: string, message: string)
    | Tracked
    | Analytics(report: Report)
    | Csv(filename: string, body: string)

  const ViewedProfileMissing := AnalyticsReply.Failure(404, "Not found", "Profile not found")
  const TrackFailed := AnalyticsReply.Failure(500, "Internal server error", "Failed to track view")
  const ReportNotOwned := AnalyticsReply.Failure(404, "Not found", "Profile not found or unauthorized")

  /** `req.headers['x-forwarded-for']?.split(',')[0] || req.ip` */
  function ClientIp(v: Visitor): (r: Option<string>)
    ensures v.forwardedFor.Some? && BeforeComma(v.forwardedFor.value) != "" ==> r == Some(BeforeComma(v.forwardedFor.value))
    ensures !(v.forwardedFor.Some? && BeforeComma(v.forwardedFor.value) != "") ==> r == v.ip
  {
    if v.forwardedFor.Some? && BeforeComma(v.forwardedFor.value) != "" then Some(BeforeComma(v.forwardedFor.value))
    else v.ip
  }

  /** `s?.substring(0, n)` */
  function Clip(s: Option<string>, n: nat): (r: Option<string>)
    ensures r.Some? <==> s.Some?
    ensures r.Some? ==> r.value <= s.value && |r.value| == if |s.value| <= n then |s.value| else n
  {
    if s.Some? then Some(Take(s.value, n)) else None
  }

  /** The row `trackView` appends; the source defaults to `DIRECT` when the
      body leaves it out, and is stored upper-cased. */
  function RecordedView(req: TrackRequest, visitor: Visitor, now: int): (v: View)
    requires !req.source.Null?
    ensures v.profileId == req.profileId && v.timestamp == now
    ensures v.source == ToUpper(if req.source.Given? then req.source.value else DefaultSource)
    ensures req.source.Undefined? ==> v.source == DefaultSource
    ensures v.ipAddress == Clip(ClientIp(visitor), IpLimit)
    ensures v.userAgent == Clip(visitor.userAgent, TextLimit) && v.referrer == Clip(req.referrer, TextLimit)
  {
    var source := if req.source.Given? then req.source.value else DefaultSource;
    assert ToUpper(DefaultSource) == DefaultSource;
    View(req.profileId, ToUpper(source), Clip(ClientIp(visitor), IpLimit), Clip(visitor.userAgent, TextLimit),
         Clip(req.referrer, TextLimit), now)
  }

  method TrackView(store: ProfileStore, req: TrackRequest, visitor: Visitor, now: int) returns (reply: AnalyticsReply)
    requires store.Valid()
    modifies store
    ensures store.Valid()
    ensures FindPublishedId(old(store.profiles), req.profileId).None? ==> reply == ViewedProfileMissing && unchanged(store)
    ensures FindPublishedId(old(store.profiles), req.profileId).Some? && req.source.Null? ==>
              reply == TrackFailed && unchanged(store)
    ensures FindPublishedId(old(store.profiles), req.profileId).Some? && !req.source.Null? ==>
              && reply == Tracked
              && store.views == old(store.views) + [RecordedView(req, visitor, now)]
              && store.profiles == old(store.profiles)
              && store.experiences == old(store.experiences) && store.socialLinks == old(store.socialLinks)
              && store.qrFiles == old(store.qrFiles)
  {
    var profile := FindPublishedId(store.profiles, req.profileId);
    if profile.None? {
      return ViewedProfileMissing;
    }
    if req.source.Null? {
      return TrackFailed;
    }
    store.AppendView(RecordedView(req, visitor, now));
    reply := Tracked;
  }

  /** `v.timestamp >= t` */
  function Since(t: int): View -> bool {
    (v: View) => v.timestamp >= t
  }

  function IsQrScan(): View -> bool {
    (v: View) => v.source == QrSource
  }

  function QrScanSince(t: int): View -> bool {
    (v: View) => v.source == QrSource && v.timestamp >= t
  }

  /** The report's mobile test (the lower-cased user agent mentions `mobile`
      or `android`): every view the CSV labels `Mobile` is one, and a view
      without a user agent is not. */
  function IsMobile(v: View): (r: bool)
    ensures DeviceType(v) == "Mobile" ==> r
    ensures r ==> v.userAgent.Some?
  {
    v.userAgent.Some? && (Contains(ToLower(v.userAgent.value), "mobile") || Contains(ToLower(v.userAgent.value), "android"))
  }

  /** The views the report counts as desktop. */
  function NotMobile(): View -> bool {
    (v: View) => !IsMobile(v)
  }

  /** `desktopViews = totalViews - mobileViews` counts exactly the views that
      are not mobile. */
  lemma {:induction false} DesktopIsNotMobile(views: seq<View>)
    ensures |views| - Count(views, IsMobile) == Count(views, NotMobile())
  {
    CountComplement(views, IsMobile, NotMobile());
  }

  /** A referrer the report counts: present, non-empty and not `direct`. */
  predicate Referred(v: View) {
    Truthy(v.referrer) && v.referrer.value != "direct"
  }

  function Sources(views: seq<View>): (r: seq<string>)
    ensures |r| == |views| && forall i :: 0 <= i < |r| ==> r[i] == views[i].source
  {
    seq(|views|, i requires 0 <= i < |views| => views[i].source)
  }

  /** The domain of every counted referrer, in view order. */
  function ReferrerDomains(views: seq<View>, domainOf: string -> string): (r: seq<string>)
    ensures |r| == Count(views, Referred)
    ensures forall i :: 0 <= i < |r| ==> r[i] == domainOf(Filter(views, Referred)[i].referrer.value)
  {
    var referred := Filter(views, Referred);
    seq(|referred|, i requires 0 <= i < |referred| => domainOf(referred[i].referrer.value))
  }

  /** `Object.entries(referrerCounts).sort((a, b) => b[1] - a[1]).slice(0, 10)` */
  function TopReferrers(views: seq<View>, domainOf: string -> string): (r: seq<Entry>)
    ensures |r| <= TopReferrerCount
    ensures SortedDesc(r, (e: Entry) => e.count)
  {
    Take(SortDesc(Tally(ReferrerDomains(views, domainOf)), (e: Entry) => e.count), TopReferrerCount)
  }

  /** A view the day buckets count under `day`: inside the 30-day window and
      falling on that day. */
  function OnDay(now: int, day: int): View -> bool {
    (v: View) => v.timestamp >= now - 30 * Day && v.timestamp / Day == day
  }

  /** A view the day buckets count at all. */
  function InBuckets(now: int): View -> bool {
    (v: View) => v.timestamp >= now - 30 * Day && now / Day - 29 <= v.timestamp / Day <= now / Day
  }

  function SumDays(days: seq<DayCount>): nat {
    if days == [] then 0 else days[0].views + SumDays(days[1..])
  }

  /** The day of `now` minus 29: the first key of the buckets. */
  function FirstDay(now: int): int {
    now / Day - 29
  }

  /** The `viewsByDay` buckets: the 30 day keys ending today, each counting
      the views of the last 30 days that fall on that day. */
  function Buckets(views: seq<View>, now: int): (r: seq<DayCount>)
    ensures |r| == 30
    ensures forall i :: 0 <= i < 30 ==> r[i] == DayCount(FirstDay(now) + i, Count(views, OnDay(now, FirstDay(now) + i)))
  {
    seq(30, i requires 0 <= i < 30 => DayCount(FirstDay(now) + i, Count(views, OnDay(now, FirstDay(now) + i))))
  }

  /** `viewsByDay[dateKey]++` */
  function Incremented(days: seq<DayCount>, j: nat): (r: seq<DayCount>)
    requires j < |days|
    ensures |r| == |days|
  {
    days[j := days[j].(views := days[j].views + 1)]
  }

  lemma {:induction false} SumDaysIncremented(days: seq<DayCount>, j: nat)
    requires j < |days|
    ensures SumDays(Incremented(days, j)) == SumDays(days) + 1
  {
    if j > 0 {
      SumDaysIncremented(days[1..], j - 1);
      assert Incremented(days, j)[1..] == Incremented(days[1..], j - 1);
    }
  }

  lemma {:induction false} SumDaysZero(days: seq<DayCount>)
    requires forall i :: 0 <= i < |days| ==> days[i].views == 0
    ensures SumDays(days) == 0
  {
    if days != [] {
      SumDaysZero(days[1..]);
    }
  }

  /** One more view adds one to the bucket of its day when it has one, and
      changes nothing otherwise. */
  lemma BucketsStep(views: seq<View>, v: View, now: int)
    ensures InBuckets(now)(v) ==> Buckets(views + [v], now) == Incremented(Buckets(views, now), v.timestamp / Day - FirstDay(now))
    ensures !InBuckets(now)(v) ==> Buckets(views + [v], now) == Buckets(views, now)
  {
    var before := Buckets(views, now);
    var after := Buckets(views + [v], now);
    forall i | 0 <= i < 30
      ensures after[i].views == before[i].views + (if OnDay(now, FirstDay(now) + i)(v) then 1 else 0)
    {
      CountConcat(views, [v], OnDay(now, FirstDay(now) + i));
    }
    if InBuckets(now)(v) {
      var j := v.timestamp / Day - FirstDay(now);
      assert forall i :: 0 <= i < 30 ==> after[i] == Incremented(before, j)[i];
    } else {
      assert forall i :: 0 <= i < 30 ==> after[i] == before[i];
    }
  }

  /** The buckets together count exactly the views that have a bucket. */
  lemma {:induction false} BucketsSum(views: seq<View>, now: int)
    ensures SumDays(Buckets(views, now)) == Count(views, InBuckets(now))
  {
    if views == [] {
      SumDaysZero(Buckets(views, now));
    } else {
      var init := views[..|views| - 1];
      var last := views[|views| - 1];
      assert views == init + [last];
      BucketsSum(init, now);
      BucketsStep(init, last, now);
      CountConcat(init, [last], InBuckets(now));
      if InBuckets(now)(last) {
        SumDaysIncremented(Buckets(init, now), last.timestamp / Day - FirstDay(now));
      }
    }
  }

  /** `viewsByDay`: the 30 keys for the days from 29 days ago to today, each
      starting at 0, then one increment per view of the last 30 days whose
      day has a key. */
  method ViewsByDay(views: seq<View>, now: int) returns (days: seq<DayCount>)
    ensures days == Buckets(views, now)
  {
    days := [];
    for i := 30 downto 0
      invariant |days| == 30 - i
      invariant forall k :: 0 <= k < |days| ==> days[k] == DayCount(FirstDay(now) + k, 0)
    {
      var dateKey := (now - i * Day) / Day;
      assert dateKey == now / Day - i;
      days := days + [DayCount(dateKey, 0)];
    }
    assert days == Buckets(views[..0], now);
    for k := 0 to |views|
      invariant days == Buckets(views[..k], now)
    {
      var view := views[k];
      assert views[..k + 1] == views[..k] + [view];
      BucketsStep(views[..k], view, now);
      if view.timestamp >= now - 30 * Day {
        var dateKey := view.timestamp / Day;
        if FirstDay(now) <= dateKey <= now / Day {
          days := Incremented(days, dateKey - FirstDay(now));
        }
      }
    }
    assert views[..|views|] == views;
  }

  /** The day buckets never hold more than the 30-day count: a view on the
      day 30 days back falls in the window but has no bucket. */
  lemma DayBucketsWithinWindow(views: seq<View>, now: int)
    ensures SumDays(Buckets(views, now)) <= Count(views, Since(now - 30 * Day))
  {
    BucketsSum(views, now);
    CountMono(views, InBuckets(now), Since(now - 30 * Day));
  }

  /** The counts of the report ordered by the windows and filters they use. */
  lemma {:induction false} CountBounds(views: seq<View>, now: int)
    ensures Count(views, Since(now - 7 * Day)) <= Count(views, Since(now - 30 * Day)) <= |views|
    ensures Count(views, QrScanSince(now - 7 * Day)) <= Count(views, IsQrScan()) <= |views|
  {
    CountMono(views, Since(now - 7 * Day), Since(now - 30 * Day));
    CountMono(views, QrScanSince(now - 7 * Day), IsQrScan());
  }

  /** The per-source counts cover every view exactly once. */
  lemma SourcesCoverAllViews(views: seq<View>)
    ensures SumCounts(Tally(Sources(views))) == |views|
    ensures forall e :: e in Tally(Sources(views)) ==> e.count == Occurrences(Sources(views), e.key) && e.count > 0
    ensures DistinctKeys(Tally(Sources(views)))
  {
    TallyCorrect(Sources(views));
  }

  /** The top referrers: ten of the tallied domains, or all of them when
      there are fewer, by non-increasing count, each a domain of the counted
      referrers with its exact count, and no domain left off the list counted
      more often than one on it; the tally as a whole counts exactly the views
      that have a counted referrer. */
  lemma {:induction false} TopReferrersShape(views: seq<View>, domainOf: string -> string)
    ensures var n := |Tally(ReferrerDomains(views, domainOf))|;
            |TopReferrers(views, domainOf)| == if n <= TopReferrerCount then n else TopReferrerCount
    ensures forall e, f ::
              (e in TopReferrers(views, domainOf) && f in Tally(ReferrerDomains(views, domainOf)) &&
               f !in TopReferrers(views, domainOf)) ==> f.count <= e.count
    ensures SortedDesc(TopReferrers(views, domainOf), (e: Entry) => e.count)
    ensures forall e :: e in TopReferrers(views, domainOf) ==>
              e.count == Occurrences(ReferrerDomains(views, domainOf), e.key) && e.count > 0
    ensures SumCounts(Tally(ReferrerDomains(views, domainOf))) == Count(views, Referred)
  {
    var domains := ReferrerDomains(views, domainOf);
    var key := (e: Entry) => e.count;
    var tally := Tally(domains);
    TallyCorrect(domains);
    var sorted := SortDesc(tally, key);
    var top := Take(sorted, TopReferrerCount);
    TakeKeepsLargest(sorted, TopReferrerCount, key);
    forall f | f in tally ensures f in sorted {
      assert f in multiset(tally);
    }
    forall e | e in top ensures e.count == Occurrences(domains, e.key) && e.count > 0 {
      assert e in multiset(sorted);
    }
  }

  /** The views of a profile, newest first. */
  function NewestFirst(views: seq<View>, pid: nat): (r: seq<View>)
    ensures multiset(r) == multiset(ViewsOf(views, pid))
    ensures SortedDesc(r, (v: View) => v.timestamp)
  {
    SortDesc(ViewsOf(views, pid), (v: View) => v.timestamp)
  }

  method GetAnalytics(store: ProfileStore, caller: nat, profileId: nat, now: int, domainOf: string -> string)
    returns (reply: AnalyticsReply)
    ensures FindOwned(store.profiles, profileId, caller).None? <==> reply == ReportNotOwned
    ensures FindOwned(store.profiles, profileId, caller).Some? ==>
              var views := NewestFirst(store.views, profileId);
              && reply.Analytics?
              && reply.report.totalViews == |views|
              && reply.report.viewsLast7Days == Count(views, Since(now - 7 * Day))
              && reply.report.viewsLast30Days == Count(views, Since(now - 30 * Day))
              && reply.report.totalQRScans == Count(views, IsQrScan())
              && reply.report.qrScansLast7Days == Count(views, QrScanSince(now - 7 * Day))
              && reply.report.viewsBySource == Tally(Sources(views))
              && reply.report.viewsByDay == Buckets(views, now)
              && reply.report.mobile == Count(views, IsMobile)
              && reply.report.topReferrers == TopReferrers(views, domainOf)
    ensures reply.Analytics? ==>
              var r := reply.report;
              && r.viewsLast7Days <= r.viewsLast30Days <= r.totalViews
              && r.qrScansLast7Days <= r.totalQRScans <= r.totalViews
              && SumCounts(r.viewsBySource) == r.totalViews
              && SumDays(r.viewsByDay) <= r.viewsLast30Days
              && r.mobile + r.desktop == r.totalViews
              && |r.topReferrers| <= TopReferrerCount
  {
    var found := FindOwned(store.profiles, profileId, caller);
    if found.None? {
      return ReportNotOwned;
    }
    var allViews := NewestFirst(store.views, profileId);
    var totalViews := |allViews|;
    var viewsLast7Days := Count(allViews, Since(now - 7 * Day));
    var viewsLast30Days := Count(allViews, Since(now - 30 * Day));
    var totalQRScans := Count(allViews, IsQrScan());
    var qrScansLast7Days := Count(allViews, QrScanSince(now - 7 * Day));
    var viewsBySource := Tally(Sources(allViews));
    var viewsByDay := ViewsByDay(allViews, now);
    var mobileViews := Count(allViews, IsMobile);
    var desktopViews := totalViews - mobileViews;
    var topReferrers := TopReferrers(allViews, domainOf);
    CountBounds(allViews, now);
    SourcesCoverAllViews(allViews);
    DayBucketsWithinWindow(allViews, now);
    TopReferrersShape(allViews, domainOf);
    reply := Analytics(Report(totalViews, viewsLast7Days, viewsLast30Days, totalQRScans, qrScansLast7Days,
                              viewsBySource, viewsByDay, mobileViews, desktopViews, topReferrers));
  }

  const CsvHeader := "Timestamp,Source,Referrer,Device Type"

  /** The CSV's device column: `Mobile` only when the lower-cased user agent
      mentions `mobile`. */
  function DeviceType(v: View): (r: string)
    ensures r == "Mobile" <==> v.userAgent.Some? && Contains(ToLower(v.userAgent.value), "mobile")
    ensures r == "Mobile" || r == "Desktop"
  {
    if v.userAgent.Some? && Contains(ToLower(v.userAgent.value), "mobile") then "Mobile" else "Desktop"
  }

  /** One data line: the timestamp, the source, the referrer (`Direct` when
      there is none) and the device, joined by commas. */
  function CsvLine(v: View, iso: int -> string): (r: string)
    ensures iso(v.timestamp) + "," <= r
    ensures |DeviceType(v)| < |r| && r[|r| - |DeviceType(v)| - 1..] == "," + DeviceType(v)
    ensures !Truthy(v.referrer) ==> r == iso(v.timestamp) + "," + v.source + ",Direct," + DeviceType(v)
  {
    iso(v.timestamp) + "," + v.source + "," + (if Truthy(v.referrer) then v.referrer.value else "Direct") + "," + DeviceType(v)
  }

  /** `lines.join('\n')` */
  function JoinLines(lines: seq<string>): string {
    if lines == [] then "" else if |lines| == 1 then lines[0] else lines[0] + "\n" + JoinLines(lines[1..])
  }

  function Newlines(s: string): nat {
    Count(s, (c: char) => c == '\n')
  }

  /** Joining puts exactly one newline between consecutive lines: a file of
      `n` lines that contain no newline themselves has `n - 1` newlines. */
  lemma {:induction false} JoinLinesNewlines(lines: seq<string>)
    requires lines != []
    requires forall i :: 0 <= i < |lines| ==> '\n' !in lines[i]
    ensures Newlines(JoinLines(lines)) == |lines| - 1
  {
    CountNone(lines[0], (c: char) => c == '\n');
    if |lines| > 1 {
      JoinLinesNewlines(lines[1..]);
      CountConcat(lines[0], "\n", (c: char) => c == '\n');
      CountConcat(lines[0] + "\n", JoinLines(lines[1..]), (c: char) => c == '\n');
    }
  }

  /** `ExportAnalytics`'s file name: the slug, `-analytics-` and today's date. */
  function CsvFilename(slug: string, today: string): string {
    slug + "-analytics-" + today + ".csv"
  }

  /** The lines `exportAnalytics` pushes, before joining. */
  function CsvRows(views: seq<View>, iso: int -> string): (r: seq<string>)
    ensures |r| == |views| + 1 && r[0] == CsvHeader
    ensures forall i :: 1 <= i <= |views| ==> r[i] == CsvLine(views[i - 1], iso)
  {
    [CsvHeader] + seq(|views|, i requires 0 <= i < |views| => CsvLine(views[i], iso))
  }

  method ExportAnalytics(store: ProfileStore, caller: nat, profileId: nat, iso: int -> string, today: string)
    returns (reply: AnalyticsReply)
    ensures FindOwned(store.profiles, profileId, caller).None? <==> reply == ReportNotOwned
    ensures FindOwned(store.profiles, profileId, caller).Some? ==>
              var p := store.profiles[FindOwned(store.profiles, profileId, caller).value];
              reply == Csv(CsvFilename(p.slug, today), JoinLines(CsvRows(NewestFirst(store.views, profileId), iso)))
  {
    var found := FindOwned(store.profiles, profileId, caller);
    if found.None? {
      return ReportNotOwned;
    }
    var profile := store.profiles[found.value];
    var views := NewestFirst(store.views, profileId);
    var csvRows := BuildCsvRows(views, iso);
    reply := Csv(CsvFilename(profile.slug, today), JoinLines(csvRows));
  }

  /** The header line, then `views.forEach` pushing one line per view. */
  method BuildCsvRows(views: seq<View>, iso: int -> string) returns (csvRows: seq<string>)
    ensures csvRows == CsvRows(views, iso)
  {
    csvRows := [CsvHeader];
    for k := 0 to |views|
      invariant |csvRows| == k + 1 && csvRows[0] == CsvHeader
      invariant forall i :: 1 <= i <= k ==> csvRows[i] == CsvLine(views[i - 1], iso)
    {
      csvRows := csvRows + [CsvLine(views[k], iso)];
    }
  }

  /** With no newline inside any field, the export has the header line plus
      exactly one line per view. */
  lemma CsvLineCount(views: seq<View>, iso: int -> string)
    requires forall i :: 0 <= i < |views| ==> '\n' !in CsvLine(views[i], iso)
    ensures Newlines(JoinLines(CsvRows(views, iso))) == |views|
  {
    var rows := CsvRows(views, iso);
    assert '\n' !in CsvHeader;
    forall i | 0 <= i < |rows| ensures '\n' !in rows[i] {
      if i > 0 {
        assert rows[i] == CsvLine(views[i - 1], iso);
      }
    }
    JoinLinesNewlines(rows);
  }

  lemma {:induction false} ShorterDoesNotContain(s: string, sub: string)
    requires |s| < |sub|
    ensures !Contains(s, sub)
  {
    if s != [] {
      ShorterDoesNotContain(s[1..], sub);
    }
  }

  /** The report and the CSV classify devices differently: an `Android` user
      agent is mobile in the report and `Desktop` in the export. */
  lemma DeviceTestsDisagree(v: View)
    requires v.userAgent == Some("Android")
    ensures IsMobile(v) && DeviceType(v) == "Desktop"
  {
    assert ToLower("Android") == "android";
    assert StartsWith("android", "android");
    assert !Contains("android", "mobile") by {
      assert "android"[0] != "mobile"[0];
      assert "android"[1..] == "ndroid" && "ndroid"[0] != "mobile"[0];
      assert "ndroid"[1..] == "droid";
      ShorterDoesNotContain("droid", "mobile");
    }
  }
}
