/** crawl_worker.py's _crawl_source: what one crawl of a source writes on its row, over whole runs of
    crawls. */
module CrawlWorker {
  import opened Base
  import CrawlSchedule
  import Coverage

  type Moment = CrawlSchedule.Moment

  /** last_error */
  datatype Trouble = NoTrouble | ListingFailed | SomeFailed(failed: nat, of: nat)

  datatype Row = Row(
    uncapped: bool, baselineAt: Option<Moment>, fullReadAt: Option<Moment>, lastCrawledAt: Option<Moment>,
    claimedAt: Option<Moment>, trouble: Trouble, interval: int, nextCrawlAt: Option<real>, coverage: Coverage.State)

  /** What one crawl meets: when it started and finished, what the board listed, what became of the
      registration, whether the row was still there, and the minutes an interval comes to with the
      jitter drawn. */
  datatype Meeting = Meeting(
    started: Moment, finished: Moment, listing: Option<Listing>, registration: Option<Registration>,
    rowKept: bool, jitter: int -> real)
  datatype Listing = Listing(urls: nat, complete: bool)
  datatype Registration = Registration(failed: nat, created: nat)

  /** The parts of a source no crawl changes, and the settings. */
  datatype Board = Board(id: nat, canUncap: bool, limits: CrawlSchedule.Limits, zone: CrawlSchedule.Zone)

  /** Whether a crawl starting now reads the whole board. */
  predicate ReadsInFull(b: Board, r: Row, started: Moment) {
    r.uncapped && b.canUncap && CrawlSchedule.FullReadDue(b.zone, b.id, r.fullReadAt, started)
  }

  function Scheduled(b: Board, r: Row, now: Moment, newCount: nat, failed: bool, jitter: int -> real): Row {
    var interval := CrawlSchedule.NextInterval(b.limits, r.interval, newCount, failed);
    r.(interval := interval, nextCrawlAt := Some(now as real + 60.0 * jitter(interval)))
  }

  /** A capped crawl's count goes to the coverage monitor, a full read's does not. */
  function Covered(r: Row, full: bool, urls: nat, at: Moment): Row {
    if full then r else r.(coverage := Coverage.Updated(r.coverage, Coverage.Reading(urls, at)))
  }

  function Failures(m: Meeting): nat
    requires m.listing.Some?
  {
    if m.registration.Some? then m.registration.value.failed else m.listing.value.urls
  }

  function Crawled(b: Board, r: Row, m: Meeting): Row {
    if m.listing.None? then
      Scheduled(b, r.(trouble := ListingFailed, lastCrawledAt := Some(m.finished), claimedAt := None),
                m.finished, 0, true, m.jitter)
    else if !m.rowKept then r
    else
      var full := ReadsInFull(b, r, m.started);
      var urls := m.listing.value.urls;
      var noted := r.(
        lastCrawledAt := Some(m.finished), claimedAt := None,
        trouble := if Failures(m) > 0 then SomeFailed(Failures(m), urls) else NoTrouble,
        baselineAt := if full && m.registration.Some? && r.baselineAt.None? then Some(m.finished) else r.baselineAt,
        fullReadAt := if full then Some(m.started) else r.fullReadAt);
      var scheduled := Scheduled(
        b, noted, m.finished, if m.registration.Some? then m.registration.value.created else 0,
        m.registration.None?, m.jitter);
      Covered(scheduled, full, urls, m.finished)
  }

  /** Whether the crawl may close the jobs it did not list. */
  predicate Healthy(r': Row, m: Meeting) {
    && m.listing.Some? && m.rowKept
    && m.listing.value.urls > 0 && m.listing.value.complete
    && m.registration.Some? && Failures(m) == 0
    && r'.coverage.lowStreak == Some(0)
  }

  class Source {
    var uncapped: bool
    var uncappedBaselineAt: Option<Moment>
    var uncappedCrawledAt: Option<Moment>
    var lastCrawledAt: Option<Moment>
    var crawlClaimedAt: Option<Moment>
    var lastError: Trouble
    var crawlIntervalMinutes: int
    var nextCrawlAt: Option<real>
    const monitor: Coverage.Monitor

    constructor (interval: int)
      ensures fresh(monitor)
      ensures View() == Row(false, None, None, None, None, NoTrouble, interval, None, Coverage.FRESH)
    {
      uncapped, uncappedBaselineAt, uncappedCrawledAt := false, None, None;
      lastCrawledAt, crawlClaimedAt, lastError := None, None, NoTrouble;
      crawlIntervalMinutes, nextCrawlAt := interval, None;
      monitor := new Coverage.Monitor();
    }

    ghost function View(): Row
      reads this, monitor
    {
      Row(uncapped, uncappedBaselineAt, uncappedCrawledAt, lastCrawledAt, crawlClaimedAt, lastError,
          crawlIntervalMinutes, nextCrawlAt, monitor.View())
    }

    /** schedule_next_crawl */
    method ScheduleNextCrawl(b: Board, now: Moment, newCount: nat, listingFailed: bool, jitter: int -> real)
      modifies this
      ensures View() == Scheduled(b, old(View()), now, newCount, listingFailed, jitter)
    {
      crawlIntervalMinutes := CrawlSchedule.NextInterval(b.limits, crawlIntervalMinutes, newCount, listingFailed);
      var jittered := jitter(crawlIntervalMinutes);
      nextCrawlAt := Some(now as real + 60.0 * jittered);
    }

    method NoteCoverage(full: bool, urls: nat, now: Moment)
      modifies monitor
      ensures View() == Covered(old(View()), full, urls, now)
    {
      if !full {
        monitor.UpdateCoverage(urls, now);
      }
    }

    method RecordCrawl(full: bool, firstBaseline: bool, failed: nat, urls: nat, m: Meeting)
      modifies this
      ensures View() == old(View()).(
                lastCrawledAt := Some(m.finished), claimedAt := None,
                trouble := if failed > 0 then SomeFailed(failed, urls) else NoTrouble,
                baselineAt := if full && firstBaseline then Some(m.finished) else old(View()).baselineAt,
                fullReadAt := if full then Some(m.started) else old(View()).fullReadAt)
    {
      lastCrawledAt := Some(m.finished);
      lastError := if failed > 0 then SomeFailed(failed, urls) else NoTrouble;
      crawlClaimedAt := None;
      if full && firstBaseline {
        uncappedBaselineAt := lastCrawledAt;
      }
      if full {
        uncappedCrawledAt := Some(m.started);
      }
    }

    /** _crawl_source */
    method CrawlSource(b: Board, m: Meeting) returns (healthy: bool)
      modifies this, monitor
      ensures View() == Crawled(b, old(View()), m)
      ensures healthy == Healthy(View(), m)
    {
      healthy := false;
      var full, hasBaseline := uncapped, uncappedBaselineAt.Some?;
      if full && !b.canUncap {
        full := false;
      }
      if full && !CrawlSchedule.FullReadDue(b.zone, b.id, uncappedCrawledAt, m.started) {
        full := false;
      }
      if m.listing.None? {
        lastError := ListingFailed;
        lastCrawledAt := Some(m.finished);
        crawlClaimedAt := None;
        ScheduleNextCrawl(b, m.finished, 0, true, m.jitter);
        return;
      }
      var urls := m.listing.value.urls;
      var registered, created, failed := true, 0, 0;
      if m.registration.Some? {
        failed, created := m.registration.value.failed, m.registration.value.created;
      } else {
        registered := false;
        failed := urls;
      }
      if !m.rowKept {
        return;
      }
      RecordCrawl(full, registered && !hasBaseline, failed, urls, m);
      ScheduleNextCrawl(b, m.finished, created, !registered, m.jitter);
      NoteCoverage(full, urls, m.finished);
      healthy := urls > 0 && m.listing.value.complete && registered && failed == 0 &&
                 monitor.coverageLowStreak == Some(0);
    }
  }

  // ---------------------------------------------------------------- runs

  /** What may happen to a source: an administrator sets it uncapped or not, the dispatcher claims
      it, or it is crawled. */
  datatype Event = SetUncapped(on: bool) | Claim(at: Moment) | Crawl(meeting: Meeting)

  function Step(b: Board, r: Row, e: Event): Row {
    match e
    case SetUncapped(on) => r.(uncapped := on)
    case Claim(at) => r.(claimedAt := Some(at))
    case Crawl(m) => Crawled(b, r, m)
  }

  function Start(interval: int): Row {
    Row(false, None, None, None, None, NoTrouble, interval, None, Coverage.FRESH)
  }

  function Run(b: Board, interval: int, es: seq<Event>): Row {
    if |es| == 0 then Start(interval) else Step(b, Run(b, interval, es[..|es| - 1]), es[|es| - 1])
  }

  /** Whether the event is a crawl whose listing came back and whose row was still there. */
  predicate Done(e: Event) {
    e.Crawl? && e.meeting.listing.Some? && e.meeting.rowKept
  }

  /** Whether the event is a crawl that wrote to the row. */
  predicate Recorded(e: Event) {
    e.Crawl? && (e.meeting.listing.None? || e.meeting.rowKept)
  }

  /** When each completed full read of a run started. */
  function FullReads(b: Board, interval: int, es: seq<Event>): seq<Moment> {
    if |es| == 0 then []
    else
      var before, e := es[..|es| - 1], es[|es| - 1];
      FullReads(b, interval, before) +
      if Done(e) && ReadsInFull(b, Run(b, interval, before), e.meeting.started) then [e.meeting.started] else []
  }

  /** The capped crawls of a run that listed the board. */
  function CappedReadings(b: Board, interval: int, es: seq<Event>): seq<Coverage.Reading> {
    if |es| == 0 then []
    else
      var before, e := es[..|es| - 1], es[|es| - 1];
      CappedReadings(b, interval, before) +
      if Done(e) && !ReadsInFull(b, Run(b, interval, before), e.meeting.started)
      then [Coverage.Reading(e.meeting.listing.value.urls, e.meeting.finished)] else []
  }

  /** Consecutive full reads: twenty hours apart, past their slot, on different days. */
  ghost predicate Spaced(b: Board, moments: seq<Moment>) {
    && (forall i :: 0 <= i < |moments| ==> b.zone.wall(moments[i]) >= CrawlSchedule.FullReadSlot(b.id) * 60)
    && (forall i, j :: 0 <= i < j < |moments| ==> moments[j] - moments[i] >= CrawlSchedule.FULL_READ_EVERY)
  }

  lemma {:induction false} StampStep(b: Board, r: Row, e: Event)
    ensures Step(b, r, e).fullReadAt ==
            if Done(e) && ReadsInFull(b, r, e.meeting.started) then Some(e.meeting.started) else r.fullReadAt
  {
  }

  lemma {:induction false} SpacedStep(b: Board, moments: seq<Moment>, at: Moment)
    requires Spaced(b, moments)
    requires CrawlSchedule.FullReadDue(b.zone, b.id, if moments == [] then None else Some(moments[|moments| - 1]), at)
    ensures Spaced(b, moments + [at])
  {
    forall i | 0 <= i < |moments|
      ensures at - moments[i] >= CrawlSchedule.FULL_READ_EVERY
    {
      if i < |moments| - 1 {
        assert moments[|moments| - 1] - moments[i] >= CrawlSchedule.FULL_READ_EVERY;
      }
    }
  }

  lemma {:induction false} ReadsSpaced(b: Board, interval: int, es: seq<Event>)
    ensures Spaced(b, FullReads(b, interval, es))
    ensures var moments := FullReads(b, interval, es);
            Run(b, interval, es).fullReadAt == if moments == [] then None else Some(moments[|moments| - 1])
  {
    if es != [] {
      var before, e := es[..|es| - 1], es[|es| - 1];
      ReadsSpaced(b, interval, before);
      var r, moments := Run(b, interval, before), FullReads(b, interval, before);
      StampStep(b, r, e);
      if Done(e) && ReadsInFull(b, r, e.meeting.started) {
        SpacedStep(b, moments, e.meeting.started);
      } else {
        assert FullReads(b, interval, es) == moments;
      }
    }
  }

  /** Completed full reads are at least twenty hours apart and at most one falls on any Eastern day,
      whatever else happens in between, failed listings and a board switched on and off included. */
  lemma {:induction false} OneFullReadADay(b: Board, interval: int, es: seq<Event>, i: nat, j: nat)
    requires CrawlSchedule.ValidZone(b.zone)
    requires i < j < |FullReads(b, interval, es)|
    ensures FullReads(b, interval, es)[j] - FullReads(b, interval, es)[i] >= 72_000
    ensures b.zone.dayOf(FullReads(b, interval, es)[i]) != b.zone.dayOf(FullReads(b, interval, es)[j])
  {
    ReadsSpaced(b, interval, es);
    var moments := FullReads(b, interval, es);
    CrawlSchedule.OneReadADay(b.zone, b.id, moments[i], moments[j]);
  }

  /** The last time an administrator switched the board it was to uncapped. */
  ghost predicate SwitchedOn(es: seq<Event>) {
    exists i :: 0 <= i < |es| && es[i] == SetUncapped(true) && forall j :: i < j < |es| ==> !es[j].SetUncapped?
  }

  lemma {:induction false} UncappedIsSwitch(b: Board, interval: int, es: seq<Event>)
    ensures Run(b, interval, es).uncapped <==> SwitchedOn(es)
  {
    if es != [] {
      var n := |es| - 1;
      UncappedIsSwitch(b, interval, es[..n]);
      if SwitchedOn(es[..n]) && !es[n].SetUncapped? {
        var i :| 0 <= i < n && es[..n][i] == SetUncapped(true) && forall j :: i < j < n ==> !es[..n][j].SetUncapped?;
        assert es[i] == SetUncapped(true) && forall j :: i < j < n ==> es[j] == es[..n][j];
      }
      if es[n] == SetUncapped(true) {
        assert SwitchedOn(es);
      }
      if SwitchedOn(es) && es[n] != SetUncapped(true) {
        var i :| 0 <= i < |es| && es[i] == SetUncapped(true) && forall j :: i < j < |es| ==> !es[j].SetUncapped?;
        assert es[..n][i] == SetUncapped(true) && forall j :: i < j < n ==> es[..n][j] == es[j];
      }
    }
  }

  /** Exactly which crawls read the whole board: those that list it, with the board switched to
      uncapped and able to be, from the source's minute of the day on, and no full read within the
      twenty hours before. */
  lemma {:induction false} FullReadExactly(b: Board, interval: int, es: seq<Event>, m: Meeting)
    ensures var past := FullReads(b, interval, es);
            FullReads(b, interval, es + [Crawl(m)]) ==
              if && m.listing.Some? && m.rowKept && SwitchedOn(es) && b.canUncap
                 && b.zone.wall(m.started) >= 60 * (480 + b.id % 720)
                 && forall i :: 0 <= i < |past| ==> m.started - past[i] >= 72_000
              then past + [m.started] else past
  {
    var all, past := es + [Crawl(m)], FullReads(b, interval, es);
    assert all[..|all| - 1] == es && all[|all| - 1] == Crawl(m);
    ReadsSpaced(b, interval, es);
    UncappedIsSwitch(b, interval, es);
    CrawlSchedule.DueExactly(b.zone, b.id, Run(b, interval, es).fullReadAt, m.started);
    if past != [] && m.started - past[|past| - 1] >= 72_000 {
      forall i | 0 <= i < |past|
        ensures m.started - past[i] >= 72_000
      {
        assert i < |past| - 1 ==> past[|past| - 1] - past[i] >= CrawlSchedule.FULL_READ_EVERY;
      }
    }
  }

  /** The coverage monitor has seen the capped crawls and nothing else, in order. */
  lemma {:induction false} CoverageSeesCappedOnly(b: Board, interval: int, es: seq<Event>)
    ensures Run(b, interval, es).coverage == Coverage.After(CappedReadings(b, interval, es))
  {
    if es != [] {
      var before, e := es[..|es| - 1], es[|es| - 1];
      CoverageSeesCappedOnly(b, interval, before);
      var h, h' := CappedReadings(b, interval, before), CappedReadings(b, interval, es);
      if |h'| == |h| {
        assert h' == h;
      } else {
        assert h'[..|h'| - 1] == h;
      }
    }
  }

  /** A healthy crawl, one that may close what it did not list: everything it listed is registered,
      and the last capped reading, its own if it was capped, was not low. */
  lemma {:induction false} HealthyIsNotLow(b: Board, interval: int, es: seq<Event>, m: Meeting)
    requires Healthy(Run(b, interval, es + [Crawl(m)]), m)
    ensures m.listing.value.urls > 0 && m.registration.Some? && m.registration.value.failed == 0
    ensures var h := CappedReadings(b, interval, es + [Crawl(m)]);
            |h| > 0 ==> !Coverage.Low(h, |h| - 1)
    ensures Run(b, interval, es + [Crawl(m)]).trouble == NoTrouble
  {
    var all := es + [Crawl(m)];
    assert all[..|all| - 1] == es;
    CoverageSeesCappedOnly(b, interval, all);
    var h := CappedReadings(b, interval, all);
    Coverage.FlaggedIffSustained(h);
  }

  /** From the first crawl on the interval is in range, whatever it was before. */
  lemma {:induction false} IntervalStaysInRange(b: Board, interval: int, es: seq<Event>)
    requires b.limits.least <= b.limits.most
    ensures CrawlSchedule.InRange(b.limits, interval) || (exists i :: 0 <= i < |es| && Recorded(es[i])) ==>
              CrawlSchedule.InRange(b.limits, Run(b, interval, es).interval)
  {
    if es != [] {
      var before, e := es[..|es| - 1], es[|es| - 1];
      IntervalStaysInRange(b, interval, before);
      if e.Crawl? {
        var r, m := Run(b, interval, before), e.meeting;
        CrawlSchedule.IntervalInRange(b.limits, r.interval, 0, true);
        if m.registration.Some? {
          CrawlSchedule.IntervalInRange(b.limits, r.interval, m.registration.value.created, false);
        }
      }
      if !Recorded(e) {
        forall i | 0 <= i < |es| && Recorded(es[i])
          ensures 0 <= i < |before| && Recorded(before[i])
        {
        }
      }
    }
  }

  /** The next crawl of a source is due a tenth more or less than its interval after this one, and
      its claim is gone. */
  lemma {:induction false} DueAroundTheInterval(b: Board, r: Row, m: Meeting)
    requires m.listing.None? || m.rowKept
    requires b.limits.least <= b.limits.most
    requires forall n: nat :: 0.9 * n as real <= m.jitter(n) <= 1.1 * n as real
    ensures var r' := Crawled(b, r, m);
            && r'.claimedAt == None && r'.lastCrawledAt == Some(m.finished)
            && r'.nextCrawlAt.Some?
            && 54.0 * r'.interval as real <= r'.nextCrawlAt.value - m.finished as real <= 66.0 * r'.interval as real
  {
    var r' := Crawled(b, r, m);
    CrawlSchedule.IntervalInRange(b.limits, r.interval, 0, true);
    if m.registration.Some? {
      CrawlSchedule.IntervalInRange(b.limits, r.interval, m.registration.value.created, false);
    }
    assert r'.interval >= 0;
  }

  /** The uncapped baseline is set by the first full read that was registered and never changes
      after it. */
  lemma {:induction false} BaselineSetOnce(b: Board, interval: int, es: seq<Event>, more: seq<Event>)
    requires Run(b, interval, es).baselineAt.Some?
    ensures FullReads(b, interval, es) != []
    ensures Run(b, interval, es + more).baselineAt == Run(b, interval, es).baselineAt
  {
    if more == [] {
      assert es + more == es;
      BaselineNeedsAFullRead(b, interval, es);
    } else {
      var fewer := more[..|more| - 1];
      BaselineSetOnce(b, interval, es, fewer);
      assert (es + more)[..|es + more| - 1] == es + fewer;
    }
  }

  lemma {:induction false} BaselineNeedsAFullRead(b: Board, interval: int, es: seq<Event>)
    requires Run(b, interval, es).baselineAt.Some?
    ensures FullReads(b, interval, es) != []
  {
    var before := es[..|es| - 1];
    if Run(b, interval, before).baselineAt.Some? {
      BaselineNeedsAFullRead(b, interval, before);
    }
  }
}
