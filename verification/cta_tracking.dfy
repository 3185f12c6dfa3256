/**
 * The call-to-action click log of `assets/js/cta-tracking.js`: the analytics
 * event sent per click, the capped log kept in local storage, the session id
 * kept in session storage, and the performance report computed from the log.
 *
 * Storage holds the parsed value of each key (serialisation is the identity
 * here); clocks and random numbers are parameters.
 */
module CtaTracking {
  import opened Common

  /** The log keeps only the most recent entries. */
  const MaxEntries: nat := 100
  /** The report shows this many entries, newest first. */
  const RecentCount: nat := 10
  /** The user agent is cut to this many characters. */
  const UserAgentLength: nat := 100

  datatype Entry = Entry(
    ctaType: string,
    context: string,
    timestamp: string,
    sessionId: string,
    pageUrl: string,
    userAgent: string)

  /**
   * The text under local-storage key 'cta_analytics': absent (`null` or
   * `""`, both read as `'[]'`), an array of entries, JSON whose value is not
   * an array (an object, `null`, a string, a number or a boolean), or text
   * that `JSON.parse` rejects.
   */
  datatype Stored = Absent | Log(entries: seq<Entry>) | NotArray | Unparsable

  /** The payload of the `cta_click` analytics event. */
  datatype ClickEvent = ClickEvent(eventCategory: string, eventLabel: string, value: int)

  /** The label joins type and context with one underscore. */
  function ClickEventFor(ctaType: string, context: string): (e: ClickEvent)
    ensures e.eventCategory == "CTA" && e.value == 1
    ensures |e.eventLabel| == |ctaType| + 1 + |context|
    ensures e.eventLabel[..|ctaType|] == ctaType && e.eventLabel[|ctaType|] == '_'
    ensures e.eventLabel[|ctaType| + 1..] == context
  {
    ClickEvent("CTA", ctaType + "_" + context, 1)
  }

  /** `s.substring(0, n)`. */
  function Truncate(s: string, n: nat): (r: string)
    ensures |r| == if |s| <= n then |s| else n
    ensures StartsWith(s, r)
  {
    if |s| <= n then s else s[..n]
  }

  /** `splice(0, length - 100)` when longer than 100: the oldest entries go. */
  function Capped(log: seq<Entry>): (r: seq<Entry>)
    ensures |r| == if |log| > MaxEntries then MaxEntries else |log|
    ensures r == log[|log| - |r|..]
  {
    if |log| > MaxEntries then log[|log| - MaxEntries..] else log
  }

  /**
   * Appending then capping keeps the new entry last, never exceeds the cap,
   * and keeps a suffix of the old log in its original order.
   */
  lemma AppendCapped(log: seq<Entry>, e: Entry)
    ensures var r := Capped(log + [e]);
      && 1 <= |r| <= MaxEntries
      && r[|r| - 1] == e
      && r[..|r| - 1] == log[|log| + 1 - |r|..]
  {
    var r := Capped(log + [e]);
    assert r[..|r| - 1] == (log + [e])[|log| + 1 - |r|..|log|];
  }

  /**
   * `getCTAAnalytics`: absent data reads as `[]`, text that does not parse is
   * caught and reads as `[]`, and any other parsed value is returned as it
   * is. `None` is a returned value that is not an array.
   */
  function Analytics(stored: Stored): (r: Option<seq<Entry>>)
    ensures r.None? <==> stored.NotArray?
    ensures stored.Log? ==> r == Some(stored.entries)
    ensures stored.Absent? || stored.Unparsable? ==> r == Some([])
  {
    match stored
    case Log(entries) => Some(entries)
    case NotArray => None
    case _ => Some([])
  }

  /** The stored value parses as an array, so a click can be appended to it. */
  predicate Appendable(stored: Stored)
  {
    stored.Absent? || stored.Log?
  }

  function NewSessionId(now: string, random: string): (id: string)
    ensures id != ""
  {
    "session_" + now + "_" + random
  }

  /** Local storage ('cta_analytics') and session storage ('cta_session_id'). */
  class Storage {
    var analytics: Stored
    var sessionId: Option<string>

    constructor (analytics: Stored, sessionId: Option<string>)
      ensures this.analytics == analytics && this.sessionId == sessionId
    {
      this.analytics := analytics;
      this.sessionId := sessionId;
    }

    /** `getSessionId`: an existing id is returned unchanged and nothing is written. */
    method GetSessionId(now: string, random: string) returns (id: string)
      modifies this
      ensures analytics == old(analytics)
      ensures Truthy(old(sessionId)) ==> id == old(sessionId).value && sessionId == old(sessionId)
      ensures !Truthy(old(sessionId)) ==> id == NewSessionId(now, random) && sessionId == Some(id)
    {
      if Truthy(sessionId) {
        id := sessionId.value;
      } else {
        id := NewSessionId(now, random);
        sessionId := Some(id);
      }
    }

    /**
     * The storage after logging a click over `before` with session id
     * `sessionBefore`: unparsable data stops everything; otherwise the
     * session id exists (created from `now` and `random` when missing), and
     * absent or array data gets the new entry appended and the log capped.
     */
    predicate Logged(before: Stored, sessionBefore: Option<string>, ctaType: string, context: string,
                     timestamp: string, pageUrl: string, userAgent: string, now: string, random: string)
      reads this
    {
      && (before.Unparsable? ==> analytics == before && sessionId == sessionBefore)
      && (!before.Unparsable? && Truthy(sessionBefore) ==> sessionId == sessionBefore)
      && (!before.Unparsable? && !Truthy(sessionBefore) ==> sessionId == Some(NewSessionId(now, random)))
      && (before.NotArray? ==> analytics == before)
      && (Appendable(before) ==> (Truthy(sessionId) &&
            analytics == Log(Capped(Analytics(before).value +
              [Entry(ctaType, context, timestamp, sessionId.value, pageUrl, Truncate(userAgent, UserAgentLength))]))))
    }

    /**
     * `trackCTAToLocalStorage`: append the new entry, drop the oldest beyond
     * 100, store. If the stored text does not parse, the exception is caught
     * before anything is written. If it parses to something other than an
     * array, the session id is still fetched (and created) while the entry is
     * built, and then `push` throws and the log is left as it was.
     */
    method TrackToLocalStorage(ctaType: string, context: string, timestamp: string,
                               pageUrl: string, userAgent: string, now: string, random: string)
      modifies this
      ensures Logged(old(analytics), old(sessionId), ctaType, context, timestamp, pageUrl, userAgent, now, random)
    {
      if analytics.Unparsable? {
        return;   // JSON.parse threw; the catch only logs
      }
      var parsed := Analytics(analytics);
      var id := GetSessionId(now, random);
      if parsed.None? {
        return;   // push is not a function of the parsed value; the catch only logs
      }
      var existing := parsed.value;
      var entry := Entry(ctaType, context, timestamp, id, pageUrl, Truncate(userAgent, UserAgentLength));
      existing := existing + [entry];
      if |existing| > MaxEntries {
        existing := existing[|existing| - MaxEntries..];
      }
      analytics := Log(existing);
    }

    /**
     * `trackCTAClick`: the event goes to the analytics tag when it is loaded
     * (tracking is enabled in the configuration), then the click is logged.
     */
    method TrackClick(ctaType: string, context: string, gtagLoaded: bool, timestamp: string,
                      pageUrl: string, userAgent: string, now: string, random: string)
      returns (sent: Option<ClickEvent>)
      modifies this
      ensures sent.Some? <==> gtagLoaded
      ensures sent.Some? ==> sent.value == ClickEventFor(ctaType, context)
      ensures Logged(old(analytics), old(sessionId), ctaType, context, timestamp, pageUrl, userAgent, now, random)
      ensures !Appendable(old(analytics)) ==> analytics == old(analytics)
      ensures Appendable(old(analytics)) ==> (analytics.Log? &&
        1 <= |analytics.entries| <= MaxEntries &&
        analytics.entries[|analytics.entries| - 1].ctaType == ctaType &&
        analytics.entries[|analytics.entries| - 1].context == context)
    {
      var before := analytics;
      sent := if gtagLoaded then Some(ClickEventFor(ctaType, context)) else None;
      TrackToLocalStorage(ctaType, context, timestamp, pageUrl, userAgent, now, random);
      if Appendable(before) {
        AppendCapped(Analytics(before).value,
          Entry(ctaType, context, timestamp, sessionId.value, pageUrl, Truncate(userAgent, UserAgentLength)));
      }
    }
  }

  /** Two lookups of the session id in a row agree; the second writes nothing. */
  method SessionIdIsStable(s: Storage, now1: string, random1: string, now2: string, random2: string)
    returns (first: string, second: string)
    modifies s
    ensures first == second
    ensures s.sessionId == Some(first)
  {
    first := s.GetSessionId(now1, random1);
    second := s.GetSessionId(now2, random2);
  }

  /** `timestamp.split('T')[0]`: everything before the first 'T'. */
  function DayOf(timestamp: string): (day: string)
    ensures StartsWith(timestamp, day)
    ensures 'T' !in day
    ensures |day| < |timestamp| ==> timestamp[|day|] == 'T'
  {
    match IndexOf(timestamp, 'T')
    case None => timestamp
    case Some(i) => timestamp[..i]
  }

  function Reversed(s: seq<Entry>): (r: seq<Entry>)
    ensures |r| == |s|
    ensures forall i :: 0 <= i < |s| ==> r[i] == s[|s| - 1 - i]
  {
    if s == [] then [] else [s[|s| - 1]] + Reversed(s[..|s| - 1])
  }

  /** `data.slice(-10).reverse()`: the last min(10, n) entries, newest first. */
  function Recent(data: seq<Entry>): (r: seq<Entry>)
    ensures |r| == if |data| < RecentCount then |data| else RecentCount
    ensures forall i :: 0 <= i < |r| ==> r[i] == data[|data| - 1 - i]
  {
    var start := if |data| < RecentCount then 0 else |data| - RecentCount;
    Reversed(data[start..])
  }

  /** `(m[k] || 0) + 1`. */
  function Bump(m: map<string, nat>, k: string): map<string, nat>
  {
    m[k := (if k in m then m[k] else 0) + 1]
  }

  /** The count dictionary built by incrementing once per key, in order. */
  function Tally(keys: seq<string>): (m: map<string, nat>)
    ensures m.Keys == set k | k in keys
  {
    if keys == [] then map[]
    else
      var init := keys[..|keys| - 1];
      assert keys == init + [keys[|keys| - 1]];
      Bump(Tally(init), keys[|keys| - 1])
  }

  /** Each key's count is its number of occurrences. */
  lemma {:induction false} TallyCounts(keys: seq<string>, k: string)
    requires k in keys
    ensures Tally(keys)[k] == multiset(keys)[k]
  {
    var init := keys[..|keys| - 1];
    var last := keys[|keys| - 1];
    assert keys == init + [last];
    if k in init {
      TallyCounts(init, k);
    } else {
      assert multiset(init)[k] == 0;
    }
  }

  /** The sum of a count dictionary's values. */
  ghost function MapSum(m: map<string, nat>): nat
    decreases |m|
  {
    if m == map[] then 0
    else
      var k :| k in m;
      assert |(m - {k}).Keys| < |m.Keys| by {
        assert (m - {k}).Keys == m.Keys - {k};
      }
      m[k] + MapSum(m - {k})
  }

  /** The sum does not depend on which key is taken out first. */
  lemma {:induction false} MapSumRemove(m: map<string, nat>, k: string)
    requires k in m
    ensures MapSum(m) == m[k] + MapSum(m - {k})
    decreases |m|
  {
    var j :| j in m && MapSum(m) == m[j] + MapSum(m - {j});
    if j != k {
      assert (m - {j}).Keys == m.Keys - {j};
      assert (m - {k}).Keys == m.Keys - {k};
      MapSumRemove(m - {j}, k);
      MapSumRemove(m - {k}, j);
      assert m - {j} - {k} == m - {k} - {j};
    }
  }

  /** The values of a tally add up to the number of keys counted. */
  lemma {:induction false} TallySum(keys: seq<string>)
    ensures MapSum(Tally(keys)) == |keys|
  {
    if keys != [] {
      var init := keys[..|keys| - 1];
      var k := keys[|keys| - 1];
      var m := Tally(init);
      TallySum(init);
      var m' := Bump(m, k);
      MapSumRemove(m', k);
      assert m' - {k} == m - {k};
      if k in m {
        MapSumRemove(m, k);
      } else {
        assert m - {k} == m;
      }
    }
  }

  function Types(data: seq<Entry>): (r: seq<string>)
    ensures |r| == |data| && forall i :: 0 <= i < |data| ==> r[i] == data[i].ctaType
  {
    seq(|data|, i requires 0 <= i < |data| => data[i].ctaType)
  }

  function Contexts(data: seq<Entry>): (r: seq<string>)
    ensures |r| == |data| && forall i :: 0 <= i < |data| ==> r[i] == data[i].context
  {
    seq(|data|, i requires 0 <= i < |data| => data[i].context)
  }

  function Days(data: seq<Entry>): (r: seq<string>)
    ensures |r| == |data| && forall i :: 0 <= i < |data| ==> r[i] == DayOf(data[i].timestamp)
  {
    seq(|data|, i requires 0 <= i < |data| => DayOf(data[i].timestamp))
  }

  datatype Report = Report(
    totalClicks: nat,
    byType: map<string, nat>,
    byContext: map<string, nat>,
    byDay: map<string, nat>,
    recent: seq<Entry>)

  /**
   * `getCTAPerformanceReport`: one pass over the log, counting as it goes.
   * `None` is the `TypeError` thrown when the analytics value is not an
   * array (`length` of `null`, or `slice` or `reverse` missing).
   */
  method PerformanceReport(stored: Stored) returns (report: Option<Report>)
    ensures report.None? <==> stored.NotArray?
    ensures report.Some? ==> var data := Analytics(stored).value;
      && report.value.totalClicks == |data|
      && report.value.byType == Tally(Types(data))
      && report.value.byContext == Tally(Contexts(data))
      && report.value.byDay == Tally(Days(data))
      && report.value.recent == Recent(data)
  {
    var parsed := Analytics(stored);
    if parsed.None? {
      return None;
    }
    var data := parsed.value;
    var byType, byContext, byDay := map[], map[], map[];
    var i := 0;
    while i < |data|
      invariant 0 <= i <= |data|
      invariant byType == Tally(Types(data[..i]))
      invariant byContext == Tally(Contexts(data[..i]))
      invariant byDay == Tally(Days(data[..i]))
    {
      var entry := data[i];
      PrefixStep(data, i);
      byType := Bump(byType, entry.ctaType);
      byContext := Bump(byContext, entry.context);
      byDay := Bump(byDay, DayOf(entry.timestamp));
      i := i + 1;
    }
    assert data[..i] == data;
    report := Some(Report(|data|, byType, byContext, byDay, Recent(data)));
  }

  lemma PrefixStep(data: seq<Entry>, i: nat)
    requires i < |data|
    ensures Types(data[..i + 1]) == Types(data[..i]) + [data[i].ctaType]
    ensures Contexts(data[..i + 1]) == Contexts(data[..i]) + [data[i].context]
    ensures Days(data[..i + 1]) == Days(data[..i]) + [DayOf(data[i].timestamp)]
  {
  }

  /** Each of the three count dictionaries sums to the total number of clicks. */
  lemma ReportSums(data: seq<Entry>)
    ensures MapSum(Tally(Types(data))) == |data|
    ensures MapSum(Tally(Contexts(data))) == |data|
    ensures MapSum(Tally(Days(data))) == |data|
  {
    TallySum(Types(data));
    TallySum(Contexts(data));
    TallySum(Days(data));
  }
}
