// The heartbeat monitor (src/devices/heartbeat_monitor.cpp).
module Heartbeat {
  // Time points and durations are counted in clock ticks (nanoseconds), timeouts in seconds.
  const TICKS: int := 1_000_000_000

  datatype Record = Record(timeout: int, lastSeen: int, timedOut: bool)

  type Devices = map<string, Record>

  // duration_cast<seconds>: truncation toward zero.
  function Seconds(ticks: int): int {
    if ticks >= 0 then ticks / TICKS else -(-ticks / TICKS)
  }

  predicate Overdue(r: Record, now: int) { Seconds(now - r.lastSeen) >= r.timeout }

  // The ids a scan at `now` reports.
  function Due(devices: Devices, now: int): set<string> {
    set id | id in devices && Overdue(devices[id], now) && !devices[id].timedOut
  }

  function Scanned(devices: Devices, now: int): Devices {
    map id | id in devices ::
      if id in Due(devices, now) then devices[id].(timedOut := true) else devices[id]
  }

  datatype Event =
    | Register(id: string, timeout: int, now: int)
    | Unregister(id: string)
    | Beat(id: string, now: int)
    | Scan(now: int)

  function Step(devices: Devices, e: Event): Devices {
    match e
    case Register(id, timeout, now) => devices[id := Record(timeout, now, false)]
    case Unregister(id) => devices - {id}
    case Beat(id, now) =>
      if id in devices then devices[id := devices[id].(lastSeen := now, timedOut := false)] else devices
    case Scan(now) => Scanned(devices, now)
  }

  function Exec(devices: Devices, es: seq<Event>): Devices
    decreases |es|
  {
    if es == [] then devices else Exec(Step(devices, es[0]), es[1..])
  }

  // Event k of the run reports the id.
  predicate Reports(devices: Devices, es: seq<Event>, k: nat, id: string) {
    k < |es| && es[k].Scan? && id in Due(Exec(devices, es[..k]), es[k].now)
  }

  // The device comes back.
  predicate Resets(e: Event, id: string) {
    (e.Register? || e.Beat?) && e.id == id
  }

  predicate Touches(e: Event, id: string) { !e.Scan? && e.id == id }

  lemma {:induction false} ExecSplits(devices: Devices, es: seq<Event>, k: nat)
    requires k <= |es|
    ensures Exec(devices, es) == Exec(Exec(devices, es[..k]), es[k..])
    decreases k
  {
    if k == 0 {
      assert es[0..] == es;
    } else {
      ExecSplits(Step(devices, es[0]), es[1..], k - 1);
      assert es[1..][..k - 1] == es[..k][1..];
      assert es[1..][k - 1..] == es[k..];
    }
  }

  lemma {:induction false} ExecNext(devices: Devices, es: seq<Event>, k: nat)
    requires k < |es|
    ensures Exec(devices, es[..k + 1]) == Step(Exec(devices, es[..k]), es[k])
  {
    var prefix := es[..k + 1];
    ExecSplits(devices, prefix, k);
    assert prefix[..k] == es[..k] && prefix[k..] == [es[k]];
    assert [es[k]][1..] == [];
  }

  // ── Records follow events ──────────────────────────────────────────────────

  // Event r is the last Register or Unregister of the id, and a Register.
  predicate RegisteredAt(es: seq<Event>, r: nat, id: string) {
    && r < |es| && es[r].Register? && es[r].id == id
    && forall j | r < j < |es| :: !((es[j].Register? || es[j].Unregister?) && es[j].id == id)
  }

  // Event m is the last sign of life: a Register or Beat of the id.
  predicate HeardAt(es: seq<Event>, m: nat, id: string) {
    m < |es| && Resets(es[m], id) && forall j | m < j < |es| :: !Resets(es[j], id)
  }

  predicate Known(es: seq<Event>, r: nat, m: nat, id: string) { RegisteredAt(es, r, id) && HeardAt(es, m, id) }

  lemma {:induction false} KnownBefore(es: seq<Event>, e: Event, r: nat, m: nat, id: string)
    requires Known(es + [e], r, m, id) && r < |es|
    ensures if m < |es| then Known(es, r, m, id) else Resets(e, id) && exists p :: Known(es, r, p, id)
    ensures !((e.Register? || e.Unregister?) && e.id == id)
  {
    var all := es + [e];
    assert all[|es|] == e && forall j | 0 <= j < |es| :: all[j] == es[j];
    assert RegisteredAt(es, r, id);
    if m < |es| {
      assert HeardAt(es, m, id);
    } else {
      var p := LastSign(es, r, id);
      assert Known(es, r, p, id);
    }
  }

  lemma {:induction false} LastSign(es: seq<Event>, r: nat, id: string) returns (m: nat)
    requires r < |es| && Resets(es[r], id)
    ensures HeardAt(es, m, id)
    decreases |es|
  {
    var last := |es| - 1;
    if Resets(es[last], id) {
      m := last;
    } else {
      m := LastSign(es[..last], r, id);
    }
  }

  // A device with a record has the timeout of its last Register and was last seen at its
  // last Register or Beat.
  lemma {:induction false} RecordFollowsEvents(es: seq<Event>, r: nat, m: nat, id: string)
    requires Known(es, r, m, id)
    ensures var devices := Exec(map[], es);
      id in devices && devices[id].timeout == es[r].timeout && devices[id].lastSeen == es[m].now
    decreases |es|
  {
    var before, e := es[..|es| - 1], es[|es| - 1];
    assert es == before + [e] && es[..|before| + 1] == es && es[..|before|] == before;
    ExecNext(map[], es, |before|);
    if r < |before| {
      KnownBefore(before, e, r, m, id);
      var p :| Known(before, r, p, id) && (m < |before| ==> p == m);
      RecordFollowsEvents(before, r, p, id);
    }
  }

  // A device has a record iff its last Register or Unregister was a Register.
  lemma {:induction false} PresentIff(es: seq<Event>, id: string)
    ensures id in Exec(map[], es) <==> exists r: nat :: RegisteredAt(es, r, id)
    decreases |es|
  {
    if es != [] {
      var before, e := es[..|es| - 1], es[|es| - 1];
      assert es == before + [e] && es[..|before| + 1] == es && es[..|before|] == before;
      ExecNext(map[], es, |before|);
      PresentIff(before, id);
      if e.Register? && e.id == id {
        assert RegisteredAt(es, |before|, id);
      } else if e.Unregister? && e.id == id {
      } else {
        if r: nat :| RegisteredAt(before, r, id) {
          assert RegisteredAt(es, r, id);
        }
        if r: nat :| RegisteredAt(es, r, id) {
          assert RegisteredAt(before, r, id);
        }
      }
    }
  }

  // ── Exactly once ───────────────────────────────────────────────────────────

  predicate QuietAfter(es: seq<Event>, k: nat, id: string) { forall j | k < j < |es| :: !Resets(es[j], id) }

  // Reported at some event of the run, with no reset since.
  ghost predicate ReportedSinceReset(es: seq<Event>, id: string) {
    exists k: nat :: Reports(map[], es, k, id) && QuietAfter(es, k, id)
  }

  lemma {:induction false} SinceResetStep(es: seq<Event>, e: Event, id: string)
    ensures ReportedSinceReset(es + [e], id) <==>
      Reports(map[], es + [e], |es|, id) || (ReportedSinceReset(es, id) && !Resets(e, id))
  {
    var all, n := es + [e], |es|;
    forall k: nat | k < n
      ensures Reports(map[], all, k, id) <==> Reports(map[], es, k, id)
      ensures QuietAfter(all, k, id) <==> QuietAfter(es, k, id) && !Resets(e, id)
    {
      assert all[..k] == es[..k];
      assert forall j | k < j < n :: all[j] == es[j];
      assert all[n] == e;
    }
    assert QuietAfter(all, n, id);
  }

  // m_timedOut says exactly that the timeout was reported since the device last came back.
  lemma {:induction false} TimedOutIff(es: seq<Event>, id: string)
    requires id in Exec(map[], es)
    ensures Exec(map[], es)[id].timedOut <==> ReportedSinceReset(es, id)
    decreases |es|
  {
    if es != [] {
      hide ReportedSinceReset;
      var before, e := es[..|es| - 1], es[|es| - 1];
      assert es == before + [e] && es[..|before| + 1] == es && es[..|before|] == before;
      ExecNext(map[], es, |before|);
      SinceResetStep(before, e, id);
      if !Resets(e, id) {
        TimedOutIff(before, id);
      }
    }
  }

  lemma {:induction false} StaysTimedOut(devices: Devices, es: seq<Event>, id: string)
    requires id in devices ==> devices[id].timedOut
    requires forall j | 0 <= j < |es| :: !Resets(es[j], id)
    ensures var after := Exec(devices, es);
      id in after ==> after[id].timedOut
    decreases |es|
  {
    if es != [] {
      StaysTimedOut(Step(devices, es[0]), es[1..], id);
    }
  }

  // Between two reports of one id the device came back, whatever else happened.
  lemma {:induction false} ReportedOnce(devices: Devices, es: seq<Event>, i: nat, j: nat, id: string)
    requires i < j && Reports(devices, es, i, id) && Reports(devices, es, j, id)
    ensures exists k :: i < k < j && Resets(es[k], id)
  {
    if forall k | i < k < j :: !Resets(es[k], id) {
      ExecNext(devices, es, i);
      var middle := es[i + 1..j];
      ExecSplits(devices, es[..j], i + 1);
      assert es[..j][..i + 1] == es[..i + 1] && es[..j][i + 1..] == middle;
      StaysTimedOut(Exec(devices, es[..i + 1]), middle, id);
    }
  }

  // ── Latency ────────────────────────────────────────────────────────────────

  lemma {:induction false} TruncationIsHarmless(ticks: int, timeout: int)
    ensures timeout > 0 ==> (Seconds(ticks) >= timeout <==> ticks >= timeout * TICKS)
    ensures timeout <= 0 ==> (Seconds(ticks) >= timeout <==> ticks > (timeout - 1) * TICKS)
  {
  }

  // Scans come at most `gap` ticks after one another, the first after `previous`; other
  // events may come between them.
  predicate ScansWithin(es: seq<Event>, previous: int, gap: int)
    decreases |es|
  {
    es == [] ||
    if es[0].Scan? then es[0].now <= previous + gap && ScansWithin(es[1..], es[0].now, gap)
    else ScansWithin(es[1..], previous, gap)
  }

  predicate Silent(es: seq<Event>, id: string) { forall j | 0 <= j < |es| :: !Touches(es[j], id) }

  // A device silent since L, last scanned no later than L + timeout, is reported by a scan
  // in [L + timeout, L + timeout + gap], if scanning reaches its deadline at all.
  lemma {:induction false} TimeoutLatency(devices: Devices, es: seq<Event>, id: string, previous: int, gap: int)
    returns (k: nat)
    requires id in devices && !devices[id].timedOut && devices[id].timeout > 0
    requires Silent(es, id) && ScansWithin(es, previous, gap)
    requires previous <= devices[id].lastSeen + devices[id].timeout * TICKS
    requires exists i :: 0 <= i < |es| && es[i].Scan? && es[i].now >= devices[id].lastSeen + devices[id].timeout * TICKS
    ensures var deadline := devices[id].lastSeen + devices[id].timeout * TICKS;
      && Reports(devices, es, k, id)
      && deadline <= es[k].now <= deadline + gap
      && forall i: nat | i != k :: !Reports(devices, es, i, id)
    decreases |es|
  {
    var deadline := devices[id].lastSeen + devices[id].timeout * TICKS;
    var e, next := es[0], Step(devices, es[0]);
    assert es[..0] == [];
    if e.Scan? {
      TruncationIsHarmless(e.now - devices[id].lastSeen, devices[id].timeout);
    }
    if e.Scan? && e.now >= deadline {
      k := 0;
    } else {
      assert next[id] == devices[id];
      assert Silent(es[1..], id);
      var i :| 0 <= i < |es| && es[i].Scan? && es[i].now >= deadline;
      assert es[1..][i - 1] == es[i];
      var m := TimeoutLatency(next, es[1..], id, if e.Scan? then e.now else previous, gap);
      k := m + 1;
      assert es[..k] == [e] + es[1..][..m];
    }
    assert forall j | 0 <= j < |es| :: !Resets(es[j], id);
    forall i: nat | i != k && Reports(devices, es, i, id) ensures false {
      if i < k {
        ReportedOnce(devices, es, i, k, id);
      } else {
        ReportedOnce(devices, es, k, i, id);
      }
    }
  }

  // A scan reports a device iff it is registered, was last heard at least its timeout ago,
  // and was not reported since; all by the events before the scan. Truncation counts for a
  // timeout of zero or below only.
  lemma {:induction false} ReportsIff(es: seq<Event>, k: nat, r: nat, m: nat, id: string)
    requires k < |es| && es[k].Scan? && Known(es[..k], r, m, id)
    ensures var silence, timeout := es[k].now - es[m].now, es[r].timeout;
      Reports(map[], es, k, id) <==>
        && (if timeout > 0 then silence >= timeout * 1_000_000_000 else silence > (timeout - 1) * 1_000_000_000)
        && !ReportedSinceReset(es[..k], id)
  {
    hide ReportedSinceReset;
    RecordFollowsEvents(es[..k], r, m, id);
    TimedOutIff(es[..k], id);
    TruncationIsHarmless(es[k].now - es[m].now, es[r].timeout);
  }

  lemma {:induction false} UnknownIsNotReported(es: seq<Event>, k: nat, id: string)
    requires forall r: nat :: k < |es| ==> !RegisteredAt(es[..k], r, id)
    ensures !Reports(map[], es, k, id)
  {
    if k < |es| {
      PresentIff(es[..k], id);
    }
  }

  // The latency on a run: a device last heard at L, by the last event of `history`, and
  // silent in `es`, is reported exactly once in `es`, between L + timeout and a gap later.
  lemma {:induction false} TimeoutAfterLastSign(history: seq<Event>, es: seq<Event>, id: string, r: nat, previous: int, gap: int)
    returns (k: nat)
    requires history != [] && Known(history, r, |history| - 1, id) && history[r].timeout > 0
    requires Silent(es, id) && ScansWithin(es, previous, gap)
    requires var deadline := history[|history| - 1].now + history[r].timeout * 1_000_000_000;
      previous <= deadline && exists i :: 0 <= i < |es| && es[i].Scan? && es[i].now >= deadline
    ensures var deadline := history[|history| - 1].now + history[r].timeout * 1_000_000_000;
      && k < |es| && es[k].Scan? && deadline <= es[k].now <= deadline + gap
      && forall i | |history| <= i < |history| + |es| ::
           Reports(map[], history + es, i, id) <==> i == |history| + k
  {
    var devices := Exec(map[], history);
    RecordFollowsEvents(history, r, |history| - 1, id);
    NotReportedSince(history, id);
    TimedOutIff(history, id);
    k := TimeoutLatency(devices, es, id, previous, gap);
    forall j | |history| <= j < |history| + |es|
      ensures Reports(map[], history + es, j, id) <==> j == |history| + k
    {
      var i := j - |history|;
      ReportsLater(history, es, i, id);
    }
  }

  lemma {:induction false} ReportsLater(history: seq<Event>, es: seq<Event>, i: nat, id: string)
    requires i < |es|
    ensures Reports(map[], history + es, |history| + i, id) <==> Reports(Exec(map[], history), es, i, id)
  {
    var run := history + es[..i];
    ExecSplits(map[], run, |history|);
    assert (history + es)[..|history| + i] == run && (history + es)[|history| + i] == es[i];
    assert run[..|history|] == history && run[|history|..] == es[..i];
  }

  lemma {:induction false} NotReportedSince(es: seq<Event>, id: string)
    requires es != [] && Resets(es[|es| - 1], id)
    ensures !ReportedSinceReset(es, id)
  {
  }

  // ── The monitor object ─────────────────────────────────────────────────────

  class HeartbeatMonitor {
    const pollInterval: int     // seconds
    var devices: Devices

    constructor (pollInterval: int)
      ensures this.pollInterval == pollInterval && devices == map[]
    {
      this.pollInterval, devices := pollInterval, map[];
    }

    method Register(id: string, timeout: int, now: int)
      modifies this
      ensures devices == Step(old(devices), Event.Register(id, timeout, now))
      ensures devices == old(devices)[id := Record(timeout, now, false)]
    {
      devices := devices[id := Record(timeout, now, false)];
    }

    method Unregister(id: string)
      modifies this
      ensures devices == Step(old(devices), Event.Unregister(id))
      ensures devices == old(devices) - {id}
    {
      devices := devices - {id};
    }

    method RecordHeartbeat(id: string, now: int)
      modifies this
      ensures devices == Step(old(devices), Beat(id, now))
      ensures id in devices <==> id in old(devices)
      ensures id in devices ==> devices == old(devices)[id := Record(old(devices)[id].timeout, now, false)]
      ensures id !in devices ==> devices == old(devices)
    {
      if id in devices {
        devices := devices[id := devices[id].(lastSeen := now)];
        devices := devices[id := devices[id].(timedOut := false)];
      }
    }

    // The locked part of PollLoop; the map is walked in no particular order.
    method ScanDevices(now: int) returns (timedOut: seq<string>)
      modifies this
      ensures devices == Step(old(devices), Scan(now))
      ensures forall id :: id in timedOut <==> id in Due(old(devices), now)
      ensures forall i, j | 0 <= i < j < |timedOut| :: timedOut[i] != timedOut[j]
    {
      timedOut := [];
      ghost var was := devices;
      var todo := devices.Keys;
      while todo != {}
        invariant todo <= devices.Keys == was.Keys
        invariant forall id | id in devices ::
          devices[id] == if id in todo then was[id] else Scanned(was, now)[id]
        invariant forall id :: id in timedOut <==> id in Due(was, now) - todo
        invariant forall i, j | 0 <= i < j < |timedOut| :: timedOut[i] != timedOut[j]
      {
        var id :| id in todo;
        var elapsed := Seconds(now - devices[id].lastSeen);
        if elapsed >= devices[id].timeout && !devices[id].timedOut {
          devices := devices[id := devices[id].(timedOut := true)];
          assert id !in timedOut;
          assert forall i | 0 <= i < |timedOut| :: timedOut[i] in timedOut;
          timedOut := timedOut + [id];
        }
        todo := todo - {id};
      }
    }

    // The sliced sleep of PollLoop. running(k) is what the k-th test of m_running reads.
    method SlicedSleep(running: nat -> bool) returns (slept: seq<int>)
      ensures forall i | 0 <= i < |slept| :: 0 < slept[i] <= 1 && running(i)
      ensures Total(slept) <= if pollInterval > 0 then pollInterval else 0
      ensures Total(slept) >= pollInterval || !running(|slept|)
      ensures forall k: nat | !running(k) :: |slept| <= k   // a stop is noticed before another slice
    {
      slept := [];
      var remaining := pollInterval;
      while remaining > 0 && running(|slept|)
        invariant Total(slept) + remaining == pollInterval
        invariant remaining >= 0 || slept == []
        invariant forall i | 0 <= i < |slept| :: 0 < slept[i] <= 1 && running(i)
        decreases remaining
      {
        var slice := if remaining < 1 then remaining else 1;
        assert (slept + [slice])[..|slept|] == slept;
        slept := slept + [slice];
        remaining := remaining - slice;
      }
    }
  }

  function Total(slices: seq<int>): int {
    if slices == [] then 0 else Total(slices[..|slices| - 1]) + slices[|slices| - 1]
  }
}
