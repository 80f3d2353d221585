/**
 * `Profiler`: attributes wall-clock time to named actions.  Every interval between two changes of
 * action is charged to the action that was running: idling time to a tentative idle counter that
 * each idle report folds into the total, any other action's time to its bucket.  Times are
 * milliseconds read from the clock by the caller.
 */
module Profiler {
  import opened Wrappers

  const IDLE_SPARK_DELAY := 10000          // ten seconds
  const IDLE_LOG_CAP := (60 / 10) * 5      // five minutes of reports

  /** Some key of a non-empty set. */
  ghost function Pick(keys: set<string>): (k: string)
    requires keys != {}
    ensures k in keys
  {
    var k :| k in keys; k
  }

  /** The sum of `m` over `keys`. */
  ghost function SumOver(m: map<string, int>, keys: set<string>): int
    requires keys <= m.Keys
    decreases keys
  {
    if keys == {} then 0 else var k := Pick(keys); m[k] + SumOver(m, keys - {k})
  }

  /** The sum of all buckets. */
  ghost function Total(m: map<string, int>): int {
    SumOver(m, m.Keys)
  }

  /** Any key can be taken out first. */
  lemma {:induction false} SumOverRemove(m: map<string, int>, keys: set<string>, k: string)
    requires keys <= m.Keys && k in keys
    ensures SumOver(m, keys) == m[k] + SumOver(m, keys - {k})
    decreases keys
  {
    var j := Pick(keys);
    if j != k {
      SumOverRemove(m, keys - {j}, k);
      SumOverRemove(m, keys - {k}, j);
      assert keys - {j} - {k} == keys - {k} - {j};
    }
  }

  /** The sum over `keys` depends only on the values at `keys`. */
  lemma {:induction false} SumOverAgree(m: map<string, int>, n: map<string, int>, keys: set<string>)
    requires keys <= m.Keys && keys <= n.Keys
    requires forall k :: k in keys ==> m[k] == n[k]
    ensures SumOver(m, keys) == SumOver(n, keys)
    decreases keys
  {
    if keys != {} {
      var k := Pick(keys);
      SumOverAgree(m, n, keys - {k});
    }
  }

  /** Charging `d` to bucket `k`, created at 0 when missing, adds `d` to the total. */
  lemma Charge(m: map<string, int>, k: string, d: int)
    ensures Total(m[k := (if k in m then m[k] else 0) + d]) == Total(m) + d
  {
    var n := m[k := (if k in m then m[k] else 0) + d];
    SumOverRemove(n, n.Keys, k);
    assert n.Keys - {k} == m.Keys - {k};
    SumOverAgree(n, m, m.Keys - {k});
    if k in m {
      SumOverRemove(m, m.Keys, k);
    } else {
      assert m.Keys - {k} == m.Keys;
    }
  }

  /** `idle_log.append(entry)` followed by keeping the last `IDLE_LOG_CAP` entries. */
  function Capped(log: seq<int>, entry: int): (r: seq<int>)
    ensures |r| == if |log| + 1 > IDLE_LOG_CAP then IDLE_LOG_CAP else |log| + 1
    ensures r[|r| - 1] == entry
    ensures r == (log + [entry])[|log| + 1 - |r|..]
  {
    var l := log + [entry];
    if |l| > IDLE_LOG_CAP then l[|l| - IDLE_LOG_CAP..] else l
  }

  /** Once full, the log keeps its length: the oldest entry makes room for the newest. */
  lemma CappedSlides(log: seq<int>, entry: int)
    requires |log| == IDLE_LOG_CAP
    ensures Capped(log, entry) == log[1..] + [entry]
  {
  }

  class Profiler {
    const startTime: int
    var times: map<string, int>
    var lastTime: int
    var lastAction: string
    var idleTime: int
    var totalIdleTime: int
    var idleLog: seq<int>
    var lastIdlePrint: int

    /** All time since start is in exactly one place: a bucket, the tentative idle counter or the idle total. */
    ghost predicate Balanced()
      reads this
    {
      Total(times) + idleTime + totalIdleTime == lastTime - startTime
    }

    constructor (now: int)
      ensures startTime == now && times == map[] && lastTime == now && lastAction == "startup"
      ensures idleTime == 0 && totalIdleTime == 0 && idleLog == [] && lastIdlePrint == now
      ensures Balanced()
    {
      startTime := now;
      times := map[];
      lastTime := now;
      lastAction := "startup";
      idleTime, totalIdleTime := 0, 0;
      idleLog := [];
      lastIdlePrint := now;
    }

    /** `clear`: the buckets are emptied; the idle counters are kept. */
    method Clear()
      modifies this
      ensures times == map[]
      ensures lastTime == old(lastTime) && lastAction == old(lastAction) && idleTime == old(idleTime)
      ensures totalIdleTime == old(totalIdleTime) && idleLog == old(idleLog) && lastIdlePrint == old(lastIdlePrint)
      ensures old(Balanced()) ==> (Balanced() <==> old(Total(times)) == 0)
    {
      times := map[];
    }

    /** `reset_time`: the time since the last reading, which becomes `now`. */
    method ResetTime(now: int) returns (delta: int)
      modifies this
      ensures delta == now - old(lastTime) && lastTime == now
      ensures times == old(times) && lastAction == old(lastAction) && idleTime == old(idleTime)
      ensures totalIdleTime == old(totalIdleTime) && idleLog == old(idleLog) && lastIdlePrint == old(lastIdlePrint)
    {
      delta := now - lastTime;
      lastTime := now;
    }

    /**
     * `log(name)` at time `now`; `None` stands for Python's `None`.  Naming the running action
     * changes nothing.  Otherwise the time since the last change goes to the running action
     * and `name` (or `"profiling"`) starts.
     */
    method Log(name: Option<string>, now: int)
      modifies this
      ensures name == Some(old(lastAction)) ==>
        times == old(times) && lastTime == old(lastTime) && lastAction == old(lastAction) && idleTime == old(idleTime)
      ensures name != Some(old(lastAction)) ==>
        var delta := now - old(lastTime);
        lastTime == now &&
        lastAction == (if name.Some? then name.value else "profiling") &&
        (old(lastAction) == "idling" ==> idleTime == old(idleTime) + delta && times == old(times)) &&
        (old(lastAction) != "idling" ==>
           idleTime == old(idleTime) &&
           times == old(times)[old(lastAction) := (if old(lastAction) in old(times) then old(times)[old(lastAction)] else 0) + delta])
      ensures totalIdleTime == old(totalIdleTime) && idleLog == old(idleLog) && lastIdlePrint == old(lastIdlePrint)
      ensures old(Balanced()) ==> Balanced()
    {
      var last := lastAction;
      if name == Some(last) {
        return;
      }
      if last == "idling" {
        var delta := ResetTime(now);
        idleTime := idleTime + delta;
      } else {
        if last !in times {
          times := times[last := 0];
        }
        var delta := ResetTime(now);
        times := times[last := times[last] + delta];
      }
      lastAction := if name.Some? then name.value else "profiling";
      Charge(old(times), last, now - old(lastTime));
    }

    /**
     * `print_idle_report(now)`: the tentative idle time is appended to the capped log, folded into
     * the idle total and reset; the print time is recorded.
     */
    method PrintIdleReport(now: int)
      modifies this
      ensures idleLog == Capped(old(idleLog), old(idleTime))
      ensures totalIdleTime == old(totalIdleTime) + old(idleTime) && idleTime == 0 && lastIdlePrint == now
      ensures times == old(times) && lastTime == old(lastTime) && lastAction == old(lastAction)
      ensures old(Balanced()) ==> Balanced()
      ensures |old(idleLog)| <= IDLE_LOG_CAP ==> |idleLog| <= IDLE_LOG_CAP
    {
      idleLog := idleLog + [idleTime];
      if |idleLog| > IDLE_LOG_CAP {
        idleLog := idleLog[|idleLog| - IDLE_LOG_CAP..];
      }
      totalIdleTime, idleTime := totalIdleTime + idleTime, 0;
      lastIdlePrint := now;
    }

    /**
     * `idle`: logs `"idling"` (the clock read as `logTime`), then, reading the clock again as `now`,
     * reports when more than ten seconds passed since the last report.  Logging `"idling"` never
     * charges idle time itself (it either changes nothing or closes another action), so a report
     * records the idle time charged before this call.
     */
    method Idle(logTime: int, now: int)
      modifies this
      ensures lastAction == "idling"
      ensures old(lastAction) == "idling" ==> times == old(times) && lastTime == old(lastTime)
      ensures old(lastAction) != "idling" ==>
        lastTime == logTime &&
        times == old(times)[old(lastAction) := (if old(lastAction) in old(times) then old(times)[old(lastAction)] else 0) +
                                                (logTime - old(lastTime))]
      ensures now - old(lastIdlePrint) > IDLE_SPARK_DELAY ==>
        lastIdlePrint == now && idleTime == 0 && idleLog == Capped(old(idleLog), old(idleTime)) &&
        totalIdleTime == old(totalIdleTime) + old(idleTime)
      ensures now - old(lastIdlePrint) <= IDLE_SPARK_DELAY ==>
        lastIdlePrint == old(lastIdlePrint) && idleLog == old(idleLog) && totalIdleTime == old(totalIdleTime) &&
        idleTime == old(idleTime)
      ensures old(Balanced()) ==> Balanced()
    {
      Log(Some("idling"), logTime);
      if now - lastIdlePrint > IDLE_SPARK_DELAY {
        PrintIdleReport(now);
      }
    }
  }
}
