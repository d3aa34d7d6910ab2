/**
 Sliding windows kept as pruned deques: the failure limiter
 (src/oumigo/service/manager/access.py) and the request-rate tracker
 (src/oumigo/service/worker/metrics.py). Clock readings are parameters that never go
 back; `recorded` is the whole past, which the code does not keep.
*/
module Windows {
  import opened Prelude

  /** What a pruning loop leaves: leading entries before the cutoff are popped. */
  function Pruned<E>(es: seq<E>, at: E -> real, cutoff: real): seq<E> {
    if es == [] || at(es[0]) >= cutoff then es else Pruned(es[1..], at, cutoff)
  }

  /** The entries of the window, picked from the whole past. */
  function Within<E>(es: seq<E>, at: E -> real, cutoff: real): seq<E> {
    if es == [] then [] else (if at(es[0]) >= cutoff then [es[0]] else []) + Within(es[1..], at, cutoff)
  }

  ghost predicate Ordered<E>(es: seq<E>, at: E -> real) {
    forall i, j | 0 <= i < j < |es| :: at(es[i]) <= at(es[j])
  }

  /** The deque is the past without a prefix that had left the window by then. */
  ghost predicate Keeps<E>(past: seq<E>, kept: seq<E>, at: E -> real, cutoff: real) {
    && |kept| <= |past| && kept == past[|past| - |kept|..]
    && forall i | 0 <= i < |past| - |kept| :: at(past[i]) < cutoff
  }

  lemma {:induction false} AllWithin<E>(es: seq<E>, at: E -> real, cutoff: real)
    requires forall i | 0 <= i < |es| :: at(es[i]) >= cutoff
    ensures Within(es, at, cutoff) == es
  {
    if es != [] {
      AllWithin(es[1..], at, cutoff);
      assert es == [es[0]] + es[1..];
    }
  }

  lemma {:induction false} WithinSkips<E>(es: seq<E>, at: E -> real, cutoff: real, k: nat)
    requires k <= |es| && forall i | 0 <= i < k :: at(es[i]) < cutoff
    ensures Within(es, at, cutoff) == Within(es[k..], at, cutoff)
  {
    if k > 0 {
      WithinSkips(es[1..], at, cutoff, k - 1);
      assert es[1..][k - 1..] == es[k..];
    } else {
      assert es[0..] == es;
    }
  }

  lemma {:induction false} PrunedDrops<E>(es: seq<E>, at: E -> real, cutoff: real) returns (k: nat)
    ensures k <= |es| && Pruned(es, at, cutoff) == es[k..]
    ensures forall i | 0 <= i < k :: at(es[i]) < cutoff
    ensures k < |es| ==> at(es[k]) >= cutoff
  {
    if es == [] || at(es[0]) >= cutoff {
      k := 0;
    } else {
      k := PrunedDrops(es[1..], at, cutoff);
      assert es[1..][k..] == es[k + 1..];
      k := k + 1;
    }
  }

  /** The window is the past without what is before the cutoff. */
  lemma {:induction false} WithinCounts<E>(es: seq<E>, at: E -> real, cutoff: real, e: E)
    ensures multiset(Within(es, at, cutoff))[e] == if at(e) >= cutoff then multiset(es)[e] else 0
  {
    if es != [] {
      WithinCounts(es[1..], at, cutoff, e);
      assert es == [es[0]] + es[1..];
    }
  }

  /** Pruning an earlier-pruned deque at a later cutoff leaves exactly the window of the
      whole past, and keeps it a suffix of that past. */
  lemma PrunedIsWindow<E>(past: seq<E>, kept: seq<E>, at: E -> real, before: real, cutoff: real)
    requires Ordered(past, at) && Keeps(past, kept, at, before) && before <= cutoff
    ensures Pruned(kept, at, cutoff) == Within(past, at, cutoff)
    ensures Keeps(past, Pruned(kept, at, cutoff), at, cutoff)
  {
    var d := |past| - |kept|;
    var k := PrunedDrops(kept, at, cutoff);
    var pruned := kept[k..];
    assert pruned == past[d + k..];
    forall i | 0 <= i < d + k
      ensures at(past[i]) < cutoff
    {
      if i >= d {
        assert past[i] == kept[i - d];
      }
    }
    WithinSkips(past, at, cutoff, d + k);
    forall i | 0 <= i < |pruned|
      ensures at(pruned[i]) >= cutoff
    {
      assert pruned[0] == kept[k] && pruned[i] == past[d + k + i] && pruned[0] == past[d + k];
    }
    AllWithin(pruned, at, cutoff);
  }

  lemma KeepsGrows<E>(past: seq<E>, kept: seq<E>, at: E -> real, cutoff: real, e: E)
    requires Keeps(past, kept, at, cutoff)
    ensures Keeps(past + [e], kept + [e], at, cutoff)
  {
  }

  method Prune<E>(es: seq<E>, at: E -> real, cutoff: real) returns (kept: seq<E>)
    ensures kept == Pruned(es, at, cutoff)
  {
    kept := es;
    while kept != [] && at(kept[0]) < cutoff
      invariant Pruned(kept, at, cutoff) == Pruned(es, at, cutoff)
      decreases |kept|
    {
      kept := kept[1..];
    }
  }

  // ---------------------------------------------------------------- failed authentications

  function Itself(t: real): real { t }

  /** One host's deque against everything recorded for it, when the clock stands at `clock`. */
  ghost predicate Tracks(past: seq<real>, kept: seq<real>, clock: real, window: real) {
    && Ordered(past, Itself) && Keeps(past, kept, Itself, clock - window)
    && forall i | 0 <= i < |past| :: past[i] <= clock
  }

  lemma TracksLater(past: seq<real>, kept: seq<real>, clock: real, now: real, window: real)
    requires Tracks(past, kept, clock, window) && clock <= now
    ensures Tracks(past, kept, now, window)
  {
  }

  lemma TracksPruned(past: seq<real>, kept: seq<real>, clock: real, now: real, window: real)
    requires Tracks(past, kept, clock, window) && clock <= now
    ensures Pruned(kept, Itself, now - window) == Within(past, Itself, now - window)
    ensures Tracks(past, Pruned(kept, Itself, now - window), now, window)
  {
    PrunedIsWindow(past, kept, Itself, clock - window, now - window);
  }

  lemma TracksRecorded(past: seq<real>, kept: seq<real>, clock: real, stamp: real, window: real)
    requires Tracks(past, kept, clock, window) && clock <= stamp
    ensures Tracks(past + [stamp], kept + [stamp], stamp, window)
  {
    KeepsGrows(past, kept, Itself, stamp - window, stamp);
  }

  function TimesOf(m: map<string, seq<real>>, host: string): seq<real> {
    if host in m then m[host] else []
  }

  ghost predicate AllTrack(recorded: map<string, seq<real>>, failures: map<string, seq<real>>, clock: real, window: real) {
    forall host: string :: Tracks(TimesOf(recorded, host), TimesOf(failures, host), clock, window)
  }

  lemma PruningTracks(recorded: map<string, seq<real>>, failures: map<string, seq<real>>, host: string, pruned: seq<real>,
                      clock: real, now: real, window: real)
    requires AllTrack(recorded, failures, clock, window) && clock <= now
    requires Tracks(TimesOf(recorded, host), pruned, now, window)
    ensures AllTrack(recorded, failures[host := pruned], now, window)
  {
    var updated := failures[host := pruned];
    forall other: string
      ensures Tracks(TimesOf(recorded, other), TimesOf(updated, other), now, window)
    {
      if other != host {
        TracksLater(TimesOf(recorded, other), TimesOf(failures, other), clock, now, window);
      }
    }
  }

  lemma RecordingTracks(recorded: map<string, seq<real>>, failures: map<string, seq<real>>, host: string, past: seq<real>, kept: seq<real>,
                        clock: real, stamp: real, window: real)
    requires AllTrack(recorded, failures, clock, window) && clock <= stamp && Tracks(past, kept, stamp, window)
    ensures AllTrack(recorded[host := past], failures[host := kept], stamp, window)
  {
    var recorded', failures' := recorded[host := past], failures[host := kept];
    forall other: string
      ensures Tracks(TimesOf(recorded', other), TimesOf(failures', other), stamp, window)
    {
      if other != host {
        TracksLater(TimesOf(recorded, other), TimesOf(failures, other), clock, stamp, window);
      }
    }
  }

  lemma RecordingStep(recorded: map<string, seq<real>>, failures: map<string, seq<real>>, host: string, times: seq<real>,
                      clock: real, stamp: real, window: real)
    requires AllTrack(recorded, failures, clock, window) && clock <= stamp && TimesOf(failures, host) == times
    ensures AllTrack(recorded[host := TimesOf(recorded, host) + [stamp]], failures[host := times + [stamp]], stamp, window)
  {
    TracksRecorded(TimesOf(recorded, host), times, clock, stamp, window);
    RecordingTracks(recorded, failures, host, TimesOf(recorded, host) + [stamp], times + [stamp], clock, stamp, window);
  }

  /** One host's deque pruned, the others as they were. */
  method PruneHost(ghost recorded: map<string, seq<real>>, failures: map<string, seq<real>>, host: string, ghost clock: real,
                   now: real, window: real)
    returns (times: seq<real>, updated: map<string, seq<real>>)
    requires AllTrack(recorded, failures, clock, window) && clock <= now
    ensures times == Within(TimesOf(recorded, host), Itself, now - window) && updated == failures[host := times]
    ensures AllTrack(recorded, updated, now, window)
  {
    TracksPruned(TimesOf(recorded, host), TimesOf(failures, host), clock, now, window);
    times := Prune(TimesOf(failures, host), Itself, now - window);
    PruningTracks(recorded, failures, host, times, clock, now, window);
    updated := failures[host := times];
  }

  class FailureLimiter {
    const maxFailures: int
    const window: real
    var failures: map<string, seq<real>>
    ghost var recorded: map<string, seq<real>>
    ghost var clock: real

    constructor (maxFailures: int, window: real, now: real)
      requires window >= 0.0
      ensures Valid() && clock == now && recorded == map[]
      ensures this.maxFailures == maxFailures && this.window == window
    {
      this.maxFailures, this.window := maxFailures, window;
      failures, recorded, clock := map[], map[], now;
    }

    ghost predicate Valid()
      reads this
    {
      AllTrack(recorded, failures, clock, window)
    }

    /** The failures of a host that lie in the window, out of all it ever had. */
    ghost function InWindow(host: string, now: real): seq<real>
      reads this
    {
      Within(TimesOf(recorded, host), Itself, now - window)
    }

    /** `_recent`. */
    method Recent(host: string, now: real) returns (times: seq<real>)
      requires Valid() && clock <= now
      modifies this
      ensures Valid() && clock == now && recorded == old(recorded)
      ensures times == InWindow(host, now) && failures == old(failures)[host := times]
    {
      var updated;
      times, updated := PruneHost(recorded, failures, host, clock, now, window);
      failures, clock := updated, now;
      forall other: string
        ensures Tracks(TimesOf(recorded, other), TimesOf(failures, other), clock, window)
      {
        assert Tracks(TimesOf(recorded, other), TimesOf(updated, other), now, window);
      }
    }

    /** `blocked`: enough of all the failures ever recorded lie in the window. */
    method Blocked(host: Option<string>, now: real) returns (b: bool)
      requires Valid() && clock <= now
      modifies this
      ensures Valid() && recorded == old(recorded)
      ensures b <==> host.Some? && |InWindow(host.value, now)| >= maxFailures
    {
      if host.None? {
        return false;
      }
      var times := Recent(host.value, now);
      b := |times| >= maxFailures;
    }

    /** `record`, which reads the clock twice: to prune, then to stamp the failure. */
    method Record(host: Option<string>, now: real, stamp: real)
      requires Valid() && clock <= now <= stamp
      modifies this
      ensures Valid()
      ensures recorded == if host.None? then old(recorded)
                          else old(recorded)[host.value := TimesOf(old(recorded), host.value) + [stamp]]
    {
      if host.None? {
        return;
      }
      var times := Recent(host.value, now);
      ghost var extended := recorded[host.value := TimesOf(recorded, host.value) + [stamp]];
      var updated := failures[host.value := times + [stamp]];
      RecordingStep(recorded, failures, host.value, times, clock, stamp, window);
      failures, recorded, clock := updated, extended, stamp;
      forall other: string
        ensures Tracks(TimesOf(recorded, other), TimesOf(failures, other), clock, window)
      {
        assert Tracks(TimesOf(extended, other), TimesOf(updated, other), stamp, window);
      }
    }
  }

  // ---------------------------------------------------------------- request rate

  datatype Sample = Sample(epoch: int, count: real)

  function EpochOf(s: Sample): real { s.epoch as real }

  const WINDOW_MIN := 60
  const WINDOW_MAX := 180

  /** The rate against a reference sample, in requests per minute. */
  function RateFrom(ref: Sample, epoch: int, count: real): Option<real> {
    var window := epoch - ref.epoch;
    if window >= WINDOW_MIN && count >= ref.count
    then Some((count - ref.count) / window as real * 60.0) else None
  }

  /** The rate by the whole past: against the oldest sample of the last 180 seconds. */
  function RateOver(past: seq<Sample>, epoch: int, count: Option<real>): Option<real> {
    if count.None? then None
    else
      var window := Within(past, EpochOf, (epoch - WINDOW_MAX) as real);
      if window == [] then None else RateFrom(window[0], epoch, count.value)
  }

  lemma {:induction false} OldestWithin(past: seq<Sample>, cutoff: int) returns (i: nat)
    requires Within(past, EpochOf, cutoff as real) != []
    ensures i < |past| && past[i] == Within(past, EpochOf, cutoff as real)[0] && past[i].epoch >= cutoff
    ensures forall k | 0 <= k < i :: past[k].epoch < cutoff
  {
    if past[0].epoch >= cutoff {
      i := 0;
    } else {
      i := OldestWithin(past[1..], cutoff);
      i := i + 1;
    }
  }

  /** An emitted rate is never negative, and is the count gained per minute since the oldest
      sample of the last 180 seconds, which is at least 60 seconds old. */
  lemma RateIsOverItsWindow(past: seq<Sample>, epoch: int, count: real) returns (i: nat)
    requires RateOver(past, epoch, Some(count)).Some?
    ensures i < |past| && 60 <= epoch - past[i].epoch <= 180
    ensures forall k | 0 <= k < i :: epoch - past[k].epoch > 180
    ensures var r := RateOver(past, epoch, Some(count)).value;
      r >= 0.0 && r * (epoch - past[i].epoch) as real == (count - past[i].count) * 60.0
  {
    i := OldestWithin(past, epoch - WINDOW_MAX);
    var d, w := count - past[i].count, (epoch - past[i].epoch) as real;
    assert d / w >= 0.0;
    assert d / w * w == d;
  }

  /** WHEN A RATE IS EMITTED: exactly when the oldest sample of the last 180 seconds is at least
      60 seconds old and the counter has not gone back since; never without such a sample. */
  lemma RateIffOldEnough(past: seq<Sample>, epoch: int, count: real)
    ensures RateOver(past, epoch, Some(count)).Some? <==>
      exists i | 0 <= i < |past| ::
        && epoch - 180 <= past[i].epoch <= epoch - 60 && count >= past[i].count
        && forall k | 0 <= k < i :: past[k].epoch < epoch - 180
    ensures RateOver(past, epoch, None).None?
  {
    if Within(past, EpochOf, (epoch - WINDOW_MAX) as real) != [] {
      var i := OldestWithin(past, epoch - WINDOW_MAX);
    } else {
      NothingWithin(past, epoch - WINDOW_MAX);
    }
  }

  lemma {:induction false} NothingWithin(past: seq<Sample>, cutoff: int)
    requires Within(past, EpochOf, cutoff as real) == []
    ensures forall k | 0 <= k < |past| :: past[k].epoch < cutoff
  {
    if past != [] {
      NothingWithin(past[1..], cutoff);
      assert forall k | 1 <= k < |past| :: past[k] == past[1..][k - 1];
    }
  }

  /** The samples against everything recorded. */
  ghost predicate Trails(past: seq<Sample>, kept: seq<Sample>) {
    && Ordered(past, EpochOf)
    && Keeps(past, kept, EpochOf, if past == [] then 0.0 else (past[|past| - 1].epoch - WINDOW_MAX) as real)
  }

  lemma TrailPruned(past: seq<Sample>, kept: seq<Sample>, epoch: int)
    requires Trails(past, kept) && (past != [] ==> past[|past| - 1].epoch <= epoch)
    ensures var cutoff := (epoch - WINDOW_MAX) as real;
      var pruned := Pruned(kept, EpochOf, cutoff);
      pruned == Within(past, EpochOf, cutoff) && Keeps(past, pruned, EpochOf, cutoff)
  {
    var cutoff := (epoch - WINDOW_MAX) as real;
    PrunedIsWindow(past, kept, EpochOf, if past == [] then cutoff else (past[|past| - 1].epoch - WINDOW_MAX) as real, cutoff);
  }

  lemma TrailGrows(past: seq<Sample>, kept: seq<Sample>, s: Sample)
    requires Ordered(past, EpochOf) && Keeps(past, kept, EpochOf, (s.epoch - WINDOW_MAX) as real)
    requires past != [] ==> past[|past| - 1].epoch <= s.epoch
    ensures Trails(past + [s], kept + [s])
  {
    KeepsGrows(past, kept, EpochOf, (s.epoch - WINDOW_MAX) as real, s);
  }

  lemma TrailUpdated(past: seq<Sample>, kept: seq<Sample>, epoch: int, count: real)
    requires Trails(past, kept) && (past != [] ==> past[|past| - 1].epoch <= epoch)
    ensures var pruned := Pruned(kept, EpochOf, (epoch - WINDOW_MAX) as real);
      && RateOver(past, epoch, Some(count)) == (if pruned == [] then None else RateFrom(pruned[0], epoch, count))
      && Trails(past + [Sample(epoch, count)], pruned + [Sample(epoch, count)])
  {
    TrailPruned(past, kept, epoch);
    TrailGrows(past, Pruned(kept, EpochOf, (epoch - WINDOW_MAX) as real), Sample(epoch, count));
  }

  class RequestRateTracker {
    var samples: seq<Sample>
    ghost var recorded: seq<Sample>

    constructor ()
      ensures Valid() && recorded == []
    {
      samples, recorded := [], [];
    }

    ghost predicate Valid()
      reads this
    {
      Trails(recorded, samples)
    }

    /** `update`: the rate its whole past gives; slots without the counter leave no trace. */
    method Update(epoch: int, count: Option<real>) returns (rate: Option<real>)
      requires Valid() && (recorded != [] ==> recorded[|recorded| - 1].epoch <= epoch)
      modifies this
      ensures Valid() && rate == RateOver(old(recorded), epoch, count)
      ensures recorded == old(recorded) + (if count.Some? then [Sample(epoch, count.value)] else [])
    {
      if count.None? {
        return None;
      }
      TrailUpdated(recorded, samples, epoch, count.value);
      samples := Prune(samples, EpochOf, (epoch - WINDOW_MAX) as real);
      rate := None;
      if samples != [] {
        rate := RateFrom(samples[0], epoch, count.value);
      }
      samples := samples + [Sample(epoch, count.value)];
      recorded := recorded + [Sample(epoch, count.value)];
    }
  }
}
