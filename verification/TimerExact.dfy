/** When the scan of the timer wheel delivers exactly the tasks that are due. */
module TimerExact {
  import opened Sequences
  import opened TimerSpec

  // ---- arithmetic of the circle -----------------------------------------------------------

  lemma MulSign(d: int, n: nat)
    requires 0 < n
    ensures d >= 1 ==> d * n >= n
    ensures d <= -1 ==> d * n + n <= 0
    ensures d >= 0 ==> d * n >= 0
  {
  }

  lemma ModUnique(a: int, n: nat, q: int, r: int)
    requires 0 < n && 0 <= r < n && a == q * n + r
    ensures a % n == r
  {
    var d := a / n - q;
    assert a == (a / n) * n + a % n;
    assert d * n == r - a % n;
    MulSign(d, n);
  }

  lemma ModShift(a: int, x: int, n: nat)
    requires 0 < n
    ensures (a + x % n) % n == (a + x) % n
  {
    var y := a + x % n;
    assert x == (x / n) * n + x % n && y == (y / n) * n + y % n;
    assert a + x == (y / n + x / n) * n + y % n by { assert (y / n + x / n) * n == (y / n) * n + (x / n) * n; }
    ModUnique(a + x, n, y / n + x / n, y % n);
  }

  // ---- deadlines --------------------------------------------------------------------------

  /** The delay that a request for ms milliseconds gets: none acts like a full turn. */
  function Delay(size: nat, ms: nat): nat {
    if ms == 0 || ms > size then size else ms
  }

  /** The bucket in which a deadline belongs. */
  function Home<T>(w: Wheel<T>, d: int): (b: nat)
    requires w.Shaped()
    ensures b < w.size
  {
    (d - w.last + w.pos) % w.size
  }

  ghost predicate InBucket<T>(w: Wheel<T>, b: nat, t: T) {
    b < |w.buckets| && t in w.buckets[b]
  }

  /** The wheel holds exactly the pending tasks, each once and where its deadline belongs. */
  ghost predicate Tracks<T(!new)>(w: Wheel<T>, due: map<T, int>) {
    && w.Shaped()
    && (forall b: nat, t: T :: InBucket(w, b, t) ==> t in due && b == Home(w, due[t]) && due[t] <= w.last + w.size)
    && (forall t: T :: t in due ==> InBucket(w, Home(w, due[t]), t))
    && (forall b :: 0 <= b < w.size ==> NoRepeat(w.buckets[b]))
  }

  /** No pending task is overdue. */
  ghost predicate OnTime<T>(w: Wheel<T>, due: map<T, int>) {
    forall t :: t in due ==> w.last < due[t]
  }

  ghost function DueBy<T>(due: map<T, int>, now: int): set<T> {
    set t | t in due && due[t] <= now
  }

  ghost function Elems<T>(s: seq<T>): set<T> {
    set t | t in s
  }

  // ---- what a scan drains -----------------------------------------------------------------

  predicate Visited<T>(w: Wheel<T>, now: nat, b: nat)
    requires w.Shaped() && w.last <= now
  {
    w.pos < b <= Target(w, now)
  }

  lemma {:induction false} ConcatHas<T>(bs: seq<seq<T>>, t: T)
    ensures t in Concat(bs) <==> exists k :: 0 <= k < |bs| && t in bs[k]
  {
    if bs != [] {
      var init := bs[..|bs| - 1];
      ConcatHas(init, t);
      if t in Concat(init) {
        var k :| 0 <= k < |init| && t in init[k];
        assert t in bs[k];
      }
      if exists k :: 0 <= k < |bs| && t in bs[k] {
        var k :| 0 <= k < |bs| && t in bs[k];
        assert k < |bs| - 1 ==> t in init[k];
      }
    }
  }

  lemma {:induction false} ConcatNoRepeat<T>(bs: seq<seq<T>>)
    requires forall k :: 0 <= k < |bs| ==> NoRepeat(bs[k])
    requires forall j, k, t :: 0 <= j < k < |bs| && t in bs[j] ==> t !in bs[k]
    ensures NoRepeat(Concat(bs))
  {
    if bs != [] {
      var init, last := bs[..|bs| - 1], bs[|bs| - 1];
      ConcatNoRepeat(init);
      forall t | t in Concat(init) ensures t !in last {
        ConcatHas(init, t);
        var k :| 0 <= k < |init| && t in init[k];
        assert t in bs[k];
      }
      NoRepeatConcat(Concat(init), last);
    }
  }

  /** A task is delivered exactly when its bucket is visited. */
  lemma DeliveredIff<T>(w: Wheel<T>, now: nat, t: T)
    requires w.Shaped() && w.last <= now
    ensures t in Scan(w, now).1 <==> exists b: nat :: InBucket(w, b, t) && Visited(w, now, b)
  {
    var target := Target(w, now);
    if target > w.pos {
      var bs := w.buckets[w.pos + 1..target + 1];
      ConcatHas(bs, t);
      if t in Concat(bs) {
        var k :| 0 <= k < |bs| && t in bs[k];
        assert InBucket(w, w.pos + 1 + k, t) && Visited(w, now, w.pos + 1 + k);
      }
      if exists b: nat :: InBucket(w, b, t) && Visited(w, now, b) {
        var b: nat :| InBucket(w, b, t) && Visited(w, now, b);
        assert bs[b - w.pos - 1] == w.buckets[b];
      }
    }
  }

  /** A deadline in a visited bucket has passed. */
  lemma NotEarly<T>(w: Wheel<T>, now: nat, d: int)
    requires w.Shaped() && w.last <= now && Visited(w, now, Home(w, d)) && d <= w.last + w.size
    ensures d <= now
  {
    var n, x := w.size, d - w.last + w.pos;
    assert x == (x / n) * n + Home(w, d);
    var y := now - w.last + w.pos;
    assert y == (y / n) * n + Target(w, now);
    MulSign(x / n, n);
    MulSign(y / n, n);
  }

  // ---- one scan ---------------------------------------------------------------------------

  lemma ScanFields<T>(w: Wheel<T>, now: nat)
    requires w.Shaped() && w.last <= now
    ensures var w' := Scan(w, now).0;
            w'.Shaped() && w'.size == w.size && w'.pos == Target(w, now) && w'.last == now
  {
    hide Concat;
  }

  /** After a scan every bucket still stands for the same deadlines. */
  lemma HomeStays<T>(w: Wheel<T>, now: nat, d: int)
    requires w.Shaped() && w.last <= now
    ensures Scan(w, now).0.Shaped() && Home(Scan(w, now).0, d) == Home(w, d)
  {
    ScanFields(w, now);
    hide Scan;
    ModShift(d - now, now - w.last + w.pos, w.size);
  }

  function Left<T>(due: map<T, int>, gone: seq<T>): map<T, int> {
    map t | t in due && t !in gone :: due[t]
  }

  /**
    Every scan of the code that ends, whatever was missed before: it delivers tasks it holds,
    each once and none early, and keeps all the others.
   */
  lemma ScanNeverEarly<T(!new)>(w: Wheel<T>, due: map<T, int>, now: nat)
    requires Tracks(w, due) && w.last <= now
    ensures var (w', out) := Scan(w, now);
            && NoRepeat(out) && Elems(out) <= DueBy(due, now)
            && Tracks(w', Left(due, out))
  {
    var (w', out) := Scan(w, now);
    forall t | t in out ensures t in due && due[t] <= now {
      DeliveredIff(w, now, t);
      var b: nat :| InBucket(w, b, t) && Visited(w, now, b);
      NotEarly(w, now, due[t]);
    }
    var target := Target(w, now);
    if target > w.pos {
      var bs := w.buckets[w.pos + 1..target + 1];
      forall j, k, t | 0 <= j < k < |bs| && t in bs[j] ensures t !in bs[k] {
        assert InBucket(w, w.pos + 1 + j, t);
        if t in bs[k] { assert InBucket(w, w.pos + 1 + k, t); }
      }
      ConcatNoRepeat(bs);
    }
    ScanTracks(w, due, now);
  }

  lemma ScanTracks<T(!new)>(w: Wheel<T>, due: map<T, int>, now: nat)
    requires Tracks(w, due) && w.last <= now
    ensures Tracks(Scan(w, now).0, Left(due, Scan(w, now).1))
  {
    var (w', out) := Scan(w, now);
    var visited := set b: nat | b < w.size && Visited(w, now, b);
    ScanFields(w, now);
    forall b: nat, t: T ensures InBucket(w', b, t) <==> InBucket(w, b, t) && b !in visited {
      ScanBuckets(w, now, b, t);
    }
    forall t: T ensures t in out <==> exists b: nat :: InBucket(w, b, t) && b in visited {
      DeliveredIff(w, now, t);
      if t in out {
        var b: nat :| InBucket(w, b, t) && Visited(w, now, b);
        assert b in visited;
      }
    }
    forall d: int ensures Home(w', d) == Home(w, d) {
      HomeStays(w, now, d);
    }
    ScanNoRepeat(w, now);
    hide *;
    TracksLess(w, due, visited, w', out);
  }

  /** Emptying some buckets of a wheel that tracks its tasks leaves one that tracks the others. */
  lemma TracksLess<T(!new)>(w: Wheel<T>, due: map<T, int>, visited: set<nat>, w': Wheel<T>, out: seq<T>)
    requires Tracks(w, due) && w'.Shaped() && w'.size == w.size && w.last <= w'.last
    requires forall b: nat, t: T :: InBucket(w', b, t) <==> InBucket(w, b, t) && b !in visited
    requires forall t: T :: t in out <==> exists b: nat :: InBucket(w, b, t) && b in visited
    requires forall d: int :: Home(w', d) == Home(w, d)
    requires (forall b :: 0 <= b < w.size ==> NoRepeat(w.buckets[b])) ==> forall b :: 0 <= b < w.size ==> NoRepeat(w'.buckets[b])
    ensures Tracks(w', Left(due, out))
  {
    hide Home, InBucket, NoRepeat;
    var left := Left(due, out);
    forall t: T | t in left ensures InBucket(w', Home(w', left[t]), t) {
      assert InBucket(w, Home(w, due[t]), t);
    }
  }

  lemma ScanNoRepeat<T>(w: Wheel<T>, now: nat)
    requires w.Shaped() && w.last <= now
    ensures var w' := Scan(w, now).0;
            w'.Shaped() && w'.size == w.size &&
            ((forall b :: 0 <= b < w.size ==> NoRepeat(w.buckets[b])) ==> forall b :: 0 <= b < w.size ==> NoRepeat(w'.buckets[b]))
  {
    hide Concat;
  }

  lemma ScanBuckets<T>(w: Wheel<T>, now: nat, b: nat, t: T)
    requires w.Shaped() && w.last <= now
    ensures InBucket(Scan(w, now).0, b, t) <==> InBucket(w, b, t) && (b >= w.size || !Visited(w, now, b))
  {
    hide Concat;
  }

  // ---- exactness --------------------------------------------------------------------------

  /** Some deadline of the time that has passed belongs in bucket b. */
  ghost predicate DueBucket<T>(w: Wheel<T>, now: nat, b: nat)
    requires w.Shaped() && w.last <= now
  {
    exists d :: w.last < d <= now && d <= w.last + w.size && Home(w, d) == b
  }

  /** The scan ends, and delivers exactly the tasks whose deadline has come. */
  ghost predicate ScanRight<T>(w: Wheel<T>, due: map<T, int>, now: nat)
    requires w.Shaped() && w.last <= now
  {
    !Hangs(w.pos, w.size, Target(w, now)) && Elems(Scan(w, now).1) == DueBy(due, now)
  }

  /** The scan skips no bucket that is due and has a task in it. */
  ghost predicate Covers<T>(w: Wheel<T>, now: nat)
    requires w.Shaped() && w.last <= now
  {
    && !(w.pos < Target(w, now) == w.size - 1)
    && forall b: nat :: b < w.size && DueBucket(w, now, b) && !Visited(w, now, b) ==> w.buckets[b] == []
  }

  /** Two deadlines of one turn that belong in the same bucket are equal. */
  lemma OneTurn<T>(w: Wheel<T>, d: int, e: int)
    requires w.Shaped() && w.last < d <= w.last + w.size && w.last < e <= w.last + w.size
    requires Home(w, d) == Home(w, e)
    ensures d == e
  {
    var n, x, y := w.size, d - w.last + w.pos, e - w.last + w.pos;
    assert x == (x / n) * n + Home(w, d) && y == (y / n) * n + Home(w, e);
    assert x - y == (x / n - y / n) * n;
    MulSign(x / n - y / n, n);
  }

  /** The exact condition for one wheel: a scan is right if and only if it covers what is due. */
  lemma ScanRightIffCovers<T(!new)>(w: Wheel<T>, due: map<T, int>, now: nat)
    requires Tracks(w, due) && OnTime(w, due) && w.last <= now
    ensures ScanRight(w, due, now) <==> Covers(w, now)
  {
    HangsExactly(w.pos, w.size, Target(w, now));
    ScanNeverEarly(w, due, now);
    var out := Scan(w, now).1;
    if Covers(w, now) {
      forall t | t in due && due[t] <= now ensures t in out {
        var b := Home(w, due[t]);
        assert InBucket(w, b, t);
        assert DueBucket(w, now, b);
        DeliveredIff(w, now, t);
      }
    }
    if ScanRight(w, due, now) {
      forall b: nat | b < w.size && DueBucket(w, now, b) && !Visited(w, now, b) ensures w.buckets[b] == [] {
        if w.buckets[b] != [] {
          var t := w.buckets[b][0];
          assert InBucket(w, b, t);
          var d :| w.last < d <= now && d <= w.last + w.size && Home(w, d) == b;
          OneTurn(w, d, due[t]);
          assert t in DueBy(due, now);
          assert t in Elems(out);
          DeliveredIff(w, now, t);
        }
      }
    }
  }

  /** The guard of the scan loop under which the code drains every bucket it has to. */
  predicate Guard(size: nat, pos: nat, elapsed: nat) {
    elapsed == 0 || pos + elapsed + 2 <= size
  }

  lemma GuardCovers<T>(w: Wheel<T>, now: nat)
    requires w.Shaped() && w.last <= now && Guard(w.size, w.pos, now - w.last)
    ensures Covers(w, now)
  {
    var e := now - w.last;
    if e > 0 {
      ModUnique(e + w.pos, w.size, 0, e + w.pos);
      forall b: nat | b < w.size && DueBucket(w, now, b) ensures Visited(w, now, b) {
        var d :| w.last < d <= now && d <= w.last + w.size && Home(w, d) == b;
        ModUnique(d - w.last + w.pos, w.size, 0, d - w.last + w.pos);
      }
    } else {
      ModUnique(w.pos, w.size, 0, w.pos);
    }
  }

  /** A wheel with one task, due d, in the bucket where it belongs. */
  function OneTask(size: nat, pos: nat, last: nat, d: int): Wheel<nat>
    requires pos < size
  {
    var empty := Wheel(size, pos, last, seq(size, _ => []));
    empty.(buckets := empty.buckets[Home(empty, d) := [0]])
  }

  lemma OneTaskTracks(size: nat, pos: nat, last: nat, d: int)
    requires pos < size && last < d <= last + size
    ensures Tracks(OneTask(size, pos, last, d), map[0 := d]) && OnTime(OneTask(size, pos, last, d), map[0 := d])
    ensures Home(OneTask(size, pos, last, d), d) == (d - last + pos) % size
  {
  }

  /** A target ahead of the position, but not where the elapsed time alone would lead, is more than a turn away. */
  lemma FarTarget(size: nat, pos: nat, e: nat)
    requires pos < size && pos < (e + pos) % size < size - 1 && pos + e + 2 > size
    ensures e > size
  {
    var y := e + pos;
    assert y == (y / size) * size + y % size;
    MulSign(y / size - 1, size);
    if y / size < 1 {
      assert y < size;
      ModUnique(y, size, 0, y);
    }
  }

  /** Outside the guard some due bucket is skipped, unless the loop does not even end. */
  lemma GuardNeeded(size: nat, pos: nat, last: nat, now: nat) returns (d: int)
    requires pos < size && last <= now && !Guard(size, pos, now - last)
    ensures last < d <= last + size
    ensures var w := OneTask(size, pos, last, d); !Covers(w, now)
  {
    var t := (now - last + pos) % size;
    d := if t <= pos then last + 1 else last + size;
    var w := OneTask(size, pos, last, d);
    var b := Home(w, d);
    assert w.buckets[b] == [0] && Target(w, now) == t && w.pos == pos && w.last == last;
    if pos < t < size - 1 {
      FarTarget(size, pos, now - last);
      FullTurn(w, d);
    }
    hide Home, OneTask, Target;
    assert t <= pos || t < size - 1 ==> !Visited(w, now, b) && DueBucket(w, now, b);
  }

  /** A deadline a full turn ahead belongs in the bucket of the position itself. */
  lemma FullTurn<T>(w: Wheel<T>, d: int)
    requires w.Shaped() && d == w.last + w.size
    ensures Home(w, d) == w.pos
  {
    ModUnique(w.size + w.pos, w.size, 1, w.pos);
  }

  /**
    The exact condition over all contents: from this position, a scan after this time delivers
    exactly the due tasks of every wheel if and only if the guard holds.
   */
  lemma ScanRightIffGuard(size: nat, pos: nat, last: nat, now: nat)
    requires pos < size && last <= now
    ensures (forall w: Wheel<nat>, due: map<nat, int> ::
               w.size == size && w.pos == pos && w.last == last && Tracks(w, due) && OnTime(w, due)
               ==> ScanRight(w, due, now))
            <==> Guard(size, pos, now - last)
  {
    if Guard(size, pos, now - last) {
      forall w: Wheel<nat>, due: map<nat, int>
        | w.size == size && w.pos == pos && w.last == last && Tracks(w, due) && OnTime(w, due)
        ensures ScanRight(w, due, now)
      {
        GuardCovers(w, now);
        ScanRightIffCovers(w, due, now);
      }
    } else {
      var d := GuardNeeded(size, pos, last, now);
      OneTaskTracks(size, pos, last, d);
      ScanRightIffCovers(OneTask(size, pos, last, d), map[0 := d], now);
    }
  }

  // ---- the order of delivery --------------------------------------------------------------

  /** A bucket ahead of the position holds the tasks of one deadline. */
  lemma OneDeadline<T(!new)>(w: Wheel<T>, due: map<T, int>, b: nat, t: T)
    requires Tracks(w, due) && OnTime(w, due) && w.pos < b < w.size && t in w.buckets[b]
    ensures t in due && due[t] == w.last + (b - w.pos)
  {
    assert InBucket(w, b, t);
    var x := due[t] - w.last + w.pos;
    if x < w.size {
      ModUnique(x, w.size, 0, x);
    } else {
      ModUnique(x, w.size, 1, x - w.size);
    }
  }

  ghost predicate ByDeadline<T>(due: map<T, int>, out: seq<T>) {
    (forall t :: t in out ==> t in due) && forall j, k :: 0 <= j < k < |out| ==> due[out[j]] <= due[out[k]]
  }

  lemma {:induction false} DrainedByDeadline<T(!new)>(w: Wheel<T>, due: map<T, int>, i: nat)
    requires Tracks(w, due) && OnTime(w, due) && w.pos <= i < w.size
    ensures ByDeadline(due, Drained(w, w.pos, i))
    ensures forall t :: t in Drained(w, w.pos, i) ==> due[t] <= w.last + (i - w.pos)
    decreases i
  {
    if i == w.pos {
      DrainStart(w);
    } else {
      DrainedByDeadline(w, due, i - 1);
      DrainStep(w, i);
      forall t | t in w.buckets[i] ensures t in due && due[t] == w.last + (i - w.pos) {
        OneDeadline(w, due, i, t);
      }
      hide Drained, Tracks, OnTime;
    }
  }

  /** A scan delivers the tasks in the order of their deadlines. */
  lemma DeliveredByDeadline<T(!new)>(w: Wheel<T>, due: map<T, int>, now: nat)
    requires Tracks(w, due) && OnTime(w, due) && w.last <= now
    ensures ByDeadline(due, Scan(w, now).1)
  {
    if Target(w, now) > w.pos {
      DrainedByDeadline(w, due, Target(w, now));
    }
  }
}
