/**
  The timer wheel on values: what inserting, cancelling and scanning do to the buckets, next to
  a reference timer that only knows the deadline of every pending task.
 */
module TimerSpec {

  /** size buckets; pos stands for the millisecond `last` of the latest scan. */
  datatype Wheel<T> = Wheel(size: nat, pos: nat, last: nat, buckets: seq<seq<T>>)
  {
    predicate Shaped() {
      0 < size == |buckets| && pos < size
    }
  }

  function Concat<T>(bs: seq<seq<T>>): seq<T> {
    if bs == [] then [] else Concat(bs[..|bs| - 1]) + bs[|bs| - 1]
  }

  // ---- the operations ---------------------------------------------------------------------

  /** `getBucket`: the delay is cut at the size of the wheel. */
  function BucketOf<T>(w: Wheel<T>, ms: nat): nat
    requires w.Shaped()
  {
    (w.pos + if ms > w.size then w.size else ms) % w.size
  }

  function Insert<T>(w: Wheel<T>, t: T, ms: nat): Wheel<T>
    requires w.Shaped()
  {
    var b := BucketOf(w, ms);
    w.(buckets := w.buckets[b := w.buckets[b] + [t]])
  }

  function Without<T(==)>(s: seq<T>, t: T): seq<T> {
    if s == [] then [] else if s[0] == t then Without(s[1..], t) else [s[0]] + Without(s[1..], t)
  }

  function Cancel<T(==)>(w: Wheel<T>, t: T): Wheel<T>
    requires w.Shaped()
  {
    w.(buckets := seq(w.size, b requires 0 <= b < w.size => Without(w.buckets[b], t)))
  }

  /** `target_pos`. */
  function Target<T>(w: Wheel<T>, now: nat): (r: nat)
    requires w.Shaped() && w.last <= now
    ensures r < w.size
  {
    (now - w.last + w.pos) % w.size
  }

  /** `i = (i + 1) % size`. */
  function NextIndex(i: nat, size: nat): (j: nat)
    requires 0 < size
    ensures j < size && (i + 1 < size ==> j == i + 1)
  {
    (i + 1) % size
  }

  /** The index of the scan loop after n rounds. */
  function LoopIndex(pos: nat, size: nat, n: nat): nat
    requires 0 < size
  {
    if n == 0 then pos + 1 else NextIndex(LoopIndex(pos, size, n - 1), size)
  }

  /** The loop condition `i <= target_pos` holds for ever. */
  ghost predicate Hangs(pos: nat, size: nat, target: nat)
    requires 0 < size
  {
    forall n: nat :: LoopIndex(pos, size, n) <= target
  }

  /** Buckets from + 1 to to are emptied into the result, in this order. */
  function Drained<T>(w: Wheel<T>, from: nat, to: nat): seq<T>
    requires w.Shaped() && from <= to < w.size
  {
    Concat(w.buckets[from + 1..to + 1])
  }

  function Emptied<T>(w: Wheel<T>, from: nat, to: nat): (bs: seq<seq<T>>)
    requires w.Shaped()
    ensures |bs| == w.size
  {
    seq(w.size, b requires 0 <= b < w.size => if from < b <= to then [] else w.buckets[b])
  }

  /** A scan of the code that ends: it drains from the position up to the target, if that is ahead. */
  function Scan<T>(w: Wheel<T>, now: nat): (Wheel<T>, seq<T>)
    requires w.Shaped() && w.last <= now
  {
    var target := Target(w, now);
    if target <= w.pos then (w.(pos := target, last := now), [])
    else (Wheel(w.size, target, now, Emptied(w, w.pos, target)), Drained(w, w.pos, target))
  }

  /** One round of the scan. */
  lemma DrainStep<T>(w: Wheel<T>, i: nat)
    requires w.Shaped() && w.pos < i < w.size
    ensures Emptied(w, w.pos, i - 1)[i] == w.buckets[i]
    ensures Emptied(w, w.pos, i) == Emptied(w, w.pos, i - 1)[i := []]
    ensures Drained(w, w.pos, i) == Drained(w, w.pos, i - 1) + w.buckets[i]
  {
    var bs := w.buckets[w.pos + 1..i + 1];
    assert bs[..|bs| - 1] == w.buckets[w.pos + 1..i];
  }

  lemma DrainStart<T>(w: Wheel<T>)
    requires w.Shaped()
    ensures Emptied(w, w.pos, w.pos) == w.buckets && Drained(w, w.pos, w.pos) == []
  {
  }

  /** Both branches of a scan in one. */
  lemma ScanIs<T>(w: Wheel<T>, now: nat, to: nat)
    requires w.Shaped() && w.last <= now
    requires to == if Target(w, now) < w.pos then w.pos else Target(w, now)
    ensures Scan(w, now) == (Wheel(w.size, Target(w, now), now, Emptied(w, w.pos, to)), Drained(w, w.pos, to))
  {
    DrainStart(w);
  }

  lemma {:induction false} WithoutAbsent<T>(s: seq<T>, t: T)
    requires t !in s
    ensures Without(s, t) == s
  {
    if s != [] { WithoutAbsent(s[1..], t); }
  }

  lemma {:induction false} WithoutAt<T>(s: seq<T>, t: T, k: nat)
    requires k < |s| && s[k] == t && forall i, j :: 0 <= i < j < |s| ==> s[i] != s[j]
    ensures Without(s, t) == s[..k] + s[k + 1..]
  {
    if k == 0 {
      WithoutAbsent(s[1..], t);
    } else {
      WithoutAt(s[1..], t, k - 1);
    }
  }

  /** Cancelling a task cuts it out of the one bucket that holds it. */
  lemma DropValues<T>(w: Wheel<T>, t: T, j: nat, k: nat)
    requires w.Shaped() && j < w.size && k < |w.buckets[j]| && w.buckets[j][k] == t
    requires forall a, b :: 0 <= a < b < |w.buckets[j]| ==> w.buckets[j][a] != w.buckets[j][b]
    requires forall i :: 0 <= i < w.size && i != j ==> t !in w.buckets[i]
    ensures Cancel(w, t).buckets == w.buckets[j := w.buckets[j][..k] + w.buckets[j][k + 1..]]
  {
    WithoutAt(w.buckets[j], t, k);
    forall i | 0 <= i < w.size && i != j ensures Without(w.buckets[i], t) == w.buckets[i] {
      WithoutAbsent(w.buckets[i], t);
    }
  }

  // ---- the loop ---------------------------------------------------------------------------

  lemma {:induction false} LoopClimbs(pos: nat, size: nat, n: nat)
    requires pos < size && (n == 0 || pos + 1 + n < size)
    ensures LoopIndex(pos, size, n) == pos + 1 + n
  {
    if n > 0 {
      LoopClimbs(pos, size, n - 1);
    }
  }

  lemma {:induction false} LoopInRange(pos: nat, size: nat, n: nat)
    requires pos + 1 < size
    ensures LoopIndex(pos, size, n) < size
  {
    if n > 0 { LoopInRange(pos, size, n - 1); }
  }

  /** The scan loop runs for ever exactly when the target is the last bucket and lies ahead. */
  lemma HangsExactly(pos: nat, size: nat, target: nat)
    requires pos < size && target < size
    ensures Hangs(pos, size, target) <==> pos < target == size - 1
  {
    if pos < target == size - 1 {
      forall n: nat ensures LoopIndex(pos, size, n) <= target { LoopInRange(pos, size, n); }
    } else if target <= pos {
      assert LoopIndex(pos, size, 0) > target;
    } else {
      LoopClimbs(pos, size, target - pos);
      assert LoopIndex(pos, size, target - pos) > target;
    }
  }
}
