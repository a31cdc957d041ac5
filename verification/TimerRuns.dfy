/** The timer wheel over whole runs of insertions, cancellations and scans. */
module TimerRuns {
  import opened Sequences
  import opened TimerSpec
  import opened TimerExact

  datatype TimerOp<T> = Put(t: T, ms: nat) | Drop(t: T) | Tick(now: nat)

  /** The reference timer: the pending tasks with their deadlines, and the time of the last scan. */
  datatype Ref<T> = Ref(last: nat, due: map<T, int>)

  /** A task is put in when it is not pending, cancelled when it is, and the clock does not go back. */
  predicate Allowed<T(==)>(last: nat, due: map<T, int>, op: TimerOp<T>) {
    match op
    case Put(t, _) => t !in due
    case Drop(t) => t in due
    case Tick(now) => last <= now
  }

  ghost function RefStep<T>(r: Ref<T>, size: nat, op: TimerOp<T>): (Ref<T>, set<T>) {
    match op
    case Put(t, ms) => (r.(due := r.due[t := r.last + Delay(size, ms)]), {})
    case Drop(t) => (r.(due := r.due - {t}), {})
    case Tick(now) => (Ref(now, r.due - DueBy(r.due, now)), DueBy(r.due, now))
  }

  /** The bucket k + 1 milliseconds ahead. */
  function Ahead<T>(w: Wheel<T>, k: nat): (b: nat)
    requires w.Shaped()
    ensures b < w.size
  {
    Home(w, w.last + 1 + k)
  }

  /** How many buckets a scan should visit: one for every millisecond that has passed, at most a full turn. */
  function Turn<T>(w: Wheel<T>, now: nat): nat
    requires w.last <= now
  {
    if now - w.last < w.size then now - w.last else w.size
  }

  ghost predicate Passes<T>(w: Wheel<T>, now: nat, b: nat)
    requires w.Shaped() && w.last <= now
  {
    exists k: nat :: k < Turn(w, now) && b == Ahead(w, k)
  }

  function Passed<T>(w: Wheel<T>, now: nat): seq<seq<T>>
    requires w.Shaped() && w.last <= now
  {
    seq(Turn(w, now), k requires 0 <= k => w.buckets[Ahead(w, k)])
  }

  /** The repaired scan. */
  ghost function RepairedScan<T>(w: Wheel<T>, now: nat): (Wheel<T>, seq<T>)
    requires w.Shaped() && w.last <= now
  {
    var bs := seq(w.size, b requires 0 <= b < w.size => if Passes(w, now, b) then [] else w.buckets[b]);
    (Wheel(w.size, Target(w, now), now, bs), Concat(Passed(w, now)))
  }

  /** One operation on the wheel, with the scan of the code or the repaired one. */
  ghost function WheelStep<T>(repaired: bool, w: Wheel<T>, op: TimerOp<T>): (Wheel<T>, seq<T>)
    requires w.Shaped() && (op.Tick? ==> w.last <= op.now)
  {
    match op
    case Put(t, ms) => (Insert(w, t, ms), [])
    case Drop(t) => (Cancel(w, t), [])
    case Tick(now) => if repaired then RepairedScan(w, now) else Scan(w, now)
  }

  // ---- one operation ----------------------------------------------------------------------

  lemma InsertHome<T>(w: Wheel<T>, ms: nat)
    requires w.Shaped()
    ensures BucketOf(w, ms) == Home(w, w.last + Delay(w.size, ms))
  {
    if ms == 0 {
      ModUnique(w.size + w.pos, w.size, 1, w.pos);
      ModUnique(w.pos, w.size, 0, w.pos);
    }
  }

  lemma InsertTracks<T(!new)>(w: Wheel<T>, due: map<T, int>, t: T, ms: nat)
    requires Tracks(w, due) && t !in due
    ensures Tracks(Insert(w, t, ms), due[t := w.last + Delay(w.size, ms)])
  {
    var w', due', b := Insert(w, t, ms), due[t := w.last + Delay(w.size, ms)], BucketOf(w, ms);
    InsertHome(w, ms);
    forall d ensures Home(w', d) == Home(w, d) {}
    hide Home, BucketOf;
    forall a: nat, u: T ensures InBucket(w', a, u) <==> InBucket(w, a, u) || (a == b && u == t) {}
    assert !InBucket(w, b, t);
    forall u: T | u in due' ensures InBucket(w', Home(w', due'[u]), u) {
      if u != t { assert InBucket(w, Home(w, due[u]), u); }
    }
    NoRepeatConcat(w.buckets[b], [t]);
  }

  lemma {:induction false} WithoutHas<T>(s: seq<T>, t: T, u: T)
    ensures u in Without(s, t) <==> u in s && u != t
  {
    if s != [] { WithoutHas(s[1..], t, u); }
  }

  lemma {:induction false} WithoutNoRepeat<T>(s: seq<T>, t: T)
    requires NoRepeat(s)
    ensures NoRepeat(Without(s, t))
  {
    if s != [] {
      WithoutNoRepeat(s[1..], t);
      if s[0] != t {
        WithoutHas(s[1..], t, s[0]);
        NoRepeatConcat([s[0]], Without(s[1..], t));
      }
    }
  }

  lemma CancelTracks<T(!new)>(w: Wheel<T>, due: map<T, int>, t: T)
    requires Tracks(w, due)
    ensures Tracks(Cancel(w, t), due - {t})
  {
    var w' := Cancel(w, t);
    forall a: nat, u: T ensures InBucket(w', a, u) <==> InBucket(w, a, u) && u != t {
      if a < w.size { WithoutHas(w.buckets[a], t, u); }
    }
    forall u: T | u in due - {t} ensures InBucket(w', Home(w', due[u]), u) {
      assert InBucket(w, Home(w, due[u]), u);
    }
    forall b | 0 <= b < w.size ensures NoRepeat(w'.buckets[b]) {
      WithoutNoRepeat(w.buckets[b], t);
    }
  }

  // ---- the repaired scan ------------------------------------------------------------------

  /** The buckets of the time that has passed hold exactly the tasks that are due. */
  lemma PassesIffDue<T(!new)>(w: Wheel<T>, due: map<T, int>, now: nat, t: T)
    requires Tracks(w, due) && OnTime(w, due) && w.last <= now && t in due
    ensures Passes(w, now, Home(w, due[t])) <==> due[t] <= now
  {
    assert InBucket(w, Home(w, due[t]), t);
    hide Home;
    if due[t] <= now {
      var k := due[t] - w.last - 1;
      assert k < Turn(w, now) && Home(w, due[t]) == Ahead(w, k);
    }
    if Passes(w, now, Home(w, due[t])) {
      var j: nat :| j < Turn(w, now) && Home(w, due[t]) == Ahead(w, j);
      OneTurn(w, w.last + 1 + j, due[t]);
    }
  }

  lemma RepairedDelivers<T(!new)>(w: Wheel<T>, due: map<T, int>, now: nat, t: T)
    requires Tracks(w, due) && OnTime(w, due) && w.last <= now
    ensures t in RepairedScan(w, now).1 <==> t in due && due[t] <= now
  {
    hide Home, Ahead;
    var bs := Passed(w, now);
    ConcatHas(bs, t);
    if t in RepairedScan(w, now).1 {
      var k :| 0 <= k < |bs| && t in bs[k];
      assert InBucket(w, Ahead(w, k), t) && Passes(w, now, Ahead(w, k));
      PassesIffDue(w, due, now, t);
    }
    if t in due && due[t] <= now {
      PassesIffDue(w, due, now, t);
      assert InBucket(w, Home(w, due[t]), t);
      var k: nat :| k < Turn(w, now) && Home(w, due[t]) == Ahead(w, k);
      assert t in bs[k];
    }
  }

  lemma RepairedNoRepeat<T(!new)>(w: Wheel<T>, due: map<T, int>, now: nat)
    requires Tracks(w, due) && OnTime(w, due) && w.last <= now
    ensures NoRepeat(RepairedScan(w, now).1)
  {
    var bs := Passed(w, now);
    forall j, k, t | 0 <= j < k < |bs| && t in bs[j] ensures t !in bs[k] {
      assert InBucket(w, Ahead(w, j), t);
      if t in bs[k] {
        assert InBucket(w, Ahead(w, k), t);
        OneTurn(w, w.last + 1 + j, w.last + 1 + k);
      }
    }
    hide Home, Ahead;
    forall k | 0 <= k < |bs| ensures NoRepeat(bs[k]) {
      assert bs[k] == w.buckets[Ahead(w, k)];
    }
    ConcatNoRepeat(bs);
  }

  lemma RepairedTracks<T(!new)>(w: Wheel<T>, due: map<T, int>, now: nat)
    requires Tracks(w, due) && OnTime(w, due) && w.last <= now
    ensures Tracks(RepairedScan(w, now).0, due - DueBy(due, now))
    ensures OnTime(RepairedScan(w, now).0, due - DueBy(due, now))
  {
    var w', left := RepairedScan(w, now).0, due - DueBy(due, now);
    forall d ensures Home(w', d) == Home(w, d) { ModShift(d - now, now - w.last + w.pos, w.size); }
    forall b: nat, t: T | InBucket(w', b, t) ensures t in left && b == Home(w', left[t]) && left[t] <= w'.last + w'.size {
      assert InBucket(w, b, t);
      PassesIffDue(w, due, now, t);
    }
    forall t: T | t in left ensures InBucket(w', Home(w', left[t]), t) {
      PassesIffDue(w, due, now, t);
      assert InBucket(w, Home(w, due[t]), t);
    }
  }

  // ---- runs -------------------------------------------------------------------------------

  /** What makes a scan of the code right: that it covers what is due. */
  ghost predicate Fit<T>(repaired: bool, w: Wheel<T>, op: TimerOp<T>)
    requires w.Shaped() && (op.Tick? ==> w.last <= op.now)
  {
    repaired || (op.Tick? ==> Covers(w, op.now))
  }

  /** One operation: same answer as the reference timer, and still in step with it. */
  lemma StepRefines<T(!new)>(repaired: bool, w: Wheel<T>, due: map<T, int>, op: TimerOp<T>)
    requires Tracks(w, due) && OnTime(w, due) && Allowed(w.last, due, op) && Fit(repaired, w, op)
    ensures var (w', out) := WheelStep(repaired, w, op);
            var (r', gone) := RefStep(Ref(w.last, due), w.size, op);
            && NoRepeat(out) && Elems(out) == gone
            && Tracks(w', r'.due) && OnTime(w', r'.due) && w'.last == r'.last && w'.size == w.size
  {
    match op
    case Put(t, ms) => InsertTracks(w, due, t, ms);
    case Drop(t) => CancelTracks(w, due, t);
    case Tick(now) =>
      if repaired {
        forall t: T ensures t in RepairedScan(w, now).1 <==> t in due && due[t] <= now { RepairedDelivers(w, due, now, t); }
        RepairedNoRepeat(w, due, now);
        RepairedTracks(w, due, now);
      } else {
        ScanRightIffCovers(w, due, now);
        ScanNeverEarly(w, due, now);
        assert Left(due, Scan(w, now).1) == due - DueBy(due, now);
      }
  }

  /** The run is one its callers may make, and every scan in it is right. */
  ghost predicate FitRun<T>(repaired: bool, w: Wheel<T>, due: map<T, int>, ops: seq<TimerOp<T>>)
    requires w.Shaped()
    decreases |ops|
  {
    ops == [] ||
    (Allowed(w.last, due, ops[0]) && Fit(repaired, w, ops[0])
     && FitRun(repaired, WheelStep(repaired, w, ops[0]).0, RefStep(Ref(w.last, due), w.size, ops[0]).0.due, ops[1..]))
  }

  /** The answers of the wheel along a run. */
  ghost function WheelRun<T>(repaired: bool, w: Wheel<T>, due: map<T, int>, ops: seq<TimerOp<T>>): seq<seq<T>>
    requires w.Shaped() && FitRun(repaired, w, due, ops)
    decreases |ops|
  {
    if ops == [] then [] else
    var (w', out) := WheelStep(repaired, w, ops[0]);
    [out] + WheelRun(repaired, w', RefStep(Ref(w.last, due), w.size, ops[0]).0.due, ops[1..])
  }

  /** The answers of the reference timer. */
  ghost function RefRun<T>(r: Ref<T>, size: nat, ops: seq<TimerOp<T>>): seq<set<T>>
    decreases |ops|
  {
    if ops == [] then [] else
    var (r', gone) := RefStep(r, size, ops[0]);
    [gone] + RefRun(r', size, ops[1..])
  }

  /**
    Over every run the wheel answers as the reference timer: with the repaired scan always,
    with the scan of the code as long as every scan covers what is due.
   */
  lemma {:induction false} RunRefines<T(!new)>(repaired: bool, w: Wheel<T>, due: map<T, int>, ops: seq<TimerOp<T>>)
    requires Tracks(w, due) && OnTime(w, due) && FitRun(repaired, w, due, ops)
    ensures var outs, refs := WheelRun(repaired, w, due, ops), RefRun(Ref(w.last, due), w.size, ops);
            |outs| == |refs| && forall k :: 0 <= k < |outs| ==> NoRepeat(outs[k]) && Elems(outs[k]) == refs[k]
    decreases |ops|
  {
    if ops != [] {
      StepRefines(repaired, w, due, ops[0]);
      var w' := WheelStep(repaired, w, ops[0]).0;
      RunRefines(repaired, w', RefStep(Ref(w.last, due), w.size, ops[0]).0.due, ops[1..]);
    }
  }

  /** A run its callers may make. */
  ghost predicate LegalRun<T>(r: Ref<T>, size: nat, ops: seq<TimerOp<T>>)
    decreases |ops|
  {
    ops == [] || (Allowed(r.last, r.due, ops[0]) && LegalRun(RefStep(r, size, ops[0]).0, size, ops[1..]))
  }

  /** Every scan along a run of the code ends and delivers exactly the tasks that are due, each once. */
  ghost predicate RightRun<T(!new)>(w: Wheel<T>, due: map<T, int>, ops: seq<TimerOp<T>>)
    requires w.Shaped() && LegalRun(Ref(w.last, due), w.size, ops)
    decreases |ops|
  {
    ops == [] ||
    ((ops[0].Tick? ==> ScanRight(w, due, ops[0].now))
     && RightRun(WheelStep(false, w, ops[0]).0, RefStep(Ref(w.last, due), w.size, ops[0]).0.due, ops[1..]))
  }

  /** The exact condition for a run of the code: its scans are all right if and only if all of them cover what is due. */
  lemma {:induction false} RunRightIffFit<T(!new)>(w: Wheel<T>, due: map<T, int>, ops: seq<TimerOp<T>>)
    requires Tracks(w, due) && OnTime(w, due) && LegalRun(Ref(w.last, due), w.size, ops)
    ensures RightRun(w, due, ops) <==> FitRun(false, w, due, ops)
    decreases |ops|
  {
    if ops != [] {
      if ops[0].Tick? {
        ScanRightIffCovers(w, due, ops[0].now);
      }
      if Fit(false, w, ops[0]) {
        StepRefines(false, w, due, ops[0]);
        RunRightIffFit(WheelStep(false, w, ops[0]).0, RefStep(Ref(w.last, due), w.size, ops[0]).0.due, ops[1..]);
      }
    }
  }

  lemma {:induction false} RepairedRunsAreFit<T(!new)>(w: Wheel<T>, due: map<T, int>, ops: seq<TimerOp<T>>)
    requires Tracks(w, due) && OnTime(w, due) && LegalRun(Ref(w.last, due), w.size, ops)
    ensures FitRun(true, w, due, ops)
    decreases |ops|
  {
    if ops != [] {
      StepRefines(true, w, due, ops[0]);
      RepairedRunsAreFit(WheelStep(true, w, ops[0]).0, RefStep(Ref(w.last, due), w.size, ops[0]).0.due, ops[1..]);
    }
  }

  // ---- the code's own runs, whatever its scans miss ---------------------------------------

  /** Along the run no scan that ends delivers early or twice, and the wheel keeps the rest. */
  ghost predicate NeverEarly<T(!new)>(w: Wheel<T>, due: map<T, int>, ops: seq<TimerOp<T>>)
    decreases |ops|
  {
    Tracks(w, due) &&
    (ops == [] || !Allowed(w.last, due, ops[0]) ||
     match ops[0]
     case Put(t, ms) => NeverEarly(Insert(w, t, ms), due[t := w.last + Delay(w.size, ms)], ops[1..])
     case Drop(t) => NeverEarly(Cancel(w, t), due - {t}, ops[1..])
     case Tick(now) =>
       var (w', out) := Scan(w, now);
       NoRepeat(out) && Elems(out) <= DueBy(due, now) && NeverEarly(w', Left(due, out), ops[1..]))
  }

  lemma {:induction false} CodeRunsAreNeverEarly<T(!new)>(w: Wheel<T>, due: map<T, int>, ops: seq<TimerOp<T>>)
    requires Tracks(w, due)
    ensures NeverEarly(w, due, ops)
    decreases |ops|
  {
    if ops != [] && Allowed(w.last, due, ops[0]) {
      match ops[0]
      case Put(t, ms) =>
        InsertTracks(w, due, t, ms);
        CodeRunsAreNeverEarly(Insert(w, t, ms), due[t := w.last + Delay(w.size, ms)], ops[1..]);
      case Drop(t) =>
        CancelTracks(w, due, t);
        CodeRunsAreNeverEarly(Cancel(w, t), due - {t}, ops[1..]);
      case Tick(now) =>
        ScanNeverEarly(w, due, now);
        CodeRunsAreNeverEarly(Scan(w, now).0, Left(due, Scan(w, now).1), ops[1..]);
    }
  }
}
