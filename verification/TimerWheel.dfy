/** `bEpTimer` on the heap: the task lists of the wheel, proved against the wheel on values. */
module TimerWheel {
  import opened TaskList
  import opened TimerSpec

  /** 1000 buckets for each of the 30 seconds the wheel covers. */
  const BUCKETS := 1000 * 30

  class bEpTimer {
    /** The array of bucket pointers, which `New` fills and nothing writes afterwards. */
    const TaskItemBucket: seq<TaskItemsList>
    var LastCheckTime: nat
    var BucketPosNow: nat

    ghost function Items(): set<TaskItem>
      reads TaskItemBucket
    {
      set b, k | b in TaskItemBucket && 0 <= k < |b.items| :: b.items[k]
    }

    ghost predicate Valid()
      reads this, TaskItemBucket, Items()
    {
      && BucketPosNow < |TaskItemBucket|
      && (forall a, b :: 0 <= a < b < |TaskItemBucket| ==> TaskItemBucket[a] != TaskItemBucket[b])
      && (forall b :: b in TaskItemBucket ==> b.Valid())
    }

    ghost function View(): (w: Wheel<TaskItem>)
      reads this, TaskItemBucket
      requires BucketPosNow < |TaskItemBucket|
      ensures w.Shaped()
    {
      Wheel(|TaskItemBucket|, BucketPosNow, LastCheckTime,
            seq(|TaskItemBucket|, b requires 0 <= b < |TaskItemBucket| reads TaskItemBucket => TaskItemBucket[b].items))
    }

    ghost predicate NotOf(c: TaskItemsList, b: TaskItemsList)
      reads c, c.items
    {
      forall k :: 0 <= k < |c.items| ==> c.items[k].owner == c != b
    }

    /** No item of another bucket belongs to b. */
    lemma OtherOwners(b: TaskItemsList)
      requires Valid()
      ensures forall c :: c in TaskItemBucket && c != b ==> NotOf(c, b)
    {
      forall c | c in TaskItemBucket && c != b ensures NotOf(c, b) { c.OwnsItems(); }
    }

    constructor New(now: nat)
      ensures Valid() && fresh(TaskItemBucket)
      ensures View() == Wheel(30000, 0, now, seq(30000, _ => []))
    {
      var buckets: seq<TaskItemsList> := [];
      for a := 0 to BUCKETS
        invariant |buckets| == a && fresh(buckets)
        invariant forall j :: 0 <= j < a ==> buckets[j].Valid() && buckets[j].items == []
        invariant forall j, k :: 0 <= j < k < a ==> buckets[j] != buckets[k]
      {
        var b := new TaskItemsList();
        buckets := buckets + [b];
      }
      TaskItemBucket, BucketPosNow, LastCheckTime := buckets, 0, now;
    }

    /** `getBucket`. */
    method GetBucket(ms_want: nat) returns (b: TaskItemsList)
      requires Valid()
      ensures b == TaskItemBucket[BucketOf(View(), ms_want)]
    {
      var ms := ms_want;
      if ms > |TaskItemBucket| {
        ms := |TaskItemBucket|;
      }
      b := TaskItemBucket[(BucketPosNow + ms) % |TaskItemBucket|];
    }

    /** `getBucket(ms)->pushBack(t)`, as `poll` and `timeWait` put a timer in. */
    method Put(t: TaskItem, ms: nat)
      requires Valid() && t.Detached()
      modifies t, TaskItemBucket, Items()
      ensures Valid() && View() == Insert(old(View()), t, ms) && Items() <= old(Items()) + {t}
    {
      ghost var w, j := View(), BucketOf(View(), ms);
      var b := GetBucket(ms);
      hide BucketOf;
      PutInto(b, t, j);
      assert View() == Insert(w, t, ms);
    }

    /** `pushBack` on one of the buckets. */
    method PutInto(b: TaskItemsList, t: TaskItem, ghost j: nat)
      requires Valid() && t.Detached() && j < |TaskItemBucket| && b == TaskItemBucket[j]
      modifies t, TaskItemBucket, Items()
      ensures Valid() && Items() <= old(Items()) + {t}
      ensures View() == old(View()).(buckets := old(View()).buckets[j := old(View()).buckets[j] + [t]])
    {
      assert b in TaskItemBucket;
      TailOf(b);
      OtherOwners(b);
      hide TaskItemsList.Linked, TaskItemsList.LinkAt, Wrap;
      b.PushBackUnsafe(t);
      forall c | c in TaskItemBucket && c != b ensures c.Valid() && c.items == old(c.items) {
        assert old(NotOf(c, b));
        c.Undisturbed();
      }
    }

    lemma TailOf(b: TaskItemsList)
      requires Valid() && b in TaskItemBucket
      ensures b.tail != null ==> b.tail in Items() && b.tail.owner == b
    {
      b.OwnsItems();
    }

    /** `RemoveSelfFromOwnerlink_Save(t)` for a timer, as `pollPerpare` cancels it. */
    method Drop(t: TaskItem, ghost j: nat, ghost k: nat)
      requires Valid() && j < |TaskItemBucket| && k < |TaskItemBucket[j].items| && TaskItemBucket[j].items[k] == t
      modifies TaskItemBucket, Items()
      ensures Valid() && t.Detached() && View() == Cancel(old(View()), t) && Items() <= old(Items())
    {
      ghost var w, b := View(), TaskItemBucket[j];
      assert b in TaskItemBucket;
      OtherOwners(b);
      b.OwnsItems();
      assert t.owner == b;
      DropValues(w, t, j, k) by { b.DistinctItems(); NotElsewhere(t, b); }
      hide TaskItemsList.Linked, TaskItemsList.LinkAt, Wrap, Cancel;
      var r := TaskItemsList.RemoveSelfFromOwnerlinkSave(t, k);
      forall c | c in TaskItemBucket && c != b ensures c.Valid() && c.items == old(c.items) {
        assert old(NotOf(c, b));
        c.Undisturbed();
      }
      assert View().buckets == w.buckets[j := w.buckets[j][..k] + w.buckets[j][k + 1..]];
    }

    lemma NotElsewhere(t: TaskItem, b: TaskItemsList)
      requires Valid() && t.owner == b
      ensures forall c :: c in TaskItemBucket && c != b ==> t !in c.items
    {
      forall c | c in TaskItemBucket && c != b ensures t !in c.items { c.OwnsItems(); }
    }

    /** One round of the scan loop: `TaskItemBucket[i]->pushAll2(result)`. */
    method Drain(i: nat, result: TaskItemsList)
      requires Valid() && i < |TaskItemBucket|
      requires result.Valid() && result !in TaskItemBucket && result.cancelled == 0
      modifies TaskItemBucket, Items(), result, result.items
      ensures Valid() && View() == old(View()).(buckets := old(View()).buckets[i := []])
      ensures result.Valid() && result.items == old(result.items) + old(TaskItemBucket[i].items) && result.cancelled == 0
      ensures Items() <= old(Items())
    {
      var b := TaskItemBucket[i];
      assert b in TaskItemBucket;
      OtherOwners(b);
      OtherOwners(result);
      b.OwnsItems();
      result.OwnsItems();
      hide TaskItemsList.Linked, TaskItemsList.LinkAt, Wrap;
      b.PushAll2(result);
      forall c | c in TaskItemBucket && c != b ensures c.Valid() && c.items == old(c.items) {
        assert old(NotOf(c, b)) && old(NotOf(c, result));
        c.Undisturbed();
      }
    }

    /** The buckets up to i of the wheel w have been moved to the result. */
    ghost predicate Moved(w: Wheel<TaskItem>, i: nat, result: TaskItemsList)
      requires w.Shaped() && w.pos <= i < w.size
      reads this, TaskItemBucket, Items(), result, result.items
    {
      && Valid() && View() == w.(buckets := Emptied(w, w.pos, i))
      && result.Valid() && result !in TaskItemBucket && result.items == Drained(w, w.pos, i) && result.cancelled == 0
    }

    /** The items of the buckets and of the result. */
    ghost function Reach(result: TaskItemsList): set<TaskItem>
      reads TaskItemBucket, result
    {
      Items() + result.All()
    }

    method Round(ghost w: Wheel<TaskItem>, i: nat, result: TaskItemsList)
      requires w.Shaped() && w.pos < i < w.size && Moved(w, i - 1, result)
      modifies TaskItemBucket, result, Reach(result)
      ensures Moved(w, i, result)
      ensures Reach(result) <= old(Reach(result))
    {
      assert i < |TaskItemBucket| && View().buckets[i] == TaskItemBucket[i].items by { assert View().size == w.size; }
      DrainStep(w, i);
      ghost var b := TaskItemBucket[i];
      assert forall x :: x in b.items ==> x in Items();
      hide TaskItemsList.Valid, Emptied, Drained, Valid;
      Drain(i, result);
    }

    /** The scan loop, when it ends. */
    method ScanLoop(ghost w: Wheel<TaskItem>, target_pos: nat, result: TaskItemsList)
      requires w.Shaped() && target_pos < w.size && !(w.pos < target_pos == w.size - 1)
      requires BucketPosNow == w.pos && |TaskItemBucket| == w.size
      requires Moved(w, w.pos, result)
      modifies TaskItemBucket, result, Reach(result)
      ensures Moved(w, if target_pos < w.pos then w.pos else target_pos, result)
      ensures Reach(result) <= old(Reach(result))
    {
      ghost var all := Reach(result);
      hide TaskItemsList.Valid, Moved, Valid, NextIndex, Reach;
      var i := BucketPosNow + 1;
      while i <= target_pos
        invariant w.pos + 1 <= i <= w.size && (i == w.pos + 1 || i <= target_pos + 1)
        invariant Moved(w, i - 1, result)
        invariant Reach(result) <= all
        decreases target_pos + 1 - i
      {
        Round(w, i, result);
        i := NextIndex(i, |TaskItemBucket|);
      }
    }

    /**
      `NewMergeUpdate2Now`: null stands for the loop that never ends. Otherwise the result is
      what the scan on values drains, in order, and the wheel is what it leaves.
     */
    method NewMergeUpdate2Now(now_ms: nat) returns (result: TaskItemsList?)
      requires Valid() && LastCheckTime <= now_ms
      modifies this, TaskItemBucket, Items()
      ensures var w := old(View());
              if result == null then Hangs(w.pos, w.size, Target(w, now_ms))
              else
                && !Hangs(w.pos, w.size, Target(w, now_ms))
                && Valid() && View() == Scan(w, now_ms).0
                && result.Valid() && result.items == Scan(w, now_ms).1 && result.cancelled == 0 && fresh(result)
                && Items() + result.All() <= old(Items())
    {
      ghost var w := View();
      var target_pos := TargetPos(now_ms);
      HangsExactly(w.pos, w.size, target_pos);
      ghost var to := if target_pos < w.pos then w.pos else target_pos;
      ScanIs(w, now_ms, to);
      ViewIs();
      hide *;
      if BucketPosNow < target_pos && target_pos == |TaskItemBucket| - 1 { return null; }
      result := NewResult();
      ScanLoop(w, target_pos, result);
      MovedIs(w, to, result);
      MoveTo(target_pos, now_ms, result);
    }

    /** A new list, into which nothing has been moved yet. */
    method NewResult() returns (result: TaskItemsList)
      requires Valid()
      ensures fresh(result) && View() == old(View()) && Moved(View(), BucketPosNow, result) && Reach(result) == Items() == old(Items())
    {
      DrainStart(View());
      hide TaskItemsList.Valid, Emptied, Drained;
      result := new TaskItemsList();
    }

    lemma ViewIs()
      requires Valid()
      ensures View().pos == BucketPosNow && View().size == |TaskItemBucket| && View().Shaped()
    {
    }

    lemma MovedIs(w: Wheel<TaskItem>, i: nat, result: TaskItemsList)
      requires w.Shaped() && w.pos <= i < w.size && Moved(w, i, result)
      ensures Valid() && View() == w.(buckets := Emptied(w, w.pos, i)) && |TaskItemBucket| == w.size
      ensures result.Valid() && result.items == Drained(w, w.pos, i) && result.cancelled == 0
      ensures Items() + result.All() == Reach(result)
    {
    }

    /** Changes elsewhere leave the wheel alone. */
    twostate lemma Undisturbed()
      requires old(Valid()) && unchanged(this) && unchanged(TaskItemBucket) && unchanged(old(Items()))
      ensures Valid() && View() == old(View()) && Items() == old(Items())
    {
      forall b | b in TaskItemBucket ensures b.Valid() {
        assert forall k :: 0 <= k < |b.items| ==> b.items[k] in old(Items());
        b.Undisturbed();
      }
    }

    /** `BucketPosNow = target_pos; LastCheckTime = now_ms;` */
    method MoveTo(target_pos: nat, now_ms: nat, ghost result: TaskItemsList)
      requires Valid() && target_pos < |TaskItemBucket| && result.Valid()
      modifies this
      ensures Valid() && View() == old(View()).(pos := target_pos, last := now_ms) && Items() == old(Items())
      ensures result.Valid() && result.All() == old(result.All())
    {
      BucketPosNow := target_pos;
      LastCheckTime := now_ms;
    }

    method TargetPos(now_ms: nat) returns (target_pos: nat)
      requires Valid() && LastCheckTime <= now_ms
      ensures target_pos == Target(View(), now_ms)
    {
      target_pos := (now_ms - LastCheckTime + BucketPosNow) % |TaskItemBucket|;
    }
  }
}
