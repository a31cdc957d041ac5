/** A wheel of TaskItems, told by their addresses. */
module TimerNodes {
  import opened TaskList
  import opened TimerSpec

  function Addresses(s: seq<TaskItem>): (r: seq<nat>)
    ensures |r| == |s| && forall k :: 0 <= k < |s| ==> r[k] == s[k].address
  {
    seq(|s|, k requires 0 <= k < |s| => s[k].address)
  }

  function EachAddresses(bs: seq<seq<TaskItem>>): (r: seq<seq<nat>>)
    ensures |r| == |bs| && forall k :: 0 <= k < |bs| ==> r[k] == Addresses(bs[k])
  {
    seq(|bs|, k requires 0 <= k < |bs| => Addresses(bs[k]))
  }

  function Addressed(w: Wheel<TaskItem>): (v: Wheel<nat>)
    ensures w.Shaped() <==> v.Shaped()
  {
    Wheel(w.size, w.pos, w.last, EachAddresses(w.buckets))
  }

  lemma AddressesAppend(s: seq<TaskItem>, t: seq<TaskItem>)
    ensures Addresses(s + t) == Addresses(s) + Addresses(t)
  {
  }

  lemma {:induction false} AddressesConcat(bs: seq<seq<TaskItem>>)
    ensures Addresses(Concat(bs)) == Concat(EachAddresses(bs))
  {
    if bs != [] {
      AddressesConcat(bs[..|bs| - 1]);
      assert EachAddresses(bs)[..|bs| - 1] == EachAddresses(bs[..|bs| - 1]);
      AddressesAppend(Concat(bs[..|bs| - 1]), bs[|bs| - 1]);
    }
  }

  /** The items in a sequence have different addresses from t, unless they are t. */
  predicate Tells(s: seq<TaskItem>, t: TaskItem) {
    forall x :: x in s && x.address == t.address ==> x == t
  }

  lemma {:induction false} AddressesWithout(s: seq<TaskItem>, t: TaskItem)
    requires Tells(s, t)
    ensures Addresses(Without(s, t)) == Without(Addresses(s), t.address)
  {
    if s != [] {
      AddressesWithout(s[1..], t);
      assert Addresses(s)[1..] == Addresses(s[1..]);
      assert s[0] in s;
      if s[0] != t {
        AddressesAppend([s[0]], Without(s[1..], t));
      }
    }
  }

  lemma InsertAddressed(w: Wheel<TaskItem>, t: TaskItem, ms: nat)
    requires w.Shaped()
    ensures Addressed(Insert(w, t, ms)) == Insert(Addressed(w), t.address, ms)
  {
    var b := BucketOf(w, ms);
    AddressesAppend(w.buckets[b], [t]);
    assert Addresses([t]) == [t.address];
    assert EachAddresses(w.buckets[b := w.buckets[b] + [t]]) == EachAddresses(w.buckets)[b := Addresses(w.buckets[b]) + [t.address]];
  }

  lemma CancelAddressed(w: Wheel<TaskItem>, t: TaskItem)
    requires w.Shaped() && forall b :: 0 <= b < w.size ==> Tells(w.buckets[b], t)
    ensures Addressed(Cancel(w, t)) == Cancel(Addressed(w), t.address)
  {
    forall b | 0 <= b < w.size ensures Addresses(Without(w.buckets[b], t)) == Without(Addresses(w.buckets[b]), t.address) {
      AddressesWithout(w.buckets[b], t);
    }
  }

  lemma ScanAddressed(w: Wheel<TaskItem>, now: nat)
    requires w.Shaped() && w.last <= now
    ensures Addressed(Scan(w, now).0) == Scan(Addressed(w), now).0
    ensures Addresses(Scan(w, now).1) == Scan(Addressed(w), now).1
  {
    var target := Target(w, now);
    if target > w.pos {
      var bs := w.buckets[w.pos + 1..target + 1];
      AddressesConcat(bs);
      assert EachAddresses(bs) == EachAddresses(w.buckets)[w.pos + 1..target + 1];
    }
  }
}
