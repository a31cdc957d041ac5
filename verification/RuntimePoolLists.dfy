/** The pools on the linked lists of the source, by the specification of the pools on values. */
module RuntimePoolLists {
  import opened RuntimeSpec
  import opened Lists

  /** What comes off a list is its first value, and the rest stays; nothing comes off only if there is none. */
  predicate FirstOff(was: seq<Sid>, i: Option<Sid>, now: seq<Sid>) {
    if i.None? then was == [] == now else was == [i.value] + now
  }

  lemma FiledIs(p: Pools, sid: Sid, bytes: nat)
    ensures var f, kib := Filed(p, sid, bytes), bytes / 1024;
            && f.mini == p.mini + (if kib == 128 || kib == 4096 then [sid] else [])
            && f.medium == p.medium + (if kib == 1024 then [sid] else [])
            && f.large == p.large && f.routines == p.routines
  {
  }

  /** bRoutinePool_t and bUnSharedStackPool_t, the stack of each routine, and the mapped stacks. */
  class bPools {
    const DoneRoutines: List<Rid>
    const DoneRoutinesMiniStacks: List<Sid>
    const DoneRoutinesMediumStacks: List<Sid>
    const DoneRoutinesLargeStacks: List<Sid>
    var RoutineNums: int
    var stackOf: map<Rid, Sid>
    var size: map<Sid, nat>

    ghost predicate Distinct() {
      && DoneRoutines != DoneRoutinesMiniStacks && DoneRoutines != DoneRoutinesMediumStacks && DoneRoutines != DoneRoutinesLargeStacks
      && DoneRoutinesMiniStacks != DoneRoutinesMediumStacks && DoneRoutinesMiniStacks != DoneRoutinesLargeStacks
      && DoneRoutinesMediumStacks != DoneRoutinesLargeStacks
    }

    ghost function Repr(): set<object>
      reads DoneRoutines, DoneRoutinesMiniStacks, DoneRoutinesMediumStacks, DoneRoutinesLargeStacks
    {
      {DoneRoutines, DoneRoutinesMiniStacks, DoneRoutinesMediumStacks, DoneRoutinesLargeStacks}
      + DoneRoutines.Nodes() + DoneRoutinesMiniStacks.Nodes() + DoneRoutinesMediumStacks.Nodes() + DoneRoutinesLargeStacks.Nodes()
    }

    ghost predicate Valid()
      reads DoneRoutines, DoneRoutinesMiniStacks, DoneRoutinesMediumStacks, DoneRoutinesLargeStacks
      reads DoneRoutines.Nodes(), DoneRoutinesMiniStacks.Nodes(), DoneRoutinesMediumStacks.Nodes(), DoneRoutinesLargeStacks.Nodes()
    {
      && Distinct() && DoneRoutines.Valid() && DoneRoutinesMiniStacks.Valid()
      && DoneRoutinesMediumStacks.Valid() && DoneRoutinesLargeStacks.Valid()
    }

    ghost function View(): Pools
      reads this, DoneRoutines, DoneRoutinesMiniStacks, DoneRoutinesMediumStacks, DoneRoutinesLargeStacks
    {
      Pools(DoneRoutines.Contents(), DoneRoutinesMiniStacks.Contents(), DoneRoutinesMediumStacks.Contents(),
            DoneRoutinesLargeStacks.Contents(), RoutineNums, stackOf, size)
    }

    constructor (dispatcher: Rid, sid: Sid)
      ensures Valid() && forall o :: o in Repr() ==> fresh(o)
      ensures View() == Pools([], [], [], [], 0, map[dispatcher := sid], map[sid := LARGE_BYTES])
    {
      hide Linked, LinkAt, Values, List.Contents, List.Valid;
      DoneRoutines := new List<Rid>();
      DoneRoutinesMiniStacks := new List<Sid>();
      DoneRoutinesMediumStacks := new List<Sid>();
      DoneRoutinesLargeStacks := new List<Sid>();
      RoutineNums, stackOf, size := 0, map[dispatcher := sid], map[sid := LARGE_BYTES];
    }

    /** Changes elsewhere leave the pools alone. */
    twostate lemma Undisturbed()
      requires old(Valid()) && unchanged(this)
      requires unchanged(DoneRoutines) && unchanged(old(DoneRoutines.Nodes()))
      requires unchanged(DoneRoutinesMiniStacks) && unchanged(old(DoneRoutinesMiniStacks.Nodes()))
      requires unchanged(DoneRoutinesMediumStacks) && unchanged(old(DoneRoutinesMediumStacks.Nodes()))
      requires unchanged(DoneRoutinesLargeStacks) && unchanged(old(DoneRoutinesLargeStacks.Nodes()))
      ensures Valid() && Repr() == old(Repr()) && View() == old(View())
    {
      hide Linked, LinkAt, Values;
      DoneRoutines.Undisturbed();
      DoneRoutinesMiniStacks.Undisturbed();
      DoneRoutinesMediumStacks.Undisturbed();
      DoneRoutinesLargeStacks.Undisturbed();
    }

    lemma Owned()
      requires Valid()
      ensures forall o: object :: o in Repr() ==> o is List<nat> || (o is ListNode<nat> && (o as ListNode<nat>).owner is List<nat>)
    {
      hide Linked, LinkAt;
      DoneRoutines.Owns();
      DoneRoutinesMiniStacks.Owns();
      DoneRoutinesMediumStacks.Owns();
      DoneRoutinesLargeStacks.Owns();
    }

    ghost predicate IsList(l: List<nat>) {
      l == DoneRoutines || l == DoneRoutinesMiniStacks || l == DoneRoutinesMediumStacks || l == DoneRoutinesLargeStacks
    }

    /** No two of the lists share a node. */
    lemma NodesApart(a: List<nat>, b: List<nat>)
      requires a.Valid() && b.Valid()
      ensures a != b ==> forall x :: x in a.nodes ==> x !in b.nodes
    {
      a.Owns();
      b.Owns();
    }

    twostate lemma ReprShrinks()
      requires DoneRoutines.Nodes() <= old(DoneRoutines.Nodes()) && DoneRoutinesMiniStacks.Nodes() <= old(DoneRoutinesMiniStacks.Nodes())
      requires DoneRoutinesMediumStacks.Nodes() <= old(DoneRoutinesMediumStacks.Nodes())
      requires DoneRoutinesLargeStacks.Nodes() <= old(DoneRoutinesLargeStacks.Nodes())
      ensures Repr() <= old(Repr())
    {
      hide List.Nodes;
    }

    /** Take the first node off one of the linked lists; the others are not touched. */
    method PopFrom(l: List<nat>) returns (r: Option<nat>)
      requires Valid() && IsList(l)
      modifies l, l.nodes
      ensures Valid() && Repr() <= old(Repr())
      ensures r == if old(l.Contents()) == [] then None else Some(old(l.Contents())[0])
      ensures l.Contents() == if r.None? then old(l.Contents()) else old(l.Contents())[1..]
      ensures l != DoneRoutines ==> DoneRoutines.Contents() == old(DoneRoutines.Contents())
      ensures l != DoneRoutinesMiniStacks ==> DoneRoutinesMiniStacks.Contents() == old(DoneRoutinesMiniStacks.Contents())
      ensures l != DoneRoutinesMediumStacks ==> DoneRoutinesMediumStacks.Contents() == old(DoneRoutinesMediumStacks.Contents())
      ensures l != DoneRoutinesLargeStacks ==> DoneRoutinesLargeStacks.Contents() == old(DoneRoutinesLargeStacks.Contents())
    {
      NodesApart(DoneRoutines, l);
      NodesApart(DoneRoutinesMiniStacks, l);
      NodesApart(DoneRoutinesMediumStacks, l);
      NodesApart(DoneRoutinesLargeStacks, l);
      hide Linked, LinkAt, Values, List.Contents, List.Valid, List.Nodes, Repr;
      r := l.pop();
      if l != DoneRoutines { DoneRoutines.Undisturbed(); }
      if l != DoneRoutinesMiniStacks { DoneRoutinesMiniStacks.Undisturbed(); }
      if l != DoneRoutinesMediumStacks { DoneRoutinesMediumStacks.Undisturbed(); }
      if l != DoneRoutinesLargeStacks { DoneRoutinesLargeStacks.Undisturbed(); }
      ReprShrinks();
    }

    /** Append a node to one of the linked lists; the others are not touched. */
    method PushTo(l: List<nat>, x: nat) returns (ghost made: set<object>)
      requires Valid() && IsList(l)
      modifies l, l.nodes
      ensures Valid() && Repr() <= old(Repr()) + made && fresh(made)
      ensures l.Contents() == old(l.Contents()) + [x]
      ensures l != DoneRoutines ==> DoneRoutines.Contents() == old(DoneRoutines.Contents())
      ensures l != DoneRoutinesMiniStacks ==> DoneRoutinesMiniStacks.Contents() == old(DoneRoutinesMiniStacks.Contents())
      ensures l != DoneRoutinesMediumStacks ==> DoneRoutinesMediumStacks.Contents() == old(DoneRoutinesMediumStacks.Contents())
      ensures l != DoneRoutinesLargeStacks ==> DoneRoutinesLargeStacks.Contents() == old(DoneRoutinesLargeStacks.Contents())
    {
      NodesApart(DoneRoutines, l);
      NodesApart(DoneRoutinesMiniStacks, l);
      NodesApart(DoneRoutinesMediumStacks, l);
      NodesApart(DoneRoutinesLargeStacks, l);
      hide Linked, LinkAt, Values, List.Contents, List.Valid;
      l.push(x);
      made := l.Nodes() - old(l.Nodes());
      if l != DoneRoutines { DoneRoutines.Undisturbed(); }
      if l != DoneRoutinesMiniStacks { DoneRoutinesMiniStacks.Undisturbed(); }
      if l != DoneRoutinesMediumStacks { DoneRoutinesMediumStacks.Undisturbed(); }
      if l != DoneRoutinesLargeStacks { DoneRoutinesLargeStacks.Undisturbed(); }
    }

    method PopRoutine() returns (r: Option<nat>)
      requires Valid()
      modifies Repr()
      ensures Valid() && Repr() <= old(Repr())
      ensures r == if old(View()).routines == [] then None else Some(old(View()).routines[0])
      ensures View() == old(View()).(routines := if r.None? then [] else old(View()).routines[1..])
    {
      hide Linked, LinkAt, Values;
      r := PopFrom(DoneRoutines);
    }

    method PopMini() returns (r: Option<nat>)
      requires Valid()
      modifies Repr()
      ensures Valid() && Repr() <= old(Repr())
      ensures r == if old(View()).mini == [] then None else Some(old(View()).mini[0])
      ensures View() == old(View()).(mini := if r.None? then [] else old(View()).mini[1..])
    {
      hide Linked, LinkAt, Values;
      r := PopFrom(DoneRoutinesMiniStacks);
    }

    method PopMedium() returns (r: Option<nat>)
      requires Valid()
      modifies Repr()
      ensures Valid() && Repr() <= old(Repr())
      ensures r == if old(View()).medium == [] then None else Some(old(View()).medium[0])
      ensures View() == old(View()).(medium := if r.None? then [] else old(View()).medium[1..])
    {
      hide Linked, LinkAt, Values;
      r := PopFrom(DoneRoutinesMediumStacks);
    }

    method PopLarge() returns (r: Option<nat>)
      requires Valid()
      modifies Repr()
      ensures Valid() && Repr() <= old(Repr())
      ensures r == if old(View()).large == [] then None else Some(old(View()).large[0])
      ensures View() == old(View()).(large := if r.None? then [] else old(View()).large[1..])
    {
      hide Linked, LinkAt, Values;
      r := PopFrom(DoneRoutinesLargeStacks);
    }

    method PushRoutine(x: nat) returns (ghost made: set<object>)
      requires Valid()
      modifies Repr()
      ensures Valid() && Repr() <= old(Repr()) + made && fresh(made)
      ensures View() == old(View()).(routines := old(View()).routines + [x])
    {
      hide Linked, LinkAt, Values;
      made := PushTo(DoneRoutines, x);
    }

    method PushMini(x: nat) returns (ghost made: set<object>)
      requires Valid()
      modifies Repr()
      ensures Valid() && Repr() <= old(Repr()) + made && fresh(made)
      ensures View() == old(View()).(mini := old(View()).mini + [x])
    {
      hide Linked, LinkAt, Values;
      made := PushTo(DoneRoutinesMiniStacks, x);
    }

    method PushMedium(x: nat) returns (ghost made: set<object>)
      requires Valid()
      modifies Repr()
      ensures Valid() && Repr() <= old(Repr()) + made && fresh(made)
      ensures View() == old(View()).(medium := old(View()).medium + [x])
    {
      hide Linked, LinkAt, Values;
      made := PushTo(DoneRoutinesMediumStacks, x);
    }

    /** The scalar part of the pools. */
    method AddNums(d: int) returns (n: int)
      modifies this`RoutineNums
      ensures n == View().nums
      ensures Repr() == old(Repr()) && (old(Valid()) ==> Valid())
      ensures View() == old(View()).(nums := old(View()).nums + d)
    {
      RoutineNums := RoutineNums + d;
      return RoutineNums;
    }

    /** `bUnSharedStackPool_t::pop`: the first stack of the level's list, taken off the linked list. */
    method PopStack(level: StackLevel) returns (i: Option<Sid>)
      requires Valid()
      modifies this, Repr()
      ensures Valid() && Repr() <= old(Repr())
      ensures i == if Kept(old(View()), level) == [] then None else Some(Kept(old(View()), level)[0])
      ensures View() == if i.None? then old(View()) else RuntimeSpec.PopStack(old(View()), level)
      ensures if level.MiniStack? then FirstOff(old(View()).mini, i, View().mini) else View().mini == old(View()).mini
      ensures if level.MediumStack? then FirstOff(old(View()).medium, i, View().medium) else View().medium == old(View()).medium
      ensures if level.LargeStack? then FirstOff(old(View()).large, i, View().large) else View().large == old(View()).large
      ensures View().routines == old(View()).routines && View().nums == old(View()).nums - if i.Some? then 1 else 0
    {
      hide Linked, LinkAt, Values, Valid, Repr, View;
      match level {
        case MiniStack => i := PopMini();
        case MediumStack => i := PopMedium();
        case LargeStack => i := PopLarge();
      }
      if i.Some? {
        var n := AddNums(-1);
      }
    }

    /** `bUnSharedStackPool_t::push`: refused at the limit, else appended to the list that the code chooses. */
    method PushStack(sid: Sid) returns (n: int, ghost made: set<object>)
      requires Valid() && sid in size
      modifies this`RoutineNums, Repr()
      ensures Valid() && Repr() <= old(Repr()) + made && fresh(made)
      ensures n == if old(View()).nums >= MAX_KEEP then -1 else View().nums
      ensures View() == if old(View()).nums >= MAX_KEEP then old(View())
                        else RuntimeSpec.PushStack(old(View()), sid, old(size)[sid])
      ensures old(View()).nums < 1000 ==>
                var kib := old(size)[sid] / 1024;
                && View().mini == old(View()).mini + (if kib == 128 || kib == 4096 then [sid] else [])
                && View().medium == old(View()).medium + (if kib == 1024 then [sid] else [])
                && View().large == old(View()).large && View().routines == old(View()).routines && View().nums == old(View()).nums + 1
    {
      FiledIs(View(), sid, size[sid]);
      if RoutineNums >= MAX_KEEP {
        return -1, {};
      }
      hide Linked, LinkAt, Values, Valid, Repr, Filed, View;
      made := File(sid);
      n := AddNums(1);
    }

    /** The list that the code chooses by the size of the stack. */
    method File(sid: Sid) returns (ghost made: set<object>)
      requires Valid() && sid in size
      modifies Repr()
      ensures Valid() && Repr() <= old(Repr()) + made && fresh(made)
      ensures View() == Filed(old(View()), sid, old(size)[sid]) && View().nums == old(View()).nums
    {
      made := {};
      hide Linked, LinkAt, Values, Valid, Repr, LevelOf;
      var level := LevelOf(size[sid]);
      match level {
        case Some(LargeStack) => made := PushMini(sid);
        case Some(MediumStack) => made := PushMedium(sid);
        case Some(MiniStack) => made := PushMini(sid);
        case None =>
      }
    }

    method MapStack(sid: Sid, bytes: nat)
      modifies this`size
      ensures Repr() == old(Repr()) && (old(Valid()) ==> Valid())
      ensures View() == old(View()).(size := old(View()).size[sid := bytes])
    {
      size := size[sid := bytes];
    }

    method GiveStack(r: Rid, sid: Sid)
      modifies this`stackOf
      ensures Repr() == old(Repr()) && (old(Valid()) ==> Valid())
      ensures View() == old(View()).(stackOf := old(View()).stackOf[r := sid])
    {
      stackOf := stackOf[r := sid];
    }

    method TakeStack(r: Rid)
      modifies this`stackOf
      ensures Repr() == old(Repr()) && (old(Valid()) ==> Valid())
      ensures View() == old(View()).(stackOf := old(View()).stackOf - {r})
    {
      stackOf := stackOf - {r};
    }

    /** The routine and the stack of `bRoutine::New`. */
    method New(r: Rid, level: StackLevel, sid: Sid) returns (i: Rid)
      requires Valid()
      modifies this, Repr()
      ensures Valid() && Repr() <= old(Repr())
      ensures i == NewRid(old(View()), r) && View() == NewRoutine(old(View()), r, level, sid)
    {
      hide Linked, LinkAt, Values, Valid, Repr, View;
      var pooled := PopRoutine();
      i := if pooled.Some? then pooled.value else r;
      var stack := PopStack(level);
      if stack.None? {
        MapStack(sid, Bytes(level));
        stack := Some(sid);
      }
      GiveStack(i, stack.value);
    }

    /** `bRoutineRecycle`: whether the routine and its stack went to the pools. */
    method Recycle(r: Rid) returns (kept: bool, ghost made: set<object>)
      requires Valid() && r in View().stackOf && View().stackOf[r] in View().size && View().nums >= 0
      modifies this, Repr()
      ensures Valid() && Repr() <= old(Repr()) + made && fresh(made)
      ensures kept <==> old(View()).nums < MAX_KEEP
      ensures View() == if kept then RuntimeSpec.Recycle(old(View()), r) else old(View())
    {
      hide Linked, LinkAt, Values, Valid, Repr;
      var n;
      n, made := PushStack(stackOf[r]);
      if n == -1 {
        return false, made;
      }
      TakeStack(r);
      ghost var node := PushRoutine(r);
      return true, made + node;
    }

    /** `bRoutine::Del`. */
    method Del(r: Rid)
      requires Valid() && r in View().stackOf
      modifies this
      ensures Valid() && Repr() == old(Repr())
      ensures View() == RuntimeSpec.Delete(old(View()), r)
    {
      size := size - {stackOf[r]};
      stackOf := stackOf - {r};
    }
  }
}
