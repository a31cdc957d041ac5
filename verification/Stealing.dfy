/** `stealTaskRoutine`: an idle scheduler goes through the ready queues of the others. */
module Stealing {
  import opened TaskList

  /** The attempt's part of the loot. */
  function Part(q: seq<TaskItem>, t: Try): seq<TaskItem> {
    if HandedOut(q, t) == null then [] else [HandedOut(q, t)]
  }

  /** What the attempts on the first n queues hand out, one after the other. */
  function Loot(qs: seq<seq<TaskItem>>, tries: seq<Try>, n: nat): (l: seq<TaskItem>)
    requires n <= |qs| && n <= |tries|
    ensures |l| <= n
  {
    if n == 0 then [] else Loot(qs, tries, n - 1) + Part(qs[n - 1], tries[n - 1])
  }

  /** What they leave of the first n queues. */
  function Leavings(qs: seq<seq<TaskItem>>, tries: seq<Try>, n: nat): (r: seq<seq<TaskItem>>)
    requires n <= |qs| && n <= |tries|
    ensures |r| == n
  {
    seq(n, k requires 0 <= k < n => Remains(qs[k], tries[k]))
  }

  ghost function Tasks(qs: seq<seq<TaskItem>>): multiset<TaskItem> {
    if qs == [] then multiset{} else Tasks(qs[..|qs| - 1]) + multiset(qs[|qs| - 1])
  }

  lemma PartConserves(q: seq<TaskItem>, t: Try)
    requires !StealsMain(q, t)
    ensures multiset(Remains(q, t)) + multiset(Part(q, t)) == multiset(q)
    ensures forall x :: x in Part(q, t) ==> !x.isMain
  {
    StealConserves(q, t);
    hide Remains, HandedOut, StealsMain;
    assert HandedOut(q, t) != null ==> multiset([HandedOut(q, t)]) == multiset{HandedOut(q, t)};
  }

  lemma TasksSnoc(qs: seq<seq<TaskItem>>, q: seq<TaskItem>)
    ensures Tasks(qs + [q]) == Tasks(qs) + multiset(q)
  {
    assert (qs + [q])[..|qs|] == qs;
  }

  lemma Exchange<T>(left: multiset<T>, loot: multiset<T>, all: multiset<T>, remains: multiset<T>, part: multiset<T>, q: multiset<T>,
                    left': multiset<T>, loot': multiset<T>, all': multiset<T>)
    requires left + loot == all && remains + part == q
    requires left' == left + remains && loot' == loot + part && all' == all + q
    ensures left' + loot' == all'
  {
  }

  /** One attempt more. */
  lemma TasksOfRound(qs: seq<seq<TaskItem>>, tries: seq<Try>, n: nat)
    requires n < |qs| && n < |tries|
    ensures Tasks(Leavings(qs, tries, n + 1)) == Tasks(Leavings(qs, tries, n)) + multiset(Remains(qs[n], tries[n]))
    ensures Tasks(qs[..n + 1]) == Tasks(qs[..n]) + multiset(qs[n])
  {
    hide Remains;
    assert Leavings(qs, tries, n + 1) == Leavings(qs, tries, n) + [Remains(qs[n], tries[n])];
    assert qs[..n + 1] == qs[..n] + [qs[n]];
    hide *;
    TasksSnoc(Leavings(qs, tries, n), Remains(qs[n], tries[n]));
    TasksSnoc(qs[..n], qs[n]);
  }

  lemma LootOfRound(qs: seq<seq<TaskItem>>, tries: seq<Try>, n: nat)
    requires n < |qs| && n < |tries|
    ensures multiset(Loot(qs, tries, n + 1)) == multiset(Loot(qs, tries, n)) + multiset(Part(qs[n], tries[n]))
    ensures forall x :: x in Loot(qs, tries, n + 1) ==> x in Loot(qs, tries, n) || x in Part(qs[n], tries[n])
  {
    hide Part;
  }

  lemma NothingYet(qs: seq<seq<TaskItem>>, tries: seq<Try>)
    ensures Tasks(Leavings(qs, tries, 0)) + multiset(Loot(qs, tries, 0)) == Tasks(qs[..0])
  {
    assert Leavings(qs, tries, 0) == [] && qs[..0] == [] && Loot(qs, tries, 0) == [];
  }

  /** A round of attempts conserves the tasks, if none of them meets a lone main item. */
  lemma {:induction false} RoundConserves(qs: seq<seq<TaskItem>>, tries: seq<Try>, n: nat)
    requires n <= |qs| && n <= |tries| && forall k :: 0 <= k < n ==> !StealsMain(qs[k], tries[k])
    ensures Tasks(Leavings(qs, tries, n)) + multiset(Loot(qs, tries, n)) == Tasks(qs[..n])
  {
    hide *;
    if n == 0 {
      NothingYet(qs, tries);
    } else {
      var q, t := qs[n - 1], tries[n - 1];
      RoundConserves(qs, tries, n - 1);
      PartConserves(q, t);
      TasksOfRound(qs, tries, n - 1);
      LootOfRound(qs, tries, n - 1);
      Exchange(Tasks(Leavings(qs, tries, n - 1)), multiset(Loot(qs, tries, n - 1)), Tasks(qs[..n - 1]),
               multiset(Remains(q, t)), multiset(Part(q, t)), multiset(q),
               Tasks(Leavings(qs, tries, n)), multiset(Loot(qs, tries, n)), Tasks(qs[..n]));
    }
  }

  /** And it takes no main routine. */
  lemma {:induction false} LootHasNoMain(qs: seq<seq<TaskItem>>, tries: seq<Try>, n: nat)
    requires n <= |qs| && n <= |tries| && forall k :: 0 <= k < n ==> !StealsMain(qs[k], tries[k])
    ensures forall x :: x in Loot(qs, tries, n) ==> !x.isMain
  {
    if n > 0 {
      LootHasNoMain(qs, tries, n - 1);
      PartConserves(qs[n - 1], tries[n - 1]);
      hide *;
      LootOfRound(qs, tries, n - 1);
    }
  }

  /** The scheduler's own queue after a round: what was in it, and the loot behind. */
  function Gathered(qs: seq<seq<TaskItem>>, ID: nat, tries: seq<Try>): seq<TaskItem>
    requires ID < |qs| == |tries|
  {
    qs[ID] + Loot(qs, tries, ID)
  }

  /** The queues at the end: what the attempts leave, and the scheduler's own queue without its first item. */
  function AfterRound(qs: seq<seq<TaskItem>>, ID: nat, tries: seq<Try>): seq<seq<TaskItem>>
    requires ID < |qs| == |tries|
  {
    var own := Gathered(qs, ID, tries);
    Leavings(qs, tries, ID) + [if own == [] then [] else own[1..]]
  }

  /** What the scheduler gets to dispatch. */
  function Given(qs: seq<seq<TaskItem>>, ID: nat, tries: seq<Try>): TaskItem?
    requires ID < |qs| == |tries|
  {
    var own := Gathered(qs, ID, tries);
    if own == [] then null else own[0]
  }

  lemma MainStays(q: seq<TaskItem>, t: Try)
    ensures forall x :: x in q && x.isMain ==> x in Remains(q, t)
  {
    if q != [] {
      assert q == [q[0]] + q[1..];
    }
  }

  lemma FirstOf(own: seq<TaskItem>)
    ensures own != [] ==> own[0] in own
    ensures multiset(if own == [] then [] else own[1..]) + (if own == [] then multiset{} else multiset{own[0]}) == multiset(own)
  {
    if own != [] {
      assert own == [own[0]] + own[1..];
    }
  }

  /** The whole call, when no attempt meets a lone main item: no task is lost or duplicated. */
  lemma StealingConserves(qs: seq<seq<TaskItem>>, ID: nat, tries: seq<Try>)
    requires ID < |qs| == |tries| && Complete(qs, ID, tries)
    ensures var r := Given(qs, ID, tries);
            Tasks(AfterRound(qs, ID, tries)) + (if r == null then multiset{} else multiset{r}) == Tasks(qs)
  {
    var own := Gathered(qs, ID, tries);
    var rest := if own == [] then [] else own[1..];
    AfterRoundIs(qs, ID, tries);
    hide *;
    RoundConserves(qs, tries, ID);
    TasksSnoc(Leavings(qs, tries, ID), rest);
    TasksSnoc(qs[..ID], qs[ID]);
    FirstOf(own);
    Balance(Tasks(Leavings(qs, tries, ID)), multiset(rest), if own == [] then multiset{} else multiset{own[0]}, multiset(own),
            multiset(Loot(qs, tries, ID)), multiset(qs[ID]), Tasks(qs[..ID]));
  }

  lemma AfterRoundIs(qs: seq<seq<TaskItem>>, ID: nat, tries: seq<Try>)
    requires ID + 1 == |qs| == |tries|
    ensures var own := Gathered(qs, ID, tries);
            && AfterRound(qs, ID, tries) == Leavings(qs, tries, ID) + [if own == [] then [] else own[1..]]
            && Given(qs, ID, tries) == (if own == [] then null else own[0])
            && multiset(own) == multiset(qs[ID]) + multiset(Loot(qs, tries, ID))
            && |own| <= |qs[ID]| + ID
    ensures qs == qs[..ID] + [qs[ID]]
  {
    hide Loot, Leavings;
  }

  lemma Balance<T>(left: multiset<T>, rest: multiset<T>, first: multiset<T>, own: multiset<T>, loot: multiset<T>, mine: multiset<T>, theirs: multiset<T>)
    requires rest + first == own && own == mine + loot && left + loot == theirs
    ensures left + rest + first == theirs + mine
  {
    assert left + (rest + first) == left + (mine + loot) == (left + loot) + mine;
  }

  /** The own tasks come first, and an idle scheduler gets nothing only if it has none and no attempt can hand out anything. */
  lemma GetsATask(qs: seq<seq<TaskItem>>, ID: nat, tries: seq<Try>)
    requires ID < |qs| == |tries|
    ensures qs[ID] != [] ==> Given(qs, ID, tries) == qs[ID][0]
    ensures Given(qs, ID, tries) == null <==>
              qs[ID] == [] && forall k :: 0 <= k < ID ==>
                qs[k] == [] || !tries[k].headFree || (if |qs[k]| == 1 then !tries[k].tailFree else qs[k][0].isMain)
  {
    LootIsEmpty(qs, tries, ID);
    forall k | 0 <= k < ID ensures HandedOut(qs[k], tries[k]) != null <==>
      qs[k] != [] && tries[k].headFree && (if |qs[k]| == 1 then tries[k].tailFree else !qs[k][0].isMain)
    {
      StealsTheFirst(qs[k], tries[k]);
    }
    hide HandedOut, Loot;
  }

  lemma {:induction false} LootIsEmpty(qs: seq<seq<TaskItem>>, tries: seq<Try>, n: nat)
    requires n <= |qs| && n <= |tries|
    ensures Loot(qs, tries, n) == [] <==> forall k :: 0 <= k < n ==> HandedOut(qs[k], tries[k]) == null
  {
    hide HandedOut;
    if n > 0 {
      LootIsEmpty(qs, tries, n - 1);
    }
  }

  /** Then the main task of another scheduler stays in that scheduler's queue and is not given. */
  lemma MainsStay(qs: seq<seq<TaskItem>>, ID: nat, tries: seq<Try>)
    requires ID < |qs| == |tries| && Complete(qs, ID, tries)
    ensures forall k, x :: 0 <= k < ID && x in qs[k] && x.isMain ==> x in AfterRound(qs, ID, tries)[k]
    ensures Given(qs, ID, tries) != null && Given(qs, ID, tries).isMain ==> Given(qs, ID, tries) in qs[ID]
  {
    LootHasNoMain(qs, tries, ID);
    FirstOf(Gathered(qs, ID, tries));
    hide Tasks, Remains, StealsMain, Loot;
    forall k, x | 0 <= k < ID && x in qs[k] && x.isMain ensures x in AfterRound(qs, ID, tries)[k] {
      MainStays(qs[k], tries[k]);
      assert AfterRound(qs, ID, tries)[k] == Remains(qs[k], tries[k]);
    }
  }

  // ---- the queues on the heap -------------------------------------------------------------------

  ghost function Items(queues: seq<TaskItemsList>): set<TaskItem>
    reads queues
  {
    set b, k | b in queues && 0 <= k < |b.items| :: b.items[k]
  }

  /** The ready queues: linked, different ones, none with a cancellation. */
  ghost predicate ReadyQueues(queues: seq<TaskItemsList>)
    reads queues, Items(queues)
  {
    && (forall a, b :: 0 <= a < b < |queues| ==> queues[a] != queues[b])
    && (forall b :: b in queues ==> b.Valid() && b.cancelled == 0)
  }

  ghost function Contents(queues: seq<TaskItemsList>): (c: seq<seq<TaskItem>>)
    reads queues
    ensures |c| == |queues|
  {
    seq(|queues|, k requires 0 <= k < |queues| reads queues => queues[k].items)
  }

  ghost predicate Owned(b: TaskItemsList)
    reads b, b.items
  {
    forall x :: x in b.items ==> x.owner == b
  }

  lemma AllOwned(queues: seq<TaskItemsList>)
    requires ReadyQueues(queues)
    ensures forall b :: b in queues ==> Owned(b)
  {
    forall b | b in queues ensures Owned(b) {
      b.OwnsItems();
    }
  }

  /** An attempt hands out an item of the queue, and leaves items of the queue. */
  lemma RemainsOf(q: seq<TaskItem>, t: Try)
    ensures forall x :: x in Remains(q, t) ==> x in q
    ensures HandedOut(q, t) != null ==> HandedOut(q, t) in q
    ensures StealsMain(q, t) ==> HandedOut(q, t) in Remains(q, t)
  {
  }

  /** One attempt on queue k; the other queues do not notice. */
  method TryAt(queues: seq<TaskItemsList>, k: nat, t: Try) returns (p: TaskItem?)
    requires ReadyQueues(queues) && k < |queues| && |queues[k].items| < 0x1_0000_0000
    modifies queues[k], queues[k].items
    ensures ReadyQueues(queues) && p == HandedOut(old(queues[k].items), t)
    ensures Contents(queues) == old(Contents(queues))[k := Remains(old(queues[k].items), t)]
    ensures p != null ==> p in old(queues[k].items)
    ensures p != null ==> if StealsMain(old(queues[k].items), t) then p.owner != null else p.Detached()
    ensures Items(queues) <= old(Items(queues))
  {
    var b := queues[k];
    assert b in queues;
    AllOwned(queues);
    RemainsOf(b.items, t);
    hide TaskItemsList.Linked, TaskItemsList.LinkAt, Wrap, Remains, HandedOut, StealsMain;
    p := b.Try2stealTask(t);
    b.OwnsItems();
    forall c | c in queues && c != b ensures c.Valid() && c.cancelled == 0 && c.items == old(c.items) {
      assert old(Owned(c)) && old(Owned(b));
      assert forall k :: 0 <= k < |old(c.items)| ==> old(c.items)[k] in old(c.items);
      c.Undisturbed();
    }
  }

  /** `ActivetaskItems->pushBack(p)` on queue k; the other queues do not notice. */
  method PushAt(queues: seq<TaskItemsList>, k: nat, p: TaskItem)
    requires ReadyQueues(queues) && k < |queues| && p.Detached()
    modifies queues[k], p, queues[k].tail
    ensures ReadyQueues(queues)
    ensures Contents(queues) == old(Contents(queues))[k := old(queues[k].items) + [p]]
    ensures Items(queues) <= old(Items(queues)) + {p}
  {
    var b := queues[k];
    assert b in queues;
    AllOwned(queues);
    b.OwnsItems();
    hide TaskItemsList.Linked, TaskItemsList.LinkAt, Wrap;
    b.PushBackUnsafe(p);
    forall c | c in queues && c != b ensures c.Valid() && c.cancelled == 0 && c.items == old(c.items) {
      assert old(Owned(c)) && old(Owned(b));
      c.Undisturbed();
    }
  }

  /** `popHead` on queue k, while nobody else uses it; the other queues do not notice. */
  method PopAt(queues: seq<TaskItemsList>, k: nat) returns (p: TaskItem?)
    requires ReadyQueues(queues) && k < |queues| && |queues[k].items| < 0x1_0000_0000
    modifies queues[k], queues[k].items
    ensures ReadyQueues(queues)
    ensures var q := old(queues[k].items);
            && Contents(queues) == old(Contents(queues))[k := if q == [] then [] else q[1..]]
            && if q == [] then p == null else p == q[0] && p.Detached()
  {
    var b := queues[k];
    assert b in queues;
    AllOwned(queues);
    hide TaskItemsList.Linked, TaskItemsList.LinkAt;
    p := b.PopHeadUnsafe();
    forall c | c in queues && c != b ensures c.Valid() && c.cancelled == 0 && c.items == old(c.items) {
      assert old(Owned(c)) && old(Owned(b));
      assert forall k :: 0 <= k < |old(c.items)| ==> old(c.items)[k] in old(c.items);
      c.Undisturbed();
    }
  }

  lemma ContentsAre(queues: seq<TaskItemsList>, k: nat)
    requires k < |queues|
    ensures Contents(queues)[k] == queues[k].items
  {
  }

  /** One round of the loop: an attempt on queue id, and what it hands out goes to the end of queue ID, unless id still holds it. */
  method Visit(queues: seq<TaskItemsList>, id: nat, ID: nat, t: Try) returns (twice: bool)
    requires ReadyQueues(queues) && id < |queues| && ID < |queues| && id != ID && |queues[id].items| < 0x1_0000_0000
    modifies queues, Items(queues)
    ensures twice <==> StealsMain(old(queues[id].items), t)
    ensures !twice ==> ReadyQueues(queues) && Items(queues) <= old(Items(queues))
    ensures !twice ==> var c := old(Contents(queues));
                       Contents(queues) == c[id := Remains(c[id], t)][ID := c[ID] + Part(c[id], t)]
  {
    hide ReadyQueues, Remains, HandedOut, StealsMain;
    ghost var c := Contents(queues);
    assert c[id] == queues[id].items && c[ID] == queues[ID].items;
    assert forall x :: x in queues[id].items ==> x in Items(queues);
    var p := TryAt(queues, id, t);
    assert Contents(queues)[ID] == queues[ID].items;
    HandsOut(c[id], t, c[ID]);
    if p != null {
      if p.owner != null {
        return true;
      }
      assert queues[ID].tail != null ==> queues[ID].tail in Items(queues) by { TailIn(queues, ID); }
      PushAt(queues, ID, p);
    }
    twice := false;
  }

  lemma HandsOut(q: seq<TaskItem>, t: Try, own: seq<TaskItem>)
    ensures StealsMain(q, t) ==> HandedOut(q, t) != null
    ensures HandedOut(q, t) == null ==> own + Part(q, t) == own
  {
    assert own + [] == own;
  }

  lemma TailIn(queues: seq<TaskItemsList>, k: nat)
    requires ReadyQueues(queues) && k < |queues|
    ensures queues[k].tail != null ==> queues[k].tail in Items(queues)
  {
    assert queues[k] in queues;
    queues[k].OwnsItems();
  }

  /** The round so far, before queue id: none of the queues qs was found with a lone main item, and this is what c holds of them. */
  ghost predicate Round(qs: seq<seq<TaskItem>>, ID: nat, tries: seq<Try>, id: nat, c: seq<seq<TaskItem>>)
    requires ID < |qs| == |tries|
  {
    && id <= |qs| == |c| && (forall k :: id <= k < |qs| && k != ID ==> c[k] == qs[k])
    && if ID + 1 == |qs| then
         && id <= ID && (forall k :: 0 <= k < id ==> !StealsMain(qs[k], tries[k]))
         && (forall k :: 0 <= k < id ==> c[k] == Remains(qs[k], tries[k])) && c[ID] == qs[ID] + Loot(qs, tries, id)
       else
         ID < id && forall k :: ID < k < id ==> !StealsMain(qs[k], tries[k])
  }

  /** The queue behind queue ID. */
  function Next(ID: nat, size: nat): (id: nat)
    requires ID < size
    ensures id == if ID + 1 == size then 0 else ID + 1
  {
    (ID + 1) % size
  }

  lemma RoundStarts(qs: seq<seq<TaskItem>>, ID: nat, tries: seq<Try>)
    requires ID < |qs| == |tries|
    ensures Round(qs, ID, tries, Next(ID, |qs|), qs)
  {
    hide Remains, Part, StealsMain;
    if ID + 1 == |qs| {
      assert qs[ID] + Loot(qs, tries, 0) == qs[ID];
    }
  }

  lemma RoundStep(qs: seq<seq<TaskItem>>, ID: nat, tries: seq<Try>, id: nat, c: seq<seq<TaskItem>>)
    requires ID < |qs| == |tries| && id < |qs| && id != ID && Round(qs, ID, tries, id, c)
    ensures |c| == |qs| && c[id] == qs[id]
    ensures !StealsMain(qs[id], tries[id]) ==>
              Round(qs, ID, tries, id + 1, c[id := Remains(c[id], tries[id])][ID := c[ID] + Part(c[id], tries[id])])
  {
    hide Remains, Part, StealsMain;
    if ID + 1 == |qs| {
      assert Loot(qs, tries, id + 1) == Loot(qs, tries, id) + Part(qs[id], tries[id]);
      assert (qs[ID] + Loot(qs, tries, id)) + Part(qs[id], tries[id]) == qs[ID] + Loot(qs, tries, id + 1);
    }
  }

  /** Where the loop stops, and what an attempt that meets a lone main item says of the round. */
  lemma RoundEnds(qs: seq<seq<TaskItem>>, ID: nat, tries: seq<Try>, id: nat, c: seq<seq<TaskItem>>)
    requires ID < |qs| == |tries| && Round(qs, ID, tries, id, c)
    ensures id == ID ==> Complete(qs, ID, tries) && c[ID] == Gathered(qs, ID, tries) && |c[ID]| <= |qs[ID]| + ID
    ensures id == ID ==>
              c[ID := if c[ID] == [] then [] else c[ID][1..]] == AfterRound(qs, ID, tries)
              && Given(qs, ID, tries) == if c[ID] == [] then null else c[ID][0]
    ensures id == |qs| ==> Overruns(qs, ID, tries)
    ensures id < |qs| && id != ID && StealsMain(qs[id], tries[id]) ==> !Complete(qs, ID, tries) && !Overruns(qs, ID, tries)
    ensures !(Complete(qs, ID, tries) && Overruns(qs, ID, tries))
  {
    hide Remains, Part, StealsMain;
  }

  /** The scheduler is the last one, and no attempt meets a lone main item. */
  predicate Complete(qs: seq<seq<TaskItem>>, ID: nat, tries: seq<Try>)
    requires ID < |qs| == |tries|
  {
    ID + 1 == |qs| && forall k :: 0 <= k < ID ==> !StealsMain(qs[k], tries[k])
  }

  /** The scheduler is not the last one, and no attempt up to the end of the array meets a lone main item. */
  predicate Overruns(qs: seq<seq<TaskItem>>, ID: nat, tries: seq<Try>)
    requires ID < |qs| == |tries|
  {
    ID + 1 < |qs| && forall k :: ID < k < |qs| ==> !StealsMain(qs[k], tries[k])
  }

  /** How `stealTaskRoutine` ends: with an answer, by reading past the array, or with an item about to be linked twice. */
  datatype Ending = Done | PastTheArray | LinkedTwice

  /** The counts stay below the width of the source's counter even if one queue gets an item of each other. */
  predicate Small(qs: seq<seq<TaskItem>>) {
    forall k :: 0 <= k < |qs| ==> |qs[k]| + |qs| < 0x1_0000_0000
  }

  /** Which rounds end how. */
  ghost predicate Ends(qs: seq<seq<TaskItem>>, ID: nat, tries: seq<Try>, end: Ending)
    requires ID < |qs| == |tries|
  {
    (end.Done? <==> Complete(qs, ID, tries)) && (end.PastTheArray? <==> Overruns(qs, ID, tries))
  }

  /** The loop has come to queue id: how it left the queues before, whose contents were qs. */
  ghost predicate At(queues: seq<TaskItemsList>, qs: seq<seq<TaskItem>>, ID: nat, tries: seq<Try>, id: nat)
    reads queues, Items(queues)
  {
    && ID < |queues| == |qs| == |tries| && Small(qs)
    && ReadyQueues(queues) && Round(qs, ID, tries, id, Contents(queues))
  }

  /** One round of the loop, and what it says of the whole round if it meets a lone main item. */
  method Turn(queues: seq<TaskItemsList>, ghost qs: seq<seq<TaskItem>>, ID: nat, tries: seq<Try>, id: nat) returns (twice: bool)
    requires At(queues, qs, ID, tries, id) && id < |queues| && id != ID
    modifies queues, Items(queues)
    ensures ID < |qs| == |tries| && (twice ==> Ends(qs, ID, tries, LinkedTwice))
    ensures !twice ==> At(queues, qs, ID, tries, id + 1) && Items(queues) <= old(Items(queues))
  {
    hide ReadyQueues, Round, StealsMain, Remains, Part, Complete, Overruns, Items;
    RoundEnds(qs, ID, tries, id, Contents(queues));
    RoundStep(qs, ID, tries, id, Contents(queues));
    twice := Visit(queues, id, ID, tries[id]);
  }

  /** After the last round: `popHead` on the scheduler's own queue. */
  method Finish(queues: seq<TaskItemsList>, ghost qs: seq<seq<TaskItem>>, ID: nat, ghost tries: seq<Try>) returns (r: TaskItem?)
    requires At(queues, qs, ID, tries, ID)
    modifies queues, Items(queues)
    ensures ID < |qs| == |tries| && Answered(queues, qs, ID, tries, r) && Ends(qs, ID, tries, Done)
  {
    hide ReadyQueues, Round, Complete, Overruns, Gathered, AfterRound, Given, Contents;
    RoundEnds(qs, ID, tries, ID, Contents(queues));
    ContentsAre(queues, ID);
    OwnIn(queues, ID);
    r := PopAt(queues, ID);
  }

  /** The end of a call that comes to an end: the queues, and the answer r. */
  ghost predicate Answered(queues: seq<TaskItemsList>, qs: seq<seq<TaskItem>>, ID: nat, tries: seq<Try>, r: TaskItem?)
    requires ID < |qs| == |tries|
    reads queues, Items(queues), r
  {
    && ReadyQueues(queues) && Contents(queues) == AfterRound(qs, ID, tries)
    && r == Given(qs, ID, tries) && (r != null ==> r.Detached())
  }

  /** The loop: it starts behind the scheduler's own queue and never wraps around. */
  method Rounds(queues: seq<TaskItemsList>, ghost qs: seq<seq<TaskItem>>, ID: nat, tries: seq<Try>) returns (end: Ending)
    requires ID < |queues| && At(queues, qs, ID, tries, Next(ID, |queues|))
    modifies queues, Items(queues)
    ensures if end.Done? then At(queues, qs, ID, tries, ID) && Items(queues) <= old(Items(queues))
            else ID < |qs| == |tries| && Ends(qs, ID, tries, end)
  {
    hide *;
    ghost var all := Items(queues);
    var id := Next(ID, |queues|);
    while id != ID
      invariant 0 <= id <= |queues| && At(queues, qs, ID, tries, id) && Items(queues) <= all
      decreases |queues| - id
    {
      if id == |queues| {
        PastEnd(queues, qs, ID, tries);
        return PastTheArray;
      }
      var twice := Turn(queues, qs, ID, tries, id);
      if twice {
        return LinkedTwice;
      }
      id := id + 1;
    }
    end := Done;
  }

  /**
    The call comes to its end exactly for the last scheduler, and for any scheduler only if no
    attempt meets a lone main item; StealingConserves says what the queues and the answer then are.
   */
  method stealTaskRoutine(queues: seq<TaskItemsList>, ID: nat, tries: seq<Try>) returns (r: TaskItem?, end: Ending)
    requires ReadyQueues(queues) && ID < |queues| == |tries| && Small(Contents(queues))
    modifies queues, Items(queues)
    ensures var qs := old(Contents(queues));
            (end.Done? <==> Complete(qs, ID, tries)) && (end.PastTheArray? <==> Overruns(qs, ID, tries))
    ensures end.Done? ==> Answered(queues, old(Contents(queues)), ID, tries, r)
  {
    ghost var qs := Contents(queues);
    RoundStarts(qs, ID, tries);
    hide ReadyQueues, Round, Complete, Overruns, Contents, Items, Small, Answered, Next;
    assert At(queues, qs, ID, tries, Next(ID, |queues|));
    hide At;
    end := Rounds(queues, qs, ID, tries);
    r := null;
    if end.Done? {
      r := Finish(queues, qs, ID, tries);
    }
  }

  lemma PastEnd(queues: seq<TaskItemsList>, qs: seq<seq<TaskItem>>, ID: nat, tries: seq<Try>)
    requires At(queues, qs, ID, tries, |queues|)
    ensures ID < |qs| == |tries| && Ends(qs, ID, tries, PastTheArray)
  {
    hide ReadyQueues, Round, Complete, Overruns;
    RoundEnds(qs, ID, tries, |qs|, Contents(queues));
  }

  lemma OwnIn(queues: seq<TaskItemsList>, k: nat)
    requires k < |queues|
    ensures forall x :: x in queues[k].items ==> x in Items(queues)
  {
    assert queues[k] in queues;
  }
}
