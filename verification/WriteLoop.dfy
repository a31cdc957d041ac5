/** The loops of the hooked `write` and `send`, against a kernel that takes as much as it likes. */
module WriteLoop {
  type Byte = bv8

  /**
    What each call of the original function returns: the number of bytes it takes, 0, or a number
    below 0 for an error. It depends on the call and on how much the call is offered.
   */
  type Kernel = (nat, nat) -> int

  ghost predicate TakesWhatIsOffered(kernel: Kernel) {
    forall call, offered :: kernel(call, offered) <= offered
  }

  /** Every call that is offered something takes something. */
  ghost predicate Willing(kernel: Kernel) {
    forall call: nat, offered: nat :: offered > 0 ==> kernel(call, offered) > 0
  }

  /** How many of n bytes the kernel has taken after some calls, each offered the rest. */
  function Taken(kernel: Kernel, n: nat, calls: nat): (t: nat)
    ensures t <= n
  {
    if calls == 0 then 0
    else
      var before := Taken(kernel, n, calls - 1);
      var ret := kernel(calls - 1, n - before);
      if 0 < ret <= n - before then before + ret else before
  }

  /** What call number k returned. */
  function Returned(kernel: Kernel, n: nat, k: nat): int {
    kernel(k, n - Taken(kernel, n, k))
  }

  lemma OneCall(kernel: Kernel, n: nat, calls: nat)
    requires TakesWhatIsOffered(kernel)
    ensures var t, ret := Taken(kernel, n, calls), kernel(calls, n - Taken(kernel, n, calls));
            && Returned(kernel, n, calls) == ret <= n - t
            && Taken(kernel, n, calls + 1) == if ret > 0 then t + ret else t
    ensures Taken(kernel, n, 0) == 0
  {
  }

  /** A willing kernel takes something at a call before which bytes were left. */
  lemma WillingCall(kernel: Kernel, n: nat, call: nat)
    ensures Willing(kernel) && Taken(kernel, n, call) < n ==> Returned(kernel, n, call) > 0
  {
  }

  /** Every call after the first that is offered something takes something. */
  ghost predicate WillingLater(kernel: Kernel) {
    forall call: nat, offered: nat :: call > 0 && offered > 0 ==> kernel(call, offered) > 0
  }

  /**
    After so many calls the loop is over: everything is taken, or the first call returned 0, or a
    call after the first took nothing. An error of the first call is no reason to stop.
   */
  predicate Over(kernel: Kernel, n: nat, calls: nat)
    requires calls > 0
  {
    || Taken(kernel, n, calls) == n
    || Returned(kernel, n, 0) == 0
    || (calls > 1 && Returned(kernel, n, calls - 1) <= 0)
  }

  /** A kernel that is willing after the first call takes something at every later call before which bytes were left. */
  lemma LaterCall(kernel: Kernel, n: nat, call: nat)
    ensures WillingLater(kernel) && call > 0 && Taken(kernel, n, call) < n ==> Returned(kernel, n, call) > 0
  {
  }

  lemma OverIs(kernel: Kernel, n: nat, calls: nat)
    requires calls > 0
    ensures Over(kernel, n, calls) <==>
              Taken(kernel, n, calls) == n || Returned(kernel, n, 0) == 0 || (calls > 1 && Returned(kernel, n, calls - 1) <= 0)
  {
  }

  lemma PrefixGrows(buf: seq<Byte>, w: nat, r: nat)
    requires w + r <= |buf|
    ensures buf[..w] + buf[w..w + r] == buf[..w + r]
  {
  }

  /**
    The first call, then poll and call again until the buffer is through or a further call takes
    nothing; received collects the bytes in the order in which the kernel takes them. The kernel
    receives exactly the prefix of the buffer whose length is returned; the error is returned only
    if the prefix is empty. The calls stop as soon as they are over and no sooner, so an error of
    the first call leads to poll and to a second call; each further call has its poll, and there is
    at most one call more than there are bytes. The kernel gets the whole of a buffer if and only
    if the last call took something, so a kernel that is willing, or willing after an error of its
    first call, always gets it.
   */
  method Write(buf: seq<Byte>, kernel: Kernel) returns (result: int, received: seq<Byte>, calls: nat, polls: nat)
    requires TakesWhatIsOffered(kernel)
    ensures 1 <= calls <= |buf| + 1 && polls == calls - 1
    ensures |received| == Taken(kernel, |buf|, calls) && received == buf[..|received|]
    ensures received != [] ==> result == |received|
    ensures received == [] ==> result == Returned(kernel, |buf|, calls - 1) <= 0
    ensures received == buf <==> buf == [] || Returned(kernel, |buf|, calls - 1) > 0
    ensures Over(kernel, |buf|, calls) && forall n :: 1 <= n < calls ==> !Over(kernel, |buf|, n)
    ensures buf != [] && kernel(0, |buf|) < 0 ==> calls >= 2
    ensures Willing(kernel) ==> received == buf
    ensures WillingLater(kernel) && kernel(0, |buf|) != 0 ==> received == buf
  {
    hide *;
    var wrotelen := 0;
    received := [];
    OneCall(kernel, |buf|, 0);
    WillingCall(kernel, |buf|, 0);
    var writeret := kernel(0, |buf| - wrotelen);
    calls, polls := 1, 0;
    OverIs(kernel, |buf|, 1);
    if writeret == 0 {
      return writeret, received, calls, polls;
    }
    if writeret > 0 {
      PrefixGrows(buf, wrotelen, writeret);
      received := received + buf[wrotelen..wrotelen + writeret];
      wrotelen := wrotelen + writeret;
    }
    while wrotelen < |buf|
      invariant 0 <= wrotelen <= |buf| && wrotelen == Taken(kernel, |buf|, calls)
      invariant received == buf[..wrotelen]
      invariant 1 <= calls <= wrotelen + 1 && polls == calls - 1
      invariant writeret == Returned(kernel, |buf|, calls - 1) != 0
      invariant Returned(kernel, |buf|, 0) == kernel(0, |buf|) != 0
      invariant calls > 1 ==> writeret > 0 && Taken(kernel, |buf|, calls - 1) < |buf|
      invariant wrotelen == 0 ==> writeret < 0
      invariant Over(kernel, |buf|, calls) <==> wrotelen == |buf|
      invariant forall n :: 1 <= n < calls ==> !Over(kernel, |buf|, n)
      decreases |buf| - wrotelen
    {
      polls := polls + 1;
      OneCall(kernel, |buf|, calls);
      OverIs(kernel, |buf|, calls + 1);
      LaterCall(kernel, |buf|, calls);
      writeret := kernel(calls, |buf| - wrotelen);
      calls := calls + 1;
      if writeret <= 0 {
        break;
      }
      PrefixGrows(buf, wrotelen, writeret);
      received := received + buf[wrotelen..wrotelen + writeret];
      wrotelen := wrotelen + writeret;
    }
    WillingCall(kernel, |buf|, calls - 1);
    LaterCall(kernel, |buf|, calls - 1);
    if writeret <= 0 && wrotelen == 0 {
      return writeret, received, calls, polls;
    }
    return wrotelen, received, calls, polls;
  }
}
