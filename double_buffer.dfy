/** The order of the driver's block loop: iteration `b` of `0 .. n`
    computes block `b` into host slot `b % 2` (when `b < n`) and then writes
    block `b - 1` from the other slot (when `b > 0`). */
module DoubleBuffer {

  /** A call the block loop makes: compute a block into a host slot, or
      write a block out of one. */
  datatype Event = Compute(block: nat, slot: nat) | Write(block: nat, slot: nat)

  /** The calls iteration `b` makes when there are `n` blocks. */
  function Iteration(n: nat, b: nat): seq<Event>
  {
    var iactive := b % 2;
    (if b < n then [Compute(b, iactive)] else [])
    + (if b > 0 then [Write(b - 1, 1 - iactive)] else [])
  }

  /** The calls of the first `m` iterations. */
  function Schedule(n: nat, m: nat): seq<Event>
  {
    if m == 0 then [] else Schedule(n, m - 1) + Iteration(n, m - 1)
  }

  /** The block loop runs `n + 1` iterations. */
  function FullSchedule(n: nat): seq<Event>
  {
    Schedule(n, n + 1)
  }

  /** Only the compute calls, in order. */
  function Computes(events: seq<Event>): seq<Event>
  {
    if |events| == 0 then []
    else Computes(events[..|events| - 1])
         + (if events[|events| - 1].Compute? then [events[|events| - 1]] else [])
  }

  /** Only the write calls, in order. */
  function Writes(events: seq<Event>): seq<Event>
  {
    if |events| == 0 then []
    else Writes(events[..|events| - 1])
         + (if events[|events| - 1].Write? then [events[|events| - 1]] else [])
  }

  /** Compute calls (or write calls) of blocks `0 .. k-1`, block `i` with
      slot `i % 2`. */
  function InOrder(k: nat, write: bool): (r: seq<Event>)
    ensures |r| == k
    ensures forall i :: 0 <= i < k ==> r[i] == if write then Write(i, i % 2) else Compute(i, i % 2)
  {
    if k == 0 then []
    else InOrder(k - 1, write) + [if write then Write(k - 1, (k - 1) % 2) else Compute(k - 1, (k - 1) % 2)]
  }

  lemma {:induction false} ComputesAppend(a: seq<Event>, b: seq<Event>)
    ensures Computes(a + b) == Computes(a) + Computes(b)
  {
    if |b| > 0 {
      ComputesAppend(a, b[..|b| - 1]);
      assert (a + b)[..|a + b| - 1] == a + b[..|b| - 1];
    } else {
      assert a + b == a;
    }
  }

  lemma {:induction false} WritesAppend(a: seq<Event>, b: seq<Event>)
    ensures Writes(a + b) == Writes(a) + Writes(b)
  {
    if |b| > 0 {
      WritesAppend(a, b[..|b| - 1]);
      assert (a + b)[..|a + b| - 1] == a + b[..|b| - 1];
    } else {
      assert a + b == a;
    }
  }

  /** Iteration `b` computes block `b` (when `b < n`) into slot `b % 2` and
      writes block `b - 1` (when `b > 0`) from slot `(b - 1) % 2`. */
  lemma IterationCalls(n: nat, b: nat)
    ensures Computes(Iteration(n, b)) == if b < n then [Compute(b, b % 2)] else []
    ensures Writes(Iteration(n, b)) == if b > 0 then [Write(b - 1, (b - 1) % 2)] else []
  {
    var c := if b < n then [Compute(b, b % 2)] else [];
    var w := if b > 0 then [Write(b - 1, 1 - b % 2)] else [];
    assert Iteration(n, b) == c + w;
    ComputesAppend(c, w);
    WritesAppend(c, w);
    if b < n {
      assert Computes(c) == c by { assert c[..0] == []; }
      assert Writes(c) == [] by { assert c[..0] == []; }
    }
    if b > 0 {
      assert Computes(w) == [] by { assert w[..0] == []; }
      assert Writes(w) == [Write(b - 1, (b - 1) % 2)] by { assert w[..0] == []; }
    }
  }

  /** After `m` iterations, blocks `0 .. min(m, n) - 1` have been computed,
      block `b` into slot `b % 2`, in order and once each. */
  lemma {:induction false} ScheduleComputes(n: nat, m: nat)
    requires m <= n + 1
    ensures Computes(Schedule(n, m)) == InOrder(if m <= n then m else n, false)
  {
    if m > 0 {
      ScheduleComputes(n, m - 1);
      ComputesAppend(Schedule(n, m - 1), Iteration(n, m - 1));
      IterationCalls(n, m - 1);
    }
  }

  /** After `m` iterations, blocks `0 .. m - 2` have been written, from the
      slot they were computed into, in order and once each. */
  lemma {:induction false} ScheduleWrites(n: nat, m: nat)
    requires m <= n + 1
    ensures Writes(Schedule(n, m)) == InOrder(if m == 0 then 0 else m - 1, true)
  {
    if m > 0 {
      ScheduleWrites(n, m - 1);
      WritesAppend(Schedule(n, m - 1), Iteration(n, m - 1));
      IterationCalls(n, m - 1);
    }
  }

  /** The whole loop computes each block `0 .. n-1` once, into slot
      `b % 2`, never computes block `n`, and writes every block once, in
      order, from the slot its compute filled. */
  lemma FullScheduleCalls(n: nat)
    ensures Computes(FullSchedule(n)) == InOrder(n, false)
    ensures Writes(FullSchedule(n)) == InOrder(n, true)
    ensures forall e :: e in FullSchedule(n) && e.Compute? ==> e.block < n
  {
    ScheduleComputes(n, n + 1);
    ScheduleWrites(n, n + 1);
    forall e | e in FullSchedule(n) && e.Compute?
      ensures e.block < n
    {
      ComputedIn(FullSchedule(n), e);
    }
  }

  /** Every compute call is in the list of compute calls. */
  lemma {:induction false} ComputedIn(events: seq<Event>, e: Event)
    requires e in events && e.Compute?
    ensures e in Computes(events)
  {
    var last := events[|events| - 1];
    if e != last {
      assert events == events[..|events| - 1] + [last];
      ComputedIn(events[..|events| - 1], e);
    }
  }

  /** The number of calls made by the first `m` iterations. */
  lemma {:induction false} ScheduleLength(n: nat, m: nat)
    requires 1 <= m <= n
    ensures |Schedule(n, m)| == 2 * m - 1
  {
    if m > 1 {
      ScheduleLength(n, m - 1);
    }
  }

  /** Position of every call: compute of block `b` is call `2b - 1` (call 0
      for block 0) and the write of block `b` is call `2b + 2`, right after
      the compute of block `b + 1`; the last block's write ends the loop. */
  lemma {:induction false} SchedulePositions(n: nat, m: nat)
    requires 1 <= m <= n
    ensures |Schedule(n, m)| == 2 * m - 1
    ensures Schedule(n, m)[0] == Compute(0, 0)
    ensures forall b :: 1 <= b < m ==>
      Schedule(n, m)[2 * b - 1] == Compute(b, b % 2) && Schedule(n, m)[2 * b] == Write(b - 1, (b - 1) % 2)
  {
    ScheduleLength(n, m);
    if m > 1 {
      SchedulePositions(n, m - 1);
      ScheduleLength(n, m - 1);
      assert Schedule(n, m) == Schedule(n, m - 1) + Iteration(n, m - 1);
    }
  }

  /** Between the compute of block `i` into its slot and the write of block
      `i` out of that slot, nothing computes into that slot: the block
      written is the block computed. */
  lemma NoOverwriteBeforeWrite(n: nat, i: nat)
    requires i < n
    ensures var s := FullSchedule(n);
      exists p, q :: 0 <= p < q < |s|
        && s[p] == Compute(i, i % 2) && s[q] == Write(i, i % 2)
        && forall r :: p < r < q ==> !(s[r].Compute? && s[r].slot == i % 2)
  {
    var s := FullSchedule(n);
    SchedulePositions(n, n);
    assert s == Schedule(n, n) + [Write(n - 1, (n - 1) % 2)];
    var p := if i == 0 then 0 else 2 * i - 1;
    var q := if i + 1 < n then 2 * (i + 1) else 2 * n - 1;
    if i > 0 {
      assert s[2 * i - 1] == Compute(i, i % 2);
    }
    assert s[q] == Write(i, i % 2);
    forall r | p < r < q
      ensures !(s[r].Compute? && s[r].slot == i % 2)
    {
      if r == 2 * i {
        assert s[2 * i] == Write(i - 1, (i - 1) % 2);
      } else {
        assert r == 2 * (i + 1) - 1;
      }
    }
    assert 0 <= p < q < |s| && s[p] == Compute(i, i % 2) && s[q] == Write(i, i % 2);
  }
}
