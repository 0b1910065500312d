/**
 History of the simulation: six parallel lists (time, CO2 and NH3 of both zones,
 Zone 01 airflow). Every script run that reaches the simulation section appends
 one value to each list and then keeps only the most recent 200 entries.
 */
module History {

  const Capacity: nat := 200

  /** The most recent Capacity entries of a list (all of it when it is short enough). */
  function Window(xs: seq<real>): (w: seq<real>)
    ensures |w| <= Capacity
    ensures |w| == if |xs| <= Capacity then |xs| else Capacity
    ensures w == xs[|xs| - |w|..]
  {
    if |xs| <= Capacity then xs else xs[|xs| - Capacity..]
  }

  /** Append one value, then truncate to the last Capacity entries. */
  function Push(h: seq<real>, v: real): (r: seq<real>)
    ensures 1 <= |r| <= Capacity
    ensures |r| == if |h| < Capacity then |h| + 1 else Capacity
    ensures r[|r| - 1] == v
  {
    var appended := h + [v];
    if |appended| > Capacity then appended[|appended| - Capacity..] else appended
  }

  /** The entries Push keeps besides the new value are the most recent ones of h, in their original order. */
  lemma PushKeepsRecent(h: seq<real>, v: real)
    ensures var r := Push(h, v); r[..|r| - 1] == h[|h| - (|r| - 1)..]
  {
  }

  /** Push a sequence of values one after the other. */
  function PushAll(h: seq<real>, vs: seq<real>): seq<real>
    decreases |vs|
  {
    if vs == [] then h else Push(PushAll(h, vs[..|vs| - 1]), vs[|vs| - 1])
  }

  /** Truncating an over-long list before appending more loses nothing the final window keeps. */
  lemma WindowAbsorbs(xs: seq<real>, v: real)
    ensures Window(Window(xs) + [v]) == Window(xs + [v])
  {
    if |xs| > Capacity {
      assert Window(xs) + [v] == (xs + [v])[|xs| - Capacity..];
    }
  }

  /**
   Pushing any number of values leaves exactly the most recent Capacity entries
   of the whole stream, in their original order: the oldest are evicted first.
   */
  lemma {:induction false} PushAllKeepsLatest(h: seq<real>, vs: seq<real>)
    requires |h| <= Capacity
    ensures PushAll(h, vs) == Window(h + vs)
    decreases |vs|
  {
    if vs == [] {
      assert h + vs == h;
    } else {
      var init := vs[..|vs| - 1];
      var last := vs[|vs| - 1];
      PushAllKeepsLatest(h, init);
      assert Push(PushAll(h, init), last) == Window(PushAll(h, init) + [last]);
      WindowAbsorbs(h + init, last);
      assert (h + init) + [last] == h + vs;
    }
  }

  /** One sample of all six lists. */
  datatype Sample = Sample(t: real, co2Z1: real, nh3Z1: real, co2Z2: real, nh3Z2: real, flowZ1: real)

  /** The six history lists. */
  datatype Buffers = Buffers(t: seq<real>, co2Z1: seq<real>, nh3Z1: seq<real>,
                             co2Z2: seq<real>, nh3Z2: seq<real>, flowZ1: seq<real>)

  /** All six lists have the same length, between 1 and Capacity. */
  predicate Aligned(b: Buffers)
  {
    && 1 <= |b.t| <= Capacity
    && |b.co2Z1| == |b.t| && |b.nh3Z1| == |b.t| && |b.co2Z2| == |b.t|
    && |b.nh3Z2| == |b.t| && |b.flowZ1| == |b.t|
  }

  /** The newest sample of aligned lists. */
  function Latest(b: Buffers): Sample
    requires Aligned(b)
  {
    var n := |b.t| - 1;
    Sample(b.t[n], b.co2Z1[n], b.nh3Z1[n], b.co2Z2[n], b.nh3Z2[n], b.flowZ1[n])
  }

  /** Append one sample to every list. */
  function Record(b: Buffers, s: Sample): (r: Buffers)
    ensures Aligned(b) ==> Aligned(r) && Latest(r) == s
    ensures Aligned(b) ==> |r.t| == if |b.t| < Capacity then |b.t| + 1 else Capacity
  {
    Buffers(Push(b.t, s.t), Push(b.co2Z1, s.co2Z1), Push(b.nh3Z1, s.nh3Z1),
            Push(b.co2Z2, s.co2Z2), Push(b.nh3Z2, s.nh3Z2), Push(b.flowZ1, s.flowZ1))
  }

  /** Appending 250 values to a one-entry list keeps exactly the newest 200 of all 251, in order. */
  lemma EvictionExample(h: seq<real>, vs: seq<real>)
    requires |h| == 1 && |vs| == 250
    ensures |PushAll(h, vs)| == Capacity
    ensures PushAll(h, vs) == vs[50..]
  {
    PushAllKeepsLatest(h, vs);
    assert (h + vs)[51..] == vs[50..];
  }
}
