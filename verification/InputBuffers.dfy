/** The synchronization gate of `NNBuffer.h`: one slot of values per predecessor, with a mask of
    the filled ones. It opens when every expected predecessor has a filled slot, and the
    weighted sum then runs over the senders of the mask in ascending order, one weight for
    each value, whichever order the values arrived in. */
module InputBuffers {
  import opened Words
  import opened Arithmetic
  import opened Messages

  const MAX_PREDECESSORS: nat := 16

  /** The filled slots: sender id to the values last stored for it. */
  type Slots = map<nat, seq<Float>>

  function Store(slots: Slots, sender: nat, values: seq<Float>): Slots
  {
    if sender < MAX_PREDECESSORS && |values| <= MAX_PAYLOAD_FLOATS then slots[sender := values] else slots
  }

  predicate Complete(slots: Slots, expected: u16)
  {
    Bits(expected) <= slots.Keys
  }

  function Input(slots: Slots, sender: nat): seq<Float>
  {
    if sender in slots then slots[sender] else []
  }

  /** The values of the senders in `mask`, by ascending sender id. */
  function Gather(slots: Slots, mask: set<nat>, sender: nat): seq<Float>
    decreases MAX_PREDECESSORS - sender, mask
  {
    if sender >= MAX_PREDECESSORS then []
    else (if sender in mask then Input(slots, sender) else []) + Gather(slots, mask, sender + 1)
  }

  /** How many ids of `mask` lie in `from .. to-1`: the popcount of that stretch. */
  function CountBelow(mask: set<nat>, from: nat, to: nat): nat
    decreases to - from
  {
    if from >= to then 0 else (if from in mask then 1 else 0) + CountBelow(mask, from + 1, to)
  }

  lemma {:induction false} GatherLength(slots: Slots, mask: set<nat>, from: nat)
    requires from <= MAX_PREDECESSORS
    requires forall i | i in mask && from <= i < MAX_PREDECESSORS :: |Input(slots, i)| == 1
    ensures |Gather(slots, mask, from)| == CountBelow(mask, from, MAX_PREDECESSORS)
    decreases MAX_PREDECESSORS - from
  {
    if from < MAX_PREDECESSORS {
      GatherLength(slots, mask, from + 1);
    }
  }

  /** With one value per sender, sender `s` is paired with the weight whose index is the
      number of smaller ids in the mask -- for any mask, contiguous or not. */
  lemma {:induction false} GatherAt(slots: Slots, mask: set<nat>, from: nat, s: nat)
    requires from <= s < MAX_PREDECESSORS && s in mask
    requires forall i | i in mask && from <= i < MAX_PREDECESSORS :: |Input(slots, i)| == 1
    ensures CountBelow(mask, from, s) < |Gather(slots, mask, from)|
    ensures Gather(slots, mask, from)[CountBelow(mask, from, s)] == Input(slots, s)[0]
    decreases s - from
  {
    var head := if from in mask then Input(slots, from) else [];
    var tail := Gather(slots, mask, from + 1);
    assert Gather(slots, mask, from) == head + tail;
    if from < s {
      GatherAt(slots, mask, from + 1, s);
      assert |head| == if from in mask then 1 else 0;
      assert (head + tail)[|head| + CountBelow(mask, from + 1, s)] == tail[CountBelow(mask, from + 1, s)];
    }
  }

  /** A slot takes up to sixteen values of a sender below sixteen, in place of its earlier ones;
      anything else is refused. */
  lemma StoredExactly(slots: Slots, sender: nat, values: seq<Float>)
    ensures var after := Store(slots, sender, values);
            && (sender < 16 && |values| <= 16 ==> after == slots[sender := values])
            && (sender >= 16 || |values| > 16 ==> after == slots)
  {
  }

  /** How many values the senders `from .. to-1` of the mask have brought. */
  function ValuesBelow(slots: Slots, mask: set<nat>, from: nat, to: nat): nat
    decreases to - from
  {
    if from >= to then 0 else (if from in mask then |Input(slots, from)| else 0) + ValuesBelow(slots, mask, from + 1, to)
  }

  /** With any number of values per sender, value `j` of sender `s` comes after all values of the
      smaller senders of the mask, in the sender's own order. */
  lemma {:induction false} GatherValueAt(slots: Slots, mask: set<nat>, from: nat, s: nat, j: nat)
    requires from <= s < 16 && s in mask && j < |Input(slots, s)|
    ensures var at := ValuesBelow(slots, mask, from, s) + j;
            at < |Gather(slots, mask, from)| && Gather(slots, mask, from)[at] == Input(slots, s)[j]
    decreases s - from
  {
    if from < s {
      GatherValueAt(slots, mask, from + 1, s, j);
      var head, tail := if from in mask then Input(slots, from) else [], Gather(slots, mask, from + 1);
      assert Gather(slots, mask, from) == head + tail;
    }
  }

  lemma {:induction false} GatherAllValues(slots: Slots, mask: set<nat>, from: nat)
    requires from <= 16
    ensures |Gather(slots, mask, from)| == ValuesBelow(slots, mask, from, 16)
    decreases 16 - from
  {
    if from < 16 { GatherAllValues(slots, mask, from + 1); }
  }

  /** A full layer of one-value slots is gathered as the layer's value vector. */
  lemma {:induction false} GatherLayer(slots: Slots, layer: seq<Float>, from: nat)
    requires from <= |layer| <= MAX_PREDECESSORS
    requires forall i: nat | i < |layer| :: i in slots && slots[i] == [layer[i]]
    ensures Gather(slots, Range(|layer|), from) == layer[from..]
    decreases MAX_PREDECESSORS - from
  {
    if from < |layer| {
      GatherLayer(slots, layer, from + 1);
      assert [layer[from]] + layer[from + 1..] == layer[from..];
    } else {
      GatherBeyond(slots, |layer|, from);
    }
  }

  lemma {:induction false} GatherBeyond(slots: Slots, width: nat, from: nat)
    requires width <= from <= MAX_PREDECESSORS
    ensures Gather(slots, Range(width), from) == []
    decreases MAX_PREDECESSORS - from
  {
    if from < MAX_PREDECESSORS {
      GatherBeyond(slots, width, from + 1);
    }
  }

  lemma DotStep(a: Arith<Float>, acc: Float, row: seq<Float>, i: nat, rest: seq<Float>, weights: seq<Float>, w: nat)
    requires i < |row| && w < |weights|
    ensures Dot(a, acc, row[i..] + rest, weights[w..])
         == Dot(a, a.add(acc, a.mul(row[i], weights[w])), row[i + 1..] + rest, weights[w + 1..])
  {
    assert (row[i..] + rest)[1..] == row[i + 1..] + rest;
    assert weights[w..][1..] == weights[w + 1..];
  }

  lemma DotStop(a: Arith<Float>, acc: Float, row: seq<Float>, i: nat, rest: seq<Float>, weights: seq<Float>, w: nat)
    requires i <= |row| && w <= |weights| && (i == |row| || w == |weights|)
    ensures Dot(a, acc, row[i..] + rest, weights[w..]) == Dot(a, acc, rest, weights[w..])
  {
    if i == |row| {
      assert row[i..] + rest == rest;
    } else {
      assert weights[w..] == [];
    }
  }

  /** `NNInputBuffer`. */
  class InputBuffer {
    const values: array2<Float>
    const counts: array<nat>
    var receivedMask: u16

    ghost function Footprint(): set<object>
    {
      {this, values, counts}
    }

    ghost predicate Valid()
      reads this, values, counts
    {
      && values.Length0 == MAX_PREDECESSORS && values.Length1 == MAX_PAYLOAD_FLOATS
      && counts.Length == MAX_PREDECESSORS
      && (forall i | 0 <= i < MAX_PREDECESSORS :: counts[i] <= MAX_PAYLOAD_FLOATS)
      && (forall i | 0 <= i < MAX_PREDECESSORS && i !in Bits(receivedMask) :: counts[i] == 0)
    }

    ghost function Row(i: nat): (row: seq<Float>)
      requires Valid() && i < MAX_PREDECESSORS
      reads this, values, counts
    {
      seq(counts[i], j requires 0 <= j < counts[i] && Valid() reads this, values, counts => values[i, j])
    }

    ghost function State(): (slots: Slots)
      requires Valid()
      reads this, values, counts
    {
      map i | i in Bits(receivedMask) :: Row(i)
    }

    constructor ()
      ensures Valid() && State() == map[]
      ensures fresh(values) && fresh(counts)
    {
      values := new Float[MAX_PREDECESSORS, MAX_PAYLOAD_FLOATS]((i, j) => 0);
      counts := new nat[MAX_PREDECESSORS](i => 0);
      receivedMask := 0;
      new;
      BitsZero();
    }

    /** `srcValues[0 .. count-1]` is `source`; an oversized count is refused. */
    method StoreInput(sender: nat, source: seq<Float>) returns (stored: bool)
      requires Valid()
      modifies this, values, counts
      ensures Valid()
      ensures stored == (sender < MAX_PREDECESSORS && |source| <= MAX_PAYLOAD_FLOATS)
      ensures State() == Store(old(State()), sender, source)
    {
      if sender >= MAX_PREDECESSORS || |source| > MAX_PAYLOAD_FLOATS { return false; }
      ghost var before := State();
      for i := 0 to |source|
        modifies values
        invariant forall j | 0 <= j < i :: values[sender, j] == source[j]
        invariant forall k, j | 0 <= k < MAX_PREDECESSORS && 0 <= j < MAX_PAYLOAD_FLOATS && k != sender ::
                    values[k, j] == old(values[k, j])
      {
        values[sender, i] := source[i];
      }
      counts[sender] := |source|;
      BitsOr(receivedMask, sender);
      receivedMask := Or(receivedMask, Pow2(sender));
      assert Row(sender) == source;
      forall k | k in Bits(receivedMask) && k != sender
        ensures Row(k) == before[k]
      {
      }
      stored := true;
    }

    method IsComplete(expected: u16) returns (complete: bool)
      requires Valid()
      ensures complete == Complete(State(), expected)
    {
      BitsCovers(receivedMask, expected);
      complete := And(receivedMask, expected) == expected;
    }

    /** The count half of `getInput`. */
    function Count(sender: nat): (count: nat)
      requires Valid() && sender < MAX_PREDECESSORS
      reads this, values, counts
      ensures count == |Input(State(), sender)|
    {
      counts[sender]
    }

    /** The value half of `getInput`. */
    function Value(sender: nat, i: nat): (value: Float)
      requires Valid() && sender < MAX_PREDECESSORS && i < Count(sender)
      reads this, values, counts
      ensures value == Input(State(), sender)[i]
    {
      values[sender, i]
    }

    /** The inner loop over one sender's values; `rest` stands for what later senders add. */
    method AddInput(arith: Arith<Float>, sender: nat, start: Float, weights: seq<Float>, first: nat, ghost rest: seq<Float>)
      returns (sum: Float, weightIndex: nat)
      requires Valid() && sender < MAX_PREDECESSORS && first <= |weights|
      ensures weightIndex <= |weights|
      ensures Dot(arith, start, Input(State(), sender) + rest, weights[first..])
           == Dot(arith, sum, rest, weights[weightIndex..])
    {
      sum, weightIndex := start, first;
      ghost var row := Input(State(), sender);
      var count := Count(sender);
      var i := 0;
      assert row[0..] == row;
      while i < count && weightIndex < |weights|
        invariant i <= count && weightIndex <= |weights|
        invariant Dot(arith, start, row + rest, weights[first..])
               == Dot(arith, sum, row[i..] + rest, weights[weightIndex..])
      {
        DotStep(arith, sum, row, i, rest, weights, weightIndex);
        sum := arith.add(sum, arith.mul(Value(sender, i), weights[weightIndex]));
        i, weightIndex := i + 1, weightIndex + 1;
      }
      DotStop(arith, sum, row, i, rest, weights, weightIndex);
    }

    /** The accumulation loop of `NNNode::execute`, which
        `NNBackupStandby::computeSubstituteOutput` repeats on its own buffer. */
    method WeightedSum(arith: Arith<Float>, mask: u16, bias: Float, weights: seq<Float>) returns (sum: Float)
      requires Valid()
      ensures sum == Dot(arith, bias, Gather(State(), Bits(mask), 0), weights)
    {
      ghost var slots, ids := State(), Bits(mask);
      ghost var goal := Dot(arith, bias, Gather(slots, ids, 0), weights);
      sum := bias;
      var weightIndex: nat := 0;
      for sender := 0 to MAX_PREDECESSORS
        invariant weightIndex <= |weights|
        invariant goal == Dot(arith, sum, Gather(slots, ids, sender), weights[weightIndex..])
      {
        BitsTest(mask, sender);
        if And(mask, Pow2(sender)) != 0 {
          sum, weightIndex := AddInput(arith, sender, sum, weights, weightIndex, Gather(slots, ids, sender + 1));
        } else {
          assert [] + Gather(slots, ids, sender + 1) == Gather(slots, ids, sender + 1);
        }
      }
    }

    method Reset()
      requires Valid()
      modifies this, counts
      ensures Valid() && State() == map[]
    {
      receivedMask := 0;
      for i := 0 to MAX_PREDECESSORS
        modifies counts
        invariant forall j | 0 <= j < i :: counts[j] == 0
        invariant forall j | 0 <= j < MAX_PREDECESSORS :: counts[j] <= MAX_PAYLOAD_FLOATS
      {
        counts[i] := 0;
      }
      BitsZero();
    }
  }
}
