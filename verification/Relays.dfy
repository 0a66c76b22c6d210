/** The calibration sweep: relay words and combination totals come from two
    separate loops that must describe the same combinations. */
module Relays {

  // ------------------------------------------------------------------------ bits

  function Pow2(k: nat): (r: nat)
    ensures r > 0
  {
    if k == 0 then 1 else 2 * Pow2(k - 1)
  }

  /** Bit k of a combination. */
  function Bit(combo: nat, k: nat): (b: nat)
    ensures b < 2
  {
    if k == 0 then combo % 2 else Bit(combo / 2, k - 1)
  }

  /** Adding 2^k to a smaller number sets bit k and no other. */
  lemma {:induction false} BitsOfSum(k: nat, mask: nat, b: nat)
    requires mask < Pow2(k)
    ensures Bit(Pow2(k) + mask, b) == if b < k then Bit(mask, b) else if b == k then 1 else 0
  {
    if k == 0 {
      if b > 0 { NoBits(b - 1); }
    } else if b > 0 {
      assert (Pow2(k) + mask) / 2 == Pow2(k - 1) + mask / 2;
      BitsOfSum(k - 1, mask / 2, b - 1);
    }
  }

  lemma {:induction false} NoBits(b: nat)
    ensures Bit(0, b) == 0
  {
    if b > 0 { NoBits(b - 1); }
  }

  /** The sum of the values whose bit is set. */
  function SumOn(values: seq<real>, combo: nat, n: nat): real
    requires n <= |values|
  {
    if n == 0 then 0.0
    else SumOn(values, combo, n - 1) + if Bit(combo, n - 1) == 1 then values[n - 1] else 0.0
  }

  lemma {:induction false} SumOfSum(values: seq<real>, k: nat, mask: nat, n: nat)
    requires k < |values| && n <= |values| && mask < Pow2(k)
    ensures SumOn(values, Pow2(k) + mask, n)
            == if n <= k then SumOn(values, mask, n) else SumOn(values, mask, k) + values[k]
  {
    if n > 0 {
      SumOfSum(values, k, mask, n - 1);
      BitsOfSum(k, mask, n - 1);
    }
  }

  lemma {:induction false} SumOfNone(values: seq<real>, n: nat)
    requires n <= |values|
    ensures SumOn(values, 0, n) == 0.0
  {
    if n > 0 {
      SumOfNone(values, n - 1);
      NoBits(n - 1);
    }
  }

  // ------------------------------------------------------------ ascending totals

  function SumFirst(values: seq<real>, k: nat): real
    requires k <= |values|
  {
    if k == 0 then 0.0 else SumFirst(values, k - 1) + values[k - 1]
  }

  lemma {:induction false} SumFirstTail(values: seq<real>, k: nat)
    requires k < |values|
    ensures SumFirst(values, k + 1) == values[0] + SumFirst(values[1..], k)
  {
    if k > 0 { SumFirstTail(values, k - 1); }
  }

  /** A sum taken from its lowest bit. */
  lemma {:induction false} SumFromLowest(values: seq<real>, combo: nat, n: nat)
    requires 0 < n <= |values|
    ensures SumOn(values, combo, n) == (if combo % 2 == 1 then values[0] else 0.0) + SumOn(values[1..], combo / 2, n - 1)
  {
    if n > 1 { SumFromLowest(values, combo, n - 1); }
  }

  /** From one combination to the next a run of low members gives way to one. */
  lemma {:induction false} NextCombination(values: seq<real>, p: nat, n: nat) returns (z: nat)
    requires n <= |values| && p + 1 < Pow2(n)
    ensures z < n && Pow2(z) <= p + 1
    ensures SumOn(values, p + 1, n) - SumOn(values, p, n) == values[z] - SumFirst(values, z)
  {
    SumFromLowest(values, p, n);
    SumFromLowest(values, p + 1, n);
    if p % 2 == 0 {
      z := 0;
    } else {
      assert (p + 1) / 2 == p / 2 + 1;
      var y := NextCombination(values[1..], p / 2, n - 1);
      SumFirstTail(values, y);
      z := y + 1;
    }
  }

  lemma {:induction false} AllBelow(values: seq<real>, k: nat, n: nat)
    requires k <= n <= |values|
    ensures SumOn(values, Pow2(k) - 1, n) == SumFirst(values, k)
    decreases k
  {
    if k == 0 {
      SumOfNone(values, n);
    } else {
      SumOfSum(values, k - 1, Pow2(k - 1) - 1, n);
      assert Pow2(k) - 1 == Pow2(k - 1) + (Pow2(k - 1) - 1);
      AllBelow(values, k - 1, k - 1);
    }
  }

  /** Every value whose own row is among the first rows exceeds the sum of the
      values before it. */
  ghost predicate Dominates(values: seq<real>, rows: nat) {
    forall k :: 0 <= k < |values| && Pow2(k) < rows ==> values[k] > SumFirst(values, k)
  }

  lemma {:induction false} Ascends(values: seq<real>, rows: nat, p: nat, q: nat)
    requires Dominates(values, rows) && p < q < rows <= Pow2(|values|)
    ensures SumOn(values, p, |values|) < SumOn(values, q, |values|)
    decreases q
  {
    var z := NextCombination(values, q - 1, |values|);
    if p < q - 1 { Ascends(values, rows, p, q - 1); }
  }

  /** The totals of the first rows ascend strictly if and only if each value swept
      exceeds the sum of those before it. */
  lemma TotalsAscendExactly(values: seq<real>, total: seq<real>)
    requires |total| <= Pow2(|values|)
    requires forall p :: 0 <= p < |total| ==> total[p] == SumOn(values, p, |values|)
    ensures (forall p, q :: 0 <= p < q < |total| ==> total[p] < total[q]) <==> Dominates(values, |total|)
  {
    var n := |values|;
    if Dominates(values, |total|) {
      forall p, q | 0 <= p < q < |total|
        ensures total[p] < total[q]
      {
        Ascends(values, |total|, p, q);
      }
    } else {
      var k :| 0 <= k < n && Pow2(k) < |total| && !(values[k] > SumFirst(values, k));
      AllBelow(values, k, n);
      SumOfSum(values, k, 0, n);
      SumOfNone(values, k);
      assert !(total[Pow2(k) - 1] < total[Pow2(k)]);
    }
  }

  // ----------------------------------------------------------------- relay words

  const ON := 2
  const OFF := 1

  /** A relay word as its two-bit fields, lowest first: m resistors, m capacitors
      and two fields that are always ON. */
  predicate IsWord(w: seq<int>, m: nat) {
    |w| == 2 * m + 2 && forall i :: 0 <= i < |w| ==> 0 <= w[i] < 4
  }

  /** Bitwise or of two fields. */
  function Or(u: int, v: int): int {
    (if u >= 2 || v >= 2 then 2 else 0) + (if u % 2 == 1 || v % 2 == 1 then 1 else 0)
  }

  function Numeric(w: seq<int>): int {
    if w == [] then 0 else w[0] + 4 * Numeric(w[1..])
  }

  /** The fields are recovered from the number. */
  lemma {:induction false} NumericIsInjective(v: seq<int>, w: seq<int>)
    requires |v| == |w| && Numeric(v) == Numeric(w)
    requires forall i :: 0 <= i < |v| ==> 0 <= v[i] < 4 && 0 <= w[i] < 4
    ensures v == w
  {
    if v != [] {
      assert v[0] == Numeric(v) % 4 == w[0];
      NumericIsInjective(v[1..], w[1..]);
      assert v == [v[0]] + v[1..] && w == [w[0]] + w[1..];
    }
  }

  /** Resistors ON, capacitors OFF. */
  function BaseWord(m: nat): (w: seq<int>)
    ensures IsWord(w, m)
  {
    seq(2 * m + 2, i => if i < m || i >= 2 * m then ON else OFF)
  }

  lemma HighHalf()
    ensures Numeric([1, 1, 1, 1, 1, 1, 2, 2]) == 0xA555
  {
    Nibble(2, 2, []);
    assert [2, 2] + [] == [2, 2];
    Nibble(1, 1, [2, 2]);
    Nibble(1, 1, [1, 1, 2, 2]);
    Nibble(1, 1, [1, 1, 1, 1, 2, 2]);
  }

  lemma LowHalf(w: seq<int>)
    ensures Numeric([2, 2, 2, 2, 2, 2, 2, 1] + w) == 0x6AAA + 0x10000 * Numeric(w)
  {
    Nibble(2, 1, w);
    Nibble(2, 2, [2, 1] + w);
    Nibble(2, 2, [2, 2, 2, 1] + w);
    Nibble(2, 2, [2, 2, 2, 2, 2, 1] + w);
    assert [2, 2] + ([2, 1] + w) == [2, 2, 2, 1] + w;
    assert [2, 2] + ([2, 2, 2, 1] + w) == [2, 2, 2, 2, 2, 1] + w;
    assert [2, 2] + ([2, 2, 2, 2, 2, 1] + w) == [2, 2, 2, 2, 2, 2, 2, 1] + w;
  }

  /** For seven relays of each kind this is the constant the engine starts from. */
  lemma BaseWordIsTheConstant()
    ensures Numeric(BaseWord(7)) == 0xA5556AAA
  {
    HighHalf();
    LowHalf([1, 1, 1, 1, 1, 1, 2, 2]);
    assert BaseWord(7) == [2, 2, 2, 2, 2, 2, 2, 1] + [1, 1, 1, 1, 1, 1, 2, 2];
  }

  lemma Nibble(u: int, v: int, w: seq<int>)
    ensures Numeric([u, v] + w) == u + 4 * v + 16 * Numeric(w)
  {
    assert ([u, v] + w)[1..] == [v] + w;
    assert ([v] + w)[1..] == w;
  }

  /** Fields `first` to `first + m` show the combination. */
  ghost predicate Shows(w: seq<int>, m: nat, first: nat, combo: nat)
    requires |w| == 2 * m + 2 && first + m <= |w|
  {
    forall i :: first <= i < first + m ==> w[i] == if Bit(combo, i - first) == 1 then ON else OFF
  }

  /** The fields of the other kind, and the two forced ones, are at rest. */
  ghost predicate RestAre(w: seq<int>, m: nat, first: nat, rest: int)
    requires |w| == 2 * m + 2 && first <= m
  {
    && (forall i :: m - first <= i < 2 * m - first ==> w[i] == rest)
    && w[2 * m] == ON && w[2 * m + 1] == ON
  }

  method ResistorWord(m: nat, combo: nat) returns (w: seq<int>)
    ensures IsWord(w, m) && Shows(w, m, 0, combo) && RestAre(w, m, 0, OFF)
  {
    w := seq(2 * m + 2, i => 0);
    for relay := 0 to m
      invariant IsWord(w, m)
      invariant forall k :: 0 <= k < relay ==> w[k] == if Bit(combo, k) == 1 then ON else OFF
      invariant forall k :: relay <= k < |w| ==> w[k] == 0
    {
      w := w[relay := Or(w[relay], if Bit(combo, relay) == 1 then ON else OFF)];
    }
    for relay := m to 2 * m
      invariant IsWord(w, m)
      invariant forall k :: 0 <= k < m ==> w[k] == if Bit(combo, k) == 1 then ON else OFF
      invariant forall k :: m <= k < relay ==> w[k] == OFF
      invariant forall k :: relay <= k < |w| ==> w[k] == 0
    {
      w := w[relay := Or(w[relay], OFF)];
    }
    w := w[2 * m := Or(0, ON)][2 * m + 1 := Or(0, ON)];
  }

  method CapacitorWord(m: nat, combo: nat) returns (w: seq<int>)
    ensures IsWord(w, m) && Shows(w, m, m, combo) && RestAre(w, m, m, ON)
  {
    w := BaseWord(m);
    for relay := m to 2 * m
      invariant IsWord(w, m)
      invariant forall k :: m <= k < relay ==> w[k] == 0
      invariant forall k :: (0 <= k < m || 2 * m <= k < |w|) ==> w[k] == ON
    {
      w := w[relay := 0];
    }
    for relay := m to 2 * m
      invariant IsWord(w, m)
      invariant forall k :: m <= k < relay ==> w[k] == if Bit(combo, k - m) == 1 then ON else OFF
      invariant forall k :: relay <= k < 2 * m ==> w[k] == 0
      invariant forall k :: (0 <= k < m || 2 * m <= k < |w|) ==> w[k] == ON
    {
      w := w[relay := Or(w[relay], if Bit(combo, relay - m) == 1 then ON else OFF)];
    }
  }

  // ---------------------------------------------------------- combination totals

  /** Walks the combinations by their highest member k and the mask of the lower
      ones: entry i ends up with the total of combination i + 1. */
  method CombinationTotals(values: seq<real>) returns (total: array<real>)
    ensures fresh(total) && total.Length == Pow2(|values|)
    ensures forall i :: 0 <= i < Pow2(|values|) - 1 ==> total[i] == SumOn(values, i + 1, |values|)
  {
    var n := |values|;
    total := new real[Pow2(n)];
    var index := 0;
    for k := 0 to n
      invariant index == Pow2(k) - 1
      invariant Pow2(k) <= Pow2(n)
      invariant forall i :: 0 <= i < index ==> total[i] == SumOn(values, i + 1, n)
    {
      Pow2Grows(k + 1, n);
      SumOfSum(values, k, 0, n);
      SumOfNone(values, k);
      total[index] := values[k];
      index := index + 1;
      for mask := 1 to Pow2(k)
        invariant index == Pow2(k) - 1 + mask
        invariant forall i :: 0 <= i < index ==> total[i] == SumOn(values, i + 1, n)
      {
        var sum := values[k];
        for bit := 0 to k
          invariant sum == values[k] + SumOn(values, mask, bit)
        {
          if Bit(mask, bit) == 1 { sum := sum + values[bit]; }
        }
        SumOfSum(values, k, mask, n);
        total[index] := sum;
        index := index + 1;
      }
    }
  }

  lemma {:induction false} Pow2Grows(i: nat, j: nat)
    requires i <= j
    ensures Pow2(i) <= Pow2(j)
    decreases j
  {
    if i < j { Pow2Grows(i, j - 1); }
  }

  // -------------------------------------------------------------------- the sweep

  /** The sum of the values whose relay field is ON. */
  function SumOfFields(values: seq<real>, w: seq<int>, first: nat, n: nat): real
    requires n <= |values| && first + n <= |w|
  {
    if n == 0 then 0.0
    else SumOfFields(values, w, first, n - 1) + if w[first + n - 1] == ON then values[n - 1] else 0.0
  }

  lemma {:induction false} FieldsAreBits(values: seq<real>, w: seq<int>, m: nat, first: nat, combo: nat, n: nat)
    requires n <= m == |values| && |w| == 2 * m + 2 && first <= m && Shows(w, m, first, combo)
    ensures SumOfFields(values, w, first, n) == SumOn(values, combo, n)
  {
    if n > 0 { FieldsAreBits(values, w, m, first, combo, n - 1); }
  }

  /** One row of the table: what was put on the relays and what it adds up to. */
  ghost predicate RowMatches(values: seq<real>, w: seq<int>, first: nat, rest: int, total: real) {
    && IsWord(w, |values|) && first <= |values|
    && (forall i :: 0 <= i < |w| ==> w[i] == ON || w[i] == OFF)
    && RestAre(w, |values|, first, rest)
    && total == SumOfFields(values, w, first, |values|)
  }

  lemma ShownRowMatches(values: seq<real>, w: seq<int>, first: nat, rest: int, combo: nat)
    requires IsWord(w, |values|) && (first == 0 || first == |values|) && rest in {ON, OFF}
    requires Shows(w, |values|, first, combo) && RestAre(w, |values|, first, rest)
    ensures RowMatches(values, w, first, rest, SumOn(values, combo, |values|))
  {
    var m := |values|;
    FieldsAreBits(values, w, m, first, combo, m);
  }

  /** What the converter gives for a relay word. */
  datatype Reading = Reading(magnitude: real, phase: real, phase2: real)

  ghost predicate RowRead(w: seq<int>, reading: seq<int> -> Reading, magnitude: real, phase: real, phase2: real) {
    reading(w) == Reading(magnitude, phase, phase2)
  }

  /** Puts the words on the relays one by one: row p takes the total of
      combination p, which the totals keep one place earlier. */
  method MeasureRows(values: seq<real>, words: array<seq<int>>, totals: array<real>, first: nat, rest: int, rows: nat,
                     reading: seq<int> -> Reading)
      returns (total: array<real>, magnitude: array<real>, phase: array<real>, phase2: array<real>)
    requires rows <= words.Length && rows <= Pow2(|values|) == totals.Length
    requires (first == 0 || first == |values|) && rest in {ON, OFF}
    requires forall c :: 0 <= c < rows ==> Prepared(values, words[c], first, rest, c)
    requires forall i :: 0 <= i < Pow2(|values|) - 1 ==> totals[i] == SumOn(values, i + 1, |values|)
    ensures total.Length == magnitude.Length == phase.Length == phase2.Length == rows
    ensures fresh(total) && fresh(magnitude) && fresh(phase) && fresh(phase2)
    ensures total !in {magnitude, phase, phase2} && magnitude !in {phase, phase2} && phase != phase2
    ensures forall p :: 0 <= p < rows ==> total[p] == SumOn(values, p, |values|)
    ensures forall p :: 0 <= p < rows ==> RowMatches(values, words[p], first, rest, total[p])
    ensures forall p :: 0 <= p < rows ==> RowRead(words[p], reading, magnitude[p], phase[p], phase2[p])
  {
    total, magnitude, phase, phase2 := new real[rows], new real[rows], new real[rows], new real[rows];
    SumOfNone(values, |values|);
    for p := 0 to rows
      modifies total, magnitude, phase, phase2
      invariant forall q :: 0 <= q < p ==> total[q] == SumOn(values, q, |values|)
      invariant forall q :: 0 <= q < p ==> RowMatches(values, words[q], first, rest, total[q])
      invariant forall q :: 0 <= q < p ==> RowRead(words[q], reading, magnitude[q], phase[q], phase2[q])
    {
      total[p] := if p == 0 then 0.0 else totals[p - 1];
      var r := reading(words[p]);
      magnitude[p], phase[p], phase2[p] := r.magnitude, r.phase, r.phase2;
      assert Prepared(values, words[p], first, rest, p);
      ShownRowMatches(values, words[p], first, rest, p);
    }
  }

  ghost predicate Prepared(values: seq<real>, w: seq<int>, first: nat, rest: int, combo: nat) {
    IsWord(w, |values|) && first <= |values| && Shows(w, |values|, first, combo) && RestAre(w, |values|, first, rest)
  }

  /** The resistance sweep: what the relays carry, the totals and the readings. */
  method SweepResistors(values: seq<real>, rows: nat, reading: seq<int> -> Reading)
      returns (words: array<seq<int>>, total: array<real>, magnitude: array<real>, phase: array<real>, phase2: array<real>)
    requires rows < Pow2(|values|)
    ensures words.Length == Pow2(|values|) - 1
    ensures total.Length == magnitude.Length == phase.Length == phase2.Length == rows <= words.Length
    ensures forall p :: 0 <= p < words.Length ==> IsWord(words[p], |values|) && Shows(words[p], |values|, 0, p)
    ensures forall p :: 0 <= p < rows ==> total[p] == SumOn(values, p, |values|)
    ensures forall p :: 0 <= p < rows ==> RowMatches(values, words[p], 0, OFF, total[p])
    ensures (forall p, q :: 0 <= p < q < rows ==> total[p] < total[q]) <==> Dominates(values, rows)
    ensures forall p :: 0 <= p < rows ==> RowRead(words[p], reading, magnitude[p], phase[p], phase2[p])
  {
    words := new seq<int>[Pow2(|values|) - 1];
    for combo := 0 to words.Length
      invariant forall c :: 0 <= c < combo ==> Prepared(values, words[c], 0, OFF, c)
    {
      words[combo] := ResistorWord(|values|, combo);
    }
    var totals := CombinationTotals(values);
    total, magnitude, phase, phase2 := MeasureRows(values, words, totals, 0, OFF, rows, reading);
    TotalsAscendExactly(values, total[..]);
  }

  method SweepCapacitors(values: seq<real>, reading: seq<int> -> Reading)
      returns (words: array<seq<int>>, total: array<real>, magnitude: array<real>, phase: array<real>, phase2: array<real>)
    ensures words.Length == total.Length == magnitude.Length == phase.Length == phase2.Length == Pow2(|values|)
    ensures fresh(total) && fresh(magnitude) && fresh(phase) && fresh(phase2)
    ensures total !in {magnitude, phase, phase2} && magnitude !in {phase, phase2} && phase != phase2
    ensures forall p :: 0 <= p < words.Length ==> IsWord(words[p], |values|) && Shows(words[p], |values|, |values|, p)
    ensures forall p :: 0 <= p < words.Length ==> total[p] == SumOn(values, p, |values|)
    ensures forall p :: 0 <= p < words.Length ==> RowMatches(values, words[p], |values|, ON, total[p])
    ensures forall p :: 0 <= p < words.Length ==> RowRead(words[p], reading, magnitude[p], phase[p], phase2[p])
  {
    words := new seq<int>[Pow2(|values|)];
    for combo := 0 to words.Length
      invariant forall c :: 0 <= c < combo ==> Prepared(values, words[c], |values|, ON, c)
    {
      words[combo] := CapacitorWord(|values|, combo);
    }
    var totals := CombinationTotals(values);
    total, magnitude, phase, phase2 := MeasureRows(values, words, totals, |values|, ON, words.Length, reading);
  }

  // --------------------------------------------------------------------- the sort

  datatype Row = Row(total: real, reading: Reading)

  function RowAt(total: seq<real>, magnitude: seq<real>, phase: seq<real>, phase2: seq<real>, i: nat): Row
    requires i < |total| == |magnitude| == |phase| == |phase2|
  {
    Row(total[i], Reading(magnitude[i], phase[i], phase2[i]))
  }

  /** Four parallel arrays, read as one table. */
  function RowsOf(total: seq<real>, magnitude: seq<real>, phase: seq<real>, phase2: seq<real>): (rows: seq<Row>)
    requires |total| == |magnitude| == |phase| == |phase2|
    ensures |rows| == |total|
    ensures forall i :: 0 <= i < |rows| ==> rows[i] == RowAt(total, magnitude, phase, phase2, i)
  {
    seq(|total|, i requires 0 <= i < |total| => RowAt(total, magnitude, phase, phase2, i))
  }

  lemma SwapKeepsRows(rows: seq<Row>, swapped: seq<Row>, i: nat, j: nat)
    requires i < |rows| == |swapped| && j < |rows|
    requires swapped[i] == rows[j] && swapped[j] == rows[i]
    requires forall k :: 0 <= k < |rows| && k != i && k != j ==> swapped[k] == rows[k]
    ensures multiset(swapped) == multiset(rows)
  {
    assert swapped == rows[i := rows[j]][j := rows[i]];
  }

  /** Exchanges two rows of all four arrays. */
  method SwapRows(total: array<real>, magnitude: array<real>, phase: array<real>, phase2: array<real>, i: nat, j: nat)
    requires total.Length == magnitude.Length == phase.Length == phase2.Length && i < total.Length && j < total.Length
    requires total !in {magnitude, phase, phase2} && magnitude !in {phase, phase2} && phase != phase2
    modifies total, magnitude, phase, phase2
    ensures total[i] == old(total[j]) && total[j] == old(total[i])
    ensures forall k :: 0 <= k < total.Length && k != i && k != j ==> total[k] == old(total[k])
    ensures multiset(RowsOf(total[..], magnitude[..], phase[..], phase2[..]))
            == old(multiset(RowsOf(total[..], magnitude[..], phase[..], phase2[..])))
  {
    ghost var was := RowsOf(total[..], magnitude[..], phase[..], phase2[..]);
    total[i], total[j] := total[j], total[i];
    magnitude[i], magnitude[j] := magnitude[j], magnitude[i];
    phase[i], phase[j] := phase[j], phase[i];
    phase2[i], phase2[j] := phase2[j], phase2[i];
    SwapKeepsRows(was, RowsOf(total[..], magnitude[..], phase[..], phase2[..]), i, j);
  }

  /** `sort_by_total_cap`: ascending totals, every measured row kept whole. */
  method SortByTotal(total: array<real>, magnitude: array<real>, phase: array<real>, phase2: array<real>)
    requires total.Length == magnitude.Length == phase.Length == phase2.Length
    requires total !in {magnitude, phase, phase2} && magnitude !in {phase, phase2} && phase != phase2
    modifies total, magnitude, phase, phase2
    ensures forall i, j :: 0 <= i < j < total.Length ==> total[i] <= total[j]
    ensures multiset(RowsOf(total[..], magnitude[..], phase[..], phase2[..]))
            == old(multiset(RowsOf(total[..], magnitude[..], phase[..], phase2[..])))
  {
    var i := 0;
    while i < total.Length - 1
      invariant 0 <= i && (total.Length > 0 ==> i < total.Length)
      invariant forall j, k :: 0 <= j < i && j < k < total.Length ==> total[j] <= total[k]
      invariant multiset(RowsOf(total[..], magnitude[..], phase[..], phase2[..]))
                == old(multiset(RowsOf(total[..], magnitude[..], phase[..], phase2[..])))
    {
      var least := i;
      for j := i + 1 to total.Length
        invariant i <= least < total.Length
        invariant forall k :: i <= k < j ==> total[least] <= total[k]
      {
        if total[j] < total[least] { least := j; }
      }
      if least != i { SwapRows(total, magnitude, phase, phase2, i, least); }
      i := i + 1;
    }
  }

  /** A row of the sorted table is a row of the sweep. */
  lemma RowComesFrom(rows: seq<Row>, sorted: seq<Row>, k: nat) returns (p: nat)
    requires multiset(rows) == multiset(sorted) && k < |sorted|
    ensures p < |rows| && rows[p] == sorted[k]
  {
    assert sorted[k] in multiset(sorted);
    assert sorted[k] in rows;
    p :| 0 <= p < |rows| && rows[p] == sorted[k];
  }

  ghost predicate Measured(values: seq<real>, w: seq<int>, row: Row, reading: seq<int> -> Reading) {
    RowMatches(values, w, |values|, ON, row.total) && reading(w) == row.reading
  }

  ghost predicate FromSweep(values: seq<real>, words: seq<seq<int>>, row: Row, reading: seq<int> -> Reading) {
    exists p :: 0 <= p < |words| && Measured(values, words[p], row, reading)
  }

  /** The rows of the sweep: for each combination its total, and what the converter
      gives for its word. */
  function SweptRows(values: seq<real>, words: seq<seq<int>>, reading: seq<int> -> Reading): (rows: seq<Row>)
    ensures |rows| == |words|
    ensures forall c :: 0 <= c < |rows| ==> rows[c] == Row(SumOn(values, c, |values|), reading(words[c]))
  {
    seq(|words|, c requires 0 <= c < |words| => Row(SumOn(values, c, |values|), reading(words[c])))
  }

  lemma RowGoesTo(rows: seq<Row>, sorted: seq<Row>, c: nat)
    requires multiset(rows) == multiset(sorted) && c < |rows|
    ensures exists k :: 0 <= k < |sorted| && sorted[k] == rows[c]
  {
    assert rows[c] in multiset(rows);
    assert rows[c] in sorted;
  }

  /** Combinations with the same members among the first n are the same. */
  lemma {:induction false} BitsDetermine(c: nat, d: nat, n: nat)
    requires c < Pow2(n) && d < Pow2(n) && forall k :: 0 <= k < n ==> Bit(c, k) == Bit(d, k)
    ensures c == d
    decreases n
  {
    if n > 0 {
      assert Bit(c, 0) == Bit(d, 0);
      assert forall k :: 0 <= k < n - 1 ==> Bit(c / 2, k) == Bit(c, k + 1) && Bit(d / 2, k) == Bit(d, k + 1);
      BitsDetermine(c / 2, d / 2, n - 1);
    }
  }

  /** No two of the words that show their own combination are the same. */
  lemma WordsDiffer(v: seq<int>, w: seq<int>, m: nat, first: nat, c: nat, d: nat)
    requires IsWord(v, m) && IsWord(w, m) && (first == 0 || first == m)
    requires Shows(v, m, first, c) && Shows(w, m, first, d) && c < Pow2(m) && d < Pow2(m) && v == w
    ensures c == d
  {
    forall k | 0 <= k < m
      ensures Bit(c, k) == Bit(d, k)
    {
      assert v[first + k] == w[first + k];
    }
    BitsDetermine(c, d, m);
  }

  /** The capacitance calibration, sweep and sort: ascending, and each combination's
      row exactly once, whole. */
  method CalibrateCapacitors(values: seq<real>, reading: seq<int> -> Reading)
      returns (words: array<seq<int>>, total: array<real>, magnitude: array<real>, phase: array<real>, phase2: array<real>)
    ensures words.Length == total.Length == magnitude.Length == phase.Length == phase2.Length == Pow2(|values|)
    ensures forall i, j :: 0 <= i < j < total.Length ==> total[i] <= total[j]
    ensures forall c :: 0 <= c < words.Length ==> IsWord(words[c], |values|) && Shows(words[c], |values|, |values|, c)
    ensures multiset(RowsOf(total[..], magnitude[..], phase[..], phase2[..]))
            == multiset(SweptRows(values, words[..], reading))
    ensures forall c :: 0 <= c < words.Length ==>
                          exists k :: 0 <= k < total.Length
                                      && RowAt(total[..], magnitude[..], phase[..], phase2[..], k)
                                         == Row(SumOn(values, c, |values|), reading(words[c]))
    ensures forall k :: 0 <= k < total.Length ==>
                          FromSweep(values, words[..], RowAt(total[..], magnitude[..], phase[..], phase2[..], k), reading)
  {
    words, total, magnitude, phase, phase2 := SweepCapacitors(values, reading);
    ghost var swept := RowsOf(total[..], magnitude[..], phase[..], phase2[..]);
    SweptAre(values, words[..], swept, reading, total[..], magnitude[..], phase[..], phase2[..]);
    SortByTotal(total, magnitude, phase, phase2);
    EachOnce(values, words[..], swept, reading, total[..], magnitude[..], phase[..], phase2[..]);
  }

  lemma SweptAre(values: seq<real>, words: seq<seq<int>>, swept: seq<Row>, reading: seq<int> -> Reading,
                 total: seq<real>, magnitude: seq<real>, phase: seq<real>, phase2: seq<real>)
    requires |words| == |total| == |magnitude| == |phase| == |phase2| && swept == RowsOf(total, magnitude, phase, phase2)
    requires forall p :: 0 <= p < |words| ==> total[p] == SumOn(values, p, |values|)
    requires forall p :: 0 <= p < |words| ==> RowRead(words[p], reading, magnitude[p], phase[p], phase2[p])
    ensures swept == SweptRows(values, words, reading)
  {
    forall p | 0 <= p < |words|
      ensures swept[p] == SweptRows(values, words, reading)[p]
    {
      assert RowRead(words[p], reading, magnitude[p], phase[p], phase2[p]);
    }
  }

  lemma EachOnce(values: seq<real>, words: seq<seq<int>>, swept: seq<Row>, reading: seq<int> -> Reading,
                 total: seq<real>, magnitude: seq<real>, phase: seq<real>, phase2: seq<real>)
    requires |words| == |total| == |magnitude| == |phase| == |phase2| && swept == SweptRows(values, words, reading)
    requires multiset(RowsOf(total, magnitude, phase, phase2)) == multiset(swept)
    requires forall p :: 0 <= p < |words| ==> RowMatches(values, words[p], |values|, ON, swept[p].total)
    ensures forall c :: 0 <= c < |words| ==>
                          exists k :: 0 <= k < |total|
                                      && RowAt(total, magnitude, phase, phase2, k)
                                         == Row(SumOn(values, c, |values|), reading(words[c]))
    ensures forall k :: 0 <= k < |total| ==> FromSweep(values, words, RowAt(total, magnitude, phase, phase2, k), reading)
  {
    var sorted := RowsOf(total, magnitude, phase, phase2);
    forall c | 0 <= c < |words|
      ensures exists k :: 0 <= k < |total|
                          && RowAt(total, magnitude, phase, phase2, k) == Row(SumOn(values, c, |values|), reading(words[c]))
    {
      RowGoesTo(swept, sorted, c);
      var k :| 0 <= k < |sorted| && sorted[k] == swept[c];
      assert RowAt(total, magnitude, phase, phase2, k) == swept[c];
    }
    forall k | 0 <= k < |total|
      ensures FromSweep(values, words, RowAt(total, magnitude, phase, phase2, k), reading)
    {
      var p := RowComesFrom(swept, sorted, k);
      assert Measured(values, words[p], swept[p], reading);
    }
  }

  // ------------------------------------------------------------------- one relay

  class RelayBoard {
    var word: seq<int>

    constructor ()
      ensures word == BaseWord(7)
    {
      word := BaseWord(7);
    }

    /** `ChangeRelay`: an address beyond the word means relay 0, a state beyond one
        means off. */
    method ChangeRelay(address: nat, state: int)
      requires IsWord(word, 7)
      modifies this
      ensures IsWord(word, 7)
      ensures var relay := if address > 15 then 0 else address;
              && word[relay] == (if state == 0 || state > 1 then OFF else ON)
              && forall k :: 0 <= k < 16 && k != relay ==> word[k] == old(word[k])
    {
      var on := if state > 1 then 0 else state;
      var relay := if address > 15 then 0 else address;
      word := word[relay := 0];
      word := word[relay := Or(word[relay], if on != 0 then ON else OFF)];
    }
  }
}
