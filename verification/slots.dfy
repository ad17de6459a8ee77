/**
 The three width and three height input fields of the admin editor, how a new
 measurement is placed in them, and the average shown beneath them.
 */
module Slots {

  import opened Numbers

  /** An input field: empty text, or some text together with what `parseFloat` reads from it. */
  datatype Field = Blank | Filled(parsed: Num)

  /** The fields w1, w2, w3 (or h1, h2, h3), in that order. */
  type Slots = s: seq<Field> | |s| == 3 witness [Blank, Blank, Blank]

  const EmptySlots: Slots := [Blank, Blank, Blank]

  /** The slot a new value goes to: the first empty one of the first two, else the third. */
  function TargetSlot(s: Slots): (k: nat)
    ensures k < 3
    ensures forall j :: 0 <= j < k ==> s[j].Filled?
    ensures k < 2 ==> s[k].Blank?
  {
    if s[0].Blank? then 0 else if s[1].Blank? then 1 else 2
  }

  /** Writes `v` into the target slot and leaves the others as they are. */
  function Place(s: Slots, v: Num): (r: Slots)
    ensures r[TargetSlot(s)] == Filled(v)
    ensures forall j :: 0 <= j < 3 && j != TargetSlot(s) ==> r[j] == s[j]
  {
    s[TargetSlot(s) := Filled(v)]
  }

  /** Placing fills the first empty slot when there is one, and overwrites the third when all are full. */
  lemma PlaceFillsFirstBlank(s: Slots, v: Num)
    ensures forall k :: 0 <= k < 3 && s[k].Blank? && (forall j :: 0 <= j < k ==> s[j].Filled?) ==>
              Place(s, v)[k] == Filled(v) && Place(s, v) == s[k := Filled(v)]
    ensures (forall j :: 0 <= j < 3 ==> s[j].Filled?) ==> Place(s, v) == s[2 := Filled(v)]
  {
  }

  /** An entry the average keeps: a number `parseFloat` read and that is greater than zero. */
  predicate Kept(f: Field)
  {
    f.Filled? && IsPositive(f.parsed)
  }

  /** The kept finite entries, in order. */
  function PositiveValues(fields: seq<Field>): (r: seq<real>)
    ensures |r| <= |fields|
    ensures forall x :: x in r <==> x > 0.0 && Filled(Finite(x)) in fields
    ensures forall x :: multiset(r)[x] == if x > 0.0 then multiset(fields)[Filled(Finite(x))] else 0
  {
    if |fields| == 0 then []
    else
      var rest := PositiveValues(fields[1..]);
      assert forall f :: f in fields <==> f == fields[0] || f in fields[1..];
      assert fields == [fields[0]] + fields[1..];
      assert multiset(fields) == multiset{fields[0]} + multiset(fields[1..]);
      if Kept(fields[0]) && fields[0].parsed.Finite? then [fields[0].parsed.v] + rest else rest
  }

  /** An entry reads as +Infinity: the sum, the mean and its rounding are then +Infinity. */
  predicate HasPosInfinity(fields: seq<Field>)
  {
    Filled(PosInfinity) in fields
  }

  function Sum(xs: seq<real>): real
  {
    if |xs| == 0 then 0.0 else xs[0] + Sum(xs[1..])
  }

  /**
   `updateAverages`' `calc`: 0 when no entry is kept, +Infinity when a kept
   entry is, otherwise the mean of the kept entries rounded to a whole number.
   */
  function Average(fields: seq<Field>): (r: Num)
    ensures r.Finite? || r == PosInfinity
    ensures r == PosInfinity <==> HasPosInfinity(fields)
    ensures !HasPosInfinity(fields) && |PositiveValues(fields)| == 0 ==> r == Finite(0.0)
    ensures r.Finite? ==> IsWhole(r.v)
    ensures r.Finite? && |PositiveValues(fields)| > 0 ==>
              var n := |PositiveValues(fields)| as real;
              var mean := Sum(PositiveValues(fields)) / n;
              mean - 0.5 < r.v <= mean + 0.5
  {
    var vals := PositiveValues(fields);
    if HasPosInfinity(fields) then PosInfinity
    else if |vals| == 0 then Finite(0.0)
    else Finite(Round(Sum(vals) / |vals| as real) as real)
  }

  /** A sum of values between `lo` and `hi` lies between `n * lo` and `n * hi`. */
  lemma {:induction false} SumBounds(xs: seq<real>, lo: real, hi: real)
    requires forall i :: 0 <= i < |xs| ==> lo <= xs[i] <= hi
    ensures |xs| as real * lo <= Sum(xs) <= |xs| as real * hi
  {
    if |xs| > 0 {
      SumBounds(xs[1..], lo, hi);
    }
  }

  /** The mean of values between `lo` and `hi` lies between them. */
  lemma MeanBounds(xs: seq<real>, lo: real, hi: real)
    requires |xs| > 0
    requires forall i :: 0 <= i < |xs| ==> lo <= xs[i] <= hi
    ensures lo <= Sum(xs) / |xs| as real <= hi
  {
    SumBounds(xs, lo, hi);
    var n := |xs| as real;
    assert Sum(xs) / n * n == Sum(xs);
  }

  /** When the kept entries all lie between `lo` and `hi`, so does the average, up to rounding of the bounds. */
  lemma AverageWithinBounds(fields: seq<Field>, lo: real, hi: real)
    requires !HasPosInfinity(fields) && |PositiveValues(fields)| > 0
    requires forall x :: x in PositiveValues(fields) ==> lo <= x <= hi
    ensures Average(fields).Finite?
    ensures Round(lo) as real <= Average(fields).v <= Round(hi) as real
  {
    var vals := PositiveValues(fields);
    assert forall i :: 0 <= i < |vals| ==> lo <= vals[i] <= hi by {
      forall i | 0 <= i < |vals| ensures lo <= vals[i] <= hi {
        assert vals[i] in vals;
      }
    }
    MeanBounds(vals, lo, hi);
    var mean := Sum(vals) / |vals| as real;
    assert Average(fields) == Finite(Round(mean) as real);
    RoundMonotone(lo, mean);
    RoundMonotone(mean, hi);
  }

  function SeqMin(xs: seq<real>): (m: real)
    requires |xs| > 0
    ensures m in xs
    ensures forall i :: 0 <= i < |xs| ==> m <= xs[i]
  {
    if |xs| == 1 then xs[0]
    else
      var rest := SeqMin(xs[1..]);
      assert forall i :: 1 <= i < |xs| ==> xs[i] == xs[1..][i - 1];
      if xs[0] <= rest then xs[0] else rest
  }

  function SeqMax(xs: seq<real>): (m: real)
    requires |xs| > 0
    ensures m in xs
    ensures forall i :: 0 <= i < |xs| ==> xs[i] <= m
  {
    if |xs| == 1 then xs[0]
    else
      var rest := SeqMax(xs[1..]);
      assert forall i :: 1 <= i < |xs| ==> xs[i] == xs[1..][i - 1];
      if xs[0] >= rest then xs[0] else rest
  }

  /** With whole-number entries the average lies between the smallest and the largest kept entry. */
  lemma AverageBetweenKeptExtremes(fields: seq<Field>)
    requires !HasPosInfinity(fields) && |PositiveValues(fields)| > 0
    requires forall x :: x in PositiveValues(fields) ==> IsWhole(x)
    ensures Average(fields).Finite?
    ensures SeqMin(PositiveValues(fields)) <= Average(fields).v <= SeqMax(PositiveValues(fields))
  {
    var vals := PositiveValues(fields);
    var lo, hi := SeqMin(vals), SeqMax(vals);
    AverageWithinBounds(fields, lo, hi);
    RoundWhole(lo);
    RoundWhole(hi);
  }

  /** Entries the average does not keep can be replaced by other such entries without changing it. */
  lemma {:induction false} AverageIgnoresUnkept(fields: seq<Field>, i: nat, g: Field)
    requires i < |fields| && !Kept(fields[i]) && !Kept(g)
    ensures PositiveValues(fields[i := g]) == PositiveValues(fields)
    ensures Average(fields[i := g]) == Average(fields)
  {
    if i > 0 {
      AverageIgnoresUnkept(fields[1..], i - 1, g);
      assert fields[i := g][1..] == fields[1..][i - 1 := g];
    }
    assert HasPosInfinity(fields[i := g]) <==> HasPosInfinity(fields) by {
      if HasPosInfinity(fields) {
        var j :| 0 <= j < |fields| && fields[j] == Filled(PosInfinity);
        assert fields[i := g][j] == Filled(PosInfinity);
      }
      if HasPosInfinity(fields[i := g]) {
        var j :| 0 <= j < |fields| && fields[i := g][j] == Filled(PosInfinity);
        assert fields[j] == Filled(PosInfinity);
      }
    }
  }
}
