/**
  The pairing of logged acks with the bus's audit rows inside `_audit_cross`
  (bus_notary.py): each audit row takes the first free log ack of the same
  step. What is left over is a multiset difference, step by step, and the
  accused are always the last of their kind.
*/
module AckPairing {
  import opened Wrappers

  /** A cursor step as either record tells it; a missing end is None. */
  datatype Step = Step(from: Option<int>, to: Option<int>)

  function Count(xs: seq<Step>, s: Step): nat {
    if xs == [] then 0 else Count(xs[..|xs| - 1], s) + if xs[|xs| - 1] == s then 1 else 0
  }

  /** How many earlier log acks made the same step. */
  function Rank(logged: seq<Step>, i: nat): nat
    requires i < |logged|
  {
    Count(logged[..i], logged[i])
  }

  /** Among the first n log acks, those that `acks` leaves without a partner, in log order. */
  function Unpaired(logged: seq<Step>, acks: seq<Step>, n: nat): (u: seq<nat>)
    requires n <= |logged|
    ensures forall p | 0 <= p < |u| :: u[p] < n
  {
    if n == 0 then []
    else
      var rest := Unpaired(logged, acks, n - 1);
      if Rank(logged, n - 1) >= Count(acks, logged[n - 1]) then rest + [n - 1] else rest
  }

  function HasMatch(free: seq<nat>, logged: seq<Step>, s: Step): bool
    requires forall p | 0 <= p < |free| :: free[p] < |logged|
  {
    free != [] && (logged[free[0]] == s || HasMatch(free[1..], logged, s))
  }

  /** What one audit row of step `s` does to the free list. */
  function Take(free: seq<nat>, logged: seq<Step>, s: Step): (r: seq<nat>)
    requires forall p | 0 <= p < |free| :: free[p] < |logged|
    ensures forall p | 0 <= p < |r| :: r[p] < |logged|
  {
    if free == [] then []
    else if logged[free[0]] == s then free[1..]
    else [free[0]] + Take(free[1..], logged, s)
  }

  lemma {:induction false} TakeAppend(free: seq<nat>, y: nat, logged: seq<Step>, s: Step)
    requires (forall p | 0 <= p < |free| :: free[p] < |logged|) && y < |logged|
    ensures HasMatch(free + [y], logged, s) <==> HasMatch(free, logged, s) || logged[y] == s
    ensures Take(free + [y], logged, s)
         == if HasMatch(free, logged, s) then Take(free, logged, s) + [y]
            else if logged[y] == s then free else free + [y]
  {
    if free == [] {
      assert free + [y] == [y];
    } else {
      TakeAppend(free[1..], y, logged, s);
      assert (free + [y])[1..] == free[1..] + [y];
      assert free == [free[0]] + free[1..];
    }
  }

  lemma CountAppend(xs: seq<Step>, x: Step, s: Step)
    ensures Count(xs + [x], s) == Count(xs, s) + if x == s then 1 else 0
  {
    assert (xs + [x])[..|xs|] == xs;
  }

  lemma CountPrefix(logged: seq<Step>, n: nat, s: Step)
    requires 1 <= n <= |logged|
    ensures Count(logged[..n], s) == Count(logged[..n - 1], s) + if logged[n - 1] == s then 1 else 0
  {
    assert logged[..n][..n - 1] == logged[..n - 1];
  }

  /** A free log ack of step `s` exists among the first n exactly when the log has more of them than the audit. */
  lemma {:induction false} MatchIffMore(logged: seq<Step>, acks: seq<Step>, n: nat, s: Step)
    requires n <= |logged|
    ensures HasMatch(Unpaired(logged, acks, n), logged, s) <==> Count(logged[..n], s) > Count(acks, s)
  {
    if n > 0 {
      MatchIffMore(logged, acks, n - 1, s);
      CountPrefix(logged, n, s);
      TakeAppend(Unpaired(logged, acks, n - 1), n - 1, logged, s);
    }
  }

  /** One more audit row turns the free list for `acks` into the free list for `acks + [s]`. */
  lemma {:induction false} TakeIsUnpaired(logged: seq<Step>, acks: seq<Step>, n: nat, s: Step)
    requires n <= |logged|
    ensures Take(Unpaired(logged, acks, n), logged, s) == Unpaired(logged, acks + [s], n)
  {
    if n > 0 {
      var rest := Unpaired(logged, acks, n - 1);
      TakeIsUnpaired(logged, acks, n - 1, s);
      CountAppend(acks, s, logged[n - 1]);
      if Rank(logged, n - 1) >= Count(acks, logged[n - 1]) {
        assert Unpaired(logged, acks, n) == rest + [n - 1];
        MatchIffMore(logged, acks, n - 1, s);
        TakeAppend(rest, n - 1, logged, s);
        if !HasMatch(rest, logged, s) {
          TakeWithoutMatch(rest, logged, s);
        }
        hide Take, HasMatch, Count;
      } else {
        assert Unpaired(logged, acks, n) == rest;
      }
    }
  }

  lemma {:induction false} TakeWithoutMatch(free: seq<nat>, logged: seq<Step>, s: Step)
    requires (forall p | 0 <= p < |free| :: free[p] < |logged|) && !HasMatch(free, logged, s)
    ensures Take(free, logged, s) == free
  {
    if free != [] {
      TakeWithoutMatch(free[1..], logged, s);
      assert free == [free[0]] + free[1..];
    }
  }

  lemma {:induction false} NothingPaired(logged: seq<Step>, n: nat)
    requires n <= |logged|
    ensures Unpaired(logged, [], n) == seq(n, i => i)
  {
    if n > 0 {
      NothingPaired(logged, n - 1);
    }
  }

  lemma {:induction false} TakeAt(free: seq<nat>, logged: seq<Step>, s: Step, p: nat)
    requires (forall q | 0 <= q < |free| :: free[q] < |logged|) && p < |free|
    requires logged[free[p]] == s && forall q | 0 <= q < p :: logged[free[q]] != s
    ensures Take(free, logged, s) == free[..p] + free[p + 1..]
  {
    if p > 0 {
      assert Take(free, logged, s) == [free[0]] + Take(free[1..], logged, s);
      hide Take;
      assert forall q | 0 <= q < p - 1 :: free[1..][q] == free[q + 1];
      TakeAt(free[1..], logged, s, p - 1);
      assert free[1..][p..] == free[p + 1..];
      assert free[..p] == [free[0]] + free[1..][..p - 1];
    }
  }

  lemma {:induction false} TakeNone(free: seq<nat>, logged: seq<Step>, s: Step)
    requires (forall q | 0 <= q < |free| :: free[q] < |logged|)
    requires forall q | 0 <= q < |free| :: logged[free[q]] != s
    ensures Take(free, logged, s) == free
  {
    if free != [] {
      TakeNone(free[1..], logged, s);
      assert free == [free[0]] + free[1..];
    }
  }

  /** The two nested loops: every audit row scans the free log acks in order and removes the first of its step. */
  method PairAcks(logged: seq<Step>, acks: seq<Step>) returns (free: seq<nat>)
    ensures free == Unpaired(logged, acks, |logged|)
  {
    free := seq(|logged|, i => i);
    NothingPaired(logged, |logged|);
    assert acks[..0] == [];
    for ai := 0 to |acks|
      invariant free == Unpaired(logged, acks[..ai], |logged|)
    {
      TakeIsUnpaired(logged, acks[..ai], |logged|, acks[ai]);
      assert acks[..ai + 1] == acks[..ai] + [acks[ai]];
      var p := 0;
      while p < |free| && logged[free[p]] != acks[ai]
        invariant 0 <= p <= |free| && forall q | 0 <= q < p :: logged[free[q]] != acks[ai]
      {
        p := p + 1;
      }
      if p < |free| {
        TakeAt(free, logged, acks[ai], p);
        free := free[..p] + free[p + 1..];
      } else {
        TakeNone(free, logged, acks[ai]);
      }
    }
    assert acks[..|acks|] == acks;
  }

  // ------------------------------------------------------------- the accused

  /** A free log ack is reported only when both its ends are integers. */
  predicate Reportable(s: Step) { s.from.Some? && s.to.Some? }

  /** The `audit_cursor_mismatch` items, by log index. */
  function Mismatches(free: seq<nat>, logged: seq<Step>): seq<nat>
    requires forall p | 0 <= p < |free| :: free[p] < |logged|
  {
    if free == [] then []
    else
      var rest := Mismatches(free[1..], logged);
      if Reportable(logged[free[0]]) then [free[0]] + rest else rest
  }

  function CountAt(items: seq<nat>, logged: seq<Step>, s: Step): nat
    requires forall p | 0 <= p < |items| :: items[p] < |logged|
  {
    if items == [] then 0
    else CountAt(items[..|items| - 1], logged, s) + if logged[items[|items| - 1]] == s then 1 else 0
  }

  method AckMismatches(logged: seq<Step>, acks: seq<Step>) returns (items: seq<nat>)
    ensures items == Mismatches(Unpaired(logged, acks, |logged|), logged)
  {
    var free := PairAcks(logged, acks);
    items := [];
    for p := 0 to |free|
      invariant items + Mismatches(free[p..], logged) == Mismatches(free, logged)
    {
      assert free[p..][1..] == free[p + 1..];
      if Reportable(logged[free[p]]) {
        items := items + [free[p]];
      }
    }
  }

  lemma {:induction false} UnpairedCount(logged: seq<Step>, acks: seq<Step>, n: nat, s: Step)
    requires n <= |logged|
    ensures CountAt(Unpaired(logged, acks, n), logged, s)
         == if Count(logged[..n], s) > Count(acks, s) then Count(logged[..n], s) - Count(acks, s) else 0
  {
    if n > 0 {
      UnpairedCount(logged, acks, n - 1, s);
      CountPrefix(logged, n, s);
      CountAtAppend(Unpaired(logged, acks, n - 1), n - 1, logged, s);
    }
  }

  lemma CountAtAppend(items: seq<nat>, y: nat, logged: seq<Step>, s: Step)
    requires (forall p | 0 <= p < |items| :: items[p] < |logged|) && y < |logged|
    ensures CountAt(items + [y], logged, s) == CountAt(items, logged, s) + if logged[y] == s then 1 else 0
  {
    assert (items + [y])[..|items|] == items;
  }

  lemma {:induction false} MismatchesAppend(free: seq<nat>, y: nat, logged: seq<Step>)
    requires (forall p | 0 <= p < |free| :: free[p] < |logged|) && y < |logged|
    ensures Mismatches(free + [y], logged)
         == if Reportable(logged[y]) then Mismatches(free, logged) + [y] else Mismatches(free, logged)
  {
    if free == [] {
      assert free + [y] == [y];
    } else {
      MismatchesAppend(free[1..], y, logged);
      assert (free + [y])[1..] == free[1..] + [y];
    }
  }

  lemma {:induction false} MismatchesBounded(free: seq<nat>, logged: seq<Step>, n: nat)
    requires n <= |logged| && forall p | 0 <= p < |free| :: free[p] < n
    ensures forall p | 0 <= p < |Mismatches(free, logged)| :: Mismatches(free, logged)[p] < n
  {
    if free != [] {
      MismatchesBounded(free[1..], logged, n);
    }
  }

  lemma {:induction false} MismatchCount(free: seq<nat>, logged: seq<Step>, s: Step)
    requires forall p | 0 <= p < |free| :: free[p] < |logged|
    requires forall p | 0 <= p < |Mismatches(free, logged)| :: Mismatches(free, logged)[p] < |logged|
    ensures CountAt(Mismatches(free, logged), logged, s) == if Reportable(s) then CountAt(free, logged, s) else 0
    decreases |free|
  {
    if free != [] {
      var init, y := free[..|free| - 1], free[|free| - 1];
      MismatchesBounded(init, logged, |logged|);
      MismatchCount(init, logged, s);
      MismatchesAppend(init, y, logged);
      assert free == init + [y];
      CountAtAppend(init, y, logged, s);
      CountAtAppend(Mismatches(init, logged), y, logged, s);
    }
  }

  /**
    For each step the number of accusations is the multiset difference of the
    two records: how many more log acks than audit rows made that step.
  */
  lemma GreedyIsMultisetDifference(logged: seq<Step>, acks: seq<Step>, s: Step)
    requires Reportable(s)
    ensures forall p | 0 <= p < |Mismatches(Unpaired(logged, acks, |logged|), logged)| ::
              Mismatches(Unpaired(logged, acks, |logged|), logged)[p] < |logged|
    ensures CountAt(Mismatches(Unpaired(logged, acks, |logged|), logged), logged, s)
         == if Count(logged, s) > Count(acks, s) then Count(logged, s) - Count(acks, s) else 0
  {
    UnpairedCount(logged, acks, |logged|, s);
    MismatchesBounded(Unpaired(logged, acks, |logged|), logged, |logged|);
    MismatchCount(Unpaired(logged, acks, |logged|), logged, s);
    assert logged[..|logged|] == logged;
  }

  /** Log ack i is accused: some audit rows ran out before its turn came. */
  predicate Accused(logged: seq<Step>, acks: seq<Step>, i: nat)
    requires i < |logged|
  {
    Reportable(logged[i]) && Rank(logged, i) >= Count(acks, logged[i])
  }

  predicate Reported(items: seq<nat>, i: nat) { exists p | 0 <= p < |items| :: items[p] == i }

  lemma ReportedAppend(items: seq<nat>, y: nat, i: nat)
    ensures Reported(items + [y], i) <==> Reported(items, i) || y == i
  {
    if Reported(items, i) {
      var p :| 0 <= p < |items| && items[p] == i;
      assert (items + [y])[p] == i;
    }
    assert (items + [y])[|items|] == y;
  }

  /** The reported entries are the accused ones, and no others. */
  lemma {:induction false} AccusedAreReported(logged: seq<Step>, acks: seq<Step>, n: nat, i: nat)
    requires i < |logged| && n <= |logged|
    ensures Reported(Mismatches(Unpaired(logged, acks, n), logged), i) <==> i < n && Accused(logged, acks, i)
  {
    if n > 0 {
      var before := Unpaired(logged, acks, n - 1);
      AccusedAreReported(logged, acks, n - 1, i);
      MismatchesAppend(before, n - 1, logged);
      ReportedAppend(Mismatches(before, logged), n - 1, i);
    }
  }

  function Without(xs: seq<Step>, d: nat): seq<Step>
    requires d < |xs|
  {
    xs[..d] + xs[d + 1..]
  }

  lemma {:induction false} CountWithout(xs: seq<Step>, d: nat, s: Step)
    requires d < |xs|
    ensures Count(Without(xs, d), s) + (if xs[d] == s then 1 else 0) == Count(xs, s)
    decreases |xs|
  {
    var init := xs[..|xs| - 1];
    if d == |xs| - 1 {
      assert Without(xs, d) == init;
    } else {
      CountWithout(init, d, s);
      assert Without(xs, d) == Without(init, d) + [xs[|xs| - 1]];
      CountAppend(Without(init, d), xs[|xs| - 1], s);
    }
  }

  /** Striking one ack from the log never makes another logged ack accused. */
  lemma DeletionAccusesNoOne(logged: seq<Step>, acks: seq<Step>, d: nat, i: nat)
    requires d < |logged| && i < |logged| && i != d
    requires Accused(Without(logged, d), acks, if i < d then i else i - 1)
    ensures Accused(logged, acks, i)
  {
    if i < d {
      assert Without(logged, d)[..i] == logged[..i];
    } else {
      assert Without(logged, d)[..i - 1] == Without(logged[..i], d);
      CountWithout(logged[..i], d, logged[i]);
    }
  }
}
