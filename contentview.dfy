/**
 What `ContentView` computes from the tracker: the running totals shown
 under the list, and the "Add Food" button's guard that turns the form's
 parsed fields into an entry.
 */
module ContentView {
  import opened Wrappers
  import opened Entries
  import Tracking

  /** The four summed fields of a `Food`. */
  datatype Macro = Cal | Prot | Fat | Carb

  function Field(f: Food, m: Macro): (v: int) {
    match m
    case Cal => f.cal
    case Prot => f.prot
    case Fat => f.fat
    case Carb => f.carb
  }

  /** The `(cal, prot, fat, carb)` tuple that `total` returns. */
  datatype Totals = Totals(cal: int, prot: int, fat: int, carb: int)

  const Zero := Totals(0, 0, 0, 0)

  function Get(t: Totals, m: Macro): (v: int) {
    match m
    case Cal => t.cal
    case Prot => t.prot
    case Fat => t.fat
    case Carb => t.carb
  }

  function Plus(a: Totals, b: Totals): (t: Totals) {
    Totals(a.cal + b.cal, a.prot + b.prot, a.fat + b.fat, a.carb + b.carb)
  }

  /** What one entry adds to the totals. */
  function Contribution(f: Food): (t: Totals) {
    Totals(f.cal, f.prot, f.fat, f.carb)
  }

  /** `s.reduce(acc) { $0 + $1.field }`: a left fold, first entry first. */
  function Reduce(acc: int, s: seq<Food>, m: Macro): (v: int)
    decreases |s|
  {
    if s == [] then acc else Reduce(acc + Field(s[0], m), s[1..], m)
  }

  /** Reference definition: the field summed over the entries, last entry last. */
  function Sum(s: seq<Food>, m: Macro): (v: int) {
    if s == [] then 0 else Sum(s[..|s| - 1], m) + Field(s[|s| - 1], m)
  }

  lemma {:induction false} SumCons(f: Food, s: seq<Food>, m: Macro)
    ensures Sum([f] + s, m) == Field(f, m) + Sum(s, m)
    decreases |s|
  {
    if s != [] {
      var t := [f] + s;
      assert t[..|t| - 1] == [f] + s[..|s| - 1];
      SumCons(f, s[..|s| - 1], m);
    }
  }

  /** The left fold from `acc` is `acc` plus the reference sum. */
  lemma {:induction false} ReduceIsSum(acc: int, s: seq<Food>, m: Macro)
    ensures Reduce(acc, s, m) == acc + Sum(s, m)
    decreases |s|
  {
    if s != [] {
      ReduceIsSum(acc + Field(s[0], m), s[1..], m);
      assert s == [s[0]] + s[1..];
      SumCons(s[0], s[1..], m);
    }
  }

  /** Summing is additive over concatenation. */
  lemma {:induction false} SumAppend(s: seq<Food>, t: seq<Food>, m: Macro)
    ensures Sum(s + t, m) == Sum(s, m) + Sum(t, m)
    decreases |t|
  {
    if t == [] {
      assert s + t == s;
    } else {
      var st := s + t;
      assert st[..|st| - 1] == s + t[..|t| - 1];
      SumAppend(s, t[..|t| - 1], m);
    }
  }

  /**
   `total`: four folds over `daily`, one per field. Each component is the
   sum of that field over the entries, and all four are 0 for an empty list.
   */
  function Total(daily: seq<Food>): (r: Totals)
    ensures forall m: Macro :: Get(r, m) == Sum(daily, m)
    ensures daily == [] ==> r == Zero
  {
    ReduceIsSum(0, daily, Cal);
    ReduceIsSum(0, daily, Prot);
    ReduceIsSum(0, daily, Fat);
    ReduceIsSum(0, daily, Carb);
    Totals(Reduce(0, daily, Cal), Reduce(0, daily, Prot), Reduce(0, daily, Fat), Reduce(0, daily, Carb))
  }

  /** Totals are additive: the totals of two lists laid end to end add up. */
  lemma TotalConcat(s: seq<Food>, t: seq<Food>)
    ensures Total(s + t) == Plus(Total(s), Total(t))
  {
    SumAppend(s, t, Cal);
    SumAppend(s, t, Prot);
    SumAppend(s, t, Fat);
    SumAppend(s, t, Carb);
    assert Get(Total(s + t), Cal) == Get(Total(s), Cal) + Get(Total(t), Cal);
    assert Get(Total(s + t), Prot) == Get(Total(s), Prot) + Get(Total(t), Prot);
    assert Get(Total(s + t), Fat) == Get(Total(s), Fat) + Get(Total(t), Fat);
    assert Get(Total(s + t), Carb) == Get(Total(s), Carb) + Get(Total(t), Carb);
  }

  /** After `add(f)` the totals grow by exactly `f`'s four fields. */
  lemma TotalAfterAdd(s: Tracking.Snapshot, f: Food)
    ensures Total(Tracking.Append(s, f).daily) == Plus(Total(s.daily), Contribution(f))
  {
    TotalConcat(s.daily, [f]);
    assert Sum([f], Cal) == f.cal by { assert [f][..0] == []; }
    assert Sum([f], Prot) == f.prot by { assert [f][..0] == []; }
    assert Sum([f], Fat) == f.fat by { assert [f][..0] == []; }
    assert Sum([f], Carb) == f.carb by { assert [f][..0] == []; }
  }

  /**
   After `saveDay(d)` the totals shown are zero, and the archived day keeps
   the totals that were shown before.
   */
  lemma TotalAfterArchive(s: Tracking.Snapshot, d: Day)
    ensures Total(Tracking.Archive(s, d).daily) == Zero
    ensures Total(Tracking.Archive(s, d).history[d]) == Total(s.daily)
  {
  }

  /**
   Bounds on a sum from bounds on its terms: with every entry's field in
   `[lo, hi]`, the total lies in `[lo * n, hi * n]` for `n` entries.
   */
  lemma {:induction false} SumBounds(s: seq<Food>, m: Macro, lo: int, hi: int)
    requires forall i :: 0 <= i < |s| ==> lo <= Field(s[i], m) <= hi
    ensures lo * |s| <= Sum(s, m) <= hi * |s|
    decreases |s|
  {
    if s != [] {
      var n := |s| - 1;
      SumBounds(s[..n], m, lo, hi);
      assert lo * |s| == lo * n + lo;
      assert hi * |s| == hi * n + hi;
    }
  }

  /**
   The fold's accumulator after the first `k` entries is `Reduce(0, s[..k], m)`.
   When every entry's field lies in `[lo, hi]` and both `lo * n` and `hi * n`
   fit in an `Int` for the `n` entries, every running total fits too, so none
   of the additions in `reduce` traps.
   */
  lemma RunningTotalsInRange(s: seq<Food>, m: Macro, lo: int, hi: int)
    requires forall i :: 0 <= i < |s| ==> lo <= Field(s[i], m) <= hi
    requires IntMin <= lo * |s| && hi * |s| <= IntMax
    ensures forall k :: 0 <= k <= |s| ==> IntMin <= Reduce(0, s[..k], m) <= IntMax
  {
    forall k | 0 <= k <= |s|
      ensures IntMin <= Reduce(0, s[..k], m) <= IntMax
    {
      ReduceIsSum(0, s[..k], m);
      SumBounds(s[..k], m, lo, hi);
      ScaledBetween(lo, k, |s|);
      ScaledBetween(hi, k, |s|);
    }
  }

  /** `c * k` lies between `0` and `c * n` when `0 <= k <= n`. */
  lemma ScaledBetween(c: int, k: nat, n: nat)
    requires k <= n
    ensures c >= 0 ==> 0 <= c * k <= c * n
    ensures c < 0 ==> c * n <= c * k <= 0
  {
    assert c * n - c * k == c * (n - k);
  }

  /**
   The form's fields after the Swift library's parsing: `Int(cal)`,
   `Int(prot)`, `Int(fat)`, `Int(carb)` and `Double(grams)`, each `None` when
   the text does not parse; `name` is the raw text.
   */
  datatype QuickAddInput = QuickAddInput(
    name: string,
    cal: Option<int>,
    prot: Option<int>,
    fat: Option<int>,
    carb: Option<int>,
    grams: Option<real>
  )

  /** The `if let` chain's condition: all five numeric fields parsed. */
  predicate Parsed(input: QuickAddInput) {
    input.cal.Some? && input.prot.Some? && input.fat.Some? && input.carb.Some? && input.grams.Some?
  }

  /** `name.isEmpty ? "Food" : name`: never empty, and the typed name when there is one. */
  function EntryName(name: string): (r: string)
    ensures |r| > 0
    ensures name != [] ==> r == name
    ensures name == [] ==> r == "Food"
  {
    if name == [] then "Food" else name
  }

  /**
   The entry the "Add Food" button builds, or `None` when any numeric field
   failed to parse. `id` is the fresh `UUID()` the initializer draws.
   */
  function MakeFood(input: QuickAddInput, id: Uuid): (r: Option<Food>)
    ensures r.Some? <==> Parsed(input)
    ensures r.Some? ==>
      && r.value.id == id
      && r.value.name == EntryName(input.name)
      && r.value.grams == input.grams.value
      && Contribution(r.value) == Totals(input.cal.value, input.prot.value, input.fat.value, input.carb.value)
  {
    if Parsed(input) then
      Some(Food(id, EntryName(input.name), input.grams.value,
                input.cal.value, input.prot.value, input.fat.value, input.carb.value))
    else
      None
  }

  /**
   The "Add Food" button: appends exactly one entry when every numeric
   field parsed and nothing otherwise; the totals move by that entry.
   */
  method AddFood(tracker: Tracking.Tracker, input: QuickAddInput, id: Uuid) returns (added: bool)
    modifies tracker
    ensures added <==> Parsed(input)
    ensures added ==> tracker.daily == old(tracker.daily) + [MakeFood(input, id).value]
    ensures !added ==> tracker.daily == old(tracker.daily)
    ensures tracker.history == old(tracker.history) && tracker.stored == old(tracker.stored)
    ensures Total(tracker.daily) ==
      if added then Plus(Total(old(tracker.daily)), Contribution(MakeFood(input, id).value))
      else Total(old(tracker.daily))
  {
    var food := MakeFood(input, id);
    added := food.Some?;
    if added {
      ghost var before := tracker.State();
      tracker.Add(food.value);
      TotalAfterAdd(before, food.value);
    }
  }

  /**
   Two entries logged and the day archived: what a client can conclude from
   the contracts alone.
   */
  method EggAndRice(day: Day) {
    var tracker := new Tracking.Tracker();
    var egg := Food(1, "Egg", 50.0, 70, 6, 5, 1);
    var rice := Food(2, "Rice", 150.0, 200, 4, 0, 45);
    ghost var s0 := tracker.State();
    tracker.Add(egg);
    TotalAfterAdd(s0, egg);
    ghost var s1 := tracker.State();
    tracker.Add(rice);
    TotalAfterAdd(s1, rice);
    assert tracker.daily == [egg, rice];
    assert Total(tracker.daily) == Totals(270, 10, 5, 46);
    assert tracker.stored == None;
    tracker.SaveDay(day);
    assert tracker.daily == [] && Total(tracker.daily) == Zero;
    assert tracker.history == map[day := [egg, rice]];
    assert tracker.stored == Some(Tracking.Snapshot([], map[day := [egg, rice]]));
  }
}
