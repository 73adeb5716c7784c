/**
 * The logistics charts (components/Charts.tsx): the per-status tally of the
 * fleet and the pie slices drawn from it, the cyclic slice palette, and the
 * capacity bars with their shortened asset names.
 */
module Charts {
  import opened Types

  // ---------------------------------------------------------------------
  // Status tally (the fleet-status pie)
  // ---------------------------------------------------------------------

  /** The number of assets in `assets` whose status is `st`. */
  function Occurrences(assets: seq<LogisticAsset>, st: AssetStatus): nat
  {
    if assets == [] then 0
    else Occurrences(assets[..|assets| - 1], st) + (if assets[|assets| - 1].status == st then 1 else 0)
  }

  /** The distinct statuses of `assets`, each where it first occurs. */
  function FirstOccurrences(assets: seq<LogisticAsset>): seq<AssetStatus>
  {
    if assets == [] then []
    else
      var seen := FirstOccurrences(assets[..|assets| - 1]);
      var st := assets[|assets| - 1].status;
      if st in seen then seen else seen + [st]
  }

  predicate NoDuplicates<T(==)>(s: seq<T>)
  {
    forall i, j :: 0 <= i < j < |s| ==> s[i] != s[j]
  }

  lemma {:induction false} OccurrencesPositive(assets: seq<LogisticAsset>, st: AssetStatus)
    ensures Occurrences(assets, st) > 0 <==> exists i :: 0 <= i < |assets| && assets[i].status == st
  {
    if assets != [] {
      var init := assets[..|assets| - 1];
      OccurrencesPositive(init, st);
      if exists i :: 0 <= i < |init| && init[i].status == st {
        var i :| 0 <= i < |init| && init[i].status == st;
        assert assets[i].status == st;
      }
      if exists i :: 0 <= i < |assets| && assets[i].status == st {
        var i :| 0 <= i < |assets| && assets[i].status == st;
        if i < |init| {
          assert init[i].status == st;
        }
      }
    }
  }

  /** Each status that occurs is listed exactly once, and nothing else is listed. */
  lemma {:induction false} FirstOccurrencesDistinct(assets: seq<LogisticAsset>)
    ensures NoDuplicates(FirstOccurrences(assets))
    ensures forall st :: st in FirstOccurrences(assets) <==> Occurrences(assets, st) > 0
  {
    if assets != [] {
      FirstOccurrencesDistinct(assets[..|assets| - 1]);
    }
  }

  /** Keys only ever get appended: the statuses seen in a prefix lead the list for the whole fleet, in the same order. */
  lemma {:induction false} FirstOccurrencesGrow(assets: seq<LogisticAsset>, k: nat)
    requires k <= |assets|
    ensures FirstOccurrences(assets[..k]) <= FirstOccurrences(assets)
    decreases |assets|
  {
    if k < |assets| {
      var init := assets[..|assets| - 1];
      assert init[..k] == assets[..k];
      FirstOccurrencesGrow(init, k);
    } else {
      assert assets[..k] == assets;
    }
  }

  /** The sum of the counts of the statuses in `keys`. */
  function SumOfCounts(keys: seq<AssetStatus>, assets: seq<LogisticAsset>): nat
  {
    if keys == [] then 0 else Occurrences(assets, keys[0]) + SumOfCounts(keys[1..], assets)
  }

  /** The number of times `st` is listed in `keys`. */
  function Multiplicity(keys: seq<AssetStatus>, st: AssetStatus): nat
  {
    if keys == [] then 0 else (if keys[0] == st then 1 else 0) + Multiplicity(keys[1..], st)
  }

  lemma {:induction false} SumOfCountsSnoc(keys: seq<AssetStatus>, assets: seq<LogisticAsset>, a: LogisticAsset)
    ensures SumOfCounts(keys, assets + [a]) == SumOfCounts(keys, assets) + Multiplicity(keys, a.status)
  {
    assert (assets + [a])[..|assets|] == assets;
    if keys != [] {
      SumOfCountsSnoc(keys[1..], assets, a);
    }
  }

  lemma {:induction false} SumOfCountsAppend(keys: seq<AssetStatus>, st: AssetStatus, assets: seq<LogisticAsset>)
    ensures SumOfCounts(keys + [st], assets) == SumOfCounts(keys, assets) + Occurrences(assets, st)
  {
    if keys == [] {
      assert ([] + [st])[1..] == [];
    } else {
      assert (keys + [st])[1..] == keys[1..] + [st];
      SumOfCountsAppend(keys[1..], st, assets);
    }
  }

  lemma {:induction false} MultiplicityOfDistinct(keys: seq<AssetStatus>, st: AssetStatus)
    requires NoDuplicates(keys)
    ensures Multiplicity(keys, st) == if st in keys then 1 else 0
  {
    if keys != [] {
      MultiplicityOfDistinct(keys[1..], st);
      if keys[0] == st {
        assert st !in keys[1..] by {
          forall j | 0 <= j < |keys[1..]| ensures keys[1..][j] != st {
            assert keys[1..][j] == keys[j + 1];
          }
        }
      }
    }
  }

  lemma {:induction false} SumOfCountsEmptyFleet(keys: seq<AssetStatus>, assets: seq<LogisticAsset>)
    requires assets == []
    ensures SumOfCounts(keys, assets) == 0
  {
    if keys != [] {
      SumOfCountsEmptyFleet(keys[1..], assets);
    }
  }

  /** Every asset is counted exactly once: the tallies add up to the size of the fleet. */
  lemma {:induction false} CountsSumToFleetSize(assets: seq<LogisticAsset>)
    ensures SumOfCounts(FirstOccurrences(assets), assets) == |assets|
  {
    if assets == [] {
      SumOfCountsEmptyFleet(FirstOccurrences(assets), assets);
    } else {
      var init, a := assets[..|assets| - 1], assets[|assets| - 1];
      assert assets == init + [a];
      var seen := FirstOccurrences(init);
      CountsSumToFleetSize(init);
      FirstOccurrencesDistinct(init);
      MultiplicityOfDistinct(seen, a.status);
      SumOfCountsSnoc(seen, init, a);
      if a.status !in seen {
        SumOfCountsAppend(seen, a.status, assets);
        assert Occurrences(init, a.status) == 0;
      }
    }
  }

  /**
   * The status tally: one pass over the fleet adding one to the entry of each
   * asset's status, creating the entry (and so its place in the key order)
   * the first time the status is met.
   */
  method TallyStatuses(assets: seq<LogisticAsset>) returns (keys: seq<AssetStatus>, counts: map<AssetStatus, nat>)
    ensures keys == FirstOccurrences(assets)
    ensures forall st :: st in counts <==> st in keys
    ensures forall st :: st in counts ==> counts[st] == Occurrences(assets, st)
  {
    keys, counts := [], map[];
    var i := 0;
    while i < |assets|
      invariant 0 <= i <= |assets|
      invariant keys == FirstOccurrences(assets[..i])
      invariant forall st :: st in counts <==> st in keys
      invariant forall st :: st in counts ==> counts[st] == Occurrences(assets[..i], st)
    {
      var st := assets[i].status;
      assert assets[..i + 1][..i] == assets[..i];
      forall other: AssetStatus
        ensures Occurrences(assets[..i + 1], other) == Occurrences(assets[..i], other) + (if other == st then 1 else 0)
      {
      }
      FirstOccurrencesDistinct(assets[..i]);
      if st !in counts {
        keys := keys + [st];
      }
      counts := counts[st := (if st in counts then counts[st] else 0) + 1];
      i := i + 1;
    }
    assert assets[..i] == assets;
  }

  /** A pie slice: a status name and how many assets have it. */
  datatype Slice = Slice(name: string, value: nat)

  /** The slices the tally yields: one per distinct status, in first-occurrence order. */
  function StatusSlices(assets: seq<LogisticAsset>): seq<Slice>
  {
    var keys := FirstOccurrences(assets);
    seq(|keys|, i requires 0 <= i < |keys| => Slice(StatusName(keys[i]), Occurrences(assets, keys[i])))
  }

  function SliceTotal(slices: seq<Slice>): nat
  {
    if slices == [] then 0 else slices[0].value + SliceTotal(slices[1..])
  }

  lemma {:induction false} SliceTotalIsSumOfCounts(keys: seq<AssetStatus>, assets: seq<LogisticAsset>, slices: seq<Slice>)
    requires |slices| == |keys|
    requires forall i :: 0 <= i < |keys| ==> slices[i].value == Occurrences(assets, keys[i])
    ensures SliceTotal(slices) == SumOfCounts(keys, assets)
  {
    if keys != [] {
      SliceTotalIsSumOfCounts(keys[1..], assets, slices[1..]);
    }
  }

  /** The pie's palette, used in turn by slice position. */
  const Palette: seq<string> := ["#10b981", "#f59e0b", "#3b82f6", "#ef4444"]

  /** The colour of slice `i`: it depends on the position only, never on the status. */
  function SliceColour(i: nat): (c: string)
    ensures c in Palette
  {
    Palette[i % |Palette|]
  }

  /** The palette repeats every four slices, and any four consecutive slices get four different colours. */
  lemma SliceColoursCycle(i: nat, j: nat)
    requires i <= j
    ensures SliceColour(i) == SliceColour(j) <==> (j - i) % 4 == 0
  {
  }

  /**
   * The fleet-status pie: the tally projected to slices, each coloured by its
   * position. There is one slice per distinct status, in order of first
   * occurrence, none is empty, and the values add up to the fleet size.
   */
  method LogisticsOverview(assets: seq<LogisticAsset>) returns (slices: seq<Slice>, colours: seq<string>)
    ensures slices == StatusSlices(assets)
    ensures |slices| == |FirstOccurrences(assets)|
    ensures forall i :: 0 <= i < |slices| ==> slices[i].value > 0
    ensures forall i, j :: 0 <= i < j < |slices| ==> slices[i].name != slices[j].name
    ensures SliceTotal(slices) == |assets|
    ensures |colours| == |slices|
    ensures forall i :: 0 <= i < |colours| ==> colours[i] == Palette[i % 4]
  {
    var keys, counts := TallyStatuses(assets);
    slices := seq(|keys|, i requires 0 <= i < |keys| => Slice(StatusName(keys[i]), counts[keys[i]]));
    colours := seq(|slices|, i requires 0 <= i < |slices| => SliceColour(i));
    FirstOccurrencesDistinct(assets);
    forall i, j | 0 <= i < j < |slices| ensures slices[i].name != slices[j].name {
      assert keys[i] != keys[j];
    }
    SliceTotalIsSumOfCounts(keys, assets, slices);
    CountsSumToFleetSize(assets);
  }

  // ---------------------------------------------------------------------
  // Capacity bars and shortened names
  // ---------------------------------------------------------------------

  /** `s.split(' ')`: the pieces between single spaces, empty pieces included. */
  function Split(s: string): (parts: seq<string>)
    ensures |parts| >= 1
    ensures forall i :: 0 <= i < |parts| ==> ' ' !in parts[i]
  {
    if s == [] then [""]
    else if s[0] == ' ' then [""] + Split(s[1..])
    else
      var rest := Split(s[1..]);
      [[s[0]] + rest[0]] + rest[1..]
  }

  /** `parts.join(' ')`. */
  function Join(parts: seq<string>): string
    requires |parts| >= 1
  {
    if |parts| == 1 then parts[0] else parts[0] + " " + Join(parts[1..])
  }

  /** Splitting loses nothing: joining the pieces gives the name back. */
  lemma {:induction false} JoinSplit(s: string)
    ensures Join(Split(s)) == s
  {
    if s != [] {
      JoinSplit(s[1..]);
      var rest := Split(s[1..]);
      if s[0] == ' ' {
        assert ([""] + rest)[1..] == rest;
      } else if |rest| == 1 {
      } else {
        assert ([[s[0]] + rest[0]] + rest[1..])[1..] == rest[1..];
        assert Join(rest) == rest[0] + " " + Join(rest[1..]);
      }
    }
  }

  /** Joining pieces that hold no space and splitting again gives the pieces back. */
  lemma {:induction false} SplitJoin(parts: seq<string>)
    requires |parts| >= 1
    requires forall i :: 0 <= i < |parts| ==> ' ' !in parts[i]
    ensures Split(Join(parts)) == parts
    decreases |parts|, |parts[0]|
  {
    var w := parts[0];
    if w == [] {
      if |parts| > 1 {
        SplitJoin(parts[1..]);
        assert Join(parts) == " " + Join(parts[1..]);
        assert Join(parts)[1..] == Join(parts[1..]);
      }
    } else {
      var shorter := parts[0 := w[1..]];
      assert ' ' !in shorter[0] by {
        assert forall k :: 0 <= k < |w[1..]| ==> w[1..][k] == w[k + 1];
      }
      SplitJoin(shorter);
      assert shorter[1..] == parts[1..];
      if |parts| == 1 {
        assert Join(parts)[1..] == Join(shorter);
      } else {
        assert Join(parts)[1..] == Join(shorter);
      }
      assert [w[0]] + w[1..] == w;
    }
  }

  /** The first piece of a split name begins the joined name. */
  lemma JoinStartsWithFirst(parts: seq<string>)
    requires |parts| >= 1
    ensures parts[0] <= Join(parts)
    ensures |parts| == 1 ==> Join(parts) == parts[0]
  {
  }

  /**
   * `name.split(' ')[0] + ' ' + name.split(' ')[1]`, where a missing second
   * piece renders as "undefined": a name without a space gets " undefined"
   * appended, and any other name is cut after its second piece.
   */
  function ShortName(name: string): (r: string)
    ensures ' ' !in name ==> r == name + " undefined"
    ensures ' ' in name ==> r <= name
  {
    var parts := Split(name);
    JoinSplit(name);
    JoinStartsWithFirst(parts);
    if |parts| > 1 then
      JoinStartsWithFirst(parts[1..]);
      assert Join(parts) == parts[0] + " " + Join(parts[1..]);
      var r := parts[0] + " " + parts[1];
      assert name[|parts[0]|] == ' ';
      r
    else
      parts[0] + " " + "undefined"
  }

  /** A name of two or more words shortens to its first two words. */
  lemma ShortNameOfWords(words: seq<string>)
    requires |words| >= 2
    requires forall i :: 0 <= i < |words| ==> ' ' !in words[i]
    ensures ShortName(Join(words)) == words[0] + " " + words[1]
  {
    SplitJoin(words);
  }

  /** A capacity bar: the shortened name and the capacity. */
  datatype Bar = Bar(name: string, capacity: int)

  /** The capacity bars: one per asset, in order. */
  function CapacityBars(assets: seq<LogisticAsset>): (bars: seq<Bar>)
    ensures |bars| == |assets|
    ensures forall i :: 0 <= i < |bars| ==> bars[i].capacity == assets[i].capacity
    ensures forall i :: 0 <= i < |bars| ==> bars[i].name == ShortName(assets[i].name)
  {
    seq(|assets|, i requires 0 <= i < |assets| => Bar(ShortName(assets[i].name), assets[i].capacity))
  }

  // ---------------------------------------------------------------------
  // The sample fleet
  // ---------------------------------------------------------------------

  /**
   * The sample fleet gives three slices, TRANSIT 1, ACTIVE 3, MAINTENANCE 1,
   * coloured by position: the ACTIVE slice gets the second colour.
   */
  lemma SampleSlices()
    ensures StatusSlices(MockAssets) == [Slice("TRANSIT", 1), Slice("ACTIVE", 3), Slice("MAINTENANCE", 1)]
    ensures SliceColour(0) == "#10b981" && SliceColour(1) == "#f59e0b" && SliceColour(2) == "#3b82f6"
  {
    var a := MockAssets;
    assert a[..1] == [a[0]] && a[..1][..0] == [];
    assert a[..2][..1] == a[..1];
    assert a[..3][..2] == a[..2];
    assert a[..4][..3] == a[..3];
    assert a[..5][..4] == a[..4];
    assert a[..5] == a;
    assert FirstOccurrences(a[..1]) == [Transit];
    assert FirstOccurrences(a[..2]) == [Transit, Active];
    assert FirstOccurrences(a[..3]) == [Transit, Active, Maintenance];
    assert FirstOccurrences(a[..4]) == [Transit, Active, Maintenance];
    assert FirstOccurrences(a) == [Transit, Active, Maintenance];
    forall st ensures Occurrences(a, st) == (if st == Active then 3 else if st == Offline then 0 else 1) {
      assert Occurrences(a[..1], st) == (if st == Transit then 1 else 0);
      assert Occurrences(a[..2], st) == (if st == Transit || st == Active then 1 else 0);
      assert Occurrences(a[..3], st) == (if st == Offline then 0 else 1);
      assert Occurrences(a[..4], st) == (if st == Active then 2 else if st == Offline then 0 else 1);
    }
  }

  /**
   * A three-word name shortens to its first two words, whatever the third is:
   * the sample fleet's "Heavy Hauler A-1" and "Heavy Hauler A-2" both show as
   * "Heavy Hauler", so their bars share a label.
   */
  lemma ThreeWordName(w0: string, w1: string, w2: string)
    requires ' ' !in w0 && ' ' !in w1 && ' ' !in w2
    ensures ShortName(w0 + " " + w1 + " " + w2) == w0 + " " + w1
  {
    var words := [w0, w1, w2];
    assert words[1..][1..] == words[2..] == [w2];
    assert Join(words[2..]) == w2;
    assert Join(words[1..]) == w1 + " " + w2;
    assert Join(words) == w0 + " " + w1 + " " + w2;
    ShortNameOfWords(words);
  }
}
