/**
 * take_me_home/config.py: the scoring weights, their defaults, a copy with some weights
 * overridden by name, and the weights as an ordered name-to-value table.
 */
module ScoringConfig {
  import opened Wrappers
  import opened Text

  /** `ScoringWeights`; a frozen dataclass, so a value. Python floats are modelled as reals. */
  datatype ScoringWeights = ScoringWeights(totalTravelTime: real, drivingMinutes: real, ferryRisk: real,
                                           weatherDisruption: real, reservationPressure: real)

  /** `DEFAULT_WEIGHTS = ScoringWeights()`. */
  const DefaultWeights: ScoringWeights := ScoringWeights(0.6, 0.3, 0.1, 0.0, 0.0)

  /** `fields(ScoringWeights)`, in declaration order. */
  const FieldNames: seq<string> :=
    ["total_travel_time", "driving_minutes", "ferry_risk", "weather_disruption", "reservation_pressure"]

  /** `getattr(w, name)` for a field name. */
  function Weight(w: ScoringWeights, name: string): Option<real> {
    if name == "total_travel_time" then Some(w.totalTravelTime)
    else if name == "driving_minutes" then Some(w.drivingMinutes)
    else if name == "ferry_risk" then Some(w.ferryRisk)
    else if name == "weather_disruption" then Some(w.weatherDisruption)
    else if name == "reservation_pressure" then Some(w.reservationPressure)
    else None
  }

  /** `w` with the field `name` set to `v`; any other name leaves `w` as it is. */
  function SetWeight(w: ScoringWeights, name: string, v: real): ScoringWeights {
    if name == "total_travel_time" then w.(totalTravelTime := v)
    else if name == "driving_minutes" then w.(drivingMinutes := v)
    else if name == "ferry_risk" then w.(ferryRisk := v)
    else if name == "weather_disruption" then w.(weatherDisruption := v)
    else if name == "reservation_pressure" then w.(reservationPressure := v)
    else w
  }

  /** Setting a field is seen by reading it back, and by nothing else. */
  lemma SetWeightReads(w: ScoringWeights, name: string, v: real, other: string)
    requires name in FieldNames
    ensures Weight(SetWeight(w, name, v), name) == Some(v)
    ensures other != name ==> Weight(SetWeight(w, name, v), other) == Weight(w, other)
  {
  }

  /** The keyword arguments of a call, in order; Python forbids a repeated name. */
  type Overrides = seq<(string, real)>

  predicate DistinctNames(overrides: Overrides) {
    forall i, j :: 0 <= i < j < |overrides| ==> overrides[i].0 != overrides[j].0
  }

  /** `replace(w, **overrides)` once every name is known. */
  function Replace(w: ScoringWeights, overrides: Overrides): ScoringWeights
    decreases |overrides|
  {
    if overrides == [] then w else Replace(SetWeight(w, overrides[0].0, overrides[0].1), overrides[1..])
  }

  /** The override for `name`, if the call passes one. */
  function OverrideFor(overrides: Overrides, name: string): Option<real> {
    if overrides == [] then None
    else if overrides[0].0 == name then Some(overrides[0].1)
    else OverrideFor(overrides[1..], name)
  }

  /** Every field reads the override passed for it, and keeps its old value when there is none. */
  lemma {:induction false} ReplaceReads(w: ScoringWeights, overrides: Overrides, name: string)
    requires DistinctNames(overrides) && name in FieldNames
    ensures Weight(Replace(w, overrides), name) == Some(OverrideFor(overrides, name).GetOr(Weight(w, name).value))
    decreases |overrides|
  {
    if overrides != [] {
      var w' := SetWeight(w, overrides[0].0, overrides[0].1);
      ReplaceReads(w', overrides[1..], name);
      if overrides[0].0 == name {
        NotOverridden(overrides[1..], name);
      }
    }
  }

  lemma {:induction false} NotOverridden(overrides: Overrides, name: string)
    requires forall i :: 0 <= i < |overrides| ==> overrides[i].0 != name
    ensures OverrideFor(overrides, name) == None
    decreases |overrides|
  {
    if overrides != [] {
      NotOverridden(overrides[1..], name);
    }
  }

  // ---------------------------------------------------------------- sorted names

  /** Python's `<` on strings: code point by code point, a proper prefix first. */
  predicate Less(a: string, b: string)
    decreases |a|
  {
    if a == [] then b != []
    else if b == [] then false
    else if a[0] != b[0] then a[0] < b[0]
    else Less(a[1..], b[1..])
  }

  lemma {:induction false} LessIrreflexive(a: string)
    ensures !Less(a, a)
    decreases |a|
  {
    if a != [] {
      LessIrreflexive(a[1..]);
    }
  }

  lemma {:induction false} LessTotal(a: string, b: string)
    ensures a == b || Less(a, b) || Less(b, a)
    ensures !(Less(a, b) && Less(b, a))
    decreases |a|
  {
    if a != [] && b != [] {
      LessTotal(a[1..], b[1..]);
      if a[0] == b[0] && a[1..] == b[1..] {
        assert a == [a[0]] + a[1..] && b == [b[0]] + b[1..];
      }
    }
  }

  lemma {:induction false} LessTransitive(a: string, b: string, c: string)
    requires Less(a, b) && Less(b, c)
    ensures Less(a, c)
    decreases |a|
  {
    if a != [] && b != [] && c != [] && a[0] == b[0] && b[0] == c[0] {
      LessTransitive(a[1..], b[1..], c[1..]);
    }
  }

  /** Strictly ascending by `Less`, so also free of repeats. */
  ghost predicate StrictlySorted(s: seq<string>) {
    forall i, j :: 0 <= i < j < |s| ==> Less(s[i], s[j])
  }

  /** `x` placed into an ascending list of names, unless it is there already. */
  function InsertName(x: string, s: seq<string>): seq<string>
    decreases |s|
  {
    if s == [] then [x]
    else if x == s[0] then s
    else if Less(x, s[0]) then [x] + s
    else [s[0]] + InsertName(x, s[1..])
  }

  lemma {:induction false} InsertNameSorted(x: string, s: seq<string>)
    requires StrictlySorted(s)
    ensures StrictlySorted(InsertName(x, s))
    ensures forall n :: n in InsertName(x, s) <==> n == x || n in s
    decreases |s|
  {
    var r := InsertName(x, s);
    if s == [] {
    } else if x == s[0] {
    } else if Less(x, s[0]) {
      forall i, j | 0 <= i < j < |r| ensures Less(r[i], r[j]) {
        if i == 0 && j > 1 {
          LessTransitive(x, s[0], s[j - 1]);
        }
      }
    } else {
      LessTotal(x, s[0]);
      InsertNameSorted(x, s[1..]);
      var t := InsertName(x, s[1..]);
      assert r == [s[0]] + t;
      assert forall n :: n in r <==> n == s[0] || n in t;
      assert forall n :: n in s <==> n == s[0] || n in s[1..];
      forall i, j | 0 <= i < j < |r| ensures Less(r[i], r[j]) {
        if i == 0 {
          assert r[j] in t;
          assert r[j] == x || r[j] in s[1..];
          if r[j] in s[1..] {
            var k :| 0 <= k < |s[1..]| && s[1..][k] == r[j];
            assert s[k + 1] == r[j];
          }
        } else {
          assert r[i] == t[i - 1] && r[j] == t[j - 1];
        }
      }
      assert s == [s[0]] + s[1..];
    }
  }

  /** `sorted(names)`: the distinct names of the list in ascending order. */
  function SortedNames(names: seq<string>): seq<string>
    decreases |names|
  {
    if names == [] then [] else InsertName(names[0], SortedNames(names[1..]))
  }

  lemma {:induction false} SortedNamesSorted(names: seq<string>)
    ensures StrictlySorted(SortedNames(names))
    ensures forall n :: n in SortedNames(names) <==> n in names
    decreases |names|
  {
    if names != [] {
      SortedNamesSorted(names[1..]);
      InsertNameSorted(names[0], SortedNames(names[1..]));
      assert names == [names[0]] + names[1..];
    }
  }

  // ---------------------------------------------------------------- tuned, to_dict

  /** The names of `overrides` that are not weights, in call order. */
  function UnknownNames(overrides: Overrides): seq<string>
    decreases |overrides|
  {
    if overrides == [] then []
    else (if overrides[0].0 in FieldNames then [] else [overrides[0].0]) + UnknownNames(overrides[1..])
  }

  /** The call passes a keyword argument named `n`. */
  ghost predicate Passes(overrides: Overrides, n: string) {
    exists i :: 0 <= i < |overrides| && overrides[i].0 == n
  }

  lemma {:induction false} UnknownNamesMembers(overrides: Overrides)
    ensures forall n :: n in UnknownNames(overrides) <==> n !in FieldNames && Passes(overrides, n)
    decreases |overrides|
  {
    if overrides != [] {
      UnknownNamesMembers(overrides[1..]);
      forall n ensures n in UnknownNames(overrides) <==> n !in FieldNames && Passes(overrides, n) {
        if n !in FieldNames && Passes(overrides, n) && n != overrides[0].0 {
          var i :| 0 <= i < |overrides| && overrides[i].0 == n;
          assert overrides[1..][i - 1].0 == n;
        }
        if n in UnknownNames(overrides[1..]) {
          var i :| 0 <= i < |overrides[1..]| && overrides[1..][i].0 == n;
          assert overrides[i + 1].0 == n;
        }
      }
    }
  }

  lemma {:induction false} AllKnown(overrides: Overrides)
    requires forall i :: 0 <= i < |overrides| ==> overrides[i].0 in FieldNames
    ensures UnknownNames(overrides) == []
    decreases |overrides|
  {
    if overrides != [] {
      AllKnown(overrides[1..]);
    }
  }

  /**
   * `tuned(**overrides)`: rejects the call naming every unknown weight, sorted and joined
   * with ", ", and otherwise returns a copy with the overridden weights replaced.
   */
  function Tuned(w: ScoringWeights, overrides: Overrides): Result<ScoringWeights, string> {
    var unexpected := UnknownNames(overrides);
    if unexpected != [] then Err("Unknown scoring weights: " + Join(SortedNames(unexpected), ", "))
    else Ok(Replace(w, overrides))
  }

  /**
   * The call is rejected exactly when it names something that is not a weight; the message
   * lists each unknown name once, in ascending order, and nothing else.
   */
  lemma TunedRejects(w: ScoringWeights, overrides: Overrides)
    ensures Tuned(w, overrides).Err? <==> exists i :: 0 <= i < |overrides| && overrides[i].0 !in FieldNames
    ensures Tuned(w, overrides).Err? ==>
      var names := SortedNames(UnknownNames(overrides));
      && Tuned(w, overrides).error == "Unknown scoring weights: " + Join(names, ", ")
      && StrictlySorted(names)
      && forall n :: n in names <==> n !in FieldNames && Passes(overrides, n)
  {
    var unknown := UnknownNames(overrides);
    UnknownNamesMembers(overrides);
    SortedNamesSorted(unknown);
    if exists i :: 0 <= i < |overrides| && overrides[i].0 !in FieldNames {
      var i :| 0 <= i < |overrides| && overrides[i].0 !in FieldNames;
      assert Passes(overrides, overrides[i].0);
      assert overrides[i].0 in unknown;
    } else {
      AllKnown(overrides);
    }
  }

  /** An accepted call sets each overridden weight and leaves every other weight as it was. */
  lemma TunedAccepts(w: ScoringWeights, overrides: Overrides, name: string)
    requires DistinctNames(overrides) && name in FieldNames
    requires forall i :: 0 <= i < |overrides| ==> overrides[i].0 in FieldNames
    ensures Tuned(w, overrides).Ok?
    ensures Weight(Tuned(w, overrides).value, name) == Some(OverrideFor(overrides, name).GetOr(Weight(w, name).value))
  {
    AllKnown(overrides);
    ReplaceReads(w, overrides, name);
  }

  /** `to_dict`: every field by name, in declaration order. */
  function ToDict(w: ScoringWeights): (d: seq<(string, real)>)
    ensures |d| == |FieldNames| && forall i :: 0 <= i < |d| ==> d[i].0 == FieldNames[i] && Some(d[i].1) == Weight(w, d[i].0)
  {
    [("total_travel_time", w.totalTravelTime), ("driving_minutes", w.drivingMinutes), ("ferry_risk", w.ferryRisk),
     ("weather_disruption", w.weatherDisruption), ("reservation_pressure", w.reservationPressure)]
  }

  /** The override passed under a name. */
  lemma {:induction false} OverrideForAt(overrides: Overrides, i: nat)
    requires DistinctNames(overrides) && i < |overrides|
    ensures OverrideFor(overrides, overrides[i].0) == Some(overrides[i].1)
    decreases i
  {
    if i > 0 {
      assert overrides[0].0 != overrides[i].0;
      OverrideForAt(overrides[1..], i - 1);
    }
  }

  /** Weights that agree on every field are the same weights. */
  lemma WeightsAgree(a: ScoringWeights, b: ScoringWeights)
    requires forall n :: n in FieldNames ==> Weight(a, n) == Weight(b, n)
    ensures a == b
  {
    assert Weight(a, FieldNames[0]) == Weight(b, FieldNames[0]);
    assert Weight(a, FieldNames[1]) == Weight(b, FieldNames[1]);
    assert Weight(a, FieldNames[2]) == Weight(b, FieldNames[2]);
    assert Weight(a, FieldNames[3]) == Weight(b, FieldNames[3]);
    assert Weight(a, FieldNames[4]) == Weight(b, FieldNames[4]);
  }

  /** Tuning any weights with the table of `v` gives `v` back; tuning with nothing is a copy. */
  lemma TunedToDict(w: ScoringWeights, v: ScoringWeights)
    ensures Tuned(w, ToDict(v)) == Ok(v)
    ensures Tuned(w, []) == Ok(w)
  {
    var d := ToDict(v);
    AllKnown(d);
    assert DistinctNames(d) by {
      forall i, j | 0 <= i < j < |d| ensures d[i].0 != d[j].0 {
        assert FieldNames[i] != FieldNames[j];
      }
    }
    forall n | n in FieldNames ensures Weight(Replace(w, d), n) == Weight(v, n) {
      var i :| 0 <= i < 5 && FieldNames[i] == n;
      ReplaceReads(w, d, n);
      OverrideForAt(d, i);
    }
    WeightsAgree(Replace(w, d), v);
  }

  /** The defaults, and the two calls of the weight-tuning test. */
  lemma DefaultsAndUnknownName(w: ScoringWeights)
    ensures ToDict(DefaultWeights)
         == [("total_travel_time", 0.6), ("driving_minutes", 0.3), ("ferry_risk", 0.1),
             ("weather_disruption", 0.0), ("reservation_pressure", 0.0)]
    ensures Tuned(DefaultWeights, [("total_travel_time", 0.5)]) == Ok(ScoringWeights(0.5, 0.3, 0.1, 0.0, 0.0))
    ensures Tuned(w, [("unknown", 0.1)]) == Err("Unknown scoring weights: unknown")
  {
    assert [("unknown", 0.1)][1..] == [];
    assert "unknown" !in FieldNames;
    assert UnknownNames([("unknown", 0.1)]) == ["unknown"];
    assert SortedNames(["unknown"]) == ["unknown"] by {
      assert ["unknown"][1..] == [];
    }
    assert Join(["unknown"], ", ") == "unknown";
    assert "Unknown scoring weights: " + "unknown" == "Unknown scoring weights: unknown";
    assert [("total_travel_time", 0.5)][1..] == [];
    AllKnown([("total_travel_time", 0.5)]);
  }
}
