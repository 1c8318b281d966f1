/** The "warn once per missing name" sets of src/shader/mod.rs (`NOT_FOUND`)
    and src/model/mod.rs (`NOT_FOUND_MODEL`): a lookup of a name that is not
    registered warns only when the name is not yet in the set, and then
    records it. The warning itself is the `warned` result. */
module WarnOnce {

  /** One of the process-wide sets of names already warned about. */
  class NameSet {
    var names: set<string>

    /** `HashSet::new()`. */
    constructor ()
      ensures names == {}
    {
      names := {};
    }

    /** The closure given to `apply` on a miss: return at once when the name
        is recorded; otherwise warn and insert it. */
    method Report(name: string) returns (warned: bool)
      modifies this
      ensures warned <==> name !in old(names)
      ensures names == old(names) + {name}
    {
      if name in names {
        return false;
      }
      warned := true;
      names := names + {name};
    }
  }

  /** The warnings a run of lookups emits, in order, when `present` are the
      registered names and `seen` the names already recorded. */
  function Warnings(present: set<string>, seen: set<string>, lookups: seq<string>): seq<string>
    decreases |lookups|
  {
    if |lookups| == 0 then []
    else if lookups[0] in present || lookups[0] in seen then Warnings(present, seen, lookups[1..])
    else [lookups[0]] + Warnings(present, seen + {lookups[0]}, lookups[1..])
  }

  /** Across any run of lookups each missing name is warned about at most
      once, and exactly the looked-up names that are neither registered nor
      recorded are warned about. */
  lemma {:induction false} WarnsAtMostOnce(present: set<string>, seen: set<string>, lookups: seq<string>)
    ensures var w := Warnings(present, seen, lookups);
      (forall i, j :: 0 <= i < j < |w| ==> w[i] != w[j]) &&
      (forall n :: n in w <==> n in lookups && n !in present && n !in seen)
    decreases |lookups|
  {
    if |lookups| > 0 {
      var n := lookups[0];
      if n in present || n in seen {
        WarnsAtMostOnce(present, seen, lookups[1..]);
        assert forall m :: m in lookups <==> m == n || m in lookups[1..];
      } else {
        WarnsAtMostOnce(present, seen + {n}, lookups[1..]);
        var rest := Warnings(present, seen + {n}, lookups[1..]);
        var w := Warnings(present, seen, lookups);
        assert w == [n] + rest;
        assert forall m :: m in lookups <==> m == n || m in lookups[1..];
        forall i, j | 0 <= i < j < |w|
          ensures w[i] != w[j]
        {
          if i == 0 {
            assert w[j] == rest[j - 1];
          } else {
            assert w[i] == rest[i - 1] && w[j] == rest[j - 1];
          }
        }
      }
    }
  }

  /** A name that is looked up again after a warning is not warned about again. */
  lemma SecondLookupSilent(present: set<string>, seen: set<string>, name: string)
    requires name !in present && name !in seen
    ensures Warnings(present, seen, [name, name]) == [name]
  {
    assert [name, name][1..] == [name];
    assert [name][1..] == [];
    assert Warnings(present, seen + {name}, [name]) == [];
  }
}
