/** The process-wide PlayerStats registry of MMOParties and its two lookups.
    The HashMap is modelled as the sequence of its entries in iteration order. */
module MMOParties {
  import opened Entities

  /** Entry `i` is the first entry whose key is named exactly `name`. */
  ghost predicate IsFirstMatch(entries: seq<Entry>, name: string, i: int) {
    0 <= i < |entries| && entries[i].key.name == name &&
    forall j :: 0 <= j < i ==> entries[j].key.name != name
  }

  /** Some entry's key is named exactly `name`. */
  ghost predicate HasName(entries: seq<Entry>, name: string) {
    exists i :: 0 <= i < |entries| && entries[i].key.name == name
  }

  /** The registry's answer for `name`: the stats of the first entry with that
      name, or None (Java null). */
  function Lookup(entries: seq<Entry>, name: string): (r: Option<StatsRef>)
    ensures r.Some? ==> exists e :: e in entries && e.key.name == name && e.stats == r.value
  {
    if entries == [] then None
    else if entries[0].key.name == name then Some(entries[0].stats)
    else Lookup(entries[1..], name)
  }

  /** When the first entry named `name` is entry `i`, the lookup yields
      exactly that entry's stats. */
  lemma {:induction false} LookupFirstMatch(entries: seq<Entry>, name: string, i: int)
    requires IsFirstMatch(entries, name, i)
    ensures Lookup(entries, name) == Some(entries[i].stats)
  {
    if i > 0 {
      assert entries[0].key.name != name;
      assert IsFirstMatch(entries[1..], name, i - 1) by {
        forall j | 0 <= j < i - 1 ensures entries[1..][j].key.name != name {
          assert entries[1..][j] == entries[j + 1];
        }
      }
      LookupFirstMatch(entries[1..], name, i - 1);
    }
  }

  /** The lookup finds nothing exactly when no entry carries the name. */
  lemma {:induction false} LookupNone(entries: seq<Entry>, name: string)
    ensures Lookup(entries, name) == None <==> !HasName(entries, name)
  {
    if entries != [] {
      LookupNone(entries[1..], name);
      if entries[0].key.name != name && HasName(entries, name) {
        var i :| 0 <= i < |entries| && entries[i].key.name == name;
        assert entries[1..][i - 1] == entries[i];
      }
    }
  }

  /** Whatever the lookup finds is the stats of the first entry with the name. */
  lemma {:induction false} LookupSound(entries: seq<Entry>, name: string)
    ensures Lookup(entries, name).Some? ==>
      exists i :: IsFirstMatch(entries, name, i) && Lookup(entries, name).value == entries[i].stats
  {
    if entries != [] && entries[0].key.name != name {
      LookupSound(entries[1..], name);
      if Lookup(entries[1..], name).Some? {
        var i :| IsFirstMatch(entries[1..], name, i) && Lookup(entries[1..], name).value == entries[1..][i].stats;
        assert IsFirstMatch(entries, name, i + 1) by {
          forall j | 0 <= j < i + 1 ensures entries[j].key.name != name {
            if j > 0 { assert entries[j] == entries[1..][j - 1]; }
          }
        }
      }
    } else if entries != [] {
      assert IsFirstMatch(entries, name, 0);
    }
  }

  /** MMOParties.GetStatsByName: walk the entries in iteration order and
      return the stats of the first one whose key's name equals `name`;
      null when there is none. Nothing is added or changed. */
  method GetStatsByName(entries: seq<Entry>, name: string) returns (r: Option<StatsRef>)
    ensures r == Lookup(entries, name)
    ensures r.None? <==> !HasName(entries, name)
    ensures forall i :: IsFirstMatch(entries, name, i) ==> r == Some(entries[i].stats)
  {
    var k := 0;
    while k < |entries|
      invariant 0 <= k <= |entries|
      invariant forall j :: 0 <= j < k ==> entries[j].key.name != name
    {
      if entries[k].key.name == name {
        r := Some(entries[k].stats);
        assert IsFirstMatch(entries, name, k);
        LookupFirstMatch(entries, name, k);
        LookupNone(entries, name);
        return;
      }
      k := k + 1;
    }
    r := None;
    LookupNone(entries, name);
  }

  /** MMOParties.GetStats: the lookup by the player's name. */
  method GetStats(entries: seq<Entry>, player: Player) returns (r: Option<StatsRef>)
    ensures r == Lookup(entries, player.name)
    ensures r.None? <==> !HasName(entries, player.name)
  {
    r := GetStatsByName(entries, player.name);
  }

  /** Name matching is exact: a registered "Steve" is not found as "steve". */
  lemma CaseSensitive(s: StatsRef)
    ensures Lookup([Entry(Player(0, "Steve"), s)], "steve") == None
    ensures Lookup([Entry(Player(0, "Steve"), s)], "Steve") == Some(s)
  {
  }

  /** Of two entries with the same name (two entity objects of one player),
      the earlier one in iteration order wins. */
  lemma {:induction false} FirstWins(entries: seq<Entry>, a: Entry, b: Entry)
    requires a.key.name == b.key.name
    requires !HasName(entries, a.key.name)
    ensures Lookup(entries + [a, b], a.key.name) == Some(a.stats)
  {
    assert IsFirstMatch(entries + [a, b], a.key.name, |entries|) by {
      forall j | 0 <= j < |entries| ensures (entries + [a, b])[j].key.name != a.key.name {
        assert (entries + [a, b])[j] == entries[j];
      }
    }
    LookupFirstMatch(entries + [a, b], a.key.name, |entries|);
  }
}
