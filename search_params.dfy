/**
 * The part of the browser's URLSearchParams the list pages use to build
 * their API queries: an ordered list of name/value pairs, `set` and `get`.
 */
module SearchParams {
  import opened Wrappers

  type Entries = seq<(string, string)>

  predicate HasName(entries: Entries, name: string) {
    exists i :: 0 <= i < |entries| && entries[i].0 == name
  }

  /** `get(name)`: the value of the first pair with that name. */
  function Get(entries: Entries, name: string): (r: Option<string>)
    ensures r.None? <==> !HasName(entries, name)
    ensures r.Some? ==> exists i :: 0 <= i < |entries| && entries[i] == (name, r.value)
  {
    if entries == [] then None
    else if entries[0].0 == name then Some(entries[0].1)
    else
      var r := Get(entries[1..], name);
      assert HasName(entries, name) ==> HasName(entries[1..], name) by {
        if HasName(entries, name) && entries[0].0 != name {
          var i :| 0 <= i < |entries| && entries[i].0 == name;
          assert entries[1..][i - 1].0 == name;
        }
      }
      assert r.Some? ==> exists i :: 0 <= i < |entries| && entries[i] == (name, r.value) by {
        if r.Some? {
          var i :| 0 <= i < |entries[1..]| && entries[1..][i] == (name, r.value);
          assert entries[i + 1] == (name, r.value);
        }
      }
      r
  }

  /** Every pair with another name, in order. */
  function RemoveAll(entries: Entries, name: string): (r: Entries)
    ensures !HasName(r, name)
    ensures forall p :: p in r <==> p in entries && p.0 != name
  {
    if entries == [] then []
    else if entries[0].0 == name then RemoveAll(entries[1..], name)
    else [entries[0]] + RemoveAll(entries[1..], name)
  }

  /** The first pair with that name gets the new value and later ones are dropped. */
  function ReplaceFirst(entries: Entries, name: string, value: string): Entries {
    if entries == [] then []
    else if entries[0].0 == name then [(name, value)] + RemoveAll(entries[1..], name)
    else [entries[0]] + ReplaceFirst(entries[1..], name, value)
  }

  /** `set(name, value)`: replace the first pair with that name and drop the rest, or append. */
  function SetEntry(entries: Entries, name: string, value: string): Entries {
    if HasName(entries, name) then ReplaceFirst(entries, name, value) else entries + [(name, value)]
  }

  lemma {:induction false} GetRemoveAll(entries: Entries, name: string, other: string)
    requires other != name
    ensures Get(RemoveAll(entries, name), other) == Get(entries, other)
  {
    if entries != [] {
      GetRemoveAll(entries[1..], name, other);
    }
  }

  lemma {:induction false} GetReplaceFirst(entries: Entries, name: string, value: string, other: string)
    requires HasName(entries, name)
    ensures Get(ReplaceFirst(entries, name, value), other) == if other == name then Some(value) else Get(entries, other)
  {
    if entries[0].0 == name {
      if other != name {
        GetRemoveAll(entries[1..], name, other);
      }
    } else {
      var i :| 0 <= i < |entries| && entries[i].0 == name;
      assert entries[1..][i - 1].0 == name;
      GetReplaceFirst(entries[1..], name, value, other);
    }
  }

  lemma {:induction false} GetAppend(entries: Entries, name: string, value: string, other: string)
    requires !HasName(entries, name)
    ensures Get(entries + [(name, value)], other) == if other == name then Some(value) else Get(entries, other)
  {
    if entries == [] {
    } else {
      assert (entries + [(name, value)])[1..] == entries[1..] + [(name, value)];
      GetAppend(entries[1..], name, value, other);
    }
  }

  /** After `set(name, value)`, `get(name)` is the new value and every other name reads as before. */
  lemma GetAfterSet(entries: Entries, name: string, value: string, other: string)
    ensures Get(SetEntry(entries, name, value), other) == if other == name then Some(value) else Get(entries, other)
  {
    if HasName(entries, name) {
      GetReplaceFirst(entries, name, value, other);
    } else {
      GetAppend(entries, name, value, other);
    }
  }

  /** A parameter the query carries only when its value is non-empty (truthy). */
  function OptionalParam(name: string, value: string): Entries {
    if value != "" then [(name, value)] else []
  }

  /**
   * Reading back a query with two optional pairs: each name is present
   * exactly when its value is non-empty, and every other name reads as in
   * the base pairs.
   */
  lemma GetOptionalParams(base: Entries, name1: string, value1: string, name2: string, value2: string, other: string)
    requires name1 != name2
    requires !HasName(base, name1) && !HasName(base, name2)
    ensures Get(base + OptionalParam(name1, value1) + OptionalParam(name2, value2), other) ==
            if other == name1 then (if value1 != "" then Some(value1) else None)
            else if other == name2 then (if value2 != "" then Some(value2) else None)
            else Get(base, other)
  {
    var e1 := base + OptionalParam(name1, value1);
    if value1 != "" {
      GetAppend(base, name1, value1, other);
      GetAppend(base, name1, value1, name2);
    } else {
      assert e1 == base;
    }
    assert Get(e1, name2) == None;
    if value2 != "" {
      GetAppend(e1, name2, value2, other);
    } else {
      assert e1 + OptionalParam(name2, value2) == e1;
    }
  }

  /** Setting a name that is not there yet appends the pair. */
  lemma SetNewName(entries: Entries, name: string, value: string)
    requires forall i :: 0 <= i < |entries| ==> entries[i].0 != name
    ensures SetEntry(entries, name, value) == entries + [(name, value)]
  {
  }

  /** Two `set` calls with distinct names the query does not hold yet append both pairs in order. */
  lemma SetTwoNewNames(entries: Entries, name1: string, value1: string, name2: string, value2: string)
    requires name1 != name2
    requires forall i :: 0 <= i < |entries| ==> entries[i].0 != name1 && entries[i].0 != name2
    ensures SetEntry(SetEntry(entries, name1, value1), name2, value2) == entries + [(name1, value1), (name2, value2)]
  {
    var e1 := entries + [(name1, value1)];
    SetNewName(entries, name1, value1);
    assert forall i :: 0 <= i < |e1| ==> e1[i].0 != name2;
    SetNewName(e1, name2, value2);
  }

  /** `if (value) set(name, value)` on a query that does not hold the name yet. */
  lemma SetIfPresent(entries: Entries, name: string, value: string)
    requires forall i :: 0 <= i < |entries| ==> entries[i].0 != name
    ensures (if value != "" then SetEntry(entries, name, value) else entries) == entries + OptionalParam(name, value)
  {
  }

  /** Two `if (value) set(name, value)` in a row, on names the query does not hold yet. */
  lemma SetTwoIfPresent(entries: Entries, name1: string, value1: string, name2: string, value2: string)
    requires name1 != name2
    requires forall i :: 0 <= i < |entries| ==> entries[i].0 != name1 && entries[i].0 != name2
    ensures var e := if value1 != "" then SetEntry(entries, name1, value1) else entries;
            (if value2 != "" then SetEntry(e, name2, value2) else e)
            == entries + OptionalParam(name1, value1) + OptionalParam(name2, value2)
  {
    SetIfPresent(entries, name1, value1);
    SetIfPresent(entries + OptionalParam(name1, value1), name2, value2);
  }

  /** A URLSearchParams object. */
  class Query {
    var entries: Entries

    constructor()
      ensures entries == []
    {
      entries := [];
    }

    method Set(name: string, value: string)
      modifies this
      ensures entries == SetEntry(old(entries), name, value)
    {
      entries := SetEntry(entries, name, value);
    }
  }
}
