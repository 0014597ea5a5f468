/** The values that travel through events and snapshots, and their normal form. */
module Json {

  /** A dictionary entry; a key that is not text is kept as the text it prints as. */
  datatype Entry = Entry(key: string, textKey: bool, value: Value)

  /** A Python value as the projection sees it: plain data, a model object that dumps to plain
      data, or anything else, of which only the printed text is used. */
  datatype Value =
    | Null
    | Bool(flag: bool)
    | Num(number: int)
    | Text(text: string)
    | List(items: seq<Value>)
    | Dict(entries: seq<Entry>)
    | Model(dump: Value)
    | Other(printed: string)

  // ----- Normal form -----

  /** Assigning a key of a dictionary keeps the place of a key that is already there. */
  function Assign(entries: seq<Entry>, key: string, value: Value): seq<Entry> {
    if entries == [] then [Entry(key, true, value)]
    else if entries[0].key == key then [Entry(key, true, value)] + entries[1..]
    else [entries[0]] + Assign(entries[1..], key, value)
  }

  function Safe(v: Value): Value
    decreases v, 0
  {
    match v
    case Null => v
    case Bool(_) => v
    case Num(_) => v
    case Text(_) => v
    case List(items) => List(SafeItems(items))
    case Dict(entries) => Dict(SafeEntries(entries))
    case Model(dump) => Safe(dump)
    case Other(printed) => Text(printed)
  }

  function SafeItems(items: seq<Value>): (r: seq<Value>)
    ensures |r| == |items|
    decreases items, 0
  {
    if items == [] then [] else [Safe(items[0])] + SafeItems(items[1..])
  }

  /** Entries are assigned one after the other, so the last of two keys that print alike wins. */
  function SafeEntries(entries: seq<Entry>): seq<Entry>
    decreases entries, 0
  {
    if entries == [] then []
    else
      var last := entries[|entries| - 1];
      Assign(SafeEntries(entries[..|entries| - 1]), last.key, Safe(last.value))
  }

  // ----- Which values are in normal form -----

  predicate DistinctKeys(entries: seq<Entry>) {
    forall i, j :: 0 <= i < j < |entries| ==> entries[i].key != entries[j].key
  }

  predicate IsSafe(v: Value) {
    match v
    case List(items) => forall i :: 0 <= i < |items| ==> IsSafe(items[i])
    case Dict(entries) => DistinctKeys(entries)
      && forall i :: 0 <= i < |entries| ==> entries[i].textKey && IsSafe(entries[i].value)
    case Model(_) => false
    case Other(_) => false
    case _ => true
  }

  predicate SafeFields(entries: seq<Entry>) {
    DistinctKeys(entries) && forall i :: 0 <= i < |entries| ==> entries[i].textKey && IsSafe(entries[i].value)
  }

  lemma {:induction false} AssignKeepsSafe(entries: seq<Entry>, key: string, value: Value)
    requires SafeFields(entries) && IsSafe(value)
    ensures SafeFields(Assign(entries, key, value))
    ensures forall i :: 0 <= i < |Assign(entries, key, value)| ==>
      Assign(entries, key, value)[i].key == key || exists j :: 0 <= j < |entries| && entries[j].key == Assign(entries, key, value)[i].key
  {
    if entries != [] && entries[0].key != key {
      AssignKeepsSafe(entries[1..], key, value);
      var rest := Assign(entries[1..], key, value);
      forall i | 0 <= i < |rest|
        ensures rest[i].key != entries[0].key
        ensures rest[i].key == key || exists j :: 0 <= j < |entries| && entries[j].key == rest[i].key
      {
        if rest[i].key != key {
          var j :| 0 <= j < |entries[1..]| && entries[1..][j].key == rest[i].key;
          assert entries[j + 1].key == rest[i].key;
        }
      }
    }
  }

  /** Normalising always reaches the normal form. */
  lemma {:induction false} SafeIsSafe(v: Value)
    ensures IsSafe(Safe(v))
    decreases v, 0
  {
    match v
    case List(items) => SafeItemsAreSafe(items);
    case Dict(entries) => SafeEntriesAreSafe(entries);
    case Model(dump) => SafeIsSafe(dump);
    case _ =>
  }

  lemma {:induction false} SafeItemsAreSafe(items: seq<Value>)
    ensures forall i :: 0 <= i < |items| ==> IsSafe(SafeItems(items)[i])
    decreases items, 0
  {
    if items != [] {
      SafeIsSafe(items[0]);
      SafeItemsAreSafe(items[1..]);
    }
  }

  lemma {:induction false} SafeEntriesAreSafe(entries: seq<Entry>)
    ensures SafeFields(SafeEntries(entries))
    decreases entries, 0
  {
    if entries != [] {
      var last := entries[|entries| - 1];
      SafeEntriesAreSafe(entries[..|entries| - 1]);
      SafeIsSafe(last.value);
      AssignKeepsSafe(SafeEntries(entries[..|entries| - 1]), last.key, Safe(last.value));
    }
  }

  /** Normalising changes nothing that is already in normal form, so doing it twice is doing it
      once. */
  lemma {:induction false} SafeIsIdentityOnSafe(v: Value)
    requires IsSafe(v)
    ensures Safe(v) == v
    decreases v, 0
  {
    match v
    case List(items) => SafeItemsIdentity(items);
    case Dict(entries) => SafeEntriesIdentity(entries);
    case _ =>
  }

  lemma {:induction false} SafeItemsIdentity(items: seq<Value>)
    requires forall i :: 0 <= i < |items| ==> IsSafe(items[i])
    ensures SafeItems(items) == items
    decreases items, 0
  {
    if items != [] {
      SafeIsIdentityOnSafe(items[0]);
      SafeItemsIdentity(items[1..]);
    }
  }

  lemma {:induction false} SafeEntriesIdentity(entries: seq<Entry>)
    requires SafeFields(entries)
    ensures SafeEntries(entries) == entries
    decreases entries, 0
  {
    if entries != [] {
      var init, last := entries[..|entries| - 1], entries[|entries| - 1];
      SafeEntriesIdentity(init);
      SafeIsIdentityOnSafe(last.value);
      AssignNewKey(init, last.key, last.value);
    }
  }

  lemma {:induction false} AssignNewKey(entries: seq<Entry>, key: string, value: Value)
    requires forall i :: 0 <= i < |entries| ==> entries[i].key != key
    ensures Assign(entries, key, value) == entries + [Entry(key, true, value)]
  {
    if entries != [] {
      AssignNewKey(entries[1..], key, value);
    }
  }

  // ----- Reading -----

  /** The value under a key, or Null when there is none. */
  function Get(entries: seq<Entry>, key: string): Value {
    if entries == [] then Null
    else if entries[0].key == key then entries[0].value
    else Get(entries[1..], key)
  }

  predicate HasKey(entries: seq<Entry>, key: string) {
    exists i :: 0 <= i < |entries| && entries[i].key == key
  }

  lemma {:induction false} GetAt(entries: seq<Entry>, i: nat)
    requires i < |entries| && DistinctKeys(entries)
    ensures Get(entries, entries[i].key) == entries[i].value
  {
    if i > 0 {
      GetAt(entries[1..], i - 1);
    }
  }

  lemma {:induction false} GetAssign(entries: seq<Entry>, key: string, value: Value, other: string)
    ensures Get(Assign(entries, key, value), other) == if other == key then value else Get(entries, other)
  {
    if entries != [] && entries[0].key != key {
      GetAssign(entries[1..], key, value, other);
    }
  }
}
