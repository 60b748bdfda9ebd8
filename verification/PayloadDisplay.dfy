/** The payload view of the dashboard: a recursive rewrite of a JSON value that
    hides the values of identifier keys. */
module PayloadDisplay {

  // An object lists its entries in enumeration order.
  datatype Json =
    | Null | Bool(b: bool) | Number(n: real) | Text(s: string)
    | Array(items: seq<Json>)
    | Object(fields: seq<Field>)

  datatype Field = Field(key: string, value: Json)

  predicate EndsWith(s: string, suffix: string) { |suffix| <= |s| && s[|s| - |suffix|..] == suffix }

  function ReplaceSuffix(s: string, suffix: string, replacement: string): string {
    if EndsWith(s, suffix) then s[..|s| - |suffix|] + replacement else s
  }

  predicate IsIdentifier(key: string) { key == "id" || EndsWith(key, "_id") || EndsWith(key, "Id") }

  function DisplayKey(key: string): string {
    if key == "id" then "name" else ReplaceSuffix(ReplaceSuffix(key, "_id", ""), "Id", "Name")
  }

  /** A later entry of an existing key replaces the value and keeps the place. */
  function Put(fields: seq<Field>, f: Field): seq<Field> {
    if fields == [] then [f]
    else if fields[0].key == f.key then [f] + fields[1..]
    else [fields[0]] + Put(fields[1..], f)
  }

  function FromEntries(entries: seq<Field>): seq<Field> {
    if entries == [] then [] else Put(FromEntries(entries[..|entries| - 1]), entries[|entries| - 1])
  }

  function Display(v: Json): Json
    decreases v
  {
    match v
    case Array(items) => Array(seq(|items|, i requires 0 <= i < |items| => Display(items[i])))
    case Object(fields) => Object(FromEntries(seq(|fields|, i requires 0 <= i < |fields| => DisplayField(fields[i]))))
    case _ => v
  }

  function DisplayField(f: Field): Field
    decreases f
  {
    Field(DisplayKey(f.key), if IsIdentifier(f.key) then Text("Name unavailable") else Display(f.value))
  }

  // ------------------------------------------------------------------ keys

  lemma EndsWithIff(s: string, suffix: string)
    ensures EndsWith(s, suffix) <==> exists rest :: s == rest + suffix
  {
    if EndsWith(s, suffix) { assert s == s[..|s| - |suffix|] + suffix; }
    if rest :| s == rest + suffix { assert s[|rest|..] == suffix; }
  }

  /** Identifier keys by their spelling. */
  lemma IdentifierKeys(key: string)
    ensures IsIdentifier(key) <==> key == "id" || (exists rest :: key == rest + "_id") || (exists rest :: key == rest + "Id")
  {
    EndsWithIff(key, "_id");
    EndsWithIff(key, "Id");
  }

  /** The name a key is shown under, by its spelling. */
  lemma ShownKeys(key: string, rest: string)
    ensures DisplayKey("id") == "name"
    ensures key == rest + "Id" ==> DisplayKey(key) == rest + "Name"
    ensures key == rest + "_id" && !EndsWith(rest, "Id") ==> DisplayKey(key) == rest
    ensures key == (rest + "Id") + "_id" ==> DisplayKey(key) == rest + "Name"
    ensures DisplayKey(key) == key <==> !IsIdentifier(key)
  {
    ReplacedSuffix(key, "_id", "", rest);
    ReplacedSuffix(key, "Id", "Name", rest);
    assert EndsWith(key, "_id") || key == "id" ==> key[|key| - 2] == 'i';
    assert key == rest + "Id" ==> key[|key| - 2] == 'I';
    if key == (rest + "Id") + "_id" {
      ReplacedSuffix(key, "_id", "", rest + "Id");
      ReplacedSuffix(rest + "Id", "Id", "Name", rest);
    }
    KeyChangesIff(key);
  }

  lemma ReplacedSuffix(s: string, suffix: string, replacement: string, rest: string)
    ensures s == rest + suffix ==> ReplaceSuffix(s, suffix, replacement) == rest + replacement
    ensures !EndsWith(s, suffix) ==> ReplaceSuffix(s, suffix, replacement) == s
  {
    if s == rest + suffix { assert s[|rest|..] == suffix && s[..|rest|] == rest; }
  }

  lemma KeyChangesIff(key: string)
    ensures DisplayKey(key) == key <==> !IsIdentifier(key)
  {
    var cut := ReplaceSuffix(key, "_id", "");
    if EndsWith(key, "_id") {
      assert |cut| == |key| - 3;
      assert |ReplaceSuffix(cut, "Id", "Name")| <= |cut| + 2;
    } else if EndsWith(key, "Id") {
      assert |ReplaceSuffix(key, "Id", "Name")| == |key| + 2;
    }
  }

  // ------------------------------------------------- entries of one object

  ghost predicate SameKeySeq(es: seq<Field>, gs: seq<Field>) {
    |es| == |gs| && forall i :: 0 <= i < |es| ==> es[i].key == gs[i].key
  }

  ghost predicate DistinctKeys(fields: seq<Field>) {
    forall i, j :: 0 <= i < j < |fields| ==> fields[i].key != fields[j].key
  }

  ghost predicate HasKey(fields: seq<Field>, key: string) { exists i :: 0 <= i < |fields| && fields[i].key == key }

  /** A later entry has the same key. */
  ghost predicate Replaced(es: seq<Field>, i: nat)
    requires i < |es|
  {
    exists j :: i < j < |es| && es[j].key == es[i].key
  }

  lemma {:induction false} PutKeys(fields: seq<Field>, f: Field)
    ensures DistinctKeys(fields) ==> DistinctKeys(Put(fields, f))
    ensures forall k :: HasKey(Put(fields, f), k) <==> HasKey(fields, k) || k == f.key
    ensures |Put(fields, f)| == |fields| + (if HasKey(fields, f.key) then 0 else 1)
    ensures f in Put(fields, f)
    ensures forall g :: g in fields && g.key != f.key ==> g in Put(fields, f)
  {
    if fields == [] {
      assert [f][0] == f;
    } else {
      var rest := fields[1..];
      assert fields == [fields[0]] + rest;
      HasKeyCons(fields[0], rest);
      if fields[0].key == f.key {
        HasKeyCons(f, rest);
      } else {
        PutKeys(rest, f);
        HasKeyCons(fields[0], Put(rest, f));
        DistinctCons(fields[0], rest);
        DistinctCons(fields[0], Put(rest, f));
      }
    }
  }

  lemma HasKeyCons(f: Field, rest: seq<Field>)
    ensures forall k :: HasKey([f] + rest, k) <==> f.key == k || HasKey(rest, k)
  {
    forall k ensures HasKey([f] + rest, k) <==> f.key == k || HasKey(rest, k) {
      if i :| 0 <= i < |rest| && rest[i].key == k { assert ([f] + rest)[i + 1].key == k; }
      if f.key == k { assert ([f] + rest)[0].key == k; }
    }
  }

  lemma DistinctCons(f: Field, rest: seq<Field>)
    ensures DistinctKeys([f] + rest) <==> DistinctKeys(rest) && !HasKey(rest, f.key)
  {
    var all := [f] + rest;
    if DistinctKeys(all) {
      forall i | 0 <= i < |rest| ensures rest[i].key != f.key { assert all[i + 1] == rest[i] && all[0] == f; }
      forall i, j | 0 <= i < j < |rest| ensures rest[i].key != rest[j].key {
        assert all[i + 1] == rest[i] && all[j + 1] == rest[j];
      }
    }
  }

  /** The entries as an object: distinct keys, those of the entries, and for each
      the value of its last entry. */
  lemma {:induction false} EntriesBecomeObject(es: seq<Field>)
    ensures DistinctKeys(FromEntries(es))
    ensures forall k :: HasKey(FromEntries(es), k) <==> HasKey(es, k)
    ensures forall i :: 0 <= i < |es| && !Replaced(es, i) ==> es[i] in FromEntries(es)
    decreases |es|
  {
    hide Put, HasKey, DistinctKeys, Replaced;
    if es != [] {
      var n := |es| - 1;
      var most := es[..n];
      EntriesBecomeObject(most);
      PutKeys(FromEntries(most), es[n]);
      KeysOfAll(es);
      forall i | 0 <= i < |es| && !Replaced(es, i) ensures es[i] in FromEntries(es) {
        if i < n { LastStaysLast(es, i); }
      }
    } else {
      NoKeys();
    }
  }

  lemma NoKeys()
    ensures DistinctKeys([]) && forall k :: !HasKey([], k)
  {
  }

  lemma LastStaysLast(es: seq<Field>, i: nat)
    requires i < |es| - 1 && !Replaced(es, i)
    ensures !Replaced(es[..|es| - 1], i) && es[|es| - 1].key != es[i].key
  {
  }

  lemma KeysOfAll(es: seq<Field>)
    requires es != []
    ensures forall k :: HasKey(es, k) <==> HasKey(es[..|es| - 1], k) || k == es[|es| - 1].key
  {
    var most := es[..|es| - 1];
    forall k | HasKey(most, k) ensures HasKey(es, k) {
      var i :| 0 <= i < |most| && most[i].key == k;
      assert es[i].key == k;
    }
    forall k | HasKey(es, k) && k != es[|es| - 1].key ensures HasKey(most, k) {
      var i :| 0 <= i < |es| && es[i].key == k;
      assert most[i].key == k;
    }
  }

  lemma {:induction false} SizeOfObject(es: seq<Field>)
    ensures |FromEntries(es)| <= |es|
    ensures |FromEntries(es)| == |es| <==> DistinctKeys(es)
    decreases |es|
  {
    hide Put, HasKey, DistinctKeys;
    if es != [] {
      var most := es[..|es| - 1];
      SizeOfObject(most);
      EntriesBecomeObject(most);
      PutKeys(FromEntries(most), es[|es| - 1]);
      DistinctSnoc(es);
    } else {
      NoKeys();
    }
  }

  lemma DistinctSnoc(es: seq<Field>)
    requires es != []
    ensures DistinctKeys(es) <==> DistinctKeys(es[..|es| - 1]) && !HasKey(es[..|es| - 1], es[|es| - 1].key)
  {
    var most := es[..|es| - 1];
    assert forall i :: 0 <= i < |most| ==> most[i] == es[i];
  }

  lemma {:induction false} PutKeepsOrder(fields: seq<Field>, gs: seq<Field>, f: Field, g: Field)
    requires SameKeySeq(fields, gs) && f.key == g.key
    ensures SameKeySeq(Put(fields, f), Put(gs, g))
  {
    if fields != [] && fields[0].key != f.key {
      PutKeepsOrder(fields[1..], gs[1..], f, g);
    }
  }

  /** Which keys an object shows, and where, depends on the keys alone. */
  lemma {:induction false} KeysDecideOrder(es: seq<Field>, gs: seq<Field>)
    requires SameKeySeq(es, gs)
    ensures SameKeySeq(FromEntries(es), FromEntries(gs))
    decreases |es|
  {
    if es != [] {
      var n := |es| - 1;
      KeysDecideOrder(es[..n], gs[..n]);
      PutKeepsOrder(FromEntries(es[..n]), FromEntries(gs[..n]), es[n], gs[n]);
    }
  }

  lemma {:induction false} LastEntry(es: seq<Field>, key: string) returns (i: nat)
    requires HasKey(es, key)
    ensures i < |es| && es[i].key == key && !Replaced(es, i)
    decreases |es|
  {
    var n := |es| - 1;
    if es[n].key == key {
      i := n;
    } else {
      KeysOfAll(es);
      i := LastEntry(es[..n], key);
      forall j | i < j < |es| ensures es[j].key != key {
        if j < n { assert es[..n][j] == es[j]; }
      }
    }
  }

  lemma OneFieldPerKey(fields: seq<Field>, f: Field, g: Field)
    requires DistinctKeys(fields) && f in fields && g in fields && f.key == g.key
    ensures f == g
  {
  }

  /** Two objects from entries with the same keys are equal exactly when the last
      entries of every key agree. */
  lemma SameObjectIff(es: seq<Field>, gs: seq<Field>)
    requires SameKeySeq(es, gs)
    ensures FromEntries(es) == FromEntries(gs) <==> forall i :: 0 <= i < |es| && !Replaced(es, i) ==> es[i] == gs[i]
  {
    var a, b := FromEntries(es), FromEntries(gs);
    EntriesBecomeObject(es);
    EntriesBecomeObject(gs);
    KeysDecideOrder(es, gs);
    assert forall i :: 0 <= i < |es| ==> (Replaced(es, i) <==> Replaced(gs, i));
    if a == b {
      forall i | 0 <= i < |es| && !Replaced(es, i) ensures es[i] == gs[i] { OneFieldPerKey(a, es[i], gs[i]); }
    } else if forall i :: 0 <= i < |es| && !Replaced(es, i) ==> es[i] == gs[i] {
      forall k | 0 <= k < |a| ensures a[k] == b[k] {
        assert HasKey(a, a[k].key);
        var i := LastEntry(es, a[k].key);
        OneFieldPerKey(a, a[k], es[i]);
        OneFieldPerKey(b, b[k], gs[i]);
      }
    }
  }

  // --------------------------------------------------------- what is shown

  function Shown(fields: seq<Field>): seq<Field> {
    seq(|fields|, i requires 0 <= i < |fields| => DisplayField(fields[i]))
  }

  /** A later field is shown under the same name. */
  ghost predicate Overridden(fields: seq<Field>, i: nat)
    requires i < |fields|
  {
    exists j :: i < j < |fields| && DisplayKey(fields[j].key) == DisplayKey(fields[i].key)
  }

  ghost predicate Visible(fields: seq<Field>, i: nat)
    requires i < |fields|
  {
    !IsIdentifier(fields[i].key) && !Overridden(fields, i)
  }

  lemma OverriddenIsReplaced(fields: seq<Field>, i: nat)
    requires i < |fields|
    ensures Replaced(Shown(fields), i) <==> Overridden(fields, i)
  {
    var es := Shown(fields);
    if j :| i < j < |fields| && DisplayKey(fields[j].key) == DisplayKey(fields[i].key) {
      assert es[j].key == es[i].key;
    }
  }

  lemma ObjectIsShown(fields: seq<Field>)
    ensures Display(Object(fields)) == Object(FromEntries(Shown(fields)))
  {
  }

  /** Two objects with the same keys look the same exactly when every visible
      field does. */
  lemma ObjectsLookSameIff(fields: seq<Field>, others: seq<Field>)
    requires SameKeySeq(fields, others)
    ensures Display(Object(fields)) == Display(Object(others))
       <==> forall i :: 0 <= i < |fields| && Visible(fields, i) ==> Display(fields[i].value) == Display(others[i].value)
  {
    var es, gs := Shown(fields), Shown(others);
    ObjectIsShown(fields);
    ObjectIsShown(others);
    SameObjectIff(es, gs);
    forall i | 0 <= i < |fields| ensures Replaced(es, i) <==> Overridden(fields, i) { OverriddenIsReplaced(fields, i); }
    forall i | 0 <= i < |fields|
      ensures es[i] == gs[i] <==> IsIdentifier(fields[i].key) || Display(fields[i].value) == Display(others[i].value)
    {
      assert es[i] == DisplayField(fields[i]) && gs[i] == DisplayField(others[i]);
    }
    if forall i :: 0 <= i < |es| && !Replaced(es, i) ==> es[i] == gs[i] {
      forall i | 0 <= i < |fields| && Visible(fields, i) ensures Display(fields[i].value) == Display(others[i].value) {
        assert !Replaced(es, i);
      }
    }
  }

  /** Every value but an object or an array is shown as it is. */
  lemma LeavesAreShown(v: Json)
    requires !v.Array? && !v.Object?
    ensures Display(v) == v
  {
  }

  /** An array is shown item by item. */
  lemma ArraysAreShown(items: seq<Json>)
    ensures Display(Array(items)).Array? && |Display(Array(items)).items| == |items|
    ensures forall i :: 0 <= i < |items| ==> Display(Array(items)).items[i] == Display(items[i])
  {
  }

  /** The fields of the view of an object: one per shown key, each from the last field
      shown under it. */
  lemma ObjectsAreShown(fields: seq<Field>, i: nat)
    requires i < |fields| && !Overridden(fields, i)
    ensures Display(Object(fields)).Object? && DistinctKeys(Display(Object(fields)).fields)
    ensures Field(DisplayKey(fields[i].key), if IsIdentifier(fields[i].key) then Text("Name unavailable") else Display(fields[i].value))
      in Display(Object(fields)).fields
    ensures forall key :: HasKey(Display(Object(fields)).fields, key) <==> exists j :: 0 <= j < |fields| && DisplayKey(fields[j].key) == key
  {
    var es := Shown(fields);
    ObjectIsShown(fields);
    EntriesBecomeObject(es);
    OverriddenIsReplaced(fields, i);
    assert es[i] == DisplayField(fields[i]);
    forall key ensures HasKey(es, key) <==> exists j :: 0 <= j < |fields| && DisplayKey(fields[j].key) == key {
      if j :| 0 <= j < |fields| && DisplayKey(fields[j].key) == key { assert es[j].key == key; }
    }
  }

  /** The place of the first field shown under a name. */
  function FirstShown(fields: seq<Field>, name: string): nat {
    if fields == [] || DisplayKey(fields[0].key) == name then 0 else 1 + FirstShown(fields[1..], name)
  }

  function FirstEntry(es: seq<Field>, key: string): nat {
    if es == [] || es[0].key == key then 0 else 1 + FirstEntry(es[1..], key)
  }

  lemma {:induction false} FirstEntryIs(es: seq<Field>, key: string)
    ensures FirstEntry(es, key) <= |es|
    ensures HasKey(es, key) <==> FirstEntry(es, key) < |es|
    ensures FirstEntry(es, key) < |es| ==> es[FirstEntry(es, key)].key == key
    ensures forall k :: 0 <= k < FirstEntry(es, key) ==> es[k].key != key
  {
    if es != [] {
      FirstEntryIs(es[1..], key);
      assert es == [es[0]] + es[1..];
      HasKeyCons(es[0], es[1..]);
    }
  }

  lemma FirstEntryInPrefix(es: seq<Field>, key: string)
    requires es != []
    ensures HasKey(es[..|es| - 1], key) ==> FirstEntry(es, key) == FirstEntry(es[..|es| - 1], key)
    ensures !HasKey(es[..|es| - 1], key) && es[|es| - 1].key == key ==> FirstEntry(es, key) == |es| - 1
  {
    var most := es[..|es| - 1];
    FirstEntryIs(es, key);
    FirstEntryIs(most, key);
    KeysOfAll(es);
    assert forall k :: 0 <= k < |most| ==> most[k] == es[k];
    assert HasKey(most, key) <==> exists k :: 0 <= k < |most| && es[k].key == key;
  }

  /** The keys of the result come in the order of their first entries. */
  ghost predicate InEntryOrder(es: seq<Field>, fields: seq<Field>) {
    forall i, j :: 0 <= i < j < |fields| ==> FirstEntry(es, fields[i].key) < FirstEntry(es, fields[j].key)
  }

  lemma {:induction false} PutPlaces(fields: seq<Field>, f: Field)
    ensures HasKey(fields, f.key) ==> |Put(fields, f)| == |fields| && forall i :: 0 <= i < |fields| ==> Put(fields, f)[i].key == fields[i].key
    ensures !HasKey(fields, f.key) ==> Put(fields, f) == fields + [f]
  {
    if fields != [] {
      assert fields == [fields[0]] + fields[1..];
      HasKeyCons(fields[0], fields[1..]);
      PutPlaces(fields[1..], f);
    }
  }

  /** A further entry does not disturb the order of the keys so far. */
  lemma OrderStays(es: seq<Field>, fields: seq<Field>)
    requires es != [] && InEntryOrder(es[..|es| - 1], fields)
    requires forall k :: HasKey(fields, k) <==> HasKey(es[..|es| - 1], k)
    ensures InEntryOrder(es, fields)
    ensures forall i :: 0 <= i < |fields| ==> FirstEntry(es, fields[i].key) < |es| - 1
  {
    hide FirstEntry;
    var most := es[..|es| - 1];
    forall i | 0 <= i < |fields|
      ensures FirstEntry(es, fields[i].key) == FirstEntry(most, fields[i].key) < |es| - 1
    {
      assert HasKey(fields, fields[i].key);
      FirstEntryInPrefix(es, fields[i].key);
      FirstEntryIs(most, fields[i].key);
    }
  }

  lemma SameKeysSameOrder(es: seq<Field>, fields: seq<Field>, others: seq<Field>)
    requires InEntryOrder(es, fields) && SameKeySeq(fields, others)
    ensures InEntryOrder(es, others)
  {
  }

  lemma NewKeyComesLast(es: seq<Field>, fields: seq<Field>, f: Field)
    requires InEntryOrder(es, fields) && forall i :: 0 <= i < |fields| ==> FirstEntry(es, fields[i].key) < FirstEntry(es, f.key)
    ensures InEntryOrder(es, fields + [f])
  {
  }

  lemma {:induction false} EntryOrderIsKept(es: seq<Field>)
    ensures InEntryOrder(es, FromEntries(es))
    decreases |es|
  {
    hide Put, FirstEntry, InEntryOrder, HasKey;
    if es == [] {
      NothingToOrder();
    } else {
      var last, most := es[|es| - 1], es[..|es| - 1];
      var before := FromEntries(most);
      EntryOrderIsKept(most);
      EntriesBecomeObject(most);
      OrderStays(es, before);
      PutPlaces(before, last);
      if HasKey(most, last.key) {
        SameKeysSameOrder(es, before, Put(before, last));
      } else {
        FirstEntryInPrefix(es, last.key);
        NewKeyComesLast(es, before, last);
      }
    }
  }

  lemma NothingToOrder()
    ensures InEntryOrder([], FromEntries([]))
  {
  }

  lemma {:induction false} FirstShownIsFirstEntry(fields: seq<Field>, name: string)
    ensures FirstShown(fields, name) == FirstEntry(Shown(fields), name)
  {
    if fields != [] {
      assert Shown(fields)[0] == DisplayField(fields[0]) && Shown(fields)[1..] == Shown(fields[1..]);
      FirstShownIsFirstEntry(fields[1..], name);
    }
  }

  /** The view lists its fields in the order in which their names first occur. */
  lemma OrderIsShown(fields: seq<Field>, i: nat, j: nat)
    requires i < j < |Display(Object(fields)).fields|
    ensures FirstShown(fields, Display(Object(fields)).fields[i].key) < FirstShown(fields, Display(Object(fields)).fields[j].key)
  {
    ObjectIsShown(fields);
    EntryOrderIsKept(Shown(fields));
    FirstShownIsFirstEntry(fields, Display(Object(fields)).fields[i].key);
    FirstShownIsFirstEntry(fields, Display(Object(fields)).fields[j].key);
  }

  /** No identifier at any depth, and every object has each key once, as JSON objects do. */
  ghost predicate Plain(v: Json)
    decreases v
  {
    match v
    case Array(items) => forall i :: 0 <= i < |items| ==> Plain(items[i])
    case Object(fields) =>
      DistinctKeys(fields) && forall i :: 0 <= i < |fields| ==> !IsIdentifier(fields[i].key) && Plain(fields[i].value)
    case _ => true
  }

  lemma {:induction false} DistinctEntriesStay(es: seq<Field>)
    requires DistinctKeys(es)
    ensures FromEntries(es) == es
    decreases |es|
  {
    if es != [] {
      var n := |es| - 1;
      DistinctSnoc(es);
      DistinctEntriesStay(es[..n]);
      PutPlaces(es[..n], es[n]);
      assert es == es[..n] + [es[n]];
    }
  }

  /** A value without identifiers is shown as it is. */
  lemma {:induction false} PlainIsShown(v: Json)
    requires Plain(v)
    ensures Display(v) == v
    decreases v
  {
    match v
    case Array(items) =>
      forall i | 0 <= i < |items| ensures Display(items[i]) == items[i] { PlainIsShown(items[i]); }
      ArraysAreShown(items);
      assert Display(v).items == items;
    case Object(fields) =>
      forall i | 0 <= i < |fields| ensures Shown(fields)[i] == fields[i] {
        PlainIsShown(fields[i].value);
        KeyChangesIff(fields[i].key);
      }
      ObjectIsShown(fields);
      assert Shown(fields) == fields;
      DistinctEntriesStay(fields);
    case _ =>
  }

  /** Exactly when a field vanishes: an object shows as many fields as it has if and
      only if no two of its keys are shown under one name. */
  lemma FieldsAreKeptIff(fields: seq<Field>)
    ensures |Display(Object(fields)).fields| == |fields| <==>
      forall i, j :: 0 <= i < j < |fields| ==> DisplayKey(fields[i].key) != DisplayKey(fields[j].key)
  {
    var es := Shown(fields);
    ObjectIsShown(fields);
    SizeOfObject(es);
    assert forall i :: 0 <= i < |fields| ==> es[i].key == DisplayKey(fields[i].key);
  }

  /** Exactly when the value of a field matters: the key is no identifier and no
      later field is shown under the same name. */
  lemma ValueMattersIff(fields: seq<Field>, i: nat, a: Json, b: Json)
    requires i < |fields|
    ensures Display(Object(fields[i := Field(fields[i].key, a)])) == Display(Object(fields[i := Field(fields[i].key, b)]))
       <==> IsIdentifier(fields[i].key) || Overridden(fields, i) || Display(a) == Display(b)
  {
    var f, g := fields[i := Field(fields[i].key, a)], fields[i := Field(fields[i].key, b)];
    ObjectsLookSameIff(f, g);
    assert Overridden(f, i) <==> Overridden(fields, i) by { SameKeysSameOverrides(f, fields, i); }
  }

  lemma SameKeysSameOverrides(fields: seq<Field>, others: seq<Field>, i: nat)
    requires SameKeySeq(fields, others) && i < |fields|
    ensures Overridden(fields, i) <==> Overridden(others, i)
  {
  }

  /** The two values have the same visible parts. */
  ghost predicate SameShown(v: Json, w: Json)
    decreases v
  {
    match v
    case Array(items) =>
      && w.Array? && |w.items| == |items|
      && forall i :: 0 <= i < |items| ==> SameShown(items[i], w.items[i])
    case Object(fields) =>
      && w.Object? && SameKeySeq(fields, w.fields)
      && forall i :: 0 <= i < |fields| && Visible(fields, i) ==> SameShown(fields[i].value, w.fields[i].value)
    case _ => v == w
  }

  /** Wherever both values show an object, it has the same keys. */
  ghost predicate SameKeys(v: Json, w: Json)
    decreases v
  {
    match v
    case Array(items) => w.Array? ==> forall i :: 0 <= i < |items| && i < |w.items| ==> SameKeys(items[i], w.items[i])
    case Object(fields) =>
      w.Object? ==>
        && SameKeySeq(fields, w.fields)
        && forall i :: 0 <= i < |fields| && Visible(fields, i) ==> SameKeys(fields[i].value, w.fields[i].value)
    case _ => true
  }

  lemma ArraysLookSameIff(items: seq<Json>, others: seq<Json>)
    ensures Display(Array(items)) == Display(Array(others))
       <==> |items| == |others| && forall i :: 0 <= i < |items| ==> Display(items[i]) == Display(others[i])
  {
    var a, b := Display(Array(items)).items, Display(Array(others)).items;
    assert |a| == |items| && |b| == |others|;
    assert forall i :: 0 <= i < |items| ==> a[i] == Display(items[i]);
    assert forall i :: 0 <= i < |others| ==> b[i] == Display(others[i]);
    if |items| == |others| && forall i :: 0 <= i < |items| ==> Display(items[i]) == Display(others[i]) {
      assert a == b;
    }
  }

  /** Values with the same visible parts look the same. */
  lemma {:induction false} SameShownLooksSame(v: Json, w: Json)
    requires SameShown(v, w)
    ensures Display(v) == Display(w)
    decreases v
  {
    match v
    case Array(items) =>
      forall i | 0 <= i < |items| ensures Display(items[i]) == Display(w.items[i]) {
        SameShownLooksSame(items[i], w.items[i]);
      }
      ArraysLookSameIff(items, w.items);
    case Object(fields) =>
      forall i | 0 <= i < |fields| && Visible(fields, i) ensures Display(fields[i].value) == Display(w.fields[i].value) {
        SameShownLooksSame(fields[i].value, w.fields[i].value);
      }
      ObjectsLookSameIff(fields, w.fields);
    case _ =>
  }

  /** The view shows exactly the visible parts, collisions included. */
  lemma {:induction false} LooksSameIff(v: Json, w: Json)
    requires SameKeys(v, w)
    ensures Display(v) == Display(w) <==> SameShown(v, w)
    decreases v
  {
    if SameShown(v, w) {
      SameShownLooksSame(v, w);
    } else if Display(v) == Display(w) {
      match v
      case Array(items) =>
        ArraysLookSameIff(items, w.items);
        forall i | 0 <= i < |items| ensures SameShown(items[i], w.items[i]) { LooksSameIff(items[i], w.items[i]); }
      case Object(fields) =>
        ObjectsLookSameIff(fields, w.fields);
        forall i | 0 <= i < |fields| && Visible(fields, i) ensures SameShown(fields[i].value, w.fields[i].value) {
          LooksSameIff(fields[i].value, w.fields[i].value);
        }
      case _ =>
    }
  }

  // ------------------------------------------------- identifiers are hidden

  /** The two values differ at most in what identifier keys hold. */
  ghost predicate SameOutside(v: Json, w: Json)
    decreases v
  {
    match v
    case Array(items) =>
      && w.Array? && |w.items| == |items|
      && forall i :: 0 <= i < |items| ==> SameOutside(items[i], w.items[i])
    case Object(fields) =>
      && w.Object? && SameKeySeq(fields, w.fields)
      && forall i :: 0 <= i < |fields| && !IsIdentifier(fields[i].key) ==> SameOutside(fields[i].value, w.fields[i].value)
    case _ => v == w
  }

  lemma {:induction false} OutsideIsShown(v: Json, w: Json)
    requires SameOutside(v, w)
    ensures SameShown(v, w)
    decreases v
  {
    match v
    case Array(items) =>
      forall i | 0 <= i < |items| ensures SameShown(items[i], w.items[i]) { OutsideIsShown(items[i], w.items[i]); }
    case Object(fields) =>
      forall i | 0 <= i < |fields| && Visible(fields, i) ensures SameShown(fields[i].value, w.fields[i].value) {
        OutsideIsShown(fields[i].value, w.fields[i].value);
      }
    case _ =>
  }

  /** Nothing of an identifier is shown: values that agree outside identifier keys
      look the same, at any nesting and even when renamed keys collide. */
  lemma IdentifiersAreHidden(v: Json, w: Json)
    requires SameOutside(v, w)
    ensures Display(v) == Display(w)
  {
    OutsideIsShown(v, w);
    SameShownLooksSame(v, w);
  }

  // --------------------------------------------- and when nothing else is

  /** No field but identifiers gives way to another one, at any nesting. */
  ghost predicate NothingDropped(v: Json)
    decreases v
  {
    match v
    case Array(items) => forall i :: 0 <= i < |items| ==> NothingDropped(items[i])
    case Object(fields) =>
      forall i :: 0 <= i < |fields| && !IsIdentifier(fields[i].key) ==>
        !Overridden(fields, i) && NothingDropped(fields[i].value)
    case _ => true
  }

  lemma {:induction false} ShownIsOutside(v: Json, w: Json)
    requires NothingDropped(v) && SameShown(v, w)
    ensures SameOutside(v, w)
    decreases v
  {
    match v
    case Array(items) =>
      forall i | 0 <= i < |items| ensures SameOutside(items[i], w.items[i]) { ShownIsOutside(items[i], w.items[i]); }
    case Object(fields) =>
      forall i | 0 <= i < |fields| && !IsIdentifier(fields[i].key) ensures SameOutside(fields[i].value, w.fields[i].value) {
        assert Visible(fields, i);
        ShownIsOutside(fields[i].value, w.fields[i].value);
      }
    case _ =>
  }

  lemma {:induction false} KeysAreReflexive(v: Json)
    ensures SameKeys(v, v)
    decreases v
  {
    match v
    case Array(items) =>
      forall i | 0 <= i < |items| ensures SameKeys(items[i], items[i]) { KeysAreReflexive(items[i]); }
    case Object(fields) =>
      forall i | 0 <= i < |fields| ensures SameKeys(fields[i].value, fields[i].value) { KeysAreReflexive(fields[i].value); }
    case _ =>
  }

  /** If something is dropped, some other value hides behind the same view. */
  lemma {:induction false} DroppedIsHidden(v: Json) returns (w: Json)
    requires !NothingDropped(v)
    ensures SameKeys(v, w) && Display(v) == Display(w) && !SameOutside(v, w)
    decreases v
  {
    hide Display, IsIdentifier, Overridden;
    match v {
      case Array(items) =>
        var i :| 0 <= i < |items| && !NothingDropped(items[i]);
        var item := DroppedIsHidden(items[i]);
        w := Array(items[i := item]);
        forall j | 0 <= j < |items| ensures SameKeys(items[j], w.items[j]) { KeysAreReflexive(items[j]); }
        ArraysLookSameIff(items, w.items);
        assert !SameOutside(items[i], w.items[i]);
      case Object(fields) =>
        var i :| 0 <= i < |fields| && !IsIdentifier(fields[i].key) && (Overridden(fields, i) || !NothingDropped(fields[i].value));
        var value;
        if Overridden(fields, i) {
          value := if fields[i].value == Null then Text("") else Null;
        } else {
          value := DroppedIsHidden(fields[i].value);
        }
        w := Object(fields[i := Field(fields[i].key, value)]);
        forall j | 0 <= j < |fields| && Visible(fields, j) ensures SameKeys(fields[j].value, w.fields[j].value) {
          KeysAreReflexive(fields[j].value);
        }
        ObjectsLookSameIff(fields, w.fields);
        assert !SameOutside(fields[i].value, w.fields[i].value);
      case _ =>
    }
  }

  /** Exactly when the view of a value hides the identifiers and only them: no other
      field gives way to a later one shown under the same name. */
  lemma OnlyIdentifiersAreHiddenIff(v: Json)
    ensures (forall w :: SameKeys(v, w) ==> (Display(v) == Display(w) <==> SameOutside(v, w))) <==> NothingDropped(v)
  {
    if NothingDropped(v) {
      forall w | SameKeys(v, w) ensures Display(v) == Display(w) <==> SameOutside(v, w) {
        LooksSameIff(v, w);
        if SameShown(v, w) { ShownIsOutside(v, w); }
        if SameOutside(v, w) { OutsideIsShown(v, w); }
      }
    } else {
      var w := DroppedIsHidden(v);
    }
  }
}
