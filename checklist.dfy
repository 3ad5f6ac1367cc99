/*
 * The item-normalisation pipeline of the daily trading checklist
 * (streamlit_checks.py): the built-in default document, the migration of a
 * legacy list of strings into positioned records, `renumber`,
 * `ensure_positions`, and the start of each interaction cycle that runs
 * them and sorts the items for display.
 */
module Checklist {

  datatype Option<T> = None | Some(value: T) {
    function GetOr(default: T): T {
      match this
      case Some(v) => v
      case None => default
    }
  }

  /** A stored list entry as the script sees it: a plain string (the legacy
      shape) or a record. */
  datatype Value = Str(s: string) | Record(item: Item)

  /** A checklist record. The `position` key may be absent. The `text` is
      whatever the record was built from: a string, or, when a legacy list
      is migrated that already holds a record further down, that record. */
  datatype Item = Item(position: Option<int>, text: Value)

  /** The loaded document; `None` is a missing key (or, for `items`, a null one). */
  datatype Document = Document(items: Option<seq<Value>>, checked: Option<seq<string>>)

  /** `ensure_positions` assigns a position to a plain string and Python
      raises a TypeError. */
  datatype Error = PositionOnString

  datatype Result<T> = Ok(value: T) | Failure(error: Error)

  /** The script's state once the items are normalised: the document with its
      items replaced, the items in display order, and the checked set. */
  datatype CycleState = CycleState(data: Document, items: seq<Item>, checked: set<string>)

  /** The sort key of an item without a position. */
  const MissingPosition: int := 9999

  /** The built-in prompts used when no checklist file exists. */
  const DefaultItems: seq<string> := [
    "Are market conditions (volatility, trend) right for this trade?",
    "Are there major news events that may occur during the trade?",
    "Correct entry point based on strategy?",
    "Is the stop loss reasonable for the potential reward?",
    "How am I getting out of this trade? (Describe)",
    "Is my position size correct?",
    "Am I violating any of my Trading Plan rules?",
    "Am I allowed to trade? (Not on a forced break due to recent losses)",
    "Am I placing this order in the correct hours/my established trading time?",
    "Is it within my max number of positions I can hold at one time?",
    "Is it within my leverage tolerance?",
    "Did I find this trade through the proper means? (Not a 'tip' but from my own research)",
    "What should I remember during the trade? (Key point you've struggled with recently)",
    "Am I in the right mind frame for this trade?",
    "My expectations are realistic",
    "I have a probability-tested edge",
    "Trading aligns with my 'ideal self'",
    "No one is influencing me",
    "My entry criteria is clear, now I wait",
    "I am self-aware of my impulses",
    "Sleep was great, exercise was great",
    "My brain and belly have been fed",
    "Trades must meet my criteria",
    "I completely accept my defined risk",
    "Position size is in-line with my process",
    "Good habits are forming in my trading",
    "I am calm, relaxed, and focused"
  ]

  // ---------------------------------------------------------------------
  // Views of item lists

  predicate AllRecords(vs: seq<Value>) {
    forall i :: 0 <= i < |vs| ==> vs[i].Record?
  }

  /** The records of a list that holds only records. */
  function Records(vs: seq<Value>): seq<Item>
    requires AllRecords(vs)
  {
    seq(|vs|, i requires 0 <= i < |vs| => vs[i].item)
  }

  /** Items stored back into a document. */
  function AsValues(items: seq<Item>): seq<Value> {
    seq(|items|, i requires 0 <= i < |items| => Record(items[i]))
  }

  /** A legacy list of plain strings. */
  function Legacy(xs: seq<string>): seq<Value> {
    seq(|xs|, i requires 0 <= i < |xs| => Str(xs[i]))
  }

  function Texts(items: seq<Item>): seq<Value> {
    seq(|items|, i requires 0 <= i < |items| => items[i].text)
  }

  /** The item at index i has position i + 1. */
  predicate DenselyNumbered(items: seq<Item>) {
    forall i :: 0 <= i < |items| ==> items[i].position == Some(i + 1)
  }

  function Positions(items: seq<Item>): set<int> {
    set i | 0 <= i < |items| && items[i].position.Some? :: items[i].position.value
  }

  // ---------------------------------------------------------------------
  // renumber and ensure_positions

  /** What `renumber` leaves behind: every position overwritten by index + 1. */
  function Numbered(items: seq<Item>): (r: seq<Item>)
    ensures |r| == |items| && DenselyNumbered(r)
    ensures Texts(r) == Texts(items)
  {
    seq(|items|, i requires 0 <= i < |items| => items[i].(position := Some(i + 1)))
  }

  /** A densely numbered list is exactly what renumbering leaves unchanged. */
  lemma NumberedFixpoint(items: seq<Item>)
    ensures DenselyNumbered(items) <==> Numbered(items) == items
  {
  }

  lemma NumberedIdempotent(items: seq<Item>)
    ensures Numbered(Numbered(items)) == Numbered(items)
  {
  }

  /** The positions of a densely numbered list are exactly 1..N, each once. */
  lemma DensePositions(items: seq<Item>)
    requires DenselyNumbered(items)
    ensures forall p :: p in Positions(items) <==> 1 <= p <= |items|
    ensures forall i, j :: 0 <= i < |items| && 0 <= j < |items| && items[i].position == items[j].position ==> i == j
  {
    forall k | 1 <= k <= |items| ensures k in Positions(items) {
      assert items[k - 1].position.value == k;
    }
  }

  /** What the first loop of `ensure_positions` leaves behind. */
  function FillMissing(items: seq<Item>): (r: seq<Item>)
    ensures |r| == |items| && Texts(r) == Texts(items)
    ensures forall i :: 0 <= i < |r| ==>
      r[i].position == (if items[i].position.Some? then items[i].position else Some(i + 1))
  {
    seq(|items|, i requires 0 <= i < |items| =>
      if items[i].position.None? then items[i].(position := Some(i + 1)) else items[i])
  }

  /** The positions filled in are overwritten by the renumbering that follows. */
  lemma NumberedAfterFill(items: seq<Item>)
    ensures Numbered(FillMissing(items)) == Numbered(items)
  {
  }

  /** `renumber`: overwrite every item's position in place with its index + 1. */
  method Renumber(a: array<Item>)
    modifies a
    ensures a[..] == Numbered(old(a[..]))
  {
    for i := 0 to a.Length
      invariant forall k :: 0 <= k < i ==> a[k] == old(a[k]).(position := Some(k + 1))
      invariant forall k :: i <= k < a.Length ==> a[k] == old(a[k])
    {
      a[i] := a[i].(position := Some(i + 1));
    }
  }

  /** `ensure_positions`: give every item without a position its index + 1,
      then renumber. */
  method EnsurePositions(a: array<Item>)
    modifies a
    ensures a[..] == Numbered(old(a[..]))
  {
    ghost var before := a[..];
    for i := 0 to a.Length
      invariant forall k :: 0 <= k < i ==> a[k] == FillMissing(before)[k]
      invariant forall k :: i <= k < a.Length ==> a[k] == before[k]
    {
      if a[i].position.None? {
        a[i] := a[i].(position := Some(i + 1));
      }
    }
    assert a[..] == FillMissing(before);
    NumberedAfterFill(before);
    Renumber(a);
  }

  // ---------------------------------------------------------------------
  // migrate_items

  /** `migrate_items`: an empty list stays empty, a list whose first element
      is a record is returned as it is, and any other list becomes records
      numbered 1..N in the original order, each holding the original entry as
      its text. */
  function MigrateItems(entries: seq<Value>): (r: seq<Value>)
    ensures |r| == |entries|
    ensures entries == [] || entries[0].Record? ==> r == entries
    ensures entries != [] && entries[0].Str? ==>
      AllRecords(r) && DenselyNumbered(Records(r)) && Texts(Records(r)) == entries
  {
    if entries == [] then []
    else if entries[0].Record? then entries
    else seq(|entries|, i requires 0 <= i < |entries| => Record(Item(Some(i + 1), entries[i])))
  }

  /** A legacy list of strings migrates to records whose record i holds
      string i at position i + 1, and reading the texts back gives the
      strings. */
  lemma MigrateLegacy(xs: seq<string>)
    ensures var r := MigrateItems(Legacy(xs));
      |r| == |xs| && AllRecords(r) &&
      (forall i :: 0 <= i < |xs| ==> r[i].item == Item(Some(i + 1), Str(xs[i]))) &&
      Texts(Records(r)) == Legacy(xs)
  {
  }

  /** Migrating a migrated list changes nothing. */
  lemma MigrateIdempotent(entries: seq<Value>)
    ensures MigrateItems(MigrateItems(entries)) == MigrateItems(entries)
  {
  }

  // ---------------------------------------------------------------------
  // sorted(items, key=lambda x: x.get("position", 9999))

  function Key(it: Item): int {
    it.position.GetOr(MissingPosition)
  }

  predicate SortedByKey(s: seq<Item>) {
    forall i, j :: 0 <= i < j < |s| ==> Key(s[i]) <= Key(s[j])
  }

  /** The items of s with key k, in their order in s. */
  function WithKey(s: seq<Item>, k: int): seq<Item> {
    if s == [] then [] else (if Key(s[0]) == k then [s[0]] else []) + WithKey(s[1..], k)
  }

  /** Put x before the first item whose key is not smaller. */
  function Insert(x: Item, s: seq<Item>): (r: seq<Item>)
    ensures |r| == |s| + 1 && multiset(r) == multiset(s) + multiset{x}
  {
    if s == [] || Key(x) <= Key(s[0]) then [x] + s
    else
      assert s == [s[0]] + s[1..];
      [s[0]] + Insert(x, s[1..])
  }

  /** Python's `sorted`, a stable sort, keyed by position. */
  function SortByPosition(s: seq<Item>): (r: seq<Item>)
    ensures |r| == |s| && multiset(r) == multiset(s)
  {
    if s == [] then []
    else
      assert s == [s[0]] + s[1..];
      Insert(s[0], SortByPosition(s[1..]))
  }

  lemma {:induction false} InsertSorted(x: Item, s: seq<Item>)
    requires SortedByKey(s)
    ensures SortedByKey(Insert(x, s))
  {
    if s == [] || Key(x) <= Key(s[0]) {
    } else {
      var tail := s[1..];
      InsertSorted(x, tail);
      var rest := Insert(x, tail);
      forall j | 0 <= j < |rest| ensures Key(s[0]) <= Key(rest[j]) {
        assert rest[j] in multiset(rest);
        if rest[j] != x {
          assert rest[j] in multiset(tail);
          var m :| 0 <= m < |tail| && tail[m] == rest[j];
          assert tail[m] == s[m + 1];
        }
      }
    }
  }

  /** The sorted list is ordered by key. */
  lemma {:induction false} SortSorted(s: seq<Item>)
    ensures SortedByKey(SortByPosition(s))
  {
    if s != [] {
      SortSorted(s[1..]);
      InsertSorted(s[0], SortByPosition(s[1..]));
    }
  }

  lemma {:induction false} InsertWithKey(x: Item, s: seq<Item>, k: int)
    ensures WithKey(Insert(x, s), k) == (if Key(x) == k then [x] else []) + WithKey(s, k)
  {
    if s == [] || Key(x) <= Key(s[0]) {
      assert ([x] + s)[1..] == s;
    } else {
      var rest := Insert(x, s[1..]);
      assert ([s[0]] + rest)[1..] == rest;
      InsertWithKey(x, s[1..], k);
    }
  }

  /** The sort is stable: items with equal keys keep their relative order. */
  lemma {:induction false} SortStable(s: seq<Item>, k: int)
    ensures WithKey(SortByPosition(s), k) == WithKey(s, k)
  {
    if s != [] {
      SortStable(s[1..], k);
      InsertWithKey(s[0], SortByPosition(s[1..]), k);
    }
  }

  /** A list already ordered by key comes out of the sort unchanged. */
  lemma {:induction false} SortIdentity(s: seq<Item>)
    requires SortedByKey(s)
    ensures SortByPosition(s) == s
  {
    if s != [] {
      assert SortedByKey(s[1..]);
      SortIdentity(s[1..]);
      assert [s[0]] + s[1..] == s;
    }
  }

  lemma DenseIsSorted(items: seq<Item>)
    requires DenselyNumbered(items)
    ensures SortedByKey(items)
  {
  }

  // ---------------------------------------------------------------------
  // load_checklist and the start of an interaction cycle

  function DefaultDocument(): Document {
    Document(
      Some(seq(|DefaultItems|, i requires 0 <= i < |DefaultItems| =>
        Record(Item(Some(i + 1), Str(DefaultItems[i]))))),
      Some([]))
  }

  /** `load_checklist`: the stored document when the file exists (read and
      parsed by the caller), otherwise the default document. */
  function LoadChecklist(file: Option<Document>): (d: Document)
    ensures file.Some? ==> d == file.value
    ensures file.None? ==>
      d.items.Some? && |d.items.value| == 27 && AllRecords(d.items.value) &&
      DenselyNumbered(Records(d.items.value)) &&
      Texts(Records(d.items.value)) == Legacy(DefaultItems) &&
      d.checked == Some([])
  {
    match file
    case Some(stored) => stored
    case None => DefaultDocument()
  }

  function CheckedSet(data: Document): set<string> {
    set c | c in data.checked.GetOr([])
  }

  /** The script after loading: migrate, ensure positions, store the items
      back into the document, sort them for display and collect the checked
      texts. */
  function Prepared(data: Document): (r: Result<CycleState>)
    ensures r.Ok? ==> |r.value.items| == |data.items.GetOr([])| && r.value.data.checked == data.checked
  {
    var migrated := MigrateItems(data.items.GetOr([]));
    if !AllRecords(migrated) then Failure(PositionOnString)
    else
      var stored := Numbered(Records(migrated));
      Ok(CycleState(data.(items := Some(AsValues(stored))), SortByPosition(stored), CheckedSet(data)))
  }

  /** Lines 97-106 of the script, with the file contents as a parameter. */
  method StartCycle(file: Option<Document>) returns (r: Result<CycleState>)
    ensures r == Prepared(LoadChecklist(file))
  {
    var data := LoadChecklist(file);
    var migrated := MigrateItems(data.items.GetOr([]));
    if !AllRecords(migrated) {
      return Failure(PositionOnString);
    }
    var a := new Item[|migrated|](i requires 0 <= i < |migrated| => migrated[i].item);
    assert a[..] == Records(migrated);
    EnsurePositions(a);
    var stored := a[..];
    var shown := SortByPosition(stored);
    r := Ok(CycleState(data.(items := Some(AsValues(stored))), shown, CheckedSet(data)));
  }

  /** The cycle fails exactly when the stored list starts with a record and
      holds a plain string further on. */
  lemma PreparedFails(data: Document)
    ensures Prepared(data).Failure? <==>
      var e := data.items.GetOr([]);
      e != [] && e[0].Record? && exists i :: 0 <= i < |e| && e[i].Str?
  {
  }

  /** A successful cycle stores positions 1..N, keeps the texts in their
      order, shows the items in the stored order, and keeps the checked
      texts. */
  lemma PreparedOk(data: Document)
    requires Prepared(data).Ok?
    ensures var st := Prepared(data).value;
      var e := data.items.GetOr([]);
      st.data.items.Some? && AllRecords(st.data.items.value) &&
      DenselyNumbered(Records(st.data.items.value)) &&
      st.items == Records(st.data.items.value) &&
      (e != [] && e[0].Str? ==> Texts(st.items) == e) &&
      (e == [] || e[0].Record? ==> AllRecords(e) && Texts(st.items) == Texts(Records(e))) &&
      st.data.checked == data.checked &&
      (forall c :: c in st.checked <==> c in data.checked.GetOr([]))
  {
    var migrated := MigrateItems(data.items.GetOr([]));
    var stored := Numbered(Records(migrated));
    assert Records(AsValues(stored)) == stored;
    DenseIsSorted(stored);
    SortIdentity(stored);
  }

  /** Running the cycle on the document it stored changes nothing: the
      normalised document is a fixed point. */
  lemma PreparedIdempotent(data: Document)
    requires Prepared(data).Ok?
    ensures Prepared(Prepared(data).value.data) == Prepared(data)
  {
    var migrated := MigrateItems(data.items.GetOr([]));
    var stored := Numbered(Records(migrated));
    var values := AsValues(stored);
    assert Records(values) == stored;
    assert MigrateItems(values) == values by {
      if values != [] {
        assert values[0].Record?;
      }
    }
    NumberedFixpoint(stored);
  }

  /** A document whose items are records numbered 1..N passes through the
      cycle unchanged and is shown in its own order. */
  lemma NormalPrepared(d: Document)
    requires d.items.Some? && AllRecords(d.items.value)
    requires DenselyNumbered(Records(d.items.value))
    ensures Prepared(d) == Ok(CycleState(d, Records(d.items.value), CheckedSet(d)))
  {
    var e := d.items.value;
    if e != [] {
      assert e[0].Record?;
    }
    NumberedFixpoint(Records(e));
    assert AsValues(Records(e)) == e;
    DenseIsSorted(Records(e));
    SortIdentity(Records(e));
  }

  /** With no file, the default document passes through the cycle unchanged,
      is shown in its own order and has nothing checked. */
  lemma DefaultPrepared()
    ensures var d := LoadChecklist(None);
      Prepared(d) == Ok(CycleState(d, Records(d.items.value), {}))
  {
    var d := LoadChecklist(None);
    NormalPrepared(d);
    assert CheckedSet(d) == {};
  }
}
