/**
 * `extract_employee_data`: parse every row's Additional Info in place, sort the
 * rows by Employee ID, and walk them with a set of seen IDs; the first row of each
 * ID emits one flat record per sub-item under each selected key it holds.
 *
 * The Python code raises on shapes it does not expect (a cell that parsed to
 * `null`, a key listing a number, a sub-item that is not a dict, a key missing
 * from `options`); such a raise is the `Err` outcome here, carrying the fault,
 * and stops the extraction with no result.
 */
module Extractor {
  import opened Wrappers
  import opened PyValues
  import opened Loader

  /** The four input columns the extractor reads. */
  datatype Row = Row(id: int, name: string, dept: string, info: PyValue)

  /** One output row, fields in column order. */
  datatype OutRecord = OutRecord(id: int, name: string, dept: string, infoType: string, detail: PyValue, description: PyValue)

  datatype Table = Table(columns: seq<string>, records: seq<OutRecord>)

  const Columns: seq<string> :=
    ["Employee ID", "Employee Name", "Department", "Info Type", "Info Detail", "Info Description"]

  type Outcome = Result<seq<OutRecord>, Fault>

  /**
   * The fault a sub-item that is not a dict raises: `options[key]` is evaluated
   * before `sub_item.get`, so a missing label is reported first.
   */
  function SubItemFault(key: string, options: map<string, string>): Fault
  {
    if key in options then AttributeError else KeyError(key)
  }

  /** The record for one sub-item, or the fault building it raises. */
  function MakeRecord(row: Row, key: string, options: map<string, string>, sub: PyValue): (r: Result<OutRecord, Fault>)
    ensures r.Ok? <==> key in options && sub.PyDict?
    ensures r.Err? ==> r.error == SubItemFault(key, options)
  {
    if key !in options then Err(KeyError(key))
    else if !sub.PyDict? then Err(AttributeError)
    else Ok(OutRecord(row.id, row.name, row.dept, options[key],
                      GetOr(sub.fields, "detail"), GetOr(sub.fields, "description")))
  }

  /**
   * The records for the sub-items of one key, in list order. It succeeds exactly
   * when there is nothing to iterate or the key has a label and every sub-item is
   * a dict; then record m carries the row's identity, the key's label and the
   * `detail` and `description` of sub-item m ('' when absent).
   */
  function ItemRecords(row: Row, key: string, options: map<string, string>, items: seq<PyValue>): (r: Outcome)
    ensures r.Ok? <==> items == [] || (key in options && forall m :: 0 <= m < |items| ==> items[m].PyDict?)
    ensures r.Ok? ==> |r.value| == |items|
    ensures r.Ok? ==> forall m :: 0 <= m < |items| ==>
              r.value[m] == OutRecord(row.id, row.name, row.dept, options[key],
                                      GetOr(items[m].fields, "detail"), GetOr(items[m].fields, "description"))
    ensures r.Err? ==> r.error == SubItemFault(key, options)
    decreases |items|
  {
    if items == [] then Ok([])
    else
      var first: Outcome := match MakeRecord(row, key, options, items[0])
        case Ok(rec) => Ok([rec])
        case Err(e) => Err(e);
      var rest := ItemRecords(row, key, options, items[1..]);
      assert forall m :: 1 <= m < |items| ==> items[m] == items[1..][m - 1];
      Then(first, rest)
  }

  /**
   * One selected key of one row: `key in json_info`, `json_info[key]`, then the
   * loop over what that value iterates to. A str iterates to its characters; a
   * dict to its keys, which are strs, so a non-empty dict fails on its first key
   * whatever the order; a number, bool, None or NaN is not iterable.
   */
  function KeyRecords(row: Row, key: string, options: map<string, string>): (r: Outcome)
    ensures !row.info.PyDict? ==> (r.Err? <==> Lookup(row.info, key).Err?)
    ensures !row.info.PyDict? && r.Ok? ==> r.value == []
    ensures !row.info.PyDict? && r.Err? ==> r.error == TypeError
    ensures row.info.PyDict? && key !in row.info.fields ==> r == Ok([])
    ensures row.info.PyDict? && key in row.info.fields ==>
              var v := row.info.fields[key];
              && (v.PyList? ==> r == ItemRecords(row, key, options, v.items))
              && (v.PyNone? || v.PyBool? || v.PyNum? || v.PyNaN? ==> r == Err(TypeError))
              && (v.PyStr? ==> r == if v.s == "" then Ok([]) else Err(SubItemFault(key, options)))
              && (v.PyDict? ==> r == if v.fields == map[] then Ok([]) else Err(SubItemFault(key, options)))
  {
    match Lookup(row.info, key)
    case Err(e) => Err(e)
    case Ok(None) => Ok([])
    case Ok(Some(v)) =>
      match v
      case PyList(items) => ItemRecords(row, key, options, items)
      case PyStr(s) => ItemRecords(row, key, options, Chars(s))
      case PyDict(m) => if m == map[] then Ok([]) else Err(SubItemFault(key, options))
      case _ => Err(TypeError)
  }

  /**
   * All records of one row, key by key in selection order. It succeeds exactly
   * when every selected key does; otherwise the fault is that of the first
   * selected key that fails.
   */
  function RowRecords(row: Row, keys: seq<string>, options: map<string, string>): (r: Outcome)
    ensures r.Ok? <==> KeysSucceed(row, keys, options)
    ensures r.Err? ==> exists i :: 0 <= i < |keys| && FirstFailingKey(row, keys, options, i, r.error)
    decreases |keys|
  {
    if keys == [] then Ok([])
    else
      assert forall i :: 1 <= i < |keys| ==> keys[i] == keys[1..][i - 1];
      var first := KeyRecords(row, keys[0], options);
      var rest := RowRecords(row, keys[1..], options);
      assert first.Err? ==> FirstFailingKey(row, keys, options, 0, first.error);
      assert first.Ok? && rest.Err? ==> exists i :: 1 <= i < |keys| && FirstFailingKey(row, keys, options, i, rest.error) by {
        if first.Ok? && rest.Err? {
          var i :| 0 <= i < |keys[1..]| && FirstFailingKey(row, keys[1..], options, i, rest.error);
          assert FirstFailingKey(row, keys, options, i + 1, rest.error);
        }
      }
      Then(first, rest)
  }

  /** Every selected key of the row succeeds. */
  predicate KeysSucceed(row: Row, keys: seq<string>, options: map<string, string>)
  {
    forall i :: 0 <= i < |keys| ==> KeyRecords(row, keys[i], options).Ok?
  }

  /** Key i is the first selected key of the row that fails, and it raises e. */
  predicate FirstFailingKey(row: Row, keys: seq<string>, options: map<string, string>, i: int, e: Fault)
    requires 0 <= i < |keys|
  {
    && KeyRecords(row, keys[i], options) == Err(e)
    && forall j :: 0 <= j < i ==> KeyRecords(row, keys[j], options).Ok?
  }

  /** Row i is the first of its Employee ID in `s`. */
  predicate IsFirst(s: seq<Row>, i: int)
    requires 0 <= i < |s|
  {
    forall j :: 0 <= j < i ==> s[j].id != s[i].id
  }

  /**
   * The rows still to visit, given the IDs already seen: only an unseen ID's row
   * emits records, and the first fault stops the walk.
   */
  function FlattenFrom(s: seq<Row>, seen: set<int>, keys: seq<string>, options: map<string, string>): (r: Outcome)
    decreases |s|
  {
    if s == [] then Ok([])
    else Then(if s[0].id in seen then Ok([]) else RowRecords(s[0], keys, options),
              FlattenFrom(s[1..], seen + {s[0].id}, keys, options))
  }

  /**
   * The walk over the remaining rows succeeds exactly when every row that is the
   * first of its ID, and whose ID is not yet seen, succeeds.
   */
  lemma {:induction false} FlattenFromSucceeds(s: seq<Row>, seen: set<int>, keys: seq<string>, options: map<string, string>)
    ensures FlattenFrom(s, seen, keys, options).Ok?
        <==> forall i :: 0 <= i < |s| && s[i].id !in seen && IsFirst(s, i) ==> RowRecords(s[i], keys, options).Ok?
    decreases |s|
  {
    if s != [] {
      FlattenFromSucceeds(s[1..], seen + {s[0].id}, keys, options);
      forall i | 1 <= i < |s|
        ensures s[i].id !in seen && IsFirst(s, i) <==> s[1..][i - 1].id !in seen + {s[0].id} && IsFirst(s[1..], i - 1)
      {
        UnseenFirstInTail(s, seen, i);
      }
    }
  }

  /** Row i > 0 is unseen and first of its ID exactly when it is so in the tail, with row 0's ID seen. */
  lemma UnseenFirstInTail(s: seq<Row>, seen: set<int>, i: int)
    requires 1 <= i < |s|
    ensures s[i].id !in seen && IsFirst(s, i) <==> s[1..][i - 1].id !in seen + {s[0].id} && IsFirst(s[1..], i - 1)
  {
    assert forall j :: 0 <= j < i - 1 ==> s[1..][j] == s[j + 1];
  }

  /** One step of `FlattenFrom` at position i: row i, then the rows after it with its ID seen. */
  lemma FlattenFromStep(s: seq<Row>, i: int, seen: set<int>, keys: seq<string>, options: map<string, string>)
    requires 0 <= i < |s|
    ensures FlattenFrom(s[i..], seen, keys, options)
         == Then(if s[i].id in seen then Ok([]) else RowRecords(s[i], keys, options),
                 FlattenFrom(s[i + 1..], seen + {s[i].id}, keys, options))
  {
    assert s[i..][1..] == s[i + 1..];
  }

  /** The records extracted from rows already in sorted order, starting with no ID seen. */
  function Flatten(s: seq<Row>, keys: seq<string>, options: map<string, string>): (r: Outcome)
  {
    FlattenFrom(s, {}, keys, options)
  }

  /**
   * The extraction succeeds exactly when the row that is first of each ID
   * succeeds: a later row of an ID can never make it fail.
   */
  lemma FlattenSucceeds(s: seq<Row>, keys: seq<string>, options: map<string, string>)
    ensures Flatten(s, keys, options).Ok? <==> forall i :: 0 <= i < |s| && IsFirst(s, i) ==> RowRecords(s[i], keys, options).Ok?
  {
    FlattenFromSucceeds(s, {}, keys, options);
  }

  /** The lookup of one selected key and the loop over its sub-items, appending to `result`. */
  method AppendKey(result: seq<OutRecord>, item: Row, key: string, options: map<string, string>) returns (r: Outcome)
    ensures r == Then(Ok(result), KeyRecords(item, key, options))
  {
    var found := Lookup(item.info, key);
    if found.Err? {
      return Err(found.error);
    }
    ThenUnit<OutRecord, Fault>(Ok(result));
    if found.value.None? {
      return Ok(result);
    }
    match found.value.value {
      case PyList(items) =>
        r := AppendItems(result, item, key, options, items);
      case PyStr(s) =>
        r := AppendItems(result, item, key, options, Chars(s));
      case PyDict(m) =>
        if m == map[] {
          return Ok(result);
        }
        return Err(SubItemFault(key, options));
      case _ =>
        return Err(TypeError);
    }
  }

  /** The loop over one key's sub-items, appending to `result`. */
  method AppendItems(result: seq<OutRecord>, item: Row, key: string, options: map<string, string>, items: seq<PyValue>)
    returns (r: Outcome)
    ensures r == Then(Ok(result), ItemRecords(item, key, options, items))
  {
    var acc := result;
    var m := 0;
    while m < |items|
      invariant 0 <= m <= |items|
      invariant Then(Ok(acc), ItemRecords(item, key, options, items[m..]))
             == Then(Ok(result), ItemRecords(item, key, options, items))
    {
      var sub := items[m];
      assert items[m..][1..] == items[m + 1..];
      if key !in options {
        return Err(KeyError(key));
      }
      if !sub.PyDict? {
        return Err(AttributeError);
      }
      var rec := OutRecord(item.id, item.name, item.dept, options[key],
                           GetOr(sub.fields, "detail"), GetOr(sub.fields, "description"));
      ThenAssociative(Ok(acc), Ok([rec]), ItemRecords(item, key, options, items[m + 1..]));
      acc := acc + [rec];
      m := m + 1;
    }
    ThenUnit<OutRecord, Fault>(Ok(acc));
    r := Ok(acc);
  }

  /** The loop over the selected keys for one row, appending to `result`. */
  method AppendRow(result: seq<OutRecord>, item: Row, keys: seq<string>, options: map<string, string>) returns (r: Outcome)
    ensures r == Then(Ok(result), RowRecords(item, keys, options))
  {
    var acc := result;
    var j := 0;
    while j < |keys|
      invariant 0 <= j <= |keys|
      invariant Then(Ok(acc), RowRecords(item, keys[j..], options))
             == Then(Ok(result), RowRecords(item, keys, options))
    {
      assert keys[j..][1..] == keys[j + 1..];
      ThenAssociative(Ok(acc), KeyRecords(item, keys[j], options), RowRecords(item, keys[j + 1..], options));
      var next := AppendKey(acc, item, keys[j], options);
      if next.Err? {
        return next;
      }
      acc := next.value;
      j := j + 1;
    }
    ThenUnit<OutRecord, Fault>(Ok(acc));
    r := Ok(acc);
  }

  /** One row of the walk: only a row whose ID is not yet seen appends its records. */
  method VisitRow(result: seq<OutRecord>, seen: set<int>, item: Row, keys: seq<string>, options: map<string, string>)
    returns (r: Outcome)
    ensures r == Then(Ok(result), if item.id in seen then Ok([]) else RowRecords(item, keys, options))
  {
    if item.id in seen {
      ThenUnit<OutRecord, Fault>(Ok(result));
      return Ok(result);
    }
    r := AppendRow(result, item, keys, options);
  }

  /** Visiting row i keeps the walk's records followed by the remaining rows equal to the whole extraction. */
  lemma WalkStep(sorted: seq<Row>, i: int, seen: set<int>, result: seq<OutRecord>, next: Outcome,
                 keys: seq<string>, options: map<string, string>)
    requires 0 <= i < |sorted|
    requires Then(Ok(result), FlattenFrom(sorted[i..], seen, keys, options)) == Flatten(sorted, keys, options)
    requires next == Then(Ok(result), if sorted[i].id in seen then Ok([]) else RowRecords(sorted[i], keys, options))
    ensures next.Err? ==> next == Flatten(sorted, keys, options)
    ensures next.Ok? ==> Then(next, FlattenFrom(sorted[i + 1..], seen + {sorted[i].id}, keys, options)) == Flatten(sorted, keys, options)
  {
    FlattenFromStep(sorted, i, seen, keys, options);
    ThenAssociative(Ok(result), if sorted[i].id in seen then Ok([]) else RowRecords(sorted[i], keys, options),
                    FlattenFrom(sorted[i + 1..], seen + {sorted[i].id}, keys, options));
  }

  /** The walk over the sorted rows with the set of seen Employee IDs. */
  method FlattenRows(sorted: seq<Row>, keys: seq<string>, options: map<string, string>) returns (r: Outcome)
    ensures r == Flatten(sorted, keys, options)
  {
    var result: seq<OutRecord> := [];
    var seen: set<int> := {};
    var i := 0;
    ThenUnit(Flatten(sorted, keys, options));
    while i < |sorted|
      invariant 0 <= i <= |sorted|
      invariant Then(Ok(result), FlattenFrom(sorted[i..], seen, keys, options)) == Flatten(sorted, keys, options)
    {
      var item := sorted[i];
      var next := VisitRow(result, seen, item, keys, options);
      WalkStep(sorted, i, seen, result, next, keys, options);
      if next.Err? {
        return next;
      }
      result := next.value;
      seen := seen + {item.id};
      i := i + 1;
    }
    ThenUnit<OutRecord, Fault>(Ok(result));
    r := Ok(result);
  }

  predicate SortedById(s: seq<Row>)
  {
    forall i, j :: 0 <= i < j < |s| ==> s[i].id <= s[j].id
  }

  /**
   * `order` lists every row position exactly once, by non-decreasing Employee ID:
   * one possible order of pandas' `sort_values`, which is not stable, so rows
   * with equal IDs may come in any order.
   */
  predicate IsSortOrder(order: seq<nat>, rows: seq<Row>)
  {
    && |order| == |rows|
    && (forall i :: 0 <= i < |order| ==> order[i] < |rows|)
    && (forall i, j :: 0 <= i < j < |order| ==> order[i] != order[j])
    && (forall i, j :: 0 <= i < j < |order| ==> rows[order[i]].id <= rows[order[j]].id)
  }

  /** The rows taken in the positions `order` lists. */
  function Reorder(rows: seq<Row>, order: seq<nat>): (r: seq<Row>)
    requires IsSortOrder(order, rows)
    ensures |r| == |rows| && SortedById(r)
    ensures forall i :: 0 <= i < |r| ==> r[i] == rows[order[i]]
  {
    seq(|order|, i requires 0 <= i < |order| => rows[order[i]])
  }

  function AsTable(o: Outcome): (r: Result<Table, Fault>)
    ensures r.Ok? <==> o.Ok?
    ensures r.Ok? ==> r.value.columns == Columns && r.value.records == o.value
    ensures r.Err? ==> r.error == o.error
  {
    match o
    case Ok(records) => Ok(Table(Columns, records))
    case Err(e) => Err(e)
  }

  /** The uploaded table; the extractor overwrites its Additional Info column. */
  class DataFrame {
    var rows: seq<Row>

    constructor (rows: seq<Row>)
      ensures this.rows == rows
    {
      this.rows := rows;
    }

    /** `df['Additional Info'] = df['Additional Info'].apply(load_json_safe)` */
    method ParseAdditionalInfo(loads: string -> Option<PyValue>)
      modifies this
      ensures |rows| == |old(rows)|
      ensures forall i :: 0 <= i < |rows| ==>
                rows[i] == old(rows[i]).(info := LoadJsonSafe(old(rows[i]).info, loads))
    {
      var before := rows;
      rows := seq(|before|, i requires 0 <= i < |before| =>
                    before[i].(info := LoadJsonSafe(before[i].info, loads)));
    }
  }

  /**
   * `extract_employee_data(df, selected_keys, options)`. The caller's frame keeps
   * the parsed column even when the extraction then raises. `order` is the row
   * order pandas' sort produces.
   */
  method ExtractEmployeeData(df: DataFrame, selectedKeys: seq<string>, options: map<string, string>,
                             loads: string -> Option<PyValue>, order: seq<nat>)
    returns (r: Result<Table, Fault>)
    requires IsSortOrder(order, df.rows)
    modifies df
    ensures |df.rows| == |old(df.rows)|
    ensures forall i :: 0 <= i < |df.rows| ==>
              df.rows[i] == old(df.rows[i]).(info := LoadJsonSafe(old(df.rows[i]).info, loads))
    ensures IsSortOrder(order, df.rows)
    ensures r == AsTable(Flatten(Reorder(df.rows, order), selectedKeys, options))
  {
    df.ParseAdditionalInfo(loads);
    assert forall i :: 0 <= i < |df.rows| ==> df.rows[i].id == old(df.rows[i].id);
    var sorted := Reorder(df.rows, order);
    var records := FlattenRows(sorted, selectedKeys, options);
    r := AsTable(records);
  }
}
