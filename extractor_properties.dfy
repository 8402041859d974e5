/** What the extraction promises, stated over the specification in module Extractor. */
module ExtractorProperties {
  import opened Wrappers
  import opened PyValues
  import opened Loader
  import opened Extractor

  // ---------------------------------------------------------------------------
  // Deduplication: only the first row of each ID contributes.

  lemma {:induction false} LaterDuplicateIgnoredFrom(s: seq<Row>, seen: set<int>, i: int, x: Row,
                                                     keys: seq<string>, options: map<string, string>)
    requires 0 <= i < |s| && x.id == s[i].id
    requires s[i].id in seen || !IsFirst(s, i)
    ensures FlattenFrom(s[i := x], seen, keys, options) == FlattenFrom(s, seen, keys, options)
    decreases i
  {
    var t := s[i := x];
    assert t[0].id == s[0].id;
    if i == 0 {
      assert t[1..] == s[1..];
    } else {
      assert t[1..] == s[1..][i - 1 := x];
      if s[i].id !in seen {
        var j :| 0 <= j < i && s[j].id == s[i].id;
        if j > 0 {
          assert s[1..][j - 1].id == s[1..][i - 1].id;
        }
      }
      LaterDuplicateIgnoredFrom(s[1..], seen + {s[0].id}, i - 1, x, keys, options);
    }
  }

  /**
   * A row whose Employee ID already occurred earlier in the sorted rows emits
   * nothing and raises nothing: replacing it by any row with that ID, whatever
   * its Additional Info, leaves the extraction unchanged.
   */
  lemma LaterDuplicateIgnored(s: seq<Row>, i: int, x: Row, keys: seq<string>, options: map<string, string>)
    requires 0 <= i < |s| && !IsFirst(s, i) && x.id == s[i].id
    ensures Flatten(s[i := x], keys, options) == Flatten(s, keys, options)
  {
    LaterDuplicateIgnoredFrom(s, {}, i, x, keys, options);
  }

  /** In rows sorted by ID, the first row of an ID is the one that starts its run. */
  lemma FirstOfRunInSortedRows(s: seq<Row>, i: int)
    requires SortedById(s) && 0 <= i < |s|
    ensures IsFirst(s, i) <==> i == 0 || s[i - 1].id < s[i].id
  {
  }

  // ---------------------------------------------------------------------------
  // How many records come out.

  /** The length of the list a mapping holds under `key`, 0 when there is none. */
  function SubItemCount(info: PyValue, key: string): nat
  {
    if info.PyDict? && key in info.fields && info.fields[key].PyList? then |info.fields[key].items| else 0
  }

  /** Sum of SubItemCount over the selected keys. */
  function KeyCount(info: PyValue, keys: seq<string>): nat
    decreases |keys|
  {
    if keys == [] then 0 else SubItemCount(info, keys[0]) + KeyCount(info, keys[1..])
  }

  /** Sum of KeyCount over the positions i < n whose row is the first of its ID. */
  function FirstRowsCount(s: seq<Row>, n: nat, keys: seq<string>): nat
    requires n <= |s|
    decreases n
  {
    if n == 0 then 0
    else FirstRowsCount(s, n - 1, keys) + (if IsFirst(s, n - 1) then KeyCount(s[n - 1].info, keys) else 0)
  }

  /** The Employee IDs of a sequence of rows. */
  function IdsOf(t: seq<Row>): set<int>
  {
    set j | 0 <= j < |t| :: t[j].id
  }

  lemma IdsOfExtend(s: seq<Row>, k: int)
    requires 0 <= k < |s|
    ensures IdsOf(s[..k + 1]) == IdsOf(s[..k]) + {s[k].id}
    ensures s[k].id in IdsOf(s[..k]) <==> !IsFirst(s, k)
  {
  }

  lemma KeyRecordsCount(row: Row, key: string, options: map<string, string>)
    requires KeyRecords(row, key, options).Ok?
    ensures |KeyRecords(row, key, options).value| == SubItemCount(row.info, key)
  {
  }

  lemma {:induction false} RowRecordsCount(row: Row, keys: seq<string>, options: map<string, string>)
    requires RowRecords(row, keys, options).Ok?
    ensures |RowRecords(row, keys, options).value| == KeyCount(row.info, keys)
    decreases |keys|
  {
    if keys != [] {
      KeyRecordsCount(row, keys[0], options);
      RowRecordsCount(row, keys[1..], options);
    }
  }

  lemma {:induction false} RecordCountFrom(s: seq<Row>, k: nat, keys: seq<string>, options: map<string, string>)
    requires k <= |s| && FlattenFrom(s[k..], IdsOf(s[..k]), keys, options).Ok?
    ensures |FlattenFrom(s[k..], IdsOf(s[..k]), keys, options).value| + FirstRowsCount(s, k, keys)
            == FirstRowsCount(s, |s|, keys)
    decreases |s| - k
  {
    if k < |s| {
      assert s[k..][0] == s[k];
      assert s[k..][1..] == s[k + 1..];
      IdsOfExtend(s, k);
      if IsFirst(s, k) {
        RowRecordsCount(s[k], keys, options);
      }
      RecordCountFrom(s, k + 1, keys, options);
    }
  }

  /**
   * A successful extraction yields, for each row that is the first of its ID and
   * each selected key its mapping lists, as many records as the list has sub-items.
   */
  lemma RecordCount(s: seq<Row>, keys: seq<string>, options: map<string, string>)
    requires Flatten(s, keys, options).Ok?
    ensures |Flatten(s, keys, options).value| == FirstRowsCount(s, |s|, keys)
  {
    assert s[0..] == s;
    assert IdsOf(s[..0]) == {};
    RecordCountFrom(s, 0, keys, options);
  }

  // ---------------------------------------------------------------------------
  // What each record holds and in which order the records come.

  /**
   * Every record of a row copies the row's ID, name and department and is
   * labelled with `options[k]` for a selected key k: keys that were not selected
   * never produce a record.
   */
  lemma {:induction false} RowRecordsProvenance(row: Row, keys: seq<string>, options: map<string, string>)
    requires RowRecords(row, keys, options).Ok?
    ensures forall rec :: rec in RowRecords(row, keys, options).value ==>
              && rec.id == row.id && rec.name == row.name && rec.dept == row.dept
              && exists k :: k in keys && k in options && rec.infoType == options[k]
    decreases |keys|
  {
    if keys != [] {
      var key := keys[0];
      var head := KeyRecords(row, key, options);
      RowRecordsProvenance(row, keys[1..], options);
      forall rec | rec in head.value
        ensures rec.id == row.id && rec.name == row.name && rec.dept == row.dept
        ensures key in options && rec.infoType == options[key]
      {
        var v := Lookup(row.info, key).value.value;
        if v.PyList? {
          assert head == ItemRecords(row, key, options, v.items);
        }
      }
      forall rec | rec in RowRecords(row, keys[1..], options).value
        ensures exists k :: k in keys && k in options && rec.infoType == options[k]
      {
        var k :| k in keys[1..] && k in options && rec.infoType == options[k];
        assert k in keys;
      }
    }
  }

  lemma {:induction false} RecordsFromFirstRowsFrom(s: seq<Row>, seen: set<int>, keys: seq<string>, options: map<string, string>)
    requires FlattenFrom(s, seen, keys, options).Ok?
    ensures forall rec :: rec in FlattenFrom(s, seen, keys, options).value ==>
              exists i :: 0 <= i < |s| && s[i].id !in seen && IsFirst(s, i)
                          && rec.id == s[i].id && rec.name == s[i].name && rec.dept == s[i].dept
    decreases |s|
  {
    if s != [] {
      var head: Outcome := if s[0].id in seen then Ok([]) else RowRecords(s[0], keys, options);
      var tail := FlattenFrom(s[1..], seen + {s[0].id}, keys, options);
      if s[0].id !in seen {
        RowRecordsProvenance(s[0], keys, options);
      }
      RecordsFromFirstRowsFrom(s[1..], seen + {s[0].id}, keys, options);
      forall rec | rec in FlattenFrom(s, seen, keys, options).value
        ensures exists i :: 0 <= i < |s| && s[i].id !in seen && IsFirst(s, i)
                            && rec.id == s[i].id && rec.name == s[i].name && rec.dept == s[i].dept
      {
        if rec in head.value {
          assert IsFirst(s, 0);
        } else {
          assert rec in tail.value;
          var i :| 0 <= i < |s[1..]| && s[1..][i].id !in seen + {s[0].id} && IsFirst(s[1..], i)
                   && rec.id == s[1..][i].id && rec.name == s[1..][i].name && rec.dept == s[1..][i].dept;
          assert IsFirst(s, i + 1);
        }
      }
    }
  }

  /**
   * Every record copies the Employee ID, name and department of a row that is
   * the first of its ID in the sorted rows.
   */
  lemma RecordsFromFirstRows(s: seq<Row>, keys: seq<string>, options: map<string, string>)
    requires Flatten(s, keys, options).Ok?
    ensures forall rec :: rec in Flatten(s, keys, options).value ==>
              exists i :: 0 <= i < |s| && IsFirst(s, i)
                          && rec.id == s[i].id && rec.name == s[i].name && rec.dept == s[i].dept
  {
    RecordsFromFirstRowsFrom(s, {}, keys, options);
  }

  /** Every record of a row carries the row's Employee ID. */
  lemma RowRecordsIds(row: Row, keys: seq<string>, options: map<string, string>)
    requires RowRecords(row, keys, options).Ok?
    ensures forall a :: 0 <= a < |RowRecords(row, keys, options).value| ==> RowRecords(row, keys, options).value[a].id == row.id
  {
    var out := RowRecords(row, keys, options).value;
    RowRecordsProvenance(row, keys, options);
    forall a | 0 <= a < |out| ensures out[a].id == row.id {
      assert out[a] in out;
    }
  }

  /** The records of one row come key by key, in the order the keys were selected. */
  lemma {:induction false} RowRecordsKeyOrder(row: Row, keys1: seq<string>, keys2: seq<string>, options: map<string, string>)
    ensures RowRecords(row, keys1 + keys2, options)
         == Then(RowRecords(row, keys1, options), RowRecords(row, keys2, options))
    decreases |keys1|
  {
    if keys1 == [] {
      assert keys1 + keys2 == keys2;
      ThenUnit(RowRecords(row, keys2, options));
    } else {
      assert (keys1 + keys2)[1..] == keys1[1..] + keys2;
      RowRecordsKeyOrder(row, keys1[1..], keys2, options);
      ThenAssociative(KeyRecords(row, keys1[0], options), RowRecords(row, keys1[1..], options),
                      RowRecords(row, keys2, options));
    }
  }

  /**
   * For one selected key whose value is a list, record m is built from sub-item
   * m: the row's identity, the key's label, and the sub-item's `detail` and
   * `description`, '' when absent.
   */
  lemma KeyRecordsInListOrder(row: Row, key: string, options: map<string, string>)
    requires row.info.PyDict? && key in row.info.fields && row.info.fields[key].PyList?
    requires KeyRecords(row, key, options).Ok?
    ensures var items := row.info.fields[key].items;
            var out := KeyRecords(row, key, options).value;
            && |out| == |items|
            && (items != [] ==> key in options)
            && forall m :: 0 <= m < |items| ==>
                 && items[m].PyDict?
                 && out[m] == OutRecord(row.id, row.name, row.dept, options[key],
                                        GetOr(items[m].fields, "detail"), GetOr(items[m].fields, "description"))
  {
    assert KeyRecords(row, key, options) == ItemRecords(row, key, options, row.info.fields[key].items);
  }

  lemma {:induction false} FlattenFromSorted(s: seq<Row>, seen: set<int>, keys: seq<string>, options: map<string, string>)
    requires SortedById(s) && FlattenFrom(s, seen, keys, options).Ok?
    ensures var out := FlattenFrom(s, seen, keys, options).value;
            && (forall a, b :: 0 <= a < b < |out| ==> out[a].id <= out[b].id)
            && (forall a :: 0 <= a < |out| ==> s[0].id <= out[a].id)
    decreases |s|
  {
    if s != [] {
      var head: Outcome := if s[0].id in seen then Ok([]) else RowRecords(s[0], keys, options);
      var tail := FlattenFrom(s[1..], seen + {s[0].id}, keys, options);
      var out := FlattenFrom(s, seen, keys, options).value;
      assert out == head.value + tail.value;
      if s[0].id !in seen {
        RowRecordsIds(s[0], keys, options);
      }
      assert forall a :: 0 <= a < |head.value| ==> head.value[a].id == s[0].id;
      if |s| > 1 {
        FlattenFromSorted(s[1..], seen + {s[0].id}, keys, options);
        assert s[0].id <= s[1..][0].id;
      }
    }
  }

  /** Records come in ascending Employee ID order, as the sorted rows do. */
  lemma RecordsSortedById(s: seq<Row>, keys: seq<string>, options: map<string, string>)
    requires SortedById(s) && Flatten(s, keys, options).Ok?
    ensures var out := Flatten(s, keys, options).value;
            forall a, b :: 0 <= a < b < |out| ==> out[a].id <= out[b].id
  {
    FlattenFromSorted(s, {}, keys, options);
  }

  // ---------------------------------------------------------------------------
  // Keys that were not selected, and mappings with nothing to extract.

  /**
   * Two rows that differ at most in the entries of their mappings under keys
   * that were not selected.
   */
  predicate SameOnKeys(r1: Row, r2: Row, keys: seq<string>)
  {
    && r1.id == r2.id && r1.name == r2.name && r1.dept == r2.dept
    && (|| r1.info == r2.info
        || (&& r1.info.PyDict? && r2.info.PyDict?
            && forall k :: k in keys ==>
                 && (k in r1.info.fields <==> k in r2.info.fields)
                 && (k in r1.info.fields ==> r1.info.fields[k] == r2.info.fields[k])))
  }

  lemma {:induction false} ItemRecordsSameIdentity(r1: Row, r2: Row, key: string, options: map<string, string>, items: seq<PyValue>)
    requires r1.id == r2.id && r1.name == r2.name && r1.dept == r2.dept
    ensures ItemRecords(r1, key, options, items) == ItemRecords(r2, key, options, items)
    decreases |items|
  {
    if items != [] {
      ItemRecordsSameIdentity(r1, r2, key, options, items[1..]);
    }
  }

  lemma {:induction false} RowRecordsSameOnKeys(r1: Row, r2: Row, keys: seq<string>, all: seq<string>, options: map<string, string>)
    requires SameOnKeys(r1, r2, all) && forall k :: k in keys ==> k in all
    ensures RowRecords(r1, keys, options) == RowRecords(r2, keys, options)
    decreases |keys|
  {
    if keys != [] {
      var key := keys[0];
      assert key in all;
      assert Lookup(r1.info, key) == Lookup(r2.info, key);
      var found := Lookup(r1.info, key);
      if found.Ok? && found.value.Some? {
        var v := found.value.value;
        if v.PyList? {
          ItemRecordsSameIdentity(r1, r2, key, options, v.items);
        } else if v.PyStr? {
          ItemRecordsSameIdentity(r1, r2, key, options, Chars(v.s));
        }
      }
      RowRecordsSameOnKeys(r1, r2, keys[1..], all, options);
    }
  }

  lemma {:induction false} OnlySelectedKeysMatterFrom(s1: seq<Row>, s2: seq<Row>, seen: set<int>,
                                                      keys: seq<string>, options: map<string, string>)
    requires |s1| == |s2| && forall i :: 0 <= i < |s1| ==> SameOnKeys(s1[i], s2[i], keys)
    ensures FlattenFrom(s1, seen, keys, options) == FlattenFrom(s2, seen, keys, options)
    decreases |s1|
  {
    if s1 != [] {
      assert SameOnKeys(s1[0], s2[0], keys);
      RowRecordsSameOnKeys(s1[0], s2[0], keys, keys, options);
      OnlySelectedKeysMatterFrom(s1[1..], s2[1..], seen + {s1[0].id}, keys, options);
    }
  }

  /**
   * What a row's mapping holds under keys that were not selected never shows in
   * the result, nor can it make the extraction raise.
   */
  lemma OnlySelectedKeysMatter(s1: seq<Row>, s2: seq<Row>, keys: seq<string>, options: map<string, string>)
    requires |s1| == |s2| && forall i :: 0 <= i < |s1| ==> SameOnKeys(s1[i], s2[i], keys)
    ensures Flatten(s1, keys, options) == Flatten(s2, keys, options)
  {
    OnlySelectedKeysMatterFrom(s1, s2, {}, keys, options);
  }

  lemma {:induction false} NoSelectedKeysFrom(s: seq<Row>, seen: set<int>, options: map<string, string>)
    ensures FlattenFrom(s, seen, [], options) == Ok([])
    decreases |s|
  {
    if s != [] {
      NoSelectedKeysFrom(s[1..], seen + {s[0].id}, options);
    }
  }

  /** With no key selected the extraction yields no record, whatever the rows hold. */
  lemma NoSelectedKeys(s: seq<Row>, options: map<string, string>)
    ensures Flatten(s, [], options) == Ok([])
  {
    NoSelectedKeysFrom(s, {}, options);
  }

  /**
   * A row whose Additional Info could not be parsed (invalid JSON text, or a
   * non-str cell such as NaN) holds the empty dict: it emits nothing and raises
   * nothing, whatever keys are selected.
   */
  lemma {:induction false} UnparsedInfoContributesNothing(x: PyValue, loads: string -> Option<PyValue>, row: Row,
                                                          keys: seq<string>, options: map<string, string>)
    requires !(x.PyStr? && loads(x.s).Some?) && row.info == LoadJsonSafe(x, loads)
    ensures RowRecords(row, keys, options) == Ok([])
    decreases |keys|
  {
    if keys != [] {
      UnparsedInfoContributesNothing(x, loads, row, keys[1..], options);
    }
  }

  /**
   * A row whose Additional Info decodes to `null` makes `key in json_info` raise
   * TypeError as soon as it is the first of its ID and a key is selected: the
   * extraction then fails, and when that row comes first the fault is TypeError.
   */
  lemma NullCellRaises(s: seq<Row>, i: int, text: string, loads: string -> Option<PyValue>,
                       keys: seq<string>, options: map<string, string>)
    requires 0 <= i < |s| && IsFirst(s, i) && keys != []
    requires loads(text) == Some(PyNone) && s[i].info == LoadJsonSafe(PyStr(text), loads)
    ensures Flatten(s, keys, options).Err?
    ensures i == 0 ==> Flatten(s, keys, options) == Err(TypeError)
  {
    FlattenSucceeds(s, keys, options);
  }

  // ---------------------------------------------------------------------------
  // Two worked inputs.

  /** One row with one skill gives exactly one record. */
  lemma OneSkillOneRecord()
    ensures var detail := PyDict(map["detail" := PyStr("Python"), "description" := PyStr("5yr")]);
            var row := Row(3, "A", "X", PyDict(map["skills" := PyList([detail])]));
            Flatten([row], ["skills"], map["skills" := "Skills"])
              == Ok([OutRecord(3, "A", "X", "Skills", PyStr("Python"), PyStr("5yr"))])
  {
    var detail := PyDict(map["detail" := PyStr("Python"), "description" := PyStr("5yr")]);
    var row := Row(3, "A", "X", PyDict(map["skills" := PyList([detail])]));
    var options := map["skills" := "Skills"];
    var rec := OutRecord(3, "A", "X", "Skills", PyStr("Python"), PyStr("5yr"));
    assert [detail][1..] == [];
    assert GetOr(detail.fields, "detail") == PyStr("Python");
    assert GetOr(detail.fields, "description") == PyStr("5yr");
    assert MakeRecord(row, "skills", options, detail) == Ok(rec);
    assert ItemRecords(row, "skills", options, [detail][1..]) == Ok([]);
    assert [rec] + [] == [rec];
    assert ItemRecords(row, "skills", options, [detail]) == Ok([rec]);
    assert KeyRecords(row, "skills", options) == Ok([rec]);
    assert ["skills"][1..] == [];
    assert RowRecords(row, ["skills"], options) == Ok([rec]);
    assert [row][1..] == [];
  }

  /** Of two rows with ID 7 the first one wins, even though only the second lists projects. */
  lemma FirstRowOfIdWins()
    ensures var project := PyDict(map["detail" := PyStr("Apollo")]);
            var rows := [Row(7, "B", "Y", PyDict(map[])), Row(7, "B", "Y", PyDict(map["projects" := PyList([project])]))];
            Flatten(rows, ["projects"], map["projects" := "Projects"]) == Ok([])
  {
    var project := PyDict(map["detail" := PyStr("Apollo")]);
    var rows := [Row(7, "B", "Y", PyDict(map[])), Row(7, "B", "Y", PyDict(map["projects" := PyList([project])]))];
    assert ["projects"][1..] == [];
    assert rows[1..][1..] == [];
  }
}
