/**
 * The two leaf stages in front of the extractor: choosing a reader from the
 * uploaded file's name (`load_file`) and parsing one Additional Info cell
 * (`load_json_safe`). The pandas readers and `json.loads` are not modelled:
 * the dispatch names the reader it would call, and the JSON decoder is a parameter.
 */
module Loader {
  import opened Wrappers
  import opened PyValues

  datatype Reader = CsvReader | ExcelReader

  const UnsupportedMessage: string := "Unsupported file type."

  /** Python's `s.endswith(suffix)`: exact, case-sensitive. */
  predicate EndsWith(s: string, suffix: string)
  {
    |suffix| <= |s| && s[|s| - |suffix|..] == suffix
  }

  /**
   * The reader `load_file` hands the upload to: `.csv` first, then `.xls` or
   * `.xlsx`; any other name is refused with the message shown to the user.
   */
  function ReaderFor(name: string): (r: Result<Reader, string>)
    ensures r == Ok(CsvReader) <==> EndsWith(name, ".csv")
    ensures r == Ok(ExcelReader) <==> !EndsWith(name, ".csv") && (EndsWith(name, ".xls") || EndsWith(name, ".xlsx"))
    ensures r.Err? <==> !EndsWith(name, ".csv") && !EndsWith(name, ".xls") && !EndsWith(name, ".xlsx")
    ensures r.Err? ==> r.error == UnsupportedMessage
  {
    if EndsWith(name, ".csv") then Ok(CsvReader)
    else if EndsWith(name, ".xls") || EndsWith(name, ".xlsx") then Ok(ExcelReader)
    else Err(UnsupportedMessage)
  }

  /** A name whose last character differs from the suffix's does not end with it. */
  lemma LastCharRulesOut(name: string, suffix: string)
    requires |name| > 0 && |suffix| > 0 && name[|name| - 1] != suffix[|suffix| - 1]
    ensures !EndsWith(name, suffix)
  {
    if |suffix| <= |name| {
      assert name[|name| - |suffix|..][|suffix| - 1] == name[|name| - 1];
    }
  }

  /** Spreadsheet names always reach the Excel reader: neither suffix ends in "v". */
  lemma SpreadsheetNamesUseExcel(name: string)
    requires EndsWith(name, ".xls") || EndsWith(name, ".xlsx")
    ensures ReaderFor(name) == Ok(ExcelReader)
  {
    assert name[|name| - 1] == 's' || name[|name| - 1] == 'x' by {
      if EndsWith(name, ".xls") {
        assert name[|name| - 4..][3] == name[|name| - 1];
      } else {
        assert name[|name| - 5..][4] == name[|name| - 1];
      }
    }
    LastCharRulesOut(name, ".csv");
  }

  /** The match is case-sensitive: a name ending in an upper-case suffix is refused. */
  lemma UpperCaseSuffixRefused(stem: string)
    ensures ReaderFor(stem + ".CSV") == Err(UnsupportedMessage)
    ensures ReaderFor(stem + ".XLSX") == Err(UnsupportedMessage)
  {
    var a, b := stem + ".CSV", stem + ".XLSX";
    assert a[|a| - 1] == 'V' && b[|b| - 1] == 'X';
    LastCharRulesOut(a, ".csv");
    LastCharRulesOut(a, ".xls");
    LastCharRulesOut(a, ".xlsx");
    LastCharRulesOut(b, ".csv");
    LastCharRulesOut(b, ".xls");
    LastCharRulesOut(b, ".xlsx");
  }

  /**
   * `load_json_safe(x)`: `json.loads(x)` (here the parameter `loads`, `None` when
   * it raises JSONDecodeError); a non-str cell such as NaN makes `json.loads`
   * raise TypeError. Both errors give the empty dict; nothing escapes.
   */
  function LoadJsonSafe(x: PyValue, loads: string -> Option<PyValue>): (r: PyValue)
    ensures x.PyStr? && loads(x.s).Some? ==> r == loads(x.s).value
    ensures !(x.PyStr? && loads(x.s).Some?) ==> r == PyDict(map[])
  {
    match x
    case PyStr(text) =>
      (match loads(text)
       case Some(v) => v
       case None => PyDict(map[]))
    case _ => PyDict(map[])
  }

  /**
   * The column is overwritten in place, so parsing it a second time sees the
   * parsed values: every cell that did not decode to a str becomes the empty dict.
   */
  lemma LoadJsonSafeTwice(x: PyValue, loads: string -> Option<PyValue>)
    requires !LoadJsonSafe(x, loads).PyStr?
    ensures LoadJsonSafe(LoadJsonSafe(x, loads), loads) == PyDict(map[])
  {
  }
}
