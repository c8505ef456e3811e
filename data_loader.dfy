/**
 * `load_data`: pick a pandas reader from the suffix of a file path.
 *
 * The readers themselves (`pd.read_csv`, `pd.read_excel`) are foreign code;
 * they are a parameter `read` that yields a table or raises.
 */
module DataLoader {
  import opened Wrappers
  import opened Exceptions

  datatype Reader = CsvReader | ExcelReader

  const UnsupportedFormat := "Unsupported file format. Please use CSV or Excel files."

  /** `s.endswith(suffix)`: case-sensitive, on the end of the whole string. */
  predicate EndsWith(s: string, suffix: string)
    ensures EndsWith(s, suffix) <==>
      |suffix| <= |s| && forall i :: 0 <= i < |suffix| ==> s[|s| - |suffix| + i] == suffix[i]
  {
    |suffix| <= |s| && s[|s| - |suffix|..] == suffix
  }

  /** The reader `load_data` chooses, or the ValueError it raises. */
  function SelectReader(path: string): (r: Result<Reader, Exception>)
    ensures r == Success(CsvReader) <==> EndsWith(path, ".csv")
    ensures r == Success(ExcelReader) <==> EndsWith(path, ".xls") || EndsWith(path, ".xlsx")
    ensures r.Failure? <==> !EndsWith(path, ".csv") && !EndsWith(path, ".xls") && !EndsWith(path, ".xlsx")
    ensures r.Failure? ==> r.error == ValueError(UnsupportedFormat)
  {
    SuffixesExclusive(path);
    if EndsWith(path, ".csv") then Success(CsvReader)
    else if EndsWith(path, ".xls") || EndsWith(path, ".xlsx") then Success(ExcelReader)
    else Failure(ValueError(UnsupportedFormat))
  }

  /** `load_data(path)`: the chosen reader's table, or the error; no reader runs on a rejected path. */
  function LoadData<Table>(path: string, read: (Reader, string) -> Result<Table, Exception>): (r: Result<Table, Exception>)
    ensures SelectReader(path).Success? ==> r == read(SelectReader(path).value, path)
    ensures SelectReader(path).Failure? ==> r == Failure(ValueError(UnsupportedFormat))
  {
    match SelectReader(path)
    case Success(reader) => read(reader, path)
    case Failure(e) => Failure(e)
  }

  /** A suffix test agrees with "the path is some prefix followed by the suffix". */
  lemma EndsWithIff(s: string, suffix: string)
    ensures EndsWith(s, suffix) <==> exists prefix :: s == prefix + suffix
  {
    if EndsWith(s, suffix) {
      var prefix := s[..|s| - |suffix|];
      assert s == prefix + suffix;
    }
    if exists prefix :: s == prefix + suffix {
      var prefix :| s == prefix + suffix;
      assert s[|s| - |suffix|..] == suffix;
    }
  }

  /** Any name followed by one of the three extensions selects the matching reader. */
  lemma ExtensionSelectsReader(name: string)
    ensures SelectReader(name + ".csv") == Success(CsvReader)
    ensures SelectReader(name + ".xls") == Success(ExcelReader)
    ensures SelectReader(name + ".xlsx") == Success(ExcelReader)
  {
  }

  /** The test is case-sensitive and only looks at the very end of the path. */
  lemma SuffixTestIsExact()
    ensures SelectReader("DATA.CSV") == Failure(ValueError(UnsupportedFormat))
    ensures SelectReader("a.csv.bak") == Failure(ValueError(UnsupportedFormat))
    ensures SelectReader("book.XLSX") == Failure(ValueError(UnsupportedFormat))
  {
  }

  /** No path ends with both the CSV and an Excel suffix, so at most one reader fits. */
  lemma SuffixesExclusive(path: string)
    ensures !(EndsWith(path, ".csv") && (EndsWith(path, ".xls") || EndsWith(path, ".xlsx")))
  {
    if EndsWith(path, ".csv") {
      assert path[|path| - 1] == ".csv"[3] == 'v';
    }
  }
}
