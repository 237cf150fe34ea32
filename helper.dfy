/** load_table: how a table source is classified into the pandas reader that loads it.
    The readers themselves are not modelled: a reader call is its kind, and what the reader
    does when called is given as a ReaderOutcome. */
module Helper {
  import opened Common

  /** What load_table was given: a str/Path, raw bytes, or a file-like object whose `name`
      attribute is `name` ("" when the attribute is missing or falsy). */
  datatype Source = PathText(path: string) | Bytes | FileLike(name: string)

  /** The pandas reader load_table calls. */
  datatype ReaderKind =
    | CsvSniff                    // read_csv with sep=None (delimiter inference)
    | CsvTab                      // read_csv with sep="\t"
    | ExcelOpenpyxl(sheet: Value) // read_excel with engine openpyxl
    | ExcelXlrd(sheet: Value)     // read_excel with engine xlrd

  /** What the chosen reader does when called. */
  datatype ReaderOutcome = ReadOk | ReadRaises(err: PyError)

  const XlrdHint := "Reading .xls requires 'xlrd<2.0'. Install with: pip install 'xlrd<2.0'"

  /** The last '/'-separated segment of a path: all of the text after its last '/'. */
  function LastSegment(p: string): (r: string)
    ensures '/' !in r
    ensures |r| <= |p| && r == p[|p| - |r|..]
    ensures |r| < |p| ==> p[|p| - |r| - 1] == '/'
  {
    if p == [] || p[|p| - 1] == '/' then [] else LastSegment(p[..|p| - 1]) + [p[|p| - 1]]
  }

  /** pathlib's `name` of a POSIX path: the last component, ignoring trailing slashes and
      "." components. */
  function Name(p: string): (r: string)
    ensures '/' !in r
  {
    if p == [] then []
    else if p[|p| - 1] == '/' then Name(p[..|p| - 1])
    else if LastSegment(p) == "." then Name(p[..|p| - 1])
    else LastSegment(p)
  }

  /** The name of a path is its last component, whether or not a slash follows it. */
  lemma NameOfSegment(d: string, s: string)
    requires '/' !in s && s != "" && s != "."
    ensures Name(d + "/" + s) == s && Name(d + "/" + s + "/") == s
  {
    var p := d + "/" + s;
    LastSegmentOf(d, s);
    assert (p + "/")[..|p + "/"| - 1] == p;
  }

  /** A bare file name, with no directory part, is its own name. */
  lemma NameOfBare(s: string)
    requires '/' !in s && s != "" && s != "."
    ensures Name(s) == s && Name(s + "/") == s
  {
    assert (s + "/")[..|s + "/"| - 1] == s;
  }

  /** The extension of a bare file name is its own lower-cased suffix. */
  lemma BareExtension(s: string)
    requires '/' !in s && s != "" && s != "."
    ensures Extension(PathText(s)) == Some(Lower(Suffix(s)))
  {
    NameOfBare(s);
  }

  /** "train.CSV" has the suffix ".CSV", which lower-cases to ".csv". */
  lemma TrainCsvSuffix()
    ensures Suffix("train.CSV") == ".CSV" && Lower(Suffix("train.CSV")) == ".csv"
  {
    var n := "train.CSV";
    assert n[5] == '.' && forall j | 5 < j < |n| :: n[j] != '.';
    assert LastDot(n) == 5;
    assert n[5..] == ".CSV";
    assert Lower(".CSV") == ".csv";
  }

  /** A bare file name whose final suffix is ".csv" in any letter case, such as "train.CSV",
      selects the sniffing CSV reader. */
  lemma BareCsvSniffed(n: string, sheet: Value)
    requires '/' !in n && n != "" && n != "." && Lower(Suffix(n)) == ".csv"
    ensures Classify(PathText(n), sheet) == Ok(CsvSniff)
  {
    BareExtension(n);
  }

  lemma {:induction false} LastSegmentOf(d: string, s: string)
    requires '/' !in s
    ensures LastSegment(d + "/" + s) == s
  {
    var p := d + "/" + s;
    assert p[|p| - |s| - 1] == '/' && p[|p| - |s|..] == s;
  }

  /** str.rfind('.'): the index of the last dot, or -1. */
  function LastDot(n: string): (i: int)
    ensures -1 <= i < |n|
    ensures i >= 0 ==> n[i] == '.'
    ensures forall j | i < j < |n| :: n[j] != '.'
  {
    if n == [] then -1
    else if n[|n| - 1] == '.' then |n| - 1
    else LastDot(n[..|n| - 1])
  }

  /** pathlib's `suffix` of a name: from the last dot on, when that dot is neither the first
      nor the last character; otherwise "". */
  function Suffix(n: string): (r: string)
    ensures r == [] || (r[0] == '.' && |r| >= 2 && '.' !in r[1..])
    ensures r != [] <==> 0 < LastDot(n) < |n| - 1
    ensures r != [] ==> r == n[LastDot(n)..]
  {
    var i := LastDot(n);
    if 0 < i < |n| - 1 then n[i..] else []
  }

  /** The extension load_table branches on: the lowercased suffix for a path, nothing for
      bytes, and for a file-like object the lowercased suffix of its name when it has one. */
  function Extension(src: Source): Option<string> {
    match src
    case PathText(p) => Some(Lower(Suffix(Name(p))))
    case Bytes => None
    case FileLike(n) => if n == "" then None else Some(Lower(Suffix(Name(n))))
  }

  predicate IsTextExt(e: string) { e == ".csv" || e == ".tsv" || e == ".txt" }

  predicate IsModernExcelExt(e: string) {
    e == ".xlsx" || e == ".xlsm" || e == ".xltx" || e == ".xltm"
  }

  predicate IsKnownExt(e: string) { IsTextExt(e) || IsModernExcelExt(e) || e == ".xls" }

  /** Which reader load_table calls for a source, or the ValueError it raises for an
      unsupported extension. */
  function Classify(src: Source, sheet: Value): (r: Result<ReaderKind, PyError>)
    ensures Extension(src).None? ==> r == Ok(CsvSniff)
    ensures r == Ok(CsvTab) <==> Extension(src) == Some(".tsv")
    ensures r == Ok(CsvSniff) <==>
              Extension(src).None? || Extension(src) == Some(".csv") || Extension(src) == Some(".txt")
    ensures r == Ok(ExcelOpenpyxl(sheet)) <==>
              Extension(src).Some? && IsModernExcelExt(Extension(src).value)
    ensures r == Ok(ExcelXlrd(sheet)) <==> Extension(src) == Some(".xls")
    ensures r.Err? <==> Extension(src).Some? && !IsKnownExt(Extension(src).value)
    ensures r.Err? ==>
              r.error == Raised("ValueError", "Unsupported file type: " + PyRepr(Extension(src).value))
  {
    match Extension(src)
    case None => Ok(CsvSniff)
    case Some(e) =>
      if IsTextExt(e) then (if e == ".tsv" then Ok(CsvTab) else Ok(CsvSniff))
      else if IsModernExcelExt(e) then Ok(ExcelOpenpyxl(sheet))
      else if e == ".xls" then Ok(ExcelXlrd(sheet))
      else Err(Raised("ValueError", "Unsupported file type: " + PyRepr(e)))
  }

  predicate IsImportError(e: PyError) {
    e.Raised? && (e.kind == "ImportError" || e.kind == "ModuleNotFoundError")
  }

  /** load_table: classify the source, then call the reader; only the xlrd reader turns an
      ImportError into a RuntimeError carrying the install hint. */
  function LoadTable(src: Source, sheet: Value, outcome: ReaderOutcome): (r: Result<ReaderKind, PyError>)
    ensures Classify(src, sheet).Err? ==> r == Classify(src, sheet)
    ensures outcome == ReadOk ==> r == Classify(src, sheet)
    ensures r.Ok? <==> Classify(src, sheet).Ok? && outcome == ReadOk
    ensures (Classify(src, sheet) == Ok(ExcelXlrd(sheet)) && outcome.ReadRaises? && IsImportError(outcome.err))
              ==> r == Err(Raised("RuntimeError", XlrdHint))
    ensures (Classify(src, sheet).Ok? && outcome.ReadRaises? &&
             !(Classify(src, sheet) == Ok(ExcelXlrd(sheet)) && IsImportError(outcome.err)))
              ==> r == Err(outcome.err)
  {
    match Classify(src, sheet)
    case Err(e) => Err(e)
    case Ok(kind) =>
      match outcome
      case ReadOk => Ok(kind)
      case ReadRaises(e) =>
        if kind.ExcelXlrd? && IsImportError(e) then Err(Raised("RuntimeError", XlrdHint)) else Err(e)
  }

  lemma {:induction false} LastSegmentLower(p: string)
    ensures LastSegment(Lower(p)) == Lower(LastSegment(p))
    decreases |p|
  {
    if p != [] && p[|p| - 1] != '/' {
      var q, c := p[..|p| - 1], p[|p| - 1];
      var lp := Lower(p);
      assert lp[..|p| - 1] == Lower(q);
      assert lp[|p| - 1] == LowerChar(c) != '/';
      assert LastSegment(lp) == LastSegment(Lower(q)) + [LowerChar(c)];
      LastSegmentLower(q);
      assert Lower(LastSegment(q) + [c]) == Lower(LastSegment(q)) + [LowerChar(c)];
    } else if p != [] {
      assert Lower(p)[|p| - 1] == '/';
    }
  }

  lemma {:induction false} NameLower(p: string)
    ensures Name(Lower(p)) == Lower(Name(p))
    decreases |p|
  {
    if p != [] {
      var lp := Lower(p);
      assert lp[..|p| - 1] == Lower(p[..|p| - 1]);
      LastSegmentLower(p);
      if p[|p| - 1] == '/' {
        NameLower(p[..|p| - 1]);
      } else {
        if LastSegment(p) == "." {
          NameLower(p[..|p| - 1]);
        }
      }
    }
  }

  lemma {:induction false} LastDotLower(n: string)
    ensures LastDot(Lower(n)) == LastDot(n)
    decreases |n|
  {
    if n != [] {
      assert Lower(n)[..|n| - 1] == Lower(n[..|n| - 1]);
      LastDotLower(n[..|n| - 1]);
    }
  }

  lemma SuffixLower(n: string)
    ensures Suffix(Lower(n)) == Lower(Suffix(n))
  {
    LastDotLower(n);
    var i := LastDot(n);
    if 0 < i < |n| - 1 {
      assert Lower(n)[i..] == Lower(n[i..]);
    }
  }

  /** The extension of a path does not depend on letter case: ".CSV" and ".csv" select the
      same reader. */
  lemma ExtensionIgnoresCase(p: string, q: string, sheet: Value)
    requires Lower(p) == Lower(q)
    ensures Extension(PathText(p)) == Extension(PathText(q))
    ensures Classify(PathText(p), sheet) == Classify(PathText(q), sheet)
  {
    NameLower(p);
    NameLower(q);
    SuffixLower(Name(p));
    SuffixLower(Name(q));
  }

  lemma {:induction false} LastSegmentChars(p: string)
    ensures forall c | c in LastSegment(p) :: c in p
  {
  }

  lemma {:induction false} NameChars(p: string)
    ensures forall c | c in Name(p) :: c in p
    decreases |p|
  {
    if p != [] {
      LastSegmentChars(p);
      if p[|p| - 1] == '/' || LastSegment(p) == "." {
        NameChars(p[..|p| - 1]);
      }
    }
  }

  /** A str path without any dot has the empty suffix "", which is not None: load_table
      rejects it as an unsupported file type instead of sniffing it as CSV. */
  lemma DotlessPathRejected(p: string, sheet: Value)
    requires '.' !in p
    ensures Classify(PathText(p), sheet) == Err(Raised("ValueError", "Unsupported file type: ''"))
  {
    NameChars(p);
    assert LastDot(Name(p)) == -1;
    assert Suffix(Name(p)) == [];
    assert Lower([]) == [];
    assert Extension(PathText(p)) == Some([]);
    assert PyRepr([]) == "''";
    assert !IsKnownExt([]);
    assert "Unsupported file type: " + "''" == "Unsupported file type: ''";
  }
}
