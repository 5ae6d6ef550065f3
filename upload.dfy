/**
 * The two pure checks of the upload route: the identifier cleaner applied to
 * every cell of the "Aadhar No" column, the row filter that follows it, and
 * the file-extension test.  A spreadsheet cell is an `Option<string>`: `None`
 * is a missing (NaN) cell, `Some(s)` the cell's text.
 */
module Upload {
  import opened Wrappers
  import opened Text

  const IdLength: nat := 12

  /** A well-formed identifier: exactly twelve ASCII digits. */
  predicate IsAadhaar(s: string) {
    |s| == IdLength && AllDigits(s)
  }

  /** `s.split('.')[0]`: the text before the first dot, or all of `s`. */
  function BeforeFirstDot(s: string): (r: string)
    ensures r <= s
    ensures '.' !in r
    ensures r == s || s[|r|] == '.'
  {
    if s == [] || s[0] == '.' then []
    else [s[0]] + BeforeFirstDot(s[1..])
  }

  /** `d.zfill(width)` for a string of digits only (no sign to keep in front). */
  function ZeroFill(d: string, width: nat): (r: string)
    requires |d| <= width
  {
    seq(width - |d|, _ => '0') + d
  }

  /** `clean_aadhar`: digits before the first dot, cut or zero-padded to twelve. */
  function CleanAadhar(cell: Option<string>): (r: string)
    ensures cell.None? <==> r == ""
    ensures cell.Some? ==> IsAadhaar(r)
  {
    match cell
    case None => ""
    case Some(s) =>
      var d := Digits(BeforeFirstDot(s));
      if |d| > IdLength then d[..IdLength]
      else if |d| < IdLength then ZeroFill(d, IdLength)
      else d
  }

  /**
   * What the cleaner keeps: with twelve or more digits before the first dot,
   * the first twelve of them; with fewer, all of them behind leading zeros.
   */
  lemma CleanAadharKeepsLeadingDigits(s: string)
    ensures var d := Digits(BeforeFirstDot(s));
            var r := CleanAadhar(Some(s));
            && (|d| >= IdLength ==> r == d[..IdLength])
            && (|d| < IdLength ==> r[IdLength - |d|..] == d &&
                                   forall k :: 0 <= k < IdLength - |d| ==> r[k] == '0')
  {
  }

  /** Text after the first dot never reaches the identifier. */
  lemma {:induction false} CleanAadharIgnoresFraction(s: string, t: string)
    requires '.' !in s
    ensures CleanAadhar(Some(s + "." + t)) == CleanAadhar(Some(s))
  {
    BeforeFirstDotStops(s, t);
  }

  lemma {:induction false} BeforeFirstDotStops(s: string, t: string)
    requires '.' !in s
    ensures BeforeFirstDot(s + "." + t) == s && BeforeFirstDot(s) == s
  {
    if s != [] {
      assert (s + "." + t)[1..] == s[1..] + "." + t;
      BeforeFirstDotStops(s[1..], t);
    }
  }

  lemma {:induction false} BeforeFirstDotOfDigits(s: string)
    requires AllDigits(s)
    ensures BeforeFirstDot(s) == s
  {
    if s != [] {
      BeforeFirstDotOfDigits(s[1..]);
    }
  }

  /** A twelve-digit identifier comes back unchanged. */
  lemma CleanAadharFixesIdentifiers(s: string)
    requires IsAadhaar(s)
    ensures CleanAadhar(Some(s)) == s
  {
    BeforeFirstDotOfDigits(s);
  }

  /** Cleaning twice is cleaning once. */
  lemma CleanAadharIdempotent(cell: Option<string>)
    requires cell.Some?
    ensures CleanAadhar(Some(CleanAadhar(cell))) == CleanAadhar(cell)
  {
    CleanAadharFixesIdentifiers(CleanAadhar(cell));
  }

  /** A present cell without any digit becomes twelve zeros, not a missing value. */
  lemma {:induction false} CleanAadharOfNoDigits(s: string)
    requires forall k :: 0 <= k < |s| ==> !IsDigit(s[k])
    ensures CleanAadhar(Some(s)) == "000000000000"
  {
    NoDigits(BeforeFirstDot(s));
  }

  lemma {:induction false} NoDigits(s: string)
    requires forall k :: 0 <= k < |s| ==> !IsDigit(s[k])
    ensures Digits(s) == []
  {
    if s != [] {
      NoDigits(s[1..]);
    }
  }

  /**
   * Lines 976-978: clean every cell, drop empty results, keep the rows that
   * match `^\d{12}$`.
   */
  function ValidRecords(cells: seq<Option<string>>): seq<string> {
    if cells == [] then []
    else
      var c := CleanAadhar(cells[0]);
      (if c != "" && IsAadhaar(c) then [c] else []) + ValidRecords(cells[1..])
  }

  /** The cleaned identifiers of the present cells, in their order. */
  function PresentCleaned(cells: seq<Option<string>>): seq<string> {
    if cells == [] then []
    else (if cells[0].Some? then [CleanAadhar(cells[0])] else []) + PresentCleaned(cells[1..])
  }

  /**
   * The filters only remove missing cells: the twelve-digit match never
   * rejects a row that the emptiness test kept.
   */
  lemma {:induction false} ValidRecordsArePresentCells(cells: seq<Option<string>>)
    ensures ValidRecords(cells) == PresentCleaned(cells)
    ensures forall k :: 0 <= k < |ValidRecords(cells)| ==> IsAadhaar(ValidRecords(cells)[k])
  {
    if cells != [] {
      ValidRecordsArePresentCells(cells[1..]);
    }
  }

  /** Line 980: the upload is refused exactly when every cell is missing. */
  lemma {:induction false} NoValidRecordsIff(cells: seq<Option<string>>)
    ensures ValidRecords(cells) == [] <==> forall k :: 0 <= k < |cells| ==> cells[k].None?
  {
    if cells != [] {
      NoValidRecordsIff(cells[1..]);
      assert forall k :: 1 <= k < |cells| ==> cells[k] == cells[1..][k - 1];
    }
  }

  /** `rsplit('.', 1)[1]`: the text after the last dot. */
  function AfterLastDot(f: string): (r: string)
    requires '.' in f
    ensures '.' !in r
    ensures |r| < |f| && f[|f| - |r| - 1] == '.' && r == f[|f| - |r|..]
  {
    var n := |f|;
    if f[n - 1] == '.' then []
    else
      assert f == f[..n - 1] + [f[n - 1]];
      AfterLastDot(f[..n - 1]) + [f[n - 1]]
  }

  /** `allowed_file`. */
  predicate AllowedFile(filename: string) {
    '.' in filename && Lower(AfterLastDot(filename)) in {"xlsx", "xls"}
  }

  /**
   * A name is accepted iff it has a dot and the text after its LAST dot is
   * "xlsx" or "xls" ignoring case.
   */
  lemma AllowedFileIff(f: string)
    ensures AllowedFile(f) <==>
      exists i :: 0 <= i < |f| && f[i] == '.' && '.' !in f[i + 1..] && Lower(f[i + 1..]) in {"xlsx", "xls"}
  {
    if AllowedFile(f) {
      var r := AfterLastDot(f);
      var i := |f| - |r| - 1;
      assert f[i + 1..] == r;
    }
    forall i | 0 <= i < |f| && f[i] == '.' && '.' !in f[i + 1..]
      ensures f[i + 1..] == AfterLastDot(f)
    {
    }
  }

  /** Upper case in the extension is accepted. */
  lemma AllowedFileUpperCase()
    ensures AllowedFile("loans.XLSX")
  {
    var f := "loans.XLSX";
    assert f[5] == '.' && f[6..] == "XLSX";
    assert Lower("XLSX") == "xlsx";
    AllowedFileIff(f);
  }

  /** Only the suffix after the last dot is compared. */
  lemma AllowedFileLastSuffix()
    ensures !AllowedFile("a.xlsx.txt")
  {
    var f := "a.xlsx.txt";
    assert f[6] == '.' && f[7..] == "txt";
    AllowedFileIff(f);
    assert Lower("txt") == "txt";
  }

  /** A name without a dot is refused, even when it reads "xlsx". */
  lemma AllowedFileNeedsDot()
    ensures !AllowedFile("xlsx")
  {
  }
}
