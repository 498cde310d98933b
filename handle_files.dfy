/** Uploaded spreadsheets of the web application: the file-name check and the conversion of a
    sheet into locations (depot first) and delivery index pairs. Reading the Excel file is left
    to pandas; a sheet here is its header row and its data rows. */
module HandleFiles {
  import opened Common
  import opened Algorithm
  import opened Generate

  /** `str.lower()` on ASCII letters; every other character is left alone. */
  function LowerChar(c: char): (l: char)
    ensures 'A' <= c <= 'Z' ==> l as int == c as int + 32
    ensures !('A' <= c <= 'Z') ==> l == c
  {
    if 'A' <= c <= 'Z' then (c as int + 32) as char else c
  }

  function Lower(s: string): (l: string)
    ensures |l| == |s| && forall i :: 0 <= i < |s| ==> l[i] == LowerChar(s[i])
  {
    seq(|s|, i requires 0 <= i < |s| => LowerChar(s[i]))
  }

  /** `k` is the position of the last '.' of `s`, the split point of `rsplit('.', 1)`. */
  predicate IsLastDot(s: string, k: nat)
  {
    k < |s| && s[k] == '.' && forall j :: k < j < |s| ==> s[j] != '.'
  }

  function LastDot(s: string): (k: Option<nat>)
    ensures k.None? <==> '.' !in s
    ensures k.Some? ==> IsLastDot(s, k.value)
  {
    if s == [] then None
    else if s[|s| - 1] == '.' then Some(|s| - 1)
    else LastDot(s[..|s| - 1])
  }

  lemma LastDotUnique(s: string, k: nat, k': nat)
    requires IsLastDot(s, k) && IsLastDot(s, k')
    ensures k == k'
  {
  }

  /** The set `{'xls', 'xlsx'}`. */
  predicate IsExcelExtension(e: string)
  {
    e == "xls" || e == "xlsx"
  }

  /** `allowed_file(filename)`: the name has a '.' and the text after the last '.' is "xls" or
      "xlsx" in any letter case. */
  function AllowedFile(filename: string): (ok: bool)
    ensures ok <==> exists k: nat :: IsLastDot(filename, k) && IsExcelExtension(Lower(filename[k + 1..]))
  {
    match LastDot(filename)
    case None => false
    case Some(k) =>
      assert forall k': nat :: IsLastDot(filename, k') ==> k' == k by {
        forall k': nat | IsLastDot(filename, k') ensures k' == k {
          LastDotUnique(filename, k, k');
        }
      }
      IsExcelExtension(Lower(filename[k + 1..]))
  }

  /** Names `allowed_file` accepts. */
  lemma AllowedFileAccepts()
    ensures AllowedFile("orders.XLSX") && AllowedFile("a.b.xls")
  {
    assert IsLastDot("orders.XLSX", 6);
    assert "orders.XLSX"[7..] == "XLSX";
    assert Lower("XLSX") == "xlsx";
    assert IsLastDot("a.b.xls", 3);
    assert "a.b.xls"[4..] == "xls" && Lower("xls") == "xls";
  }

  /** Names `allowed_file` refuses: another extension, no '.' at all, and an Excel extension that
      is not the last one. */
  lemma AllowedFileRefuses()
    ensures !AllowedFile("orders.csv") && !AllowedFile("xlsx") && !AllowedFile("orders.xlsx.csv")
  {
    assert IsLastDot("orders.csv", 6);
    assert "orders.csv"[7..] == "csv" && Lower("csv") == "csv";
    assert IsLastDot("orders.xlsx.csv", 11);
    assert "orders.xlsx.csv"[12..] == "csv";
    assert '.' !in "xlsx" by {
      assert forall i :: 0 <= i < 4 ==> "xlsx"[i] != '.';
    }
  }

  /** A sheet as pandas reads it: `columns` is the header row (the depot coordinates stand in
      columns 1 and 2), every data row holds a pickup in columns 1-2 and a dropoff in 3-4. */
  datatype Sheet = Sheet(columns: seq<real>, rows: seq<seq<real>>)

  predicate WellShaped(sheet: Sheet)
  {
    |sheet.columns| >= 3 && forall r :: 0 <= r < |sheet.rows| ==> |sheet.rows[r]| >= 5
  }

  function PickupOf(row: seq<real>): Loc
    requires |row| >= 5
  {
    Loc(row[1], row[2])
  }

  function DropoffOf(row: seq<real>): Loc
    requires |row| >= 5
  {
    Loc(row[3], row[4])
  }

  /** The number of transport requests of a sheet: data row 0 is not read. */
  function RequestCount(sheet: Sheet): nat
  {
    if |sheet.rows| == 0 then 0 else |sheet.rows| - 1
  }

  /** `process_excel(file)`: the depot from the header, then for rows 1.. a pickup and a
      dropoff, then the deliveries numbered as `assign_deliveries` numbers them. Delivery t
      names exactly the pickup and the dropoff of data row t + 1. */
  method ProcessExcel(sheet: Sheet) returns (locations: seq<Loc>, deliveries: seq<Pair>)
    requires WellShaped(sheet)
    ensures |locations| == 1 + 2 * RequestCount(sheet)
    ensures locations[0] == Loc(sheet.columns[1], sheet.columns[2])
    ensures forall r :: 1 <= r < |sheet.rows| ==>
              locations[2 * r - 1] == PickupOf(sheet.rows[r]) && locations[2 * r] == DropoffOf(sheet.rows[r])
    ensures |deliveries| == RequestCount(sheet)
    ensures forall t :: 0 <= t < |deliveries| ==>
              deliveries[t].0 < |locations| && deliveries[t].1 < |locations|
              && locations[deliveries[t].0] == PickupOf(sheet.rows[t + 1])
              && locations[deliveries[t].1] == DropoffOf(sheet.rows[t + 1])
  {
    locations := [Loc(sheet.columns[1], sheet.columns[2])];
    var row := 1;
    while row < |sheet.rows|
      invariant row == 1 || row <= |sheet.rows|
      invariant |locations| == 2 * row - 1
      invariant locations[0] == Loc(sheet.columns[1], sheet.columns[2])
      invariant forall r :: 1 <= r < row && r < |sheet.rows| ==>
                  locations[2 * r - 1] == PickupOf(sheet.rows[r]) && locations[2 * r] == DropoffOf(sheet.rows[r])
    {
      locations := locations + [PickupOf(sheet.rows[row]), DropoffOf(sheet.rows[row])];
      row := row + 1;
    }
    deliveries := AssignDeliveries(locations);
    assert DeliveryAmount(|locations|) == row - 1 == RequestCount(sheet);
    forall t | 0 <= t < |deliveries|
      ensures deliveries[t].0 < |locations| && deliveries[t].1 < |locations|
              && locations[deliveries[t].0] == PickupOf(sheet.rows[t + 1])
              && locations[deliveries[t].1] == DropoffOf(sheet.rows[t + 1])
    {
      assert deliveries[t] == (2 * (t + 1) - 1, 2 * (t + 1));
    }
  }
}
