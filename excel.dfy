/** Model of the pure parts of frontend/utils/excel.ts: the hunt for the
    real header row inside `parseExcel`, and `normalizeKeys`, which renames
    a spreadsheet row's columns to the dashboard's field names. Reading the
    workbook and re-parsing from the chosen row are XLSX I/O and are not
    modelled. */
module Excel {
  import opened Strings
  import opened JsonValues

  // ---------------------------------------------------------------------
  // Header-row hunt
  // ---------------------------------------------------------------------

  /** Rows inspected at most. */
  const HeaderScanLimit := 20

  /** `JSON.stringify(row).toLowerCase()` names both a container and a shipping column. */
  predicate IsHeaderRow(rowText: string)
  {
    Contains(Lower(rowText), "container") && Contains(Lower(rowText), "shipping")
  }

  function Min(a: int, b: int): int
  {
    if a < b then a else b
  }

  /** The loop over the first min(rows, 20) row texts; `rowTexts[i]` is
      `JSON.stringify(rawData[i])`. It answers the first header row, or
      (0, false) when none of the inspected rows is one. */
  method FindHeaderRow(rowTexts: seq<string>) returns (headerRowIndex: nat, foundHeaders: bool)
    ensures foundHeaders ==>
      && headerRowIndex < Min(|rowTexts|, HeaderScanLimit)
      && IsHeaderRow(rowTexts[headerRowIndex])
      && forall j :: 0 <= j < headerRowIndex ==> !IsHeaderRow(rowTexts[j])
    ensures !foundHeaders ==>
      && headerRowIndex == 0
      && forall j :: 0 <= j < Min(|rowTexts|, HeaderScanLimit) ==> !IsHeaderRow(rowTexts[j])
  {
    headerRowIndex, foundHeaders := 0, false;
    var i := 0;
    while i < Min(|rowTexts|, HeaderScanLimit)
      invariant 0 <= i <= Min(|rowTexts|, HeaderScanLimit)
      invariant forall j :: 0 <= j < i ==> !IsHeaderRow(rowTexts[j])
    {
      if IsHeaderRow(rowTexts[i]) {
        headerRowIndex, foundHeaders := i, true;
        return;
      }
      i := i + 1;
    }
  }

  /** Rows past the twentieth are never looked at: a header there is missed. */
  method LateHeaderMissed(rowTexts: seq<string>) returns (found: bool)
    requires |rowTexts| > HeaderScanLimit
    requires forall j :: 0 <= j < HeaderScanLimit ==> !IsHeaderRow(rowTexts[j])
    ensures !found
  {
    var _, f := FindHeaderRow(rowTexts);
    found := f;
  }

  // ---------------------------------------------------------------------
  // normalizeKeys
  // ---------------------------------------------------------------------

  /** A spreadsheet row as `Object.keys` lists it: (column, cell) pairs. */
  type Row = seq<(string, Json)>

  /** The field a column is stored under, decided on the lower-cased,
      trimmed column name: a tracking-number column, else a carrier column,
      else exactly "eta", else the original name. */
  function Target(key: string): string
  {
    TargetFor(Trim(Lower(key)), key)
  }

  /** The mapping ladder over the matched form `l` of the column `key`. */
  function TargetFor(l: string, key: string): string
  {
    if Contains(l, "container no") || l == "container" then "trackingNumber"
    else if Contains(l, "shipping line") || l == "carrier" then "carrier"
    else if l == "eta" then "systemEta"
    else key
  }

  /** A column is stored under one of the three dashboard fields or under its own name. */
  lemma TargetRange(key: string)
    ensures Target(key) in {"trackingNumber", "carrier", "systemEta", key}
  {
  }

  /** The object built by writing each column's cell under `target` of its
      name, in column order, later columns over earlier ones. */
  function Assign<V>(row: seq<(string, V)>, target: string -> string): map<string, V>
  {
    if row == [] then map[]
    else Assign(row[..|row| - 1], target)[target(row[|row| - 1].0) := row[|row| - 1].1]
  }

  lemma AssignStep<V>(row: seq<(string, V)>, target: string -> string, i: nat)
    requires i < |row|
    ensures Assign(row[..i + 1], target) == Assign(row[..i], target)[target(row[i].0) := row[i].1]
  {
    assert row[..i + 1][..i] == row[..i];
  }

  /** The object `normalizeKeys` builds. */
  function Normalized(row: Row): map<string, Json>
  {
    Assign(row, Target)
  }

  /** `normalizeKeys(row)`: the `forEach` over the keys filling `newRow`. */
  method NormalizeKeys(row: Row) returns (newRow: map<string, Json>)
    ensures newRow == Normalized(row)
  {
    newRow := map[];
    var i := 0;
    while i < |row|
      invariant 0 <= i <= |row|
      invariant newRow == Normalized(row[..i])
    {
      var (key, cell) := row[i];
      var field := Target(key);
      AssignStep(row, Target, i);
      newRow := newRow[field := cell];
      i := i + 1;
    }
    assert row[..|row|] == row;
  }

  /** The last column whose target is `k`. */
  predicate LastWriter<V>(row: seq<(string, V)>, target: string -> string, k: string, i: int)
  {
    0 <= i < |row| && target(row[i].0) == k && forall j :: i < j < |row| ==> target(row[j].0) != k
  }

  /** A key is written exactly when some column targets it. */
  lemma {:induction false} AssignKeys<V>(row: seq<(string, V)>, target: string -> string, k: string)
    ensures k in Assign(row, target) <==> exists i :: 0 <= i < |row| && target(row[i].0) == k
  {
    if row != [] {
      var init := row[..|row| - 1];
      var n := |row| - 1;
      AssignKeys(init, target, k);
      if exists i :: 0 <= i < |row| && target(row[i].0) == k {
        var i :| 0 <= i < |row| && target(row[i].0) == k;
        if i < n { assert init[i] == row[i]; }
      }
      if exists i :: 0 <= i < |init| && target(init[i].0) == k {
        var i :| 0 <= i < |init| && target(init[i].0) == k;
        assert row[i] == init[i];
      }
    }
  }

  /** A written key holds the cell of the last column that targets it. */
  lemma {:induction false} AssignLast<V>(row: seq<(string, V)>, target: string -> string, k: string)
    requires k in Assign(row, target)
    ensures exists i :: LastWriter(row, target, k, i) && Assign(row, target)[k] == row[i].1
  {
    var init := row[..|row| - 1];
    var n := |row| - 1;
    if target(row[n].0) == k {
      assert LastWriter(row, target, k, n);
    } else {
      AssignLast(init, target, k);
      var i :| LastWriter(init, target, k, i) && Assign(init, target)[k] == init[i].1;
      assert row[i] == init[i];
      assert LastWriter(row, target, k, i);
    }
  }

  lemma AssignFields<V>(row: seq<(string, V)>, target: string -> string, k: string)
    ensures k in Assign(row, target) <==> exists i :: 0 <= i < |row| && target(row[i].0) == k
    ensures k in Assign(row, target) ==>
      exists i :: LastWriter(row, target, k, i) && Assign(row, target)[k] == row[i].1
  {
    AssignKeys(row, target, k);
    if k in Assign(row, target) {
      AssignLast(row, target, k);
    }
  }

  /** A field is present exactly when some column maps to it, and then it
      holds the cell of the last such column: when several columns map to
      the same field, the last one wins. */
  lemma NormalizedFields(row: Row, k: string)
    ensures k in Normalized(row) <==> exists i :: 0 <= i < |row| && Target(row[i].0) == k
    ensures k in Normalized(row) ==> exists i :: LastWriter(row, Target, k, i) && Normalized(row)[k] == row[i].1
  {
    AssignFields(row, Target, k);
  }

  /** A column that maps to a dashboard field is not also kept under its
      own name (unless another column's target is that name). */
  lemma MappedColumnNotCopied(row: Row, key: string)
    requires forall i :: 0 <= i < |row| ==> Target(row[i].0) != key
    ensures key !in Normalized(row)
  {
    AssignFields(row, Target, key);
  }

  /** No text contains a longer needle. */
  lemma TooLongNotContained(hay: string, needle: string)
    requires |needle| > |hay|
    ensures !Contains(hay, needle)
  {
  }

  /** Trimming text that neither starts nor ends with whitespace changes nothing. */
  lemma TrimUnspaced(s: string)
    requires s != [] && !IsJsSpace(s[0]) && !IsJsSpace(s[|s| - 1])
    ensures Trim(s) == s
  {
  }

  /** "eta" must match exactly: "Actual ETA" stays an extra column... */
  lemma ActualEtaKept()
    ensures Target("Actual ETA") == "Actual ETA"
  {
    assert Trim(Lower("Actual ETA")) == "actual eta" by {
      assert Lower("Actual ETA") == "actual eta";
      TrimUnspaced("actual eta");
    }
    assert TargetFor("actual eta", "Actual ETA") == "Actual ETA" by {
      TooLongNotContained("actual eta", "container no");
      TooLongNotContained("actual eta", "shipping line");
    }
  }

  /** ...while a column named "eta" in any letter case, padded with any
      spaces or tabs, is the system ETA. */
  lemma PaddedEtaMapped(pre: string, core: string, post: string)
    requires Lower(core) == "eta"
    requires forall k :: 0 <= k < |pre| ==> pre[k] == ' ' || pre[k] == '\t'
    requires forall k :: 0 <= k < |post| ==> post[k] == ' ' || post[k] == '\t'
    ensures Target(pre + core + post) == "systemEta"
  {
    var key := pre + core + post;
    assert Lower(key) == pre + "eta" + post;
    TrimSurrounded(pre, "eta", post);
    EtaIsSystemEta(key);
  }

  lemma EtaIsSystemEta(key: string)
    ensures TargetFor("eta", key) == "systemEta"
  {
    TooLongNotContained("eta", "container no");
    TooLongNotContained("eta", "shipping line");
  }

  /** The tracking-number mapping takes precedence over the carrier mapping. */
  lemma TrackingBeforeCarrier()
    ensures Target("Container No / Shipping Line") == "trackingNumber"
  {
    CombinedHeaderMatched();
    CombinedHeaderHasContainerNo();
  }

  lemma CombinedHeaderMatched()
    ensures Trim(Lower("Container No / Shipping Line")) == "container no / shipping line"
  {
    assert Lower("Container No / Shipping Line") == "container no / shipping line";
    TrimUnspaced("container no / shipping line");
  }

  lemma CombinedHeaderHasContainerNo()
    ensures Contains("container no / shipping line", "container no")
  {
    assert OccursAt("container no / shipping line", "container no", 0);
  }
}
