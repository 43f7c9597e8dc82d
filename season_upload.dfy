/** The season upload page: the sheet-to-roster parser, the reset-then-insert
    replacement of the season in batches, and the page's file and role checks. */
module SeasonUpload {
  import opened Common
  import opened Records

  // =====================================================================
  // Parsing the roster sheet
  // =====================================================================

  /** One entry of the decoded sheet: a hole in the row array, or the row's
      cell texts (the decoder is asked for formatted text, with "" for empty cells). */
  datatype SheetRow = Missing | Cells(cells: seq<string>)

  /** `row[k] || ""`: a cell past the end of the row reads as empty. */
  function Cell(row: SheetRow, k: nat): string {
    if row.Cells? && k < |row.cells| then row.cells[k] else ""
  }

  /** `!row || row.every((c) => !c)`. */
  predicate Blank(row: SheetRow) {
    row.Missing? || forall k :: 0 <= k < |row.cells| ==> row.cells[k] == ""
  }

  /** The ryot number of a row: its fifth cell, trimmed. */
  function RyotKey(row: SheetRow): string {
    Trim(Cell(row, 4))
  }

  /** The row is not skipped outright: it is not blank and has a ryot number. */
  predicate Qualifies(row: SheetRow) {
    !Blank(row) && RyotKey(row) != ""
  }

  /** `Number(cell || fallback)`: an empty cell gives the fallback, any other text
      goes through the number coercion `num`. */
  function NumberOr(cell: string, fallback: real, num: string -> real): real {
    if cell == "" then fallback else num(cell)
  }

  /** The record built from one row, reading the cells by fixed position. */
  function ToFarmer(row: SheetRow, num: string -> real): Farmer {
    Farmer(
      couponNo := Trim(Cell(row, 3)),
      division := Trim(Cell(row, 1)),
      section := Trim(Cell(row, 2)),
      ryotNumber := RyotKey(row),
      ryotName := Trim(Cell(row, 5)),
      fatherName := Trim(Cell(row, 6)),
      village := Trim(Cell(row, 7)),
      caneWt := Val(NumberOr(Cell(row, 8), 0.0, num)),
      sugarRate := Val(NumberOr(Cell(row, 10), DefaultRate, num)),
      eligibleQty := Val(NumberOr(Cell(row, 9), 0.0, num)),
      amount := Val(NumberOr(Cell(row, 11), 0.0, num)))
  }

  /** What a row brings to the scan: its ryot number if it qualifies, else "". */
  function RowKey(row: SheetRow): string {
    if Qualifies(row) then RyotKey(row) else ""
  }

  /** The key is empty exactly for the rows that are skipped outright, and is
      otherwise the ryot number. */
  lemma RowKeyMeaning(row: SheetRow)
    ensures RowKey(row) != "" <==> Qualifies(row)
    ensures Qualifies(row) ==> RowKey(row) == RyotKey(row)
    ensures Blank(row) ==> RowKey(row) == ""
    ensures !Blank(row) ==> RowKey(row) == RyotKey(row)
  {
  }

  function KeysOf(sheet: seq<SheetRow>): (keys: seq<string>)
    ensures |keys| == |sheet|
    ensures forall i :: 0 <= i < |sheet| ==> keys[i] == RowKey(sheet[i])
  {
    seq(|sheet|, i requires 0 <= i < |sheet| => RowKey(sheet[i]))
  }

  /** The `seen` set once rows 1 .. hi-1 have been read. */
  function SeenKeys(keys: seq<string>, hi: nat): set<string>
    requires hi <= |keys|
  {
    if hi <= 1 then {}
    else SeenKeys(keys, hi - 1) + (if keys[hi - 1] != "" then {keys[hi - 1]} else {})
  }

  /** Row `i` is a data row that qualifies and whose ryot number no earlier
      data row had. */
  predicate IsFirst(keys: seq<string>, i: nat) {
    1 <= i < |keys| && keys[i] != "" && keys[i] !in SeenKeys(keys, i)
  }

  /** The record each row would give, row by row. */
  function RecordsOf(sheet: seq<SheetRow>, num: string -> real): (rs: seq<Farmer>)
    ensures |rs| == |sheet|
    ensures forall i :: 0 <= i < |sheet| ==> rs[i] == ToFarmer(sheet[i], num)
  {
    seq(|sheet|, i requires 0 <= i < |sheet| => ToFarmer(sheet[i], num))
  }

  /** The items at positions 1 .. hi-1 whose key is a first occurrence. */
  function Pick<R>(keys: seq<string>, items: seq<R>, hi: nat): seq<R>
    requires |keys| == |items| && hi <= |keys|
  {
    if hi <= 1 then []
    else Pick(keys, items, hi - 1) + (if IsFirst(keys, hi - 1) then [items[hi - 1]] else [])
  }

  /** The records built from rows 1 .. hi-1. */
  function RosterUpTo(sheet: seq<SheetRow>, hi: nat, num: string -> real): seq<Farmer>
    requires hi <= |sheet|
  {
    Pick(KeysOf(sheet), RecordsOf(sheet, num), hi)
  }

  /** The roster a non-empty sheet parses to. */
  function Roster(sheet: seq<SheetRow>, num: string -> real): seq<Farmer> {
    RosterUpTo(sheet, |sheet|, num)
  }

  /** The indices of the rows among 1 .. hi-1 that become records, in sheet order. */
  function FirstRows(keys: seq<string>, hi: nat): (r: seq<nat>)
    requires hi <= |keys|
    ensures forall k :: 0 <= k < |r| ==> 1 <= r[k] < hi
  {
    if hi <= 1 then [] else FirstRows(keys, hi - 1) + (if IsFirst(keys, hi - 1) then [hi - 1] else [])
  }

  /** The rows that become records are the first occurrences, all of them,
      in increasing order. */
  lemma {:induction false} FirstRowsAreFirstOccurrences(keys: seq<string>, hi: nat)
    requires hi <= |keys|
    ensures forall k :: 0 <= k < |FirstRows(keys, hi)| ==> IsFirst(keys, FirstRows(keys, hi)[k])
    ensures forall a, b :: 0 <= a < b < |FirstRows(keys, hi)| ==> FirstRows(keys, hi)[a] < FirstRows(keys, hi)[b]
    ensures forall i :: 1 <= i < hi && IsFirst(keys, i) ==> i in FirstRows(keys, hi)
  {
    if hi > 1 {
      FirstRowsAreFirstOccurrences(keys, hi - 1);
      var prev, r := FirstRows(keys, hi - 1), FirstRows(keys, hi);
      if IsFirst(keys, hi - 1) {
        assert r == prev + [hi - 1];
        forall k | 0 <= k < |r| ensures IsFirst(keys, r[k]) {
          if k < |prev| { assert r[k] == prev[k]; }
        }
        forall a, b | 0 <= a < b < |r| ensures r[a] < r[b] {
          assert r[a] == prev[a];
          if b < |prev| { assert r[b] == prev[b]; }
        }
        forall i | 1 <= i < hi && IsFirst(keys, i) ensures i in r {
          if i < hi - 1 {
            var k :| 0 <= k < |prev| && prev[k] == i;
            assert r[k] == i;
          } else {
            assert r[|prev|] == i;
          }
        }
      } else {
        assert r == prev;
      }
    }
  }

  /** `parseExcelFile` after decoding: an empty sheet is refused, row 0 is the
      header, and each data row that qualifies and brings a new ryot number
      is turned into a record. */
  method ParseSheet(sheet: seq<SheetRow>, num: string -> real) returns (r: Result<seq<Farmer>>)
    ensures |sheet| == 0 ==> r == Err("Empty Excel file")
    ensures |sheet| > 0 ==> r == Ok(Roster(sheet, num))
  {
    if |sheet| == 0 {
      return Err("Empty Excel file");
    }
    ghost var keys, records := KeysOf(sheet), RecordsOf(sheet, num);
    var rows: seq<Farmer> := [];
    var seen: set<string> := {};
    for i := 1 to |sheet|
      invariant seen == SeenKeys(keys, i)
      invariant rows == Pick(keys, records, i)
    {
      var row := sheet[i];
      assert keys[i] == RowKey(row) && records[i] == ToFarmer(row, num);
      RowKeyMeaning(row);
      PickStep(keys, records, i);
      if Blank(row) {
        continue;
      }
      var ryotNumber := Trim(Cell(row, 4));
      if ryotNumber == "" {
        continue;
      }
      if ryotNumber in seen {
        continue;
      }
      seen := seen + {ryotNumber};
      rows := rows + [ToFarmer(row, num)];
    }
    return Ok(rows);
  }

  lemma PickStep<R>(keys: seq<string>, items: seq<R>, i: nat)
    requires |keys| == |items| && 1 <= i < |keys|
    ensures keys[i] == "" ==> SeenKeys(keys, i + 1) == SeenKeys(keys, i)
    ensures keys[i] != "" ==> SeenKeys(keys, i + 1) == SeenKeys(keys, i) + {keys[i]}
    ensures keys[i] in SeenKeys(keys, i) ==> SeenKeys(keys, i + 1) == SeenKeys(keys, i)
    ensures !IsFirst(keys, i) ==> Pick(keys, items, i + 1) == Pick(keys, items, i)
    ensures IsFirst(keys, i) ==> Pick(keys, items, i + 1) == Pick(keys, items, i) + [items[i]]
  {
    if !IsFirst(keys, i) {
      assert Pick(keys, items, i) + [] == Pick(keys, items, i);
    }
  }

  // ---------------------------------------------------------------------
  // What the parsed roster is
  // ---------------------------------------------------------------------

  /** A ryot number is in `seen` exactly when an earlier data row that
      qualifies carries it. */
  lemma {:induction false} SeenKeysMeaning(keys: seq<string>, hi: nat, key: string)
    requires hi <= |keys|
    ensures key in SeenKeys(keys, hi) <==> key != "" && exists j :: 1 <= j < hi && keys[j] == key
  {
    if hi > 1 {
      SeenKeysMeaning(keys, hi - 1, key);
    }
  }

  /** Item `k` picked is the item at position `FirstRows(keys, hi)[k]`. */
  lemma {:induction false} PickOrigins<R>(keys: seq<string>, items: seq<R>, hi: nat)
    requires |keys| == |items| && hi <= |keys|
    ensures |Pick(keys, items, hi)| == |FirstRows(keys, hi)|
    ensures forall k :: 0 <= k < |FirstRows(keys, hi)| ==> Pick(keys, items, hi)[k] == items[FirstRows(keys, hi)[k]]
  {
    if hi > 1 {
      PickOrigins(keys, items, hi - 1);
      var ps, ix := Pick(keys, items, hi - 1), FirstRows(keys, hi - 1);
      if IsFirst(keys, hi - 1) {
        assert Pick(keys, items, hi) == ps + [items[hi - 1]];
        assert FirstRows(keys, hi) == ix + [hi - 1];
      } else {
        assert Pick(keys, items, hi) == ps;
        assert FirstRows(keys, hi) == ix;
      }
      forall k | 0 <= k < |FirstRows(keys, hi)|
        ensures Pick(keys, items, hi)[k] == items[FirstRows(keys, hi)[k]]
      {
        if k < |ix| {
          assert Pick(keys, items, hi)[k] == ps[k];
          assert FirstRows(keys, hi)[k] == ix[k];
        }
      }
    }
  }

  /** Record `k` of the roster is built from row `FirstRows(KeysOf(sheet), |sheet|)[k]`. */
  lemma RosterOrigins(sheet: seq<SheetRow>, num: string -> real)
    ensures |Roster(sheet, num)| == |FirstRows(KeysOf(sheet), |sheet|)|
    ensures forall k :: 0 <= k < |FirstRows(KeysOf(sheet), |sheet|)| ==>
      Roster(sheet, num)[k] == ToFarmer(sheet[FirstRows(KeysOf(sheet), |sheet|)[k]], num)
  {
    PickOrigins(KeysOf(sheet), RecordsOf(sheet, num), |sheet|);
  }

  /** Record `k` comes from a row that is a first occurrence, and carries
      that row's key. */
  lemma RosterRyot(sheet: seq<SheetRow>, num: string -> real, k: nat)
    requires k < |Roster(sheet, num)|
    ensures k < |FirstRows(KeysOf(sheet), |sheet|)|
    ensures IsFirst(KeysOf(sheet), FirstRows(KeysOf(sheet), |sheet|)[k])
    ensures Roster(sheet, num)[k] == ToFarmer(sheet[FirstRows(KeysOf(sheet), |sheet|)[k]], num)
    ensures Roster(sheet, num)[k].ryotNumber == KeysOf(sheet)[FirstRows(KeysOf(sheet), |sheet|)[k]]
  {
    var keys := KeysOf(sheet);
    var idx := FirstRows(keys, |sheet|);
    RosterOrigins(sheet, num);
    FirstRowsAreFirstOccurrences(keys, |sheet|);
    assert IsFirst(keys, idx[k]);
    RowKeyMeaning(sheet[idx[k]]);
  }

  /** No two records of the parsed roster share a ryot number. */
  lemma RosterRyotsDistinct(sheet: seq<SheetRow>, num: string -> real)
    ensures UniqueRyots(Roster(sheet, num))
  {
    var keys := KeysOf(sheet);
    var roster, idx := Roster(sheet, num), FirstRows(keys, |sheet|);
    forall a, b | 0 <= a < b < |roster| ensures roster[a].ryotNumber != roster[b].ryotNumber {
      RosterRyot(sheet, num, a);
      RosterRyot(sheet, num, b);
      FirstRowsAreFirstOccurrences(keys, |sheet|);
      assert idx[a] < idx[b];
      SeenKeysMeaning(keys, idx[b], keys[idx[a]]);
    }
  }

  /** Every ryot number that some qualifying data row carries is in the roster. */
  lemma {:induction false} EveryRyotKept(sheet: seq<SheetRow>, num: string -> real, i: nat)
    requires 1 <= i < |sheet| && Qualifies(sheet[i])
    ensures exists k :: 0 <= k < |Roster(sheet, num)| && Roster(sheet, num)[k].ryotNumber == RyotKey(sheet[i])
    decreases i
  {
    var keys := KeysOf(sheet);
    var roster, idx := Roster(sheet, num), FirstRows(keys, |sheet|);
    RowKeyMeaning(sheet[i]);
    assert keys[i] == RyotKey(sheet[i]);
    SeenKeysMeaning(keys, i, keys[i]);
    if IsFirst(keys, i) {
      FirstRowsAreFirstOccurrences(keys, |sheet|);
      var k :| 0 <= k < |idx| && idx[k] == i;
      RosterOrigins(sheet, num);
      RosterRyot(sheet, num, k);
    } else {
      var j :| 1 <= j < i && keys[j] == keys[i];
      RowKeyMeaning(sheet[j]);
      EveryRyotKept(sheet, num, j);
    }
  }

  /** The first qualifying row with a given ryot number is the one kept: its
      record is in the roster, and it is the only record with that number. */
  lemma FirstOccurrenceWins(sheet: seq<SheetRow>, num: string -> real, j: nat)
    requires 1 <= j < |sheet| && Qualifies(sheet[j])
    requires forall i :: 1 <= i < j && Qualifies(sheet[i]) ==> RyotKey(sheet[i]) != RyotKey(sheet[j])
    ensures ToFarmer(sheet[j], num) in Roster(sheet, num)
    ensures forall k :: 0 <= k < |Roster(sheet, num)| && Roster(sheet, num)[k].ryotNumber == RyotKey(sheet[j]) ==>
      Roster(sheet, num)[k] == ToFarmer(sheet[j], num)
  {
    var keys := KeysOf(sheet);
    var roster, idx := Roster(sheet, num), FirstRows(keys, |sheet|);
    RowKeyMeaning(sheet[j]);
    assert keys[j] == RyotKey(sheet[j]);
    SeenKeysMeaning(keys, j, keys[j]);
    forall i | 1 <= i < j
      ensures keys[i] != keys[j]
    {
      RowKeyMeaning(sheet[i]);
    }
    assert IsFirst(keys, j);
    FirstRowsAreFirstOccurrences(keys, |sheet|);
    var k :| 0 <= k < |idx| && idx[k] == j;
    RosterOrigins(sheet, num);
    assert roster[k] == ToFarmer(sheet[j], num);
    RosterRyotsDistinct(sheet, num);
  }

  /** A later row repeating a ryot number is dropped: it is the origin of no record. */
  lemma LaterDuplicateDropped(sheet: seq<SheetRow>, j: nat, i: nat)
    requires 1 <= j < i < |sheet|
    requires Qualifies(sheet[j]) && Qualifies(sheet[i]) && RyotKey(sheet[j]) == RyotKey(sheet[i])
    ensures i !in FirstRows(KeysOf(sheet), |sheet|)
  {
    var keys := KeysOf(sheet);
    RowKeyMeaning(sheet[i]);
    RowKeyMeaning(sheet[j]);
    assert keys[j] == keys[i] != "";
    SeenKeysMeaning(keys, i, keys[i]);
    FirstRowsAreFirstOccurrences(keys, |sheet|);
  }

  /** A blank row has no ryot number, so the ryot number alone decides whether
      a row qualifies. */
  lemma QualifiesIffRyotNumber(row: SheetRow)
    ensures Qualifies(row) <==> RyotKey(row) != ""
  {
    if Blank(row) {
      assert Cell(row, 4) == "";
      assert AllSpace("");
    }
  }

  /** The header row never reaches the roster: replacing row 0 changes nothing. */
  lemma HeaderRowIgnored(sheet: seq<SheetRow>, other: seq<SheetRow>, hi: nat, num: string -> real)
    requires |sheet| == |other| && hi <= |sheet|
    requires forall i :: 1 <= i < |sheet| ==> sheet[i] == other[i]
    ensures RosterUpTo(sheet, hi, num) == RosterUpTo(other, hi, num)
  {
    var keys, keys', records, records' := KeysOf(sheet), KeysOf(other), RecordsOf(sheet, num), RecordsOf(other, num);
    forall i | 1 <= i < |sheet| ensures keys[i] == keys'[i] && records[i] == records'[i] {
      assert sheet[i] == other[i];
    }
    PickIgnoresPositionZero(keys, keys', records, records', hi);
  }

  /** Position 0 plays no part in picking. */
  lemma {:induction false} PickIgnoresPositionZero<R>(keys: seq<string>, keys': seq<string>, items: seq<R>, items': seq<R>, hi: nat)
    requires |keys| == |keys'| == |items| == |items'| && hi <= |keys|
    requires forall i :: 1 <= i < |keys| ==> keys[i] == keys'[i] && items[i] == items'[i]
    ensures SeenKeys(keys, hi) == SeenKeys(keys', hi)
    ensures Pick(keys, items, hi) == Pick(keys', items', hi)
  {
    if hi > 1 {
      PickIgnoresPositionZero(keys, keys', items, items', hi - 1);
      assert keys[hi - 1] == keys'[hi - 1] && items[hi - 1] == items'[hi - 1];
    }
  }

  /** The record reads its fields from cells 1 to 11 by position; cell 0 is
      never read. */
  lemma ColumnZeroIgnored(cells: seq<string>, c: string, num: string -> real)
    requires |cells| > 0
    ensures ToFarmer(Cells([c] + cells[1..]), num) == ToFarmer(Cells(cells), num)
  {
    var other := [c] + cells[1..];
    forall k: nat | 1 <= k ensures Cell(Cells(other), k) == Cell(Cells(cells), k) {
      if k < |cells| { assert other[k] == cells[k]; }
    }
  }

  /** The fixed column layout of a record, with its text fields trimmed and
      the rate falling back to the default rate on an empty cell. */
  lemma ColumnLayout(row: SheetRow, num: string -> real)
    ensures var f := ToFarmer(row, num);
      && f.division == Trim(Cell(row, 1)) && f.section == Trim(Cell(row, 2))
      && f.couponNo == Trim(Cell(row, 3)) && f.ryotNumber == Trim(Cell(row, 4))
      && f.ryotName == Trim(Cell(row, 5)) && f.fatherName == Trim(Cell(row, 6))
      && f.village == Trim(Cell(row, 7))
      && Trimmed(f.division) && Trimmed(f.section) && Trimmed(f.couponNo) && Trimmed(f.ryotNumber)
      && Trimmed(f.ryotName) && Trimmed(f.fatherName) && Trimmed(f.village)
      && f.caneWt == Val(if Cell(row, 8) == "" then 0.0 else num(Cell(row, 8)))
      && f.eligibleQty == Val(if Cell(row, 9) == "" then 0.0 else num(Cell(row, 9)))
      && f.sugarRate == Val(if Cell(row, 10) == "" then DefaultRate else num(Cell(row, 10)))
      && f.amount == Val(if Cell(row, 11) == "" then 0.0 else num(Cell(row, 11)))
  {
  }

  // =====================================================================
  // Replacing the season in the store
  // =====================================================================

  /** The number of records sent in one insert call. */
  const BatchSize: nat := 800

  function Min(a: int, b: int): int {
    if a <= b then a else b
  }

  /** `farmers.slice(i, i + 800)` for i = 0, 800, 1600, ... */
  function Batches(farmers: seq<Farmer>): (r: seq<seq<Farmer>>)
    ensures forall k :: 0 <= k < |r| ==> 0 < |r[k]| <= BatchSize
    decreases |farmers|
  {
    if farmers == [] then []
    else if |farmers| <= BatchSize then [farmers]
    else [farmers[..BatchSize]] + Batches(farmers[BatchSize..])
  }

  function Flatten<T>(ss: seq<seq<T>>): seq<T> {
    if ss == [] then [] else ss[0] + Flatten(ss[1..])
  }

  lemma SliceOfSuffix<T>(s: seq<T>, d: nat, i: nat, j: nat)
    requires d <= |s| && i <= j <= |s| - d
    ensures s[d..][i..j] == s[d + i..d + j]
  {
    forall n | 0 <= n < j - i ensures s[d..][i..j][n] == s[d + i..d + j][n] {
      assert s[d..][i..j][n] == s[d + i + n];
    }
  }

  /** Batch `k` is the slice starting at `k * 800`, and it exists exactly when
      that index is inside the roster. */
  lemma {:induction false} BatchAt(farmers: seq<Farmer>, k: nat)
    ensures k < |Batches(farmers)| <==> k * BatchSize < |farmers|
    ensures k < |Batches(farmers)| ==>
      Batches(farmers)[k] == farmers[k * BatchSize .. Min(k * BatchSize + BatchSize, |farmers|)]
    decreases |farmers|
  {
    if |farmers| > BatchSize && k > 0 {
      var rest := farmers[BatchSize..];
      BatchAt(rest, k - 1);
      assert Batches(farmers) == [farmers[..BatchSize]] + Batches(rest);
      assert k * BatchSize == BatchSize + (k - 1) * BatchSize;
      if k < |Batches(farmers)| {
        assert Batches(farmers)[k] == Batches(rest)[k - 1];
        var i, j := (k - 1) * BatchSize, Min((k - 1) * BatchSize + BatchSize, |rest|);
        assert i + BatchSize == k * BatchSize;
        assert j + BatchSize == Min(k * BatchSize + BatchSize, |farmers|);
        SliceOfSuffix(farmers, BatchSize, i, j);
      }
    }
  }

  /** The first `k` batches put together are the first `k * 800` records. */
  lemma {:induction false} BatchesPrefix(farmers: seq<Farmer>, k: nat)
    ensures Flatten(Batches(farmers)[..Min(k, |Batches(farmers)|)]) == farmers[..Min(k * BatchSize, |farmers|)]
    decreases |farmers|
  {
    var bs := Batches(farmers);
    if farmers == [] || k == 0 {
      assert bs[..0] == [];
    } else if |farmers| <= BatchSize {
      assert bs[..1] == [farmers];
      assert Flatten(bs[..1][1..]) == [];
    } else {
      var rest := farmers[BatchSize..];
      BatchesPrefix(rest, k - 1);
      BatchAt(rest, 0);
      var m := Min(k - 1, |Batches(rest)|);
      assert bs[..m + 1] == [farmers[..BatchSize]] + Batches(rest)[..m];
      assert (bs[..m + 1])[1..] == Batches(rest)[..m];
      assert farmers[..Min(k * BatchSize, |farmers|)] ==
        farmers[..BatchSize] + rest[..Min((k - 1) * BatchSize, |rest|)];
    }
  }

  /** The batches partition the roster: put together they give it back. */
  lemma BatchesPartition(farmers: seq<Farmer>)
    ensures Flatten(Batches(farmers)) == farmers
  {
    BatchesPrefix(farmers, |farmers|);
    assert Batches(farmers)[..|Batches(farmers)|] == Batches(farmers);
  }

  /** A call the replacement issues to the store. */
  datatype StoreCall = ResetSeason | InsertFarmers(batch: seq<Farmer>)

  datatype UploadOutcome = NotStarted | Uploaded(count: nat) | UploadFailed(message: string)

  function InsertCalls(bs: seq<seq<Farmer>>): (r: seq<StoreCall>)
    ensures |r| == |bs|
    ensures forall k :: 0 <= k < |bs| ==> r[k] == InsertFarmers(bs[k])
  {
    seq(|bs|, k requires 0 <= k < |bs| => InsertFarmers(bs[k]))
  }

  /** The first of the calls 0 .. n-1 whose reply is a fault, or `n` if none is. */
  function FirstFault(replies: nat -> StoreReply, n: nat): (k: nat)
    ensures k <= n
    ensures k < n ==> replies(k).Fault?
    ensures forall j :: 0 <= j < k ==> replies(j).Done?
  {
    if n == 0 then 0
    else
      var k := FirstFault(replies, n - 1);
      if k < n - 1 then k else if replies(n - 1).Fault? then n - 1 else n
  }

  /** The calls a season replacement issues, in order: nothing for an empty
      roster, else the reset, then one insert per batch up to and including
      the first that fails. */
  function SeasonCalls(farmers: seq<Farmer>, resetReply: StoreReply, insertReply: nat -> StoreReply): seq<StoreCall> {
    if farmers == [] then []
    else if resetReply.Fault? then [ResetSeason]
    else
      var bs := Batches(farmers);
      var k := FirstFault(insertReply, |bs|);
      [ResetSeason] + InsertCalls(bs[..Min(k + 1, |bs|)])
  }

  /** What a season replacement reports. */
  function SeasonOutcome(farmers: seq<Farmer>, resetReply: StoreReply, insertReply: nat -> StoreReply): UploadOutcome {
    if farmers == [] then UploadFailed("No valid records to upload.")
    else if resetReply.Fault? then UploadFailed(ErrorText(resetReply.message))
    else
      var bs := Batches(farmers);
      var k := FirstFault(insertReply, |bs|);
      if k < |bs| then UploadFailed(ErrorText(insertReply(k).message)) else Uploaded(|farmers|)
  }

  /** Lines 208-219 of `handleBackupResponse`: refuse an empty roster, reset
      the season, then insert the roster 800 records at a time, stopping at the
      first insert that fails. `resetReply` and `insertReply(k)` are the
      store's replies to the reset and to the k-th insert. */
  method ReplaceSeason(farmers: seq<Farmer>, resetReply: StoreReply, insertReply: nat -> StoreReply)
    returns (outcome: UploadOutcome, calls: seq<StoreCall>)
    ensures outcome == SeasonOutcome(farmers, resetReply, insertReply)
    ensures calls == SeasonCalls(farmers, resetReply, insertReply)
  {
    if farmers == [] {
      return UploadFailed("No valid records to upload."), [];
    }
    calls := [ResetSeason];
    if resetReply.Fault? {
      return UploadFailed(ErrorText(resetReply.message)), calls;
    }
    ghost var bs := Batches(farmers);
    var i, k := 0, 0;
    while i < |farmers|
      invariant i == k * BatchSize
      invariant k <= |bs| && (k < |bs| <==> i < |farmers|)
      invariant forall j :: 0 <= j < k ==> insertReply(j).Done?
      invariant calls == [ResetSeason] + InsertCalls(bs[..k])
    {
      BatchAt(farmers, k);
      var batch := farmers[i..Min(i + BatchSize, |farmers|)];
      assert bs[..k + 1] == bs[..k] + [batch];
      calls := calls + [InsertFarmers(batch)];
      if insertReply(k).Fault? {
        assert FirstFault(insertReply, |bs|) == k;
        return UploadFailed(ErrorText(insertReply(k).message)), calls;
      }
      i, k := i + BatchSize, k + 1;
      BatchAt(farmers, k);
    }
    assert FirstFault(insertReply, |bs|) == |bs|;
    assert bs[..|bs|] == bs;
    return Uploaded(|farmers|), calls;
  }

  // ---------------------------------------------------------------------
  // What the replacement does to the store
  // ---------------------------------------------------------------------

  /** The reset is the first call; nothing is called for an empty roster and
      nothing is inserted after a failed reset; an upload reports success
      exactly when the reset and every insert went through. */
  lemma ResetComesFirst(farmers: seq<Farmer>, resetReply: StoreReply, insertReply: nat -> StoreReply)
    ensures var calls := SeasonCalls(farmers, resetReply, insertReply);
      && (calls == [] <==> farmers == [])
      && (calls != [] ==> calls[0] == ResetSeason)
      && (resetReply.Fault? ==> |calls| <= 1)
      && (forall j :: 1 <= j < |calls| ==> calls[j].InsertFarmers? && 0 < |calls[j].batch| <= BatchSize)
    ensures SeasonOutcome(farmers, resetReply, insertReply).Uploaded? <==>
      farmers != [] && resetReply.Done? && forall j :: 0 <= j < |Batches(farmers)| ==> insertReply(j).Done?
  {
    var bs := Batches(farmers);
    var k := FirstFault(insertReply, |bs|);
    if farmers != [] && resetReply.Done? {
      var calls := SeasonCalls(farmers, resetReply, insertReply);
      assert calls[1..] == InsertCalls(bs[..Min(k + 1, |bs|)]);
      forall j | 1 <= j < |calls| ensures calls[j].InsertFarmers? && 0 < |calls[j].batch| <= BatchSize {
        assert calls[j] == calls[1..][j - 1];
      }
    }
  }

  /** After the reset, the inserts that went through are batches 0 .. k-1 for
      the first failing batch k, so exactly the first k * 800 records are in
      the store, and batch k was the last call; when none fails, the whole
      roster is in the store. */
  lemma CommittedPrefix(farmers: seq<Farmer>, insertReply: nat -> StoreReply)
    requires farmers != []
    ensures var bs := Batches(farmers);
      var k := FirstFault(insertReply, |bs|);
      var calls := SeasonCalls(farmers, Done, insertReply);
      && |calls| == 1 + Min(k + 1, |bs|)
      && (forall j :: 0 <= j < Min(k + 1, |bs|) ==> calls[1 + j] == InsertFarmers(bs[j]))
      && (forall j :: 0 <= j < Min(k, |bs|) ==> insertReply(j).Done?)
      && Flatten(bs[..Min(k, |bs|)]) == farmers[..Min(k * BatchSize, |farmers|)]
      && (k == |bs| ==> Flatten(bs) == farmers)
  {
    var bs := Batches(farmers);
    var k := FirstFault(insertReply, |bs|);
    var calls := SeasonCalls(farmers, Done, insertReply);
    BatchesPrefix(farmers, k);
    BatchesPartition(farmers);
    forall j | 0 <= j < Min(k + 1, |bs|) ensures calls[1 + j] == InsertFarmers(bs[j]) {
      assert calls[1 + j] == InsertCalls(bs[..Min(k + 1, |bs|)])[j];
    }
  }

  // =====================================================================
  // The page: file choice, role check and the upload itself
  // =====================================================================

  datatype File = File(name: string, mimeType: string)

  const ExcelMimeTypes: seq<string> := [
    "application/vnd.ms-excel",
    "application/vnd.openxmlformats-officedocument.spreadsheetml.sheet"
  ]

  /** `name.match(/\.(xlsx?|csv)$/i)`. */
  predicate HasExcelExtension(name: string) {
    var n := Lower(name);
    EndsWith(n, ".xls") || EndsWith(n, ".xlsx") || EndsWith(n, ".csv")
  }

  /** The check of `handleFileSelect`. */
  predicate FileAccepted(file: File) {
    file.mimeType in ExcelMimeTypes || HasExcelExtension(file.name)
  }

  /** Any file whose name ends in `.xls`, `.xlsx` or `.csv`, in any mix of
      upper and lower case, is accepted whatever its type. */
  lemma AcceptsExcelExtensions(stem: string, ext: string, mimeType: string)
    requires Lower(ext) in [".xls", ".xlsx", ".csv"]
    ensures FileAccepted(File(stem + ext, mimeType))
  {
    LowerAppend(stem, ext);
    var n := Lower(stem + ext);
    assert n[|n| - |ext|..] == Lower(ext);
  }

  /** The last `m` characters of a name, lower-cased, are the last `m` of the
      lower-cased name. */
  lemma LowerSuffix(name: string, m: nat)
    requires m <= |name|
    ensures Lower(name[|name| - m..]) == Lower(name)[|name| - m..]
  {
  }

  /** The converse of `AcceptsExcelExtensions`: a file is accepted only when
      its type is one of the two spreadsheet types or its name is a stem
      followed by `.xls`, `.xlsx` or `.csv` in some letter case, and a
      spreadsheet type is accepted whatever the name. */
  lemma RefusesOtherFiles(file: File)
    ensures FileAccepted(file) ==> (file.mimeType in ExcelMimeTypes ||
      exists stem, ext :: file.name == stem + ext && Lower(ext) in [".xls", ".xlsx", ".csv"])
    ensures file.mimeType in ExcelMimeTypes ==> FileAccepted(file)
  {
    if FileAccepted(file) && file.mimeType !in ExcelMimeTypes {
      var name, n := file.name, Lower(file.name);
      var m := if EndsWith(n, ".xls") then 4 else if EndsWith(n, ".xlsx") then 5 else 4;
      var stem, ext := name[..|name| - m], name[|name| - m..];
      LowerSuffix(name, m);
      assert name == stem + ext;
      assert Lower(ext) in [".xls", ".xlsx", ".csv"];
    }
  }

  /** `(userRole || "").toLowerCase() === "admin"`. */
  predicate IsAdmin(role: Option<string>) {
    Lower(if role.Some? then role.value else "") == "admin"
  }

  /** The role check ignores case but nothing else: a role passes exactly
      when it is a five-letter spelling of "admin" in some letter case. */
  lemma AdminRoleSpellings(role: Option<string>)
    ensures IsAdmin(role) <==>
      role.Some? && |role.value| == 5 && forall i :: 0 <= i < 5 ==> LowerChar(role.value[i]) == "admin"[i]
    ensures IsAdmin(Some("ADMIN")) && IsAdmin(Some("Admin"))
    ensures !IsAdmin(None) && !IsAdmin(Some("admin ")) && !IsAdmin(Some(""))
  {
    if role.Some? && |role.value| == 5 && forall i :: 0 <= i < 5 ==> LowerChar(role.value[i]) == "admin"[i] {
      assert Lower(role.value) == "admin";
    }
    assert Lower("ADMIN") == "admin";
    assert Lower("Admin") == "admin";
    assert |Lower("admin ")| == 6;
  }

  datatype UploadGate = AdminOnly | NoFileSelected | AskForBackup

  class UploadPage {
    var userRole: Option<string>
    var selectedFile: Option<File>
    var showBackupModal: bool

    constructor (role: Option<string>)
      ensures userRole == role && selectedFile == None && !showBackupModal
    {
      userRole := role;
      selectedFile := None;
      showBackupModal := false;
    }

    /** `handleFileSelect`: an accepted file becomes the selected file; any
        other file is refused and the selection stays as it was. */
    method SelectFile(file: File) returns (accepted: bool)
      modifies this`selectedFile
      ensures accepted == FileAccepted(file)
      ensures selectedFile == if accepted then Some(file) else old(selectedFile)
    {
      accepted := FileAccepted(file);
      if accepted {
        selectedFile := Some(file);
      }
    }

    /** `handleUpload`: the role is checked before the file, and only an
        administrator with a selected file is asked about the backup. */
    method Upload() returns (gate: UploadGate)
      modifies this`showBackupModal
      ensures gate == if !IsAdmin(userRole) then AdminOnly
                      else if selectedFile.None? then NoFileSelected
                      else AskForBackup
      ensures showBackupModal == (old(showBackupModal) || gate == AskForBackup)
    {
      if !IsAdmin(userRole) {
        return AdminOnly;
      }
      if selectedFile.None? {
        return NoFileSelected;
      }
      showBackupModal := true;
      return AskForBackup;
    }

    /** `handleBackupResponse` without the backup download: `sheet` is the
        decoded content of the selected file. The file is parsed; a parsed
        roster replaces the season; a full upload clears the selection. */
    method BackupResponse(sheet: seq<SheetRow>, num: string -> real, resetReply: StoreReply, insertReply: nat -> StoreReply)
      returns (outcome: UploadOutcome, calls: seq<StoreCall>)
      modifies this`selectedFile, this`showBackupModal
      ensures old(selectedFile).None? ==>
        outcome == NotStarted && calls == [] && showBackupModal == old(showBackupModal)
      ensures old(selectedFile).Some? ==> !showBackupModal
      ensures old(selectedFile).Some? && |sheet| == 0 ==>
        outcome == UploadFailed("Empty Excel file") && calls == []
      ensures old(selectedFile).Some? && |sheet| > 0 ==>
        outcome == SeasonOutcome(Roster(sheet, num), resetReply, insertReply) &&
        calls == SeasonCalls(Roster(sheet, num), resetReply, insertReply)
      ensures selectedFile == if outcome.Uploaded? then None else old(selectedFile)
    {
      if selectedFile.None? {
        return NotStarted, [];
      }
      showBackupModal := false;
      var parsed := ParseSheet(sheet, num);
      if parsed.Err? {
        return UploadFailed(parsed.message), [];
      }
      outcome, calls := ReplaceSeason(parsed.value, resetReply, insertReply);
      if outcome.Uploaded? {
        selectedFile := None;
      }
    }
  }
}
