/**
 * The session's in-memory account-data cache (one slot per data type) and
 * tutorial flags: which slots a load resets and fills, what an update writes,
 * and what saving the tutorial flags writes.
 */
module AccountStore {
  import opened Protocol

  const NumAccountDataTypes: nat := 8
  /** Data types stored per account (bits 0, 2 and 4) and per character (the others). */
  const GlobalCacheMask: bv32 := 0x15
  const PerCharacterCacheMask: bv32 := 0xEA

  /** Whether data type `i` is selected by `mask` (the `mask & (1 << i)` test). */
  predicate InMask(mask: bv32, i: nat)
    requires i < 32
  {
    mask & (1 as bv32 << i) != 0
  }

  /** One cache slot: the time stamp the client sent and the data. */
  datatype AccountData = AccountData(time: int, data: string)

  const EmptyAccountData: AccountData := AccountData(0, "")

  /** One row of the account-data query: type, 64-bit unsigned time, data. */
  datatype AccountDataRow = AccountDataRow(dataType: uint32, time: nat, data: string)

  /** The unsigned 64-bit time of a row as the signed time_t it is stored in. */
  function AsTime(t: nat): (r: int)
    ensures t < 0x8000_0000_0000_0000 ==> r == t
    ensures r < 0x8000_0000_0000_0000
  {
    var w := t % 0x1_0000_0000_0000_0000;
    if w < 0x8000_0000_0000_0000 then w else w - 0x1_0000_0000_0000_0000
  }

  /** Whether a row is stored, and if not, why it is ignored. */
  datatype RowVerdict = Store | OutOfRange | NotInMask

  function Verdict(row: AccountDataRow, mask: bv32): (v: RowVerdict)
    ensures v == Store <==> row.dataType as int < NumAccountDataTypes && InMask(mask, row.dataType as nat)
    ensures v == OutOfRange <==> row.dataType as int >= NumAccountDataTypes
  {
    if row.dataType as int >= NumAccountDataTypes then OutOfRange
    else if !InMask(mask, row.dataType as nat) then NotInMask
    else Store
  }

  /** The cache after the first loop of LoadAccountData: every slot in the mask emptied. */
  function ResetSlots(cache: seq<AccountData>, mask: bv32): (r: seq<AccountData>)
    requires |cache| == NumAccountDataTypes
    ensures |r| == NumAccountDataTypes
  {
    seq(NumAccountDataTypes, i requires 0 <= i < NumAccountDataTypes =>
      if InMask(mask, i) then EmptyAccountData else cache[i])
  }

  /** The cache after one row of the query result. */
  function ApplyRow(cache: seq<AccountData>, row: AccountDataRow, mask: bv32): (r: seq<AccountData>)
    requires |cache| == NumAccountDataTypes
    ensures |r| == NumAccountDataTypes
  {
    if Verdict(row, mask) == Store then cache[row.dataType as nat := AccountData(AsTime(row.time), row.data)]
    else cache
  }

  function ApplyRows(cache: seq<AccountData>, rows: seq<AccountDataRow>, mask: bv32): (r: seq<AccountData>)
    requires |cache| == NumAccountDataTypes
    ensures |r| == NumAccountDataTypes
  {
    if rows == [] then cache else ApplyRow(ApplyRows(cache, rows[..|rows| - 1], mask), rows[|rows| - 1], mask)
  }

  /** LoadAccountData on a query result given as its rows (none when the query found nothing). */
  function LoadedAccountData(cache: seq<AccountData>, rows: seq<AccountDataRow>, mask: bv32): (r: seq<AccountData>)
    requires |cache| == NumAccountDataTypes
    ensures |r| == NumAccountDataTypes
  {
    ApplyRows(ResetSlots(cache, mask), rows, mask)
  }

  /** The diagnostics LoadAccountData logs, one per ignored row, in row order. */
  function IgnoredRows(rows: seq<AccountDataRow>, mask: bv32): (e: seq<Event>)
    ensures |e| <= |rows|
    ensures e == [] <==> forall k :: 0 <= k < |rows| ==> Verdict(rows[k], mask) == Store
  {
    if rows == [] then []
    else
      var init := rows[..|rows| - 1];
      assert forall k :: 0 <= k < |init| ==> init[k] == rows[k];
      IgnoredRows(init, mask) + RowDiagnostic(rows[|rows| - 1], mask)
  }

  /** The diagnostic one row produces: none for a stored row, otherwise its type and why it is ignored. */
  function RowDiagnostic(row: AccountDataRow, mask: bv32): (e: seq<Event>)
    ensures e == [] <==> Verdict(row, mask) == Store
    ensures e != [] ==> e == [AccountDataIgnored(row.dataType, row.dataType as int >= NumAccountDataTypes)]
  {
    var v := Verdict(row, mask);
    if v == Store then [] else [AccountDataIgnored(row.dataType, v == OutOfRange)]
  }

  /** The diagnostics of a result are those of its parts, in order: one per ignored row, in row order. */
  lemma {:induction false} IgnoredRowsAppend(a: seq<AccountDataRow>, b: seq<AccountDataRow>, mask: bv32)
    ensures IgnoredRows(a + b, mask) == IgnoredRows(a, mask) + IgnoredRows(b, mask)
    decreases |b|
  {
    if b == [] {
      assert a + b == a;
    } else {
      var init := b[..|b| - 1];
      assert (a + b)[..|a + b| - 1] == a + init;
      assert (a + b)[|a + b| - 1] == b[|b| - 1];
      IgnoredRowsAppend(a, init, mask);
      SeqAssoc(IgnoredRows(a, mask), IgnoredRows(init, mask), RowDiagnostic(b[|b| - 1], mask));
    }
  }

  /** A single row logs exactly its own diagnostic. */
  lemma IgnoredRowsSingle(row: AccountDataRow, mask: bv32)
    ensures IgnoredRows([row], mask) == RowDiagnostic(row, mask)
  {
    assert [row][..0] == [];
  }

  /** The last row of type `i`, if any. */
  function LastRowOfType(rows: seq<AccountDataRow>, i: nat): (r: Option<AccountDataRow>)
    ensures r.Some? ==> r.value in rows && r.value.dataType as int == i
    ensures r.Some? ==>
      exists j :: 0 <= j < |rows| && rows[j] == r.value && (forall k :: j < k < |rows| ==> rows[k].dataType as int != i)
    ensures r.None? ==> forall k :: 0 <= k < |rows| ==> rows[k].dataType as int != i
  {
    if rows == [] then None
    else
      var n := |rows| - 1;
      if rows[n].dataType as int == i then Some(rows[n])
      else
        var r := LastRowOfType(rows[..n], i);
        if r.Some? then
          var j :| 0 <= j < n && rows[..n][j] == r.value && forall k :: j < k < n ==> rows[..n][k].dataType as int != i;
          assert rows[j] == r.value && forall k :: j < k < |rows| ==> rows[k].dataType as int != i;
          r
        else r
  }

  /** What a slot holds once the rows are applied over `base`. */
  function SlotAfter(base: AccountData, rows: seq<AccountDataRow>, i: nat): AccountData
  {
    match LastRowOfType(rows, i)
    case None => base
    case Some(row) => AccountData(AsTime(row.time), row.data)
  }

  lemma {:induction false} ApplyRowsSlot(cache: seq<AccountData>, rows: seq<AccountDataRow>, mask: bv32, i: nat)
    requires |cache| == NumAccountDataTypes && i < NumAccountDataTypes
    ensures ApplyRows(cache, rows, mask)[i] ==
      if InMask(mask, i) then SlotAfter(cache[i], rows, i) else cache[i]
  {
    if rows != [] {
      var init := rows[..|rows| - 1];
      ApplyRowsSlot(cache, init, mask, i);
    }
  }

  /**
   * LoadAccountData slot by slot: a slot outside the mask keeps its value; a
   * slot in the mask holds the last row of its type, or is emptied when the
   * result has no such row.
   */
  lemma LoadedSlot(cache: seq<AccountData>, rows: seq<AccountDataRow>, mask: bv32, i: nat)
    requires |cache| == NumAccountDataTypes && i < NumAccountDataTypes
    ensures LoadedAccountData(cache, rows, mask)[i] ==
      if !InMask(mask, i) then cache[i] else SlotAfter(EmptyAccountData, rows, i)
  {
    ApplyRowsSlot(ResetSlots(cache, mask), rows, mask, i);
  }

  /** The row SetAccountData persists: per account, per character, or nothing. */
  datatype AccountDataWrite = NoWrite | AccountRow(dataType: nat) | CharacterRow(guid: nat, dataType: nat)

  /** Outcome of SetAccountData: the cache afterwards and the row written. */
  datatype AccountDataUpdate = AccountDataUpdate(cache: seq<AccountData>, write: AccountDataWrite)

  /**
   * SetAccountData: an account-wide type is written for the account; a
   * per-character type is written for the current character, and without a
   * character guid the call changes nothing at all.
   */
  function StoreAccountData(cache: seq<AccountData>, guidLow: nat, dataType: nat, time: int, data: string)
    : (r: AccountDataUpdate)
    requires |cache| == NumAccountDataTypes && dataType < NumAccountDataTypes
    ensures InMask(GlobalCacheMask, dataType) ==> r.write == AccountRow(dataType)
    ensures !InMask(GlobalCacheMask, dataType) && guidLow == 0 ==> r == AccountDataUpdate(cache, NoWrite)
    ensures !InMask(GlobalCacheMask, dataType) && guidLow != 0 ==> r.write == CharacterRow(guidLow, dataType)
    ensures r.write != NoWrite ==> r.cache == cache[dataType := AccountData(time, data)]
  {
    if InMask(GlobalCacheMask, dataType) then
      AccountDataUpdate(cache[dataType := AccountData(time, data)], AccountRow(dataType))
    else if guidLow == 0 then AccountDataUpdate(cache, NoWrite)
    else AccountDataUpdate(cache[dataType := AccountData(time, data)], CharacterRow(guidLow, dataType))
  }

  /** The two masks split the eight data types between them. */
  lemma CacheMasksPartition(i: nat)
    requires i < NumAccountDataTypes
    ensures InMask(GlobalCacheMask, i) != InMask(PerCharacterCacheMask, i)
  {
    match i
    case 0 => case 1 => case 2 => case 3 => case 4 => case 5 => case 6 => case 7 =>
  }

  const NumTutorialFlags: nat := 8

  datatype TutorialState = TutorialUnchanged | TutorialChanged | TutorialNew

  /** The statement SaveTutorialsData issues. */
  datatype TutorialWrite = NoTutorialWrite | UpdateTutorials(flags: seq<uint32>) | InsertTutorials(flags: seq<uint32>)

  /** The flags after LoadTutorialsData: all zero without a result row, otherwise those of the last row. */
  function LoadedTutorials(rows: seq<seq<uint32>>): (flags: seq<uint32>)
    requires forall i :: 0 <= i < |rows| ==> |rows[i]| == NumTutorialFlags
    ensures |flags| == NumTutorialFlags
  {
    if rows == [] then seq(NumTutorialFlags, _ => 0) else rows[|rows| - 1]
  }

  /** Flags read from the database are unchanged; without a row they are new. */
  function LoadedTutorialState(rows: seq<seq<uint32>>): TutorialState
  {
    if rows == [] then TutorialNew else TutorialUnchanged
  }

  /** Changed flags are updated in place, new ones inserted, unchanged ones not written. */
  function TutorialSave(state: TutorialState, flags: seq<uint32>): (w: TutorialWrite)
    ensures w == NoTutorialWrite <==> state == TutorialUnchanged
    ensures w.UpdateTutorials? <==> state == TutorialChanged
    ensures w != NoTutorialWrite ==> w.flags == flags
  {
    match state
    case TutorialChanged => UpdateTutorials(flags)
    case TutorialNew => InsertTutorials(flags)
    case TutorialUnchanged => NoTutorialWrite
  }

  /**
   * Saving right after a load writes nothing when the flags came from the
   * database, and inserts eight zero flags when there was no row.
   */
  lemma SaveAfterLoad(rows: seq<seq<uint32>>)
    requires forall i :: 0 <= i < |rows| ==> |rows[i]| == NumTutorialFlags
    ensures rows != [] ==> TutorialSave(LoadedTutorialState(rows), LoadedTutorials(rows)) == NoTutorialWrite
    ensures rows == [] ==> TutorialSave(LoadedTutorialState(rows), LoadedTutorials(rows)) == InsertTutorials([0, 0, 0, 0, 0, 0, 0, 0])
  {
    if rows == [] {
      assert LoadedTutorials(rows) == [0, 0, 0, 0, 0, 0, 0, 0];
    }
  }
}
