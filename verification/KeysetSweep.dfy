/** The keyset-paginated sweeps of controller/channel_upstream_update.go over the channel table. */
module KeysetSweep {

  /** A channel as the sweep sees it, in primary-key order. */
  datatype Key = Key(id: int, enabled: bool, checked: bool)

  /** Primary keys are unique and assigned from 1 up. */
  predicate Table(rows: seq<Key>) {
    && (forall i :: 0 <= i < |rows| ==> rows[i].id > 0)
    && (forall i, j :: 0 <= i < j < |rows| ==> rows[i].id < rows[j].id)
  }

  predicate Selected(row: Key, lastID: int) {
    row.enabled && (lastID > 0 ==> row.id > lastID)
  }

  /** The enabled rows past `lastID`, in order; the filter is left off while `lastID` is not positive. */
  function After(rows: seq<Key>, lastID: int): seq<Key> {
    if rows == [] then []
    else if Selected(rows[0], lastID) then [rows[0]] + After(rows[1..], lastID)
    else After(rows[1..], lastID)
  }

  /** findEnabledChannelsAfterID: one page of at most `batch` rows. */
  function Page(rows: seq<Key>, lastID: int, batch: nat): seq<Key> {
    var all := After(rows, lastID);
    if |all| <= batch then all else all[..batch]
  }

  function Enabled(rows: seq<Key>): seq<Key> {
    After(rows, 0)
  }

  /** A sweep's rows are exactly the enabled ones. */
  lemma {:induction false} EnabledExactly(rows: seq<Key>, row: Key)
    ensures row in Enabled(rows) <==> row in rows && row.enabled
  {
    if rows != [] {
      EnabledExactly(rows[1..], row);
      assert row in rows <==> row == rows[0] || row in rows[1..];
    }
  }

  function Checked(rows: seq<Key>): seq<int> {
    if rows == [] then []
    else Checked(rows[..|rows| - 1]) + (if rows[|rows| - 1].checked then [rows[|rows| - 1].id] else [])
  }

  lemma {:induction false} AllAfter(rows: seq<Key>, lastID: int)
    requires forall i :: 0 <= i < |rows| ==> rows[i].id > lastID
    ensures After(rows, lastID) == Enabled(rows)
  {
    if rows != [] {
      AllAfter(rows[1..], lastID);
    }
  }

  lemma {:induction false} EnabledAbove(rows: seq<Key>, bound: int)
    requires forall i :: 0 <= i < |rows| ==> rows[i].id > bound
    ensures forall i :: 0 <= i < |Enabled(rows)| ==> Enabled(rows)[i].id > bound
  {
    if rows != [] {
      EnabledAbove(rows[1..], bound);
      var rest := Enabled(rows[1..]);
      assert forall i :: 0 < i < |[rows[0]] + rest| ==> ([rows[0]] + rest)[i] == rest[i - 1];
    }
  }

  /** Rows past the k-th enabled row are the enabled rows from k on. */
  lemma {:induction false} AfterIsSuffix(rows: seq<Key>, k: nat)
    requires Table(rows) && 0 < k <= |Enabled(rows)|
    ensures After(rows, Enabled(rows)[k - 1].id) == Enabled(rows)[k..]
  {
    var rest, first, enabled := rows[1..], rows[0], Enabled(rows);
    EnabledAbove(rows, 0);
    if first.enabled && k == 1 {
      AllAfter(rest, first.id);
    } else {
      EnabledAbove(rest, first.id);
      var before := if first.enabled then k - 1 else k;
      AfterIsSuffix(rest, before);
      assert enabled[k - 1] == Enabled(rest)[before - 1];
      assert enabled[k..] == Enabled(rest)[before..];
    }
  }

  /** A page is the next batch of the enabled rows. */
  lemma PageIsNext(rows: seq<Key>, k: nat, lastID: int, batch: nat)
    requires Table(rows) && k <= |Enabled(rows)| && lastID == if k == 0 then 0 else Enabled(rows)[k - 1].id
    ensures var rest := Enabled(rows)[k..];
            Page(rows, lastID, batch) == if |rest| <= batch then rest else rest[..batch]
  {
    if k > 0 {
      AfterIsSuffix(rows, k);
    }
  }
}
