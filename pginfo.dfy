/**
 * The pginfo command (cmd/pginfo/main.go): which scanned devices get a row
 * and what each column holds. The table layout is not modelled, and the
 * size column carries the byte count that formatSize would print.
 */
module PgInfo {
  import opened DeviceRecord

  /** truncateString: `s` when it fits in maxLen, else its first maxLen characters and "...". */
  function TruncateString(s: string, maxLen: nat): (r: string)
    ensures |s| <= maxLen ==> r == s
    ensures |s| > maxLen ==> |r| == maxLen + 3 && r[..maxLen] == s[..maxLen] && r[maxLen..] == "..."
  {
    if |s| <= maxLen then s else s[..maxLen] + "..."
  }

  /**
   * Truncating twice is truncating once: a truncated string keeps the same
   * first maxLen characters and its "..." tail is cut and restored.
   */
  lemma TruncateIdempotent(s: string, maxLen: nat)
    ensures TruncateString(TruncateString(s, maxLen), maxLen) == TruncateString(s, maxLen)
  {
    if |s| > maxLen {
      var r := TruncateString(s, maxLen);
      assert r[..maxLen] + "..." == r;
    }
  }

  /** One table row: the short form or, with -v, the long form. */
  datatype Row =
    | ShortRow(path: string, labelColumn: string, mounted: string, mountPoint: string)
    | LongRow(path: string, labelColumn: string, uuid: string, fsType: string, size: nat,
              isMounted: bool, mountPoint: string, encrypted: bool)

  /** The short label column: the label, or the device name when there is none. */
  function LabelColumn(d: Device): (r: string)
    ensures r == d.volumeLabel || (d.volumeLabel == "" && r == d.name)
    ensures d.volumeLabel != "" ==> r == d.volumeLabel
  {
    if d.volumeLabel == "" then d.name else d.volumeLabel
  }

  /** The row of one device. */
  function RowFor(d: Device, verbose: bool): (r: Row)
    ensures verbose <==> r.LongRow?
    ensures r.path == d.path && r.mountPoint == d.mountPoint
    ensures r.ShortRow? ==> r.labelColumn == LabelColumn(d) && (r.mounted == "Yes" <==> d.isMounted)
    ensures r.ShortRow? ==> r.mounted in {"Yes", "No"}
    ensures r.LongRow? ==> r.labelColumn == d.volumeLabel && r.uuid == TruncateString(d.uuid, 8)
  {
    if verbose then
      LongRow(d.path, d.volumeLabel, TruncateString(d.uuid, 8), d.fsType, d.size, d.isMounted, d.mountPoint, d.isEncrypted)
    else
      ShortRow(d.path, LabelColumn(d), if d.isMounted then "Yes" else "No", d.mountPoint)
  }

  /** Whole disks are listed only with -a. */
  predicate Listed(d: Device, showAll: bool) {
    d.isPartition || showAll
  }

  /** The listed devices of a scan, in scan order. */
  function ListedDevices(ds: seq<Device>, showAll: bool): seq<Device>
    decreases |ds|
  {
    if ds == [] then []
    else ListedDevices(ds[..|ds| - 1], showAll) + if Listed(ds[|ds| - 1], showAll) then [ds[|ds| - 1]] else []
  }

  /** The rows of a scan, in scan order. */
  function Rows(ds: seq<Device>, showAll: bool, verbose: bool): seq<Row>
    decreases |ds|
  {
    if ds == [] then []
    else Rows(ds[..|ds| - 1], showAll, verbose) + if Listed(ds[|ds| - 1], showAll) then [RowFor(ds[|ds| - 1], verbose)] else []
  }

  /** There is one row per listed device, in order, and it is that device's row. */
  lemma {:induction false} RowsOfListed(ds: seq<Device>, showAll: bool, verbose: bool)
    ensures |Rows(ds, showAll, verbose)| == |ListedDevices(ds, showAll)|
    ensures forall i :: 0 <= i < |Rows(ds, showAll, verbose)| ==>
      Rows(ds, showAll, verbose)[i] == RowFor(ListedDevices(ds, showAll)[i], verbose)
    decreases |ds|
  {
    if ds != [] {
      RowsOfListed(ds[..|ds| - 1], showAll, verbose);
    }
  }

  /** Without -a exactly the partitions are listed; with -a every device is. */
  lemma {:induction false} ListedMembers(ds: seq<Device>, showAll: bool)
    ensures forall d :: d in ListedDevices(ds, showAll) <==> d in ds && (showAll || d.isPartition)
    ensures showAll ==> ListedDevices(ds, showAll) == ds
    decreases |ds|
  {
    if ds != [] {
      ListedMembers(ds[..|ds| - 1], showAll);
      assert ds == ds[..|ds| - 1] + [ds[|ds| - 1]];
    }
  }

  /** What pginfo prints: a single message for an empty scan, otherwise a table. */
  datatype Report = NoDevices | Table(verbose: bool, rows: seq<Row>)

  /** The report loop of pginfo, which skips whole disks unless -a is given. */
  method BuildReport(ds: seq<Device>, showAll: bool, verbose: bool) returns (r: Report)
    ensures ds == [] <==> r == NoDevices
    ensures ds != [] ==> r == Table(verbose, Rows(ds, showAll, verbose))
  {
    if |ds| == 0 {
      return NoDevices;
    }
    var rows: seq<Row> := [];
    for i := 0 to |ds|
      invariant rows == Rows(ds[..i], showAll, verbose)
    {
      assert ds[..i + 1][..i] == ds[..i];
      var d := ds[i];
      if !d.isPartition && !showAll {
        continue;
      }
      rows := rows + [RowFor(d, verbose)];
    }
    assert ds[..|ds|] == ds;
    r := Table(verbose, rows);
  }
}
