/**
 * The restore-height lookup table: checkpoints mapping a Unix timestamp to the block height
 * reached by then, kept in key order like a `QMap`. It turns a date into a height to restore a
 * wallet from (with a safety clearance of five days of blocks) and a height back into a
 * timestamp, and is loaded from a text file of `timestamp:height` lines. Reading the file is
 * left out: its text is the input.
 */
module RestoreHeight {
  import opened JsonRpc

  datatype NetworkType = Mainnet | Testnet | Stagenet

  /** Seconds per block. */
  const BlockTime: int := 120
  const BlocksPerDay: int := 720
  const SecondsPerDay: int := 86400
  /** Blocks subtracted from a looked-up height: five days. */
  const Clearance: int := BlocksPerDay * 5

  /** Strictly increasing keys: the iteration order of a `QMap`, with each key at most once. */
  predicate SortedKeys(e: seq<(int, int)>) {
    forall i, j :: 0 <= i < j < |e| ==> e[i].0 < e[j].0
  }

  /** In a table with sorted keys a key has one height. */
  lemma UniqueKeys(e: seq<(int, int)>, k: int, v1: int, v2: int)
    requires SortedKeys(e) && (k, v1) in e && (k, v2) in e
    ensures v1 == v2
  {
    var i :| 0 <= i < |e| && e[i] == (k, v1);
    var j :| 0 <= j < |e| && e[j] == (k, v2);
    assert !(i < j) && !(j < i);
  }

  // ---------------------------------------------------------------------------
  // Height to timestamp: the reference definitions

  /** Index of the first entry (in key order) whose height exceeds `height`, or `|e|` if none does. */
  function FirstAbove(e: seq<(int, int)>, height: int): (j: nat)
    ensures j <= |e|
    ensures forall i :: 0 <= i < j ==> e[i].1 <= height
    ensures j < |e| ==> e[j].1 > height
    decreases |e|
  {
    if e == [] then 0
    else if e[0].1 > height then 0
    else 1 + FirstAbove(e[1..], height)
  }

  /** The number of whole days of blocks to add to `from` to reach or pass `to`. */
  function DaysToReach(from: int, to: int): (n: nat)
    ensures from + BlocksPerDay * n >= to
    ensures n > 0 ==> from + BlocksPerDay * (n - 1) < to
  {
    if from >= to then 0 else (to - from + BlocksPerDay - 1) / BlocksPerDay
  }

  // ---------------------------------------------------------------------------
  // Parsing the table text

  /** `QString::split(sep)`, keeping empty parts. */
  function Split(s: string, sep: char): (parts: seq<string>)
    ensures |parts| >= 1
    ensures forall i :: 0 <= i < |parts| ==> sep !in parts[i]
    decreases |s|
  {
    if s == [] then [""]
    else
      var rest := Split(s[1..], sep);
      if s[0] == sep then [""] + rest else [[s[0]] + rest[0]] + rest[1..]
  }

  /** `QStringList::join(sep)`. */
  function Join(parts: seq<string>, sep: char): string
    requires |parts| >= 1
    decreases |parts|
  {
    if |parts| == 1 then parts[0] else parts[0] + [sep] + Join(parts[1..], sep)
  }

  /** Splitting loses nothing: joining the parts with the separator gives the text back. */
  lemma {:induction false} SplitJoin(s: string, sep: char)
    ensures Join(Split(s, sep), sep) == s
    decreases |s|
  {
    if s != [] {
      var rest := Split(s[1..], sep);
      SplitJoin(s[1..], sep);
      if s[0] == sep {
        assert Split(s, sep) == [""] + rest;
        assert ([""] + rest)[1..] == rest;
      } else {
        var parts := Split(s, sep);
        assert parts == [[s[0]] + rest[0]] + rest[1..];
        if |rest| == 1 {
          assert parts == [[s[0]] + rest[0]];
        } else {
          assert parts[1..] == rest[1..];
          assert Join(rest, sep) == rest[0] + [sep] + Join(rest[1..], sep);
        }
      }
    }
  }

  /** A text holding the separator splits into at least two parts. */
  lemma SplitAtSeparator(s: string, sep: char)
    requires sep in s
    ensures |Split(s, sep)| >= 2
  {
    SplitJoin(s, sep);
  }

  /** A non-blank line must hold a `:`: the loader reads the part after it unconditionally. */
  predicate WellFormedLine(line: string) {
    Trim(line) != "" ==> ':' in Trim(line)
  }

  predicate WellFormedText(text: string) {
    forall i :: 0 <= i < |Split(text, '\n')| ==> WellFormedLine(Split(text, '\n')[i])
  }

  /** The record a line holds: none for a blank line, otherwise the integers before and after the first `:`. */
  function RecordOf(line: string): (r: Option<(int, int)>)
    requires WellFormedLine(line)
    ensures r.None? <==> Trim(line) == ""
  {
    var t := Trim(line);
    if t == "" then None
    else
      SplitAtSeparator(t, ':');
      var spl := Split(t, ':');
      Some((QtToInt(spl[0]), QtToInt(spl[1])))
  }

  /** The records of the lines, in file order. */
  function Records(lines: seq<string>): seq<(int, int)>
    requires forall i :: 0 <= i < |lines| ==> WellFormedLine(lines[i])
    decreases |lines|
  {
    if lines == [] then []
    else
      var init := Records(lines[..|lines| - 1]);
      match RecordOf(lines[|lines| - 1])
      case None => init
      case Some(r) => init + [r]
  }

  /** The height of the last record with this timestamp: later lines win. */
  function LastValue(records: seq<(int, int)>, k: int): (r: Option<int>)
    ensures r.Some? ==> (k, r.value) in records
    ensures r.None? ==> forall i :: 0 <= i < |records| ==> records[i].0 != k
    decreases |records|
  {
    if records == [] then None
    else if records[|records| - 1].0 == k then Some(records[|records| - 1].1)
    else LastValue(records[..|records| - 1], k)
  }

  /** The value found is the one of the last record with the timestamp: no later record has it. */
  lemma {:induction false} LastValueIsLast(records: seq<(int, int)>, k: int)
    requires LastValue(records, k).Some?
    ensures exists i :: 0 <= i < |records| && records[i] == (k, LastValue(records, k).value)
                        && forall j :: i < j < |records| ==> records[j].0 != k
    decreases |records|
  {
    var n := |records| - 1;
    if records[n].0 == k {
      assert records[n] == (k, LastValue(records, k).value);
    } else {
      var init := records[..n];
      LastValueIsLast(init, k);
      var i :| 0 <= i < |init| && init[i] == (k, LastValue(init, k).value)
               && forall j :: i < j < |init| ==> init[j].0 != k;
      assert records[i] == init[i];
      forall j | i < j < |records| ensures records[j].0 != k {
        if j < n { assert records[j] == init[j]; }
      }
    }
  }

  /** Adding a line adds its record, if it has one, at the end. */
  lemma RecordsSnoc(lines: seq<string>, i: int)
    requires 0 <= i < |lines|
    requires forall k :: 0 <= k < |lines| ==> WellFormedLine(lines[k])
    ensures Records(lines[..i + 1]) ==
            Records(lines[..i]) + (if RecordOf(lines[i]).Some? then [RecordOf(lines[i]).value] else [])
  {
    var pre := lines[..i + 1];
    assert |pre| == i + 1 && pre[i] == lines[i];
    assert pre[..i] == lines[..i];
  }

  /** A blank line adds no record; any other line adds the integers around its first `:`. */
  lemma LineRecords(lines: seq<string>, i: int)
    requires 0 <= i < |lines|
    requires forall k :: 0 <= k < |lines| ==> WellFormedLine(lines[k])
    ensures Trim(lines[i]) == "" ==> Records(lines[..i + 1]) == Records(lines[..i])
    ensures Trim(lines[i]) != "" ==>
              |Split(Trim(lines[i]), ':')| >= 2
              && Records(lines[..i + 1]) == Records(lines[..i]) + [(QtToInt(Split(Trim(lines[i]), ':')[0]),
                                                                    QtToInt(Split(Trim(lines[i]), ':')[1]))]
  {
    RecordsSnoc(lines, i);
    var t := Trim(lines[i]);
    if t != "" {
      SplitAtSeparator(t, ':');
      var spl := Split(t, ':');
      assert RecordOf(lines[i]) == Some((QtToInt(spl[0]), QtToInt(spl[1])));
    }
  }

  /**
   * Inserting a record into a table that holds the last value of each key of `records` gives
   * a table holding the last value of each key of `records + [(key, value)]`.
   */
  lemma InsertKeepsLastValues(before: seq<(int, int)>, after: seq<(int, int)>, records: seq<(int, int)>,
                              key: int, value: int)
    requires SortedKeys(after)
    requires forall k, v :: (k, v) in before <==> LastValue(records, k) == Some(v)
    requires (key, value) in after
    requires forall p :: p in before && p.0 != key ==> p in after
    requires forall p :: p in after ==> p == (key, value) || (p in before && p.0 != key)
    ensures forall k, v :: (k, v) in after <==> LastValue(records + [(key, value)], k) == Some(v)
  {
    var records' := records + [(key, value)];
    assert records'[..|records'| - 1] == records;
    forall k, v ensures (k, v) in after <==> LastValue(records', k) == Some(v) {
      if k == key && (k, v) in after {
        UniqueKeys(after, k, v, value);
      }
    }
  }

  // ---------------------------------------------------------------------------
  // The table

  class RestoreHeightLookup {
    const netType: NetworkType
    /** The checkpoints `(timestamp, height)` in key order. */
    var data: seq<(int, int)>

    predicate Valid()
      reads this
    {
      SortedKeys(data)
    }

    constructor (netType: NetworkType)
      ensures this.netType == netType && data == [] && Valid()
    {
      this.netType := netType;
      data := [];
    }

    /** `data[key] = value`: insert the checkpoint, or replace the height of an existing key. */
    method Insert(key: int, value: int)
      requires Valid()
      modifies this
      ensures Valid()
      ensures (key, value) in data
      ensures forall p :: p in old(data) && p.0 != key ==> p in data
      ensures forall p :: p in data ==> p == (key, value) || (p in old(data) && p.0 != key)
    {
      var i := 0;
      while i < |data| && data[i].0 < key
        invariant 0 <= i <= |data|
        invariant forall j :: 0 <= j < i ==> data[j].0 < key
      {
        i := i + 1;
      }
      if i < |data| && data[i].0 == key {
        ghost var before := data;
        forall p | p in before && p.0 == key ensures p == before[i] {
          var j :| 0 <= j < |before| && before[j] == p;
          assert !(j < i) && !(i < j);
        }
        data := data[i := (key, value)];
        assert data[i] == (key, value);
        forall p | p in before && p.0 != key ensures p in data {
          var j :| 0 <= j < |before| && before[j] == p;
          assert data[j] == p;
        }
      } else {
        data := data[..i] + [(key, value)] + data[i..];
      }
    }

    /**
     * A testnet table always answers height 1. Otherwise a date up to the first checkpoint gives
     * 1; a date inside the table gives the height of the checkpoint at or before it, minus the
     * clearance; a date at or after the last checkpoint extrapolates one block per 120 s from it,
     * minus the clearance. Results are not clamped. An empty mainnet or stagenet table is not
     * allowed: the first key is read unconditionally.
     */
    method DateToHeight(date: int) returns (h: int)
      requires Valid()
      requires netType == Testnet || |data| > 0
      ensures netType == Testnet ==> h == 1
      ensures netType != Testnet && date <= data[0].0 ==> h == 1
      ensures netType != Testnet && data[0].0 < date ==>
                forall i :: 0 <= i < |data| - 1 && data[i].0 <= date < data[i + 1].0 ==> h == data[i].1 - Clearance
      ensures netType != Testnet && data[0].0 < date && data[|data| - 1].0 <= date ==>
                h == data[|data| - 1].1 + (date - data[|data| - 1].0) / BlockTime - Clearance
    {
      if netType == Testnet {
        return 1;
      }
      var blockTime := 120;
      var blocksPerDay := 720;
      var blockCalcClearance := blocksPerDay * 5;
      var entries := data;
      var values := seq(|entries|, k requires 0 <= k < |entries| => entries[k].0);
      if date <= values[0] {
        return 1;
      }
      var i := 0;
      while i != |values|
        invariant 0 <= i <= |values|
        invariant forall j :: 0 <= j < i ==> values[j] <= date
      {
        if values[i] > date {
          forall b | 0 <= b < |data| - 1 && data[b].0 <= date < data[b + 1].0 ensures b == i - 1 {
            assert values[b + 1] == data[b + 1].0 && values[i] == data[i].0;
            assert data[b].0 < data[i].0;
          }
          h := data[i - 1].1 - blockCalcClearance;
          return;
        }
        i := i + 1;
      }
      var lastBlockHeightTime := values[|values| - 1];
      var lastBlockHeight := data[|data| - 1].1;
      var deltaTime := date - lastBlockHeightTime;
      var deltaBlocks := deltaTime / blockTime;
      h := (lastBlockHeight + deltaBlocks) - blockCalcClearance;
    }

    /**
     * Walks the checkpoints in key order. At the first one whose height exceeds the request it
     * answers the previous checkpoint's timestamp (0 if there is none). If no checkpoint does,
     * it starts from the last one (timestamp 0, height 1 for an empty table) and adds a day per
     * 720 blocks until the height is reached or passed.
     */
    method HeightToTimestamp(height: int) returns (t: int)
      ensures var j := FirstAbove(data, height);
              j < |data| ==> t == (if j == 0 then 0 else data[j - 1].0)
      ensures FirstAbove(data, height) == |data| ==>
                var (start, startHeight) := if data == [] then (0, 1) else data[|data| - 1];
                t == start + SecondsPerDay * DaysToReach(startHeight, height)
    {
      var timestamp := 0;
      var heightData := 1;
      for i := 0 to |data|
        invariant forall k :: 0 <= k < i ==> data[k].1 <= height
        invariant i == 0 ==> timestamp == 0 && heightData == 1
        invariant i > 0 ==> timestamp == data[i - 1].0 && heightData == data[i - 1].1
      {
        var (ts, value) := data[i];
        if value > height {
          return timestamp;
        }
        timestamp := ts;
        heightData := value;
      }
      ghost var startHeight := heightData;
      ghost var days := 0;
      while heightData < height
        invariant heightData == startHeight + BlocksPerDay * days
        invariant days <= DaysToReach(startHeight, height)
        invariant timestamp == (if data == [] then 0 else data[|data| - 1].0) + SecondsPerDay * days
        decreases height - heightData
      {
        heightData := heightData + 720;
        timestamp := timestamp + 86400;
        days := days + 1;
      }
      assert days == DaysToReach(startHeight, height);
      t := timestamp;
    }

    /**
     * Builds a table from the file text: blank lines are skipped, every other line is split at
     * `:` into timestamp and height, and a later line for the same timestamp overwrites an
     * earlier one.
     */
    static method FromFile(text: string, netType: NetworkType) returns (r: RestoreHeightLookup)
      requires WellFormedText(text)
      ensures fresh(r) && r.netType == netType && r.Valid()
      ensures forall k, v :: (k, v) in r.data <==> LastValue(Records(Split(text, '\n')), k) == Some(v)
    {
      r := new RestoreHeightLookup(netType);
      var lines := Split(text, '\n');
      for i := 0 to |lines|
        invariant r.netType == netType && r.Valid()
        invariant forall k, v :: (k, v) in r.data <==> LastValue(Records(lines[..i]), k) == Some(v)
      {
        var line := lines[i];
        LineRecords(lines, i);
        if Trim(line) == "" {
          continue;
        }
        var trimmed := Trim(line);
        var spl := Split(trimmed, ':');
        var key, value := QtToInt(spl[0]), QtToInt(spl[1]);
        ghost var before := r.data;
        r.Insert(key, value);
        InsertKeepsLastValues(before, r.data, Records(lines[..i]), key, value);
      }
      assert lines[..|lines|] == lines;
    }
  }
}
