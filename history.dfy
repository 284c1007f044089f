/**
 * The battery history table of `updateBattery`: a row is appended only when
 * the percentage differs from `prevPercent`, the last percentage logged.
 * Emptying the table (`tableWidgetReset`, `allReset`) keeps `prevPercent`.
 */
module History {
  import opened Wrappers
  import opened Versions

  /** The status column: "Plugged" or "Unplugged". */
  datatype PowerStatus = Plugged | Unplugged

  /**
   * One table row: the "HH:mm" clock text, the percentage, the status and,
   * from 2.0 on, the remaining-time label (release 1.0 has three columns).
   */
  datatype Row = Row(time: string, percent: int, status: PowerStatus, remaining: Option<string>)

  /** The rows of the table together with `prevPercent` (None until the first row). */
  datatype Log = Log(rows: seq<Row>, prevPercent: Option<int>)

  const Fresh := Log([], None)

  /** The row `updateBattery` would insert for this sample. */
  function MakeRow(v: Version, time: string, percent: int, plugged: bool, remaining: Option<string>): (r: Row)
    ensures r.time == time && r.percent == percent
    ensures r.status == Plugged <==> plugged
    ensures r.remaining == if TracksRemaining(v) then remaining else None
  {
    Row(time, percent, if plugged then Plugged else Unplugged,
        if TracksRemaining(v) then remaining else None)
  }

  /** The percentage column. */
  function Percents(rows: seq<Row>): (ps: seq<int>)
    ensures |ps| == |rows|
    ensures forall i :: 0 <= i < |rows| ==> ps[i] == rows[i].percent
  {
    if rows == [] then [] else [rows[0].percent] + Percents(rows[1..])
  }

  /** No two neighbouring rows carry the same percentage. */
  predicate NoAdjacentRepeats(ps: seq<int>) {
    forall i :: 0 < i < |ps| ==> ps[i - 1] != ps[i]
  }

  /**
   * The invariant of the table: no neighbouring repeats, and while the
   * table is not empty `prevPercent` is its last percentage.
   */
  predicate Consistent(log: Log) {
    NoAdjacentRepeats(Percents(log.rows)) &&
    (log.rows != [] ==> log.prevPercent == Some(log.rows[|log.rows| - 1].percent))
  }

  /** `updateBattery` given the row the current sample makes. */
  function Record(log: Log, row: Row): (r: Log)
    ensures |r.rows| == |log.rows| || |r.rows| == |log.rows| + 1
    ensures |r.rows| == |log.rows| + 1 <==> log.prevPercent != Some(row.percent)
    ensures r.rows[..|log.rows|] == log.rows
    ensures |r.rows| == |log.rows| + 1 ==> r.rows[|log.rows|] == row
    ensures r.prevPercent == if log.prevPercent == Some(row.percent) then log.prevPercent else Some(row.percent)
  {
    if log.prevPercent != Some(row.percent) then Log(log.rows + [row], Some(row.percent))
    else log
  }

  /** `tableWidgetReset`: the rows go, `prevPercent` stays. */
  function Clear(log: Log): (r: Log)
    ensures r.rows == [] && r.prevPercent == log.prevPercent
  {
    Log([], log.prevPercent)
  }

  /** A run of `updateBattery` calls, one per candidate row. */
  function RecordAll(log: Log, candidates: seq<Row>): (r: Log)
    ensures |log.rows| <= |r.rows| <= |log.rows| + |candidates|
    ensures r.rows[..|log.rows|] == log.rows
    ensures candidates == [] ==> r == log
    ensures candidates != [] ==> r.prevPercent == Some(candidates[|candidates| - 1].percent)
    decreases |candidates|
  {
    if candidates == [] then log else RecordAll(Record(log, candidates[0]), candidates[1..])
  }

  /**
   * Reference definition: a sequence of percentages with every value that
   * repeats its predecessor dropped, the predecessor of the first being
   * `prev`.
   */
  function SqueezeAfter(prev: Option<int>, ps: seq<int>): seq<int>
    decreases |ps|
  {
    if ps == [] then []
    else if prev == Some(ps[0]) then SqueezeAfter(prev, ps[1..])
    else [ps[0]] + SqueezeAfter(Some(ps[0]), ps[1..])
  }

  /**
   * The rows a run of recordings appends: each candidate whose percentage
   * differs from the one before it, the first compared with `prev`.
   */
  function SqueezeRowsAfter(prev: Option<int>, candidates: seq<Row>): seq<Row>
    decreases |candidates|
  {
    if candidates == [] then []
    else if prev == Some(candidates[0].percent) then SqueezeRowsAfter(prev, candidates[1..])
    else [candidates[0]] + SqueezeRowsAfter(Some(candidates[0].percent), candidates[1..])
  }

  lemma PercentsAppend(a: seq<Row>, b: seq<Row>)
    ensures Percents(a + b) == Percents(a) + Percents(b)
  {
    assert forall i :: 0 <= i < |a + b| ==> Percents(a + b)[i] == (Percents(a) + Percents(b))[i];
  }

  /** Recording keeps the table consistent: it never logs a repeat of the last row. */
  lemma RecordKeepsConsistent(log: Log, row: Row)
    requires Consistent(log)
    ensures Consistent(Record(log, row))
  {
    var r := Record(log, row);
    if r != log {
      PercentsAppend(log.rows, [row]);
    }
  }

  /** Emptying the table keeps it consistent even though `prevPercent` is kept. */
  lemma ClearKeepsConsistent(log: Log)
    ensures Consistent(Clear(log))
  {
  }

  /**
   * A run of recordings appends to the table exactly the squeezed
   * percentages of the candidates, measured from `prevPercent`.
   */
  lemma {:induction false} RecordAllSqueezes(log: Log, candidates: seq<Row>)
    ensures Percents(RecordAll(log, candidates).rows) ==
            Percents(log.rows) + SqueezeAfter(log.prevPercent, Percents(candidates))
    decreases |candidates|
  {
    if candidates != [] {
      var c := candidates[0];
      var next := Record(log, c);
      assert Percents(candidates)[1..] == Percents(candidates[1..]);
      RecordAllSqueezes(next, candidates[1..]);
      if log.prevPercent != Some(c.percent) {
        PercentsAppend(log.rows, [c]);
      }
    }
  }

  /**
   * A run of recordings appends the candidate rows themselves, not only
   * their percentages: exactly the squeezed rows, after the old rows.
   */
  lemma {:induction false} RecordAllAppendsRows(log: Log, candidates: seq<Row>)
    ensures RecordAll(log, candidates).rows == log.rows + SqueezeRowsAfter(log.prevPercent, candidates)
    decreases |candidates|
  {
    if candidates != [] {
      var c := candidates[0];
      var next := Record(log, c);
      RecordAllAppendsRows(next, candidates[1..]);
      if log.prevPercent != Some(c.percent) {
        assert next.rows == log.rows + [c];
        assert next.rows + SqueezeRowsAfter(Some(c.percent), candidates[1..]) ==
               log.rows + ([c] + SqueezeRowsAfter(Some(c.percent), candidates[1..]));
      }
    }
  }

  /** The percentages of the squeezed rows are the squeezed percentages. */
  lemma {:induction false} SqueezeRowsPercents(prev: Option<int>, candidates: seq<Row>)
    ensures Percents(SqueezeRowsAfter(prev, candidates)) == SqueezeAfter(prev, Percents(candidates))
    decreases |candidates|
  {
    if candidates != [] {
      var c := candidates[0];
      assert Percents(candidates)[1..] == Percents(candidates[1..]);
      if prev == Some(c.percent) {
        SqueezeRowsPercents(prev, candidates[1..]);
      } else {
        SqueezeRowsPercents(Some(c.percent), candidates[1..]);
        PercentsAppend([c], SqueezeRowsAfter(Some(c.percent), candidates[1..]));
      }
    }
  }

  /** The squeezed sequence has no neighbouring repeats and does not begin with `prev`. */
  lemma {:induction false} SqueezeHasNoRepeats(prev: Option<int>, ps: seq<int>)
    ensures NoAdjacentRepeats(SqueezeAfter(prev, ps))
    ensures SqueezeAfter(prev, ps) != [] ==> prev != Some(SqueezeAfter(prev, ps)[0])
    decreases |ps|
  {
    if ps != [] {
      if prev == Some(ps[0]) {
        SqueezeHasNoRepeats(prev, ps[1..]);
      } else {
        SqueezeHasNoRepeats(Some(ps[0]), ps[1..]);
      }
    }
  }

  /** Sampling 50, 50, 49, 49, 80 into a fresh table logs three rows: 50, 49 and 80. */
  lemma DuplicatesSuppressed(candidates: seq<Row>)
    requires Percents(candidates) == [50, 50, 49, 49, 80]
    ensures Percents(RecordAll(Fresh, candidates).rows) == [50, 49, 80]
  {
    RecordAllSqueezes(Fresh, candidates);
    assert SqueezeAfter(None, [50, 50, 49, 49, 80]) == [50, 49, 80] by {
      assert [50, 50, 49, 49, 80][1..] == [50, 49, 49, 80];
      assert [50, 49, 49, 80][1..] == [49, 49, 80];
      assert [49, 49, 80][1..] == [49, 80];
      assert [49, 80][1..] == [80];
    }
  }

  /**
   * Because emptying the table keeps `prevPercent`, the first sample after
   * it is not logged when it repeats the last percentage logged before.
   */
  lemma ClearedTableSkipsRepeat(log: Log, row: Row)
    requires log.prevPercent == Some(row.percent)
    ensures Record(Clear(log), row).rows == []
  {
  }
}
