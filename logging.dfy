/**
 * The CSV log of car_light.py (lines 35-36, 56-68, 143): deleted and recreated
 * with its header at the start of a run, then appended one row per evaluated
 * pair and tick. Rows are kept as values; the text formatting is not modelled.
 */
module Logging {
  /**
   * One log row: simulation time, the two vehicle ids, the squared separation
   * and the brightness given to each vehicle.
   */
  datatype LogRecord = LogRecord(
    time: real,
    veh1: string,
    veh2: string,
    distSq: real,
    bright1: int,
    bright2: int)

  datatype Line = Header(columns: seq<string>) | Row(record: LogRecord)

  const Columns: seq<string> := ["time", "veh1", "veh2", "distance_m", "veh1_brightness", "veh2_brightness"]

  /** The rows for a sequence of records, in the same order. */
  function AsLines(rs: seq<LogRecord>): (ls: seq<Line>)
    ensures |ls| == |rs|
    ensures forall i :: 0 <= i < |rs| ==> ls[i] == Row(rs[i])
  {
    seq(|rs|, i requires 0 <= i < |rs| => Row(rs[i]))
  }

  lemma AsLinesAppend(a: seq<LogRecord>, b: seq<LogRecord>)
    ensures AsLines(a + b) == AsLines(a) + AsLines(b)
  {
  }

  /** The log file: whatever it holds, line by line. */
  class Log {
    var lines: seq<Line>

    /** A log file left over from an earlier run (possibly empty). */
    constructor (existing: seq<Line>)
      ensures lines == existing
    {
      lines := existing;
    }

    /** Delete the old file and start a new one holding only the header. */
    method Reset()
      modifies this
      ensures lines == [Header(Columns)]
    {
      lines := [Header(Columns)];
    }

    /** `writer.writerow(...)` for one record. */
    method Append(r: LogRecord)
      modifies this
      ensures lines == old(lines) + [Row(r)]
    {
      lines := lines + [Row(r)];
    }
  }
}
