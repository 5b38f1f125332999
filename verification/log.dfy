/** The append-only structured log buffer shown by the console window. */
module Log {
  import opened Wrappers
  import opened Values

  /** One log record; `context` is absent until attach_context adds it. */
  datatype LogRecord = LogRecord(
    timestamp: string, level: string, category: string, message: string,
    context: Option<Value>)

  datatype LogError =
    | KeyError(flag: string)   // the flag is not one of "i", "w", "e"
    | IndexError               // attach_context on an empty log

  /** _level_flags: the one-letter flags and the level names they stand for. */
  const LevelFlags: map<string, string> := map["i" := "info", "w" := "warning", "e" := "error"]

  /** The module-level list g_log. */
  class LogBuffer {
    var records: seq<LogRecord>

    constructor ()
      ensures records == []
    {
      records := [];
    }

    /**
     * Appends one record whose level the flag names.  The timestamp, an ISO
     * 8601 UTC time in the source, is supplied by the caller.
     */
    method Log(timestamp: string, category: string, message: string, flags: string := "i")
      returns (r: Outcome<LogError>)
      modifies this
      ensures flags in LevelFlags ==>
        r == Pass &&
        records == old(records) + [LogRecord(timestamp, LevelFlags[flags], category, message, None)]
      ensures flags !in LevelFlags ==> r == Fail(KeyError(flags)) && records == old(records)
    {
      if flags !in LevelFlags {
        return Fail(KeyError(flags));
      }
      var level := LevelFlags[flags];
      records := records + [LogRecord(timestamp, level, category, message, None)];
      r := Pass;
    }

    /** Sets the context of the last record, replacing any earlier one. */
    method AttachContext(context: Value) returns (r: Outcome<LogError>)
      modifies this
      ensures old(records) == [] ==> r == Fail(IndexError) && records == old(records)
      ensures old(records) != [] ==>
        var n := |old(records)|;
        r == Pass && |records| == n &&
        records[..n - 1] == old(records)[..n - 1] &&
        records[n - 1] == old(records)[n - 1].(context := Some(context))
    {
      if records == [] {
        return Fail(IndexError);
      }
      var n := |records|;
      records := records[n - 1 := records[n - 1].(context := Some(context))];
      r := Pass;
    }

    method ClearLog()
      modifies this
      ensures records == []
    {
      records := [];
    }
  }

  /** The flag defaults to "i": a log call without one records at level "info". */
  method LogDefaultsToInfo(buf: LogBuffer, timestamp: string, category: string, message: string)
    modifies buf
    ensures |buf.records| == |old(buf.records)| + 1
    ensures buf.records[|buf.records| - 1].level == "info"
  {
    var r := buf.Log(timestamp, category, message);
  }
}
