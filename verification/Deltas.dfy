/** Delta messages (crates/signalk-types/src/delta.rs, source.rs). */
module Deltas {
  import opened Basics
  import opened JsonModel

  datatype PathValue = PathValue(path: string, value: Json)

  /** Where a value comes from. `pgn` is the parameter group number as printed. */
  datatype Source = Source(sourceLabel: string, kind: string, talker: Option<string>, pgn: Option<string>)

  datatype Update = Update(source: Source, timestamp: int, values: seq<PathValue>)

  datatype Delta = Delta(context: Option<string>, updates: seq<Update>)

  /** A source without type-specific fields. */
  function PluginSource(id: string): Source {
    Source(id, "Plugin", None, None)
  }

  /** `make_source_ref`: the registry key of a source. */
  function SourceRef(s: Source): string {
    s.sourceLabel +
    if s.kind == "NMEA0183" && s.talker.Some? then "." + s.talker.value
    else if s.kind == "NMEA2000" && s.pgn.Some? then "." + s.pgn.value
    else ""
  }
}
