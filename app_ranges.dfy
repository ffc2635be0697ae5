/**
 * utils/ranges.py: turning a Slither source mapping into an LSP range or
 * location, and the range of a declaration's name. Slither's `get_definition`
 * (where a declaration's name starts) is given by the caller as a source
 * mapping, and `fs_path_to_uri` as a function.
 */
module AppRanges {
  import opened AppTypes

  /** Slither's `Filename`: the absolute path and the other spellings it keeps. */
  datatype FileName = FileName(absolute: string, used: string, relative: string, short: string)

  /** The lines a source spans; Slither lists them from the first to the last, so there is at least one. */
  type Lines = s: seq<int> | |s| > 0 witness [1]

  /** Slither's `Source`: the file, the lines, the columns (counted from 1) and the byte offset. */
  datatype Source = Source(filename: FileName, lines: Lines, startingColumn: int, endingColumn: int, start: int)

  function Last(lines: Lines): int
  {
    lines[|lines| - 1]
  }

  function Max0(x: int): int
  {
    if x < 0 then 0 else x
  }

  /**
   * `source_to_range`: lines and columns counted from 0, starting on the first
   * listed line and ending on the last, each character clamped at 0.
   */
  function SourceToRange(source: Source): (r: Range)
    ensures r.start.line + 1 == source.lines[0] && r.end.line + 1 == Last(source.lines)
    ensures r.start.character >= 0 && r.end.character >= 0
    ensures source.startingColumn >= 1 ==> r.start.character + 1 == source.startingColumn
    ensures source.startingColumn < 1 ==> r.start.character == 0
    ensures source.endingColumn >= 1 ==> r.end.character + 1 == source.endingColumn
    ensures source.endingColumn < 1 ==> r.end.character == 0
  {
    Range(Position(source.lines[0] - 1, Max0(source.startingColumn - 1)),
          Position(Last(source.lines) - 1, Max0(source.endingColumn - 1)))
  }

  /** `source_to_location`: the file's URI together with the range of the same source. */
  function SourceToLocation(source: Source, toUri: string -> string): (l: Location)
    ensures l.uri == toUri(source.filename.absolute)
    ensures l.range == SourceToRange(source)
  {
    Location(toUri(source.filename.absolute), SourceToRange(source))
  }

  /**
   * `get_object_name_range`, given the declaration's name and where
   * `get_definition` says it starts: one line, as wide as the name, and not
   * clamped.
   */
  function NameRange(name: string, definition: Source): (r: Range)
    ensures r.start.line == r.end.line == definition.lines[0] - 1
    ensures r.end.character - r.start.character == |name|
    ensures r.start.character + 1 == definition.startingColumn
  {
    Range(Position(definition.lines[0] - 1, definition.startingColumn - 1),
          Position(definition.lines[0] - 1, definition.startingColumn + |name| - 1))
  }

  /** A name range whose definition starts in column 0 or before begins at a negative character. */
  lemma NameRangeNotClamped(name: string, definition: Source)
    requires definition.startingColumn < 1
    ensures NameRange(name, definition).start.character < 0
  {
  }
}
