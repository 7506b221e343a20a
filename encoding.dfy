/** The symbolic encoder of main.py: tempo binning (`bin_tempo`) and the
    row lambda that turns one record into the space-separated string
    `key_<k> mode_<m> tempo_<bin> time_<t>`. */
module Encoding {
  import opened Text

  datatype TempoBin = Slow | Medium | Fast

  /** `bin_tempo`: 80 and 120 fall in the higher bin. */
  function BinTempo(tempo: real): (b: TempoBin)
    ensures b == Slow <==> tempo < 80.0
    ensures b == Medium <==> 80.0 <= tempo < 120.0
    ensures b == Fast <==> 120.0 <= tempo
  {
    if tempo < 80.0 then Slow
    else if tempo < 120.0 then Medium
    else Fast
  }

  function Rank(b: TempoBin): nat {
    match b
    case Slow => 0
    case Medium => 1
    case Fast => 2
  }

  /** A faster tempo never lands in a slower bin. */
  lemma BinTempoMonotonic(t1: real, t2: real)
    requires t1 <= t2
    ensures Rank(BinTempo(t1)) <= Rank(BinTempo(t2))
  {
  }

  /** The string `bin_tempo` returns. */
  function BinName(b: TempoBin): string {
    match b
    case Slow => "slow"
    case Medium => "medium"
    case Fast => "fast"
  }

  /** One row of the table after `dropna`: pandas holds every column as a
      float, so all four fields are reals. */
  datatype Record = Record(key: real, mode: real, tempo: real, timeSignature: real)

  /** Python's `int(x)` on a float: truncation toward zero. */
  function Trunc(x: real): (n: int)
    ensures 0.0 <= x ==> n as real <= x < n as real + 1.0
    ensures x < 0.0 ==> n as real - 1.0 < x <= n as real
  {
    if 0.0 <= x then x.Floor else -((-x).Floor)
  }

  /** What a mode lookup on a row yields. Inside `df.apply(..., axis=1)`
      each row is a pandas Series, and attribute access finds the Series'
      own method `mode` before it looks for a column of that name, so
      `row.mode` is that bound method; `row['mode']` is the column's value. */
  datatype ModeAttribute = SeriesMethod | Column(value: real)

  /** `row.mode`, as line 22 writes it. */
  function RowMode(r: Record): ModeAttribute { SeriesMethod }

  /** `row['mode']`, the column line 22 evidently means. */
  function RowModeColumn(r: Record): ModeAttribute { Column(r.mode) }

  /** `'major' if attribute == 1 else 'minor'`: a method never equals 1. */
  function ModeName(a: ModeAttribute): string {
    if a == Column(1.0) then "major" else "minor"
  }

  function KeyToken(r: Record): string { "key_" + IntStr(Trunc(r.key)) }
  function ModeToken(r: Record): string { "mode_" + ModeName(RowMode(r)) }
  function TempoToken(r: Record): string { "tempo_" + BinName(BinTempo(r.tempo)) }
  function TimeToken(r: Record): string { "time_" + IntStr(Trunc(r.timeSignature)) }

  /** The f-string of main.py line 22. */
  function EncodeRecord(r: Record): string {
    KeyToken(r) + " " + ModeToken(r) + " " + TempoToken(r) + " " + TimeToken(r)
  }

  /** The four tokens of a record, in the order key, mode, tempo, time. */
  function RecordTokens(r: Record): seq<string> {
    [KeyToken(r), ModeToken(r), TempoToken(r), TimeToken(r)]
  }

  lemma IntStrNoSpace(n: int)
    ensures NoSpace(IntStr(n)) && '_' !in IntStr(n)
  {
    IntStrChars(n);
  }

  /** Splitting an encoded record on whitespace gives back exactly its four
      tokens, in order. */
  lemma SplitEncodeRecord(r: Record)
    ensures Split(EncodeRecord(r)) == RecordTokens(r)
  {
    RecordTokensAreWords(r);
    SplitFour(KeyToken(r), ModeToken(r), TempoToken(r), TimeToken(r));
  }

  /** Each of the four tokens is a nonempty block without whitespace. */
  lemma RecordTokensAreWords(r: Record)
    ensures KeyToken(r) != [] && NoSpace(KeyToken(r))
    ensures ModeToken(r) != [] && NoSpace(ModeToken(r))
    ensures TempoToken(r) != [] && NoSpace(TempoToken(r))
    ensures TimeToken(r) != [] && NoSpace(TimeToken(r))
  {
    KeyTokenWord(r);
    ModeTokenWord(r);
    TempoTokenWord(r);
    TimeTokenWord(r);
  }

  lemma KeyTokenWord(r: Record)
    ensures NoSpace(KeyToken(r))
  {
    IntStrNoSpace(Trunc(r.key));
    NoSpaceConcat("key_", IntStr(Trunc(r.key)));
  }

  lemma ModeTokenWord(r: Record)
    ensures NoSpace(ModeToken(r))
  {
    NoSpaceConcat("mode_", ModeName(RowMode(r)));
  }

  lemma TempoTokenWord(r: Record)
    ensures NoSpace(TempoToken(r))
  {
    NoSpaceConcat("tempo_", BinName(BinTempo(r.tempo)));
  }

  lemma TimeTokenWord(r: Record)
    ensures NoSpace(TimeToken(r))
  {
    IntStrNoSpace(Trunc(r.timeSignature));
    NoSpaceConcat("time_", IntStr(Trunc(r.timeSignature)));
  }

  /** As line 22 is written, every record's mode token is `mode_minor`,
      whatever its mode field holds. */
  lemma ModeTokenMinor(r: Record)
    ensures ModeToken(r) == "mode_minor"
  {
  }

  /** A token the encoder never writes: `mode_major` is none of a record's
      four tokens. */
  lemma {:induction false} RecordTokensLackMajor(r: Record)
    ensures "mode_major" !in RecordTokens(r)
  {
    assert KeyToken(r)[0] == 'k';
    assert TempoToken(r)[0] == 't';
    assert TimeToken(r)[0] == 't';
    assert ModeToken(r) == "mode_minor";
    assert "mode_minor"[7] != "mode_major"[7];
  }

  /** A major-key record (mode 1) encodes as `mode_minor`, where the
      column's value would give `mode_major`. */
  lemma ModeTokenIgnoresMode()
    ensures ModeToken(Record(0.0, 1.0, 100.0, 4.0)) == "mode_minor"
    ensures IntendedModeToken(Record(0.0, 1.0, 100.0, 4.0)) == "mode_major"
  {
  }

  // ---------------------------------------------------------------------
  // The encoder with the mode read from the column
  // ---------------------------------------------------------------------

  function IntendedModeToken(r: Record): string { "mode_" + ModeName(RowModeColumn(r)) }

  /** Line 22 with `row['mode']` in place of `row.mode`. */
  function IntendedEncodeRecord(r: Record): string {
    KeyToken(r) + " " + IntendedModeToken(r) + " " + TempoToken(r) + " " + TimeToken(r)
  }

  /** With the column read, the mode token says `major` exactly when the
      mode field is 1. */
  lemma IntendedModeTokenMajor(r: Record)
    ensures IntendedModeToken(r) == "mode_major" <==> r.mode == 1.0
  {
    if r.mode != 1.0 {
      assert IntendedModeToken(r)[7] != "mode_major"[7];
    }
  }

  /** The corrected encoder still splits back into its four tokens. */
  lemma SplitIntendedEncodeRecord(r: Record)
    ensures Split(IntendedEncodeRecord(r)) == [KeyToken(r), IntendedModeToken(r), TempoToken(r), TimeToken(r)]
  {
    KeyTokenWord(r);
    IntendedModeTokenWord(r);
    TempoTokenWord(r);
    TimeTokenWord(r);
    SplitFour(KeyToken(r), IntendedModeToken(r), TempoToken(r), TimeToken(r));
  }

  lemma IntendedModeTokenWord(r: Record)
    ensures NoSpace(IntendedModeToken(r))
  {
    NoSpaceConcat("mode_", ModeName(RowModeColumn(r)));
  }
}
