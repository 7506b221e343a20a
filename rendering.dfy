/** The token-to-event renderer (`symbolic_to_midi`, main.py lines 91-115):
    a walk over the tokens that keeps the running key, tempo and time
    signature and appends a note-on/note-off pair for every token that is
    not a mode token. The MIDI file and its saving are left out; the
    renderer returns the track's messages. */
module Rendering {
  import opened Wrappers
  import opened Text
  import opened Encoding
  import opened Sequences

  /** The branch of the loop body a token takes. */
  datatype TokenKind = KeyKind | TempoKind | TimeKind | ModeKind | OtherKind

  /** The substring tests of lines 101-107, in their order. */
  function Classify(token: string): TokenKind {
    if Contains(token, "key_") then KeyKind
    else if Contains(token, "tempo_") then TempoKind
    else if Contains(token, "time_") then TimeKind
    else if Contains(token, "mode_") then ModeKind
    else OtherKind
  }

  /** A token taking the key, tempo or time branch holds an underscore. */
  lemma ClassifiedHasUnderscore(token: string)
    requires Classify(token) in {KeyKind, TempoKind, TimeKind}
    ensures '_' in token
  {
    if Contains(token, "key_") {
      ContainsChar(token, "key_", 3);
    } else if Contains(token, "tempo_") {
      ContainsChar(token, "tempo_", 5);
    } else {
      ContainsChar(token, "time_", 4);
    }
  }

  /** `token.split("_")[1]`. */
  function Field(token: string): string
    requires '_' in token
  {
    SplitOnSeveral(token, '_');
    SplitOn(token, '_')[1]
  }

  /** The dict of line 104; a missing bin raises KeyError, here None. */
  function TempoBpm(name: string): Option<int> {
    if name == "slow" then Some(60)
    else if name == "medium" then Some(100)
    else if name == "fast" then Some(140)
    else None
  }

  datatype MessageType = NoteOn | NoteOff

  /** One `mido.Message` appended to the track. */
  datatype Message = Message(kind: MessageType, note: int, velocity: int, time: int)

  /** Lines 111-113: the two messages appended for one token. */
  function NotePair(note: int): seq<Message> {
    [Message(NoteOn, note, 64, 0), Message(NoteOff, note, 64, 480)]
  }

  /** The locals `key`, `tempo` and `time_sig`. */
  datatype RenderState = RenderState(key: int, tempo: int, timeSig: int)

  /** Lines 96-98. */
  const Initial := RenderState(0, 120, 4)

  /** The exceptions the loop body can raise. */
  datatype RenderError =
    | InvalidInteger(token: string)  // `int(...)` raises ValueError
    | UnknownTempo(token: string)    // the tempo dict raises KeyError

  /** The state and messages after some tokens. */
  datatype Rendered = Rendered(state: RenderState, messages: seq<Message>)

  /** One pass of the loop body. */
  function Step(st: RenderState, token: string): Result<Rendered, RenderError> {
    match Classify(token)
    case KeyKind =>
      ClassifiedHasUnderscore(token);
      var k := ParseInt(Field(token));
      if k.None? then Err(InvalidInteger(token))
      else Ok(Rendered(st.(key := k.value), NotePair(60 + k.value)))
    case TempoKind =>
      ClassifiedHasUnderscore(token);
      var bpm := TempoBpm(Field(token));
      if bpm.None? then Err(UnknownTempo(token))
      else Ok(Rendered(st.(tempo := bpm.value), NotePair(60 + st.key)))
    case TimeKind =>
      ClassifiedHasUnderscore(token);
      var t := ParseInt(Field(token));
      if t.None? then Err(InvalidInteger(token))
      else Ok(Rendered(st.(timeSig := t.value), NotePair(60 + st.key)))
    case ModeKind => Ok(Rendered(st, []))
    case OtherKind => Ok(Rendered(st, NotePair(60 + st.key)))
  }

  /** A run preceded by messages already on the track. */
  function Prefixed(track: seq<Message>, r: Result<Rendered, RenderError>): Result<Rendered, RenderError> {
    match r
    case Err(e) => Err(e)
    case Ok(o) => Ok(Rendered(o.state, track + o.messages))
  }

  /** The whole loop from state st, or the first exception. */
  function Run(st: RenderState, tokens: seq<string>): Result<Rendered, RenderError>
    decreases |tokens|
  {
    if tokens == [] then Ok(Rendered(st, []))
    else
      var first := Step(st, tokens[0]);
      if first.Err? then Err(first.error)
      else Prefixed(first.value.messages, Run(first.value.state, tokens[1..]))
  }

  lemma PrefixedTwice(a: seq<Message>, b: seq<Message>, r: Result<Rendered, RenderError>)
    ensures Prefixed(a, Prefixed(b, r)) == Prefixed(a + b, r)
  {
    if r.Ok? {
      assert a + (b + r.value.messages) == (a + b) + r.value.messages;
    }
  }

  lemma PrefixedEmpty(r: Result<Rendered, RenderError>)
    ensures Prefixed([], r) == r
  {
    if r.Ok? {
      assert [] + r.value.messages == r.value.messages;
    }
  }

  lemma RunStep(st: RenderState, tokens: seq<string>, i: nat)
    requires i < |tokens|
    ensures Run(st, tokens[i..]) ==
            match Step(st, tokens[i])
            case Err(e) => Err(e)
            case Ok(first) => Prefixed(first.messages, Run(first.state, tokens[i + 1..]))
  {
    assert tokens[i..][1..] == tokens[i + 1..];
  }

  /** `symbolic_to_midi(tokens)` without the file: the track's messages, or
      the exception that stops it. */
  method SymbolicToMidi(tokens: seq<string>) returns (r: Result<seq<Message>, RenderError>)
    ensures r.Ok? <==> Run(Initial, tokens).Ok?
    ensures r.Ok? ==> r.value == Run(Initial, tokens).value.messages
    ensures r.Err? ==> r.error == Run(Initial, tokens).error
  {
    var key, tempo, timeSig := 0, 120, 4;
    var track: seq<Message> := [];
    assert tokens[0..] == tokens;
    PrefixedEmpty(Run(Initial, tokens));
    for i := 0 to |tokens|
      invariant Run(Initial, tokens) == Prefixed(track, Run(RenderState(key, tempo, timeSig), tokens[i..]))
    {
      var token := tokens[i];
      ghost var before := RenderState(key, tempo, timeSig);
      RunStep(before, tokens, i);
      if Contains(token, "key_") {
        ClassifiedHasUnderscore(token);
        var parsed := ParseInt(Field(token));
        if parsed.None? {
          r := Err(InvalidInteger(token));
          return;
        }
        key := parsed.value;
      } else if Contains(token, "tempo_") {
        ClassifiedHasUnderscore(token);
        var bpm := TempoBpm(Field(token));
        if bpm.None? {
          r := Err(UnknownTempo(token));
          return;
        }
        tempo := bpm.value;
      } else if Contains(token, "time_") {
        ClassifiedHasUnderscore(token);
        var parsed := ParseInt(Field(token));
        if parsed.None? {
          r := Err(InvalidInteger(token));
          return;
        }
        timeSig := parsed.value;
      } else if Contains(token, "mode_") {
        PrefixedEmpty(Run(before, tokens[i + 1..]));
        continue;
      }
      var note := 60 + key;
      PrefixedTwice(track, NotePair(note), Run(RenderState(key, tempo, timeSig), tokens[i + 1..]));
      track := track + [Message(NoteOn, note, 64, 0), Message(NoteOff, note, 64, 480)];
    }
    assert tokens[|tokens|..] == [];
    r := Ok(track);
  }

  // ---------------------------------------------------------------------
  // Properties of the renderer
  // ---------------------------------------------------------------------

  /** Whether a token can pass the loop body without an exception; this
      does not depend on the state. */
  predicate Renders(token: string) {
    match Classify(token)
    case KeyKind | TimeKind =>
      ClassifiedHasUnderscore(token);
      ParseInt(Field(token)).Some?
    case TempoKind =>
      ClassifiedHasUnderscore(token);
      TempoBpm(Field(token)).Some?
    case _ => true
  }

  /** The renderer finishes exactly when every token renders. */
  lemma {:induction false} RunSucceeds(st: RenderState, tokens: seq<string>)
    ensures Run(st, tokens).Ok? <==> forall j :: 0 <= j < |tokens| ==> Renders(tokens[j])
    decreases |tokens|
  {
    if tokens != [] {
      assert Step(st, tokens[0]).Ok? <==> Renders(tokens[0]);
      if Step(st, tokens[0]).Ok? {
        RunSucceeds(Step(st, tokens[0]).value.state, tokens[1..]);
        assert forall j :: 1 <= j < |tokens| ==> tokens[1..][j - 1] == tokens[j];
      }
    }
  }

  /** Running over a + b is running over a, then over b from where a ended. */
  lemma {:induction false} RunAppend(st: RenderState, a: seq<string>, b: seq<string>)
    ensures Run(st, a + b) ==
            match Run(st, a)
            case Err(e) => Err(e)
            case Ok(o) => Prefixed(o.messages, Run(o.state, b))
    decreases |a|
  {
    if a == [] {
      assert a + b == b;
      PrefixedEmpty(Run(st, b));
    } else {
      assert (a + b)[0] == a[0];
      assert (a + b)[1..] == a[1..] + b;
      match Step(st, a[0])
      case Err(e) =>
      case Ok(first) =>
        RunAppend(first.state, a[1..], b);
        match Run(first.state, a[1..])
        case Err(e) =>
        case Ok(o) =>
          PrefixedTwice(first.messages, o.messages, Run(o.state, b));
    }
  }

  /** The number of tokens that emit notes: all but the mode tokens. */
  function CountNotes(tokens: seq<string>): nat
    decreases |tokens|
  {
    if tokens == [] then 0
    else (if Classify(tokens[0]) == ModeKind then 0 else 1) + CountNotes(tokens[1..])
  }

  /** Every token but a mode token emits exactly two messages. */
  lemma {:induction false} RunMessageCount(st: RenderState, tokens: seq<string>)
    requires Run(st, tokens).Ok?
    ensures |Run(st, tokens).value.messages| == 2 * CountNotes(tokens)
    decreases |tokens|
  {
    if tokens != [] {
      var first := Step(st, tokens[0]).value;
      RunMessageCount(first.state, tokens[1..]);
    }
  }

  /** The integer of the most recent key token, or k0 when there is none. */
  function LatestKey(k0: int, tokens: seq<string>): int
    decreases |tokens|
  {
    if tokens == [] then k0
    else
      var last := tokens[|tokens| - 1];
      if Classify(last) == KeyKind && Renders(last) then
        ClassifiedHasUnderscore(last);
        ParseInt(Field(last)).value
      else LatestKey(k0, tokens[..|tokens| - 1])
  }

  /** What one step does to the key and which messages it emits. */
  lemma StepEffect(st: RenderState, token: string)
    requires Step(st, token).Ok?
    ensures Classify(token) == ModeKind ==> Step(st, token).value == Rendered(st, [])
    ensures Classify(token) != ModeKind ==>
              Step(st, token).value.messages == NotePair(60 + Step(st, token).value.state.key)
    ensures Step(st, token).value.state.key == LatestKey(st.key, [token])
  {
  }

  /** After a run the key is the most recent key token's. */
  lemma {:induction false} RunKey(st: RenderState, tokens: seq<string>)
    requires Run(st, tokens).Ok?
    ensures Run(st, tokens).value.state.key == LatestKey(st.key, tokens)
    decreases |tokens|
  {
    if tokens != [] {
      var n := |tokens| - 1;
      var front := tokens[..n];
      assert tokens == front + [tokens[n]];
      RunAppend(st, front, [tokens[n]]);
      var o := Run(st, front).value;
      RunKey(st, front);
      StepEffect(o.state, tokens[n]);
      assert [tokens[n]][1..] == [];
    }
  }

  /** The pair emitted for token j sits at messages 2c and 2c + 1, where c
      counts the note-emitting tokens before j, and plays 60 plus the most
      recent key up to and including token j. */
  lemma RunPitch(st: RenderState, tokens: seq<string>, j: nat)
    requires Run(st, tokens).Ok?
    requires j < |tokens| && Classify(tokens[j]) != ModeKind
    ensures 2 * CountNotes(tokens[..j]) + 1 < |Run(st, tokens).value.messages|
    ensures Run(st, tokens).value.messages[2 * CountNotes(tokens[..j])] ==
            Message(NoteOn, 60 + LatestKey(st.key, tokens[..j + 1]), 64, 0)
    ensures Run(st, tokens).value.messages[2 * CountNotes(tokens[..j]) + 1] ==
            Message(NoteOff, 60 + LatestKey(st.key, tokens[..j + 1]), 64, 480)
  {
    var before, t, rest := tokens[..j], tokens[j], tokens[j + 1..];
    SplitAround(tokens, j);
    RunAppend(st, before + [t], rest);
    RunAppend(st, before, [t]);
    var o1 := Run(st, before).value;
    RunSingle(o1.state, t);
    var s := Step(o1.state, t).value;
    StepEffect(o1.state, t);
    RunMessageCount(st, before);
    RunKey(st, before + [t]);
    var tail := Run(s.state, rest).value;
    assert Run(st, tokens).value.messages == (o1.messages + s.messages) + tail.messages;
  }

  // ---------------------------------------------------------------------
  // Rendering the encoder's tokens
  // ---------------------------------------------------------------------

  /** The beats per minute the dict gives each bin. */
  function Bpm(b: TempoBin): int {
    match b
    case Slow => 60
    case Medium => 100
    case Fast => 140
  }

  lemma IntStrLetters(n: int)
    ensures 'k' !in IntStr(n) && 'p' !in IntStr(n) && 'm' !in IntStr(n)
    ensures '_' !in IntStr(n)
  {
    IntStrChars(n);
  }

  /** The field after a prefix that ends in its only underscore. */
  lemma FieldAfter(prefix: string, value: string)
    requires |prefix| > 0 && prefix[|prefix| - 1] == '_' && '_' !in prefix[..|prefix| - 1]
    requires '_' !in value
    ensures '_' in prefix + value
    ensures Field(prefix + value) == value
  {
    var name := prefix[..|prefix| - 1];
    assert prefix + value == name + ['_'] + value;
    assert (prefix + value)[|name|] == '_';
    SplitOnFirst(name, '_', value);
    SplitOnNoSeparator(value, '_');
  }

  lemma KeyTokenParts(r: Record)
    ensures Classify(KeyToken(r)) == KeyKind
    ensures '_' in KeyToken(r) && Field(KeyToken(r)) == IntStr(Trunc(r.key))
  {
    var k := IntStr(Trunc(r.key));
    IntStrLetters(Trunc(r.key));
    PrefixContains("key_", k);
    FieldAfter("key_", k);
  }

  /** Both mode names take the mode branch. */
  lemma ModeNameParts(name: string)
    requires name == "major" || name == "minor"
    ensures Classify("mode_" + name) == ModeKind
  {
    var token := "mode_" + name;
    NotContains(token, "key_", 'k');
    NotContains(token, "tempo_", 't');
    NotContains(token, "time_", 't');
    PrefixContains("mode_", name);
  }

  lemma MajorModeKind()
    ensures Classify("mode_major") == ModeKind
  {
    ModeNameParts("major");
    assert "mode_" + "major" == "mode_major";
  }

  lemma ModeTokenParts(r: Record)
    ensures Classify(ModeToken(r)) == ModeKind
    ensures Classify(IntendedModeToken(r)) == ModeKind
  {
    ModeNameParts(ModeName(RowMode(r)));
    ModeNameParts(ModeName(RowModeColumn(r)));
  }

  lemma TempoTokenParts(r: Record)
    ensures Classify(TempoToken(r)) == TempoKind
    ensures '_' in TempoToken(r) && Field(TempoToken(r)) == BinName(BinTempo(r.tempo))
  {
    var name := BinName(BinTempo(r.tempo));
    var token := TempoToken(r);
    assert 'k' !in token by {
      assert token == "tempo_slow" || token == "tempo_medium" || token == "tempo_fast";
    }
    NotContains(token, "key_", 'k');
    PrefixContains("tempo_", name);
    FieldAfter("tempo_", name);
  }

  lemma TimeTokenParts(r: Record)
    ensures Classify(TimeToken(r)) == TimeKind
    ensures '_' in TimeToken(r) && Field(TimeToken(r)) == IntStr(Trunc(r.timeSignature))
  {
    var t := IntStr(Trunc(r.timeSignature));
    var token := TimeToken(r);
    IntStrLetters(Trunc(r.timeSignature));
    assert 'k' !in token && 'p' !in token;
    NotContains(token, "key_", 'k');
    NotContains(token, "tempo_", 'p');
    PrefixContains("time_", t);
    FieldAfter("time_", t);
  }

  lemma KeyTokenStep(st: RenderState, r: Record)
    ensures Step(st, KeyToken(r)) ==
            Ok(Rendered(st.(key := Trunc(r.key)), NotePair(60 + Trunc(r.key))))
  {
    KeyTokenParts(r);
    ParseIntStr(Trunc(r.key));
  }

  /** A token taking the mode branch hits `continue`. */
  lemma ModeTokenStep(st: RenderState, mode: string)
    requires Classify(mode) == ModeKind
    ensures Step(st, mode) == Ok(Rendered(st, []))
  {
  }

  lemma TempoTokenStep(st: RenderState, r: Record)
    ensures Step(st, TempoToken(r)) ==
            Ok(Rendered(st.(tempo := Bpm(BinTempo(r.tempo))), NotePair(60 + st.key)))
  {
    TempoTokenParts(r);
  }

  lemma TimeTokenStep(st: RenderState, r: Record)
    ensures Step(st, TimeToken(r)) ==
            Ok(Rendered(st.(timeSig := Trunc(r.timeSignature)), NotePair(60 + st.key)))
  {
    TimeTokenParts(r);
    ParseIntStr(Trunc(r.timeSignature));
  }

  /** Rendering one encoded record: three pairs at 60 plus its key and none
      for the mode token, leaving the record's key, its bin's tempo and its
      time signature in the state. */
  lemma RenderRecord(st: RenderState, r: Record)
    ensures Run(st, Split(EncodeRecord(r))) ==
            Ok(Rendered(RenderState(Trunc(r.key), Bpm(BinTempo(r.tempo)), Trunc(r.timeSignature)),
                        NotePair(60 + Trunc(r.key)) + NotePair(60 + Trunc(r.key)) + NotePair(60 + Trunc(r.key))))
  {
    SplitEncodeRecord(r);
    ModeTokenParts(r);
    RenderRecordTokens(st, r, ModeToken(r));
  }

  /** The same holds of the encoder that reads the mode column. */
  lemma RenderIntendedRecord(st: RenderState, r: Record)
    ensures Run(st, Split(IntendedEncodeRecord(r))) ==
            Ok(Rendered(RenderState(Trunc(r.key), Bpm(BinTempo(r.tempo)), Trunc(r.timeSignature)),
                        NotePair(60 + Trunc(r.key)) + NotePair(60 + Trunc(r.key)) + NotePair(60 + Trunc(r.key))))
  {
    SplitIntendedEncodeRecord(r);
    ModeTokenParts(r);
    RenderRecordTokens(st, r, IntendedModeToken(r));
  }

  /** A record's key, tempo and time tokens around any mode-branch token. */
  lemma RenderRecordTokens(st: RenderState, r: Record, mode: string)
    requires Classify(mode) == ModeKind
    ensures Run(st, [KeyToken(r), mode, TempoToken(r), TimeToken(r)]) ==
            Ok(Rendered(RenderState(Trunc(r.key), Bpm(BinTempo(r.tempo)), Trunc(r.timeSignature)),
                        NotePair(60 + Trunc(r.key)) + NotePair(60 + Trunc(r.key)) + NotePair(60 + Trunc(r.key))))
  {
    var a, b, c, d := KeyToken(r), mode, TempoToken(r), TimeToken(r);
    ConsFour(a, b, c, d);
    var pair := NotePair(60 + Trunc(r.key));
    var s1 := st.(key := Trunc(r.key));
    var s3 := s1.(tempo := Bpm(BinTempo(r.tempo)));
    KeyTokenStep(st, r);
    ModeTokenStep(s1, mode);
    TempoTokenStep(s1, r);
    TimeTokenStep(s3, r);
    RunSingle(s3, d);
    RunCons(s1, c, [d]);
    RunCons(s1, b, [c] + [d]);
    PrefixedEmpty(Run(s1, [c] + [d]));
    RunCons(st, a, [b] + ([c] + [d]));
    ConcatThree(pair, pair, pair);
  }

  /** A stream starting with a token that renders continues from that
      token's state. */
  lemma RunCons(st: RenderState, token: string, rest: seq<string>)
    requires Step(st, token).Ok?
    ensures Run(st, [token] + rest) ==
            Prefixed(Step(st, token).value.messages, Run(Step(st, token).value.state, rest))
  {
    assert ([token] + rest)[0] == token;
    assert ([token] + rest)[1..] == rest;
  }

  /** A one-token stream renders as that token's step. */
  lemma RunSingle(st: RenderState, token: string)
    ensures Run(st, [token]) == Step(st, token)
  {
    assert [token][1..] == [];
    if Step(st, token).Ok? {
      assert Step(st, token).value.messages + [] == Step(st, token).value.messages;
    }
  }

  /** The seed of main.py line 118, `key_0 mode_major tempo_medium time_4`,
      renders from the initial state as three pairs at middle C and ends
      with tempo 100 and time 4. */
  lemma RenderSeed()
    ensures Run(Initial, ["key_0", "mode_major", "tempo_medium", "time_4"]) ==
            Ok(Rendered(RenderState(0, 100, 4), NotePair(60) + NotePair(60) + NotePair(60)))
  {
    var r := Record(0.0, 1.0, 100.0, 4.0);
    assert Trunc(r.key) == 0 && Trunc(r.timeSignature) == 4;
    assert DigitChar(0) == '0' && DigitChar(4) == '4';
    assert KeyToken(r) == "key_0";
    assert TempoToken(r) == "tempo_medium";
    assert TimeToken(r) == "time_4";
    MajorModeKind();
    RenderRecordTokens(Initial, r, "mode_major");
  }

  /** `key_3 mode_major tempo_fast time_4` renders as three pairs at 63
      and ends with tempo 140 and time 4. */
  lemma RenderKeyThree()
    ensures Run(Initial, ["key_3", "mode_major", "tempo_fast", "time_4"]) ==
            Ok(Rendered(RenderState(3, 140, 4), NotePair(63) + NotePair(63) + NotePair(63)))
  {
    var r := Record(3.0, 1.0, 140.0, 4.0);
    assert Trunc(r.key) == 3 && Trunc(r.timeSignature) == 4;
    assert DigitChar(3) == '3' && DigitChar(4) == '4';
    assert KeyToken(r) == "key_3";
    assert TempoToken(r) == "tempo_fast";
    assert TimeToken(r) == "time_4";
    MajorModeKind();
    RenderRecordTokens(Initial, r, "mode_major");
  }

  /** A token that takes no branch changes nothing and still emits a pair
      at the current key. */
  lemma RenderUnrecognised(st: RenderState, token: string)
    requires Classify(token) == OtherKind
    ensures Run(st, [token]) == Ok(Rendered(st, NotePair(60 + st.key)))
  {
    RunSingle(st, token);
  }

  /** A token holding none of the letters k, p, i and d takes no branch:
      each of the four patterns has one of them. */
  lemma LetterFreeUnrecognised(token: string)
    requires 'k' !in token && 'p' !in token && 'i' !in token && 'd' !in token
    ensures Classify(token) == OtherKind
  {
    NotContains(token, "key_", 'k');
    NotContains(token, "tempo_", 'p');
    NotContains(token, "time_", 'i');
    NotContains(token, "mode_", 'd');
  }

  /** `foo_bar`, for one. */
  lemma RenderFooBar(st: RenderState)
    ensures Run(st, ["foo_bar"]) == Ok(Rendered(st, NotePair(60 + st.key)))
  {
    LetterFreeUnrecognised("foo_bar");
    RenderUnrecognised(st, "foo_bar");
  }

  /** A tempo token whose bin is not in the dict (`tempo_allegro`, say)
      stops the renderer with the KeyError. */
  lemma RenderUnknownTempo(st: RenderState, name: string)
    requires TempoBpm(name).None? && '_' !in name
    ensures Run(st, ["tempo_" + name]) == Err(UnknownTempo("tempo_" + name))
  {
    var token := "tempo_" + name;
    assert Classify(token) == TempoKind by {
      NoKeyBeforeTempo(name);
      PrefixContains("tempo_", name);
    }
    assert '_' in token && Field(token) == name by {
      FieldAfter("tempo_", name);
    }
    assert Step(st, token) == Err(UnknownTempo(token));
    RunSingle(st, token);
  }

  /** The one underscore of `tempo_<name>` follows `o`, while `key_` puts
      `y` before its underscore, so `key_` does not occur. */
  lemma NoKeyBeforeTempo(name: string)
    requires '_' !in name
    ensures !Contains("tempo_" + name, "key_")
  {
    var token := "tempo_" + name;
    forall i | 0 <= i < |token| && i != 5 ensures token[i] != '_' {
      if i > 5 {
        assert token[i] == name[i - 6];
      } else {
        assert token[i] == "tempo_"[i];
      }
    }
    assert token[4] == 'o';
    NotContainsPair(token, "key_", 5);
  }
}
