# ML-Music core, modelled in Dafny

ML-Music is a small symbolic music pipeline in one Python script, `main.py`. It works in six stages:

1. It reads a table of songs.
2. It encodes each row (key, mode, tempo, time signature) as four tokens, such as `key_5 mode_minor tempo_fast time_4`.
3. It flattens each genre's encoded rows into one token list. It also builds one list across all genres.
4. It slices a genre's id list into windows of four ids, each paired with the id that follows it.
5. It trains an LSTM on those windows. `generate_tokens` then extends a seed token list greedily: at each step it encodes the last four tokens, asks the network for scores, takes the first maximal id and appends that id's token.
6. `symbolic_to_midi` walks a token list. It keeps a running key, tempo and time signature, and appends a note-on/note-off pair at pitch `60 + key` for every token except a mode token.

The model has seven modules, one file each. `import` connects them.

| file | module | what it holds |
|---|---|---|
| `wrappers.dfy` | `Wrappers` | `Option` and `Result` |
| `sequences.dfy` | `Sequences` | small sequence identities |
| `text.dfy` | `Text` | the Python string operations the script relies on: `p in s`, `s.split()`, `s.split("_")`, `str(n)`, `int(s)` |
| `encoding.dfy` | `Encoding` | `bin_tempo` and the row encoder as line 22 writes it, with the encoder it evidently means beside it |
| `corpus.dfy` | `Corpus` | the genre-flattening loop, as a method proved equal to recursive specification functions, and the training-window loop, as a method whose contract states each window and its target |
| `generation.dfy` | `Generation` | `generate_tokens`, as a method proved equal to a recursive function `Generate` |
| `rendering.dfy` | `Rendering` | `symbolic_to_midi`, as a method proved equal to a recursive function `Run` |

**Encoding.** Line 22 reads the mode as `row.mode`. Each row is a pandas Series, and `Series` has a method named `mode`. Attribute access finds that method before it looks for a column, so `row.mode == 1` is always false and every record is written `mode_minor`. The model encodes records that way, and "## Findings" records the consequence.

**Generation.** The fitted keras tokenizer is a `Vocabulary`: the two maps `word_index` and `index_word`. The trained network is a `Predictor`: a function from an id window to a score vector with one entry per id. `num_steps` defaults to 32, as at main.py:76. Two failures that Python raises as exceptions are returned as errors:

- `WindowShape`: the window does not encode to four ids, so the reshape fails;
- `UnknownIndex`: the argmax id has no token.

**Rendering.** The renderer returns the track's messages. Its two failures are also returned as errors:

- `InvalidInteger`: `int(...)` fails on a key or time field;
- `UnknownTempo`: the tempo dict has no entry for the field.

A mode token emits no event: its branch ends in `continue` (main.py:107-108). A token matching no branch changes no state and still emits a pair at the current key (main.py:110-113); it raises nothing.

## Model

| member | source | states |
|---|---|---|
| Text.Contains | main.py:101 | Python's `p in s` on strings: p occurs in s as a contiguous block |
| Text.ContainsAt | main.py:101 | an occurring pattern has an index where each of its characters matches |
| Text.NotContains | main.py:101-107 | a pattern holding a character that the token lacks does not occur in the token |
| Text.NotContainsPair | main.py:101-107 | a pattern of two or more characters does not occur in a token where its last character can appear only at one position j > 0, and the token's character before j differs from the pattern's second-to-last |
| Text.Split | main.py:37 | Python's `s.split()`: the maximal whitespace-free blocks, in order |
| Text.SplitWords | main.py:37 | every piece `split()` returns is nonempty and holds no whitespace |
| Text.WordMeaning | main.py:37 | a split word is the longest whitespace-free prefix of the string |
| Text.SplitFour | main.py:37 | four whitespace-free words joined by single spaces split back into those four words |
| Text.SplitOn | main.py:102 | Python's `s.split("_")`, which always returns at least one piece |
| Text.SplitOnNoSeparator | main.py:102 | `s.split("_")` on a string without `_` is `[s]` |
| Text.SplitOnFirst | main.py:102 | the first piece of `s.split("_")` is everything before the first `_` |
| Text.SplitOnSeveral | main.py:102 | a string holding `_` splits into at least two pieces, so `[1]` exists |
| Text.IntStr | main.py:22 | Python's `str(n)` for an integer |
| Text.IntStrChars | main.py:22 | `str(n)` is nonempty and holds only digits, with perhaps a leading minus sign |
| Text.ParseInt | main.py:102 | Python's `int(s)`: an optional sign then ASCII digits, otherwise ValueError (None) |
| Text.ParseIntStr | main.py:22 | `int(str(n)) == n` for every integer, so the renderer reads back the key and time the encoder wrote |
| Encoding.BinTempo | main.py:11-17 | the bin is slow iff tempo < 80, medium iff 80 <= tempo < 120, fast iff tempo >= 120, so 80 and 120 fall in the higher bin |
| Encoding.BinName | main.py:13-17 | the strings `bin_tempo` returns: `slow`, `medium`, `fast` |
| Encoding.BinTempoMonotonic | main.py:11-17 | a faster tempo never falls in a slower bin |
| Encoding.Trunc | main.py:22 | `int()` on a float truncates toward zero: the result is the nearest integer on the zero side of x, within 1 of it |
| Encoding.RowMode | main.py:22 | `row.mode` is the Series' own `mode` method, whatever the record holds |
| Encoding.ModeName | main.py:22 | `'major' if ... == 1 else 'minor'` |
| Encoding.KeyToken | main.py:22 | `key_` followed by `str(int(key))` |
| Encoding.ModeToken | main.py:22 | `mode_` followed by the name the comparison on `row.mode` selects |
| Encoding.TempoToken | main.py:19-22 | `tempo_` followed by the name `bin_tempo` gives the tempo |
| Encoding.TimeToken | main.py:22 | `time_` followed by `str(int(time_signature))` |
| Encoding.EncodeRecord | main.py:22 | the four tokens joined by single spaces |
| Encoding.ModeTokenMinor | main.py:22 | every record's mode token is `mode_minor` |
| Encoding.RecordTokensLackMajor | main.py:22 | `mode_major` is none of a record's four tokens |
| Encoding.ModeTokenIgnoresMode | main.py:22 | a record with mode 1 is written `mode_minor`, where reading the column gives `mode_major` |
| Encoding.SplitEncodeRecord | main.py:22 | splitting an encoded record on whitespace gives exactly its four tokens, in the order key, mode, tempo, time |
| Encoding.RecordTokensAreWords | main.py:22 | each of the four tokens is nonempty and holds no whitespace |
| Encoding.IntendedModeToken | main.py:22 | `mode_` followed by the name the comparison on `row['mode']` selects |
| Encoding.IntendedEncodeRecord | main.py:22 | line 22 with `row['mode']`: the four tokens joined by single spaces |
| Encoding.IntendedModeTokenMajor | main.py:22 | with `row['mode']`, the mode token is `mode_major` iff the mode field equals 1 |
| Encoding.SplitIntendedEncodeRecord | main.py:22 | the encoder with `row['mode']` also splits back into its four tokens |
| Corpus.EncodeAll | main.py:22 | every record is encoded, in order |
| Corpus.FlattenGenre | main.py:37-38 | each string split on whitespace, the pieces concatenated in order |
| Corpus.AllTokens | main.py:39 | the genres' flat lists concatenated in iteration order |
| Corpus.GenreTokenMap | main.py:40 | each genre mapped to its flat list, a later group overwriting an earlier one |
| Corpus.BuildCorpus | main.py:36-40 | the loop's `all_tokens` and `genre_token_map` equal AllTokens and GenreTokenMap of the groups |
| Corpus.CorpusStep | main.py:36-40 | one loop pass appends the group's flat list to `all_tokens` and sets the group's genre to that list |
| Corpus.FlattenEncoded | main.py:37-38 | a genre's flat list has 4 x (number of records) tokens, and token 4i+k is token k of record i |
| Corpus.FlattenGenreAppend | main.py:37-38 | flattening distributes over concatenation of the string lists |
| Corpus.AllTokensAppend | main.py:39 | `all_tokens` over two runs of groups is the concatenation of each run's tokens |
| Corpus.AllTokensAt | main.py:39 | each genre's flat list sits in `all_tokens` between the lists of the genres before it and those after it |
| Corpus.GenreTokenMapKeys | main.py:40 | a genre is a key of `genre_token_map` iff some group carries it |
| Corpus.GenreTokenMapLast | main.py:40 | a genre maps to the flat list of the last group carrying it |
| Corpus.FlattenLacksMajor | main.py:22-38 | no genre's flat list holds `mode_major` |
| Corpus.AllTokensLackMajor | main.py:22-39 | `all_tokens` never holds `mode_major` |
| Corpus.TrainingWindows | main.py:55-57 | max(0, L - 4) examples; example j is `ids[j..j+4)` and its target is `ids[j+4]` |
| Generation.Ids | main.py:79 | `texts_to_sequences` on the window: each token's id, or None when one has none |
| Generation.IdsMeaning | main.py:79 | the window fails to encode iff some token has no id; otherwise id i is token i's id |
| Generation.LastWindow | main.py:79 | `result[-4:]`: the last four tokens, or all of them when there are fewer |
| Generation.ArgMax | main.py:82 | `np.argmax`, an index of the score vector |
| Generation.ArgMaxFirstMax | main.py:82 | the chosen id's score is at least every score and above every earlier score, so ties go to the lowest id |
| Generation.ArgMaxOfPeak | main.py:82 | when one index holds the first maximum, argmax returns it |
| Generation.NextToken | main.py:79-84 | one pass of the loop body: the appended token, or the exception it raises |
| Generation.PredictNext | main.py:79-83 | the encode, reshape, predict, argmax and lookup statements compute NextToken |
| Generation.Generate | main.py:76-85 | the list after the remaining passes, or the first exception |
| Generation.GenerateTokens | main.py:76-85 | the loop returns Generate of the seed; a negative step count gives the seed, and the count defaults to 32 |
| Generation.GenerateStep | main.py:78-84 | a failed iteration ends the run with its error; a successful one goes on from the extended list |
| Generation.GenerateLength | main.py:76-85 | a successful run has length \|seed\| + n, has the seed as a prefix, and equals the seed when n = 0 |
| Generation.GenerateGreedy | main.py:79-84 | every appended token is the token of the first maximal score for the four tokens before it |
| Generation.GreedyRun | main.py:79-84 | the same for a run named by its output, by induction on the steps |
| Generation.GreedyHead | main.py:79-84 | the first appended token is the greedy choice, and the run goes on from the extended list |
| Generation.GreedyNextKept | main.py:79-84 | the token NextToken appends stays the greedy choice in any list extending it |
| Generation.NextTokenNeedsWindow | main.py:79-80 | a step succeeds only when the last four tokens all have ids |
| Generation.NextTokenKnown | main.py:79-84 | with a consistent vocabulary and a predictor that always picks an assigned id, a known window gives a step that succeeds and keeps the window known |
| Generation.GenerateKeepsWindowKnown | main.py:76-85 | under the same assumptions, a run from a known window succeeds for any number of steps |
| Generation.GenerateSucceeds | main.py:76-85 | under the same assumptions, a run succeeds iff n = 0 or the seed's last four tokens all have ids |
| Generation.ValidWordsKnown | main.py:43-45 | in a consistent vocabulary every token of `index_word` has an id |
| Generation.GenerateFixedPeak | main.py:81-84 | a predictor whose scores always peak at id X appends `index_word[X]` n times |
| Generation.Repeat | main.py:84 | n copies of a token |
| Generation.SeedFailsWithoutMajor | main.py:118 | without an id for `mode_major`, every run of at least one step from the line-118 seed fails with WindowShape |
| Generation.GeneratedSeedFails | main.py:22-118 | with the tokenizer fitted on the corpus line 22 writes, the line-118 run fails at its first step |
| Generation.ExampleRun | main.py:118 | the call with the default 32 steps, on a tokenizer fitted on the corpus line 22 writes, raises at the reshape (WindowShape) |
| Rendering.Classify | main.py:101-107 | the branch a token takes: the substring tests `key_`, `tempo_`, `time_`, `mode_`, in that order |
| Rendering.ClassifiedHasUnderscore | main.py:101-106 | a token taking the key, tempo or time branch holds `_`, so `split("_")[1]` exists |
| Rendering.Field | main.py:102 | `token.split("_")[1]` |
| Rendering.TempoBpm | main.py:104 | the dict `slow: 60, medium: 100, fast: 140`; any other name raises KeyError (None) |
| Rendering.NotePair | main.py:111-113 | the note-on at time 0 and the note-off at time 480, both velocity 64, appended for one token |
| Rendering.Step | main.py:100-113 | one pass of the loop body: the new locals and the messages appended, or the exception |
| Rendering.Run | main.py:100-113 | the whole loop from a state: the state and messages after it, or the first exception |
| Rendering.SymbolicToMidi | main.py:91-115 | the loop succeeds iff Run from (0, 120, 4) does; the messages and the error are Run's |
| Rendering.RunSucceeds | main.py:100-106 | the renderer finishes iff every token renders, that is its field parses or names a bin in the tempo dict |
| Rendering.RunAppend | main.py:100-113 | rendering a + b renders a, then b from the state a left |
| Rendering.RunMessageCount | main.py:107-113 | the track has 2 x (number of non-mode tokens) messages |
| Rendering.StepEffect | main.py:100-113 | a mode token emits nothing and changes nothing; any other token emits one pair at 60 + key; only a key token changes the key |
| Rendering.RunKey | main.py:101-102 | after a run the key is the integer of the most recent key token, or the starting key |
| Rendering.RunPitch | main.py:111-113 | the pair for non-mode token j sits at messages 2c and 2c+1: note-on time 0, then note-off time 480, velocity 64, pitch 60 + the most recent key so far |
| Rendering.FieldAfter | main.py:102 | `split("_")[1]` of a prefix ending in its only `_` followed by a `_`-free value is that value |
| Rendering.KeyTokenParts | main.py:101-102 | an encoded key token takes the key branch, and its field is `str(int(key))` |
| Rendering.ModeNameParts | main.py:107-108 | `mode_major` and `mode_minor` both take the mode branch |
| Rendering.MajorModeKind | main.py:107-108 | `mode_major` takes the mode branch |
| Rendering.ModeTokenParts | main.py:107-108 | the encoded mode token takes the mode branch, as written and with the column read |
| Rendering.TempoTokenParts | main.py:103-104 | an encoded tempo token takes the tempo branch, and its field is the bin's name |
| Rendering.TimeTokenParts | main.py:105-106 | an encoded time token takes the time branch, and its field is `str(int(time_signature))` |
| Rendering.KeyTokenStep | main.py:101-102 | an encoded key token sets the key to the record's key and emits a pair at the new key |
| Rendering.ModeTokenStep | main.py:107-108 | a mode-branch token emits nothing and changes nothing |
| Rendering.TempoTokenStep | main.py:103-104 | an encoded tempo token sets the tempo to 60, 100 or 140 for its bin and emits a pair at the current key |
| Rendering.TimeTokenStep | main.py:105-106 | an encoded time token sets the time signature and emits a pair at the current key |
| Rendering.RenderRecord | main.py:100-113 | an encoded record renders as three pairs at 60 + its key, ending with its key, its bin's tempo and its time signature |
| Rendering.RenderIntendedRecord | main.py:100-113 | the same for a record encoded with `row['mode']` |
| Rendering.RenderRecordTokens | main.py:100-113 | a record's key, tempo and time tokens around any mode-branch token render as three pairs at 60 + its key |
| Rendering.RunCons | main.py:100 | a stream whose first token renders continues from that token's state |
| Rendering.RunSingle | main.py:100 | a one-token stream renders as that token's step |
| Rendering.RenderSeed | main.py:118 | the seed `key_0 mode_major tempo_medium time_4` renders as three pairs at 60, ending with tempo 100 and time 4 |
| Rendering.RenderKeyThree | main.py:96-113 | `key_3 mode_major tempo_fast time_4` renders as three pairs at 63, ending with tempo 140 and time 4 |
| Rendering.RenderUnrecognised | main.py:100-113 | a token matching no branch changes no state and emits one pair at the current key |
| Rendering.LetterFreeUnrecognised | main.py:101-107 | a token without any of the letters k, p, i and d matches no branch |
| Rendering.RenderFooBar | main.py:100-113 | `foo_bar` changes no state and emits one pair at the current key |
| Rendering.NoKeyBeforeTempo | main.py:101-103 | `tempo_<name>` with no `_` in the name does not contain `key_` |
| Rendering.RenderUnknownTempo | main.py:103-104 | a token `tempo_<name>`, where the name holds no `_` and is not a key of the dict, stops the renderer with UnknownTempo |

## Findings

| source | as written | input that shows it | evidently intended | confidence | as-written member | corrected member |
|---|---|---|---|---|---|---|
| main.py:22 | `row.mode == 1` compares the Series method `mode` with 1, so every record is written `mode_minor` | a record with mode 1.0 encodes as `key_0 mode_minor tempo_medium time_4`; a tokenizer fitted on that corpus has no id for `mode_major`, so the line-118 seed fails at its first step | `row['mode'] == 1`, writing `mode_major` exactly for mode 1 | high, not executed | Encoding.ModeTokenIgnoresMode | Encoding.IntendedModeTokenMajor |

The as-written consequences are `Encoding.ModeTokenMinor`, `Corpus.AllTokensLackMajor` and `Generation.GeneratedSeedFails`. The corrected encoder is `Encoding.IntendedEncodeRecord`. `Encoding.SplitIntendedEncodeRecord` proves it splits back into its tokens, and `Rendering.RenderIntendedRecord` proves it renders like the encoder as written. The rest of the model follows line 22 as written.

## Left out

- Reading `Music Info.csv` and `dropna` (main.py:5-8) are file I/O and library plumbing. The model takes the records after `dropna` as input, with every field a real number as pandas holds them.
- `apply` and `groupby` (main.py:19, 25) are pandas plumbing. The grouped genres are an ordered input to `Corpus.BuildCorpus`. The order pandas gives them (sorted by genre) is not modelled.
- The keras `Tokenizer` (main.py:43-45, 53, 79) is a library. Its frequency-based id assignment and its lowercasing are not modelled; the tokens the encoder produces are already lower case. The vocabulary is an abstract pair of maps, and `Vocabulary.Valid` states that they are inverse, with ids in `[1, vocab_size)`. `Generation.FittedOn` states only that every token with an id was among the fitted tokens.
- `texts_to_sequences` drops a token it does not know. The model reports such a window as `WindowShape`. That is the error the following `np.reshape` raises, because fewer than four ids remain.
- The lookup `genre_token_map[chosen_genre]` with the fixed genre `'rock'` (main.py:48-49) is not modelled. `Corpus.GenreTokenMapKeys` states when a genre is present.
- `np.array`, `to_categorical`, building and training the LSTM, and `model.predict` (main.py:59-72, 81) are floating-point numerics in a foreign library. The trained model is the opaque parameter `predict`.
- ArgMax: NaN scores are not modelled. Scores are real numbers.
- Text.ParseInt: it does not strip surrounding whitespace. It does not accept underscores between digits or non-ASCII digits, although Python's `int()` does. Tokens produced by `str.split()` and `split("_")` of the encoder's output hold none of these. A hand-written token can: `generate_tokens` keeps the seed's tokens, so a seed token such as `key_ 3` gives key 3 in Python, since `int(" 3") == 3`, but `InvalidInteger` in the model.
- The mido `MidiFile`/`MidiTrack` objects and `midi.save` (main.py:89-94, 115) are file I/O. The renderer returns the track's messages instead.
- mido's own check that a note lies in 0..127, on a pitch such as `60 + key` for a large key, is not modelled. Pitches are unbounded integers.
- `tempo` and `time_sig` are kept in the render state as the loop keeps them. No message uses them, as in the source.
- The example run at main.py:117-119 needs the trained network, which is a parameter here. `Generation.ExampleRun` states how the call at line 118 ends, and `Rendering.RenderSeed` states how the seed itself would render; with a tokenizer fitted on the encoded corpus, the call at line 119 is not reached.
- `task1_evaluator.py` is not part of this model. It is music21 analysis and plotting.
