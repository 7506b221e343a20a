/** Greedy autoregressive generation (`generate_tokens`, main.py lines 76-85).
    The fitted keras Tokenizer is an abstract vocabulary and the trained
    network an opaque function from an id window to a score vector. */
module Generation {
  import opened Wrappers
  import opened Sequences
  import Encoding
  import opened Corpus

  /** The fitted tokenizer: `word_index` (token to id) and its inverse
      `index_word`. */
  datatype Vocabulary = Vocabulary(wordIndex: map<string, nat>, indexWord: map<nat, string>) {

    /** `vocab_size = len(tokenizer.word_index) + 1`: id 0 is never assigned. */
    function Size(): nat {
      |wordIndex| + 1
    }

    /** Ids lie in [1, Size()) and the two maps are mutually inverse, which
        makes the token-to-id map injective. */
    ghost predicate Valid() {
      && (forall t :: t in wordIndex ==>
            1 <= wordIndex[t] < Size() && wordIndex[t] in indexWord && indexWord[wordIndex[t]] == t)
      && (forall i :: i in indexWord ==> indexWord[i] in wordIndex && wordIndex[indexWord[i]] == i)
    }
  }

  /** The trained model: one score per id for a window of ids. */
  type Predictor = seq<nat> -> seq<real>

  /** The network ends in `Dense(vocab_size)`, so every score vector has
      one entry per id. */
  ghost predicate PredictorShape(v: Vocabulary, predict: Predictor) {
    forall w :: |predict(w)| == v.Size()
  }

  /** What fails inside one step of the loop. */
  datatype GenError =
    | WindowShape       // `np.reshape(encoded, (1, seq_length))` fails: fewer than four known tokens
    | UnknownIndex(id: nat)  // `tokenizer.index_word[next_index]` raises KeyError

  /** `texts_to_sequences` on a window: the id of every token, or None when
      some token has no id. IdsMeaning states what the result holds. */
  function Ids(v: Vocabulary, tokens: seq<string>): (ids: Option<seq<nat>>)
    ensures ids.Some? ==> |ids.value| == |tokens|
  {
    if tokens == [] then Some([])
    else if tokens[0] !in v.wordIndex then None
    else
      match Ids(v, tokens[1..])
      case None => None
      case Some(rest) => Some([v.wordIndex[tokens[0]]] + rest)
  }

  /** The window fails to encode exactly when one of its tokens has no id;
      otherwise each id is its token's. */
  lemma {:induction false} IdsMeaning(v: Vocabulary, tokens: seq<string>)
    ensures Ids(v, tokens).None? <==> exists i :: 0 <= i < |tokens| && tokens[i] !in v.wordIndex
    ensures Ids(v, tokens).Some? ==>
              forall i :: 0 <= i < |tokens| ==> Ids(v, tokens).value[i] == v.wordIndex[tokens[i]]
  {
    if tokens != [] && tokens[0] in v.wordIndex {
      IdsMeaning(v, tokens[1..]);
      if exists i :: 0 <= i < |tokens[1..]| && tokens[1..][i] !in v.wordIndex {
        var i :| 0 <= i < |tokens[1..]| && tokens[1..][i] !in v.wordIndex;
        assert tokens[i + 1] !in v.wordIndex;
      }
      if exists i :: 0 <= i < |tokens| && tokens[i] !in v.wordIndex {
        var i :| 0 <= i < |tokens| && tokens[i] !in v.wordIndex;
        assert tokens[1..][i - 1] !in v.wordIndex;
      }
    }
  }

  /** `np.argmax`: the first index holding the largest score. ArgMaxFirstMax
      states that it is one. */
  function ArgMax(scores: seq<real>): (k: nat)
    requires |scores| > 0
    ensures k < |scores|
  {
    if |scores| == 1 then 0
    else
      var k := ArgMax(scores[..|scores| - 1]);
      if scores[|scores| - 1] > scores[k] then |scores| - 1 else k
  }

  /** No score beats the chosen one, and every earlier score is lower. */
  lemma {:induction false} ArgMaxFirstMax(scores: seq<real>)
    requires |scores| > 0
    ensures forall j :: 0 <= j < |scores| ==> scores[j] <= scores[ArgMax(scores)]
    ensures forall j :: 0 <= j < ArgMax(scores) ==> scores[j] < scores[ArgMax(scores)]
  {
    if |scores| > 1 {
      var front := scores[..|scores| - 1];
      ArgMaxFirstMax(front);
      assert forall j :: 0 <= j < |front| ==> scores[j] == front[j];
    }
  }

  /** `result[-seq_length:]`: the last four tokens, or all of them when
      there are fewer. */
  function LastWindow(result: seq<string>): seq<string> {
    if |result| < SeqLength then result else result[|result| - SeqLength..]
  }

  /** One iteration of the loop body: the token appended to `result`. */
  function NextToken(v: Vocabulary, predict: Predictor, result: seq<string>): Result<string, GenError>
    requires PredictorShape(v, predict)
  {
    var window := LastWindow(result);
    match Ids(v, window)
    case None => Err(WindowShape)
    case Some(ids) =>
      if |ids| != SeqLength then Err(WindowShape)
      else
        var next := ArgMax(predict(ids));
        if next in v.indexWord then Ok(v.indexWord[next]) else Err(UnknownIndex(next))
  }

  /** What `generate_tokens` returns when `result` holds the list so far
      and `steps` iterations remain: the finished list, or the first failure. */
  function Generate(v: Vocabulary, predict: Predictor, result: seq<string>, steps: nat): Result<seq<string>, GenError>
    requires PredictorShape(v, predict)
    decreases steps
  {
    if steps == 0 then Ok(result)
    else
      match NextToken(v, predict, result)
      case Err(e) => Err(e)
      case Ok(t) => Generate(v, predict, result + [t], steps - 1)
  }

  /** `generate_tokens(seed, num_steps)`. The seed is a value, so the
      caller's list is never changed, as `seed[:]` ensures in Python. A
      negative `num_steps` makes `range` empty, so it counts as zero; left
      out, it is 32. */
  method GenerateTokens(v: Vocabulary, predict: Predictor, seed: seq<string>, numSteps: int := 32)
    returns (r: Result<seq<string>, GenError>)
    requires PredictorShape(v, predict)
    ensures r == Generate(v, predict, seed, if numSteps > 0 then numSteps else 0)
  {
    var result := seed;
    var count: nat := if numSteps > 0 then numSteps else 0;
    for step := 0 to count
      invariant Generate(v, predict, seed, count) == Generate(v, predict, result, count - step)
    {
      var next := PredictNext(v, predict, result);
      GenerateStep(v, predict, result, count - step);
      if next.Err? {
        r := Err(next.error);
        return;
      }
      result := result + [next.value];
    }
    r := Ok(result);
  }

  /** Lines 79-83: encode the last four tokens, reshape, predict, take the
      argmax and look its token up. */
  method PredictNext(v: Vocabulary, predict: Predictor, result: seq<string>)
    returns (next: Result<string, GenError>)
    requires PredictorShape(v, predict)
    ensures next == NextToken(v, predict, result)
  {
    var encoded := Ids(v, LastWindow(result));
    if encoded.None? || |encoded.value| != SeqLength {
      return Err(WindowShape);
    }
    var nextIndex := ArgMax(predict(encoded.value));
    if nextIndex !in v.indexWord {
      return Err(UnknownIndex(nextIndex));
    }
    next := Ok(v.indexWord[nextIndex]);
  }

  /** One iteration: a failed step ends the run, a successful one goes on
      from the extended list. */
  lemma GenerateStep(v: Vocabulary, predict: Predictor, result: seq<string>, steps: nat)
    requires PredictorShape(v, predict) && steps > 0
    ensures NextToken(v, predict, result).Err? ==>
              Generate(v, predict, result, steps) == Err(NextToken(v, predict, result).error)
    ensures NextToken(v, predict, result).Ok? ==>
              Generate(v, predict, result, steps) ==
              Generate(v, predict, result + [NextToken(v, predict, result).value], steps - 1)
  {
  }

  // ---------------------------------------------------------------------
  // Properties of generation
  // ---------------------------------------------------------------------

  /** A successful run adds exactly `steps` tokens after what it started
      from; zero steps give back the start itself. */
  lemma {:induction false} GenerateLength(v: Vocabulary, predict: Predictor, result: seq<string>, steps: nat)
    requires PredictorShape(v, predict)
    requires Generate(v, predict, result, steps).Ok?
    ensures steps == 0 ==> Generate(v, predict, result, steps) == Ok(result)
    ensures |Generate(v, predict, result, steps).value| == |result| + steps
    ensures Generate(v, predict, result, steps).value[..|result|] == result
    decreases steps
  {
    if steps > 0 {
      var t := NextToken(v, predict, result).value;
      GenerateLength(v, predict, result + [t], steps - 1);
      PrefixOfExtended(Generate(v, predict, result, steps).value, result, t);
    }
  }

  lemma PrefixOfExtended(out: seq<string>, result: seq<string>, t: string)
    requires |result| < |out| && out[..|result| + 1] == result + [t]
    ensures out[..|result|] == result
  {
    assert out[..|result|] == out[..|result| + 1][..|result|];
  }

  /** Token j of the output, past the seed, is the vocabulary word of the
      first best-scoring id for the four tokens before it. */
  ghost predicate GreedyAt(v: Vocabulary, predict: Predictor, result: seq<string>, j: nat)
    requires PredictorShape(v, predict)
  {
    && SeqLength <= j < |result|
    && Ids(v, result[j - SeqLength..j]).Some?
    && ArgMax(predict(Ids(v, result[j - SeqLength..j]).value)) in v.indexWord
    && result[j] == v.indexWord[ArgMax(predict(Ids(v, result[j - SeqLength..j]).value))]
  }

  /** Every position of `out` from `lo` on holds the greedy choice. */
  ghost predicate GreedyFrom(v: Vocabulary, predict: Predictor, out: seq<string>, lo: nat)
    requires PredictorShape(v, predict)
  {
    forall j :: lo <= j < |out| ==> GreedyAt(v, predict, out, j)
  }

  /** Every generated token is the greedy choice for the window before it. */
  lemma GenerateGreedy(v: Vocabulary, predict: Predictor, result: seq<string>, steps: nat)
    requires PredictorShape(v, predict)
    requires Generate(v, predict, result, steps).Ok?
    ensures GreedyFrom(v, predict, Generate(v, predict, result, steps).value, |result|)
  {
    GreedyRun(v, predict, result, steps, Generate(v, predict, result, steps).value);
  }

  /** GenerateGreedy for a named output, by induction on the steps. */
  lemma {:induction false} GreedyRun(v: Vocabulary, predict: Predictor, result: seq<string>, steps: nat,
                                     out: seq<string>)
    requires PredictorShape(v, predict)
    requires Generate(v, predict, result, steps) == Ok(out)
    ensures GreedyFrom(v, predict, out, |result|)
    decreases steps
  {
    if steps == 0 {
      assert out == result;
    } else {
      GreedyHead(v, predict, result, steps);
      var next := result + [NextToken(v, predict, result).value];
      GreedyRun(v, predict, next, steps - 1, out);
      GreedyFromExtend(v, predict, out, |result|);
    }
  }

  /** The step case: a run of at least one step is the run from the list
      NextToken extends, and its token at |result| is the greedy choice. */
  lemma GreedyHead(v: Vocabulary, predict: Predictor, result: seq<string>, steps: nat)
    requires PredictorShape(v, predict) && steps > 0
    requires Generate(v, predict, result, steps).Ok?
    ensures NextToken(v, predict, result).Ok?
    ensures Generate(v, predict, result, steps) ==
            Generate(v, predict, result + [NextToken(v, predict, result).value], steps - 1)
    ensures GreedyAt(v, predict, Generate(v, predict, result, steps).value, |result|)
  {
    GenerateStep(v, predict, result, steps);
    var next := result + [NextToken(v, predict, result).value];
    var out := Generate(v, predict, next, steps - 1).value;
    GenerateLength(v, predict, next, steps - 1);
    assert |next| == |result| + 1 && out[..|result| + 1] == next;
    GreedyNextKept(v, predict, result, out);
  }

  lemma GreedyFromExtend(v: Vocabulary, predict: Predictor, out: seq<string>, lo: nat)
    requires PredictorShape(v, predict)
    requires GreedyAt(v, predict, out, lo) && GreedyFrom(v, predict, out, lo + 1)
    ensures GreedyFrom(v, predict, out, lo)
  {
  }

  /** The token NextToken appends is the greedy choice, in any list that
      extends the list it was appended to. */
  lemma GreedyNextKept(v: Vocabulary, predict: Predictor, result: seq<string>, out: seq<string>)
    requires PredictorShape(v, predict)
    requires NextToken(v, predict, result).Ok?
    requires |result| < |out| && out[..|result| + 1] == result + [NextToken(v, predict, result).value]
    ensures GreedyAt(v, predict, out, |result|)
  {
    var n := |result|;
    assert |LastWindow(result)| == SeqLength;
    var prefix := result + [NextToken(v, predict, result).value];
    SliceOfPrefix(out, prefix, n - SeqLength, n);
    assert prefix[n - SeqLength..n] == LastWindow(result);
    assert out[n] == out[..n + 1][n];
  }

  /** The last four tokens of a list are all in the vocabulary. */
  ghost predicate WindowKnown(v: Vocabulary, tokens: seq<string>) {
    |tokens| >= SeqLength && forall i :: |tokens| - SeqLength <= i < |tokens| ==> tokens[i] in v.wordIndex
  }

  /** Every word `index_word` gives back has an id of its own, as in every
      valid vocabulary. */
  ghost predicate WordsKnown(v: Vocabulary) {
    forall i :: i in v.indexWord ==> v.indexWord[i] in v.wordIndex
  }

  lemma ValidWordsKnown(v: Vocabulary)
    requires v.Valid()
    ensures WordsKnown(v)
  {
  }

  /** Every window the model can see scores best at an id the vocabulary
      can turn back into a token. */
  ghost predicate PredictorClosed(v: Vocabulary, predict: Predictor)
    requires PredictorShape(v, predict)
  {
    forall w :: ArgMax(predict(w)) in v.indexWord
  }

  /** A step from a known window succeeds and leaves a known window. */
  lemma NextTokenKnown(v: Vocabulary, predict: Predictor, result: seq<string>)
    requires WordsKnown(v) && PredictorShape(v, predict) && PredictorClosed(v, predict)
    requires WindowKnown(v, result)
    ensures NextToken(v, predict, result).Ok?
    ensures WindowKnown(v, result + [NextToken(v, predict, result).value])
  {
    var ids := Ids(v, LastWindow(result));
    IdsMeaning(v, LastWindow(result));
    assert ids.Some?;
    var t := NextToken(v, predict, result).value;
    var next := result + [t];
    forall i | |next| - SeqLength <= i < |next| ensures next[i] in v.wordIndex {
      if i < |result| { assert next[i] == result[i]; }
    }
  }

  /** A step succeeds only from a window of four vocabulary tokens, whatever
      the predictor. */
  lemma NextTokenNeedsWindow(v: Vocabulary, predict: Predictor, result: seq<string>)
    requires PredictorShape(v, predict)
    requires NextToken(v, predict, result).Ok?
    ensures WindowKnown(v, result)
  {
    var window := LastWindow(result);
    var ids := Ids(v, window);
    IdsMeaning(v, window);
    assert ids.Some? && |ids.value| == SeqLength;
    forall i | |result| - SeqLength <= i < |result| ensures result[i] in v.wordIndex {
      assert result[i] == window[i - (|result| - SeqLength)];
    }
  }

  lemma {:induction false} GenerateKeepsWindowKnown(v: Vocabulary, predict: Predictor, result: seq<string>, steps: nat)
    requires WordsKnown(v) && PredictorShape(v, predict) && PredictorClosed(v, predict)
    requires WindowKnown(v, result)
    ensures Generate(v, predict, result, steps).Ok?
    decreases steps
  {
    if steps > 0 {
      NextTokenKnown(v, predict, result);
      GenerateStep(v, predict, result, steps);
      GenerateKeepsWindowKnown(v, predict, result + [NextToken(v, predict, result).value], steps - 1);
    }
  }

  /** With a closed predictor, generation succeeds exactly when no step is
      asked for or the seed ends in four vocabulary tokens. */
  lemma GenerateSucceeds(v: Vocabulary, predict: Predictor, seed: seq<string>, steps: nat)
    requires v.Valid() && PredictorShape(v, predict) && PredictorClosed(v, predict)
    ensures Generate(v, predict, seed, steps).Ok? <==> steps == 0 || WindowKnown(v, seed)
  {
    ValidWordsKnown(v);
    if steps > 0 {
      if WindowKnown(v, seed) {
        GenerateKeepsWindowKnown(v, predict, seed, steps);
      } else if NextToken(v, predict, seed).Ok? {
        NextTokenNeedsWindow(v, predict, seed);
      }
    }
  }

  /** The score vector peaks at x: no score beats it, and every lower id
      scores strictly less. */
  predicate PeaksAt(scores: seq<real>, x: nat) {
    && x < |scores|
    && (forall j :: 0 <= j < |scores| ==> scores[j] <= scores[x])
    && (forall j :: 0 <= j < x ==> scores[j] < scores[x])
  }

  lemma ArgMaxOfPeak(scores: seq<real>, x: nat)
    requires PeaksAt(scores, x)
    ensures ArgMax(scores) == x
  {
    ArgMaxFirstMax(scores);
  }

  /** n copies of a token. */
  function Repeat(t: string, n: nat): (ts: seq<string>)
    ensures |ts| == n && forall i :: 0 <= i < n ==> ts[i] == t
  {
    if n == 0 then [] else [t] + Repeat(t, n - 1)
  }

  lemma RepeatAppend(result: seq<string>, t: string, n: nat)
    ensures n == 0 ==> result + Repeat(t, n) == result
    ensures n > 0 ==> (result + [t]) + Repeat(t, n - 1) == result + Repeat(t, n)
  {
  }

  /** A predictor whose scores always peak at one id x makes every appended
      token the word of x. */
  lemma {:induction false} GenerateFixedPeak(v: Vocabulary, predict: Predictor, seed: seq<string>, steps: nat, x: nat)
    requires v.Valid() && PredictorShape(v, predict)
    requires forall w :: PeaksAt(predict(w), x)
    requires x in v.indexWord
    requires WindowKnown(v, seed)
    ensures Generate(v, predict, seed, steps) == Ok(seed + Repeat(v.indexWord[x], steps))
    decreases steps
  {
    var word := v.indexWord[x];
    RepeatAppend(seed, word, steps);
    if steps > 0 {
      ValidWordsKnown(v);
      FixedPeakClosed(v, predict, x);
      NextTokenKnown(v, predict, seed);
      assert NextToken(v, predict, seed) == Ok(word);
      GenerateFixedPeak(v, predict, seed + [word], steps - 1, x);
    }
  }

  lemma FixedPeakClosed(v: Vocabulary, predict: Predictor, x: nat)
    requires PredictorShape(v, predict)
    requires forall w :: PeaksAt(predict(w), x)
    requires x in v.indexWord
    ensures forall w :: ArgMax(predict(w)) == x
    ensures PredictorClosed(v, predict)
  {
    forall w ensures ArgMax(predict(w)) == x {
      ArgMaxOfPeak(predict(w), x);
    }
  }

  // ---------------------------------------------------------------------
  // The seed of the example run
  // ---------------------------------------------------------------------

  /** The seed of line 118. */
  const Seed: seq<string> := ["key_0", "mode_major", "tempo_medium", "time_4"]

  /** `fit_on_texts([all_tokens])` gives ids only to tokens it was fitted on. */
  ghost predicate FittedOn(v: Vocabulary, tokens: seq<string>) {
    forall t :: t in v.wordIndex ==> t in tokens
  }

  /** Without an id for `mode_major` the seed's window encodes to three ids,
      so the reshape fails at the first step. */
  lemma SeedFailsWithoutMajor(v: Vocabulary, predict: Predictor, steps: nat)
    requires PredictorShape(v, predict) && steps > 0
    requires "mode_major" !in v.wordIndex
    ensures Generate(v, predict, Seed, steps) == Err(WindowShape)
  {
    assert LastWindow(Seed) == Seed;
    IdsMeaning(v, Seed);
    assert Seed[1] !in v.wordIndex;
    GenerateStep(v, predict, Seed, steps);
  }

  /** With the tokenizer fitted on a corpus that line 22 encoded as written,
      the example run from the seed fails at its first step. */
  lemma GeneratedSeedFails(v: Vocabulary, predict: Predictor, groups: seq<GenreGroup>,
                           recordsOf: seq<seq<Encoding.Record>>, steps: nat)
    requires PredictorShape(v, predict) && steps > 0
    requires EncodedGroups(groups, recordsOf) && FittedOn(v, AllTokens(groups))
    ensures Generate(v, predict, Seed, steps) == Err(WindowShape)
  {
    AllTokensLackMajor(groups, recordsOf);
    SeedFailsWithoutMajor(v, predict, steps);
  }

  /** Line 118: `generate_tokens` called on the seed with the default 32
      steps. With the tokenizer fitted on the corpus line 22 writes, the
      call raises at the reshape. */
  method ExampleRun(v: Vocabulary, predict: Predictor, groups: seq<GenreGroup>,
                    recordsOf: seq<seq<Encoding.Record>>)
    returns (r: Result<seq<string>, GenError>)
    requires PredictorShape(v, predict)
    requires EncodedGroups(groups, recordsOf) && FittedOn(v, AllTokens(groups))
    ensures r == Err(WindowShape)
  {
    r := GenerateTokens(v, predict, Seed);
    GeneratedSeedFails(v, predict, groups, recordsOf, 32);
  }
}
