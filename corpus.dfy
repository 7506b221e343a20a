/** The genre corpus of main.py: flattening every genre's encoded strings
    into one token list per genre and one list across genres (lines 36-40),
    and slicing an id list into context windows and next ids (lines 55-57). */
module Corpus {
  import opened Text
  import opened Encoding
  import opened Sequences

  /** `seq_length`: the length of a context window. */
  const SeqLength: nat := 4

  /** One entry of `genre_groups`: a genre and the encoded strings of its
      records, in source order. */
  datatype GenreGroup = GenreGroup(genre: string, sequences: seq<string>)

  /** The comprehension of lines 37-38: each string split on whitespace and
      the pieces concatenated in order. */
  function FlattenGenre(seqs: seq<string>): seq<string> {
    if seqs == [] then [] else Split(seqs[0]) + FlattenGenre(seqs[1..])
  }

  /** `all_tokens` after the loop has seen `groups`. */
  function AllTokens(groups: seq<GenreGroup>): seq<string> {
    if groups == [] then [] else FlattenGenre(groups[0].sequences) + AllTokens(groups[1..])
  }

  /** `genre_token_map` after the loop has seen `groups`: a later entry for
      the same genre overwrites an earlier one, as a dict assignment does. */
  function GenreTokenMap(groups: seq<GenreGroup>): map<string, seq<string>> {
    if groups == [] then map[]
    else
      var last := groups[|groups| - 1];
      GenreTokenMap(groups[..|groups| - 1])[last.genre := FlattenGenre(last.sequences)]
  }

  /** The loop of lines 36-40. */
  method BuildCorpus(groups: seq<GenreGroup>)
    returns (allTokens: seq<string>, genreTokenMap: map<string, seq<string>>)
    ensures allTokens == AllTokens(groups)
    ensures genreTokenMap == GenreTokenMap(groups)
  {
    allTokens := [];
    genreTokenMap := map[];
    for i := 0 to |groups|
      invariant allTokens == AllTokens(groups[..i])
      invariant genreTokenMap == GenreTokenMap(groups[..i])
    {
      var flat := FlattenGenre(groups[i].sequences);
      allTokens := allTokens + flat;
      genreTokenMap := genreTokenMap[groups[i].genre := flat];
      CorpusStep(groups, i);
    }
    assert groups[..|groups|] == groups;
  }

  /** One pass of the loop: group i extends both results. */
  lemma CorpusStep(groups: seq<GenreGroup>, i: nat)
    requires i < |groups|
    ensures AllTokens(groups[..i + 1]) == AllTokens(groups[..i]) + FlattenGenre(groups[i].sequences)
    ensures GenreTokenMap(groups[..i + 1]) ==
            GenreTokenMap(groups[..i])[groups[i].genre := FlattenGenre(groups[i].sequences)]
  {
    SplitAround(groups, i);
    AllTokensAppend(groups[..i], [groups[i]]);
    AllTokensSingle(groups[i]);
    PrefixOfPrefix(groups, i);
  }

  // ---------------------------------------------------------------------
  // Properties of the flattening
  // ---------------------------------------------------------------------

  /** The encoded strings of a list of records, as line 22 produces them. */
  function EncodeAll(records: seq<Record>): (encoded: seq<string>)
    ensures |encoded| == |records|
    ensures forall i :: 0 <= i < |records| ==> encoded[i] == EncodeRecord(records[i])
  {
    if records == [] then [] else [EncodeRecord(records[0])] + EncodeAll(records[1..])
  }

  /** A genre's flat token list holds four tokens per record: token 4i+k is
      token k of record i. */
  lemma {:induction false} FlattenEncoded(records: seq<Record>)
    ensures |FlattenGenre(EncodeAll(records))| == 4 * |records|
    ensures forall i, k :: 0 <= i < |records| && 0 <= k < 4 ==>
              FlattenGenre(EncodeAll(records))[4 * i + k] == RecordTokens(records[i])[k]
  {
    if records != [] {
      var encoded := EncodeAll(records);
      assert encoded == [EncodeRecord(records[0])] + EncodeAll(records[1..]);
      FlattenEncoded(records[1..]);
      var tail := FlattenGenre(EncodeAll(records[1..]));
      assert FlattenGenre(encoded) == RecordTokens(records[0]) + tail by {
        assert encoded[1..] == EncodeAll(records[1..]);
        SplitEncodeRecord(records[0]);
      }
      FlattenEncodedShift(records, RecordTokens(records[0]) + tail, tail);
    }
  }

  /** The index step of FlattenEncoded: record i of the whole list is
      record i - 1 of its tail, four tokens further on. */
  lemma FlattenEncodedShift(records: seq<Record>, flat: seq<string>, tail: seq<string>)
    requires |records| > 0 && flat == RecordTokens(records[0]) + tail
    requires |tail| == 4 * (|records| - 1)
    requires forall i, k :: 0 <= i < |records| - 1 && 0 <= k < 4 ==>
               tail[4 * i + k] == RecordTokens(records[1..][i])[k]
    ensures |flat| == 4 * |records|
    ensures forall i, k :: 0 <= i < |records| && 0 <= k < 4 ==> flat[4 * i + k] == RecordTokens(records[i])[k]
  {
    forall i, k | 0 <= i < |records| && 0 <= k < 4
      ensures flat[4 * i + k] == RecordTokens(records[i])[k]
    {
      if i > 0 {
        var m := 4 * (i - 1) + k;
        assert 4 * i + k == 4 + m;
        assert flat[4 + m] == tail[m];
        assert records[1..][i - 1] == records[i];
      }
    }
  }

  /** As line 22 is written, no genre's flat list holds `mode_major`. */
  lemma FlattenLacksMajor(records: seq<Record>)
    ensures "mode_major" !in FlattenGenre(EncodeAll(records))
  {
    FlattenEncoded(records);
    var flat := FlattenGenre(EncodeAll(records));
    forall n | 0 <= n < |flat| ensures flat[n] != "mode_major" {
      var i, k := RecordPosition(n, |records|);
      RecordTokensLackMajor(records[i]);
      assert flat[4 * i + k] == RecordTokens(records[i])[k];
    }
  }

  /** Division by four, for indexing a list of four-token records. */
  lemma RecordPosition(n: nat, r: nat) returns (i: nat, k: nat)
    requires n < 4 * r
    ensures i < r && k < 4 && n == 4 * i + k
  {
    i, k := n / 4, n % 4;
  }

  /** Every group carries the encoded strings of its records. */
  predicate EncodedGroups(groups: seq<GenreGroup>, recordsOf: seq<seq<Record>>) {
    |recordsOf| == |groups| && forall i :: 0 <= i < |groups| ==> groups[i].sequences == EncodeAll(recordsOf[i])
  }

  /** Hence `all_tokens` never holds `mode_major` either. */
  lemma {:induction false} AllTokensLackMajor(groups: seq<GenreGroup>, recordsOf: seq<seq<Record>>)
    requires EncodedGroups(groups, recordsOf)
    ensures "mode_major" !in AllTokens(groups)
  {
    if groups != [] {
      FlattenLacksMajor(recordsOf[0]);
      assert EncodedGroups(groups[1..], recordsOf[1..]) by {
        forall i | 0 <= i < |groups| - 1 ensures groups[1..][i].sequences == EncodeAll(recordsOf[1..][i]) {
          assert groups[1..][i] == groups[i + 1];
        }
      }
      AllTokensLackMajor(groups[1..], recordsOf[1..]);
    }
  }

  /** Flattening distributes over concatenation of the string lists. */
  lemma {:induction false} FlattenGenreAppend(a: seq<string>, b: seq<string>)
    ensures FlattenGenre(a + b) == FlattenGenre(a) + FlattenGenre(b)
  {
    if a != [] {
      assert (a + b)[1..] == a[1..] + b;
      FlattenGenreAppend(a[1..], b);
    } else {
      assert a + b == b;
    }
  }

  /** `all_tokens` over two runs of groups is the concatenation of each. */
  lemma {:induction false} AllTokensAppend(a: seq<GenreGroup>, b: seq<GenreGroup>)
    ensures AllTokens(a + b) == AllTokens(a) + AllTokens(b)
  {
    if a != [] {
      assert (a + b)[1..] == a[1..] + b;
      AllTokensAppend(a[1..], b);
    } else {
      assert a + b == b;
    }
  }

  /** Each genre's flat list sits in `all_tokens` right after the lists of
      the genres before it and right before those after it. */
  lemma AllTokensAt(groups: seq<GenreGroup>, i: nat)
    requires i < |groups|
    ensures AllTokens(groups) ==
            AllTokens(groups[..i]) + FlattenGenre(groups[i].sequences) + AllTokens(groups[i + 1..])
  {
    var before, here, after := groups[..i], [groups[i]], groups[i + 1..];
    SplitAround(groups, i);
    AllTokensThree(before, here, after);
    AllTokensSingle(groups[i]);
  }

  lemma AllTokensThree(a: seq<GenreGroup>, b: seq<GenreGroup>, c: seq<GenreGroup>)
    ensures AllTokens(a + b + c) == AllTokens(a) + AllTokens(b) + AllTokens(c)
  {
    AllTokensAppend(a + b, c);
    AllTokensAppend(a, b);
  }

  lemma AllTokensSingle(g: GenreGroup)
    ensures AllTokens([g]) == FlattenGenre(g.sequences)
  {
    assert [g][1..] == [];
  }

  /** A genre is a key of `genre_token_map` exactly when some group carries it. */
  lemma {:induction false} GenreTokenMapKeys(groups: seq<GenreGroup>, g: string)
    ensures g in GenreTokenMap(groups) <==> exists i :: 0 <= i < |groups| && groups[i].genre == g
  {
    if groups != [] {
      var n := |groups| - 1;
      GenreTokenMapKeys(groups[..n], g);
      if g in GenreTokenMap(groups[..n]) {
        var i :| 0 <= i < n && groups[..n][i].genre == g;
        assert groups[i].genre == g;
      }
      if exists i :: 0 <= i < |groups| && groups[i].genre == g {
        var i :| 0 <= i < |groups| && groups[i].genre == g;
        if i < n { assert groups[..n][i].genre == g; }
      }
    }
  }

  /** The map holds, for a genre, the flat list of the last group carrying it. */
  lemma {:induction false} GenreTokenMapLast(groups: seq<GenreGroup>, i: nat)
    requires i < |groups|
    requires forall j :: i < j < |groups| ==> groups[j].genre != groups[i].genre
    ensures groups[i].genre in GenreTokenMap(groups)
    ensures GenreTokenMap(groups)[groups[i].genre] == FlattenGenre(groups[i].sequences)
  {
    var n := |groups| - 1;
    if i < n {
      GenreTokenMapLast(groups[..n], i);
    }
  }

  // ---------------------------------------------------------------------
  // Training windows
  // ---------------------------------------------------------------------

  /** The loop of lines 55-57: for every position i from `seq_length` on,
      the window of ids before it and the id at it. */
  method TrainingWindows(ids: seq<nat>) returns (xs: seq<seq<nat>>, ys: seq<nat>)
    ensures |xs| == |ys| == if |ids| > SeqLength then |ids| - SeqLength else 0
    ensures forall j :: 0 <= j < |xs| ==> xs[j] == ids[j..j + SeqLength] && ys[j] == ids[j + SeqLength]
  {
    xs, ys := [], [];
    var i := SeqLength;
    while i < |ids|
      invariant SeqLength <= i && (i <= |ids| || i == SeqLength)
      invariant |xs| == |ys| == i - SeqLength
      invariant forall j :: 0 <= j < |xs| ==> xs[j] == ids[j..j + SeqLength] && ys[j] == ids[j + SeqLength]
    {
      xs := xs + [ids[i - SeqLength..i]];
      ys := ys + [ids[i]];
      i := i + 1;
    }
  }
}
