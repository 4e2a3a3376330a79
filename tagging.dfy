/**
 * `tagTokens(sentence, model)`: tokenize, truncate to the tagger's sequence
 * length, embed, pad with all-ones rows, run the tagger, and add the
 * display-only padding token and embedding row.
 */
module SequenceTagger {
  import opened Js
  import opened Tokenizer

  const EmbeddingDim: nat := 512

  /** One embedding vector. */
  type Row = seq<real>

  /** The all-ones filler row of `EmbeddingDim` entries. */
  const OnesRow: Row := seq(EmbeddingDim, _ => 1.0)

  /** The sentence encoder: `use.embed` applied to each string of a batch. */
  datatype Encoder = Encoder(embed: string -> Row)

  /** A loaded tagger: the first (only) output of `predict` on a one-sentence batch. */
  datatype TaggerModel = TaggerModel(predict: seq<Row> -> seq<seq<real>>)

  /** The tagger's metadata JSON. */
  datatype TaggerMetadata = TaggerMetadata(labels: seq<string>, sequenceLength: nat)

  /**
   * What `tagTokens` returns. A token is an `Option` because the pushed
   * `labels[2]` is `undefined` when there are fewer than three labels.
   */
  datatype TaggingResult = TaggingResult(
    tokenized: seq<Option<string>>,
    tokenScores: seq<seq<real>>,
    tokenEmbeddings: seq<Row>)

  /** `use.embed(tokens)`: one row per token, in order. */
  function Embed(encoder: Encoder, tokens: seq<string>): seq<Row> {
    seq(|tokens|, i requires 0 <= i < |tokens| => encoder.embed(tokens[i]))
  }

  /** The tokens the tagger sees: the first `sequenceLength` tokens of the sentence. */
  function Kept(sentence: string, sequenceLength: nat): (kept: seq<string>)
    ensures |kept| == Min(|Tokenize(sentence)|, sequenceLength)
    ensures kept == Tokenize(sentence)[..|kept|]
  {
    Take(Tokenize(sentence), sequenceLength)
  }

  /**
   * The padded tagger input: the kept tokens' embeddings followed by
   * `sequenceLength - kept` all-ones rows, always `sequenceLength` rows.
   */
  function TaggerInput(encoder: Encoder, kept: seq<string>, sequenceLength: nat): (input: seq<Row>)
    requires |kept| <= sequenceLength
    ensures |input| == sequenceLength
    ensures forall i :: 0 <= i < |kept| ==> input[i] == encoder.embed(kept[i])
    ensures forall i :: |kept| <= i < sequenceLength ==> input[i] == OnesRow
  {
    Embed(encoder, kept) + seq(sequenceLength - |kept|, _ => OnesRow)
  }

  /** The kept tokens as array elements. */
  function Defined(tokens: seq<string>): (r: seq<Option<string>>)
    ensures |r| == |tokens|
    ensures forall i :: 0 <= i < |tokens| ==> r[i] == Some(tokens[i])
  {
    seq(|tokens|, i requires 0 <= i < |tokens| => Some(tokens[i]))
  }

  /** The result of `tagTokens(sentence)` once the encoder, tagger and metadata are loaded. */
  function Tagging(encoder: Encoder, tagger: TaggerModel, metadata: TaggerMetadata, sentence: string): (r: TaggingResult)
    ensures var kept := Kept(sentence, metadata.sequenceLength);
      && |r.tokenized| == (if |kept| < metadata.sequenceLength then |kept| + 1 else |kept|)
      && |r.tokenEmbeddings| == |kept| + 1
      && (forall i :: 0 <= i < |kept| ==> r.tokenized[i] == Some(kept[i]) && r.tokenEmbeddings[i] == encoder.embed(kept[i]))
      && (|kept| < metadata.sequenceLength ==> r.tokenized[|kept|] == At(metadata.labels, 2))
      && r.tokenEmbeddings[|kept|] == OnesRow
  {
    var length := metadata.sequenceLength;
    var kept := Kept(sentence, length);
    var scores := tagger.predict(TaggerInput(encoder, kept, length));
    var embeddings := Embed(encoder, kept) + [OnesRow];
    if |kept| < length then
      TaggingResult(Defined(kept) + [At(metadata.labels, 2)], Take(scores, |kept| + 1), embeddings)
    else
      TaggingResult(Defined(kept), scores, embeddings)
  }

  /**
   * When the tagger returns one score row per input row, there is exactly one
   * score row per returned token, with or without the padding token.
   */
  lemma TokensMatchScores(encoder: Encoder, tagger: TaggerModel, metadata: TaggerMetadata, sentence: string)
    requires var kept := Kept(sentence, metadata.sequenceLength);
      |tagger.predict(TaggerInput(encoder, kept, metadata.sequenceLength))| == metadata.sequenceLength
    ensures var r := Tagging(encoder, tagger, metadata, sentence);
      |r.tokenized| == |r.tokenScores|
  {
  }

  /** The score rows of a tagging are a prefix of what the tagger returned. */
  lemma ScoresArePredictionPrefix(encoder: Encoder, tagger: TaggerModel, metadata: TaggerMetadata, sentence: string)
    ensures var kept := Kept(sentence, metadata.sequenceLength);
      var scores := tagger.predict(TaggerInput(encoder, kept, metadata.sequenceLength));
      var r := Tagging(encoder, tagger, metadata, sentence);
      && r.tokenScores == scores[..|r.tokenScores|]
      && (|kept| < metadata.sequenceLength ==> |r.tokenScores| == Min(|scores|, |kept| + 1))
  {
  }

  /** `tagTokens`, step by step as the source reassigns `tokenized` and `predsArr`. */
  method TagTokens(encoder: Encoder, tagger: TaggerModel, metadata: TaggerMetadata, sentence: string)
    returns (r: TaggingResult)
    ensures r == Tagging(encoder, tagger, metadata, sentence)
  {
    var labels, sequenceLength := metadata.labels, metadata.sequenceLength;
    var words := Tokenize(sentence);
    // a sentence longer than sequenceLength only logs a warning
    words := Take(words, sequenceLength);
    var activations := Embed(encoder, words);
    var toPad := sequenceLength - |words|;
    var padded := activations + seq(toPad, _ => OnesRow);
    assert words == Kept(sentence, sequenceLength);
    assert padded == TaggerInput(encoder, words, sequenceLength);
    var predsArr := tagger.predict(padded);
    var tokenized := Defined(words);
    if |tokenized| < sequenceLength {
      tokenized := tokenized + [At(labels, 2)];
      predsArr := Take(predsArr, |tokenized|);
    }
    var displayActivations := activations + [OnesRow];
    r := TaggingResult(tokenized, predsArr, displayActivations);
  }
}
