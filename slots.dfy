/**
 * `tagMessage(inputText, model)`: tag the sentence and read the location
 * out of the score rows. A row contributes its token when the first index
 * of its maximum score is 1, and nothing otherwise; the contributions are
 * joined with `'\ '`, which in JavaScript is a single space.
 */
module Slots {
  import opened Js
  import opened SequenceTagger

  /** The score index a row must win for its token to be part of the location. */
  const LocationIndex: int := 1

  /** `tokenized[index]`: `undefined` past the end. */
  function TokenAt(tokenized: seq<Option<string>>, i: int): Option<string> {
    if 0 <= i < |tokenized| then tokenized[i] else None
  }

  /** A row's entry: its token when the row's maximum first appears at index 1, `undefined` otherwise. */
  function Slot(scores: seq<real>, token: Option<string>): Option<string> {
    if FirstMaxIndex(scores) == LocationIndex then token else None
  }

  /**
   * One entry per score row, including the row of the appended padding
   * token. Row `i` has an entry exactly when it has a token, its score at
   * index 1 is the largest, and its score at index 0 is strictly smaller;
   * the entry is then the row's token.
   */
  function Slots(t: TaggingResult): (slots: seq<Option<string>>)
    ensures |slots| == |t.tokenScores|
    ensures forall i :: 0 <= i < |slots| ==>
      slots[i] == if FirstMaxIndex(t.tokenScores[i]) == LocationIndex then TokenAt(t.tokenized, i) else None
    ensures forall i :: 0 <= i < |slots| ==>
      (slots[i].Some? <==>
        && TokenAt(t.tokenized, i).Some?
        && 1 < |t.tokenScores[i]| && t.tokenScores[i][0] < t.tokenScores[i][1]
        && forall j :: 0 <= j < |t.tokenScores[i]| ==> t.tokenScores[i][j] <= t.tokenScores[i][1])
    ensures forall i :: 0 <= i < |slots| && slots[i].Some? ==> slots[i] == TokenAt(t.tokenized, i)
  {
    assert forall i :: 0 <= i < |t.tokenScores| ==>
      (FirstMaxIndex(t.tokenScores[i]) == LocationIndex <==>
        && 1 < |t.tokenScores[i]| && t.tokenScores[i][0] < t.tokenScores[i][1]
        && forall j :: 0 <= j < |t.tokenScores[i]| ==> t.tokenScores[i][j] <= t.tokenScores[i][1]) by {
      forall i | 0 <= i < |t.tokenScores| {
        FirstMaxIndexIs(t.tokenScores[i], LocationIndex);
      }
    }
    seq(|t.tokenScores|, i requires 0 <= i < |t.tokenScores| => Slot(t.tokenScores[i], TokenAt(t.tokenized, i)))
  }

  /**
   * The location string `tagMessage` resolves with: every character of it is
   * a separating space or comes from the token of a row whose maximum first
   * appears at index 1.
   */
  function Location(t: TaggingResult): (r: string)
    ensures forall c :: c in r ==>
      || c == ' '
      || exists i :: 0 <= i < |t.tokenScores| && FirstMaxIndex(t.tokenScores[i]) == LocationIndex
                     && c in Render(TokenAt(t.tokenized, i))
  {
    var slots := Slots(t);
    JoinChars(slots, " ");
    assert forall i :: 0 <= i < |slots| && Render(slots[i]) != "" ==>
      FirstMaxIndex(t.tokenScores[i]) == LocationIndex && Render(slots[i]) == Render(TokenAt(t.tokenized, i));
    Join(slots, " ")
  }

  /**
   * The trimmed location is empty exactly when no row whose maximum first
   * appears at index 1 carries a token with visible text.
   */
  lemma LocationBlank(t: TaggingResult)
    ensures Trim(Location(t)) == "" <==>
      forall i :: 0 <= i < |t.tokenScores| && FirstMaxIndex(t.tokenScores[i]) == LocationIndex ==>
        AllSpace(Render(TokenAt(t.tokenized, i)))
  {
    JoinBlank(Slots(t), " ");
    assert forall i :: 0 <= i < |t.tokenScores| ==>
      (AllSpace(Render(Slots(t)[i])) <==>
        (FirstMaxIndex(t.tokenScores[i]) == LocationIndex ==> AllSpace(Render(TokenAt(t.tokenized, i)))));
  }

  /** Row `k`, whose token is `token`, is the only row whose maximum first appears at index 1. */
  predicate OneLocationRow(t: TaggingResult, k: nat, token: string) {
    && k < |t.tokenScores|
    && FirstMaxIndex(t.tokenScores[k]) == LocationIndex && TokenAt(t.tokenized, k) == Some(token)
    && forall j :: 0 <= j < |t.tokenScores| && j != k ==> FirstMaxIndex(t.tokenScores[j]) != LocationIndex
  }

  /**
   * When exactly one row `k` wins index 1 and its token is `token`, the
   * location is `token` padded by one space per other row, so its trim (the
   * weather search query) is the token's trim.
   */
  lemma SingleLocationToken(t: TaggingResult, k: nat, token: string)
    requires OneLocationRow(t, k, token)
    ensures Location(t) == Blanks(k) + token + Blanks(|t.tokenScores| - 1 - k)
    ensures Trim(Location(t)) == Trim(token)
  {
    JoinSingle(Slots(t), k, token);
    TrimPadded(Blanks(k), token, Blanks(|t.tokenScores| - 1 - k));
  }

  /** The models `tagTokens` obtained: `None` where a loader gave `undefined` or rejected. */
  datatype TagEnv = TagEnv(encoder: Option<Encoder>, tagger: Option<TaggerModel>, metadata: Option<TaggerMetadata>)

  /**
   * `tagMessage(inputText, model)`: `None` is the `undefined` it returns for
   * a null or empty input; a missing encoder, tagger or metadata makes it
   * reject (a failed load or a TypeError on `undefined`).
   */
  function TagMessage(inputText: Option<string>, env: TagEnv): (r: Option<Promise<string>>)
    ensures r.None? <==> inputText.None? || inputText.value == ""
    ensures r.Some? && r.value.Resolved? <==>
      && inputText.Some? && inputText.value != ""
      && env.encoder.Some? && env.tagger.Some? && env.metadata.Some?
    ensures r.Some? && r.value.Resolved? ==>
      r.value.value == Location(Tagging(env.encoder.value, env.tagger.value, env.metadata.value, inputText.value))
  {
    if inputText.None? || inputText.value == "" then None
    else if env.encoder.None? || env.tagger.None? || env.metadata.None? then Some(Rejected)
    else
      var result := Tagging(env.encoder.value, env.tagger.value, env.metadata.value, inputText.value);
      Some(Resolved(Location(result)))
  }
}
