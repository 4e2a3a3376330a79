# Chat bot text-to-reply pipeline

A Dafny model of the logic that turns a user's sentence, plus the intent
classifier's scores for it, into the bot's reply. The same logic appears
twice, almost line for line: in `bot.js` (Node) and in `app/nexmo.js`
(browser). The browser copy also reads the weather message aloud. One model
covers both. The `speaks` parameter of `Dispatch.ClassificationMessage`
chooses between them: `false` for `bot.js`, `true` for `app/nexmo.js`.

The files:

- `js.dfy` (`Js`): the JavaScript built-ins the pipeline relies on.
  - Clamped `slice`, and array reads that give `undefined` out of range.
  - `Math.max(...a)`, which is minus infinity for an empty array, and `indexOf`.
  - `trim` over the ECMAScript WhiteSpace and LineTerminator characters.
  - `join`, which renders `undefined` as the empty string.
  - A promise is `Resolved(value)` or `Rejected`.
- `tokenizer.dfy` (`Tokenizer`): `tokenizeSentence`. The input is cut into its maximal runs of word characters (`[A-Za-z0-9_]`) and non-word characters. Each run is trimmed and empty ones are dropped.
- `tagging.dfy` (`SequenceTagger`): `tagTokens`, in this order:
  - truncate the tokens to the tagger's sequence length;
  - pad the embeddings with all-ones rows;
  - run the tagger;
  - add the display padding token (`labels[2]`) and the extra all-ones embedding row.
- `slots.dfy` (`Slots`): `tagMessage`. A score row contributes its token when its maximum first appears at index 1. The contributions are joined with a single space (in JavaScript, `'\ '` is `' '`).
- `weather.dfy` (`Weather`): `getWeather` and its two reply templates.
- `dispatch.dfy` (`Dispatch`): `getClassificationMessage` once the intent labels and the tagging models are at hand.
  - A best score under 0.90 gives the shrug.
  - Otherwise the reply depends on the label at the first index of the maximum: `GetWeather`, `PlayMusic`, or anything else.
- `registry.dfy` (`Registry`): the module-level caches as the class `ModelCache`.
  - The fields are `use`, `intent`, `intentMetadata` and the `taggers` dictionary.
  - The loaders, the `loadTaggerModel` warm-up, `classify`, and `getClassificationMessage` with the loads it performs are all methods of that class.

The neural models are datatypes holding functions:

- the sentence encoder maps a string to an embedding row;
- the tagger and the intent classifier map a batch of rows to score rows.

The network is a `World` value passed to each call. It holds:

- what each model load gives;
- the metadata responses;
- the weather service's search and detail lookups.

A thrown `TypeError` or an unhandled rejection makes the turn `Rejected`.

Three behaviours of the code that the model keeps as they are:

- **Missing tagger or metadata.** A missing tagger, a missing tagger metadata file, or an encoder that fails to load does not give a reply without a location: `tagMessage` rejects, and `getClassificationMessage` then rejects too. The cause differs by case:
  - an encoder that fails to load: `loadUSE` rejects (bot.js:38), and `Promise.all` passes the rejection on (bot.js:184);
  - a missing tagger: `loadTagger` swallows the failure and gives `undefined`, and `predict` is then called on `undefined`;
  - a tagger metadata request that fails: `loadMetadata` gives `undefined`, which is then destructured (bot.js:185-188);
  - a metadata response whose body does not parse, such as a 404 page: `resp.json()` is returned without being awaited (bot.js:147), so the parse failure escapes the `catch` and `loadMetadata` rejects.
- **Failed weather lookups.** Only an empty search result gives the apology. A failed request, or a detail with no forecast, rejects.
- **Cached metadata failures.** `loadIntentMetadata` caches the un-awaited `json()` promise. A metadata body that fails to parse is therefore cached, and every later call rejects. Only a failed request leaves the slot empty to be retried.

## Model

| member | source | states |
|---|---|---|
| Js.Take | bot.js:197 | `slice(0, n)` keeps the first `min(length, n)` elements, in order (also the score cut at bot.js:220) |
| Js.Max | bot.js:86 | `Math.max` of the scores is minus infinity exactly for no scores; otherwise it is one of the scores and bounds all of them |
| Js.IndexOf | bot.js:87 | `indexOf` gives -1 or an index holding the value, and no earlier index holds it |
| Js.FirstMaxIndex | bot.js:86-87 | the maximum's index is -1 for no scores; otherwise every score is at most the one there, and every earlier score is strictly smaller |
| Js.FirstMaxIndexIs | bot.js:86-87 | an independent description of the maximum's index: it is `k` exactly when no score exceeds the one at `k` and every earlier score is strictly smaller (-1 for no scores) |
| Js.Trim | bot.js:171 | `trim` gives the empty string exactly for an all-whitespace string; otherwise the result has no whitespace at either end and uses only the input's characters |
| Js.TrimCharacterized | bot.js:171 | whitespace, then a string with no whitespace at either end, then whitespace, trims to exactly that middle string; every string splits this way, so this fixes `trim` on every input |
| Js.TrimPadded | bot.js:265 | trimming a text padded by whitespace on both sides is trimming the text |
| Js.Join | bot.js:257 | joining an empty array gives the empty string, and joining one element gives its text (undefined as the empty string) |
| Js.JoinAppend | bot.js:257 | joining two non-empty arrays back to back gives the first join, one separator, then the second join |
| Js.JoinStartsWithFirst | bot.js:257 | a join of a non-empty array starts with the first element's text |
| Js.JoinChars | bot.js:257 | every character of a join comes from the separator or from one of the elements' texts |
| Js.JoinBlank | bot.js:257 | a whitespace-joined list is all whitespace exactly when every element renders as whitespace |
| Js.JoinSingle | bot.js:257 | space-joining parts of which only part `k` renders non-empty gives that text with `k` spaces before it and one per later part after it |
| Js.JoinNothing | bot.js:257 | space-joining `n` parts that all render empty gives `n - 1` spaces |
| Tokenizer.Runs | bot.js:171 | the word-boundary split: the pieces concatenate back to the input, each is a non-empty run of one character class, and neighbouring pieces differ in class |
| Tokenizer.RunsUnique | bot.js:171 | any cut of the input with those three properties is exactly `Runs`, so the tokens are the input's maximal runs in input order |
| Tokenizer.DropEmpty | bot.js:171 | filtering keeps exactly the non-empty strings and never lengthens the list |
| Tokenizer.Tokenize | bot.js:170-172 | a string is a token exactly when it is the trim of one of the input's word or non-word runs that is not all whitespace |
| Tokenizer.TokenizeAtBoundary | bot.js:170-172 | where the input splits at a word boundary, its tokens are the first part's tokens followed by the second part's, in order and with repeats kept |
| Tokenizer.TokenizeRun | bot.js:170-172 | a single word or non-word run gives no token when it is all whitespace, and otherwise exactly one token, its trim |
| Tokenizer.TokensAreTrimmedRuns | bot.js:170-172 | every token is non-empty, has no whitespace at either end, and is all word characters or all non-word characters (likewise app/nexmo.js:192-194) |
| Tokenizer.TokenizeTrimmedRun | bot.js:170-172 | a trimmed run of one character class tokenizes to itself alone |
| Tokenizer.TokenIsItsOwnTokenization | bot.js:170-172 | tokenizing any token again gives back exactly that one token |
| SequenceTagger.Kept | bot.js:191-197 | the kept tokens are the first `min(n, sequenceLength)` tokens; a longer sentence only loses its tail |
| SequenceTagger.TaggerInput | bot.js:198-209 | the tagger input has exactly `sequenceLength` rows: the kept tokens' embeddings in order, then all-ones rows (likewise app/nexmo.js:219-231) |
| SequenceTagger.Tagging | bot.js:213-235 | the kept tokens come first in order; when the sentence is short, `labels[2]` follows them, else nothing; the display embeddings are the kept tokens' embeddings plus one all-ones row (likewise app/nexmo.js:235-257) |
| SequenceTagger.TokensMatchScores | bot.js:214-221 | when the tagger returns one score row per input row, there are exactly as many score rows as returned tokens |
| SequenceTagger.ScoresArePredictionPrefix | bot.js:214-221 | the score rows are a prefix of the tagger's output, cut to `kept + 1` rows for a short sentence |
| SequenceTagger.TagTokens | bot.js:182-236 | the step-by-step `tagTokens` (reassigning the token list, pushing the padding token, slicing the scores) computes `Tagging` (likewise app/nexmo.js:204-258) |
| Slots.Slots | bot.js:250-256 | one entry per score row, the padding token's row included; entry `i` is defined exactly when row `i` has a token, has at least two scores, its score at index 1 beats the one at index 0 and no score exceeds it; then the entry is that token, otherwise `undefined` |
| Slots.Location | bot.js:250-257 | every character of the location is a space or belongs to the token of a row whose maximum first appears at index 1 |
| Slots.LocationBlank | bot.js:250-257 | the trimmed location is empty exactly when no row whose maximum first appears at index 1 has a token with visible text |
| Slots.SingleLocationToken | bot.js:250-257 | with exactly one such row `k`, the location is its token padded by one space per other row, and trimming it gives the trimmed token |
| Slots.TagMessage | bot.js:238-261 | no result exactly for a null or empty input; it resolves exactly when the encoder, tagger and metadata are all loaded, and then to the joined location (likewise app/nexmo.js:260-283) |
| Weather.Report | bot.js:280 | the forecast sentence starts with "The " and ends with the first day's weather state name followed by " today." |
| Weather.ReportIsNotApology | bot.js:276-283 | the forecast sentence is never the apology, whatever the location |
| Weather.WeatherMessage | bot.js:273-284 | the search uses the trimmed location; no hits gives the apology with the untrimmed location; otherwise the forecast sentence for the first hit; a failed search, a missing detail, or no forecast rejects |
| Weather.SearchUsesTrimmedLocation | bot.js:264-266 | locations with the same trim succeed or fail alike and get the same forecast |
| Dispatch.IntentLabel | bot.js:86-88 | there is a label exactly when there are scores and the labels reach the maximum's first index; it is the label at the index holding the maximum with every earlier score strictly smaller |
| Dispatch.RouteOf | bot.js:86-111 | under the threshold (including no scores) routes to the shrug; otherwise the label at the first index of the maximum decides between `GetWeather`, `PlayMusic` and the rest |
| Dispatch.WeatherReply | bot.js:97-104 | an undefined or rejected location rejects; a blank trimmed location replies with the bare glyph and searches nothing; otherwise glyph, space, weather message, with one search for the trimmed location, spoken when `speaks` (app/nexmo.js:117-127) |
| Dispatch.ClassificationMessage | bot.js:86-115 | under 0.90 the reply is the shrug; `PlayMusic` gives the music notes; any other label, or none, gives `?`; `GetWeather` gives the weather reply of the tagged location |
| Dispatch.ShrugExactlyBelowThreshold | bot.js:90-91 | the reply is the shrug if and only if the best score is under the threshold |
| Dispatch.ReplyIsOneOfFive | bot.js:90-115 | every reply is the shrug, the music notes, `?`, the bare glyph, or starts with the glyph and a space |
| Dispatch.SearchOnlyForWeather | bot.js:95-101 | the weather service is searched only on the `GetWeather` route, once, for the non-blank trimmed location; `bot.js` never speaks |
| Dispatch.NoLocationNoSearch | bot.js:97-104 | on the `GetWeather` route with all models loaded and no row winning index 1, the reply is exactly the bare glyph and nothing is searched |
| Dispatch.SearchKeyedOnLocationToken | bot.js:97-101 | on the `GetWeather` route with exactly one row winning index 1, the only search is for that row's trimmed token, and the reply starts with the glyph and a space |
| Dispatch.LocationOfLoadedTagger | bot.js:95-97 | with all models loaded, the `GetWeather` route replies from the location the tagger extracted from the input |
| Dispatch.WeatherSearch | bot.js:98-100 | a non-blank location is searched once, trimmed, and the reply starts with the glyph and a space |
| Registry.TaggersAfter | bot.js:158-161 | after loading a list of names, existing entries are unchanged; every new entry is a listed name whose load succeeded; every listed name whose load succeeds is present |
| Registry.TaggersLog | bot.js:158-161 | loading a list of names attempts every listed name that was not cached beforehand and nothing else, and each attempt succeeds exactly when that name's load does |
| Registry.Classification | bot.js:60-79 | `classify` resolves exactly when the encoder, classifier and metadata are loaded and the prediction has a first row, and then to that first row |
| Registry.ModelCache.constructor | bot.js:35-51 | every cache slot starts empty |
| Registry.ModelCache.LoadUse | bot.js:35-41 | loads the encoder only when the slot is empty and keeps it once loaded; records the load; leaves the other caches alone (likewise app/nexmo.js:57-63) |
| Registry.ModelCache.LoadIntentClassifier | bot.js:43-49 | the same for the intent classifier (likewise app/nexmo.js:65-71) |
| Registry.ModelCache.LoadIntentMetadata | bot.js:51-58 | fetches only when the slot is empty, caches the `json()` promise whether or not it will parse, and never refetches after a response (likewise app/nexmo.js:73-80) |
| Registry.ModelCache.LoadTagger | bot.js:124-136 | never rejects; returns the cached entry without loading; a failed load leaves the entry absent for a retry; other names' entries are untouched (likewise app/nexmo.js:146-158) |
| Registry.ModelCache.LoadTaggerModel | bot.js:158-161 | loads every configured tagger and then the encoder; rejects exactly when the encoder fails; otherwise returns the encoder and each name's entry; records exactly one attempt per uncached tagger, so a failed tagger is retried, and one for the encoder when its slot was empty |
| Registry.ModelCache.Classify | bot.js:60-79 | loads the encoder, classifier and metadata through their caches and returns `Classification` of what they settled with; records exactly the encoder, classifier and metadata attempts for the slots that were empty, in that order (likewise app/nexmo.js:82-101) |
| Registry.ModelCache.GetClassificationMessage | bot.js:82-117 | rejects when the intent metadata does; otherwise replies as `ClassificationMessage` with the settled models; records the metadata attempt when its slot was empty, and attempts the encoder and the tagger only on a confident `GetWeather` with a non-empty input, each only when not cached (likewise app/nexmo.js:104-139) |

`Registry.ModelCache.Valid` holds before and after every method. It says two things: a slot that a load filled stays filled, and no slot is loaded again after a load filled it. So each model is loaded successfully at most once across sequential calls.

## Left out

- Concurrency is not modelled, and calls are taken one at a time. This covers the `Promise.all` fan-out in `classify`, `tagTokens` and `loadTaggerModel`, and racing first loads (the code has no single-flight guard).
- Floating point: scores are `real` and only compared, and NaN is not modelled.
- Logging (`console.table`, `console.warn`, `console.log`) is not modelled. A sentence longer than the sequence length has no other effect.
- URL construction and the HTTP requests are outside the model; the `World` value supplies their results.
- The tagger metadata is fetched twice per turn, once in `tagTokens` and once in `tagMessage`. The model assumes both fetches return the same value.
- The JSON shapes are reduced to the fields read. A search result that is not an array, and weather JSON missing fields other than the first day's forecast, are not modelled.
- `taggers` is a plain object in the source. Keys that clash with `Object.prototype` members are not modelled.
- `use.embed` is modelled as embedding each string on its own. Batch effects of the encoder are not modelled.
- `server.js`, `app/index.js` and the DOM and speech parts of `app/nexmo.js` are not part of this model: `appendMessage`, `ask`, `setupListeners`, `sendMessage` and the `speak` call itself. The model records the text that `speak` would be given.
- Js.Trim: its own contract does not pin down the result; the separate lemma Js.TrimCharacterized does.
- Js.Join: its own contract covers only arrays of zero or one element. The lemma Js.JoinAppend gives the join of two non-empty arrays back to back, and with it the join of every longer array is fixed; Js.JoinStartsWithFirst, Js.JoinChars, Js.JoinBlank, Js.JoinSingle and Js.JoinNothing state consequences.
- Tokenizer.DropEmpty: the contract states which strings are kept, not their order. The order is stated by the lemma Tokenizer.DropEmptyAppend and, for whole inputs, by Tokenizer.TokenizeAtBoundary.
