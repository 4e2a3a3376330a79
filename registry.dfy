/**
 * The module-level model caches and the operations that fill them:
 * `loadUSE`, `loadIntentClassifer`, `loadIntentMetadata`, `loadTagger`,
 * the warm-up `loadTaggerModel`, `classify`, and `getClassificationMessage`
 * with the loads it performs. Calls are sequential; each call is given the
 * `World` that its requests would meet.
 */
module Registry {
  import opened Js
  import opened SequenceTagger
  import opened Slots
  import opened Weather
  import opened Dispatch

  /** The tagger `getClassificationMessage` asks for. */
  const TaggerName: string := "bidirectional-lstm"

  /** The names of the configured tagger models. */
  const ModelNames: seq<string> := [TaggerName]

  /** The intent classifier: `intent.predict` on a batch of sentence embeddings. */
  datatype IntentModel = IntentModel(predict: seq<Row> -> seq<seq<real>>)

  /** The intent metadata JSON. */
  datatype IntentMetadata = IntentMetadata(labels: seq<string>)

  /**
   * What fetching the intent metadata gives: a request that fails, or a
   * response whose `json()` promise settles one way or the other.
   */
  datatype MetadataResponse = FetchFailed | Response(json: Promise<IntentMetadata>)

  /**
   * What the requests of one call would return. `None` is a load that
   * fails: `useLoader.load()` or `tf.loadLayersModel(url)` rejecting, or
   * tagger metadata that is not there. Missing metadata makes `tagTokens`
   * reject either way: a failed request leaves `undefined` to destructure,
   * and a body that does not parse rejects through the un-awaited `json()`.
   */
  datatype World = World(
    encoder: Option<Encoder>,
    intentModel: Option<IntentModel>,
    intentMetadata: MetadataResponse,
    tagger: string -> Option<TaggerModel>,
    taggerMetadata: string -> Option<TaggerMetadata>,
    weather: WeatherService)

  /** The cached value when there is one, otherwise what the load attempt gave. */
  function Memo<T>(cached: Option<T>, attempt: Option<T>): (r: Option<T>)
    ensures cached.Some? ==> r == cached
    ensures cached.None? ==> r == attempt
  {
    if cached.Some? then cached else attempt
  }

  /** A cached or loaded value as the promise an `async` loader returns. */
  function Settled<T>(o: Option<T>): (r: Promise<T>)
    ensures r.Resolved? <==> o.Some?
    ensures r.Resolved? ==> r.value == o.value
  {
    if o.Some? then Resolved(o.value) else Rejected
  }

  /** The `intentMetadata` slot after `loadIntentMetadata()`: the `json()` promise is cached, settled or not. */
  function MetadataAfter(cached: Option<Promise<IntentMetadata>>, response: MetadataResponse): (r: Option<Promise<IntentMetadata>>)
    ensures cached.Some? ==> r == cached
    ensures cached.None? ==> (r.Some? <==> response.Response?)
    ensures cached.None? && response.Response? ==> r == Some(response.json)
  {
    if cached.Some? then cached
    else if response.FetchFailed? then None
    else Some(response.json)
  }

  /** What `loadIntentMetadata()` settles with. */
  function MetadataResult(cached: Option<Promise<IntentMetadata>>, response: MetadataResponse): (r: Promise<IntentMetadata>)
    ensures MetadataAfter(cached, response).None? ==> r.Rejected?
    ensures MetadataAfter(cached, response).Some? ==> r == MetadataAfter(cached, response).value
  {
    var slot := MetadataAfter(cached, response);
    if slot.Some? then slot.value else Rejected
  }

  /** `taggers[name]`: `undefined` when absent. */
  function Entry(taggers: map<string, TaggerModel>, name: string): Option<TaggerModel> {
    if name in taggers then Some(taggers[name]) else None
  }

  /** The dictionary after `loadTagger(name)`: only a successful first load adds an entry. */
  function TaggerAfter(taggers: map<string, TaggerModel>, name: string, attempt: Option<TaggerModel>): (r: map<string, TaggerModel>)
    ensures name in taggers ==> r == taggers
    ensures name !in taggers && attempt.None? ==> r == taggers
    ensures name !in taggers && attempt.Some? ==> r == taggers[name := attempt.value]
  {
    if name in taggers || attempt.None? then taggers else taggers[name := attempt.value]
  }

  /**
   * The dictionary after `loadTagger` on each of `names` in turn: existing
   * entries never change, an entry is added only for a listed name whose
   * load succeeded, and a listed name whose load succeeds is present after.
   */
  function TaggersAfter(taggers: map<string, TaggerModel>, names: seq<string>, attempt: string -> Option<TaggerModel>)
    : (r: map<string, TaggerModel>)
    ensures forall n :: n in taggers ==> n in r && r[n] == taggers[n]
    ensures forall n :: n in r && n !in taggers ==> n in names && attempt(n) == Some(r[n])
    ensures forall n :: n in names && attempt(n).Some? ==> n in r
    decreases |names|
  {
    if names == [] then taggers
    else
      var before := TaggersAfter(taggers, names[..|names| - 1], attempt);
      TaggerAfter(before, names[|names| - 1], attempt(names[|names| - 1]))
  }

  /** `classify(sentences)` once its three loaders have settled. */
  function Classification(encoder: Option<Encoder>, intent: Option<IntentModel>, metadata: Promise<IntentMetadata>,
                          sentences: seq<string>): (r: Promise<seq<real>>)
    ensures r.Resolved? <==>
      encoder.Some? && intent.Some? && metadata.Resolved? && |intent.value.predict(Embed(encoder.value, sentences))| > 0
    ensures r.Resolved? ==> r.value == intent.value.predict(Embed(encoder.value, sentences))[0]
  {
    if encoder.None? || intent.None? || metadata.Rejected? then Rejected
    else
      var predictions := intent.value.predict(Embed(encoder.value, sentences));
      // copying the first prediction row for the log throws when there is none
      if |predictions| == 0 then Rejected else Resolved(predictions[0])
  }

  /** One cache slot of the module. */
  datatype Cache = UseCache | IntentCache | IntentMetadataCache | TaggerCache(name: string)

  /** A load the module attempted for `cache`, and whether it filled the slot. */
  datatype LoadEvent = LoadEvent(cache: Cache, ok: bool)

  /** What a cached loader records: nothing when its slot is filled, otherwise the one attempt it makes. */
  function LoadLog<T>(cached: Option<T>, c: Cache, attempt: Option<T>): seq<LoadEvent> {
    if cached.Some? then [] else [LoadEvent(c, attempt.Some?)]
  }

  /** What `loadIntentMetadata()` records: a request succeeds when it gets a response. */
  function MetadataLog(cached: Option<Promise<IntentMetadata>>, response: MetadataResponse): seq<LoadEvent> {
    if cached.Some? then [] else [LoadEvent(IntentMetadataCache, response.Response?)]
  }

  /** What `loadTagger(name)` records. */
  function TaggerLog(taggers: map<string, TaggerModel>, name: string, attempt: Option<TaggerModel>): seq<LoadEvent> {
    if name in taggers then [] else [LoadEvent(TaggerCache(name), attempt.Some?)]
  }

  /**
   * What `loadTagger` on each of `names` in turn records: an attempt for
   * every listed name that was not cached beforehand, and no other load.
   */
  function TaggersLog(taggers: map<string, TaggerModel>, names: seq<string>, attempt: string -> Option<TaggerModel>)
    : (log: seq<LoadEvent>)
    ensures forall n :: n in names && n !in taggers ==> LoadEvent(TaggerCache(n), attempt(n).Some?) in log
    ensures forall e :: e in log ==>
      && e.cache.TaggerCache? && e.cache.name in names && e.cache.name !in taggers
      && e.ok == attempt(e.cache.name).Some?
    decreases |names|
  {
    if names == [] then []
    else
      var front := names[..|names| - 1];
      var last := names[|names| - 1];
      assert forall n :: n in names ==> n in front || n == last;
      TaggersLog(taggers, front, attempt) + TaggerLog(TaggersAfter(taggers, front, attempt), last, attempt(last))
  }

  /** The values of `loadTaggerModel()`: the encoder, then each model name's tagger entry. */
  datatype WarmUp = WarmUp(encoder: Encoder, taggers: seq<Option<TaggerModel>>)

  /** The module-level state `use`, `intent`, `intentMetadata` and `taggers`. */
  class ModelCache {
    var use: Option<Encoder>
    var intent: Option<IntentModel>
    var intentMetadata: Option<Promise<IntentMetadata>>
    var taggers: map<string, TaggerModel>
    /** Every load attempted so far, in order. */
    ghost var loads: seq<LoadEvent>

    /** The slot is filled. */
    ghost predicate Holds(c: Cache)
      reads this
    {
      match c
      case UseCache => use.Some?
      case IntentCache => intent.Some?
      case IntentMetadataCache => intentMetadata.Some?
      case TaggerCache(name) => name in taggers
    }

    /**
     * A filled slot stays filled, and a slot is never loaded again once a
     * load has filled it: each model is loaded successfully at most once.
     */
    ghost predicate Valid()
      reads this
    {
      && (forall i :: 0 <= i < |loads| && loads[i].ok ==> Holds(loads[i].cache))
      && (forall i, j :: 0 <= i < j < |loads| && loads[i].cache == loads[j].cache ==> !loads[i].ok)
    }

    /** The module as first loaded: every slot empty. */
    constructor()
      ensures Valid()
      ensures use.None? && intent.None? && intentMetadata.None? && taggers == map[] && loads == []
    {
      use, intent, intentMetadata, taggers := None, None, None, map[];
      loads := [];
    }

    /** `loadUSE()` */
    method LoadUse(w: World) returns (r: Promise<Encoder>)
      requires Valid()
      modifies this
      ensures Valid()
      ensures use == Memo(old(use), w.encoder)
      ensures r == Settled(use)
      ensures loads == old(loads) + LoadLog(old(use), UseCache, w.encoder)
      ensures intent == old(intent) && intentMetadata == old(intentMetadata) && taggers == old(taggers)
    {
      if use.None? {
        use := w.encoder;
        loads := loads + [LoadEvent(UseCache, use.Some?)];
      }
      r := if use.Some? then Resolved(use.value) else Rejected;
    }

    /** `loadIntentClassifer` on the intent model's URL */
    method LoadIntentClassifier(w: World) returns (r: Promise<IntentModel>)
      requires Valid()
      modifies this
      ensures Valid()
      ensures intent == Memo(old(intent), w.intentModel)
      ensures r == Settled(intent)
      ensures loads == old(loads) + LoadLog(old(intent), IntentCache, w.intentModel)
      ensures use == old(use) && intentMetadata == old(intentMetadata) && taggers == old(taggers)
    {
      if intent.None? {
        intent := w.intentModel;
        loads := loads + [LoadEvent(IntentCache, intent.Some?)];
      }
      r := if intent.Some? then Resolved(intent.value) else Rejected;
    }

    /**
     * `loadIntentMetadata()`: a failed request leaves the slot empty; a
     * response caches its `json()` promise, so a body that fails to parse
     * makes every later call reject too.
     */
    method LoadIntentMetadata(w: World) returns (r: Promise<IntentMetadata>)
      requires Valid()
      modifies this
      ensures Valid()
      ensures intentMetadata == MetadataAfter(old(intentMetadata), w.intentMetadata)
      ensures r == MetadataResult(old(intentMetadata), w.intentMetadata)
      ensures loads == old(loads) + MetadataLog(old(intentMetadata), w.intentMetadata)
      ensures use == old(use) && intent == old(intent) && taggers == old(taggers)
    {
      if intentMetadata.None? {
        if w.intentMetadata.Response? {
          intentMetadata := Some(w.intentMetadata.json);
        }
        loads := loads + [LoadEvent(IntentMetadataCache, w.intentMetadata.Response?)];
      }
      r := if intentMetadata.Some? then intentMetadata.value else Rejected;
    }

    /**
     * `loadTagger(name)`: never rejects; a failed load is swallowed, leaves
     * the entry absent (so the next call retries) and gives `undefined`.
     */
    method LoadTagger(name: string, w: World) returns (r: Option<TaggerModel>)
      requires Valid()
      modifies this
      ensures Valid()
      ensures taggers == TaggerAfter(old(taggers), name, w.tagger(name))
      ensures r == Entry(taggers, name)
      ensures loads == old(loads) + TaggerLog(old(taggers), name, w.tagger(name))
      ensures use == old(use) && intent == old(intent) && intentMetadata == old(intentMetadata)
    {
      if name !in taggers {
        var attempt := w.tagger(name);
        if attempt.Some? {
          taggers := taggers[name := attempt.value];
        }
        loads := loads + [LoadEvent(TaggerCache(name), attempt.Some?)];
      }
      r := if name in taggers then Some(taggers[name]) else None;
    }

    /** `loadTaggerModel()`: load every tagger by name, then the encoder. */
    method LoadTaggerModel(w: World) returns (r: Promise<WarmUp>)
      requires Valid()
      modifies this
      ensures Valid()
      ensures taggers == TaggersAfter(old(taggers), ModelNames, w.tagger)
      ensures use == Memo(old(use), w.encoder)
      ensures r.Resolved? <==> use.Some?
      ensures r.Resolved? ==> r.value.encoder == use.value && |r.value.taggers| == |ModelNames|
      ensures r.Resolved? ==> forall i :: 0 <= i < |ModelNames| ==> r.value.taggers[i] == Entry(taggers, ModelNames[i])
      ensures intent == old(intent) && intentMetadata == old(intentMetadata)
      ensures loads == old(loads) + TaggersLog(old(taggers), ModelNames, w.tagger) + LoadLog(old(use), UseCache, w.encoder)
    {
      var names := ModelNames;
      var loaded: seq<Option<TaggerModel>> := [];
      for i := 0 to |names|
        invariant Valid()
        invariant taggers == TaggersAfter(old(taggers), names[..i], w.tagger)
        invariant |loaded| == i
        invariant forall k :: 0 <= k < i ==> loaded[k] == Entry(taggers, names[k])
        invariant use == old(use) && intent == old(intent) && intentMetadata == old(intentMetadata)
        invariant loads == old(loads) + TaggersLog(old(taggers), names[..i], w.tagger)
      {
        var entry := LoadTagger(names[i], w);
        assert names[..i + 1][..i] == names[..i];
        loaded := loaded + [entry];
      }
      assert names[..|names|] == names;
      var encoder := LoadUse(w);
      r := if encoder.Resolved? then Resolved(WarmUp(encoder.value, loaded)) else Rejected;
    }

    /** `classify(sentences)`: the intent scores of the first sentence. */
    method Classify(sentences: seq<string>, w: World) returns (r: Promise<seq<real>>)
      requires Valid()
      modifies this
      ensures Valid()
      ensures use == Memo(old(use), w.encoder)
      ensures intent == Memo(old(intent), w.intentModel)
      ensures intentMetadata == MetadataAfter(old(intentMetadata), w.intentMetadata)
      ensures taggers == old(taggers)
      ensures r == Classification(use, intent, MetadataResult(old(intentMetadata), w.intentMetadata), sentences)
      ensures loads == old(loads) + LoadLog(old(use), UseCache, w.encoder)
                                  + LoadLog(old(intent), IntentCache, w.intentModel)
                                  + MetadataLog(old(intentMetadata), w.intentMetadata)
    {
      var encoder := LoadUse(w);
      var model := LoadIntentClassifier(w);
      var metadata := LoadIntentMetadata(w);
      if encoder.Rejected? || model.Rejected? || metadata.Rejected? {
        return Rejected;
      }
      var predictions := model.value.predict(Embed(encoder.value, sentences));
      r := if |predictions| == 0 then Rejected else Resolved(predictions[0]);
    }

    /**
     * `getClassificationMessage(softmaxArr, inputText)`: the intent
     * metadata is loaded first; the encoder and the tagger are loaded only
     * for a confident `GetWeather` with a non-empty input.
     */
    method GetClassificationMessage(softmax: seq<real>, inputText: Option<string>, w: World, speaks: bool)
      returns (r: Promise<Turn>)
      requires Valid()
      modifies this
      ensures Valid()
      ensures intentMetadata == MetadataAfter(old(intentMetadata), w.intentMetadata)
      ensures var metadata := MetadataResult(old(intentMetadata), w.intentMetadata);
        && (metadata.Rejected? ==> r.Rejected?)
        && (metadata.Resolved? ==>
              r == ClassificationMessage(softmax, metadata.value.labels, inputText,
                                         TagEnv(Memo(old(use), w.encoder),
                                                Entry(TaggerAfter(old(taggers), TaggerName, w.tagger(TaggerName)), TaggerName),
                                                w.taggerMetadata(TaggerName)),
                                         w.weather, speaks))
      ensures var metadata := MetadataResult(old(intentMetadata), w.intentMetadata);
        if metadata.Resolved? && RouteOf(softmax, metadata.value.labels) == GetWeather
           && inputText.Some? && inputText.value != ""
        then use == Memo(old(use), w.encoder) && taggers == TaggerAfter(old(taggers), TaggerName, w.tagger(TaggerName))
        else use == old(use) && taggers == old(taggers)
      ensures intent == old(intent)
      ensures var metadata := MetadataResult(old(intentMetadata), w.intentMetadata);
        loads == old(loads) + MetadataLog(old(intentMetadata), w.intentMetadata) +
          if metadata.Resolved? && RouteOf(softmax, metadata.value.labels) == GetWeather
             && inputText.Some? && inputText.value != ""
          then LoadLog(old(use), UseCache, w.encoder) + TaggerLog(old(taggers), TaggerName, w.tagger(TaggerName))
          else []
    {
      var metadata := LoadIntentMetadata(w);
      if metadata.Rejected? {
        return Rejected;
      }
      var labels := metadata.value.labels;
      if RouteOf(softmax, labels) == GetWeather && inputText.Some? && inputText.value != "" {
        var encoder := LoadUse(w);
        var tagger := LoadTagger(TaggerName, w);
        var env := TagEnv(if encoder.Resolved? then Some(encoder.value) else None, tagger, w.taggerMetadata(TaggerName));
        r := ClassificationMessage(softmax, labels, inputText, env, w.weather, speaks);
      } else {
        r := ClassificationMessage(softmax, labels, inputText, TagEnv(None, None, None), w.weather, speaks);
      }
    }
  }
}
