/**
 * `getClassificationMessage(softmaxArr, inputText)` once the intent labels
 * and the tagging models are at hand: threshold the best intent score,
 * then route on the label at the first index of the maximum.
 */
module Dispatch {
  import opened Js
  import opened SequenceTagger
  import opened Slots
  import opened Weather

  const Threshold: real := 0.9

  const Shrug: string := "\U{00AF}\\_(\U{30C4})_/\U{00AF}"
  const WeatherGlyph: string := "\U{26C5}"
  const MusicReply: string := "\U{1F3B5}\U{1F3BA}\U{1F3B5}"
  const Puzzled: string := "?"

  /** The best score is under the threshold; the maximum of no scores is minus infinity, which is under. */
  predicate BelowThreshold(max: Extended) {
    max.NegativeInfinity? || max.value < Threshold
  }

  /**
   * The intent label at the first index of the best score: there is one
   * exactly when there are scores and `labels` reaches that index, and it is
   * the label at the position that holds the maximum with no earlier score
   * equal to it.
   */
  function IntentLabel(softmax: seq<real>, labels: seq<string>): (name: Option<string>)
    ensures name.Some? <==> 0 < |softmax| && FirstMaxIndex(softmax) < |labels|
    ensures forall k :: 0 <= k < |softmax| && k < |labels|
                        && (forall j :: 0 <= j < |softmax| ==> softmax[j] <= softmax[k])
                        && (forall j :: 0 <= j < k ==> softmax[j] < softmax[k])
                        ==> name == Some(labels[k])
  {
    forall k | 0 <= k < |softmax| && (forall j :: 0 <= j < |softmax| ==> softmax[j] <= softmax[k])
                                  && (forall j :: 0 <= j < k ==> softmax[j] < softmax[k])
      ensures FirstMaxIndex(softmax) == k
    {
      FirstMaxIndexIs(softmax, k);
    }
    At(labels, FirstMaxIndex(softmax))
  }

  datatype Route = Unrecognized | GetWeather | PlayMusic | Other

  /** Which branch of `getClassificationMessage` a classification takes. */
  function RouteOf(softmax: seq<real>, labels: seq<string>): (route: Route)
    ensures route == Unrecognized <==> BelowThreshold(Max(softmax))
    ensures route == GetWeather <==>
      !BelowThreshold(Max(softmax)) && IntentLabel(softmax, labels) == Some("GetWeather")
    ensures route == PlayMusic <==>
      !BelowThreshold(Max(softmax)) && IntentLabel(softmax, labels) == Some("PlayMusic")
  {
    if BelowThreshold(Max(softmax)) then Unrecognized
    else
      match IntentLabel(softmax, labels)
      case Some("GetWeather") => GetWeather
      case Some("PlayMusic") => PlayMusic
      case _ => Other
  }

  /**
   * One turn's reply with the side effects it had on the outside world: the
   * weather searches made (by query) and the text spoken aloud.
   */
  datatype Turn = Turn(reply: string, searches: seq<string>, spoken: seq<string>)

  /**
   * The `GetWeather` branch, given what `tagMessage` settled with; `speaks`
   * says whether the deployment reads the weather message aloud.
   */
  function WeatherReply(location: Option<Promise<string>>, service: WeatherService, speaks: bool): (r: Promise<Turn>)
    ensures location.None? || location.value.Rejected? ==> r.Rejected?
    ensures location.Some? && location.value.Resolved? && Trim(location.value.value) == "" ==>
      r == Resolved(Turn(WeatherGlyph, [], []))
    ensures location.Some? && location.value.Resolved? && Trim(location.value.value) != "" ==>
      var message := WeatherMessage(location.value.value, service);
      && (r.Resolved? <==> message.Resolved?)
      && (r.Resolved? ==>
            r.value == Turn(WeatherGlyph + " " + message.value, [Trim(location.value.value)],
                            if speaks then [message.value] else []))
  {
    if location.None? then Rejected  // trimming the undefined location throws
    else if location.value.Rejected? then Rejected
    else
      var place := location.value.value;
      if Trim(place) == "" then Resolved(Turn(WeatherGlyph, [], []))
      else
        match WeatherMessage(place, service)
        case Rejected => Rejected
        case Resolved(message) =>
          Resolved(Turn(WeatherGlyph + " " + message, [Trim(place)], if speaks then [message] else []))
  }

  /** `getClassificationMessage(softmaxArr, inputText)` with the intent `labels` loaded. */
  function ClassificationMessage(softmax: seq<real>, labels: seq<string>, inputText: Option<string>,
                                 env: TagEnv, service: WeatherService, speaks: bool): (r: Promise<Turn>)
    ensures BelowThreshold(Max(softmax)) ==> r == Resolved(Turn(Shrug, [], []))
    ensures RouteOf(softmax, labels) == PlayMusic ==> r == Resolved(Turn(MusicReply, [], []))
    ensures RouteOf(softmax, labels) == Other ==> r == Resolved(Turn(Puzzled, [], []))
    ensures RouteOf(softmax, labels) == GetWeather ==>
      r == WeatherReply(TagMessage(inputText, env), service, speaks)
  {
    match RouteOf(softmax, labels)
    case Unrecognized => Resolved(Turn(Shrug, [], []))
    case GetWeather => WeatherReply(TagMessage(inputText, env), service, speaks)
    case PlayMusic => Resolved(Turn(MusicReply, [], []))
    case Other => Resolved(Turn(Puzzled, [], []))
  }

  /** The shrug is the reply exactly when the best score is below the threshold. */
  lemma ShrugExactlyBelowThreshold(softmax: seq<real>, labels: seq<string>, inputText: Option<string>,
                                   env: TagEnv, service: WeatherService, speaks: bool)
    ensures var r := ClassificationMessage(softmax, labels, inputText, env, service, speaks);
      r.Resolved? && r.value.reply == Shrug <==> BelowThreshold(Max(softmax))
  {
    var r := ClassificationMessage(softmax, labels, inputText, env, service, speaks);
    if r.Resolved? && RouteOf(softmax, labels) == GetWeather && r.value.reply != WeatherGlyph {
      assert r.value.reply[0] == WeatherGlyph[0];
    }
  }

  /** Every reply is one of the five the source can produce. */
  lemma ReplyIsOneOfFive(softmax: seq<real>, labels: seq<string>, inputText: Option<string>,
                         env: TagEnv, service: WeatherService, speaks: bool)
    ensures var r := ClassificationMessage(softmax, labels, inputText, env, service, speaks);
      r.Resolved? ==>
        || r.value.reply in {Shrug, MusicReply, Puzzled, WeatherGlyph}
        || r.value.reply[..|WeatherGlyph + " "|] == WeatherGlyph + " "
  {
  }

  /** The weather service is consulted only for a confident `GetWeather` with a non-blank location. */
  lemma SearchOnlyForWeather(softmax: seq<real>, labels: seq<string>, inputText: Option<string>,
                             env: TagEnv, service: WeatherService, speaks: bool)
    ensures var r := ClassificationMessage(softmax, labels, inputText, env, service, speaks);
      r.Resolved? && r.value.searches != [] ==>
        && RouteOf(softmax, labels) == GetWeather
        && var location := TagMessage(inputText, env);
           location.Some? && location.value.Resolved? && r.value.searches == [Trim(location.value.value)] != [""]
    ensures var r := ClassificationMessage(softmax, labels, inputText, env, service, speaks);
      r.Resolved? && !speaks ==> r.value.spoken == []
  {
  }

  /**
   * A confident `GetWeather` whose tagging gives no row a maximum at index 1
   * replies with the bare weather glyph and searches nothing.
   */
  lemma NoLocationNoSearch(softmax: seq<real>, labels: seq<string>, sentence: string,
                           encoder: Encoder, tagger: TaggerModel, metadata: TaggerMetadata,
                           service: WeatherService, speaks: bool)
    requires RouteOf(softmax, labels) == GetWeather && sentence != ""
    requires var t := Tagging(encoder, tagger, metadata, sentence);
      forall i :: 0 <= i < |t.tokenScores| ==> FirstMaxIndex(t.tokenScores[i]) != LocationIndex
    ensures ClassificationMessage(softmax, labels, Some(sentence),
                                  TagEnv(Some(encoder), Some(tagger), Some(metadata)), service, speaks)
            == Resolved(Turn(WeatherGlyph, [], []))
  {
    LocationBlank(Tagging(encoder, tagger, metadata, sentence));
  }

  /**
   * A confident `GetWeather` whose tagging puts exactly one row's maximum at
   * index 1 searches the weather service for that row's trimmed token.
   */
  lemma SearchKeyedOnLocationToken(softmax: seq<real>, labels: seq<string>, sentence: string,
                                   encoder: Encoder, tagger: TaggerModel, metadata: TaggerMetadata,
                                   service: WeatherService, speaks: bool, k: nat, token: string)
    requires RouteOf(softmax, labels) == GetWeather && sentence != ""
    requires OneLocationRow(Tagging(encoder, tagger, metadata, sentence), k, token)
    requires Trim(token) != ""
    ensures var r := ClassificationMessage(softmax, labels, Some(sentence),
                                           TagEnv(Some(encoder), Some(tagger), Some(metadata)), service, speaks);
      r.Resolved? ==> r.value.searches == [Trim(token)] && r.value.reply[..|WeatherGlyph + " "|] == WeatherGlyph + " "
  {
    var t := Tagging(encoder, tagger, metadata, sentence);
    var env := TagEnv(Some(encoder), Some(tagger), Some(metadata));
    var location := Location(t);
    assert Trim(location) == Trim(token) by {
      SingleLocationToken(t, k, token);
    }
    var r := ClassificationMessage(softmax, labels, Some(sentence), env, service, speaks);
    assert r == WeatherReply(Some(Resolved(location)), service, speaks) by {
      LocationOfLoadedTagger(softmax, labels, sentence, encoder, tagger, metadata, service, speaks);
    }
    WeatherSearch(location, service, speaks);
  }

  /** With every model loaded, a confident `GetWeather` replies from the tagged location. */
  lemma LocationOfLoadedTagger(softmax: seq<real>, labels: seq<string>, sentence: string,
                               encoder: Encoder, tagger: TaggerModel, metadata: TaggerMetadata,
                               service: WeatherService, speaks: bool)
    requires RouteOf(softmax, labels) == GetWeather && sentence != ""
    ensures ClassificationMessage(softmax, labels, Some(sentence),
                                  TagEnv(Some(encoder), Some(tagger), Some(metadata)), service, speaks)
            == WeatherReply(Some(Resolved(Location(Tagging(encoder, tagger, metadata, sentence)))), service, speaks)
  {
  }

  /** A non-blank location is searched for once, trimmed, and the reply starts with the glyph. */
  lemma WeatherSearch(location: string, service: WeatherService, speaks: bool)
    requires Trim(location) != ""
    ensures var r := WeatherReply(Some(Resolved(location)), service, speaks);
      r.Resolved? ==> r.value.searches == [Trim(location)] && r.value.reply[..|WeatherGlyph + " "|] == WeatherGlyph + " "
  {
    var r := WeatherReply(Some(Resolved(location)), service, speaks);
    if r.Resolved? {
      WeatherPrefix(WeatherMessage(location, service).value);
    }
  }

  /** A weather reply with a message begins with the glyph and a space. */
  lemma WeatherPrefix(message: string)
    ensures (WeatherGlyph + " " + message)[..|WeatherGlyph + " "|] == WeatherGlyph + " "
  {
  }
}
