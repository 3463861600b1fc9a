/** The voice-command parser topology: commands read from `voice-commands`
    are dropped when their audio is too short, transcribed by a speech-to-text
    service, split by recognition probability, and the recognized ones split
    again by language, non-English ones being translated before both language
    branches are merged into `recognized-commands`; unrecognized ones go to
    `unrecognized-commands` as transcribed.

    Two views of the same topology are given: `Route`, what happens to one
    record, lifted over a batch by `Process` (this is how the runtime executes
    it, one record at a time through the whole graph), and the DSL wiring,
    operator by operator (`Transcribed`, `ProbabilitySplit`, `LanguageSplit`,
    `TranslatedBranch`). The lemmas at the end show that the two agree. */
module VoiceCommandParser {
  import opened Wrappers
  import opened Streams

  type Byte = bv8

  /** An input command; only the length of `audio` is inspected here. */
  datatype VoiceCommand = VoiceCommand(id: string, audio: seq<Byte>, audioCode: string, language: string)

  /** The transcription result, field for field as the model class holds it;
      `probability` is a boxed double in the source, a real here. */
  datatype ParsedVoiceCommand = ParsedVoiceCommand(
    id: string, text: string, audioCode: string, language: string, probability: real)

  /** The two output topics, `recognized-commands` and `unrecognized-commands`. */
  datatype Topic = RecognizedCommands | UnrecognizedCommands

  /** The shortest audio payload, in bytes, that is transcribed at all. */
  const MinAudioLength: nat := 10

  /** The two external services, as the pure functions the topology sees. */
  datatype Services = Services(
    speechToText: VoiceCommand -> ParsedVoiceCommand,
    translate: ParsedVoiceCommand -> ParsedVoiceCommand)

  /** The constructor's arguments: the services and the certainty threshold. */
  datatype Topology = Topology(services: Services, certainThreshold: real)

  /** A call made to one of the external services, recorded so that what is
      never called can be stated. */
  datatype Call = SpeechToText(command: VoiceCommand) | Translate(parsed: ParsedVoiceCommand)

  /** A record written to an output topic. */
  datatype Emission<K> = Emission(topic: Topic, record: KeyValue<K, ParsedVoiceCommand>)

  /** What one input record leads to: at most one emission, and the service
      calls made on the way, in order. */
  datatype Routed<K> = Routed(emission: Option<Emission<K>>, calls: seq<Call>)

  /** The predicate of the input `filter`. */
  predicate LongEnough<K>(key: K, command: VoiceCommand) {
    |command.audio| >= MinAudioLength
  }

  /** The predicate of the probability branch: strictly above the threshold. */
  predicate IsRecognized(t: Topology, parsed: ParsedVoiceCommand) {
    parsed.probability > t.certainThreshold
  }

  function RecognizedPredicate<K>(t: Topology): (K, ParsedVoiceCommand) -> bool {
    (key: K, parsed: ParsedVoiceCommand) => IsRecognized(t, parsed)
  }

  /** The predicate of the language branch: `language.startsWith("en")`. */
  predicate IsEnglish<K>(key: K, parsed: ParsedVoiceCommand) {
    "en" <= parsed.language
  }

  /** One input record through the whole topology. */
  function Route<K>(t: Topology, event: KeyValue<K, VoiceCommand>): (r: Routed<K>)
    // Too-short audio: no output on any topic, and no service is called.
    ensures r.emission.None? <==> |event.value.audio| < MinAudioLength
    ensures r.emission.None? ==> r.calls == []
    // Otherwise exactly one output, under the input's key, on the recognized
    // topic exactly when the probability is strictly above the threshold.
    ensures r.emission.Some? ==> r.emission.value.record.key == event.key
    ensures r.emission.Some? ==>
      (r.emission.value.topic == RecognizedCommands <==>
       t.services.speechToText(event.value).probability > t.certainThreshold)
    // Unrecognized: the transcription, unchanged and untranslated.
    ensures r.emission.Some? && r.emission.value.topic == UnrecognizedCommands ==>
      r.emission.value.record.value == t.services.speechToText(event.value)
      && r.calls == [SpeechToText(event.value)]
    // Recognized English: the transcription, unchanged and untranslated.
    ensures (r.emission.Some? && r.emission.value.topic == RecognizedCommands
             && "en" <= t.services.speechToText(event.value).language) ==>
      r.emission.value.record.value == t.services.speechToText(event.value)
      && r.calls == [SpeechToText(event.value)]
    // Recognized non-English: the translation of the transcription.
    ensures (r.emission.Some? && r.emission.value.topic == RecognizedCommands
             && !("en" <= t.services.speechToText(event.value).language)) ==>
      r.emission.value.record.value == t.services.translate(t.services.speechToText(event.value))
      && r.calls == [SpeechToText(event.value), Translate(t.services.speechToText(event.value))]
  {
    var command := event.value;
    if !LongEnough(event.key, command) then Routed(None, [])
    else
      var parsed := t.services.speechToText(command);
      if !IsRecognized(t, parsed) then
        Routed(Some(Emission(UnrecognizedCommands, KeyValue(event.key, parsed))), [SpeechToText(command)])
      else if IsEnglish(event.key, parsed) then
        Routed(Some(Emission(RecognizedCommands, KeyValue(event.key, parsed))), [SpeechToText(command)])
      else
        var translated := t.services.translate(parsed);
        Routed(Some(Emission(RecognizedCommands, KeyValue(event.key, translated))),
               [SpeechToText(command), Translate(parsed)])
  }

  /** Everything a batch of input records leads to, in processing order. */
  datatype Batch<K> = Batch(emissions: seq<Emission<K>>, calls: seq<Call>)

  function Emitted<K>(r: Routed<K>): seq<Emission<K>> {
    match r.emission
    case Some(e) => [e]
    case None => []
  }

  /** `Route` lifted over a batch: each record is taken through the whole
      topology before the next one is read. */
  function Process<K>(t: Topology, events: seq<KeyValue<K, VoiceCommand>>): (r: Batch<K>)
    ensures |r.emissions| <= |events|
    // Every output was preceded by a speech-to-text call, and no record
    // costs more than two service calls.
    ensures |r.emissions| <= |r.calls| <= 2 * |events|
    decreases |events|
  {
    if |events| == 0 then Batch([], [])
    else
      var first := Route(t, events[0]);
      var rest := Process(t, events[1..]);
      Batch(Emitted(first) + rest.emissions, first.calls + rest.calls)
  }

  /** The records written to one topic, in order. */
  function Sink<K>(emissions: seq<Emission<K>>, topic: Topic): (r: seq<KeyValue<K, ParsedVoiceCommand>>)
    ensures |r| <= |emissions|
    // Only records addressed to this topic reach it.
    ensures forall i :: 0 <= i < |r| ==> Emission(topic, r[i]) in emissions
    decreases |emissions|
  {
    if |emissions| == 0 then []
    else (if emissions[0].topic == topic then [emissions[0].record] else []) + Sink(emissions[1..], topic)
  }

  /** The arguments of the speech-to-text calls, in order. */
  function TranscribedCommands(calls: seq<Call>): seq<VoiceCommand>
    decreases |calls|
  {
    if |calls| == 0 then []
    else (if calls[0].SpeechToText? then [calls[0].command] else []) + TranscribedCommands(calls[1..])
  }

  /** The arguments of the translate calls, in order. */
  function TranslatedCommands(calls: seq<Call>): seq<ParsedVoiceCommand>
    decreases |calls|
  {
    if |calls| == 0 then []
    else (if calls[0].Translate? then [calls[0].parsed] else []) + TranslatedCommands(calls[1..])
  }

  function Values<K, V>(s: seq<KeyValue<K, V>>): (r: seq<V>)
    ensures |r| == |s|
    ensures forall i :: 0 <= i < |s| ==> r[i] == s[i].value
    decreases |s|
  {
    if |s| == 0 then [] else [s[0].value] + Values(s[1..])
  }

  // ---------------------------------------------------------------------
  // The DSL wiring, operator by operator.

  /** `filter(audio.length >= 10).mapValues(speechToText)` */
  function Transcribed<K>(t: Topology, events: seq<KeyValue<K, VoiceCommand>>): (r: seq<KeyValue<K, ParsedVoiceCommand>>)
    // One transcription per input with enough audio, under its key.
    ensures |r| == |Filter(events, LongEnough)|
    ensures forall i :: 0 <= i < |r| ==>
      |Filter(events, LongEnough)[i].value.audio| >= MinAudioLength
      && r[i].key == Filter(events, LongEnough)[i].key
      && r[i].value == t.services.speechToText(Filter(events, LongEnough)[i].value)
  {
    MapValues(Filter(events, LongEnough), t.services.speechToText)
  }

  /** `split().branch(probability > threshold, "recognized").defaultBranch("unrecognized")` */
  function ProbabilitySplit<K>(t: Topology, events: seq<KeyValue<K, VoiceCommand>>): (r: Branches<K, ParsedVoiceCommand>)
    ensures forall i :: 0 <= i < |r.matched| ==> r.matched[i].value.probability > t.certainThreshold
    ensures forall i :: 0 <= i < |r.default| ==> r.default[i].value.probability <= t.certainThreshold
    ensures |r.matched| + |r.default| == |Transcribed(t, events)|
  {
    Split(Transcribed(t, events), RecognizedPredicate(t))
  }

  /** `split().branch(language.startsWith("en"), "english").defaultBranch("non-english")`
      applied to the recognized branch. */
  function LanguageSplit<K>(t: Topology, events: seq<KeyValue<K, VoiceCommand>>): (r: Branches<K, ParsedVoiceCommand>)
    ensures forall i :: 0 <= i < |r.matched| ==> "en" <= r.matched[i].value.language
    ensures forall i :: 0 <= i < |r.default| ==> !("en" <= r.default[i].value.language)
    ensures |r.matched| + |r.default| == |ProbabilitySplit(t, events).matched|
  {
    Split(ProbabilitySplit(t, events).matched, IsEnglish)
  }

  /** The non-English branch after `mapValues(translate)`. */
  function TranslatedBranch<K>(t: Topology, events: seq<KeyValue<K, VoiceCommand>>): (r: seq<KeyValue<K, ParsedVoiceCommand>>)
    // One translation per non-English record, under its key, in order.
    ensures |r| == |LanguageSplit(t, events).default|
    ensures forall i :: 0 <= i < |r| ==>
      r[i].key == LanguageSplit(t, events).default[i].key
      && r[i].value == t.services.translate(LanguageSplit(t, events).default[i].value)
  {
    MapValues(LanguageSplit(t, events).default, t.services.translate)
  }

  // ---------------------------------------------------------------------
  // The record-at-a-time view agrees with the wiring.

  /** The single-record pieces the DSL stages produce for `event`. */
  function TranscribedOne<K>(t: Topology, event: KeyValue<K, VoiceCommand>): seq<KeyValue<K, ParsedVoiceCommand>> {
    if LongEnough(event.key, event.value) then [KeyValue(event.key, t.services.speechToText(event.value))] else []
  }

  /** Every stage of the wiring, on `events`, is its result on the first
      record followed by its result on the others. */
  lemma {:induction false} WiringStepsRecordByRecord<K>(t: Topology, events: seq<KeyValue<K, VoiceCommand>>)
    requires |events| > 0
    ensures Transcribed(t, events) == TranscribedOne(t, events[0]) + Transcribed(t, events[1..])
    ensures ProbabilitySplit(t, events).matched
         == Filter(TranscribedOne(t, events[0]), RecognizedPredicate(t)) + ProbabilitySplit(t, events[1..]).matched
    ensures ProbabilitySplit(t, events).default
         == FilterNot(TranscribedOne(t, events[0]), RecognizedPredicate(t)) + ProbabilitySplit(t, events[1..]).default
    ensures LanguageSplit(t, events).matched
         == Filter(Filter(TranscribedOne(t, events[0]), RecognizedPredicate(t)), IsEnglish) + LanguageSplit(t, events[1..]).matched
    ensures TranslatedBranch(t, events)
         == MapValues(FilterNot(Filter(TranscribedOne(t, events[0]), RecognizedPredicate(t)), IsEnglish), t.services.translate)
            + TranslatedBranch(t, events[1..])
  {
    var head, rest := [events[0]], events[1..];
    var stt := t.services.speechToText;
    assert Filter(events, LongEnough) == Filter(head, LongEnough) + Filter(rest, LongEnough);
    MapValuesConcat(Filter(head, LongEnough), Filter(rest, LongEnough), stt);
    var one := TranscribedOne(t, events[0]);
    assert MapValues(Filter(head, LongEnough), stt) == one;
    FilterConcat(one, Transcribed(t, rest), RecognizedPredicate(t));
    FilterNotConcat(one, Transcribed(t, rest), RecognizedPredicate(t));
    var rec := Filter(one, RecognizedPredicate(t));
    FilterConcat(rec, ProbabilitySplit(t, rest).matched, IsEnglish);
    FilterNotConcat(rec, ProbabilitySplit(t, rest).matched, IsEnglish);
    MapValuesConcat(FilterNot(rec, IsEnglish), LanguageSplit(t, rest).default, t.services.translate);
  }

  /** Per-topic outputs distribute over the batch. */
  lemma {:induction false} SinkConcat<K>(a: seq<Emission<K>>, b: seq<Emission<K>>, topic: Topic)
    ensures Sink(a + b, topic) == Sink(a, topic) + Sink(b, topic)
    decreases |a|
  {
    if |a| > 0 {
      assert (a + b)[1..] == a[1..] + b;
      SinkConcat(a[1..], b, topic);
    } else {
      assert a + b == b;
    }
  }

  /** On a single record, each output topic receives what the corresponding
      stage of the wiring produces for it. */
  lemma RouteSinksMatchWiring<K>(t: Topology, event: KeyValue<K, VoiceCommand>)
    ensures Sink(Emitted(Route(t, event)), UnrecognizedCommands)
         == FilterNot(TranscribedOne(t, event), RecognizedPredicate(t))
    ensures Sink(Emitted(Route(t, event)), RecognizedCommands)
         == Filter(Filter(TranscribedOne(t, event), RecognizedPredicate(t)), IsEnglish)
            + MapValues(FilterNot(Filter(TranscribedOne(t, event), RecognizedPredicate(t)), IsEnglish), t.services.translate)
  {
    var one := TranscribedOne(t, event);
    if LongEnough(event.key, event.value) {
      var x := KeyValue(event.key, t.services.speechToText(event.value));
      assert one == [x];
    }
  }

  /** On a single record, speech-to-text is called on the command iff its
      audio is long enough, and translate on the transcription iff the
      transcription lands in the non-English recognized branch. */
  lemma RouteCallsMatchWiring<K>(t: Topology, event: KeyValue<K, VoiceCommand>)
    ensures TranscribedCommands(Route(t, event).calls) == Values(Filter([event], LongEnough))
    ensures TranslatedCommands(Route(t, event).calls)
         == Values(FilterNot(Filter(TranscribedOne(t, event), RecognizedPredicate(t)), IsEnglish))
  {
    var one := TranscribedOne(t, event);
    if !LongEnough(event.key, event.value) {
      assert one == [];
    } else {
      var parsed := t.services.speechToText(event.value);
      var x := KeyValue(event.key, parsed);
      assert one == [x];
      assert Filter([event], LongEnough) == [event];
      var calls := Route(t, event).calls;
      if !IsRecognized(t, parsed) {
        assert Filter(one, RecognizedPredicate(t)) == [];
        assert calls == [SpeechToText(event.value)];
      } else {
        assert Filter(one, RecognizedPredicate(t)) == [x];
        if IsEnglish(event.key, parsed) {
          assert calls == [SpeechToText(event.value)];
          assert FilterNot(one, IsEnglish) == [];
        } else {
          assert calls == [SpeechToText(event.value), Translate(parsed)];
          assert calls[1..] == [Translate(parsed)];
          assert TranscribedCommands(calls[1..]) == [];
          assert TranslatedCommands(calls[1..]) == [parsed];
          assert FilterNot(one, IsEnglish) == [x];
        }
      }
    }
  }

  /** `unrecognized-commands` receives exactly the default branch of the
      probability split, in arrival order. */
  lemma {:induction false} UnrecognizedSinkIsDefaultBranch<K>(t: Topology, events: seq<KeyValue<K, VoiceCommand>>)
    ensures Sink(Process(t, events).emissions, UnrecognizedCommands) == ProbabilitySplit(t, events).default
    decreases |events|
  {
    if |events| > 0 {
      UnrecognizedSinkIsDefaultBranch(t, events[1..]);
      WiringStepsRecordByRecord(t, events);
      RouteSinksMatchWiring(t, events[0]);
      SinkConcat(Emitted(Route(t, events[0])), Process(t, events[1..]).emissions, UnrecognizedCommands);
    }
  }

  /** `recognized-commands` receives an interleaving of the translated
      non-English branch and the English branch: each in its own order, both
      complete, nothing else. */
  lemma {:induction false} RecognizedSinkMergesBranches<K>(t: Topology, events: seq<KeyValue<K, VoiceCommand>>)
    ensures Interleaving(Sink(Process(t, events).emissions, RecognizedCommands),
                         TranslatedBranch(t, events), LanguageSplit(t, events).matched)
    decreases |events|
  {
    if |events| > 0 {
      var rest := events[1..];
      var r := Sink(Process(t, rest).emissions, RecognizedCommands);
      var a, b := TranslatedBranch(t, rest), LanguageSplit(t, rest).matched;
      RecognizedSinkMergesBranches(t, rest);
      WiringStepsRecordByRecord(t, events);
      RouteSinksMatchWiring(t, events[0]);
      SinkConcat(Emitted(Route(t, events[0])), Process(t, rest).emissions, RecognizedCommands);
      var rec := Filter(TranscribedOne(t, events[0]), RecognizedPredicate(t));
      var english := Filter(rec, IsEnglish);
      var translated := MapValues(FilterNot(rec, IsEnglish), t.services.translate);
      assert |rec| <= |TranscribedOne(t, events[0])| <= 1;
      assert |english| + |translated| <= 1 by {
        SplitLength(rec, IsEnglish);
      }
      InterleavingPrependOne(translated, english, r, a, b);
    }
  }

  /** Whatever the merge order, each record occurs on `recognized-commands`
      as often as in the English branch and the translated non-English
      branch together. */
  lemma RecognizedOutputOccurrences<K>(t: Topology, events: seq<KeyValue<K, VoiceCommand>>,
                                       x: KeyValue<K, ParsedVoiceCommand>)
    ensures Occurrences(Sink(Process(t, events).emissions, RecognizedCommands), x)
         == Occurrences(LanguageSplit(t, events).matched, x) + Occurrences(TranslatedBranch(t, events), x)
  {
    RecognizedSinkMergesBranches(t, events);
    InterleavingOccurrences(Sink(Process(t, events).emissions, RecognizedCommands),
                            TranslatedBranch(t, events), LanguageSplit(t, events).matched, x);
  }

  /** Over a batch, the outputs are the filtered inputs one for one: same
      number, same keys, same order, each the routing of its input. */
  lemma {:induction false} OutputsFollowFilteredInput<K>(t: Topology, events: seq<KeyValue<K, VoiceCommand>>)
    ensures |Process(t, events).emissions| == |Filter(events, LongEnough)|
    ensures forall i :: 0 <= i < |Process(t, events).emissions| ==>
      Process(t, events).emissions[i].record.key == Filter(events, LongEnough)[i].key
      && Route(t, Filter(events, LongEnough)[i]).emission == Some(Process(t, events).emissions[i])
    decreases |events|
  {
    if |events| > 0 {
      OutputsFollowFilteredInput(t, events[1..]);
    }
  }

  /** Each output topic receives one record per input routed to it; together
      the two topics receive one record per input whose audio is long enough. */
  lemma OutputCount<K>(t: Topology, events: seq<KeyValue<K, VoiceCommand>>)
    ensures |Sink(Process(t, events).emissions, RecognizedCommands)|
          + |Sink(Process(t, events).emissions, UnrecognizedCommands)|
         == |Filter(events, LongEnough)|
  {
    UnrecognizedSinkIsDefaultBranch(t, events);
    RecognizedSinkMergesBranches(t, events);
    InterleavingMultiset(Sink(Process(t, events).emissions, RecognizedCommands),
                         TranslatedBranch(t, events), LanguageSplit(t, events).matched);
    var transcribed := Transcribed(t, events);
    var recognized := ProbabilitySplit(t, events).matched;
    assert |LanguageSplit(t, events).matched| + |LanguageSplit(t, events).default| == |recognized|;
    assert |recognized| + |ProbabilitySplit(t, events).default| == |transcribed|;
  }

  /** Speech-to-text is called once for each input whose audio is long
      enough, in order, and for no other input. */
  lemma {:induction false} SpeechToTextCalls<K>(t: Topology, events: seq<KeyValue<K, VoiceCommand>>)
    ensures TranscribedCommands(Process(t, events).calls) == Values(Filter(events, LongEnough))
    decreases |events|
  {
    if |events| > 0 {
      var head, rest := [events[0]], events[1..];
      SpeechToTextCalls(t, rest);
      RouteCallsMatchWiring(t, events[0]);
      var first := Route(t, events[0]).calls;
      assert Process(t, events).calls == first + Process(t, rest).calls;
      TranscribedCommandsConcat(first, Process(t, rest).calls);
      assert events == head + rest;
      FilterConcat(head, rest, LongEnough);
      ValuesConcat(Filter(head, LongEnough), Filter(rest, LongEnough));
    }
  }

  /** Translate is called exactly on the values of the non-English branch of
      the recognized commands, in order: never on an unrecognized command,
      never on an English one, never on a dropped one. */
  lemma {:induction false} TranslateCalls<K>(t: Topology, events: seq<KeyValue<K, VoiceCommand>>)
    ensures TranslatedCommands(Process(t, events).calls) == Values(LanguageSplit(t, events).default)
    decreases |events|
  {
    if |events| > 0 {
      TranslateCalls(t, events[1..]);
      WiringStepsRecordByRecord(t, events);
      RouteCallsMatchWiring(t, events[0]);
      TranslatedCommandsConcat(Route(t, events[0]).calls, Process(t, events[1..]).calls);
      var rec := Filter(TranscribedOne(t, events[0]), RecognizedPredicate(t));
      FilterNotConcat(rec, ProbabilitySplit(t, events[1..]).matched, IsEnglish);
      ValuesConcat(FilterNot(rec, IsEnglish), LanguageSplit(t, events[1..]).default);
    }
  }

  lemma {:induction false} TranscribedCommandsConcat(a: seq<Call>, b: seq<Call>)
    ensures TranscribedCommands(a + b) == TranscribedCommands(a) + TranscribedCommands(b)
    decreases |a|
  {
    if |a| > 0 {
      assert (a + b)[1..] == a[1..] + b;
      TranscribedCommandsConcat(a[1..], b);
    } else {
      assert a + b == b;
    }
  }

  lemma {:induction false} TranslatedCommandsConcat(a: seq<Call>, b: seq<Call>)
    ensures TranslatedCommands(a + b) == TranslatedCommands(a) + TranslatedCommands(b)
    decreases |a|
  {
    if |a| > 0 {
      assert (a + b)[1..] == a[1..] + b;
      TranslatedCommandsConcat(a[1..], b);
    } else {
      assert a + b == b;
    }
  }

  lemma ValuesConcat<K, V>(a: seq<KeyValue<K, V>>, b: seq<KeyValue<K, V>>)
    ensures Values(a + b) == Values(a) + Values(b)
  {
  }
}
