# Kafka Streams routing and aggregation, modelled in Dafny

This project models two small Kafka Streams topologies and proves properties of them.

- **Voice-command parser.** Commands on `voice-commands` whose audio is shorter than 10 bytes are dropped.
  The rest are transcribed by a speech-to-text service.
  A transcription whose probability is strictly above the topology's certainty threshold is "recognized".
  Every other transcription goes unchanged to `unrecognized-commands`.
  Recognized commands are split again by `language.startsWith("en")`.
  Non-English ones are translated; both language branches are then merged into `recognized-commands`.
- **Bank balances.** Transactions on `bank-transactions` are grouped by key.
  They are folded into one balance per key, kept in a state store (`groupByKey().aggregate(BankBalance::new, process)`).
  The aggregate's updates are written to `bank-balances`; the model forwards every update, one per transaction.
  The latest transaction of each forwarded balance also goes to `rejected-transactions` when that transaction's state is `REJECTED`.
- **Balance query.** `getBankBalanceById` is a point lookup in the balance store.

Both topologies are pure functions over a finite slice of one partition, given as `seq<KeyValue<K, V>>`.

- `streams.dfy` (`Streams`): the DSL operators the topologies use.
  These are `filter`, the default branch of `split`, `mapValues`, a one-predicate `split().branch().defaultBranch()`, and `merge`.
  `merge` promises only an interleaving of its inputs (`Interleaving`), so its outputs are stated through occurrence counts (`Occurrences`, which agrees with the multiset view).
- `voice_command_parser.dfy` (`VoiceCommandParser`) gives the topology twice:
  - `Route`, one record through the whole graph, lifted over a batch by `Process`;
  - the operator-by-operator wiring (`Transcribed`, `ProbabilitySplit`, `LanguageSplit`, `TranslatedBranch`).

  Lemmas prove that the two agree.
  The external services are function parameters (`Services`).
  Each record's service calls are recorded (`Call`), so "never called" is a provable statement.
- `bank_balance_topology.dfy` (`BankBalanceTopology`) has `Aggregate` for one step and `Run` for the fold over a batch.
  The store is a `map<K, B>`.
  The balance class's constructor, `process`, `getLatestTransaction` and the transaction's `getState` are uninterpreted fields of an `Aggregator`.
  `ProcessBatch` is the same run written as a loop.
- `bank_balance_service.dfy` (`BankBalanceService`): the query.
- `wrappers.dfy` (`Wrappers`): `Option` and map lookup.

`VoiceCommandParserTopology.java:46` compares with `>`, so a probability equal to the threshold is unrecognized.

## Model

| member | source | states |
|---|---|---|
| `Streams.Filter` | kafka-streams-zero-to-hero/kafka-streams-voice-command-parser/src/main/java/org/kafkastreams/course/VoiceCommandParserTopology.java:41 | `filter` keeps only records satisfying the predicate and never adds records; with `FilterNot`, `SplitPartition` accounts for every record |
| `Streams.FilterNot` | kafka-streams-zero-to-hero/kafka-streams-voice-command-parser/src/main/java/org/kafkastreams/course/VoiceCommandParserTopology.java:47 | the default branch holds only records the branch predicate rejects |
| `Streams.MapValues` | kafka-streams-zero-to-hero/kafka-streams-voice-command-parser/src/main/java/org/kafkastreams/course/VoiceCommandParserTopology.java:43 | `mapValues` keeps record count, order and every key; each value becomes `f` of the old value |
| `Streams.Split` | kafka-streams-zero-to-hero/kafka-streams-voice-command-parser/src/main/java/org/kafkastreams/course/VoiceCommandParserTopology.java:45-47 | the named branch holds only records satisfying the predicate, the default branch only the others, and their sizes add up to the input's |
| `Streams.SplitPartition` | kafka-streams-zero-to-hero/kafka-streams-voice-command-parser/src/main/java/org/kafkastreams/course/VoiceCommandParserTopology.java:52-58 | the two branches of a split partition the input: every record occurs in the two branches together exactly as often as in the input |
| `Streams.SplitLength` | kafka-streams-zero-to-hero/kafka-streams-voice-command-parser/src/main/java/org/kafkastreams/course/VoiceCommandParserTopology.java:52-58 | the two branches of a split hold, between them, exactly as many records as the input |
| `Streams.OccurrencesIsMultiplicity` | kafka-streams-zero-to-hero/kafka-streams-voice-command-parser/src/main/java/org/kafkastreams/course/VoiceCommandParserTopology.java:52-66 | counting occurrences record by record agrees with the multiset view of a stream |
| `Streams.InterleavingOccurrences` | kafka-streams-zero-to-hero/kafka-streams-voice-command-parser/src/main/java/org/kafkastreams/course/VoiceCommandParserTopology.java:64 | in any interleaving of two streams each record occurs as often as in the two inputs together |
| `Streams.FilterConcat` | kafka-streams-zero-to-hero/bank-transactions/src/main/java/com/github/programmingwithmati/topology/BankBalanceTopology.java:40 | `filter` is stateless: on a concatenation it gives the concatenation of its results |
| `Streams.MapValuesConcat` | kafka-streams-zero-to-hero/bank-transactions/src/main/java/com/github/programmingwithmati/topology/BankBalanceTopology.java:39 | `mapValues` is stateless: on a concatenation it gives the concatenation of its results |
| `Streams.InterleavingMultiset` | kafka-streams-zero-to-hero/kafka-streams-voice-command-parser/src/main/java/org/kafkastreams/course/VoiceCommandParserTopology.java:64 | any interleaving of two streams holds exactly the union of their records as a multiset |
| `Streams.Merge` | kafka-streams-zero-to-hero/kafka-streams-voice-command-parser/src/main/java/org/kafkastreams/course/VoiceCommandParserTopology.java:64 | one admissible `merge` output: an interleaving of its inputs, each input's order kept, multiset equal to their union |
| `VoiceCommandParser.Route` | kafka-streams-zero-to-hero/kafka-streams-voice-command-parser/src/main/java/org/kafkastreams/course/VoiceCommandParserTopology.java:40-66 | audio < 10 bytes: no output, no service call; otherwise exactly one output under the input key, see the lines below |
| `VoiceCommandParser.Process` | kafka-streams-zero-to-hero/kafka-streams-voice-command-parser/src/main/java/org/kafkastreams/course/VoiceCommandParserTopology.java:40-66 | `Route` lifted over a batch, record after record: at most one output per input, every output preceded by a speech-to-text call, at most two service calls per input |
| `VoiceCommandParser.Sink` | kafka-streams-zero-to-hero/kafka-streams-voice-command-parser/src/main/java/org/kafkastreams/course/VoiceCommandParserTopology.java:49-50 | `.to(topic)`: the records written to one topic, in order; only records addressed to that topic, never more than were emitted |
| `VoiceCommandParser.Transcribed` | kafka-streams-zero-to-hero/kafka-streams-voice-command-parser/src/main/java/org/kafkastreams/course/VoiceCommandParserTopology.java:40-43 | one transcription per input with audio >= 10 bytes, same order, same key, value the speech-to-text result of that input |
| `VoiceCommandParser.ProbabilitySplit` | kafka-streams-zero-to-hero/kafka-streams-voice-command-parser/src/main/java/org/kafkastreams/course/VoiceCommandParserTopology.java:45-47 | recognized branch: probability > threshold; unrecognized branch: probability <= threshold; together as many records as were transcribed |
| `VoiceCommandParser.LanguageSplit` | kafka-streams-zero-to-hero/kafka-streams-voice-command-parser/src/main/java/org/kafkastreams/course/VoiceCommandParserTopology.java:52-58 | english branch: language starts with "en"; non-english branch: it does not; together as many records as the recognized branch |
| `VoiceCommandParser.TranslatedBranch` | kafka-streams-zero-to-hero/kafka-streams-voice-command-parser/src/main/java/org/kafkastreams/course/VoiceCommandParserTopology.java:60-62 | one translation per non-English record, same order, same key, value the translate result of that record |
| `VoiceCommandParser.RouteSinksMatchWiring` | kafka-streams-zero-to-hero/kafka-streams-voice-command-parser/src/main/java/org/kafkastreams/course/VoiceCommandParserTopology.java:40-66 | per record, each output topic gets exactly what the corresponding DSL stage yields |
| `VoiceCommandParser.RouteCallsMatchWiring` | kafka-streams-zero-to-hero/kafka-streams-voice-command-parser/src/main/java/org/kafkastreams/course/VoiceCommandParserTopology.java:42-62 | per record, speech-to-text is called iff the audio passes the size filter, and translate iff the transcription is recognized and not English |
| `VoiceCommandParser.WiringStepsRecordByRecord` | kafka-streams-zero-to-hero/kafka-streams-voice-command-parser/src/main/java/org/kafkastreams/course/VoiceCommandParserTopology.java:40-62 | each stage of the wiring on a batch is its result on the first record followed by its result on the rest |
| `VoiceCommandParser.UnrecognizedSinkIsDefaultBranch` | kafka-streams-zero-to-hero/kafka-streams-voice-command-parser/src/main/java/org/kafkastreams/course/VoiceCommandParserTopology.java:45-50 | `unrecognized-commands` gets exactly the transcriptions with probability <= threshold, unchanged, in arrival order |
| `VoiceCommandParser.RecognizedSinkMergesBranches` | kafka-streams-zero-to-hero/kafka-streams-voice-command-parser/src/main/java/org/kafkastreams/course/VoiceCommandParserTopology.java:52-66 | `recognized-commands` interleaves the translated non-English branch with the English branch, each complete and in order |
| `VoiceCommandParser.RecognizedOutputOccurrences` | kafka-streams-zero-to-hero/kafka-streams-voice-command-parser/src/main/java/org/kafkastreams/course/VoiceCommandParserTopology.java:60-66 | each record occurs on `recognized-commands` as often as in the English branch and the translated non-English branch together |
| `VoiceCommandParser.OutputsFollowFilteredInput` | kafka-streams-zero-to-hero/kafka-streams-voice-command-parser/src/main/java/org/kafkastreams/course/VoiceCommandParserTopology.java:40-43 | one output per input with audio >= 10 bytes, same order; each keeps its input's key and is that input's routing |
| `VoiceCommandParser.OutputCount` | kafka-streams-zero-to-hero/kafka-streams-voice-command-parser/src/main/java/org/kafkastreams/course/VoiceCommandParserTopology.java:41-66 | the two output topics together receive as many records as there are inputs with audio >= 10 bytes |
| `VoiceCommandParser.SpeechToTextCalls` | kafka-streams-zero-to-hero/kafka-streams-voice-command-parser/src/main/java/org/kafkastreams/course/VoiceCommandParserTopology.java:41-43 | speech-to-text is called exactly once per input with audio >= 10 bytes, in order, and never on a dropped one |
| `VoiceCommandParser.TranslateCalls` | kafka-streams-zero-to-hero/kafka-streams-voice-command-parser/src/main/java/org/kafkastreams/course/VoiceCommandParserTopology.java:56-62 | translate is called exactly on the recognized non-English transcriptions, in order, never on unrecognized or English ones |
| `BankBalanceTopology.Aggregate` | kafka-streams-zero-to-hero/bank-transactions/src/main/java/com/github/programmingwithmati/topology/BankBalanceTopology.java:27-41 | store[k] := process(stored or new balance, tx); other entries untouched; one balance record with the stored value; a rejected record iff the latest tx is REJECTED |
| `BankBalanceTopology.Current` | kafka-streams-zero-to-hero/bank-transactions/src/main/java/com/github/programmingwithmati/topology/BankBalanceTopology.java:29-30 | the balance a transaction is applied to: the stored one when the key has an entry, otherwise `new BankBalance()` |
| `BankBalanceTopology.Fold` | kafka-streams-zero-to-hero/bank-transactions/src/main/java/com/github/programmingwithmati/topology/BankBalanceTopology.java:28-30 | the per-key left fold of `process` from a starting balance, head first; its contract is stated by `FoldSnoc` |
| `BankBalanceTopology.FoldSnoc` | kafka-streams-zero-to-hero/bank-transactions/src/main/java/com/github/programmingwithmati/topology/BankBalanceTopology.java:28-30 | applying the fold head first equals applying each transaction to the balance so far as records arrive: the last one goes onto the fold of the others |
| `BankBalanceTopology.Run` | kafka-streams-zero-to-hero/bank-transactions/src/main/java/com/github/programmingwithmati/topology/BankBalanceTopology.java:27-41 | one balance record per transaction under its key; never more rejected records than balance records |
| `BankBalanceTopology.RunKeys` | kafka-streams-zero-to-hero/bank-transactions/src/main/java/com/github/programmingwithmati/topology/BankBalanceTopology.java:28-31 | after a batch the store's keys are the old keys plus the batch's keys: created on first event, never removed |
| `BankBalanceTopology.Materialize` | kafka-streams-zero-to-hero/bank-transactions/src/main/java/com/github/programmingwithmati/topology/BankBalanceTopology.java:29-30 | a key's entry stays absent exactly until its first transaction arrives |
| `BankBalanceTopology.MaterializeSnoc` | kafka-streams-zero-to-hero/bank-transactions/src/main/java/com/github/programmingwithmati/topology/BankBalanceTopology.java:29-30 | one more transaction moves a key's entry one `process` step on, from the zero value if absent |
| `BankBalanceTopology.RunPerKey` | kafka-streams-zero-to-hero/bank-transactions/src/main/java/com/github/programmingwithmati/topology/BankBalanceTopology.java:28-31 | each key's final entry is its old entry advanced by its own transactions in arrival order, and by nothing else |
| `BankBalanceTopology.RunFrame` | kafka-streams-zero-to-hero/bank-transactions/src/main/java/com/github/programmingwithmati/topology/BankBalanceTopology.java:28 | a key with no transaction in the batch keeps its entry, absent or present |
| `BankBalanceTopology.ReplayFromEmpty` | kafka-streams-zero-to-hero/bank-transactions/src/main/java/com/github/programmingwithmati/topology/BankBalanceTopology.java:29-30 | replayed into an empty store, a key has an entry iff it occurs; that entry is the left fold of `process` from `new BankBalance()` |
| `BankBalanceTopology.ReplayDeterminism` | kafka-streams-zero-to-hero/bank-transactions/src/main/java/com/github/programmingwithmati/topology/BankBalanceTopology.java:28-31 | two batches with the same per-key transaction sequences give the same store, however keys interleave |
| `BankBalanceTopology.RunConcatStore` | kafka-streams-zero-to-hero/bank-transactions/src/main/java/com/github/programmingwithmati/topology/BankBalanceTopology.java:27-32 | stopping between events and resuming from the store reached gives the same final store |
| `BankBalanceTopology.RunConcatBalances` | kafka-streams-zero-to-hero/bank-transactions/src/main/java/com/github/programmingwithmati/topology/BankBalanceTopology.java:32-35 | stopping and resuming gives the same `bank-balances` stream, the two parts in order |
| `BankBalanceTopology.RunConcatRejected` | kafka-streams-zero-to-hero/bank-transactions/src/main/java/com/github/programmingwithmati/topology/BankBalanceTopology.java:39-41 | stopping and resuming gives the same `rejected-transactions` stream, the two parts in order |
| `BankBalanceTopology.EmittedBalanceReflectsPrefix` | kafka-streams-zero-to-hero/bank-transactions/src/main/java/com/github/programmingwithmati/topology/BankBalanceTopology.java:28-35 | the balance emitted for the i-th transaction reflects exactly its key's transactions up to and including it, in order |
| `BankBalanceTopology.RejectedIsFilteredLatest` | kafka-streams-zero-to-hero/bank-transactions/src/main/java/com/github/programmingwithmati/topology/BankBalanceTopology.java:39-41 | `rejected-transactions` is the balance stream mapped to latest transactions and filtered on state REJECTED, keys kept |
| `BankBalanceTopology.ProcessBatch` | kafka-streams-zero-to-hero/bank-transactions/src/main/java/com/github/programmingwithmati/topology/BankBalanceTopology.java:27-41 | after the loop, each key holds the fold over its own transactions; the i-th balance record reflects its key's transactions up to the i-th; the rejected stream is the filtered balance stream |
| `BankBalanceService.GetBankBalanceById` | kafka-streams-zero-to-hero/bank-transactions-queries/src/main/java/com/github/programmingwithmati/service/BankBalanceService.java:22-24 | the lookup gives the stored balance when the id has an entry, and absent (`null`) otherwise |
| `BankBalanceService.QueryAfterReplay` | kafka-streams-zero-to-hero/bank-transactions-queries/src/main/java/com/github/programmingwithmati/service/BankBalanceService.java:22-24 | after a replay, the lookup finds a balance iff the id occurs in the batch; it is the fold over that id's transactions |

## Left out

- The Kafka Streams runtime is not modelled: brokers, partitioning, several stream threads, commit and offset handling, and the `TopologyTestDriver`.
  Both topologies are modelled on a finite slice of one partition, processed one record at a time.
- Serialization is not modelled: the `JsonSerde` value serdes and the `Serdes.String()` / `Serdes.Long()` key serdes. Keys are a type parameter `K`.
- The speech-to-text and translate services are uninterpreted function parameters; the `SpeechToTextService` and `TranslateService` interfaces are not modelled beyond their one method each. Their failures are not modelled; a failing call would end the stream thread.
- The bodies of `BankBalance.process`, `BankBalance.getLatestTransaction` and `BankTransaction.getState` are not part of this model, and neither are these classes' fields. They are uninterpreted, so balance arithmetic is not modelled.
  `TransactionState` lists three states; only `Rejected` is ever inspected.
- `VoiceCommandParser.Route`: does not model the Java exceptions on null fields, because the topology never checks for them.
  These are a null `probability` (unboxing), a null `language` (`startsWith`), and null audio.
  Probability and threshold are reals, so double rounding is not modelled.
- `BankBalanceTopology.Aggregate`: does not model the Java exceptions at `BankBalanceTopology.java:40`, because the topology never checks for them.
  These are a null latest transaction (`getState()` on null) and a null state (`.equals` on null).
- Audio bytes are modelled as a `seq<bv8>`, and only their length is inspected, as in the source.
- `BankBalanceService.GetBankBalanceById`: the lookup is modelled on the aggregate's store directly.
  The source looks the store up through `KafkaStreams.store` under the name `BankBalanceTopology.BANK_BALANCE_STORE`.
  That constant is not declared in `BankBalanceTopology.java`, whose `aggregate` names no store.
  The queryable-store API, and the staleness of reads made while records are still being processed, are not modelled.
- `BankBalanceTopology.Run`: assumes every aggregate update is forwarded downstream, as with the KTable record cache disabled or under the test driver.
  `aggregate(...).toStream()` at `BankBalanceTopology.java:29-32` runs with the default record cache, which may merge a key's updates within one commit interval.
  Then `bank-balances` can skip intermediate balances, and `rejected-transactions`, built from that stream at `:39-41`, can miss a REJECTED latest transaction that a later update of the same key replaced.
  `BankBalanceTopology.Aggregate` and `BankBalanceTopology.ProcessBatch` make the same assumption.
- `BankBalanceTopology.Aggregate`: records with a null key or a null value are silently skipped by `aggregate` in Kafka Streams; the model has no null keys or values, so that case is not modelled.
- The Spring Boot bootstrap (`BankBalanceApp.java`) has no behaviour to model.
- `merge` makes no promise about cross-branch order.
  The recognized topic is therefore stated only as an interleaving and a multiset of the two branches.
  `Process` fixes one order, the record-at-a-time order, and the lemmas do not depend on it beyond the interleaving.
