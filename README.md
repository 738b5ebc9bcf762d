# Kafka broker registry and offset requests, in Dafny

This project models two parts of the coordination layer of the EasySwoole
Kafka client and proves properties about them.

- **The broker registry** (`src/Broker.php`) holds the cluster topology
  taken from metadata responses. It maps each node id to `"host:port"` and
  each topic to its partitions' leaders. It also holds two connection
  caches, `metaClients` and `dataClients`.
  - `setData` rebuilds both topology arrays and replaces each one that
    changed.
  - `getConnect`, reached through `getMetaConnect` and `getDataConnect`,
    returns a cached connection or opens and caches a new one.
  - `judgeConnectionConfig` and `getSaslMechanismProvider` set the SSL flag
    and choose the SASL mechanism before a connection is built.
- **The offset process** (`src/Offset/Process.php`) builds the parameters
  of Kafka's ListOffsets, OffsetFetch and OffsetCommit requests.
  - `listOffset`, `fetchOffset` and `commit` read the registry's topology,
    the configured topic list and the caller's offsets.
  - Each sends its request over the coordinator's metadata connection.
  - Each decodes the reply after dropping its 8-byte header.

Files:

- `wrappers.dfy`: `Option` and `Result`.
- `php_string.dfy`: the PHP string built-ins the core uses.
  - `explode` on `':'`.
  - The `(int)` cast.
  - Integer-to-string conversion.
  - `substr($s, 8)`.
- `php_array.dfy`: PHP arrays as ordered association lists with unique
  keys.
  - `$a[$k] = $v` (`Put`) overwrites an existing key where it stands and
    appends a new key at the end.
  - Two arrays compare equal under `serialize` exactly when the lists are
    equal, order included.
  - A string key that is a canonical decimal integer becomes an integer
    key, as in PHP (`ArrayKey`).
- `broker.dfy`: the registry.
  - The class `Broker` has the fields of the PHP object.
  - Its methods carry `modifies` clauses.
  - Each operation is proved against a reference function:
    - the loops of `setData` against `CandidateBrokers`, `PartitionMap`
      and `CandidateTopics`, the arrays it builds;
    - `getConnect` against `PlanConnect`, the decision it takes before
      dialling;
    - `judgeConnectionConfig` against `Negotiation`, the security check.
- `offset_process.dfy`: the offset process.
  - The nested `foreach` loops are methods proved equal to the reference
    functions `ListData`, `FetchData` and `CommitData`.
  - Lemmas state what those structures contain.
  - The class `Process` holds the three operations.

Foreign code is passed in as parameters:

- **Connecting.** `connect()` becomes an oracle `(host, port) ->
  Connected | Refused | Threw`.
- **Codec and transport.** `Protocol::encode`, `$connect->send` and
  `Protocol::decode` are the function fields of a `Wire` value.
- **Coordinator.** The key of the group coordinator is an input string.
  The source obtains it from `getGroupBrokerId`, which is not part of this
  model.
- **Consumer values.** The group id, generation id and member id that
  `commit` reads from shared state are inputs too.

Behaviour worth knowing, all modelled as the code does it:

- **Changes are detected by `serialize`, so order counts.** The same
  brokers reported in another order count as a change. An
  order-insensitive comparison would not report one
  (`ReorderedBrokersReportChange`).
- **Numeric topic names are never requested.** PHP stores a topic named
  like an integer (`"42"`) under the integer key 42. The strict comparison
  `$topic !== $topicName` then never matches the configured name, so
  neither ListOffsets nor OffsetFetch asks for such a topic
  (`NumericTopicNeverRequested`).
- **`commit` sends on a null connection.**
  - `listOffset` and `fetchOffset` return `[]` when no coordinator
    connection is available.
  - `commit` has no such guard. It builds and encodes its request, then
    calls `send` on `null`, which PHP reports as an error.
  - The model returns `Failure(SendOnNull)` at that point.
- **The ListOffsets constants.** Every listed partition carries
  `'offset' => 100` and `'time' => -1`. The request carries
  `'replica_id' => -1`.
- **The OffsetCommit `partitions` shape.** `partitions` is an array keyed by
  partition id, each entry holding `{partition, offset}`. It is not a plain
  list.
- **`getConnect` cache keys.**
  - A new connection is cached under the key it was asked for, not under
    the address that key resolved to.
  - A key containing `':'` is parsed as `host:port` and overrides the
    brokers array.
  - A node id given as a string (`"7"`) finds node 7, because PHP
    normalises the key.

## Model

| member | source | states |
|---|---|---|
| PhpString.Explode | src/Broker.php:194-198 | explode yields at least one part; two or more exactly when the separator occurs; no part contains the separator; joining the parts with the separator gives back the input |
| PhpString.IntCastOfDecimal | src/Broker.php:206 | the `(int)` cast of a rendered integer is that integer, so a port written into an address is read back unchanged |
| PhpString.SubstrFrom | src/Offset/Process.php:84 | `substr($data, 8)` is the data without its first 8 bytes (the input is those 8 bytes followed by the result), and empty when the data is shorter |
| PhpArray.ArrayKeyOfDecimal | src/Broker.php:181-182 | a node id written as a decimal string is normalised to the integer key of that node id |
| PhpArray.ArrayKeyInjective | src/Broker.php:134 | two topic names stored under the same array key are the same name |
| PhpArray.ColonKeyIsString | src/Broker.php:181-198 | a key holding ':' is never an integer key, so it never finds a node id in the brokers array |
| PhpArray.Put | src/Broker.php:108 | `$a[$k] = $v`: the keys stay where they were when `$k` is present, otherwise `$k` is appended last; `$k` then maps to `$v` |
| PhpArray.PutOther | src/Broker.php:108 | `$a[$k] = $v` leaves the value of every other key unchanged |
| PhpArray.PutUnique | src/Broker.php:108 | assigning into an array keeps every key unique |
| PhpArray.FromPairsLookup | src/Broker.php:107-109 | the array built by assigning pairs in order maps each key to the value of its last pair |
| PhpArray.FromPairsKeys | src/Broker.php:107-109 | that array holds each key once, at the position of its first pair, in pair order |
| BrokerRegistry.BuildBrokers | src/Broker.php:105-109 | the broker loop builds exactly the candidate brokers array: node id -> host . ':' . port |
| BrokerRegistry.BuildPartitionLeaders | src/Broker.php:128-132 | the partition loop builds exactly partition id -> leader for the topic |
| BrokerRegistry.BuildTopics | src/Broker.php:120-135 | the topic loop builds exactly the candidate topics array, skipping topics whose error code is not NO_ERROR |
| BrokerRegistry.BrokersLaterWins | src/Broker.php:105-109 | a node id listed several times keeps the address of its last entry |
| BrokerRegistry.BrokersKeyOrder | src/Broker.php:105-109 | the brokers array holds exactly the listed node ids, each once, in order of first appearance |
| BrokerRegistry.PartitionsLaterWin | src/Broker.php:130-132 | a partition listed several times keeps the leader of its last entry |
| BrokerRegistry.TopicsKept | src/Broker.php:121-135 | a topic is in the candidate topics exactly when some entry with its name has error code NO_ERROR; an erroneous topic never appears |
| BrokerRegistry.TopicsKeyOrder | src/Broker.php:120-135 | the topics array holds each kept topic once, at the position of its first error-free entry, in response order (the order `serialize` compares) |
| BrokerRegistry.TopicsLaterWin | src/Broker.php:121-135 | a kept topic maps to the partition map of its last error-free entry |
| BrokerRegistry.TopicKeysAreNames | src/Broker.php:134 | every key of the candidate topics is the array key of some reported topic name |
| BrokerRegistry.Broker.SetData | src/Broker.php:103-144 | afterwards brokers and topics are the candidate arrays; the result is true exactly when either candidate differs from the old array, order included; the caches, config and process are untouched |
| BrokerRegistry.RefreshIdempotent | src/Broker.php:103-144 | a second `setData` with the same response returns false and leaves brokers and topics as they were |
| BrokerRegistry.ReorderedBrokersReportChange | src/Broker.php:114-118 | the same two brokers reported in the other order make `setData` report a change |
| BrokerRegistry.SaslMechanismProvider | src/Broker.php:269-286 | a provider exactly for PLAIN, built from the configured user name and password; GSSAPI, SCRAM-SHA-512 and any other mechanism throw an invalid-mechanism error naming it |
| BrokerRegistry.Negotiation | src/Broker.php:237-262 | negotiation fails exactly for SASL_SSL or SASL_PLAINTEXT with a mechanism other than PLAIN; it yields a provider exactly for those protocols with PLAIN; a null config yields null |
| BrokerRegistry.Broker.JudgeConnectionConfig | src/Broker.php:237-262 | returns the negotiation outcome, and for a non-null config sets sslEnable to "protocol is neither PLAINTEXT nor SASL_PLAINTEXT" |
| BrokerRegistry.Broker.GetClient | src/Broker.php:225-230 | negotiates first; fails with the negotiation's error when it fails, otherwise returns a new client for the host, port and config |
| BrokerRegistry.ResolveEndpoint | src/Broker.php:188-199 | host and port are split from the node's address, overridden by a key containing ':', and absent when either is still null |
| BrokerRegistry.Broker.GetConnect | src/Broker.php:174-215 | returns the client cached under the key, else the one cached under the key's address, before any readiness check; else null when host or port is unresolved or when async without a process; else a new client carrying the host, the port and the registry's config exactly when negotiation succeeds and connect() returns true, cached under the original key only then; brokers, topics and the other cache never change |
| BrokerRegistry.Broker.TryOpen | src/Broker.php:205-214 | a new client with the given host and port and the registry's config is returned and cached under the key exactly when negotiation succeeds and connect() returns true; on a false connect or any exception nothing is cached |
| BrokerRegistry.Broker.GetMetaConnect | src/Broker.php:152-155 | `getConnect` on the metadata cache |
| BrokerRegistry.Broker.GetDataConnect | src/Broker.php:163-166 | `getConnect` on the data cache |
| BrokerRegistry.AddressSplits | src/Broker.php:191-195 | an address built from host and port splits at ':' into the host and the port's digits, which cast back to the port |
| BrokerRegistry.NodeIdKeyDials | src/Broker.php:181-206 | an uncached node id used as key dials the host and port stored for it; async without a process gives null instead |
| BrokerRegistry.AddressKeyDials | src/Broker.php:197-206 | an uncached key "host:port" dials that host and port whatever the brokers array holds |
| BrokerRegistry.UnknownKeyNotReady | src/Broker.php:188-203 | a key that is uncached, not a known node id and holds no ':' gives null |
| BrokerRegistry.SetDataThenDial | src/Broker.php:181-206 | after `setData`, asking synchronously for a node id dials the address the metadata gave for that node |
| BrokerRegistry.UnsupportedMechanismNeverConnects | src/Broker.php:205-229 | with SASL and a mechanism other than PLAIN only a cached client is ever returned; the thrown error is swallowed into null |
| OffsetProcess.ListPartitions | src/Offset/Process.php:65-71 | one partition entry per topology partition, in order, with the partition id, offset 100 and time -1 |
| OffsetProcess.BuildListItem | src/Offset/Process.php:60-71 | the partition loop builds the item `{topic_name, partitions}` for the topic |
| OffsetProcess.AppendListItems | src/Offset/Process.php:55-73 | the list loop appends one item per configured entry equal to the topic key |
| OffsetProcess.BuildListData | src/Offset/Process.php:53-74 | the nested loops build exactly the ListOffsets data |
| OffsetProcess.ListDataCount | src/Offset/Process.php:54-73 | a name gets as many ListOffsets items as the configured list holds it when the topology has it as a string key, and none otherwise |
| OffsetProcess.ListDataItems | src/Offset/Process.php:54-73 | every ListOffsets item names a configured topic of the topology and lists that topic's partitions |
| OffsetProcess.AppendFetchEntry | src/Offset/Process.php:113-123 | the topic's partition ids so far (none when unset) extended by all its partition ids are stored under the topic with its name |
| OffsetProcess.AppendFetchEntries | src/Offset/Process.php:109-124 | the list loop adds the topic's entry for all matching configured entries |
| OffsetProcess.BuildFetchData | src/Offset/Process.php:106-125 | the nested loops build exactly the OffsetFetch data |
| OffsetProcess.FetchDataKeys | src/Offset/Process.php:108-124 | a topic has an OffsetFetch entry exactly when it is in the topology and matches some configured entry |
| OffsetProcess.FetchDataUnique | src/Offset/Process.php:108-124 | each topic appears at most once in the OffsetFetch data |
| OffsetProcess.FetchDataLookup | src/Offset/Process.php:108-124 | a fetched topic carries its name and its topology partition ids, repeated once per matching configured entry |
| OffsetProcess.CommitPartitions | src/Offset/Process.php:155-158 | the committed partitions array has the same partition ids, in the same order, as the caller's |
| OffsetProcess.CommitData | src/Offset/Process.php:153-162 | the commit data has one entry per committed topic and no other, in the caller's order |
| OffsetProcess.BuildCommitPartitions | src/Offset/Process.php:154-158 | the inner loop builds exactly partition id -> {partition, offset} |
| OffsetProcess.BuildCommitData | src/Offset/Process.php:153-162 | the outer loop builds exactly the commit data |
| OffsetProcess.CommitPartitionsLookup | src/Offset/Process.php:155-158 | partition p maps to {partition: p, offset: the caller's offset for p}, and is absent when the caller gave none |
| OffsetProcess.CommitDataLookup | src/Offset/Process.php:153-162 | a committed topic maps to its own name and its partitions, and is absent when the caller gave none |
| OffsetProcess.NumericTopicNeverRequested | src/Offset/Process.php:54-58 | a topic whose name PHP stores as an integer key gets no ListOffsets item and no OffsetFetch entry |
| OffsetProcess.OrdersListExample | src/Offset/Process.php:54-73 | topic "orders" with partitions 0 and 1, configured once: one item listing partitions 0 and 1, each with offset 100 and time -1 |
| OffsetProcess.OrdersFetchExample | src/Offset/Process.php:108-124 | the same topology: partitions [0, 1] when configured once, [0, 1, 0, 1] when configured twice |
| OffsetProcess.OrdersCommitExample | src/Offset/Process.php:153-162 | committing offset 42 for partition 0 of "orders" gives partitions {0: {partition 0, offset 42}} under topic_name "orders" |
| OffsetProcess.Process.ListOffset | src/Offset/Process.php:41-87 | the registry changes exactly as one asynchronous `getMetaConnect` of the coordinator key changes it (its cache, `sslEnable`, nothing else; a newly dialled connection carries the registry's config); returns `[]` without encoding or sending when that gives no connection; otherwise decodes, after dropping its 8-byte header, the connection's reply to `{replica_id: -1, data}` |
| OffsetProcess.Process.FetchOffset | src/Offset/Process.php:94-138 | the same registry effect as ListOffset; returns `[]` without encoding or sending when there is no connection; otherwise decodes, after dropping its 8-byte header, the connection's reply to `{group_id, data}` |
| OffsetProcess.Process.Commit | src/Offset/Process.php:146-177 | the same registry effect as ListOffset; with a connection, decodes, after dropping its 8-byte header, its reply to `{group_id, generation_id, member_id, data}`; without one, fails at send |

## Left out

- Logging, including the `json_encode` of the parameters for log lines.
  It has no effect on the modelled state.
- `Protocol::encode` and `Protocol::decode` are the wire codec and are not
  part of this model. With `$connect->send` they are the three function
  fields of `Wire`.
- `Protocol::getError` is not modelled: it only feeds a log line.
- Sockets.
  - The `Client` class is not modelled beyond its host, port and config.
  - The outcome of `connect()` comes from an oracle.
  - `send` is a function of the client and the bytes.
- The `Plain` SASL handler is not part of this model. `getClient`
  computes the provider but never uses it, so only its success or error
  matters.
- The `Singleton` trait, `Process`'s construction (`syncMeta`,
  `Protocol::init`) and the swoole process handle.
  - `process` is only "set or not".
  - The configuration and assignment getters are reduced to the values
    they return.
- `getGroupBrokerId` is not defined in `src/Broker.php` and is not part of
  this model. The coordinator key is an input.
- Concurrency and coroutine scheduling. The model is sequential.
- Exceptions thrown by `send` or `decode` are not modelled. Their outcome
  is whatever the `Wire` functions return.
- PhpString.IntCast: does not model leading whitespace, exponent notation
  or 64-bit saturation of PHP's `(int)` cast. The model reads an optional
  sign and the leading digits, which covers every port a broker reports.
- PhpString.SubstrFrom: models PHP 8, where a start past the end gives
  `""`. PHP 7's `false` is not modelled.
- OffsetProcess.Process.Commit: the partition ids and offsets of
  `$commitOffsets` are modelled as integers. The model requires each topic
  and each partition once, as a PHP array guarantees.
- BrokerRegistry.Broker.GetConnect: the unique-key property of the PHP
  arrays is carried as a `requires` (`Valid`). PHP arrays cannot break it,
  so this excludes no real input.
