/**
 * The offset process of src/Offset/Process.php: it builds the parameters
 * of Kafka's ListOffsets, OffsetFetch and OffsetCommit requests from the
 * registry's topology, the configured topic list and the caller's offsets,
 * sends them over the coordinator's metadata connection and decodes the
 * reply minus its 8-byte header. The codec and the socket are parameters
 * (`Wire`); the coordinator's connection key is an input.
 */
module OffsetProcess {
  import opened Wrappers
  import opened PhpString
  import opened PhpArray
  import opened BrokerRegistry

  datatype ApiKey = OffsetRequest | OffsetFetchRequest | OffsetCommitRequest

  /** `'replica_id' => -1` */
  const ReplicaId: int := -1
  /** `'offset' => 100` in every listed partition */
  const ListedOffset: int := 100
  /** `'time' => -1` in every listed partition */
  const ListedTime: int := -1
  /** `substr($data, 8)` */
  const HeaderLength: nat := 8

  datatype ListPartition = ListPartition(partitionId: int, offset: int, time: int)

  datatype ListTopic = ListTopic(topicName: string, partitions: seq<ListPartition>)

  datatype FetchTopic = FetchTopic(partitions: seq<int>, topicName: string)

  datatype CommitPartition = CommitPartition(partition: int, offset: int)

  datatype CommitTopic = CommitTopic(partitions: Assoc<int, CommitPartition>, topicName: Key)

  /** The `$params` array handed to the encoder, one shape per request. */
  datatype Request =
    | ListOffsets(replicaId: int, listData: seq<ListTopic>)
    | FetchOffsets(groupId: string, fetchData: Assoc<Key, FetchTopic>)
    | CommitOffsets(groupId: string, generationId: int, memberId: string, commitData: Assoc<Key, CommitTopic>)

  /** The codec and the transport: `Protocol::encode`, `$connect->send` and `Protocol::decode`. */
  datatype Wire<D> = Wire(
    encode: (ApiKey, Request) -> seq<byte>,
    send: (Client, seq<byte>) -> seq<byte>,
    decode: (ApiKey, seq<byte>) -> D)

  /** What `listOffset` and `fetchOffset` return: `[]` without sending, or the decoded reply. */
  datatype Reply<D> = EmptyArray | Decoded(response: D)

  /** `commit` calls `send()` on a null connection: PHP raises an Error. */
  datatype CommitError = SendOnNull

  /** Encode, send, strip the response header, decode. */
  function Exchange<D>(wire: Wire<D>, c: Client, api: ApiKey, req: Request): D {
    wire.decode(api, SubstrFrom(wire.send(c, wire.encode(api, req)), HeaderLength))
  }

  // ---------------------------------------------------------------------------
  // Reference definitions of the three parameter structures

  /**
   * How many entries of the configured topic list a topology key matches.
   * The comparison `$topic !== $topicName` is strict, so an integer key
   * (a topic whose name looks like an integer) matches none.
   */
  function Matches(k: Key, topicList: seq<string>): nat {
    match k
    case IntKey(_) => 0
    case StrKey(name) => multiset(topicList)[name]
  }

  function Repeat<T>(x: T, n: nat): (r: seq<T>)
    ensures |r| == n && forall i :: 0 <= i < n ==> r[i] == x
  {
    if n == 0 then [] else Repeat(x, n - 1) + [x]
  }

  /** `n` copies of `s`, one after the other. */
  function Cycle<T>(s: seq<T>, n: nat): seq<T> {
    if n == 0 then [] else Cycle(s, n - 1) + s
  }

  function PartitionIds(parts: PartitionLeaders): seq<int> {
    Keys(parts)
  }

  /** Every partition of the topic, in topology order, with offset 100 and time -1. */
  function ListPartitions(parts: PartitionLeaders): (r: seq<ListPartition>)
    ensures |r| == |parts|
    ensures forall j :: 0 <= j < |r| ==> r[j].partitionId == Keys(parts)[j]
    ensures forall j :: 0 <= j < |r| ==> r[j].offset == ListedOffset && r[j].time == ListedTime
  {
    seq(|parts|, j requires 0 <= j < |parts| => ListPartition(parts[j].0, ListedOffset, ListedTime))
  }

  /** The items one topology topic contributes to the ListOffsets data: one per matching list entry. */
  function ListItems(k: Key, parts: PartitionLeaders, topicList: seq<string>): seq<ListTopic> {
    match k
    case IntKey(_) => []
    case StrKey(name) => Repeat(ListTopic(name, ListPartitions(parts)), Matches(k, topicList))
  }

  /** The `data` of the ListOffsets request: topology order, then list order. */
  function ListData(topics: TopicMap, topicList: seq<string>): seq<ListTopic> {
    if |topics| == 0 then []
    else ListData(topics[..|topics| - 1], topicList) + ListItems(topics[|topics| - 1].0, topics[|topics| - 1].1, topicList)
  }

  /** The entry one topology topic contributes to the OffsetFetch data, if it matches at all. */
  function FetchEntry(k: Key, parts: PartitionLeaders, topicList: seq<string>): seq<(Key, FetchTopic)> {
    match k
    case IntKey(_) => []
    case StrKey(name) =>
      if Matches(k, topicList) == 0 then []
      else [(k, FetchTopic(Cycle(PartitionIds(parts), Matches(k, topicList)), name))]
  }

  /** The `data` of the OffsetFetch request, keyed by topic. */
  function FetchData(topics: TopicMap, topicList: seq<string>): Assoc<Key, FetchTopic> {
    if |topics| == 0 then []
    else FetchData(topics[..|topics| - 1], topicList) + FetchEntry(topics[|topics| - 1].0, topics[|topics| - 1].1, topicList)
  }

  function CommitPartitions(offsets: Assoc<int, int>): (r: Assoc<int, CommitPartition>)
    ensures Keys(r) == Keys(offsets)
  {
    seq(|offsets|, j requires 0 <= j < |offsets| => (offsets[j].0, CommitPartition(offsets[j].0, offsets[j].1)))
  }

  /** The `data` of the OffsetCommit request: one entry per committed topic, in the caller's order. */
  function CommitData(commitOffsets: Assoc<Key, Assoc<int, int>>): (r: Assoc<Key, CommitTopic>)
    ensures Keys(r) == Keys(commitOffsets)
  {
    seq(|commitOffsets|, i requires 0 <= i < |commitOffsets| =>
      (commitOffsets[i].0, CommitTopic(CommitPartitions(commitOffsets[i].1), commitOffsets[i].0)))
  }

  /** PHP arrays: the caller's offsets hold each topic once and each partition of a topic once. */
  predicate WellFormedOffsets(commitOffsets: Assoc<Key, Assoc<int, int>>) {
    UniqueKeys(commitOffsets) && forall i :: 0 <= i < |commitOffsets| ==> UniqueKeys(commitOffsets[i].1)
  }

  // ---------------------------------------------------------------------------
  // The loops of the three operations, proved against the definitions above

  /** The innermost loop of `listOffset`: one item for a matching topic. */
  method BuildListItem(topic: string, partitions: PartitionLeaders) returns (item: ListTopic)
    ensures item == ListTopic(topic, ListPartitions(partitions))
  {
    var parts: seq<ListPartition> := [];
    var j := 0;
    while j < |partitions|
      invariant 0 <= j <= |partitions|
      invariant parts == ListPartitions(partitions)[..j]
    {
      var (partId, _) := partitions[j];
      parts := parts + [ListPartition(partId, ListedOffset, ListedTime)];
      j := j + 1;
    }
    item := ListTopic(topic, parts);
  }

  /** One more list entry: one more item exactly when it equals the topic's key. */
  lemma ListItemsStep(k: Key, parts: PartitionLeaders, topicList: seq<string>, name: string)
    ensures ListItems(k, parts, topicList + [name])
         == ListItems(k, parts, topicList) + (if k == StrKey(name) then [ListTopic(name, ListPartitions(parts))] else [])
  {
    assert multiset(topicList + [name]) == multiset(topicList) + multiset{name};
  }

  lemma ListDataStep(topics: TopicMap, topicList: seq<string>, i: nat)
    requires i < |topics|
    ensures ListData(topics[..i + 1], topicList) == ListData(topics[..i], topicList) + ListItems(topics[i].0, topics[i].1, topicList)
  {
    assert topics[..i + 1][..i] == topics[..i];
  }

  lemma FetchDataStep(topics: TopicMap, topicList: seq<string>, i: nat)
    requires i < |topics|
    ensures FetchData(topics[..i + 1], topicList) == FetchData(topics[..i], topicList) + FetchEntry(topics[i].0, topics[i].1, topicList)
  {
    assert topics[..i + 1][..i] == topics[..i];
  }

  /** The two outer loops of `listOffset`. */
  method BuildListData(topics: TopicMap, topicList: seq<string>) returns (data: seq<ListTopic>)
    ensures data == ListData(topics, topicList)
  {
    data := [];
    var i := 0;
    while i < |topics|
      invariant 0 <= i <= |topics|
      invariant data == ListData(topics[..i], topicList)
    {
      var (topic, partitions) := topics[i];
      ListDataStep(topics, topicList, i);
      data := AppendListItems(data, topic, partitions, topicList);
      i := i + 1;
    }
    assert topics[..i] == topics;
  }

  /** The middle loop of `listOffset`: one item per list entry equal to the topic. */
  method AppendListItems(data: seq<ListTopic>, topic: Key, partitions: PartitionLeaders, topicList: seq<string>)
    returns (r: seq<ListTopic>)
    ensures r == data + ListItems(topic, partitions, topicList)
  {
    r := data;
    var m := 0;
    while m < |topicList|
      invariant 0 <= m <= |topicList|
      invariant r == data + ListItems(topic, partitions, topicList[..m])
    {
      var topicName := topicList[m];
      assert topicList[..m + 1] == topicList[..m] + [topicName];
      ListItemsStep(topic, partitions, topicList[..m], topicName);
      if topic == StrKey(topicName) {
        var item := BuildListItem(topicName, partitions);
        assert (data + ListItems(topic, partitions, topicList[..m])) + [item]
            == data + (ListItems(topic, partitions, topicList[..m]) + [item]);
        r := r + [item];
      }
      m := m + 1;
    }
    assert topicList[..m] == topicList;
  }

  /** A topic has an OffsetFetch entry exactly when it is in the topology and in the configured list. */
  lemma {:induction false} FetchDataKeys(topics: TopicMap, topicList: seq<string>, k: Key)
    ensures k in Keys(FetchData(topics, topicList)) <==> k in Keys(topics) && Matches(k, topicList) > 0
  {
    if |topics| > 0 {
      var prefix := topics[..|topics| - 1];
      var (last, parts) := topics[|topics| - 1];
      FetchDataKeys(prefix, topicList, k);
      KeysAppendMember(FetchData(prefix, topicList), FetchEntry(last, parts, topicList), k);
      FetchEntryKeys(last, parts, topicList);
      KeysSnocMember(topics, k);
    }
  }

  lemma FetchEntryKeys(k: Key, parts: PartitionLeaders, topicList: seq<string>)
    ensures Keys(FetchEntry(k, parts, topicList)) == if Matches(k, topicList) > 0 then [k] else []
  {
  }

  /** One more list entry: the entry's partition ids repeat once more exactly when it equals the topic's key. */
  lemma FetchEntryStep(k: Key, parts: PartitionLeaders, topicList: seq<string>, name: string)
    ensures FetchEntry(k, parts, topicList + [name])
         == if k == StrKey(name) then [(k, FetchTopic(Cycle(PartitionIds(parts), Matches(k, topicList) + 1), name))]
            else FetchEntry(k, parts, topicList)
  {
    assert multiset(topicList + [name]) == multiset(topicList) + multiset{name};
  }


  /** The first matching list entry in `fetchOffset` adds the topic's entry at the end. */
  lemma FetchFirst(prev: Assoc<Key, FetchTopic>, k: Key, name: string, ids: seq<int>)
    requires k !in Keys(prev)
    ensures Lookup(prev, k) == None
    ensures Put(prev, k, FetchTopic([] + ids, name)) == prev + [(k, FetchTopic(Cycle(ids, 1), name))]
  {
    var v := FetchTopic(ids, name);
    assert Cycle(ids, 1) == ids by {
      assert Cycle(ids, 1) == Cycle(ids, 0) + ids;
    }
    assert [] + ids == ids;
    PutAbsent(prev, k, v);
  }

  /** A later matching list entry in `fetchOffset` appends the partition ids once more, in place. */
  lemma FetchAgain(prev: Assoc<Key, FetchTopic>, k: Key, name: string, ids: seq<int>, n: nat)
    requires k !in Keys(prev) && n > 0
    ensures Lookup(prev + [(k, FetchTopic(Cycle(ids, n), name))], k) == Some(FetchTopic(Cycle(ids, n), name))
    ensures Put(prev + [(k, FetchTopic(Cycle(ids, n), name))], k, FetchTopic(Cycle(ids, n) + ids, name))
         == prev + [(k, FetchTopic(Cycle(ids, n + 1), name))]
  {
    var v := FetchTopic(Cycle(ids, n), name);
    PutAbsent(prev, k, v);
    PutLast(prev, k, v, FetchTopic(Cycle(ids, n) + ids, name));
  }

  /** A matching list entry turns the topic's entry for the list so far into its entry for one entry more. */
  lemma FetchMatch(before: Assoc<Key, FetchTopic>, k: Key, parts: PartitionLeaders, topicList: seq<string>, name: string)
    requires k == StrKey(name) && k !in Keys(before)
    ensures var data := before + FetchEntry(k, parts, topicList);
            var base := if Lookup(data, k).Some? then Lookup(data, k).value.partitions else [];
            Put(data, k, FetchTopic(base + PartitionIds(parts), name)) == before + FetchEntry(k, parts, topicList + [name])
  {
    var ids := PartitionIds(parts);
    var n := Matches(k, topicList);
    FetchEntryStep(k, parts, topicList, name);
    if n == 0 {
      assert FetchEntry(k, parts, topicList) == [];
      assert before + [] == before;
      FetchFirst(before, k, name, ids);
    } else {
      assert FetchEntry(k, parts, topicList) == [(k, FetchTopic(Cycle(ids, n), name))];
      FetchAgain(before, k, name, ids, n);
    }
  }

  /**
   * The body of `fetchOffset` for one matching list entry: the entry's
   * partition ids so far (none when unset), extended by every partition of
   * the topic, stored back with the topic name.
   */
  method AppendFetchEntry(data: Assoc<Key, FetchTopic>, topic: Key, topicName: string, partitions: PartitionLeaders)
    returns (r: Assoc<Key, FetchTopic>)
    ensures var base := if Lookup(data, topic).Some? then Lookup(data, topic).value.partitions else [];
            r == Put(data, topic, FetchTopic(base + PartitionIds(partitions), topicName))
  {
    var partition: seq<int> := [];
    var existing := Lookup(data, topic);
    if existing.Some? {
      partition := existing.value.partitions;
    }
    ghost var base := partition;
    var j := 0;
    while j < |partitions|
      invariant 0 <= j <= |partitions|
      invariant partition == base + PartitionIds(partitions)[..j]
    {
      var (partId, _) := partitions[j];
      assert PartitionIds(partitions)[..j + 1] == PartitionIds(partitions)[..j] + [partId];
      partition := partition + [partId];
      j := j + 1;
    }
    assert PartitionIds(partitions)[..j] == PartitionIds(partitions);
    r := Put(data, topic, FetchTopic(partition, topicName));
  }

  /** The loops of `fetchOffset`. */
  method BuildFetchData(topics: TopicMap, topicList: seq<string>) returns (data: Assoc<Key, FetchTopic>)
    requires UniqueKeys(topics)
    ensures data == FetchData(topics, topicList)
  {
    data := [];
    var i := 0;
    while i < |topics|
      invariant 0 <= i <= |topics|
      invariant data == FetchData(topics[..i], topicList)
    {
      var (topic, partitions) := topics[i];
      FetchDataStep(topics, topicList, i);
      assert topic !in Keys(topics[..i]) by {
        KeysPrefix(topics, i);
        assert Keys(topics)[i] == topic;
      }
      FetchDataKeys(topics[..i], topicList, topic);
      data := AppendFetchEntries(data, topic, partitions, topicList);
      i := i + 1;
    }
    assert topics[..i] == topics;
  }

  /** The middle loop of `fetchOffset` for one topology topic not yet in `data`. */
  method AppendFetchEntries(data: Assoc<Key, FetchTopic>, topic: Key, partitions: PartitionLeaders, topicList: seq<string>)
    returns (r: Assoc<Key, FetchTopic>)
    requires topic !in Keys(data)
    ensures r == data + FetchEntry(topic, partitions, topicList)
  {
    r := data;
    var m := 0;
    while m < |topicList|
      invariant 0 <= m <= |topicList|
      invariant r == data + FetchEntry(topic, partitions, topicList[..m])
    {
      var topicName := topicList[m];
      assert topicList[..m + 1] == topicList[..m] + [topicName];
      FetchEntryStep(topic, partitions, topicList[..m], topicName);
      if topic == StrKey(topicName) {
        FetchMatch(data, topic, partitions, topicList[..m], topicName);
        r := AppendFetchEntry(r, topic, topicName, partitions);
      }
      m := m + 1;
    }
    assert topicList[..m] == topicList;
  }


  lemma CommitPartitionsStep(offsets: Assoc<int, int>, j: nat)
    requires j < |offsets|
    ensures CommitPartitions(offsets[..j + 1])
         == CommitPartitions(offsets[..j]) + [(offsets[j].0, CommitPartition(offsets[j].0, offsets[j].1))]
  {
  }

  /** The inner loop of `commit`: partition id -> {partition, offset}. */
  method BuildCommitPartitions(offsets: Assoc<int, int>) returns (partitions: Assoc<int, CommitPartition>)
    requires UniqueKeys(offsets)
    ensures partitions == CommitPartitions(offsets)
  {
    partitions := [];
    var j := 0;
    while j < |offsets|
      invariant 0 <= j <= |offsets|
      invariant partitions == CommitPartitions(offsets[..j])
    {
      var (partId, offset) := offsets[j];
      assert partId !in Keys(partitions) by {
        KeysPrefix(offsets, j);
        assert Keys(offsets)[j] == partId;
      }
      PutAbsent(partitions, partId, CommitPartition(partId, offset));
      partitions := Put(partitions, partId, CommitPartition(partId, offset));
      CommitPartitionsStep(offsets, j);
      j := j + 1;
    }
    assert offsets[..j] == offsets;
  }

  lemma CommitDataStep(commitOffsets: Assoc<Key, Assoc<int, int>>, i: nat)
    requires i < |commitOffsets|
    ensures CommitData(commitOffsets[..i + 1])
         == CommitData(commitOffsets[..i]) + [(commitOffsets[i].0, CommitTopic(CommitPartitions(commitOffsets[i].1), commitOffsets[i].0))]
  {
  }

  /** The outer loop of `commit`. */
  method BuildCommitData(commitOffsets: Assoc<Key, Assoc<int, int>>) returns (data: Assoc<Key, CommitTopic>)
    requires WellFormedOffsets(commitOffsets)
    ensures data == CommitData(commitOffsets)
  {
    data := [];
    var i := 0;
    while i < |commitOffsets|
      invariant 0 <= i <= |commitOffsets|
      invariant data == CommitData(commitOffsets[..i])
    {
      var (topicName, topics) := commitOffsets[i];
      var partitions := BuildCommitPartitions(topics);
      assert topicName !in Keys(data) by {
        KeysPrefix(commitOffsets, i);
        assert Keys(commitOffsets)[i] == topicName;
      }
      PutAbsent(data, topicName, CommitTopic(partitions, topicName));
      data := Put(data, topicName, CommitTopic(partitions, topicName));
      CommitDataStep(commitOffsets, i);
      i := i + 1;
    }
    assert commitOffsets[..i] == commitOffsets;
  }

  // ---------------------------------------------------------------------------
  // What the three parameter structures contain

  function ListTopicNames(data: seq<ListTopic>): (names: seq<string>)
    ensures |names| == |data| && forall i :: 0 <= i < |data| ==> names[i] == data[i].topicName
  {
    seq(|data|, i requires 0 <= i < |data| => data[i].topicName)
  }

  lemma RepeatCount<T>(x: T, n: nat, y: T)
    ensures multiset(Repeat(x, n))[y] == if x == y then n else 0
  {
    if n > 0 {
      RepeatCount(x, n - 1, y);
      assert multiset(Repeat(x, n)) == multiset(Repeat(x, n - 1)) + multiset{x};
    }
  }

  lemma UniquePrefix<K, V>(a: Assoc<K, V>)
    requires |a| > 0 && UniqueKeys(a)
    ensures UniqueKeys(a[..|a| - 1]) && a[|a| - 1].0 !in Keys(a[..|a| - 1])
  {
    KeysPrefix(a, |a| - 1);
    assert Keys(a)[|a| - 1] == a[|a| - 1].0;
  }

  /**
   * One ListOffsets item per pair of a topology topic and an equal entry
   * of the configured list: a name is listed as often as the list holds
   * it when the topology has it, and never otherwise.
   */
  lemma {:induction false} ListDataCount(topics: TopicMap, topicList: seq<string>, name: string)
    requires UniqueKeys(topics)
    ensures multiset(ListTopicNames(ListData(topics, topicList)))[name]
         == if StrKey(name) in Keys(topics) then multiset(topicList)[name] else 0
  {
    if |topics| > 0 {
      var prefix := topics[..|topics| - 1];
      var (k, parts) := topics[|topics| - 1];
      UniquePrefix(topics);
      ListDataCount(prefix, topicList, name);
      var items := ListItems(k, parts, topicList);
      NamesCountAppend(ListData(prefix, topicList), items, name);
      KeysSnocMember(topics, StrKey(name));
      match k
      case IntKey(_) =>
      case StrKey(n) =>
        assert ListTopicNames(items) == Repeat(n, multiset(topicList)[n]);
        RepeatCount(n, multiset(topicList)[n], name);
    }
  }

  lemma NamesCountAppend(a: seq<ListTopic>, b: seq<ListTopic>, name: string)
    ensures multiset(ListTopicNames(a + b))[name] == multiset(ListTopicNames(a))[name] + multiset(ListTopicNames(b))[name]
  {
    assert ListTopicNames(a + b) == ListTopicNames(a) + ListTopicNames(b);
  }

  /** Every ListOffsets item names a configured topic of the topology and lists that topic's partitions. */
  lemma {:induction false} ListDataItems(topics: TopicMap, topicList: seq<string>, j: nat)
    requires UniqueKeys(topics) && j < |ListData(topics, topicList)|
    ensures var item := ListData(topics, topicList)[j];
            && item.topicName in topicList
            && Lookup(topics, StrKey(item.topicName)).Some?
            && item.partitions == ListPartitions(Lookup(topics, StrKey(item.topicName)).value)
  {
    var prefix := topics[..|topics| - 1];
    var (k, parts) := topics[|topics| - 1];
    assert topics == prefix + [(k, parts)];
    UniquePrefix(topics);
    var before := ListData(prefix, topicList);
    var item := ListData(topics, topicList)[j];
    LookupAppend(prefix, [(k, parts)], StrKey(item.topicName));
    if j < |before| {
      ListDataItems(prefix, topicList, j);
    } else {
      var n := k.s;
      assert item == ListTopic(n, ListPartitions(parts));
      assert multiset(topicList)[n] > 0;
    }
  }

  /** Each topic of the OffsetFetch data appears once. */
  lemma {:induction false} FetchDataUnique(topics: TopicMap, topicList: seq<string>)
    requires UniqueKeys(topics)
    ensures UniqueKeys(FetchData(topics, topicList))
  {
    if |topics| > 0 {
      var prefix := topics[..|topics| - 1];
      var (k, parts) := topics[|topics| - 1];
      UniquePrefix(topics);
      FetchDataUnique(prefix, topicList);
      var prev := FetchData(prefix, topicList);
      var entry := FetchEntry(k, parts, topicList);
      KeysAppend(prev, entry);
      if |entry| == 0 {
        assert prev + entry == prev;
      } else {
        assert Keys(entry) == [k];
        FetchDataKeys(prefix, topicList, k);
        DistinctAppend(Keys(prev), k);
      }
    }
  }

  /** A fetched topic carries its name and its topology partition ids, once per matching list entry. */
  lemma {:induction false} FetchDataLookup(topics: TopicMap, topicList: seq<string>, k: Key)
    requires UniqueKeys(topics)
    ensures Lookup(FetchData(topics, topicList), k)
         == if k in Keys(topics) && Matches(k, topicList) > 0
            then Some(FetchTopic(Cycle(PartitionIds(Lookup(topics, k).value), Matches(k, topicList)), k.s))
            else None
  {
    FetchDataKeys(topics, topicList, k);
    if k in Keys(topics) && Matches(k, topicList) > 0 {
      var prefix := topics[..|topics| - 1];
      var (last, parts) := topics[|topics| - 1];
      assert topics == prefix + [(last, parts)];
      UniquePrefix(topics);
      var prev := FetchData(prefix, topicList);
      var entry := FetchEntry(last, parts, topicList);
      LookupAppend(prev, entry, k);
      LookupAppend(prefix, [(last, parts)], k);
      KeysAppend(prefix, [(last, parts)]);
      FetchDataKeys(prefix, topicList, k);
      if k == last {
        PutAbsent(prev, k, entry[0].1);
      } else {
        FetchDataLookup(prefix, topicList, k);
      }
    }
  }

  lemma {:induction false} CommitPartitionsLookup(offsets: Assoc<int, int>, p: int)
    ensures Lookup(CommitPartitions(offsets), p)
         == if Lookup(offsets, p).Some? then Some(CommitPartition(p, Lookup(offsets, p).value)) else None
  {
    if |offsets| > 0 {
      assert CommitPartitions(offsets)[1..] == CommitPartitions(offsets[1..]);
      CommitPartitionsLookup(offsets[1..], p);
    }
  }

  /** The committed topics' entries: the same topics, each with its own name and its offsets by partition. */
  lemma {:induction false} CommitDataLookup(commitOffsets: Assoc<Key, Assoc<int, int>>, t: Key)
    ensures Lookup(CommitData(commitOffsets), t)
         == if Lookup(commitOffsets, t).Some?
            then Some(CommitTopic(CommitPartitions(Lookup(commitOffsets, t).value), t))
            else None
  {
    if |commitOffsets| > 0 {
      assert CommitData(commitOffsets)[1..] == CommitData(commitOffsets[1..]);
      CommitDataLookup(commitOffsets[1..], t);
    }
  }

  /**
   * A topic whose name PHP turns into an integer key (such as "42") is
   * stored under that integer, and the strict comparison with the
   * configured name then never matches: neither request asks for it.
   */
  lemma NumericTopicNeverRequested(ts: seq<TopicMetadata>, topicList: seq<string>, name: string)
    requires ArrayKey(name).IntKey?
    ensures multiset(ListTopicNames(ListData(CandidateTopics(ts), topicList)))[name] == 0
    ensures StrKey(name) !in Keys(FetchData(CandidateTopics(ts), topicList))
  {
    if StrKey(name) in Keys(CandidateTopics(ts)) {
      TopicKeysAreNames(ts, StrKey(name));
      assert false;
    }
    ListDataCount(CandidateTopics(ts), topicList, name);
    FetchDataKeys(CandidateTopics(ts), topicList, StrKey(name));
  }

  /** Topic "orders" with partitions 0 and 1 led by nodes 1 and 2. */
  function OrdersTopology(): TopicMap {
    [(StrKey("orders"), [(0, 1), (1, 2)])]
  }

  /** Listing "orders": one item with partitions 0 and 1, each with offset 100 and time -1. */
  lemma OrdersListExample()
    ensures ListData(OrdersTopology(), ["orders"])
         == [ListTopic("orders", [ListPartition(0, 100, -1), ListPartition(1, 100, -1)])]
  {
    var topics := OrdersTopology();
    assert topics[..0] == [];
    assert multiset(["orders"])["orders"] == 1;
    var parts := topics[0].1;
    assert ListPartitions(parts) == [ListPartition(0, 100, -1), ListPartition(1, 100, -1)];
    assert Repeat(ListTopic("orders", ListPartitions(parts)), 1) == [ListTopic("orders", ListPartitions(parts))];
    assert ListData(topics, ["orders"]) == ListData(topics[..0], ["orders"]) + ListItems(StrKey("orders"), parts, ["orders"]);
  }

  /** Fetching "orders", configured once and then twice: partition ids [0, 1], then [0, 1, 0, 1]. */
  lemma OrdersFetchExample()
    ensures FetchData(OrdersTopology(), ["orders"]) == [(StrKey("orders"), FetchTopic([0, 1], "orders"))]
    ensures FetchData(OrdersTopology(), ["orders", "orders"]) == [(StrKey("orders"), FetchTopic([0, 1, 0, 1], "orders"))]
  {
    var topics := OrdersTopology();
    var parts: PartitionLeaders := [(0, 1), (1, 2)];
    assert topics[..0] == [];
    assert Keys(parts) == [0, 1] by {
      assert Keys(parts) == [0] + Keys(parts[1..]);
      assert parts[1..] == [(1, 2)];
    }
    assert multiset(["orders"])["orders"] == 1;
    assert multiset(["orders", "orders"])["orders"] == 2;
    assert Cycle([0, 1], 1) == [0, 1] by {
      assert Cycle([0, 1], 1) == Cycle([0, 1], 0) + [0, 1];
    }
    assert Cycle([0, 1], 2) == [0, 1, 0, 1];
  }

  /** Committing offset 42 for partition 0 of "orders". */
  lemma OrdersCommitExample()
    ensures CommitData([(StrKey("orders"), [(0, 42)])])
         == [(StrKey("orders"), CommitTopic([(0, CommitPartition(0, 42))], StrKey("orders")))]
  {
    assert CommitPartitions([(0, 42)]) == [(0, CommitPartition(0, 42))];
  }

  // ---------------------------------------------------------------------------
  // The process

  class Process {
    const broker: Broker
    /** The configured topic list (`OffsetConfig::getTopics`). */
    const topicList: seq<string>
    /** The configured group id (`OffsetConfig::getGroupId`). */
    const groupId: string

    constructor (broker: Broker, topicList: seq<string>, groupId: string)
      ensures this.broker == broker && this.topicList == topicList && this.groupId == groupId
    {
      this.broker := broker;
      this.topicList := topicList;
      this.groupId := groupId;
    }

    /**
     * `listOffset`. `conn` is the coordinator connection `getMetaConnect`
     * returned (not synchronous); its effect on the registry is `ConnectEffect`.
     */
    method ListOffset<D>(coordinator: string, connect: (string, int) -> ConnectOutcome, wire: Wire<D>)
      returns (r: Reply<D>, ghost conn: Option<Client>)
      requires broker.Valid()
      modifies broker, broker.config
      ensures broker.ConnectEffect(MetaClients, coordinator, false, connect, conn)
      ensures r.Decoded? <==> conn.Some?
      ensures r.Decoded? ==>
                r.response == Exchange(wire, conn.value, OffsetRequest, ListOffsets(ReplicaId, ListData(broker.topics, topicList)))
    {
      var topics := broker.topics;
      var c := broker.GetMetaConnect(coordinator, false, connect);
      conn := c;
      if c.None? {
        r := EmptyArray;
        return;
      }
      var data := BuildListData(topics, topicList);
      var params := ListOffsets(ReplicaId, data);
      var requestData := wire.encode(OffsetRequest, params);
      var response := wire.send(c.value, requestData);
      r := Decoded(wire.decode(OffsetRequest, SubstrFrom(response, HeaderLength)));
    }

    /** `fetchOffset`, with `conn` as in `ListOffset`. */
    method FetchOffset<D>(coordinator: string, connect: (string, int) -> ConnectOutcome, wire: Wire<D>)
      returns (r: Reply<D>, ghost conn: Option<Client>)
      requires broker.Valid()
      modifies broker, broker.config
      ensures broker.ConnectEffect(MetaClients, coordinator, false, connect, conn)
      ensures r.Decoded? <==> conn.Some?
      ensures r.Decoded? ==>
                r.response == Exchange(wire, conn.value, OffsetFetchRequest, FetchOffsets(groupId, FetchData(broker.topics, topicList)))
    {
      var topics := broker.topics;
      var c := broker.GetMetaConnect(coordinator, false, connect);
      conn := c;
      if c.None? {
        r := EmptyArray;
        return;
      }
      var data := BuildFetchData(topics, topicList);
      var params := FetchOffsets(groupId, data);
      var requestData := wire.encode(OffsetFetchRequest, params);
      var response := wire.send(c.value, requestData);
      r := Decoded(wire.decode(OffsetFetchRequest, SubstrFrom(response, HeaderLength)));
    }

    /**
     * The consumer's group id, generation id and member id are read from
     * shared state at call time and so are inputs here.
     */
    method Commit<D>(coordinator: string, connect: (string, int) -> ConnectOutcome, wire: Wire<D>,
                     commitOffsets: Assoc<Key, Assoc<int, int>>, consumerGroupId: string, generationId: int, memberId: string)
      returns (r: Result<D, CommitError>, ghost conn: Option<Client>)
      requires broker.Valid() && WellFormedOffsets(commitOffsets)
      modifies broker, broker.config
      ensures broker.ConnectEffect(MetaClients, coordinator, false, connect, conn)
      ensures r.Success? <==> conn.Some?
      ensures r.Failure? ==> r.error == SendOnNull
      ensures r.Success? ==>
                r.value == Exchange(wire, conn.value, OffsetCommitRequest,
                                    CommitOffsets(consumerGroupId, generationId, memberId, CommitData(commitOffsets)))
    {
      var c := broker.GetMetaConnect(coordinator, false, connect);
      conn := c;
      var data := BuildCommitData(commitOffsets);
      var params := CommitOffsets(consumerGroupId, generationId, memberId, data);
      var requestData := wire.encode(OffsetCommitRequest, params);
      if c.None? {
        r := Failure(SendOnNull);
        return;
      }
      var response := wire.send(c.value, requestData);
      r := Success(wire.decode(OffsetCommitRequest, SubstrFrom(response, HeaderLength)));
    }
  }
}
