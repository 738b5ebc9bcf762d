/**
 * The broker registry of src/Broker.php: the cluster topology taken from
 * metadata responses (node id -> "host:port", topic -> partition -> leader)
 * and the two connection caches, one for metadata traffic and one for data
 * traffic, filled lazily by `getConnect`. Opening a socket is not modelled:
 * a connection is a `Client` object, and whether its `connect()` succeeds,
 * fails or throws is given by an oracle on the address it dials.
 */
module BrokerRegistry {
  import opened Wrappers
  import opened PhpString
  import opened PhpArray

  /** `Protocol::NO_ERROR`, the error code of a healthy topic. */
  const NoError: int := 0

  // ---------------------------------------------------------------------------
  // Metadata as the decoded response presents it

  datatype BrokerMetadata = BrokerMetadata(nodeId: int, host: string, port: int)

  datatype PartitionMetadata = PartitionMetadata(partitionId: int, leader: int)

  datatype TopicMetadata = TopicMetadata(errorCode: int, topicName: string, partitions: seq<PartitionMetadata>)

  /** partitionId -> leader node id */
  type PartitionLeaders = Assoc<int, int>

  /** topic name (as a PHP key) -> its partition leaders */
  type TopicMap = Assoc<Key, PartitionLeaders>

  /** `$value['host'] . ':' . $value['port']` */
  function Address(host: string, port: int): string {
    host + ":" + IntToDecimal(port)
  }

  function BrokerPairs(rs: seq<BrokerMetadata>): (ps: seq<(int, string)>)
    ensures |ps| == |rs|
  {
    seq(|rs|, i requires 0 <= i < |rs| => (rs[i].nodeId, Address(rs[i].host, rs[i].port)))
  }

  /** The `$brokers` array `setData` builds from the broker list. */
  function CandidateBrokers(rs: seq<BrokerMetadata>): Assoc<int, string> {
    FromPairs(BrokerPairs(rs))
  }

  function LeaderPairs(parts: seq<PartitionMetadata>): (ps: seq<(int, int)>)
    ensures |ps| == |parts|
  {
    seq(|parts|, i requires 0 <= i < |parts| => (parts[i].partitionId, parts[i].leader))
  }

  /** The `$item` array `setData` builds from one topic's partitions. */
  function PartitionMap(parts: seq<PartitionMetadata>): PartitionLeaders {
    FromPairs(LeaderPairs(parts))
  }

  /** The `$newTopics` array `setData` builds: topics with an error code are skipped. */
  function CandidateTopics(ts: seq<TopicMetadata>): (r: TopicMap)
    ensures UniqueKeys(r)
  {
    if |ts| == 0 then []
    else
      var prev := CandidateTopics(ts[..|ts| - 1]);
      var t := ts[|ts| - 1];
      if t.errorCode != NoError then prev
      else
        PutUnique(prev, ArrayKey(t.topicName), PartitionMap(t.partitions));
        Put(prev, ArrayKey(t.topicName), PartitionMap(t.partitions))
  }

  /** The topology snapshot held by the registry. */
  datatype Topology = Topology(brokers: Assoc<int, string>, topics: TopicMap)

  /**
   * What `setData` does to the snapshot: each stored array is replaced by
   * its candidate when their serialisations differ, and the flag says
   * whether either differed. Serialisations of these arrays are equal
   * exactly when the arrays are, order of keys included.
   */
  function Refresh(current: Topology, ts: seq<TopicMetadata>, rs: seq<BrokerMetadata>): (Topology, bool) {
    var brokers := CandidateBrokers(rs);
    var topics := CandidateTopics(ts);
    (Topology(brokers, topics), brokers != current.brokers || topics != current.topics)
  }

  /** The node ids of the broker list, in response order. */
  function NodeIds(rs: seq<BrokerMetadata>): (ids: seq<int>)
    ensures |ids| == |rs|
  {
    seq(|rs|, i requires 0 <= i < |rs| => rs[i].nodeId)
  }

  /** A node id's address comes from its last entry in the broker list. */
  lemma BrokersLaterWins(rs: seq<BrokerMetadata>, i: nat)
    requires i < |rs|
    requires forall j :: i < j < |rs| ==> rs[j].nodeId != rs[i].nodeId
    ensures Lookup(CandidateBrokers(rs), rs[i].nodeId) == Some(Address(rs[i].host, rs[i].port))
  {
    var ps := BrokerPairs(rs);
    FromPairsLookup(ps, rs[i].nodeId);
    LastValueAt(ps, i);
  }

  /** The brokers array holds each node id of the list once, where it first appears, and nothing else. */
  lemma BrokersKeyOrder(rs: seq<BrokerMetadata>)
    ensures Keys(CandidateBrokers(rs)) == FirstOccurrences(NodeIds(rs))
    ensures forall id :: id in Keys(CandidateBrokers(rs)) <==> id in NodeIds(rs)
  {
    FromPairsKeys(BrokerPairs(rs));
    assert Keys(BrokerPairs(rs)) == NodeIds(rs);
  }

  /** A partition's leader comes from its last entry in the partition list. */
  lemma PartitionsLaterWin(parts: seq<PartitionMetadata>, i: nat)
    requires i < |parts|
    requires forall j :: i < j < |parts| ==> parts[j].partitionId != parts[i].partitionId
    ensures Lookup(PartitionMap(parts), parts[i].partitionId) == Some(parts[i].leader)
  {
    var ps := LeaderPairs(parts);
    FromPairsLookup(ps, parts[i].partitionId);
    LastValueAt(ps, i);
  }

  /** Some entry of the topic list has this name and no error. */
  predicate ReportedHealthy(ts: seq<TopicMetadata>, name: string) {
    exists i :: 0 <= i < |ts| && ts[i].topicName == name && ts[i].errorCode == NoError
  }

  lemma ReportedHealthySnoc(ts: seq<TopicMetadata>, name: string)
    requires |ts| > 0
    ensures ReportedHealthy(ts, name)
        <==> ReportedHealthy(ts[..|ts| - 1], name) || (ts[|ts| - 1].topicName == name && ts[|ts| - 1].errorCode == NoError)
  {
    var prefix := ts[..|ts| - 1];
    if ReportedHealthy(ts, name) {
      var i :| 0 <= i < |ts| && ts[i].topicName == name && ts[i].errorCode == NoError;
      if i < |ts| - 1 {
        assert prefix[i] == ts[i];
      }
    }
    if ReportedHealthy(prefix, name) {
      var i :| 0 <= i < |prefix| && prefix[i].topicName == name && prefix[i].errorCode == NoError;
      assert ts[i] == prefix[i];
    }
  }

  /** A topic is kept exactly when some entry with its name carries no error. */
  lemma {:induction false} TopicsKept(ts: seq<TopicMetadata>, name: string)
    ensures ArrayKey(name) in Keys(CandidateTopics(ts)) <==> ReportedHealthy(ts, name)
  {
    if |ts| > 0 {
      var prefix := ts[..|ts| - 1];
      var t := ts[|ts| - 1];
      TopicsKept(prefix, name);
      ReportedHealthySnoc(ts, name);
      if ArrayKey(t.topicName) == ArrayKey(name) {
        ArrayKeyInjective(t.topicName, name);
      }
    }
  }

  /** The keys of the error-free topic entries, in response order, duplicates included. */
  function HealthyKeys(ts: seq<TopicMetadata>): seq<Key>
  {
    if |ts| == 0 then []
    else
      var t := ts[|ts| - 1];
      HealthyKeys(ts[..|ts| - 1]) + if t.errorCode == NoError then [ArrayKey(t.topicName)] else []
  }

  /** The topics array holds each kept topic once, where its first error-free entry stands. */
  lemma {:induction false} TopicsKeyOrder(ts: seq<TopicMetadata>)
    ensures Keys(CandidateTopics(ts)) == FirstOccurrences(HealthyKeys(ts))
  {
    if |ts| > 0 {
      var prefix := ts[..|ts| - 1];
      var t := ts[|ts| - 1];
      TopicsKeyOrder(prefix);
      var hk := HealthyKeys(prefix);
      if t.errorCode == NoError {
        var k := ArrayKey(t.topicName);
        assert HealthyKeys(ts) == hk + [k];
        assert (hk + [k])[..|hk|] == hk;
        assert k in Keys(CandidateTopics(prefix)) <==> k in hk;
      } else {
        assert HealthyKeys(ts) == hk + [] == hk;
        assert CandidateTopics(ts) == CandidateTopics(prefix);
      }
    }
  }

  /** A kept topic's partitions come from its last error-free entry. */
  lemma {:induction false} TopicsLaterWin(ts: seq<TopicMetadata>, i: nat)
    requires i < |ts| && ts[i].errorCode == NoError
    requires forall j :: i < j < |ts| && ts[j].errorCode == NoError ==> ts[j].topicName != ts[i].topicName
    ensures Lookup(CandidateTopics(ts), ArrayKey(ts[i].topicName)) == Some(PartitionMap(ts[i].partitions))
  {
    var prefix := ts[..|ts| - 1];
    var t := ts[|ts| - 1];
    if i < |ts| - 1 {
      TopicsLaterWin(prefix, i);
      if t.errorCode == NoError {
        if ArrayKey(t.topicName) == ArrayKey(ts[i].topicName) {
          ArrayKeyInjective(t.topicName, ts[i].topicName);
        }
        PutOther(CandidateTopics(prefix), ArrayKey(t.topicName), PartitionMap(t.partitions), ArrayKey(ts[i].topicName));
      }
    }
  }

  /** Every key of the stored topic map is the key of some reported topic's name. */
  lemma {:induction false} TopicKeysAreNames(ts: seq<TopicMetadata>, k: Key)
    requires k in Keys(CandidateTopics(ts))
    ensures exists i :: 0 <= i < |ts| && k == ArrayKey(ts[i].topicName)
  {
    var prefix := ts[..|ts| - 1];
    var t := ts[|ts| - 1];
    if t.errorCode != NoError || k != ArrayKey(t.topicName) {
      TopicKeysAreNames(prefix, k);
      var i :| 0 <= i < |prefix| && k == ArrayKey(prefix[i].topicName);
      assert ts[i] == prefix[i];
    }
  }

  /** Feeding the same metadata twice: the second `setData` reports no change and keeps the snapshot. */
  lemma RefreshIdempotent(current: Topology, ts: seq<TopicMetadata>, rs: seq<BrokerMetadata>)
    ensures var (once, _) := Refresh(current, ts, rs);
            Refresh(once, ts, rs) == (once, false)
  {
  }

  lemma FirstBrokerFirst(a: BrokerMetadata, b: BrokerMetadata)
    requires a.nodeId != b.nodeId
    ensures |CandidateBrokers([a, b])| > 0 && CandidateBrokers([a, b])[0].0 == a.nodeId
  {
    var ps := BrokerPairs([a, b]);
    assert ps[..1][..0] == [];
    assert FromPairs(ps[..1]) == [ps[0]];
    assert ps[..2][..1] == ps[..1] && ps[..2] == ps;
    assert FromPairs(ps) == Put([ps[0]], ps[1].0, ps[1].1);
  }

  /** The comparison is by serialisation: the same brokers listed in another order count as a change. */
  lemma ReorderedBrokersReportChange()
    ensures var a := BrokerMetadata(1, "a", 9092);
            var b := BrokerMetadata(2, "b", 9092);
            var (once, _) := Refresh(Topology([], []), [], [a, b]);
            Refresh(once, [], [b, a]).1
  {
    var a := BrokerMetadata(1, "a", 9092);
    var b := BrokerMetadata(2, "b", 9092);
    FirstBrokerFirst(a, b);
    FirstBrokerFirst(b, a);
  }

  // ---------------------------------------------------------------------------
  // Security negotiation

  /**
   * The configured security protocol. The named constructors are the only
   * encoding of the `Config::SECURITY_PROTOCOL_*` constants: `OtherProtocol`
   * stands for any other configured value, never for one of those four.
   */
  datatype SecurityProtocol = Plaintext | Ssl | SaslPlaintext | SaslSsl | OtherProtocol(name: string)

  /**
   * The configured SASL mechanism. The named constructors are the only
   * encoding of the `Config::SASL_MECHANISMS_*` constants: `OtherMechanism`
   * stands for any other configured value, never for one of those three.
   */
  datatype SaslMechanism = Plain | Gssapi | ScramSha512 | OtherMechanism(name: string)

  /** The `Plain` SASL handler, built from the configured credentials. */
  datatype SaslProvider = PlainProvider(username: string, password: string)

  /** The exception `getSaslMechanismProvider` throws. */
  datatype SecurityError = InvalidSaslMechanism(mechanism: SaslMechanism)

  /** `! in_array($securityProtocol, [PLAINTEXT, SASL_PLAINTEXT], true)` */
  predicate SslEnabled(p: SecurityProtocol) {
    p != Plaintext && p != SaslPlaintext
  }

  /** `in_array($securityProtocol, [SASL_SSL, SASL_PLAINTEXT], true)` */
  predicate UsesSasl(p: SecurityProtocol) {
    p == SaslSsl || p == SaslPlaintext
  }

  /** `getSaslMechanismProvider`: only PLAIN is implemented; every other mechanism throws. */
  function SaslMechanismProvider(mechanism: SaslMechanism, username: string, password: string): (r: Result<SaslProvider, SecurityError>)
    ensures r.Success? <==> mechanism == Plain
    ensures r.Success? ==> r.value == PlainProvider(username, password)
    ensures r.Failure? ==> r.error == InvalidSaslMechanism(mechanism)
  {
    match mechanism
    case Plain => Success(PlainProvider(username, password))
    case Gssapi => Failure(InvalidSaslMechanism(mechanism))
    case ScramSha512 => Failure(InvalidSaslMechanism(mechanism))
    case OtherMechanism(_) => Failure(InvalidSaslMechanism(mechanism))
  }

  /** The client configuration; the core only ever writes `sslEnable`. */
  class Config {
    const securityProtocol: SecurityProtocol
    const saslMechanism: SaslMechanism
    const saslUsername: string
    const saslPassword: string
    var sslEnable: bool

    constructor (securityProtocol: SecurityProtocol, saslMechanism: SaslMechanism, saslUsername: string, saslPassword: string)
      ensures this.securityProtocol == securityProtocol && this.saslMechanism == saslMechanism
      ensures this.saslUsername == saslUsername && this.saslPassword == saslPassword
      ensures !sslEnable
    {
      this.securityProtocol := securityProtocol;
      this.saslMechanism := saslMechanism;
      this.saslUsername := saslUsername;
      this.saslPassword := saslPassword;
      sslEnable := false;
    }
  }

  /** The outcome of `judgeConnectionConfig` for a configuration (null: no negotiation). */
  function Negotiation(config: Config?): (r: Result<Option<SaslProvider>, SecurityError>)
    ensures r.Failure? <==> config != null && UsesSasl(config.securityProtocol) && config.saslMechanism != Plain
    ensures r.Success? && r.value.Some? <==> config != null && UsesSasl(config.securityProtocol) && config.saslMechanism == Plain
  {
    if config == null || !UsesSasl(config.securityProtocol) then Success(None)
    else match SaslMechanismProvider(config.saslMechanism, config.saslUsername, config.saslPassword)
      case Success(p) => Success(Some(p))
      case Failure(e) => Failure(e)
  }

  // ---------------------------------------------------------------------------
  // Connections

  /** A connection object; its socket is not modelled. */
  class Client {
    const host: string
    const port: int
    const config: Config?

    constructor (host: string, port: int, config: Config?)
      ensures this.host == host && this.port == port && this.config == config
    {
      this.host := host;
      this.port := port;
      this.config := config;
    }
  }

  /** What `$client->connect()` does: returns true, returns false, or throws. */
  datatype ConnectOutcome = Connected | Refused | Threw(message: string)

  /** The two caches, selected in the source by the property name 'metaClients' or 'dataClients'. */
  datatype Role = MetaClients | DataClients {
    function Other(): Role {
      if this == MetaClients then DataClients else MetaClients
    }
  }

  /** `$this->brokers[$key]` for a string key: only an integer-looking key can hit a node id. */
  function BrokerAddress(brokers: Assoc<int, string>, key: string): Option<string> {
    match ArrayKey(key)
    case IntKey(id) => Lookup(brokers, id)
    case StrKey(_) => None
  }

  /** The two cache lookups of `getConnect`: under the key, then under the address the key resolves to. */
  function CachedClient(pool: map<string, Client>, brokers: Assoc<int, string>, key: string): Option<Client> {
    if key in pool then Some(pool[key])
    else match BrokerAddress(brokers, key)
      case Some(address) => if address in pool then Some(pool[address]) else None
      case None => None
  }

  /**
   * Host and port (still strings) as `getConnect` determines them: split
   * from the node's address, overridden by a key that contains ':'. None
   * when either is still null.
   */
  function Endpoint(brokers: Assoc<int, string>, key: string): Option<(string, string)> {
    if ':' in key then
      var parts := Explode(':', key);
      Some((parts[0], parts[1]))
    else match BrokerAddress(brokers, key)
      case Some(address) =>
        var parts := Explode(':', address);
        if |parts| >= 2 then Some((parts[0], parts[1])) else None
      case None => None
  }

  /** What `getConnect` decides before it tries to build a client. */
  datatype Plan = Reuse(client: Client) | NotReady | Dial(host: string, port: int)

  function PlanConnect(pool: map<string, Client>, brokers: Assoc<int, string>, hasProcess: bool, key: string, modeSync: bool): Plan {
    match CachedClient(pool, brokers, key)
    case Some(c) => Reuse(c)
    case None =>
      match Endpoint(brokers, key)
      case None => NotReady
      case Some((host, port)) =>
        if !modeSync && !hasProcess then NotReady else Dial(host, IntCast(port))
  }

  /**
   * The host and port assignments of `getConnect`: split the node's address
   * at ':', then let a key containing ':' override both.
   */
  method ResolveEndpoint(brokers: Assoc<int, string>, key: string, address: Option<string>) returns (endpoint: Option<(string, string)>)
    requires address == BrokerAddress(brokers, key)
    ensures endpoint == Endpoint(brokers, key)
  {
    var host: Option<string> := None;
    var port: Option<string> := None;
    if address.Some? {
      var parts := Explode(':', address.value);
      host := Some(parts[0]);
      port := if |parts| >= 2 then Some(parts[1]) else None;
    }
    if ':' in key {
      var parts := Explode(':', key);
      host := Some(parts[0]);
      port := Some(parts[1]);
    }
    endpoint := if host.Some? && port.Some? then Some((host.value, port.value)) else None;
  }

  /** `getConnect` returns a client exactly when this holds. */
  predicate ConnectSucceeds(plan: Plan, config: Config?, connect: (string, int) -> ConnectOutcome) {
    plan.Reuse? || (plan.Dial? && Negotiation(config).Success? && connect(plan.host, plan.port) == Connected)
  }

  /** Splitting an address at ':' gives back its host and the decimal port, which casts back to the port. */
  lemma AddressSplits(host: string, port: int)
    requires ':' !in host
    ensures Explode(':', Address(host, port)) == [host, IntToDecimal(port)]
    ensures IntCast(IntToDecimal(port)) == port
  {
    DecimalHasNoColon(port);
    ExplodeAfterFirst(':', host, IntToDecimal(port));
    ExplodeWithoutSeparator(':', IntToDecimal(port));
    IntCastOfDecimal(port);
  }

  /** A node id used as a string key resolves, through the brokers array, to that node's host and port. */
  lemma NodeIdKeyDials(pool: map<string, Client>, brokers: Assoc<int, string>, hasProcess: bool, id: int, host: string, port: int)
    requires Int64Min <= id <= Int64Max
    requires Lookup(brokers, id) == Some(Address(host, port))
    requires ':' !in host
    requires IntToDecimal(id) !in pool && Address(host, port) !in pool
    ensures PlanConnect(pool, brokers, hasProcess, IntToDecimal(id), true) == Dial(host, port)
    ensures PlanConnect(pool, brokers, hasProcess, IntToDecimal(id), false) == if hasProcess then Dial(host, port) else NotReady
  {
    ArrayKeyOfDecimal(id);
    DecimalHasNoColon(id);
    AddressSplits(host, port);
    assert BrokerAddress(brokers, IntToDecimal(id)) == Some(Address(host, port));
    assert Endpoint(brokers, IntToDecimal(id)) == Some((host, IntToDecimal(port)));
  }

  /** A key that is itself an address "host:port" dials that address, whatever the brokers array holds. */
  lemma AddressKeyDials(pool: map<string, Client>, brokers: Assoc<int, string>, hasProcess: bool, host: string, port: int)
    requires ':' !in host
    requires Address(host, port) !in pool
    ensures PlanConnect(pool, brokers, hasProcess, Address(host, port), true) == Dial(host, port)
    ensures PlanConnect(pool, brokers, hasProcess, Address(host, port), false) == if hasProcess then Dial(host, port) else NotReady
  {
    var key := Address(host, port);
    assert key[|host|] == ':';
    ColonKeyIsString(key);
    AddressSplits(host, port);
  }

  /** A key that is neither cached, nor a known node id, nor an address gets no connection. */
  lemma UnknownKeyNotReady(pool: map<string, Client>, brokers: Assoc<int, string>, hasProcess: bool, key: string, modeSync: bool)
    requires key !in pool && ':' !in key
    requires ArrayKey(key).StrKey? || ArrayKey(key).i !in Keys(brokers)
    ensures PlanConnect(pool, brokers, hasProcess, key, modeSync) == NotReady
  {
  }

  /** After `setData`, asking for a node by its id dials the address the metadata gave for it. */
  lemma SetDataThenDial(rs: seq<BrokerMetadata>, i: nat, pool: map<string, Client>, hasProcess: bool)
    requires i < |rs|
    requires forall j :: i < j < |rs| ==> rs[j].nodeId != rs[i].nodeId
    requires Int64Min <= rs[i].nodeId <= Int64Max && ':' !in rs[i].host
    requires IntToDecimal(rs[i].nodeId) !in pool && Address(rs[i].host, rs[i].port) !in pool
    ensures PlanConnect(pool, CandidateBrokers(rs), hasProcess, IntToDecimal(rs[i].nodeId), true) == Dial(rs[i].host, rs[i].port)
  {
    BrokersLaterWins(rs, i);
    NodeIdKeyDials(pool, CandidateBrokers(rs), hasProcess, rs[i].nodeId, rs[i].host, rs[i].port);
  }

  /** A client is returned only when security negotiation succeeds: a SASL mechanism other than PLAIN never connects. */
  lemma UnsupportedMechanismNeverConnects(plan: Plan, config: Config, connect: (string, int) -> ConnectOutcome)
    requires UsesSasl(config.securityProtocol) && config.saslMechanism != Plain
    ensures ConnectSucceeds(plan, config, connect) <==> plan.Reuse?
  {
  }

  /** The first loop of `setData`: node id -> "host:port", in response order. */
  method BuildBrokers(rs: seq<BrokerMetadata>) returns (candidate: Assoc<int, string>)
    ensures candidate == CandidateBrokers(rs)
  {
    candidate := [];
    ghost var ps := BrokerPairs(rs);
    var i := 0;
    while i < |rs|
      invariant 0 <= i <= |rs|
      invariant candidate == FromPairs(ps[..i])
    {
      var value := rs[i];
      var address := Address(value.host, value.port);
      FromPairsStep(ps, i);
      assert ps[i] == (value.nodeId, address);
      candidate := Put(candidate, value.nodeId, address);
      i := i + 1;
    }
    assert ps[..i] == ps;
  }

  /** The inner loop of `setData`: partition id -> leader for one topic. */
  method BuildPartitionLeaders(parts: seq<PartitionMetadata>) returns (item: PartitionLeaders)
    ensures item == PartitionMap(parts)
  {
    item := [];
    var j := 0;
    while j < |parts|
      invariant 0 <= j <= |parts|
      invariant item == FromPairs(LeaderPairs(parts)[..j])
    {
      var part := parts[j];
      FromPairsStep(LeaderPairs(parts), j);
      item := Put(item, part.partitionId, part.leader);
      j := j + 1;
    }
    assert LeaderPairs(parts)[..j] == LeaderPairs(parts);
  }

  /** The second loop of `setData`: topics without an error code, by name. */
  method BuildTopics(ts: seq<TopicMetadata>) returns (newTopics: TopicMap)
    ensures newTopics == CandidateTopics(ts)
  {
    newTopics := [];
    var i := 0;
    while i < |ts|
      invariant 0 <= i <= |ts|
      invariant newTopics == CandidateTopics(ts[..i])
    {
      var topic := ts[i];
      assert ts[..i + 1][..i] == ts[..i];
      if topic.errorCode == NoError {
        var item := BuildPartitionLeaders(topic.partitions);
        newTopics := Put(newTopics, ArrayKey(topic.topicName), item);
      }
      i := i + 1;
    }
    assert ts[..i] == ts;
  }

  class Broker {
    var topics: TopicMap
    var brokers: Assoc<int, string>
    var config: Config?
    /** whether `$this->process` is set */
    var process: bool
    var metaClients: map<string, Client>
    var dataClients: map<string, Client>

    ghost predicate Valid()
      reads this
    {
      UniqueKeys(brokers) && UniqueKeys(topics)
    }

    constructor (config: Config?, hasProcess: bool)
      ensures Valid()
      ensures topics == [] && brokers == [] && metaClients == map[] && dataClients == map[]
      ensures this.config == config && process == hasProcess
    {
      topics := [];
      brokers := [];
      this.config := config;
      process := hasProcess;
      metaClients := map[];
      dataClients := map[];
    }

    function Pool(role: Role): map<string, Client>
      reads this
    {
      match role
      case MetaClients => metaClients
      case DataClients => dataClients
    }

    function Snapshot(): Topology
      reads this
    {
      Topology(brokers, topics)
    }

    method SetData(topicsResult: seq<TopicMetadata>, brokersResult: seq<BrokerMetadata>) returns (changed: bool)
      modifies this
      ensures Valid()
      ensures (Snapshot(), changed) == Refresh(old(Snapshot()), topicsResult, brokersResult)
      ensures metaClients == old(metaClients) && dataClients == old(dataClients)
      ensures config == old(config) && process == old(process)
    {
      ghost var refreshed := Refresh(Snapshot(), topicsResult, brokersResult);
      var candidate := BuildBrokers(brokersResult);
      changed := false;
      if brokers != candidate {
        brokers := candidate;
        changed := true;
      }
      assert brokers == refreshed.0.brokers;

      var newTopics := BuildTopics(topicsResult);
      if topics != newTopics {
        topics := newTopics;
        changed := true;
      }
      assert topics == refreshed.0.topics;
      assert changed == refreshed.1;
    }

    /**
     * The effect of a `getConnect` call for `role` and `key`: what it
     * returns, what the cache and the configuration's ssl flag become,
     * and that nothing else changes.
     */
    twostate predicate ConnectEffect(role: Role, key: string, modeSync: bool, connect: (string, int) -> ConnectOutcome, new r: Option<Client>)
      reads this, config
    {
      var plan := PlanConnect(old(Pool(role)), old(brokers), old(process), key, modeSync);
      && Valid()
      && brokers == old(brokers) && topics == old(topics)
      && config == old(config) && process == old(process)
      && Pool(role.Other()) == old(Pool(role.Other()))
      && (r.Some? <==> ConnectSucceeds(plan, config, connect))
      && (plan.Reuse? ==> r == Some(plan.client))
      && (r.Some? && plan.Dial? ==> fresh(r.value) && r.value.host == plan.host && r.value.port == plan.port && r.value.config == config)
      && (r.Some? ==> CachedClient(Pool(role), brokers, key) == r)
      && Pool(role) == (if plan.Dial? && r.Some? then old(Pool(role))[key := r.value] else old(Pool(role)))
      && (config != null ==>
            config.sslEnable == if plan.Dial? then SslEnabled(config.securityProtocol) else old(config.sslEnable))
    }

    method GetMetaConnect(key: string, modeSync: bool, connect: (string, int) -> ConnectOutcome) returns (r: Option<Client>)
      requires Valid()
      modifies this, config
      ensures ConnectEffect(MetaClients, key, modeSync, connect, r)
    {
      r := GetConnect(key, MetaClients, modeSync, connect);
    }

    method GetDataConnect(key: string, modeSync: bool, connect: (string, int) -> ConnectOutcome) returns (r: Option<Client>)
      requires Valid()
      modifies this, config
      ensures ConnectEffect(DataClients, key, modeSync, connect, r)
    {
      r := GetConnect(key, DataClients, modeSync, connect);
    }

    method GetConnect(key: string, role: Role, modeSync: bool, connect: (string, int) -> ConnectOutcome) returns (r: Option<Client>)
      requires Valid()
      modifies this, config
      ensures ConnectEffect(role, key, modeSync, connect, r)
    {
      ghost var plan := PlanConnect(Pool(role), brokers, process, key, modeSync);
      var pool := Pool(role);
      if key in pool {
        assert plan == Reuse(pool[key]);
        return Some(pool[key]);
      }
      var address := BrokerAddress(brokers, key);
      if address.Some? && address.value in pool {
        assert plan == Reuse(pool[address.value]);
        return Some(pool[address.value]);
      }
      assert CachedClient(pool, brokers, key) == None;
      var endpoint := ResolveEndpoint(brokers, key, address);
      if endpoint.None? || (!modeSync && !process) {
        assert plan == NotReady;
        return None;
      }
      var (host, port) := endpoint.value;
      assert plan == Dial(host, IntCast(port));
      r := TryOpen(key, role, host, IntCast(port), modeSync, connect);
    }

    /**
     * The `try` block of `getConnect`: build the client, connect, and cache
     * it under the key on success; a thrown exception ends in null.
     */
    method TryOpen(key: string, role: Role, host: string, port: int, modeSync: bool, connect: (string, int) -> ConnectOutcome) returns (r: Option<Client>)
      requires Valid()
      modifies this, config
      ensures Valid()
      ensures brokers == old(brokers) && topics == old(topics)
      ensures config == old(config) && process == old(process)
      ensures Pool(role.Other()) == old(Pool(role.Other()))
      ensures r.Some? <==> Negotiation(config).Success? && connect(host, port) == Connected
      ensures r.Some? ==> fresh(r.value) && r.value.host == host && r.value.port == port && r.value.config == config
      ensures Pool(role) == if r.Some? then old(Pool(role))[key := r.value] else old(Pool(role))
      ensures config != null ==> config.sslEnable == SslEnabled(config.securityProtocol)
    {
      var client := GetClient(host, port, modeSync);
      if client.Failure? {
        return None;
      }
      var c := client.value;
      if connect(c.host, c.port) == Connected {
        if role == MetaClients {
          metaClients := metaClients[key := c];
        } else {
          dataClients := dataClients[key := c];
        }
        return Some(c);
      }
      return None;
    }

    /** Negotiates security, then builds the client; the SASL provider itself goes unused. */
    method GetClient(host: string, port: int, modeSync: bool) returns (r: Result<Client, SecurityError>)
      modifies config
      ensures config != null ==> config.sslEnable == SslEnabled(config.securityProtocol)
      ensures r.Failure? <==> Negotiation(config).Failure?
      ensures r.Failure? ==> r.error == Negotiation(config).error
      ensures r.Success? ==> fresh(r.value) && r.value.host == host && r.value.port == port && r.value.config == config
    {
      var saslProvider := JudgeConnectionConfig();
      if saslProvider.Failure? {
        return Failure(saslProvider.error);
      }
      var client := new Client(host, port, config);
      return Success(client);
    }

    method JudgeConnectionConfig() returns (r: Result<Option<SaslProvider>, SecurityError>)
      modifies config
      ensures r == Negotiation(config)
      ensures config != null ==> config.sslEnable == SslEnabled(config.securityProtocol)
    {
      if config == null {
        return Success(None);
      }
      var plainConnections := [Plaintext, SaslPlaintext];
      var saslConnections := [SaslSsl, SaslPlaintext];
      var securityProtocol := config.securityProtocol;
      config.sslEnable := securityProtocol !in plainConnections;
      if securityProtocol in saslConnections {
        var provider := SaslMechanismProvider(config.saslMechanism, config.saslUsername, config.saslPassword);
        if provider.Failure? {
          return Failure(provider.error);
        }
        return Success(Some(provider.value));
      }
      return Success(None);
    }
  }
}
