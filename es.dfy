/**
 * The ElasticCluster storage of service/storage/elasticsearch/es.go, without
 * its Elasticsearch client: checking and defaulting the decoded
 * configuration, assembling the node URLs, answering remote-read queries
 * page by page, and turning remote-write series into bulk index requests.
 */
module Elastic {
  import opened Wrappers
  import Prompb
  import Regexp
  import EsSamples
  import EsQuery
  import EsScroll

  // ---------------------------------------------------------------------
  // Nodes
  // ---------------------------------------------------------------------

  datatype ElasticNode = ElasticNode(ip: string, port: string)

  /** The node used when the configuration lists none. */
  const DefaultNode := ElasticNode("127.0.0.1", "9200")

  /** A node passes the address checks: the IP pattern and the port pattern, both as written. */
  predicate NodeOk(node: ElasticNode)
  {
    Regexp.MatchIp(node.ip) && Regexp.MatchPort(node.port)
  }

  /**
   * The check the port pattern evidently intends: every canonical port
   * 0..65535. It accepts every node the check as written accepts, and more.
   */
  predicate IntendedNodeOk(node: ElasticNode)
  {
    Regexp.MatchIp(node.ip) && Regexp.ValidPort(node.port)
  }

  /** The as-written node check is stricter than the intended one, and strictly so. */
  lemma NodeOkWithinIntended(node: ElasticNode)
    ensures NodeOk(node) ==> IntendedNodeOk(node)
    ensures var n := ElasticNode("127.0.0.1", "60009"); IntendedNodeOk(n) && !NodeOk(n)
  {
    Regexp.MatchPortSound(node.port);
    Regexp.ValidPortIff(node.port);
    Regexp.MatchPortRejectsPort60009();
    Regexp.ValidPortIff("60009");
    Regexp.DefaultAddressMatches();
  }

  predicate NodesOk(nodes: seq<ElasticNode>)
  {
    forall i :: 0 <= i < |nodes| ==> NodeOk(nodes[i])
  }

  /** The error for a node that fails a check: the IP is tested first. */
  function NodeMessage(node: ElasticNode): string
  {
    if !Regexp.MatchIp(node.ip) then "ip " + node.ip + " is not match pattern"
    else "port" + node.port + " is not match pattern"
  }

  /** The position of the first node failing a check, or |nodes| when there is none. */
  function FirstBadNode(nodes: seq<ElasticNode>): (b: nat)
    ensures b <= |nodes|
    ensures forall j :: 0 <= j < b ==> NodeOk(nodes[j])
    ensures b < |nodes| ==> !NodeOk(nodes[b])
  {
    if |nodes| == 0 then 0
    else if !NodeOk(nodes[0]) then 0
    else 1 + FirstBadNode(nodes[1..])
  }

  /** The error the node loop of loadConfig returns, if any. */
  function NodesError(nodes: seq<ElasticNode>): Option<string>
  {
    var b := FirstBadNode(nodes);
    if b < |nodes| then Some(NodeMessage(nodes[b])) else None
  }

  /** The node loop fails exactly when some node fails a check, and reports the first such node. */
  lemma NodesErrorContract(nodes: seq<ElasticNode>)
    ensures NodesError(nodes).None? <==> NodesOk(nodes)
    ensures NodesError(nodes).Some? ==>
      exists b :: 0 <= b < |nodes| && !NodeOk(nodes[b]) && (forall j :: 0 <= j < b ==> NodeOk(nodes[j]))
        && NodesError(nodes).value == NodeMessage(nodes[b])
  {
    var b := FirstBadNode(nodes);
    if b < |nodes| {
      assert !NodeOk(nodes[b]) && (forall j :: 0 <= j < b ==> NodeOk(nodes[j]));
    }
  }

  /** The node loop of loadConfig: the first node that fails a check ends it with that node's error. */
  method CheckNodes(nodes: seq<ElasticNode>) returns (err: Option<string>)
    ensures err == NodesError(nodes)
  {
    for i := 0 to |nodes|
      invariant forall j :: 0 <= j < i ==> NodeOk(nodes[j])
    {
      var node := nodes[i];
      if !Regexp.MatchIp(node.ip) {
        FirstBadNodeAt(nodes, i);
        return Some("ip " + node.ip + " is not match pattern");
      } else if !Regexp.MatchPort(node.port) {
        FirstBadNodeAt(nodes, i);
        return Some("port" + node.port + " is not match pattern");
      }
    }
    return None;
  }

  lemma FirstBadNodeAt(nodes: seq<ElasticNode>, i: nat)
    requires i < |nodes| && !NodeOk(nodes[i])
    requires forall j :: 0 <= j < i ==> NodeOk(nodes[j])
    ensures FirstBadNode(nodes) == i
  {
  }

  /** The default node passes both address checks. */
  lemma DefaultNodeOk()
    ensures NodeOk(DefaultNode)
  {
    Regexp.DefaultAddressMatches();
  }

  // ---------------------------------------------------------------------
  // Node URLs
  // ---------------------------------------------------------------------

  function NodeUrl(node: ElasticNode): string
  {
    "http://" + node.ip + ":" + node.port
  }

  /** Reads a node back out of its URL: the host ends at the first ':' after the scheme. */
  function ParseUrl(url: string): Option<ElasticNode>
  {
    if |url| >= 7 && url[..7] == "http://" && ':' in url[7..] then
      var rest := url[7..];
      var i := Regexp.IndexOf(rest, ':');
      Some(ElasticNode(rest[..i], rest[i + 1..]))
    else None
  }

  /** A node whose IP has no ':' is recovered from its URL. */
  lemma UrlRoundTrip(node: ElasticNode)
    requires ':' !in node.ip
    ensures ParseUrl(NodeUrl(node)) == Some(node)
  {
    var url := NodeUrl(node);
    var rest := url[7..];
    assert url[..7] == "http://";
    assert rest == node.ip + ":" + node.port;
    assert rest[|node.ip|] == ':';
    assert rest[..|node.ip|] == node.ip;
    var i := Regexp.IndexOf(rest, ':');
    assert i == |node.ip|;
    assert rest[i + 1..] == node.port;
  }

  /** An address accepted by the IP pattern is digits and dots only, so it holds no ':'. */
  lemma MatchIpHasNoColon(ip: string)
    requires Regexp.MatchIp(ip)
    ensures ':' !in ip
  {
    Regexp.MatchIpDecomposes(ip);
  }

  /** Distinct accepted nodes give distinct URLs. */
  lemma UrlInjective(a: ElasticNode, b: ElasticNode)
    requires NodeOk(a) && NodeOk(b) && NodeUrl(a) == NodeUrl(b)
    ensures a == b
  {
    MatchIpHasNoColon(a.ip);
    MatchIpHasNoColon(b.ip);
    UrlRoundTrip(a);
    UrlRoundTrip(b);
  }

  // ---------------------------------------------------------------------
  // Configuration
  // ---------------------------------------------------------------------

  /** The fields of ElasticCluster that the adapter file sets. */
  datatype Config = Config(
    nodes: seq<ElasticNode>,
    user: string,
    password: string,
    index: string,
    typeAlias: string,
    sniff: bool,
    healthcheck: bool,
    workers: int,
    bulkSize: int,
    querySize: int,
    mappingPath: string)

  const MaxQuerySize := 10000

  function OrDefault(s: string, default: string): string
  {
    if s == "" then default else s
  }

  /** The node list after defaulting: one local node when none is configured. */
  function NodesOrDefault(nodes: seq<ElasticNode>): seq<ElasticNode>
  {
    if |nodes| == 0 then [DefaultNode] else nodes
  }

  /** A configuration loadConfig accepts and leaves as it is. */
  predicate Settled(c: Config)
  {
    && |c.nodes| > 0 && NodesOk(c.nodes)
    && c.user != "" && c.password != "" && c.index != "" && c.typeAlias != ""
    && c.workers != 0 && c.bulkSize != 0
    && c.querySize != 0 && c.querySize <= MaxQuerySize
    && c.mappingPath != ""
  }

  function QuerySizeMessage(adapterFilePath: string): string
  {
    adapterFilePath + ":querySize should less than 10000"
  }

  /** The first step of loadConfig: a configuration without nodes gets the local node. */
  function WithNodes(c: Config): Config
  {
    c.(nodes := NodesOrDefault(c.nodes))
  }

  /** The defaults loadConfig applies once the nodes pass: credentials, index, type, workers, bulk size. */
  function WithDefaults(c: Config): Config
  {
    c.(user := OrDefault(c.user, "elastic"),
       password := OrDefault(c.password, "changeme"),
       index := OrDefault(c.index, "prometheus"),
       typeAlias := OrDefault(c.typeAlias, "metric"),
       workers := if c.workers == 0 then 1 else c.workers,
       bulkSize := if c.bulkSize == 0 then 1 else c.bulkSize)
  }

  /** The last step: querySize defaults to 5000 or is refused above the maximum, then mappingPath defaults. */
  function WithQuerySize(c: Config, adapterFilePath: string): (Config, Option<string>)
  {
    if c.querySize == 0 || c.querySize <= MaxQuerySize then
      (c.(querySize := if c.querySize == 0 then 5000 else c.querySize,
          mappingPath := OrDefault(c.mappingPath, "mapping.json")), None)
    else (c, Some(QuerySizeMessage(adapterFilePath)))
  }

  /**
   * loadConfig after the file is decoded: the configuration it leaves and
   * the error it returns. Checks run in the source's order, and a failing
   * check leaves the later defaults unapplied.
   */
  function LoadSpec(c: Config, adapterFilePath: string): (Config, Option<string>)
  {
    var withNodes := WithNodes(c);
    var nodesError := NodesError(withNodes.nodes);
    if nodesError.Some? then (withNodes, nodesError)
    else WithQuerySize(WithDefaults(withNodes), adapterFilePath)
  }

  /** When loadConfig fails, and what it leaves behind when it does. */
  lemma LoadSpecErrors(c: Config, adapterFilePath: string)
    ensures var r := LoadSpec(c, adapterFilePath);
      r.1.None? <==> NodesOk(NodesOrDefault(c.nodes)) && c.querySize <= MaxQuerySize
    ensures !NodesOk(NodesOrDefault(c.nodes)) ==>
      LoadSpec(c, adapterFilePath) == (WithNodes(c), NodesError(NodesOrDefault(c.nodes)))
    ensures var r := LoadSpec(c, adapterFilePath);
      NodesOk(NodesOrDefault(c.nodes)) && c.querySize > MaxQuerySize ==>
        && r.1 == Some(QuerySizeMessage(adapterFilePath))
        && r.0.querySize == c.querySize && r.0.mappingPath == c.mappingPath
  {
    NodesErrorContract(NodesOrDefault(c.nodes));
  }

  /** The defaults loadConfig fills in, field by field; sniff and healthcheck are never touched. */
  lemma LoadSpecDefaults(c: Config, adapterFilePath: string)
    ensures var r := LoadSpec(c, adapterFilePath);
      r.0.nodes == NodesOrDefault(c.nodes) && r.0.sniff == c.sniff && r.0.healthcheck == c.healthcheck
    ensures var r := LoadSpec(c, adapterFilePath);
      NodesOk(NodesOrDefault(c.nodes)) ==>
        && r.0.user == OrDefault(c.user, "elastic") && r.0.password == OrDefault(c.password, "changeme")
        && r.0.index == OrDefault(c.index, "prometheus") && r.0.typeAlias == OrDefault(c.typeAlias, "metric")
        && r.0.workers == (if c.workers == 0 then 1 else c.workers)
        && r.0.bulkSize == (if c.bulkSize == 0 then 1 else c.bulkSize)
    ensures var r := LoadSpec(c, adapterFilePath);
      r.1.None? ==>
        && r.0.querySize == (if c.querySize == 0 then 5000 else c.querySize)
        && r.0.mappingPath == OrDefault(c.mappingPath, "mapping.json")
  {
    NodesErrorContract(NodesOrDefault(c.nodes));
  }

  /** A successful load leaves a settled configuration, and a settled one loads unchanged. */
  lemma LoadSpecSettled(c: Config, adapterFilePath: string)
    ensures var r := LoadSpec(c, adapterFilePath);
      r.1.None? ==> Settled(r.0)
    ensures Settled(c) ==> LoadSpec(c, adapterFilePath) == (c, None)
  {
    NodesErrorContract(NodesOrDefault(c.nodes));
  }

  /** A node whose IP passes but whose port fails the pattern ends loadConfig with the port error, before any default. */
  lemma LoadSpecRejectsPort(c: Config, adapterFilePath: string)
    requires |c.nodes| == 1 && Regexp.MatchIp(c.nodes[0].ip) && !Regexp.MatchPort(c.nodes[0].port)
    ensures LoadSpec(c, adapterFilePath) == (c, Some("port" + c.nodes[0].port + " is not match pattern"))
  {
    assert FirstBadNode(c.nodes) == 0;
    assert WithNodes(c) == c;
  }

  // ---------------------------------------------------------------------
  // Read: the per-query loop
  // ---------------------------------------------------------------------

  /**
   * How Read ends: the results and its error (always nil), or the panic a
   * matcher pattern raises in buildBoolQuery, which unwinds the whole call.
   */
  datatype ReadOutcome =
    | Returned(results: seq<Prompb.QueryResult>, err: Option<string>)
    | ReadPanicked(query: nat)

  /** The searches the adapter runs: the page outcomes the scroll service gives for a bool query. */
  type Backend = EsQuery.BoolQuery -> seq<EsScroll.PageOutcome>

  /** The position of the first query whose build panics, if any. */
  ghost function FirstPanic(queries: seq<Prompb.Query>): Option<nat>
  {
    if |queries| == 0 then None
    else
      var earlier := FirstPanic(queries[..|queries| - 1]);
      if earlier.Some? then earlier
      else if EsQuery.Panics(queries[|queries| - 1]) then Some(|queries| - 1)
      else None
  }

  /** FirstPanic finds the first panicking query, and None means no query panics. */
  lemma {:induction false} FirstPanicContract(queries: seq<Prompb.Query>)
    ensures var r := FirstPanic(queries);
      r.Some? ==> r.value < |queries| && EsQuery.Panics(queries[r.value])
    ensures var r := FirstPanic(queries);
      r.Some? ==> forall j :: 0 <= j < r.value ==> !EsQuery.Panics(queries[j])
    ensures FirstPanic(queries).None? <==> forall j :: 0 <= j < |queries| ==> !EsQuery.Panics(queries[j])
  {
    if |queries| > 0 {
      var prefix := queries[..|queries| - 1];
      FirstPanicContract(prefix);
      assert forall j :: 0 <= j < |prefix| ==> prefix[j] == queries[j];
    }
  }


  /**
   * The documents one query contributes: its scroll result when the query
   * builds and the search finds something; nothing when the build fails,
   * the search fails or page 1 is EOF.
   */
  ghost function Contribution(query: Prompb.Query, backend: Backend, querySize: int, queryMaxSize: int)
    : seq<seq<EsSamples.Sample>>
  {
    match EsQuery.BuildSpec(query)
    case Built(boolQuery) =>
      (match EsScroll.ScrollSpec(backend(boolQuery), querySize, queryMaxSize)
       case Found(samples) => [samples]
       case _ => [])
    case _ => []
  }

  /** The contributions of the queries, in query order. */
  ghost function Contributions(queries: seq<Prompb.Query>, backend: Backend, querySize: int, queryMaxSize: int)
    : seq<seq<EsSamples.Sample>>
  {
    if |queries| == 0 then []
    else
      Contributions(queries[..|queries| - 1], backend, querySize, queryMaxSize)
        + Contribution(queries[|queries| - 1], backend, querySize, queryMaxSize)
  }

  /** results[k] regroups the k-th contribution. */
  ghost predicate RegroupsAll(contributions: seq<seq<EsSamples.Sample>>, results: seq<Prompb.QueryResult>)
  {
    |results| == |contributions|
    && forall k :: 0 <= k < |results| ==> EsSamples.IsRegrouping(contributions[k], results[k])
  }

  /** Each query yields at most one result. */
  lemma {:induction false} ContributionsBound(queries: seq<Prompb.Query>, backend: Backend, querySize: int,
                                              queryMaxSize: int)
    ensures |Contributions(queries, backend, querySize, queryMaxSize)| <= |queries|
  {
    if |queries| > 0 {
      ContributionsBound(queries[..|queries| - 1], backend, querySize, queryMaxSize);
    }
  }

  /** Queries are answered independently and in order: the results for a + b are those for a, then those for b. */
  lemma {:induction false} ContributionsAppend(a: seq<Prompb.Query>, b: seq<Prompb.Query>, backend: Backend,
                                               querySize: int, queryMaxSize: int)
    ensures Contributions(a + b, backend, querySize, queryMaxSize)
      == Contributions(a, backend, querySize, queryMaxSize) + Contributions(b, backend, querySize, queryMaxSize)
  {
    if |b| == 0 {
      assert a + b == a;
    } else {
      var front := b[..|b| - 1];
      assert (a + b)[..|a + b| - 1] == a + front;
      assert (a + b)[|a + b| - 1] == b[|b| - 1];
      ContributionsAppend(a, front, backend, querySize, queryMaxSize);
      var last := Contribution(b[|b| - 1], backend, querySize, queryMaxSize);
      assert Contributions(a + b, backend, querySize, queryMaxSize)
        == Contributions(a + front, backend, querySize, queryMaxSize) + last;
      assert Contributions(b, backend, querySize, queryMaxSize)
        == Contributions(front, backend, querySize, queryMaxSize) + last;
    }
  }

  lemma RegroupsAllAppend(c1: seq<seq<EsSamples.Sample>>, r1: seq<Prompb.QueryResult>,
                          c2: seq<seq<EsSamples.Sample>>, r2: seq<Prompb.QueryResult>)
    requires RegroupsAll(c1, r1) && RegroupsAll(c2, r2)
    ensures RegroupsAll(c1 + c2, r1 + r2)
  {
    forall k | 0 <= k < |r1 + r2| ensures EsSamples.IsRegrouping((c1 + c2)[k], (r1 + r2)[k]) {
      if k >= |r1| {
        assert (c1 + c2)[k] == c2[k - |r1|] && (r1 + r2)[k] == r2[k - |r1|];
      }
    }
  }

  lemma ContributionsStep(queries: seq<Prompb.Query>, i: nat, backend: Backend, querySize: int, queryMaxSize: int)
    requires i < |queries|
    ensures Contributions(queries[..i + 1], backend, querySize, queryMaxSize)
      == Contributions(queries[..i], backend, querySize, queryMaxSize)
         + Contribution(queries[i], backend, querySize, queryMaxSize)
  {
    assert queries[..i + 1][..i] == queries[..i];
  }

  /** The documents one query contributes stay within a positive query.max-size. */
  lemma ContributionCapped(query: Prompb.Query, backend: Backend, querySize: int, queryMaxSize: int)
    requires queryMaxSize > 0
    ensures forall k :: 0 <= k < |Contribution(query, backend, querySize, queryMaxSize)| ==>
      |Contribution(query, backend, querySize, queryMaxSize)[k]| <= queryMaxSize
  {
    match EsQuery.BuildSpec(query)
    case Built(boolQuery) =>
      EsScroll.ScrollSpecContract(backend(boolQuery), querySize, queryMaxSize);
    case _ =>
  }

  /** The cap applies to each query on its own: every contribution stays within it. */
  lemma {:induction false} ContributionsCapped(queries: seq<Prompb.Query>, backend: Backend, querySize: int,
                                               queryMaxSize: int)
    requires queryMaxSize > 0
    ensures forall k :: 0 <= k < |Contributions(queries, backend, querySize, queryMaxSize)| ==>
      |Contributions(queries, backend, querySize, queryMaxSize)[k]| <= queryMaxSize
  {
    if |queries| > 0 {
      ContributionsCapped(queries[..|queries| - 1], backend, querySize, queryMaxSize);
      ContributionCapped(queries[|queries| - 1], backend, querySize, queryMaxSize);
    }
  }

  /**
   * Each result of a read holds at most query.max-size samples when that flag
   * is positive. The bound is per query, not per call: n queries can return
   * up to n times the cap in total.
   */
  lemma ReadResultsCapped(queries: seq<Prompb.Query>, backend: Backend, querySize: int, queryMaxSize: int,
                          results: seq<Prompb.QueryResult>)
    requires queryMaxSize > 0
    requires RegroupsAll(Contributions(queries, backend, querySize, queryMaxSize), results)
    ensures forall k :: 0 <= k < |results| ==> EsSamples.SampleCount(results[k].timeseries) <= queryMaxSize
  {
    var contributions := Contributions(queries, backend, querySize, queryMaxSize);
    ContributionsCapped(queries, backend, querySize, queryMaxSize);
    forall k | 0 <= k < |results| ensures EsSamples.SampleCount(results[k].timeseries) <= queryMaxSize {
      EsSamples.RegroupingTotal(contributions[k], results[k]);
    }
  }

  /** One more query answered keeps the results in step with the contributions. */
  lemma ReadStep(queries: seq<Prompb.Query>, i: nat, backend: Backend, querySize: int, queryMaxSize: int,
                 results: seq<Prompb.QueryResult>, answer: seq<Prompb.QueryResult>)
    requires i < |queries|
    requires RegroupsAll(Contributions(queries[..i], backend, querySize, queryMaxSize), results)
    requires RegroupsAll(Contribution(queries[i], backend, querySize, queryMaxSize), answer)
    ensures RegroupsAll(Contributions(queries[..i + 1], backend, querySize, queryMaxSize), results + answer)
  {
    ContributionsStep(queries, i, backend, querySize, queryMaxSize);
    RegroupsAllAppend(Contributions(queries[..i], backend, querySize, queryMaxSize), results,
                      Contribution(queries[i], backend, querySize, queryMaxSize), answer);
  }

  /** One more query: the first panic so far stays, or this query is it. */
  lemma FirstPanicStep(queries: seq<Prompb.Query>, i: nat)
    requires i < |queries|
    ensures FirstPanic(queries[..i + 1])
      == if FirstPanic(queries[..i]).Some? then FirstPanic(queries[..i])
         else if EsQuery.Panics(queries[i]) then Some(i) else None
  {
    assert queries[..i + 1][..i] == queries[..i];
  }

  /** The first panic of a prefix is the first panic of the whole list. */
  lemma {:induction false} FirstPanicExtends(queries: seq<Prompb.Query>, n: nat)
    requires n <= |queries| && FirstPanic(queries[..n]).Some?
    ensures FirstPanic(queries) == FirstPanic(queries[..n])
    decreases |queries| - n
  {
    if n < |queries| {
      FirstPanicStep(queries, n);
      FirstPanicExtends(queries, n + 1);
    } else {
      assert queries[..n] == queries;
    }
  }

  // ---------------------------------------------------------------------
  // Write
  // ---------------------------------------------------------------------

  /** elastic.NewBulkIndexRequest().Index(index).Type(typ).Doc(doc). */
  datatype BulkIndexRequest = BulkIndexRequest(index: string, typ: string, doc: EsSamples.Sample)

  // ---------------------------------------------------------------------
  // The cluster object
  // ---------------------------------------------------------------------

  class ElasticCluster {
    var nodes: seq<ElasticNode>
    var user: string
    var password: string
    var index: string
    var typeAlias: string
    var sniff: bool
    var healthcheck: bool
    var workers: int
    var bulkSize: int
    var querySize: int
    var mappingPath: string

    function Snapshot(): Config
      reads this
    {
      Config(nodes, user, password, index, typeAlias, sniff, healthcheck, workers, bulkSize, querySize, mappingPath)
    }

    /** The record as the adapter file decodes it. */
    constructor (c: Config)
      ensures Snapshot() == c
    {
      nodes := c.nodes;
      user := c.user;
      password := c.password;
      index := c.index;
      typeAlias := c.typeAlias;
      sniff := c.sniff;
      healthcheck := c.healthcheck;
      workers := c.workers;
      bulkSize := c.bulkSize;
      querySize := c.querySize;
      mappingPath := c.mappingPath;
    }

    /** loadConfig from the node check on; adapterFilePath appears in the querySize error. */
    method LoadConfig(adapterFilePath: string) returns (err: Option<string>)
      modifies this
      ensures (Snapshot(), err) == LoadSpec(old(Snapshot()), adapterFilePath)
    {
      DefaultNodes();
      err := CheckNodes(nodes);
      if err.Some? {
        return;
      }
      DefaultSettings();
      err := CheckQuerySize(adapterFilePath);
    }

    /** An empty node list becomes the local node. */
    method DefaultNodes()
      modifies this
      ensures Snapshot() == WithNodes(old(Snapshot()))
    {
      if |nodes| == 0 {
        nodes := [DefaultNode];
      }
    }

    /** Empty credentials, index and type take their defaults; zero workers and bulk size become one. */
    method DefaultSettings()
      modifies this
      ensures user == OrDefault(old(user), "elastic") && password == OrDefault(old(password), "changeme")
      ensures index == OrDefault(old(index), "prometheus") && typeAlias == OrDefault(old(typeAlias), "metric")
      ensures workers == (if old(workers) == 0 then 1 else old(workers))
      ensures bulkSize == (if old(bulkSize) == 0 then 1 else old(bulkSize))
      ensures nodes == old(nodes) && sniff == old(sniff) && healthcheck == old(healthcheck)
      ensures querySize == old(querySize) && mappingPath == old(mappingPath)
    {
      user := OrDefault(user, "elastic");
      password := OrDefault(password, "changeme");
      index := OrDefault(index, "prometheus");
      typeAlias := OrDefault(typeAlias, "metric");
      if workers == 0 {
        workers := 1;
      }
      if bulkSize == 0 {
        bulkSize := 1;
      }
    }

    /** querySize 0 becomes 5000 and one above the maximum is an error; an empty mapping path defaults after that. */
    method CheckQuerySize(adapterFilePath: string) returns (err: Option<string>)
      modifies this
      ensures (Snapshot(), err) == WithQuerySize(old(Snapshot()), adapterFilePath)
    {
      if querySize == 0 {
        querySize := 5000;
      } else if querySize > MaxQuerySize {
        return Some(QuerySizeMessage(adapterFilePath));
      }
      if mappingPath == "" {
        mappingPath := "mapping.json";
      }
      return None;
    }

    /** The URL list Init hands to the client: one http URL per node, in node order. */
    method Urls() returns (urls: seq<string>)
      ensures |urls| == |nodes|
      ensures forall i :: 0 <= i < |nodes| ==> urls[i] == NodeUrl(nodes[i])
      ensures forall i :: 0 <= i < |nodes| && ':' !in nodes[i].ip ==> ParseUrl(urls[i]) == Some(nodes[i])
    {
      urls := [];
      for i := 0 to |nodes|
        invariant |urls| == i
        invariant forall j :: 0 <= j < i ==> urls[j] == NodeUrl(nodes[j])
      {
        var node := nodes[i];
        var url := "http://" + node.ip + ":" + node.port;
        urls := urls + [url];
      }
      forall i | 0 <= i < |nodes| && ':' !in nodes[i].ip ensures ParseUrl(urls[i]) == Some(nodes[i]) {
        UrlRoundTrip(nodes[i]);
      }
    }

    /**
     * Read: each query in turn is built, searched and regrouped; a query
     * whose build or search fails, or whose first page is EOF, adds nothing.
     */
    method Read(queries: seq<Prompb.Query>, backend: Backend, queryMaxSize: int) returns (outcome: ReadOutcome)
      ensures FirstPanic(queries).Some? ==> outcome == ReadPanicked(FirstPanic(queries).value)
      ensures FirstPanic(queries).None? ==>
        && outcome.Returned? && outcome.err.None?
        && RegroupsAll(Contributions(queries, backend, querySize, queryMaxSize), outcome.results)
      ensures FirstPanic(queries).None? && queryMaxSize > 0 ==>
        && outcome.Returned?
        && forall k :: 0 <= k < |outcome.results| ==> EsSamples.SampleCount(outcome.results[k].timeseries) <= queryMaxSize
    {
      var queryResults: seq<Prompb.QueryResult> := [];
      for i := 0 to |queries|
        invariant FirstPanic(queries[..i]).None?
        invariant RegroupsAll(Contributions(queries[..i], backend, querySize, queryMaxSize), queryResults)
      {
        var panicked, answer := AnswerQuery(queries[i], backend, queryMaxSize);
        FirstPanicStep(queries, i);
        if panicked {
          FirstPanicExtends(queries, i + 1);
          return ReadPanicked(i);
        }
        ReadStep(queries, i, backend, querySize, queryMaxSize, queryResults, answer);
        queryResults := queryResults + answer;
      }
      assert queries[..|queries|] == queries;
      if queryMaxSize > 0 {
        ReadResultsCapped(queries, backend, querySize, queryMaxSize, queryResults);
      }
      return Returned(queryResults, None);
    }

    /** The body of Read's loop for one query: nothing, or the one regrouped result, or the panic. */
    method AnswerQuery(query: Prompb.Query, backend: Backend, queryMaxSize: int)
      returns (panicked: bool, answer: seq<Prompb.QueryResult>)
      ensures panicked == EsQuery.Panics(query)
      ensures !panicked ==> RegroupsAll(Contribution(query, backend, querySize, queryMaxSize), answer)
    {
      answer := [];
      var built, _ := EsQuery.BuildBoolQuery(query);
      panicked := built.Panicked?;
      if built.Built? {
        var scrolled := EsScroll.ScrollSearch(backend(built.query), querySize, queryMaxSize);
        if scrolled.Found? {
          var samples := new EsSamples.Samples(scrolled.samples);
          var queryResult := samples.Samples2QueryResult();
          answer := [queryResult];
        }
      }
    }

    /**
     * Write: every flattened sample goes to the bulk processor once, in
     * order, addressed to the configured index and type; the flush error,
     * if any, is returned. When the processor cannot be created nothing is
     * sent and that error is returned.
     */
    method Write(timeSeries: seq<Prompb.TimeSeries>, processorError: Option<string>, flushError: Option<string>)
      returns (err: Option<string>, sent: seq<BulkIndexRequest>)
      ensures processorError.Some? ==> err == processorError && sent == []
      ensures processorError.None? ==>
        && err == flushError
        && |sent| == EsSamples.SampleCount(timeSeries)
        && |sent| == |EsSamples.Flatten(timeSeries)|
        && forall i :: 0 <= i < |sent| ==> sent[i] == BulkIndexRequest(index, typeAlias, EsSamples.Flatten(timeSeries)[i])
    {
      if processorError.Some? {
        return processorError, [];
      }
      var samples := new EsSamples.Samples([]);
      samples.TimeSeries2Samples(timeSeries);
      var docs := samples.items;
      assert docs == EsSamples.Flatten(timeSeries);
      EsSamples.FlattenLength(timeSeries);
      sent := [];
      for i := 0 to |docs|
        invariant |sent| == i
        invariant forall j :: 0 <= j < i ==> sent[j] == BulkIndexRequest(index, typeAlias, docs[j])
      {
        sent := sent + [BulkIndexRequest(index, typeAlias, docs[i])];
      }
      err := flushError;
    }
  }
}
