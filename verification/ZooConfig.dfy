/** The text of zoo.cfg (makeZkConfigString of pkg/zk/generators.go) and what it means to a reader of
    key=value lines where the last occurrence of a key wins. */
module ZooConfig {
  import opened Text
  import opened ClusterSpec
  import opened Generators
  import opened PodScripts
  import opened Volumes

  datatype Pair = Pair(key: string, value: string)

  function Line(p: Pair): string { p.key + "=" + p.value }

  function Render(pairs: seq<Pair>): string {
    if pairs == [] then "" else Line(pairs[0]) + "\n" + Render(pairs[1..])
  }

  /** Text that neither ends a line nor separates a key from its value. */
  predicate PlainKey(s: string) {
    forall i | 0 <= i < |s| :: s[i] != '=' && s[i] != '\n'
  }

  /** A key that does not end as the link's does. */
  predicate OrdinaryKey(key: string) {
    PlainKey(key) && |key| >= 4 && key[|key| - 4] != 'F'
  }

  predicate Ordinary(p: Pair) {
    OrdinaryKey(p.key) && PlainKey(p.value)
  }

  function Number(key: string, i: int): (p: Pair)
    ensures OrdinaryKey(key) ==> Ordinary(p)
  {
    assert AllDigits(Digits(if i < 0 then -i else i));
    Pair(key, Itoa(i))
  }

  const WHITELIST := "cons, envi, conf, crst, " + "srvr, stat, mntr, ruok"
  const PROVIDER := "org.apache.zookeeper.metrics." + "prometheus.PrometheusMetricsProvider"

  function ServerPairs(metricsPort: int): seq<Pair> {
    [Pair("4lw.commands.whitelist", WHITELIST),
     Pair("dataDir", "/data"), Pair("standaloneEnabled", "false"), Pair("reconfigEnabled", "true"),
     Pair("skipACL", "yes"), Pair("metricsProvider.className", PROVIDER),
     Number("metricsProvider.httpPort", metricsPort), Pair("metricsProvider.exportJvmInfo", "true")]
  }

  function LimitPairs(c: ZookeeperConfig): seq<Pair> {
    [Number("initLimit", c.initLimit), Number("syncLimit", c.syncLimit), Number("tickTime", c.tickTime),
     Number("globalOutstandingLimit", c.globalOutstandingLimit), Number("preAllocSize", c.preAllocSize),
     Number("snapCount", c.snapCount), Number("commitLogCount", c.commitLogCount),
     Number("snapSizeLimitInKb", c.snapSizeLimitInKb)]
  }

  function SessionPairs(c: ZookeeperConfig, adminPort: int): seq<Pair> {
    [Number("maxCnxns", c.maxCnxns), Number("maxClientCnxns", c.maxClientCnxns),
     Number("minSessionTimeout", c.minSessionTimeout), Number("maxSessionTimeout", c.maxSessionTimeout),
     Number("autopurge.snapRetainCount", c.autoPurgeSnapRetainCount),
     Number("autopurge.purgeInterval", c.autoPurgePurgeInterval),
     Pair("quorumListenOnAllIPs", if c.quorumListenOnAllIPs then "true" else "false"),
     Number("admin.serverPort", adminPort)]
  }

  const LINK := Pair("dynamicConfigFile", "/data/zoo.cfg.dynamic")

  function BeforeLink(c: ZookeeperConfig, ports: Ports): seq<Pair> {
    ServerPairs(ports.metrics) + LimitPairs(c) + SessionPairs(c, ports.adminServer)
  }

  /** What the operator writes itself, in order; the link to the dynamic configuration comes last. */
  function OperatorPairs(c: ZookeeperConfig, ports: Ports): seq<Pair> {
    BeforeLink(c, ports) + [LINK]
  }

  // ----- Reading -----

  function ReadLine(m: map<string, string>, line: string): map<string, string> {
    var k := IndexOf(line, '=');
    if k == |line| then m else m[line[..k] := line[k + 1..]]
  }

  function ReadLines(lines: seq<string>): map<string, string> {
    if lines == [] then map[] else ReadLine(ReadLines(lines[..|lines| - 1]), lines[|lines| - 1])
  }

  function ReadConfig(text: string): map<string, string> {
    ReadLines(Split(text, '\n'))
  }

  /** The lines of a text each of which ends in a newline. */
  function LinesOf(text: string): seq<string> {
    var parts := Split(text, '\n');
    parts[..|parts| - 1]
  }

  predicate Plain(p: Pair) { PlainKey(p.key) && '\n' !in p.value }

  ghost predicate AllPlain(pairs: seq<Pair>) {
    forall i | 0 <= i < |pairs| :: Plain(pairs[i])
  }

  /** The reference: a map filled pair by pair. */
  function AsMap(pairs: seq<Pair>): map<string, string> {
    if pairs == [] then map[]
    else
      var last := pairs[|pairs| - 1];
      AsMap(pairs[..|pairs| - 1])[last.key := last.value]
  }

  function Lines(pairs: seq<Pair>): (lines: seq<string>)
    ensures |lines| == |pairs|
    ensures forall i | 0 <= i < |pairs| :: lines[i] == Line(pairs[i])
  {
    if pairs == [] then [] else [Line(pairs[0])] + Lines(pairs[1..])
  }

  lemma PlainLine(p: Pair)
    requires Plain(p)
    ensures '\n' !in Line(p) && IndexOf(Line(p), '=') == |p.key|
  {
    IndexOfSeparator(p.key, '=', p.value);
  }

  lemma SplitFirst(p: Pair, rest: seq<Pair>)
    requires Plain(p)
    ensures Split(Render([p] + rest), '\n') == [Line(p)] + Split(Render(rest), '\n')
  {
    PlainLine(p);
    assert ([p] + rest)[1..] == rest;
    SplitSeparator(Line(p), '\n', Render(rest));
  }

  lemma {:induction false} SplitRender(pairs: seq<Pair>)
    requires AllPlain(pairs)
    ensures Split(Render(pairs), '\n') == Lines(pairs) + [""]
    decreases |pairs|
  {
    if pairs != [] {
      var p, rest := pairs[0], pairs[1..];
      assert Plain(p);
      SplitFirst(p, rest);
      SplitRender(rest);
      assert pairs == [p] + rest;
      assert [Line(p)] + (Lines(rest) + [""]) == ([Line(p)] + Lines(rest)) + [""];
    }
  }

  lemma ReadOne(m: map<string, string>, p: Pair)
    requires Plain(p)
    ensures ReadLine(m, Line(p)) == m[p.key := p.value]
  {
    PlainLine(p);
    assert Line(p)[..|p.key|] == p.key && Line(p)[|p.key| + 1..] == p.value;
  }

  lemma {:induction false} LinesEnd(pairs: seq<Pair>)
    requires pairs != []
    ensures var n := |pairs| - 1;
            Lines(pairs)[..n] == Lines(pairs[..n]) && Lines(pairs)[n] == Line(pairs[n])
  {
    SameLines(Lines(pairs)[..|pairs| - 1], Lines(pairs[..|pairs| - 1]), pairs[..|pairs| - 1]);
  }

  lemma SameLines(a: seq<string>, b: seq<string>, pairs: seq<Pair>)
    requires |a| == |b| == |pairs|
    requires forall i | 0 <= i < |pairs| :: a[i] == Line(pairs[i]) && b[i] == Line(pairs[i])
    ensures a == b
  {
  }

  lemma {:induction false} ReadLinesOf(pairs: seq<Pair>)
    requires AllPlain(pairs)
    ensures ReadLines(Lines(pairs)) == AsMap(pairs)
    decreases |pairs|
  {
    if pairs != [] {
      var init, last := pairs[..|pairs| - 1], pairs[|pairs| - 1];
      assert Plain(last);
      ReadLinesOf(init);
      LinesEnd(pairs);
      ReadOne(AsMap(init), last);
    }
  }

  lemma ReadRender(pairs: seq<Pair>)
    requires AllPlain(pairs)
    ensures ReadConfig(Render(pairs)) == AsMap(pairs) && LinesOf(Render(pairs)) == Lines(pairs)
  {
    SplitRender(pairs);
    ReadLinesOf(pairs);
    var parts := Lines(pairs) + [""];
    assert parts[..|parts| - 1] == Lines(pairs);
  }

  lemma {:induction false} RenderConcat(a: seq<Pair>, b: seq<Pair>)
    ensures Render(a + b) == Render(a) + Render(b)
  {
    if a == [] {
      assert a + b == b;
    } else {
      assert (a + b)[1..] == a[1..] + b;
      RenderConcat(a[1..], b);
    }
  }

  lemma {:induction false} AsMapConcat(a: seq<Pair>, b: seq<Pair>)
    ensures AsMap(a + b) == AsMap(a) + AsMap(b)
    decreases |b|
  {
    if b == [] {
      assert a + b == a;
    } else {
      assert (a + b)[..|a + b| - 1] == a + b[..|b| - 1];
      AsMapConcat(a, b[..|b| - 1]);
    }
  }

  // ----- The operator's own lines -----

  ghost predicate AllOrdinary(pairs: seq<Pair>) {
    forall i | 0 <= i < |pairs| :: Ordinary(pairs[i])
  }

  lemma ServerKeys()
    ensures OrdinaryKey("4lw.commands.whitelist") && OrdinaryKey("dataDir") && OrdinaryKey("standaloneEnabled")
    ensures OrdinaryKey("reconfigEnabled") && OrdinaryKey("skipACL")
    ensures OrdinaryKey("metricsProvider.httpPort") && OrdinaryKey("metricsProvider.exportJvmInfo")
  {
  }

  lemma PlainConcat(a: string, b: string)
    requires PlainKey(a) && PlainKey(b)
    ensures PlainKey(a + b)
  {
  }

  lemma ServerValues()
    ensures PlainKey(WHITELIST) && PlainKey("/data") && PlainKey("yes") && PlainKey("true") && PlainKey("false")
  {
    PlainConcat("cons, envi, conf, crst, ", "srvr, stat, mntr, ruok");
  }

  lemma MetricsPair()
    ensures OrdinaryKey("metricsProvider.className") && PlainKey(PROVIDER)
  {
    PlainConcat("org.apache.zookeeper.metrics.", "prometheus.PrometheusMetricsProvider");
  }

  lemma LimitKeys()
    ensures OrdinaryKey("initLimit") && OrdinaryKey("syncLimit") && OrdinaryKey("tickTime")
    ensures OrdinaryKey("globalOutstandingLimit") && OrdinaryKey("preAllocSize") && OrdinaryKey("snapCount")
    ensures OrdinaryKey("commitLogCount") && OrdinaryKey("snapSizeLimitInKb")
  {
  }

  lemma SessionKeys()
    ensures OrdinaryKey("maxCnxns") && OrdinaryKey("maxClientCnxns") && OrdinaryKey("minSessionTimeout")
    ensures OrdinaryKey("maxSessionTimeout") && OrdinaryKey("quorumListenOnAllIPs") && OrdinaryKey("admin.serverPort")
    ensures OrdinaryKey("autopurge.snapRetainCount") && OrdinaryKey("autopurge.purgeInterval")
  {
  }

  lemma ServerPairsAreOrdinary(metricsPort: int)
    ensures AllOrdinary(ServerPairs(metricsPort))
  {
    ServerKeys();
    ServerValues();
    MetricsPair();
  }

  lemma LimitPairsAreOrdinary(c: ZookeeperConfig)
    ensures AllOrdinary(LimitPairs(c))
  {
    LimitKeys();
  }

  lemma SessionPairsAreOrdinary(c: ZookeeperConfig, adminPort: int)
    ensures AllOrdinary(SessionPairs(c, adminPort))
  {
    SessionKeys();
    ServerValues();
  }

  lemma BeforeLinkIsOrdinary(c: ZookeeperConfig, ports: Ports)
    ensures AllOrdinary(BeforeLink(c, ports))
  {
    ServerPairsAreOrdinary(ports.metrics);
    LimitPairsAreOrdinary(c);
    SessionPairsAreOrdinary(c, ports.adminServer);
    var a, b, d := ServerPairs(ports.metrics), LimitPairs(c), SessionPairs(c, ports.adminServer);
    OrdinaryConcat(a, b);
    OrdinaryConcat(a + b, d);
  }

  lemma OrdinaryIsPlain(pairs: seq<Pair>, last: Pair)
    requires AllOrdinary(pairs) && Plain(last)
    ensures AllPlain(pairs + [last])
  {
    assert forall i | 0 <= i < |pairs| :: Ordinary(pairs[i]);
  }

  lemma LinkIsPlain()
    ensures Plain(LINK)
  {
    var key, value := LINK.key, LINK.value;
    assert key == "dynamicConfigFile" && value == "/data/zoo.cfg.dynamic";
  }

  lemma OperatorPairsArePlain(c: ZookeeperConfig, ports: Ports)
    ensures AllPlain(OperatorPairs(c, ports))
  {
    BeforeLinkIsOrdinary(c, ports);
    LinkIsPlain();
    OrdinaryIsPlain(BeforeLink(c, ports), LINK);
  }

  lemma OrdinaryConcat(a: seq<Pair>, b: seq<Pair>)
    requires AllOrdinary(a) && AllOrdinary(b)
    ensures AllOrdinary(a + b)
  {
  }

  /** In a line with a single equals sign the link's key is found only at the end of the key. */
  lemma OrdinaryLine(p: Pair)
    requires Ordinary(p)
    ensures !Contains(Line(p), LINK_KEY)
  {
    var line, n := Line(p), |LINK_KEY|;
    forall i | 0 <= i <= |line|
      ensures !OccursAt(line, LINK_KEY, i)
    {
      if i + n <= |line| {
        var part := line[i..i + n];
        assert part[n - 1] == line[i + n - 1] && part[n - 5] == line[i + n - 5];
        assert LINK_KEY[n - 1] == '=' && LINK_KEY[n - 5] == 'F';
        assert line[i + n - 1] == '=' ==> i + n - 1 == |p.key|;
      }
    }
  }

  // ----- The text -----

  ghost predicate HasKey(pairs: seq<Pair>, key: string) {
    exists i | 0 <= i < |pairs| :: pairs[i].key == key
  }

  /** An order in which Go may iterate over a map. */
  ghost predicate OrderOf(order: seq<Pair>, m: Labels) {
    && (forall i | 0 <= i < |order| :: order[i].key in m && m[order[i].key] == order[i].value)
    && (forall i, j | 0 <= i < j < |order| :: order[i].key != order[j].key)
    && (forall k | k in m :: HasKey(order, k))
  }

  lemma HasKeyGrows(order: seq<Pair>, p: Pair)
    ensures forall k :: HasKey(order + [p], k) <==> HasKey(order, k) || k == p.key
  {
    forall k
      ensures HasKey(order + [p], k) <==> HasKey(order, k) || k == p.key
    {
      assert (order + [p])[|order|] == p;
      if HasKey(order, k) {
        var i :| 0 <= i < |order| && order[i].key == k;
        assert (order + [p])[i].key == k;
      }
    }
  }

  ghost predicate PlainMap(m: Labels) {
    forall k | k in m :: Plain(Pair(k, m[k]))
  }

  lemma {:induction false} OrderIsTheMap(order: seq<Pair>, m: Labels)
    requires forall i | 0 <= i < |order| :: order[i].key in m && m[order[i].key] == order[i].value
    ensures forall k :: k in AsMap(order) <==> HasKey(order, k)
    ensures forall k | k in AsMap(order) :: k in m && AsMap(order)[k] == m[k]
    decreases |order|
  {
    if order != [] {
      var init, last := order[..|order| - 1], order[|order| - 1];
      OrderIsTheMap(init, m);
      HasKeyGrows(init, last);
      assert order == init + [last];
    }
  }

  /** The loop over the additional settings, in whatever order the map is visited. */
  method AdditionalText(m: Labels) returns (text: string, ghost order: seq<Pair>)
    ensures OrderOf(order, m) && text == Render(order)
  {
    text, order := "", [];
    var left := m.Keys;
    while left != {}
      invariant left <= m.Keys
      invariant forall i | 0 <= i < |order| :: order[i].key in m.Keys - left && m[order[i].key] == order[i].value
      invariant forall i, j | 0 <= i < j < |order| :: order[i].key != order[j].key
      invariant forall k | k in m.Keys - left :: HasKey(order, k)
      invariant text == Render(order)
      decreases |left|
    {
      var key :| key in left;
      var pair := Pair(key, m[key]);
      RenderConcat(order, [pair]);
      assert [pair][1..] == [];
      HasKeyGrows(order, pair);
      text := text + (Line(pair) + "\n");
      left := left - {key};
      order := order + [pair];
    }
  }

  lemma AllPairsArePlain(m: Labels, order: seq<Pair>, c: ZookeeperConfig, ports: Ports)
    requires OrderOf(order, m) && PlainMap(m)
    ensures AllPlain(order + OperatorPairs(c, ports))
  {
    assert forall i | 0 <= i < |order| :: Plain(Pair(order[i].key, m[order[i].key]));
    OperatorPairsArePlain(c, ports);
  }

  lemma ReadsBoth(m: Labels, order: seq<Pair>, operator: seq<Pair>)
    requires OrderOf(order, m) && AllPlain(order + operator)
    ensures ReadConfig(Render(order + operator)) == m + AsMap(operator)
  {
    ReadRender(order + operator);
    AsMapConcat(order, operator);
    OrderMeansTheMap(order, m);
  }

  lemma OrderMeansTheMap(order: seq<Pair>, m: Labels)
    requires OrderOf(order, m)
    ensures AsMap(order) == m
  {
    OrderIsTheMap(order, m);
  }

  // ----- What the operator's settings are, key by key -----

  ghost predicate Says(m: map<string, string>, key: string, value: string) {
    key in m && m[key] == value
  }

  ghost predicate SaysServer(m: map<string, string>, metricsPort: int) {
    && Says(m, "4lw.commands.whitelist", "cons, envi, conf, crst, " + "srvr, stat, mntr, ruok")
    && Says(m, "dataDir", "/data") && Says(m, "standaloneEnabled", "false")
    && Says(m, "reconfigEnabled", "true") && Says(m, "skipACL", "yes")
    && Says(m, "metricsProvider.className", "org.apache.zookeeper.metrics." + "prometheus.PrometheusMetricsProvider")
    && Says(m, "metricsProvider.httpPort", Itoa(metricsPort)) && Says(m, "metricsProvider.exportJvmInfo", "true")
  }

  ghost predicate SaysLimits(m: map<string, string>, c: ZookeeperConfig) {
    && Says(m, "initLimit", Itoa(c.initLimit)) && Says(m, "syncLimit", Itoa(c.syncLimit))
    && Says(m, "tickTime", Itoa(c.tickTime))
    && Says(m, "globalOutstandingLimit", Itoa(c.globalOutstandingLimit))
    && Says(m, "preAllocSize", Itoa(c.preAllocSize)) && Says(m, "snapCount", Itoa(c.snapCount))
    && Says(m, "commitLogCount", Itoa(c.commitLogCount))
    && Says(m, "snapSizeLimitInKb", Itoa(c.snapSizeLimitInKb))
  }

  ghost predicate SaysSessions(m: map<string, string>, c: ZookeeperConfig, adminPort: int) {
    && Says(m, "maxCnxns", Itoa(c.maxCnxns)) && Says(m, "maxClientCnxns", Itoa(c.maxClientCnxns))
    && Says(m, "minSessionTimeout", Itoa(c.minSessionTimeout))
    && Says(m, "maxSessionTimeout", Itoa(c.maxSessionTimeout))
    && Says(m, "autopurge.snapRetainCount", Itoa(c.autoPurgeSnapRetainCount))
    && Says(m, "autopurge.purgeInterval", Itoa(c.autoPurgePurgeInterval))
    && Says(m, "quorumListenOnAllIPs", if c.quorumListenOnAllIPs then "true" else "false")
    && Says(m, "admin.serverPort", Itoa(adminPort))
  }

  function ServerNames(): seq<string> {
    ["4lw.commands.whitelist", "dataDir", "standaloneEnabled", "reconfigEnabled", "skipACL",
     "metricsProvider.className", "metricsProvider.httpPort", "metricsProvider.exportJvmInfo"]
  }

  function LimitNames(): seq<string> {
    ["initLimit", "syncLimit", "tickTime", "globalOutstandingLimit", "preAllocSize", "snapCount",
     "commitLogCount", "snapSizeLimitInKb"]
  }

  function SessionNames(): seq<string> {
    ["maxCnxns", "maxClientCnxns", "minSessionTimeout", "maxSessionTimeout", "autopurge.snapRetainCount",
     "autopurge.purgeInterval", "quorumListenOnAllIPs", "admin.serverPort"]
  }

  /** The 25 keys the operator writes. */
  function OperatorNames(): seq<string> {
    ServerNames() + LimitNames() + SessionNames() + ["dynamicConfigFile"]
  }

  /** What a configuration has to say: each of the operator's keys the value of its own field or its fixed
      text, every other key what the user gave it, and nothing else. */
  ghost predicate Configured(m: map<string, string>, c: ZookeeperConfig, ports: Ports) {
    && SaysServer(m, ports.metrics) && SaysLimits(m, c) && SaysSessions(m, c, ports.adminServer)
    && Says(m, "dynamicConfigFile", "/data/zoo.cfg.dynamic")
    && forall k | k !in OperatorNames() ::
         (k in m <==> k in c.additionalConfig) && (k in m ==> m[k] == c.additionalConfig[k])
  }

  /** A number that tells the operator's keys apart. */
  function Code(key: string): int {
    if |key| < 2 then 0 else |key| + key[0] as int + 5 * (key[1] as int)
  }

  ghost predicate Coded(names: seq<string>, codes: seq<int>) {
    |names| == |codes| && forall i | 0 <= i < |names| :: Code(names[i]) == codes[i]
  }

  lemma ServerCodes()
    ensures Coded(ServerNames(), [614, 592, 712, 634, 657, 639, 638, 643])
  {
  }

  lemma LimitCodes()
    ensures Coded(LimitNames(), [664, 729, 649, 665, 694, 674, 668, 682])
  {
  }

  lemma SessionCodes()
    ensures Coded(SessionNames(), [602, 608, 651, 611, 707, 705, 718, 613])
  {
  }

  lemma LinkCode()
    ensures Coded(["dynamicConfigFile"], [722])
  {
  }

  function AllCodes(): seq<int> {
    [614, 592, 712, 634, 657, 639, 638, 643] + [664, 729, 649, 665, 694, 674, 668, 682]
    + [602, 608, 651, 611, 707, 705, 718, 613] + [722]
  }

  lemma CodesDiffer()
    ensures forall i, j | 0 <= i < j < |AllCodes()| :: AllCodes()[i] != AllCodes()[j]
  {
  }

  ghost predicate DistinctKeys(pairs: seq<Pair>) {
    forall i, j | 0 <= i < j < |pairs| :: pairs[i].key != pairs[j].key
  }

  /** The pairs have these keys, in this order. */
  ghost predicate Named(pairs: seq<Pair>, names: seq<string>) {
    |pairs| == |names| && forall i | 0 <= i < |pairs| :: pairs[i].key == names[i]
  }

  lemma NamedConcat(a: seq<Pair>, m: seq<string>, b: seq<Pair>, n: seq<string>)
    requires Named(a, m) && Named(b, n)
    ensures Named(a + b, m + n)
  {
  }

  lemma OperatorNamed(c: ZookeeperConfig, ports: Ports)
    ensures Named(OperatorPairs(c, ports), OperatorNames())
  {
    var a, b, d := ServerPairs(ports.metrics), LimitPairs(c), SessionPairs(c, ports.adminServer);
    ServerNamed(ports.metrics);
    LimitNamed(c);
    SessionNamed(c, ports.adminServer);
    NamedConcat(a, ServerNames(), b, LimitNames());
    NamedConcat(a + b, ServerNames() + LimitNames(), d, SessionNames());
    NamedConcat(a + b + d, ServerNames() + LimitNames() + SessionNames(), [LINK], ["dynamicConfigFile"]);
  }

  lemma EightNamed(pairs: seq<Pair>, names: seq<string>)
    requires |pairs| == |names| == 8
    requires pairs[0].key == names[0] && pairs[1].key == names[1] && pairs[2].key == names[2]
    requires pairs[3].key == names[3] && pairs[4].key == names[4] && pairs[5].key == names[5]
    requires pairs[6].key == names[6] && pairs[7].key == names[7]
    ensures Named(pairs, names)
  {
  }

  lemma NumberNamed(key: string, i: int)
    ensures Number(key, i).key == key
  {
  }

  lemma ServerNamed(metricsPort: int)
    ensures Named(ServerPairs(metricsPort), ServerNames())
  {
    NumberNamed("metricsProvider.httpPort", metricsPort);
    EightNamed(ServerPairs(metricsPort), ServerNames());
  }

  lemma LimitNamed(c: ZookeeperConfig)
    ensures Named(LimitPairs(c), LimitNames())
  {
    NumberNamed("initLimit", c.initLimit);
    NumberNamed("syncLimit", c.syncLimit);
    NumberNamed("tickTime", c.tickTime);
    NumberNamed("globalOutstandingLimit", c.globalOutstandingLimit);
    NumberNamed("preAllocSize", c.preAllocSize);
    NumberNamed("snapCount", c.snapCount);
    NumberNamed("commitLogCount", c.commitLogCount);
    NumberNamed("snapSizeLimitInKb", c.snapSizeLimitInKb);
    EightNamed(LimitPairs(c), LimitNames());
  }

  lemma SessionNamed(c: ZookeeperConfig, adminPort: int)
    ensures Named(SessionPairs(c, adminPort), SessionNames())
  {
    NumberNamed("maxCnxns", c.maxCnxns);
    NumberNamed("maxClientCnxns", c.maxClientCnxns);
    NumberNamed("minSessionTimeout", c.minSessionTimeout);
    NumberNamed("maxSessionTimeout", c.maxSessionTimeout);
    NumberNamed("autopurge.snapRetainCount", c.autoPurgeSnapRetainCount);
    NumberNamed("autopurge.purgeInterval", c.autoPurgePurgeInterval);
    NumberNamed("admin.serverPort", adminPort);
    EightNamed(SessionPairs(c, adminPort), SessionNames());
  }

  lemma CodedConcat(a: seq<string>, x: seq<int>, b: seq<string>, y: seq<int>)
    requires Coded(a, x) && Coded(b, y)
    ensures Coded(a + b, x + y)
  {
  }

  lemma OperatorCoded()
    ensures Coded(OperatorNames(), AllCodes())
  {
    ServerCodes();
    LimitCodes();
    SessionCodes();
    LinkCode();
    var a, b, d := ServerNames(), LimitNames(), SessionNames();
    var x, y := [614, 592, 712, 634, 657, 639, 638, 643], [664, 729, 649, 665, 694, 674, 668, 682];
    var z := [602, 608, 651, 611, 707, 705, 718, 613];
    CodedConcat(a, x, b, y);
    CodedConcat(a + b, x + y, d, z);
    CodedConcat(a + b + d, x + y + z, ["dynamicConfigFile"], [722]);
  }

  lemma NamesDiffer(pairs: seq<Pair>, names: seq<string>, codes: seq<int>)
    requires Named(pairs, names) && Coded(names, codes)
    requires forall i, j | 0 <= i < j < |codes| :: codes[i] != codes[j]
    ensures DistinctKeys(pairs)
  {
    forall i, j | 0 <= i < j < |pairs|
      ensures pairs[i].key != pairs[j].key
    {
      assert Code(names[i]) == codes[i] != codes[j] == Code(names[j]);
    }
  }

  lemma MapGrows(init: seq<Pair>, last: Pair, m: map<string, string>)
    requires DistinctKeys(init + [last])
    requires forall i | 0 <= i < |init| :: Says(m, init[i].key, init[i].value)
    requires forall k :: k in m <==> HasKey(init, k)
    ensures var pairs, n := init + [last], m[last.key := last.value];
            && (forall i | 0 <= i < |pairs| :: Says(n, pairs[i].key, pairs[i].value))
            && (forall k :: k in n <==> HasKey(pairs, k))
  {
    var pairs := init + [last];
    HasKeyGrows(init, last);
    forall i | 0 <= i < |pairs|
      ensures Says(m[last.key := last.value], pairs[i].key, pairs[i].value)
    {
      if i < |init| {
        assert pairs[i] == init[i] && pairs[|init|] == last && pairs[i].key != pairs[|init|].key;
      }
    }
  }

  lemma {:induction false} MapOfDistinct(pairs: seq<Pair>)
    requires DistinctKeys(pairs)
    ensures forall i | 0 <= i < |pairs| :: Says(AsMap(pairs), pairs[i].key, pairs[i].value)
    ensures forall k :: k in AsMap(pairs) <==> HasKey(pairs, k)
    decreases |pairs|
  {
    if pairs != [] {
      var init, last := pairs[..|pairs| - 1], pairs[|pairs| - 1];
      MapOfDistinct(init);
      assert pairs == init + [last];
      MapGrows(init, last, AsMap(init));
    }
  }

  /** A map that says what each of these pairs says. */
  ghost predicate Tells(m: map<string, string>, pairs: seq<Pair>) {
    forall i | 0 <= i < |pairs| :: Says(m, pairs[i].key, pairs[i].value)
  }

  lemma TellsParts(m: map<string, string>, a: seq<Pair>, b: seq<Pair>)
    requires Tells(m, a + b)
    ensures Tells(m, a) && Tells(m, b)
  {
    assert forall i | 0 <= i < |a| :: (a + b)[i] == a[i];
    forall i | 0 <= i < |b|
      ensures Says(m, b[i].key, b[i].value)
    {
      assert (a + b)[|a| + i] == b[i];
    }
  }

  lemma TellsServer(m: map<string, string>, metricsPort: int)
    requires Tells(m, ServerPairs(metricsPort))
    ensures SaysServer(m, metricsPort)
  {
    var p := ServerPairs(metricsPort);
    assert Says(m, p[0].key, p[0].value) && Says(m, p[1].key, p[1].value) && Says(m, p[2].key, p[2].value);
    assert Says(m, p[3].key, p[3].value) && Says(m, p[4].key, p[4].value) && Says(m, p[5].key, p[5].value);
    assert Says(m, p[6].key, p[6].value) && Says(m, p[7].key, p[7].value);
  }

  lemma TellsLimits(m: map<string, string>, c: ZookeeperConfig)
    requires Tells(m, LimitPairs(c))
    ensures SaysLimits(m, c)
  {
    var p := LimitPairs(c);
    assert Says(m, p[0].key, p[0].value) && Says(m, p[1].key, p[1].value) && Says(m, p[2].key, p[2].value);
    assert Says(m, p[3].key, p[3].value) && Says(m, p[4].key, p[4].value) && Says(m, p[5].key, p[5].value);
    assert Says(m, p[6].key, p[6].value) && Says(m, p[7].key, p[7].value);
  }

  lemma TellsSessions(m: map<string, string>, c: ZookeeperConfig, adminPort: int)
    requires Tells(m, SessionPairs(c, adminPort))
    ensures SaysSessions(m, c, adminPort)
  {
    var p := SessionPairs(c, adminPort);
    assert Says(m, p[0].key, p[0].value) && Says(m, p[1].key, p[1].value) && Says(m, p[2].key, p[2].value);
    assert Says(m, p[3].key, p[3].value) && Says(m, p[4].key, p[4].value) && Says(m, p[5].key, p[5].value);
    assert Says(m, p[6].key, p[6].value) && Says(m, p[7].key, p[7].value);
  }

  lemma TellsLink(m: map<string, string>)
    requires Tells(m, [LINK])
    ensures Says(m, "dynamicConfigFile", "/data/zoo.cfg.dynamic")
  {
    assert [LINK][0] == LINK;
  }

  lemma HasNamedKey(pairs: seq<Pair>, names: seq<string>, key: string)
    requires Named(pairs, names)
    ensures HasKey(pairs, key) <==> key in names
  {
    if key in names {
      var i :| 0 <= i < |names| && names[i] == key;
      assert pairs[i].key == key;
    }
  }

  /** The operator's pairs over any additional settings. */
  lemma OperatorConfigures(c: ZookeeperConfig, ports: Ports)
    ensures Configured(c.additionalConfig + AsMap(OperatorPairs(c, ports)), c, ports)
  {
    var pairs := OperatorPairs(c, ports);
    var m := c.additionalConfig + AsMap(pairs);
    OperatorNamed(c, ports);
    OperatorCoded();
    CodesDiffer();
    NamesDiffer(pairs, OperatorNames(), AllCodes());
    MapOfDistinct(pairs);
    OperatorTells(c, ports, m);
    forall k
      ensures k in AsMap(pairs) <==> k in OperatorNames()
    {
      HasNamedKey(pairs, OperatorNames(), k);
    }
  }

  lemma OperatorTells(c: ZookeeperConfig, ports: Ports, m: map<string, string>)
    requires Tells(m, OperatorPairs(c, ports))
    ensures SaysServer(m, ports.metrics) && SaysLimits(m, c) && SaysSessions(m, c, ports.adminServer)
    ensures Says(m, "dynamicConfigFile", "/data/zoo.cfg.dynamic")
  {
    var a, b, d := ServerPairs(ports.metrics), LimitPairs(c), SessionPairs(c, ports.adminServer);
    TellsParts(m, a + b + d, [LINK]);
    TellsParts(m, a + b, d);
    TellsParts(m, a, b);
    TellsServer(m, ports.metrics);
    TellsLimits(m, c);
    TellsSessions(m, c, ports.adminServer);
    TellsLink(m);
  }

  /** For every iteration order the text reads back as the user's settings overridden by the operator's:
      each key the operator writes has the value of its own field, every other additional key its own. */
  lemma TextMeansItsMaps(c: ZookeeperConfig, ports: Ports, order: seq<Pair>)
    requires OrderOf(order, c.additionalConfig) && PlainMap(c.additionalConfig)
    ensures Configured(ReadConfig(Render(order + OperatorPairs(c, ports))), c, ports)
  {
    AllPairsArePlain(c.additionalConfig, order, c, ports);
    ReadsBoth(c.additionalConfig, order, OperatorPairs(c, ports));
    OperatorConfigures(c, ports);
  }

  lemma LinkLine()
    ensures IsLink(Line(LINK))
  {
  }

  /** Every line but the last is no link, and the last one is. */
  ghost predicate LinkLast(lines: seq<string>) {
    && |lines| >= 2 && IsLink(lines[|lines| - 1]) && lines[|lines| - 2] != ""
    && forall i | 0 <= i < |lines| - 1 :: !Contains(lines[i], LINK_KEY)
  }

  lemma {:induction false} LinesConcat(a: seq<Pair>, b: seq<Pair>)
    ensures Lines(a + b) == Lines(a) + Lines(b)
  {
    if a == [] {
      assert a + b == b;
    } else {
      assert (a + b)[1..] == a[1..] + b;
      LinesConcat(a[1..], b);
    }
  }

  lemma OrdinaryLines(pairs: seq<Pair>, last: Pair)
    requires AllOrdinary(pairs) && pairs != [] && IsLink(Line(last))
    ensures LinkLast(Lines(pairs + [last]))
  {
    LinesConcat(pairs, [last]);
    var lines := Lines(pairs) + [Line(last)];
    assert Lines([last]) == [Line(last)];
    forall i | 0 <= i < |pairs|
      ensures !Contains(lines[i], LINK_KEY)
    {
      OrdinaryLine(pairs[i]);
    }
  }

  lemma OperatorPart(c: ZookeeperConfig, ports: Ports)
    ensures LinkLast(Lines(OperatorPairs(c, ports)))
  {
    BeforeLinkIsOrdinary(c, ports);
    LinkLine();
    OrdinaryLines(BeforeLink(c, ports), LINK);
  }

  lemma GeneratedConcat(a: seq<string>, b: seq<string>)
    requires LinkLast(b)
    ensures Generated(a + b) <==> forall i | 0 <= i < |a| :: !Contains(a[i], LINK_KEY)
  {
    var lines := a + b;
    assert forall i | 0 <= i < |a| :: lines[i] == a[i];
    assert forall i | |a| <= i < |lines| :: lines[i] == b[i - |a|];
  }

  /** The text is one the pods can keep in step across restarts exactly when no additional line mentions
      the link to the dynamic configuration. */
  lemma TextIsGeneratedExactly(c: ZookeeperConfig, ports: Ports, order: seq<Pair>)
    requires OrderOf(order, c.additionalConfig) && PlainMap(c.additionalConfig)
    ensures Generated(LinesOf(Render(order + OperatorPairs(c, ports)))) <==>
            forall i | 0 <= i < |order| :: !Contains(Line(order[i]), LINK_KEY)
  {
    var operator := OperatorPairs(c, ports);
    AllPairsArePlain(c.additionalConfig, order, c, ports);
    ReadRender(order + operator);
    LinesConcat(order, operator);
    OperatorPart(c, ports);
    GeneratedConcat(Lines(order), Lines(operator));
  }

  /** The user's settings, in whatever order, then the operator's. The text says of each of the operator's
      keys what its own field is, and of every other key what the user wrote. */
  method MakeZkConfigString(c: ZookeeperConfig, ports: Ports) returns (text: string)
    ensures exists order :: OrderOf(order, c.additionalConfig) && text == Render(order + OperatorPairs(c, ports))
    ensures PlainMap(c.additionalConfig) ==> Configured(ReadConfig(text), c, ports)
  {
    var additional, order := AdditionalText(c.additionalConfig);
    RenderConcat(order, OperatorPairs(c, ports));
    text := additional + Render(OperatorPairs(c, ports));
    assert text == Render(order + OperatorPairs(c, ports));
    if PlainMap(c.additionalConfig) {
      TextMeansItsMaps(c, ports, order);
    }
  }
}
