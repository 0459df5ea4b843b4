/** The addresses the class documentation and the unit tests spell out, derived
    from the model one piece at a time. */
module UriExamples {
  import opened Wrappers
  import opened Text
  import opened Escaping
  import opened Paths
  import opened Uri

  /** `Serialize` of a state with a host, given its eight pieces. */
  lemma SerializeFromPieces(st: UriState, order: seq<string>,
                            a: string, c: string, h: string, p: string, pa: string, q: string, f: string, whole: string)
    requires IsIterationOrder(order, st.params)
    requires st.host == Some(h)
    requires a == SchemeToken(st.scheme) && c == UserPart(st.user) && p == PortPart(st.port)
    requires pa == PathPart(st.path) && q == QueryPart(st.params, order) && f == FragmentPart(st.fragment)
    requires a + "://" + c + h + p + pa + q + f == whole
    ensures Serialize(st, order) == Success(whole)
  {
  }

  lemma NoQuery()
    ensures IsIterationOrder([], map[])
    ensures QueryPart(map[], []) == ""
  {
  }

  lemma Port80()
    ensures PortPart(Some(80)) == ":80"
  {
    assert Decimal(80) == Digits(8) + [DigitChar(0)] == "80";
  }

  lemma Port8080()
    ensures PortPart(Some(8080)) == ":8080"
  {
    assert Decimal(8080) == Digits(808) + [DigitChar(0)];
    assert Digits(808) == Digits(80) + [DigitChar(8)];
    assert Digits(80) == Digits(8) + [DigitChar(0)];
  }

  lemma CheckApiV2Resource()
    ensures PathCheck(["api", "v2", "resource"]) == Pass
  {
  }

  lemma JoinApiV2Resource()
    ensures JoinPath(["api", "v2", "resource"]) == "api/v2/resource"
  {
  }

  lemma SlashApiV2Resource()
    ensures "/" + "api/v2/resource" == "/api/v2/resource"
  {
  }

  lemma PathApiV2Resource()
    ensures PathPart(Some(["api", "v2", "resource"])) == "/api/v2/resource"
  {
    JoinApiV2Resource();
    SlashApiV2Resource();
  }

  lemma JoinApiQueuesAdd()
    ensures PathCheck(["api", "queues", "add"]) == Pass
    ensures JoinPath(["api", "queues", "add"]) == "api/queues/add"
  {
  }

  lemma SlashApiQueuesAdd()
    ensures "/" + "api/queues/add" == "/api/queues/add"
  {
  }

  lemma PathApiQueuesAdd()
    ensures PathCheck(["api", "queues", "add"]) == Pass
    ensures PathPart(Some(["api", "queues", "add"])) == "/api/queues/add"
  {
    JoinApiQueuesAdd();
    SlashApiQueuesAdd();
  }

  /** The literal joins the worked examples below rely on. */
  lemma GoogleText()
    ensures "https" + "://" + "" + "google.com" + "" + "" + "" + "" == "https://google.com"
  {
  }

  lemma ShortExampleTexts()
    ensures "https" + "://" + "" + "qudini.com" + "" + "" + "" + "" == "https://qudini.com"
    ensures "http" + "://" + "" + "qudini.com" + "" + "" + "" + "" == "http://qudini.com"
    ensures "https" + "://" + "qudini@" + "qudini.com" + "" + "" + "" + "" == "https://qudini@qudini.com"
    ensures "https" + "://" + "" + "qudini.com" + ":80" + "" + "" + "" == "https://qudini.com:80"
  {
  }

  /** The class documentation's simple example: only the host `google.com`. */
  lemma SimpleExample()
    ensures Serialize(Empty.(host := Some("google.com")), []) == Success("https://google.com")
  {
    NoQuery();
    GoogleText();
    SerializeFromPieces(Empty.(host := Some("google.com")), [], "https", "", "google.com", "", "", "", "", "https://google.com");
  }

  /** `new Builder().host("qudini.com").toString()`. */
  lemma JustHost()
    ensures Serialize(Empty.(host := Some("qudini.com")), []) == Success("https://qudini.com")
  {
    NoQuery();
    ShortExampleTexts();
    SerializeFromPieces(Empty.(host := Some("qudini.com")), [], "https", "", "qudini.com", "", "", "", "", "https://qudini.com");
  }

  /** The same with the HTTP scheme. */
  lemma SchemeAndHost()
    ensures Serialize(Empty.(host := Some("qudini.com"), scheme := Some(HTTP)), []) == Success("http://qudini.com")
  {
    NoQuery();
    ShortExampleTexts();
    SerializeFromPieces(Empty.(host := Some("qudini.com"), scheme := Some(HTTP)), [],
      "http", "", "qudini.com", "", "", "", "", "http://qudini.com");
  }

  /** The same with the user `qudini`. */
  lemma UserAndHost()
    ensures Serialize(Empty.(host := Some("qudini.com"), user := Some("qudini")), []) ==
      Success("https://qudini@qudini.com")
  {
    NoQuery();
    ShortExampleTexts();
    SerializeFromPieces(Empty.(host := Some("qudini.com"), user := Some("qudini")), [],
      "https", "qudini@", "qudini.com", "", "", "", "", "https://qudini@qudini.com");
  }

  /** The same with port 80. */
  lemma HostAndPort()
    ensures Serialize(Empty.(host := Some("qudini.com"), port := Some(80)), []) == Success("https://qudini.com:80")
  {
    NoQuery();
    ShortExampleTexts();
    Port80();
    SerializeFromPieces(Empty.(host := Some("qudini.com"), port := Some(80)), [],
      "https", "", "qudini.com", ":80", "", "", "", "https://qudini.com:80");
  }

  lemma HostPortAndPathText()
    ensures "https" + "://" + "" + "qudini.com" + ":80" + "/api/v2/resource" + "" + "" ==
      "https://qudini.com:80/api/v2/resource"
  {
    assert "https" + "://" + "" + "qudini.com" == "https://qudini.com";
    assert "https://qudini.com" + ":80" == "https://qudini.com:80";
    assert "https://qudini.com:80" + "/api/v2/resource" == "https://qudini.com:80/api/v2/resource";
  }

  /** Host, port 80 and the path `api`, `v2`, `resource`. */
  lemma HostPortAndPath()
    ensures Serialize(Empty.(host := Some("qudini.com"), port := Some(80), path := Some(["api", "v2", "resource"])), []) ==
      Success("https://qudini.com:80/api/v2/resource")
  {
    NoQuery();
    Port80();
    PathApiV2Resource();
    HostPortAndPathText();
    SerializeFromPieces(Empty.(host := Some("qudini.com"), port := Some(80), path := Some(["api", "v2", "resource"])), [],
      "https", "", "qudini.com", ":80", "/api/v2/resource", "", "", "https://qudini.com:80/api/v2/resource");
  }

  /** The query section of a two-key listing, given each key's pair. */
  lemma QueryOfTwo(params: map<string, Value>, k1: string, k2: string, p1: string, p2: string, whole: string)
    requires k1 in params && k2 in params && |params| > 0
    requires Pair(k1, params[k1]) == p1 && Pair(k2, params[k2]) == p2
    requires "?" + (p1 + "&" + p2) == whole
    ensures QueryPart(params, [k1, k2]) == whole
  {
    assert Pairs(params, [k1, k2]) == [p1, p2];
    assert Join([p1, p2], '&') == p1 + "&" + p2;
  }

  /** The parameters of the test with two string parameters. */
  const TwoParams: map<string, Value> := map["abc" := Str("def"), "123" := Str("456")]

  lemma TwoParamsTexts()
    ensures "123" + "=" + "456" == "123=456" && "abc" + "=" + "def" == "abc=def"
    ensures "?" + ("123=456" + "&" + "abc=def") == "?123=456&abc=def"
    ensures "?" + ("abc=def" + "&" + "123=456") == "?abc=def&123=456"
  {
  }

  lemma TwoParamsAddress(query: string)
    ensures "https" + "://" + "" + "qudini.com" + "" + "/api/v2/resource" + query + "" ==
      "https://qudini.com/api/v2/resource" + query
  {
    var prefix := "https://qudini.com/api/v2/resource";
    assert "https" + "://" + "" + "qudini.com" == "https://qudini.com";
    assert "https://qudini.com" + "" + "/api/v2/resource" == prefix;
    assert prefix + query + "" == prefix + query;
  }

  lemma TwoParamsWhole()
    ensures "https://qudini.com/api/v2/resource" + "?123=456&abc=def" == "https://qudini.com/api/v2/resource?123=456&abc=def"
    ensures "https://qudini.com/api/v2/resource" + "?abc=def&123=456" == "https://qudini.com/api/v2/resource?abc=def&123=456"
  {
  }

  lemma TwoParamsPairs()
    ensures Pair("123", Str("456")) == "123=456" && Pair("abc", Str("def")) == "abc=def"
  {
    EscapeIdentity("123");
    EscapeIdentity("abc");
    TwoParamsTexts();
  }

  lemma TwoParamsOrders()
    ensures IsIterationOrder(["123", "abc"], TwoParams) && IsIterationOrder(["abc", "123"], TwoParams)
    ensures |TwoParams| > 0
  {
    assert "abc" in TwoParams;
  }

  lemma QueryNumbersFirst()
    ensures QueryPart(TwoParams, ["123", "abc"]) == "?123=456&abc=def"
  {
    TwoParamsOrders();
    TwoParamsPairs();
    TwoParamsTexts();
    QueryOfTwo(TwoParams, "123", "abc", "123=456", "abc=def", "?123=456&abc=def");
  }

  lemma QueryLettersFirst()
    ensures QueryPart(TwoParams, ["abc", "123"]) == "?abc=def&123=456"
  {
    TwoParamsOrders();
    TwoParamsPairs();
    TwoParamsTexts();
    QueryOfTwo(TwoParams, "abc", "123", "abc=def", "123=456", "?abc=def&123=456");
  }

  /** Either iteration order of the two keys is possible, and each gives its own text. */
  lemma TwoParamsQuery()
    ensures IsIterationOrder(["123", "abc"], TwoParams) && IsIterationOrder(["abc", "123"], TwoParams)
    ensures QueryPart(TwoParams, ["123", "abc"]) == "?123=456&abc=def"
    ensures QueryPart(TwoParams, ["abc", "123"]) == "?abc=def&123=456"
  {
    TwoParamsOrders();
    QueryNumbersFirst();
    QueryLettersFirst();
  }

  /** The state the test `hostPathAndParameters` builds. */
  const TwoParamsState: UriState := Empty.(host := Some("qudini.com"), path := Some(["api", "v2", "resource"]), params := TwoParams)

  lemma ParametersNumbersFirst()
    ensures Serialize(TwoParamsState, ["123", "abc"]) == Success("https://qudini.com/api/v2/resource?123=456&abc=def")
  {
    PathApiV2Resource();
    TwoParamsOrders();
    QueryNumbersFirst();
    TwoParamsAddress("?123=456&abc=def");
    TwoParamsWhole();
    SerializeFromPieces(TwoParamsState, ["123", "abc"], "https", "", "qudini.com", "", "/api/v2/resource", "?123=456&abc=def", "",
      "https://qudini.com/api/v2/resource?123=456&abc=def");
  }

  lemma ParametersLettersFirst()
    ensures Serialize(TwoParamsState, ["abc", "123"]) == Success("https://qudini.com/api/v2/resource?abc=def&123=456")
  {
    PathApiV2Resource();
    TwoParamsOrders();
    QueryLettersFirst();
    TwoParamsAddress("?abc=def&123=456");
    TwoParamsWhole();
    SerializeFromPieces(TwoParamsState, ["abc", "123"], "https", "", "qudini.com", "", "/api/v2/resource", "?abc=def&123=456", "",
      "https://qudini.com/api/v2/resource?abc=def&123=456");
  }

  /** Host, the path `api`, `v2`, `resource` and the parameters `abc=def` and
      `123=456`: the text the test expects is one of the two possible ones. */
  lemma HostPathAndParameters()
    ensures IsIterationOrder(["123", "abc"], TwoParamsState.params) && IsIterationOrder(["abc", "123"], TwoParamsState.params)
    ensures Serialize(TwoParamsState, ["123", "abc"]) == Success("https://qudini.com/api/v2/resource?123=456&abc=def")
    ensures Serialize(TwoParamsState, ["abc", "123"]) == Success("https://qudini.com/api/v2/resource?abc=def&123=456")
  {
    TwoParamsOrders();
    ParametersNumbersFirst();
    ParametersLettersFirst();
  }

  /** What the setters of the class documentation's complex example accept. */
  lemma ComplexExampleChecks()
    ensures HostCheck("qudini.com") == Pass && UserCheck("qudini") == Pass
    ensures PathCheck(["api", "queues", "add"]) == Pass
  {
    PathApiQueuesAdd();
  }

  lemma ActivateText()
    ensures "activate" + "=" + "true" == "activate=true"
  {
  }

  /** `Pair` of a key and value, given the key's escape and the value's text. */
  lemma PairFromPieces(key: string, value: Value, escaped: string, text: string, whole: string)
    requires Escape(key) == escaped && ValueText(value) == text
    requires escaped + "=" + text == whole
    ensures Pair(key, value) == whole
  {
  }

  lemma PairActivate()
    ensures Pair("activate", Bool(true)) == "activate=true"
  {
    EscapeIdentity("activate");
    ActivateText();
    PairFromPieces("activate", Bool(true), "activate", "true", "activate=true");
  }

  lemma KeyPairText()
    ensures "queu%26%23eId" + "=" + "1" == "queu%26%23eId=1"
  {
  }

  /** The escaped key and the integer 1: `queu%26%23eId=1`. */
  lemma PairEscapedKey()
    ensures Pair("queu&#eId", Int(1)) == "queu%26%23eId=1"
  {
    EscapedKeyExample();
    assert Decimal(1) == [DigitChar(1)] == "1";
    KeyPairText();
    PairFromPieces("queu&#eId", Int(1), "queu%26%23eId", "1", "queu%26%23eId=1");
  }

  /** The parameters of the complex example. */
  const ComplexParams: map<string, Value> := map["queu&#eId" := Int(1), "activate" := Bool(true)]

  lemma ComplexOrders()
    ensures IsIterationOrder(["activate", "queu&#eId"], ComplexParams)
    ensures IsIterationOrder(["queu&#eId", "activate"], ComplexParams)
    ensures |ComplexParams| > 0
  {
    assert "activate" in ComplexParams;
  }

  lemma QueryTextActivateFirst()
    ensures "?" + ("activate=true" + "&" + "queu%26%23eId=1") == "?activate=true&queu%26%23eId=1"
  {
  }

  lemma QueryTextKeyFirst()
    ensures "?" + ("queu%26%23eId=1" + "&" + "activate=true") == "?queu%26%23eId=1&activate=true"
  {
  }

  /** The order the documentation shows: `activate` first. */
  lemma QueryActivateFirst()
    ensures QueryPart(ComplexParams, ["activate", "queu&#eId"]) == "?activate=true&queu%26%23eId=1"
  {
    ComplexOrders();
    PairActivate();
    PairEscapedKey();
    QueryTextActivateFirst();
    QueryOfTwo(ComplexParams, "activate", "queu&#eId", "activate=true", "queu%26%23eId=1", "?activate=true&queu%26%23eId=1");
  }

  /** The other order the map may iterate in: the escaped key first. */
  lemma QueryKeyFirst()
    ensures QueryPart(ComplexParams, ["queu&#eId", "activate"]) == "?queu%26%23eId=1&activate=true"
  {
    ComplexOrders();
    PairActivate();
    PairEscapedKey();
    QueryTextKeyFirst();
    QueryOfTwo(ComplexParams, "queu&#eId", "activate", "queu%26%23eId=1", "activate=true", "?queu%26%23eId=1&activate=true");
  }

  lemma ComplexAuthority()
    ensures "https" + "://" + "qudini@" + "qudini.com" + ":8080" == "https://qudini@qudini.com:8080"
  {
    assert "https" + "://" == "https://";
    assert "https://" + "qudini@" == "https://qudini@";
    assert "https://qudini@" + "qudini.com" == "https://qudini@qudini.com";
  }

  lemma ComplexPrefix()
    ensures "https://qudini@qudini.com:8080" + "/api/queues/add" == "https://qudini@qudini.com:8080/api/queues/add"
  {
  }

  /** The address around a query section `query`. */
  lemma ComplexAddress(query: string)
    ensures "https" + "://" + "qudini@" + "qudini.com" + ":8080" + "/api/queues/add" + query + "#section-2" ==
      "https://qudini@qudini.com:8080/api/queues/add" + query + "#section-2"
  {
    ComplexAuthority();
    ComplexPrefix();
  }

  /** A text grown by two appended pieces and a suffix, one step at a time. */
  lemma AppendInSteps(prefix: string, q1: string, q2: string, f: string, l1: string, l2: string, whole: string)
    requires prefix + q1 == l1 && l1 + q2 == l2 && l2 + f == whole
    ensures prefix + (q1 + q2) + f == whole
  {
    Associative(prefix, q1, q2);
  }

  lemma ComplexStepsActivateFirst()
    ensures "https://qudini@qudini.com:8080/api/queues/add" + "?activate=true" ==
      "https://qudini@qudini.com:8080/api/queues/add?activate=true"
    ensures "https://qudini@qudini.com:8080/api/queues/add?activate=true" + "&queu%26%23eId=1" ==
      "https://qudini@qudini.com:8080/api/queues/add?activate=true&queu%26%23eId=1"
    ensures "https://qudini@qudini.com:8080/api/queues/add?activate=true&queu%26%23eId=1" + "#section-2" ==
      "https://qudini@qudini.com:8080/api/queues/add?activate=true&queu%26%23eId=1#section-2"
    ensures "?activate=true" + "&queu%26%23eId=1" == "?activate=true&queu%26%23eId=1"
  {
  }

  lemma ComplexStepsKeyFirst()
    ensures "https://qudini@qudini.com:8080/api/queues/add" + "?queu%26%23eId=1" ==
      "https://qudini@qudini.com:8080/api/queues/add?queu%26%23eId=1"
    ensures "https://qudini@qudini.com:8080/api/queues/add?queu%26%23eId=1" + "&activate=true" ==
      "https://qudini@qudini.com:8080/api/queues/add?queu%26%23eId=1&activate=true"
    ensures "https://qudini@qudini.com:8080/api/queues/add?queu%26%23eId=1&activate=true" + "#section-2" ==
      "https://qudini@qudini.com:8080/api/queues/add?queu%26%23eId=1&activate=true#section-2"
    ensures "?queu%26%23eId=1" + "&activate=true" == "?queu%26%23eId=1&activate=true"
  {
  }

  lemma ComplexWholeActivateFirst()
    ensures "https://qudini@qudini.com:8080/api/queues/add" + "?activate=true&queu%26%23eId=1" + "#section-2" ==
      "https://qudini@qudini.com:8080/api/queues/add?activate=true&queu%26%23eId=1#section-2"
  {
    ComplexStepsActivateFirst();
    AppendInSteps("https://qudini@qudini.com:8080/api/queues/add", "?activate=true", "&queu%26%23eId=1", "#section-2",
      "https://qudini@qudini.com:8080/api/queues/add?activate=true",
      "https://qudini@qudini.com:8080/api/queues/add?activate=true&queu%26%23eId=1",
      "https://qudini@qudini.com:8080/api/queues/add?activate=true&queu%26%23eId=1#section-2");
  }

  lemma ComplexWholeKeyFirst()
    ensures "https://qudini@qudini.com:8080/api/queues/add" + "?queu%26%23eId=1&activate=true" + "#section-2" ==
      "https://qudini@qudini.com:8080/api/queues/add?queu%26%23eId=1&activate=true#section-2"
  {
    ComplexStepsKeyFirst();
    AppendInSteps("https://qudini@qudini.com:8080/api/queues/add", "?queu%26%23eId=1", "&activate=true", "#section-2",
      "https://qudini@qudini.com:8080/api/queues/add?queu%26%23eId=1",
      "https://qudini@qudini.com:8080/api/queues/add?queu%26%23eId=1&activate=true",
      "https://qudini@qudini.com:8080/api/queues/add?queu%26%23eId=1&activate=true#section-2");
  }

  /** The state the complex example's chain of setters leaves behind. */
  const ComplexState: UriState := UriState(Some(HTTPS), Some("qudini"), Some("qudini.com"), Some(8080),
    Some(["api", "queues", "add"]), ComplexParams, Some("section-2"))

  lemma UserQudini()
    ensures UserPart(Some("qudini")) == "qudini@"
  {
    assert "qudini" + "@" == "qudini@";
  }

  lemma FragmentSection2()
    ensures FragmentPart(Some("section-2")) == "#section-2"
  {
    assert "#" + "section-2" == "#section-2";
  }

  lemma ComplexPieces()
    ensures SchemeToken(ComplexState.scheme) == "https"
    ensures UserPart(ComplexState.user) == "qudini@"
    ensures PortPart(ComplexState.port) == ":8080"
    ensures PathPart(ComplexState.path) == "/api/queues/add"
    ensures FragmentPart(ComplexState.fragment) == "#section-2"
  {
    assert UserPart(ComplexState.user) == "qudini@" by { UserQudini(); }
    assert PortPart(ComplexState.port) == ":8080" by { Port8080(); }
    assert PathPart(ComplexState.path) == "/api/queues/add" by { PathApiQueuesAdd(); }
    assert FragmentPart(ComplexState.fragment) == "#section-2" by { FragmentSection2(); }
  }

  lemma ComplexActivateFirst()
    ensures Serialize(ComplexState, ["activate", "queu&#eId"]) ==
      Success("https://qudini@qudini.com:8080/api/queues/add?activate=true&queu%26%23eId=1#section-2")
  {
    ComplexOrders();
    ComplexPieces();
    QueryActivateFirst();
    ComplexAddress("?activate=true&queu%26%23eId=1");
    ComplexWholeActivateFirst();
    SerializeFromPieces(ComplexState, ["activate", "queu&#eId"], "https", "qudini@", "qudini.com", ":8080",
      "/api/queues/add", "?activate=true&queu%26%23eId=1", "#section-2",
      "https://qudini@qudini.com:8080/api/queues/add?activate=true&queu%26%23eId=1#section-2");
  }

  lemma ComplexKeyFirst()
    ensures Serialize(ComplexState, ["queu&#eId", "activate"]) ==
      Success("https://qudini@qudini.com:8080/api/queues/add?queu%26%23eId=1&activate=true#section-2")
  {
    ComplexOrders();
    ComplexPieces();
    QueryKeyFirst();
    ComplexAddress("?queu%26%23eId=1&activate=true");
    ComplexWholeKeyFirst();
    SerializeFromPieces(ComplexState, ["queu&#eId", "activate"], "https", "qudini@", "qudini.com", ":8080",
      "/api/queues/add", "?queu%26%23eId=1&activate=true", "#section-2",
      "https://qudini@qudini.com:8080/api/queues/add?queu%26%23eId=1&activate=true#section-2");
  }

  /** The class documentation's complex example: the text it shows is what the
      order `activate` first gives; the other order swaps the two pairs. */
  lemma ComplexExampleSerialized()
    ensures IsIterationOrder(["activate", "queu&#eId"], ComplexState.params)
    ensures IsIterationOrder(["queu&#eId", "activate"], ComplexState.params)
    ensures Serialize(ComplexState, ["activate", "queu&#eId"]) ==
      Success("https://qudini@qudini.com:8080/api/queues/add?activate=true&queu%26%23eId=1#section-2")
    ensures Serialize(ComplexState, ["queu&#eId", "activate"]) ==
      Success("https://qudini@qudini.com:8080/api/queues/add?queu%26%23eId=1&activate=true#section-2")
  {
    ComplexOrders();
    ComplexActivateFirst();
    ComplexKeyFirst();
  }

  /** `Escape` of four pieces, given the escape of each. */
  lemma EscapeOfFour(a: string, b: string, c: string, d: string, ea: string, eb: string, ec: string, ed: string)
    requires Escape(a) == ea && Escape(b) == eb && Escape(c) == ec && Escape(d) == ed
    ensures Escape(a + b + c + d) == ea + eb + ec + ed
  {
    EscapeAppend(a + b + c, d);
    EscapeAppend(a + b, c);
    EscapeAppend(a, b);
  }

  lemma EscapeHash()
    ensures Escape("#") == "%23"
  {
    assert Escape("#") == EscapeChar('#') + Escape([]);
  }

  lemma EscapeAmpersand()
    ensures Escape("&") == "%26"
  {
    assert Escape("&") == EscapeChar('&') + Escape([]);
  }

  lemma EscapeQueuAndEId()
    ensures Escape("queu") == "queu" && Escape("eId") == "eId"
  {
    EscapeIdentity("queu");
    EscapeIdentity("eId");
  }

  lemma KeyText()
    ensures "queu&#eId" == "queu" + "&" + "#" + "eId"
    ensures "queu" + "%26" + "%23" + "eId" == "queu%26%23eId"
  {
  }

  /** The key of the class documentation's example: `&` and `#` are escaped. */
  lemma EscapedKeyExample()
    ensures Escape("queu&#eId") == "queu%26%23eId"
  {
    EscapeHash();
    EscapeAmpersand();
    EscapeQueuAndEId();
    KeyText();
    EscapeOfFour("queu", "&", "#", "eId", "queu", "%26", "%23", "eId");
  }
}
