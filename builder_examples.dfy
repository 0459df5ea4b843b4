/** The call chains of the class documentation and of the unit tests, run
    through a `Builder` object: each chain's setters, then `ToString`. */
module BuilderExamples {
  import opened Wrappers
  import opened Errors
  import opened Paths
  import opened Uri
  import opened UriExamples
  import opened UriBuilder

  /** The class documentation's simple example: `host("google.com")`, then `toString()`. */
  method SimpleExampleChain() returns (u: Result<string, Error>)
    ensures u == Success("https://google.com")
  {
    var b := new Builder();
    var r := b.Host("google.com");
    assert b.State() == Empty.(host := Some("google.com"));
    SimpleExample();
    u := b.ToString([]);
  }

  /** The class documentation's complex example, its setters in the documented
      order. The parameter map has two keys, so `toString` may list them either
      way: `u1` is the documented text, `u2` the other order. */
  method ComplexExampleChain() returns (u1: Result<string, Error>, u2: Result<string, Error>)
    ensures u1 == Success("https://qudini@qudini.com:8080/api/queues/add?activate=true&queu%26%23eId=1#section-2")
    ensures u2 == Success("https://qudini@qudini.com:8080/api/queues/add?queu%26%23eId=1&activate=true#section-2")
  {
    ComplexExampleChecks();
    var b := new Builder();
    b.Scheme(HTTPS);
    var r := b.Host("qudini.com");
    assert r == Pass;
    b.Fragment("section-2");
    r := b.User("qudini");
    assert r == Pass;
    b.Port(8080);
    r := b.Path(["api", "queues", "add"]);
    assert r == Pass;
    r := b.Param("queu&#eId", Int(1));
    assert r == Pass;
    r := b.Param("activate", Bool(true));
    assert r == Pass;
    assert b.State() == ComplexState;
    ComplexExampleSerialized();
    u1 := b.ToString(["activate", "queu&#eId"]);
    u2 := b.ToString(["queu&#eId", "activate"]);
  }

  /** Test `justHost`. */
  method JustHostChain() returns (u: Result<string, Error>)
    ensures u == Success("https://qudini.com")
  {
    var b := new Builder();
    var r := b.Host("qudini.com");
    assert b.State() == Empty.(host := Some("qudini.com"));
    JustHost();
    u := b.ToString([]);
  }

  /** Test `userAndHost`: host first, then user. */
  method UserAndHostChain() returns (u: Result<string, Error>)
    ensures u == Success("https://qudini@qudini.com")
  {
    var b := new Builder();
    var r := b.Host("qudini.com");
    assert r == Pass;
    r := b.User("qudini");
    assert r == Pass;
    assert b.State() == Empty.(host := Some("qudini.com"), user := Some("qudini"));
    UserAndHost();
    u := b.ToString([]);
  }

  /** Test `hostAndPort`. */
  method HostAndPortChain() returns (u: Result<string, Error>)
    ensures u == Success("https://qudini.com:80")
  {
    var b := new Builder();
    var r := b.Host("qudini.com");
    assert r == Pass;
    b.Port(80);
    assert b.State() == Empty.(host := Some("qudini.com"), port := Some(80));
    HostAndPort();
    u := b.ToString([]);
  }

  /** Test `schemeAndHost`: scheme first, then host. */
  method SchemeAndHostChain() returns (u: Result<string, Error>)
    ensures u == Success("http://qudini.com")
  {
    var b := new Builder();
    b.Scheme(HTTP);
    var r := b.Host("qudini.com");
    assert r == Pass;
    assert b.State() == Empty.(host := Some("qudini.com"), scheme := Some(HTTP));
    SchemeAndHost();
    u := b.ToString([]);
  }

  /** Test `hostPortAndPath`. */
  method HostPortAndPathChain() returns (u: Result<string, Error>)
    ensures u == Success("https://qudini.com:80/api/v2/resource")
  {
    var b := new Builder();
    var r := b.Host("qudini.com");
    assert r == Pass;
    b.Port(80);
    r := b.Path(["api", "v2", "resource"]);
    assert r == Pass by { CheckApiV2Resource(); }
    assert b.State() == Empty.(host := Some("qudini.com"), port := Some(80), path := Some(["api", "v2", "resource"]));
    HostPortAndPath();
    u := b.ToString([]);
  }

  /** Test `hostPathAndParameters`: `u1` is the text the test expects, `u2` the
      other order the map may iterate in. */
  method HostPathAndParametersChain() returns (u1: Result<string, Error>, u2: Result<string, Error>)
    ensures u1 == Success("https://qudini.com/api/v2/resource?123=456&abc=def")
    ensures u2 == Success("https://qudini.com/api/v2/resource?abc=def&123=456")
  {
    var b := new Builder();
    var r := b.Host("qudini.com");
    assert r == Pass;
    r := b.Path(["api", "v2", "resource"]);
    assert r == Pass by { CheckApiV2Resource(); }
    r := b.Param("abc", Str("def"));
    assert r == Pass;
    r := b.Param("123", Str("456"));
    assert r == Pass;
    assert b.State() == TwoParamsState;
    HostPathAndParameters();
    u1 := b.ToString(["123", "abc"]);
    u2 := b.ToString(["abc", "123"]);
  }

  /** Test `failingHostPathAndParameters`: the segment `abc/def?ghi#123` is
      refused with `SlashInPathComponent`, and no path is stored. */
  method FailingHostPathAndParametersChain() returns (r: Outcome<Error>, kept: Option<seq<string>>)
    ensures r == Fail(SlashInPathComponent)
    ensures kept == None
  {
    var b := new Builder();
    var h := b.Host("qudini.com");
    MixedSegmentGivesSlash();
    r := b.Path(["api", "v2", "abc/def?ghi#123"]);
    kept := b.pathComponents;
  }
}
