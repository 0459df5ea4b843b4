/** `Builder`: a mutable object whose checking setters validate their argument
    before storing it (fail fast), and whose `toString` reads the fields only. */
module UriBuilder {
  import opened Wrappers
  import opened Errors
  import opened Paths
  import opened Uri

  class Builder {
    var host: Option<string>
    var queryParameters: map<string, Value>
    var pathComponents: Option<seq<string>>
    var port: Option<Long>
    var scheme: Option<Uri.Scheme>
    var user: Option<string>
    var fragment: Option<string>

    /** The fields as one value. */
    function State(): UriState
      reads this
    {
      UriState(scheme, user, host, port, pathComponents, queryParameters, fragment)
    }

    /** Nothing the setters reject is ever stored. */
    ghost predicate Valid()
      reads this
    {
      Uri.Valid(State())
    }

    /** `new Builder()`: every field empty, no host. */
    constructor ()
      ensures Valid() && State() == Empty
    {
      host := None;
      queryParameters := map[];
      pathComponents := None;
      port := None;
      scheme := None;
      user := None;
      fragment := None;
    }

    /** `host(h)`: rejects `/`, then `:`; otherwise stores `h`, replacing any host. */
    method Host(h: string) returns (r: Outcome<Error>)
      requires Valid()
      modifies this
      ensures Valid()
      ensures r == HostCheck(h)
      ensures State() == if r.Pass? then old(State()).(host := Some(h)) else old(State())
    {
      if '/' in h {
        return Fail(SlashInHostname);
      }
      if ':' in h {
        return Fail(ColonInHostname);
      }
      host := Some(h);
      r := Pass;
    }

    /** `param(name, value)`: a key can be set once; a second attempt throws and
        keeps the first value. */
    method Param(name: string, value: Value) returns (r: Outcome<Error>)
      requires Valid()
      modifies this
      ensures Valid()
      ensures r.Fail? <==> name in old(queryParameters)
      ensures r.Fail? ==> r.error == ParameterAlreadySet
      ensures State() == if r.Pass? then old(State()).(params := old(queryParameters)[name := value]) else old(State())
    {
      if name in queryParameters {
        return Fail(ParameterAlreadySet);
      }
      queryParameters := queryParameters[name := value];
      r := Pass;
    }

    /** `path(components...)`: a path can be set once, and that check comes before
        the segments are validated. */
    method Path(components: seq<string>) returns (r: Outcome<Error>)
      requires Valid()
      modifies this
      ensures Valid()
      ensures old(pathComponents).Some? ==> r == Fail(PathAlreadySet)
      ensures old(pathComponents).None? ==> r == PathCheck(components)
      ensures State() == if r.Pass? then old(State()).(path := Some(components)) else old(State())
    {
      if pathComponents.Some? {
        return Fail(PathAlreadySet);
      }
      var checked := CheckPath(components);
      if checked.Fail? {
        return checked;
      }
      pathComponents := Some(components);
      r := Pass;
    }

    /** `port(p)`: no check; overwrites. */
    method Port(p: Long)
      requires Valid()
      modifies this
      ensures Valid()
      ensures State() == old(State()).(port := Some(p))
    {
      port := Some(p);
    }

    /** `scheme(s)`: no check; overwrites. */
    method Scheme(s: Uri.Scheme)
      requires Valid()
      modifies this
      ensures Valid()
      ensures State() == old(State()).(scheme := Some(s))
    {
      scheme := Some(s);
    }

    /** `user(u)`: rejects `@`; otherwise stores `u`, replacing any user. */
    method User(u: string) returns (r: Outcome<Error>)
      requires Valid()
      modifies this
      ensures Valid()
      ensures r == UserCheck(u)
      ensures State() == if r.Pass? then old(State()).(user := Some(u)) else old(State())
    {
      if '@' in u {
        return Fail(AtInUserName);
      }
      user := Some(u);
      r := Pass;
    }

    /** `fragment(f)`: no check; overwrites. */
    method Fragment(f: string)
      requires Valid()
      modifies this
      ensures Valid()
      ensures State() == old(State()).(fragment := Some(f))
    {
      fragment := Some(f);
    }

    /** `toString()`, for the iteration order `order` of the parameter map. It only
        reads the fields, so calls between which nothing is set agree for the same
        iteration order. */
    function ToString(order: seq<string>): (r: Result<string, Error>)
      reads this
      requires IsIterationOrder(order, queryParameters)
      ensures r.Failure? <==> host.None?
      ensures r.Failure? ==> r.error == MissingHost
      ensures r.Success? ==> SchemeToken(scheme) + "://" + UserPart(user) + host.value <= r.value
    {
      Serialize(State(), order)
    }
  }

  /** A second `path` call throws `PathAlreadySet` and the first path stays. */
  method PathSetTwice(first: seq<string>, second: seq<string>)
    returns (r1: Outcome<Error>, r2: Outcome<Error>, kept: Option<seq<string>>)
    ensures r1 == PathCheck(first)
    ensures r1.Pass? ==> r2 == Fail(PathAlreadySet) && kept == Some(first)
    ensures r1.Fail? ==> r2 == PathCheck(second) && kept == (if r2.Pass? then Some(second) else None)
  {
    var b := new Builder();
    r1 := b.Path(first);
    r2 := b.Path(second);
    kept := b.pathComponents;
  }

  /** A second `param` call with the same key throws `ParameterAlreadySet` and the
      first value stays. */
  method ParamSetTwice(name: string, v1: Value, v2: Value)
    returns (r1: Outcome<Error>, r2: Outcome<Error>, kept: map<string, Value>)
    ensures r1 == Pass && r2 == Fail(ParameterAlreadySet)
    ensures kept == map[name := v1]
  {
    var b := new Builder();
    r1 := b.Param(name, v1);
    r2 := b.Param(name, v2);
    kept := b.queryParameters;
  }

  /** A rejected host leaves an already stored host in place. */
  method RejectedHostKeepsHost(good: string, bad: string)
    returns (r1: Outcome<Error>, r2: Outcome<Error>, kept: Option<string>)
    requires '/' !in good && ':' !in good
    requires '/' in bad || ':' in bad
    ensures r1 == Pass && r2.Fail? && kept == Some(good)
  {
    var b := new Builder();
    r1 := b.Host(good);
    r2 := b.Host(bad);
    kept := b.host;
  }
}
