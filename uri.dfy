/** The builder's state as a value, the checks its setters make, and `toString`'s
    assembly of the address: scheme `://` [user `@`] host [`:` port] [`/` path]
    [`?` query] [`#` fragment]. */
module Uri {
  import opened Wrappers
  import opened Errors
  import opened Text
  import opened Escaping
  import opened Paths

  /** `Builder.Scheme`. */
  datatype Scheme = HTTP | HTTPS {
    /** The enum constant's `name()`. */
    function Name(): string {
      match this
      case HTTP => "HTTP"
      case HTTPS => "HTTPS"
    }
  }

  /** Java's `long`, the type of the port. */
  type Long = n: int | -0x8000_0000_0000_0000 <= n < 0x8000_0000_0000_0000

  /** A query-parameter value: a string, a boxed integer or a boxed boolean. */
  datatype Value = Str(s: string) | Int(n: int) | Bool(b: bool)

  /** The value's `toString()`, which string concatenation uses: a string as it
      is, an integer as decimal text that reads back to it, a boolean as `true`
      or `false`. */
  function ValueText(v: Value): (r: string)
    ensures v.Str? ==> r == v.s
    ensures v.Int? ==> ParseDecimal(r) == v.n
    ensures v.Bool? ==> (r == "true" || r == "false") && (r == "true" <==> v.b)
  {
    match v
    case Str(s) => s
    case Int(n) => DecimalRoundTrip(n); Decimal(n)
    case Bool(b) => if b then "true" else "false"
  }

  /** The fields of a builder; `None` is an empty `Optional` or an unset (null) host. */
  datatype UriState = UriState(
    scheme: Option<Scheme>,
    user: Option<string>,
    host: Option<string>,
    port: Option<Long>,
    path: Option<seq<string>>,
    params: map<string, Value>,
    fragment: Option<string>)

  /** A freshly constructed builder. */
  const Empty: UriState := UriState(None, None, None, None, None, map[], None)

  // ---------------------------------------------------------------- validation

  /** The checks of `host`: slash first, then colon. */
  function HostCheck(host: string): (r: Outcome<Error>)
    ensures r.Pass? <==> '/' !in host && ':' !in host
    ensures '/' in host ==> r == Fail(SlashInHostname)
    ensures '/' !in host && ':' in host ==> r == Fail(ColonInHostname)
  {
    AndThen(Reject('/', SlashInHostname, host), Reject(':', ColonInHostname, host))
  }

  /** The check of `user`. */
  function UserCheck(user: string): (r: Outcome<Error>)
    ensures r.Pass? <==> '@' !in user
    ensures r.Fail? ==> r.error == AtInUserName
  {
    Reject('@', AtInUserName, user)
  }

  /** What the setters guarantee of every stored component: a host without `/`
      and `:`, a user without `@`, path segments without `/`, `#` and `?`. */
  predicate Valid(st: UriState) {
    (st.host.Some? ==> HostCheck(st.host.value).Pass?) &&
    (st.user.Some? ==> UserCheck(st.user.value).Pass?) &&
    (st.path.Some? ==> PathCheck(st.path.value).Pass?)
  }

  // ---------------------------------------------------------------- query order

  /** `order` is an iteration order of `params`: every key exactly once. `HashMap`
      leaves the actual order undefined, so serialisation takes it as a parameter. */
  ghost predicate IsIterationOrder(order: seq<string>, params: map<string, Value>) {
    (forall i, j :: 0 <= i < j < |order| ==> order[i] != order[j]) &&
    (forall k :: k in params <==> k in order)
  }

  /** Some listing of the keys of `keys`. */
  ghost function SomeOrder(keys: set<string>): seq<string>
    decreases |keys|
  {
    if keys == {} then []
    else
      var k :| k in keys;
      [k] + SomeOrder(keys - {k})
  }

  lemma {:induction false} SomeOrderLists(keys: set<string>)
    ensures forall k :: k in SomeOrder(keys) <==> k in keys
    ensures forall i, j :: 0 <= i < j < |SomeOrder(keys)| ==> SomeOrder(keys)[i] != SomeOrder(keys)[j]
    decreases |keys|
  {
    if keys != {} {
      var o := SomeOrder(keys);
      var k := o[0];
      assert o == [k] + SomeOrder(keys - {k});
      SomeOrderLists(keys - {k});
    }
  }

  /** Every parameter map has an iteration order, so serialisation is defined
      for every state that has a host. */
  lemma IterationOrderExists(params: map<string, Value>)
    ensures IsIterationOrder(SomeOrder(params.Keys), params)
  {
    SomeOrderLists(params.Keys);
  }

  lemma {:induction false} DistinctCardinality(order: seq<string>)
    requires forall i, j :: 0 <= i < j < |order| ==> order[i] != order[j]
    ensures |set k | k in order| == |order|
  {
    if order != [] {
      var rest := order[1..];
      DistinctCardinality(rest);
      assert (set k | k in order) == {order[0]} + (set k | k in rest);
      forall j | 0 <= j < |rest| ensures rest[j] != order[0] {
        assert rest[j] == order[j + 1];
      }
    }
  }

  /** An iteration order lists exactly as many keys as the map holds. */
  lemma IterationOrderLength(order: seq<string>, params: map<string, Value>)
    requires IsIterationOrder(order, params)
    ensures |order| == |params|
  {
    DistinctCardinality(order);
    assert (set k | k in order) == params.Keys;
  }

  lemma {:induction false} DistinctMultiplicity(order: seq<string>, k: string)
    requires forall i, j :: 0 <= i < j < |order| ==> order[i] != order[j]
    ensures multiset(order)[k] == if k in order then 1 else 0
  {
    if order != [] {
      var rest := order[1..];
      assert order == [order[0]] + rest;
      DistinctMultiplicity(rest, k);
      forall j | 0 <= j < |rest| ensures rest[j] != order[0] {
        assert rest[j] == order[j + 1];
      }
    }
  }

  /** Two iteration orders of one map are permutations of each other. */
  lemma IterationOrdersArePermutations(o1: seq<string>, o2: seq<string>, params: map<string, Value>)
    requires IsIterationOrder(o1, params) && IsIterationOrder(o2, params)
    ensures multiset(o1) == multiset(o2)
  {
    forall k ensures multiset(o1)[k] == multiset(o2)[k] {
      DistinctMultiplicity(o1, k);
      DistinctMultiplicity(o2, k);
    }
  }

  // ---------------------------------------------------------------- serialisation

  /** The scheme token: the name lower-cased, `https` when none was set. */
  function SchemeToken(scheme: Option<Scheme>): (r: string)
    ensures scheme == Some(HTTP) ==> r == "http"
    ensures scheme != Some(HTTP) ==> r == "https"
  {
    assert LowerAscii("HTTPS") == "https";
    assert LowerAscii("HTTP") == "http";
    LowerAscii(scheme.GetOr(HTTPS).Name())
  }

  /** The user section: empty without a user, else the user and a closing `@`. */
  function UserPart(user: Option<string>): (r: string)
    ensures user.None? <==> r == []
    ensures user.Some? ==> r[|r| - 1] == '@' && r[..|r| - 1] == user.value
  {
    match user
    case Some(u) =>
      assert (u + "@")[..|u|] == u;
      u + "@"
    case None => ""
  }

  /** The port section: empty without a port, else `:` and text that reads back to the port. */
  function PortPart(port: Option<Long>): (r: string)
    ensures port.None? <==> r == []
    ensures port.Some? ==> r[0] == ':' && ParseDecimal(r[1..]) == port.value
  {
    match port
    case Some(p) =>
      DecimalRoundTrip(p);
      assert (":" + Decimal(p))[1..] == Decimal(p);
      ":" + Decimal(p)
    case None => ""
  }

  /** The path section: empty without a path, else `/` and the joined segments,
      which start with the first segment. */
  function PathPart(path: Option<seq<string>>): (r: string)
    ensures path.None? <==> r == []
    ensures path.Some? ==> r[0] == '/' && r[1..] == JoinPath(path.value)
    ensures path.Some? && |path.value| > 0 ==> path.value[0] <= r[1..]
  {
    match path
    case Some(xs) =>
      assert ("/" + JoinPath(xs))[1..] == JoinPath(xs);
      "/" + JoinPath(xs)
    case None => ""
  }

  /** One query pair: the escaped key, `=`, and the value's text unescaped. The
      escaped key holds no `=`, so the pair's first `=` ends it. */
  function Pair(key: string, value: Value): (r: string)
    ensures '=' !in Escape(key) && Escape(key) + "=" <= r
    ensures r[|Escape(key)| + 1..] == ValueText(value)
  {
    EscapedKeyHasNoDelimiters(key);
    Escape(key) + "=" + ValueText(value)
  }

  /** The pairs of `params`, in the iteration order `order`. */
  function Pairs(params: map<string, Value>, order: seq<string>): (r: seq<string>)
    requires forall k :: k in order ==> k in params
    ensures |r| == |order|
    ensures forall i :: 0 <= i < |order| ==> r[i] == Pair(order[i], params[order[i]])
  {
    if order == [] then [] else [Pair(order[0], params[order[0]])] + Pairs(params, order[1..])
  }

  /** The query section: nothing without parameters, else `?` and the pairs joined with `&`. */
  function QueryPart(params: map<string, Value>, order: seq<string>): (r: string)
    requires forall k :: k in order ==> k in params
    ensures r == [] <==> |params| == 0
    ensures |params| > 0 ==> r[0] == '?'
  {
    if |params| <= 0 then "" else "?" + Join(Pairs(params, order), '&')
  }

  /** The fragment section: empty without a fragment, else `#` and the fragment verbatim. */
  function FragmentPart(fragment: Option<string>): (r: string)
    ensures fragment.None? <==> r == []
    ensures fragment.Some? ==> r[0] == '#' && r[1..] == fragment.value
  {
    match fragment
    case Some(f) =>
      assert ("#" + f)[1..] == f;
      "#" + f
    case None => ""
  }

  /** `toString`, with the map's iteration order as a parameter. */
  function Serialize(st: UriState, order: seq<string>): (r: Result<string, Error>)
    requires IsIterationOrder(order, st.params)
    ensures r.Failure? <==> st.host.None?
    ensures r.Failure? ==> r.error == MissingHost
  {
    match st.host
    case None => Failure(MissingHost)
    case Some(h) =>
      Success(SchemeToken(st.scheme) + "://" + UserPart(st.user) + h + PortPart(st.port) +
              PathPart(st.path) + QueryPart(st.params, order) + FragmentPart(st.fragment))
  }

  // ---------------------------------------------------------------- properties

  /** Every map entry yields exactly one pair of the query section, whatever the order. */
  lemma EachEntryOnce(params: map<string, Value>, order: seq<string>, k: string)
    requires IsIterationOrder(order, params)
    requires k in params
    ensures multiset(order)[k] == 1
    ensures exists i :: 0 <= i < |order| && order[i] == k && Pairs(params, order)[i] == Pair(k, params[k])
  {
    DistinctMultiplicity(order, k);
    var i :| 0 <= i < |order| && order[i] == k;
  }

  lemma {:induction false} PairsAppend(params: map<string, Value>, a: seq<string>, b: seq<string>)
    requires forall k :: k in a + b ==> k in params
    ensures Pairs(params, a + b) == Pairs(params, a) + Pairs(params, b)
  {
    if a != [] {
      assert (a + b)[1..] == a[1..] + b;
      PairsAppend(params, a[1..], b);
    } else {
      assert a + b == b;
    }
  }

  lemma MultisetMiddle(a: seq<string>, x: string, b: seq<string>)
    ensures multiset(a + ([x] + b)) == multiset{x} + multiset(a + b)
  {
    calc {
      multiset(a + ([x] + b));
      multiset(a) + multiset([x] + b);
      multiset(a) + (multiset{x} + multiset(b));
      multiset{x} + (multiset(a) + multiset(b));
      multiset{x} + multiset(a + b);
    }
  }

  /** Pairs of orders that are permutations of each other are permutations of each other. */
  lemma {:induction false} PairsPermute(params: map<string, Value>, o1: seq<string>, o2: seq<string>)
    requires forall k :: k in o1 ==> k in params
    requires forall k :: k in o2 ==> k in params
    requires multiset(o1) == multiset(o2)
    ensures multiset(Pairs(params, o1)) == multiset(Pairs(params, o2))
    decreases |o1|
  {
    if o1 == [] {
      assert |o2| == |multiset(o2)| == 0;
    } else {
      var x := o1[0];
      assert x in multiset(o2);
      var j :| 0 <= j < |o2| && o2[j] == x;
      var left, right := o2[..j], o2[j + 1..];
      var rest1, rest2 := o1[1..], left + right;
      assert o2 == left + ([x] + right);
      assert o1 == [x] + rest1;
      assert multiset(rest1) == multiset(o1) - multiset{x};
      assert multiset(rest2) == multiset(o2) - multiset{x};
      PairsAround(params, left, x, right);
      PairsPermute(params, rest1, rest2);
      assert Pairs(params, o1) == [Pair(x, params[x])] + Pairs(params, rest1);
    }
  }

  /** The pair of a key in the middle of a listing, taken out. */
  lemma PairsAround(params: map<string, Value>, left: seq<string>, x: string, right: seq<string>)
    requires forall k :: k in left + ([x] + right) ==> k in params
    ensures forall k :: k in left + right ==> k in params
    ensures multiset(Pairs(params, left + ([x] + right))) ==
      multiset{Pair(x, params[x])} + multiset(Pairs(params, left + right))
  {
    forall k | k in left + right ensures k in params {
      assert k in left || k in right;
      assert k in left + ([x] + right);
    }
    PairsAppend(params, left, [x] + right);
    PairsAppend(params, [x], right);
    PairsAppend(params, left, right);
    var p := Pair(x, params[x]);
    assert Pairs(params, [x]) == [p];
    MultisetMiddle(Pairs(params, left), p, Pairs(params, right));
  }

  /** The iteration order is the only thing left open: any two orders of the same
      map give the same pairs, merely rearranged. */
  lemma QueryOrderIrrelevant(params: map<string, Value>, o1: seq<string>, o2: seq<string>)
    requires IsIterationOrder(o1, params) && IsIterationOrder(o2, params)
    ensures multiset(Pairs(params, o1)) == multiset(Pairs(params, o2))
  {
    IterationOrdersArePermutations(o1, o2, params);
    PairsPermute(params, o1, o2);
  }

  /** Splitting the query section at `&` recovers the pairs when no value text
      holds `&`, and each pair's text before its first `=` is the escaped key. */
  lemma QuerySection(params: map<string, Value>, order: seq<string>)
    requires IsIterationOrder(order, params)
    ensures |params| > 0 && (forall k :: k in params ==> '&' !in ValueText(params[k])) ==>
      Split(QueryPart(params, order)[1..], '&') == Pairs(params, order)
    ensures forall i :: 0 <= i < |order| ==> Split(Pairs(params, order)[i], '=')[0] == Escape(order[i])
  {
    PairKeys(params, order);
    if |params| > 0 && (forall k :: k in params ==> '&' !in ValueText(params[k])) {
      QuerySplitsIntoPairs(params, order);
    }
  }

  /** The text of each pair before its first `=` is the escaped key. */
  lemma PairKeys(params: map<string, Value>, order: seq<string>)
    requires forall k :: k in order ==> k in params
    ensures forall i :: 0 <= i < |order| ==> Split(Pairs(params, order)[i], '=')[0] == Escape(order[i])
  {
    var pairs := Pairs(params, order);
    forall i | 0 <= i < |order|
      ensures Split(pairs[i], '=')[0] == Escape(order[i])
    {
      EscapedKeyHasNoDelimiters(order[i]);
      SplitAtFirst(Escape(order[i]), ValueText(params[order[i]]), '=');
    }
  }

  /** Without `&` in any value text, the query section splits at `&` into the pairs. */
  lemma QuerySplitsIntoPairs(params: map<string, Value>, order: seq<string>)
    requires IsIterationOrder(order, params)
    requires |params| > 0
    requires forall k :: k in params ==> '&' !in ValueText(params[k])
    ensures Split(QueryPart(params, order)[1..], '&') == Pairs(params, order)
  {
    IterationOrderLength(order, params);
    var pairs := Pairs(params, order);
    forall i | 0 <= i < |pairs|
      ensures '&' !in pairs[i]
    {
      EscapedKeyHasNoDelimiters(order[i]);
      assert pairs[i] == Escape(order[i]) + "=" + ValueText(params[order[i]]);
    }
    assert QueryPart(params, order)[1..] == Join(pairs, '&');
    SplitJoin(pairs, '&');
  }

  /** Query values are written verbatim: `x` set to `a&b` gives the pair `x=a&b`. */
  lemma ValueNotEscaped()
    ensures Pair("x", Str("a&b")) == "x=a&b"
  {
    EscapeIdentity("x");
  }

  /** The eight pieces of the address (token, `://` and the six optional or
      required parts) regrouped around the slot the lemmas below fill. */
  lemma Regroup(a: string, b: string, c: string, d: string, e: string, f: string, g: string, h: string)
    ensures a + b + c + d + e + f + g + h == a + (b + c + d + e + f + g + h)
    ensures a + b + c + d + e + f + g + h == (a + b) + c + (d + e + f + g + h)
    ensures a + b + c + d + e + f + g + h == (a + b + c) + d + (e + f + g + h)
    ensures a + b + c + d + e + f + g + h == (a + b + c + d) + e + (f + g + h)
    ensures a + b + c + d + e + f + g + h == (a + b + c + d + e) + f + (g + h)
    ensures a + b + c + d + e + f + g + h == (a + b + c + d + e + f) + g + h
  {
  }

  /** Filling an empty slot between `pre` and `post` with `x`. */
  lemma FillSlot(pre: string, x: string, post: string)
    ensures |pre| <= |pre + "" + post|
    ensures pre + x + post == (pre + "" + post)[..|pre|] + x + (pre + "" + post)[|pre|..]
  {
    assert pre + "" + post == pre + post;
  }

  /** Choosing a scheme changes only the leading token. */
  lemma SchemeChangesOnlyToken(st: UriState, order: seq<string>, s: Scheme)
    requires IsIterationOrder(order, st.params)
    requires st.host.Some?
    ensures Serialize(st.(scheme := Some(s)), order).value ==
      LowerAscii(s.Name()) + Serialize(st, order).value[|SchemeToken(st.scheme)|..]
  {
    var u, h, p, pa, q, f := UserPart(st.user), st.host.value, PortPart(st.port),
      PathPart(st.path), QueryPart(st.params, order), FragmentPart(st.fragment);
    Regroup(SchemeToken(st.scheme), "://", u, h, p, pa, q, f);
    Regroup(LowerAscii(s.Name()), "://", u, h, p, pa, q, f);
  }

  /** Setting a user inserts it and `@` right after `://`. */
  lemma UserInsertedAfterScheme(st: UriState, order: seq<string>, u: string)
    requires IsIterationOrder(order, st.params)
    requires st.host.Some? && st.user.None?
    ensures var before := Serialize(st, order).value;
      var t := |SchemeToken(st.scheme)| + 3;
      t <= |before| &&
      Serialize(st.(user := Some(u)), order).value == before[..t] + (u + "@") + before[t..]
  {
    var a, h, p, pa, q, f := SchemeToken(st.scheme), st.host.value, PortPart(st.port),
      PathPart(st.path), QueryPart(st.params, order), FragmentPart(st.fragment);
    var st2 := st.(user := Some(u));
    assert Serialize(st, order).value == a + "://" + "" + h + p + pa + q + f;
    assert Serialize(st2, order).value == a + "://" + (u + "@") + h + p + pa + q + f;
    Regroup(a, "://", "", h, p, pa, q, f);
    Regroup(a, "://", u + "@", h, p, pa, q, f);
    FillSlot(a + "://", u + "@", h + p + pa + q + f);
  }

  /** What `Valid` buys: a stored path is read back from the text by splitting
      at `/`, because the setter let no segment holding `/` through. */
  lemma ValidPathReadsBack(st: UriState)
    requires Valid(st) && st.path.Some? && |st.path.value| > 0
    ensures Split(PathPart(st.path)[1..], '/') == st.path.value
  {
    JoinPathRoundTrip(st.path.value);
  }

  /** Setting a host, or replacing one, puts the new host exactly where the old
      one stood, right after the user section, and leaves the rest unchanged. */
  lemma HostReplaced(st: UriState, order: seq<string>, h2: string)
    requires IsIterationOrder(order, st.params)
    requires st.host.Some?
    ensures var before := Serialize(st, order).value;
      var t := |SchemeToken(st.scheme)| + 3 + |UserPart(st.user)|;
      t + |st.host.value| <= |before| &&
      before[t..t + |st.host.value|] == st.host.value &&
      Serialize(st.(host := Some(h2)), order).value == before[..t] + h2 + before[t + |st.host.value|..]
  {
    var a, u, h, p, pa, q, f := SchemeToken(st.scheme), UserPart(st.user), st.host.value,
      PortPart(st.port), PathPart(st.path), QueryPart(st.params, order), FragmentPart(st.fragment);
    var st2 := st.(host := Some(h2));
    Regroup(a, "://", u, h, p, pa, q, f);
    Regroup(a, "://", u, h2, p, pa, q, f);
    var pre, post := a + "://" + u, p + pa + q + f;
    assert Serialize(st, order).value == pre + h + post;
    assert Serialize(st2, order).value == pre + h2 + post;
    assert (pre + h + post)[..|pre|] == pre;
    assert (pre + h + post)[|pre|..|pre| + |h|] == h;
    assert (pre + h + post)[|pre| + |h|..] == post;
  }

  /** Setting a port inserts `:` and its decimal text right after the host. */
  lemma PortAfterHost(st: UriState, order: seq<string>, p: Long)
    requires IsIterationOrder(order, st.params)
    requires st.host.Some? && st.port.None?
    ensures var before := Serialize(st, order).value;
      var t := |SchemeToken(st.scheme)| + 3 + |UserPart(st.user)| + |st.host.value|;
      t <= |before| &&
      Serialize(st.(port := Some(p)), order).value == before[..t] + (":" + Decimal(p)) + before[t..]
  {
    var a, u, h, pa, q, f := SchemeToken(st.scheme), UserPart(st.user), st.host.value,
      PathPart(st.path), QueryPart(st.params, order), FragmentPart(st.fragment);
    var x := ":" + Decimal(p);
    var st2 := st.(port := Some(p));
    assert Serialize(st, order).value == a + "://" + u + h + "" + pa + q + f;
    assert Serialize(st2, order).value == a + "://" + u + h + x + pa + q + f;
    Regroup(a, "://", u, h, "", pa, q, f);
    Regroup(a, "://", u, h, x, pa, q, f);
    FillSlot(a + "://" + u + h, x, pa + q + f);
  }

  /** Setting a path inserts `/` and the joined segments right after the port
      section (right after the host when there is no port). */
  lemma PathAfterPort(st: UriState, order: seq<string>, xs: seq<string>)
    requires IsIterationOrder(order, st.params)
    requires st.host.Some? && st.path.None?
    ensures var before := Serialize(st, order).value;
      var t := |SchemeToken(st.scheme)| + 3 + |UserPart(st.user)| + |st.host.value| + |PortPart(st.port)|;
      t <= |before| &&
      Serialize(st.(path := Some(xs)), order).value == before[..t] + ("/" + JoinPath(xs)) + before[t..]
  {
    var a, u, h, p, q, f := SchemeToken(st.scheme), UserPart(st.user), st.host.value,
      PortPart(st.port), QueryPart(st.params, order), FragmentPart(st.fragment);
    var x := "/" + JoinPath(xs);
    var st2 := st.(path := Some(xs));
    assert Serialize(st, order).value == a + "://" + u + h + p + "" + q + f;
    assert Serialize(st2, order).value == a + "://" + u + h + p + x + q + f;
    Regroup(a, "://", u, h, p, "", q, f);
    Regroup(a, "://", u, h, p, x, q, f);
    FillSlot(a + "://" + u + h + p, x, q + f);
  }

  /** Parameters added to a builder that had none put `?` and the pairs right
      before the fragment section (at the very end when there is no fragment). */
  lemma QueryBeforeFragment(st: UriState, order: seq<string>, params: map<string, Value>, order2: seq<string>)
    requires IsIterationOrder(order, st.params) && IsIterationOrder(order2, params)
    requires st.host.Some? && st.params == map[]
    ensures var before := Serialize(st, order).value;
      var t := |before| - |FragmentPart(st.fragment)|;
      0 <= t <= |before| &&
      Serialize(st.(params := params), order2).value == before[..t] + QueryPart(params, order2) + before[t..]
  {
    var a, u, h, p, pa, f := SchemeToken(st.scheme), UserPart(st.user), st.host.value,
      PortPart(st.port), PathPart(st.path), FragmentPart(st.fragment);
    var x := QueryPart(params, order2);
    var st2 := st.(params := params);
    assert Serialize(st, order).value == a + "://" + u + h + p + pa + "" + f;
    assert Serialize(st2, order2).value == a + "://" + u + h + p + pa + x + f;
    Regroup(a, "://", u, h, p, pa, "", f);
    Regroup(a, "://", u, h, p, pa, x, f);
    FillSlot(a + "://" + u + h + p + pa, x, f);
  }

  /** Setting a fragment appends `#` and the fragment, verbatim, at the very end. */
  lemma FragmentAtEnd(st: UriState, order: seq<string>, f: string)
    requires IsIterationOrder(order, st.params)
    requires st.host.Some? && st.fragment.None?
    ensures Serialize(st.(fragment := Some(f)), order).value == Serialize(st, order).value + "#" + f
  {
    var a, u, h, p, pa, q := SchemeToken(st.scheme), UserPart(st.user), st.host.value,
      PortPart(st.port), PathPart(st.path), QueryPart(st.params, order);
    var x := "#" + f;
    var st2 := st.(fragment := Some(f));
    var pre := a + "://" + u + h + p + pa + q;
    assert Serialize(st, order).value == pre + "";
    assert Serialize(st2, order).value == pre + x;
    assert pre + "" == pre;
    Associative(pre, "#", f);
  }
}
