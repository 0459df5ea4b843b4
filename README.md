# qudini-uri `Builder`, modelled in Dafny

The Java class `com.qudini.uri.Builder` assembles URI strings. A builder holds
optional components: scheme, user, host, port, path segments, query parameters and
fragment. The `host`, `user`, `path` and `param` setters validate their argument
before storing it and throw at once ("fail fast") when it holds a character forbidden
in that position, or, for `path` and `param`, when the value is already set; `port`,
`scheme` and `fragment` accept any argument.
`toString` joins the
components in a fixed order:

    scheme "://" [user "@"] host [":" port] ["/" segments joined by "/"] ["?" key=value pairs joined by "&"] ["#" fragment]

Query keys go through a fixed escape table of eighteen characters. Values,
path segments and the fragment are written verbatim. The static `createPath`
validates segments the same way and joins them with `/`, with no leading slash.
Pairs come out in `HashMap` iteration order, which the class leaves undefined.

The project is organised as follows:

- `wrappers.dfy` (`Wrappers`): `Option`, and `Outcome`/`Result`, which stand in for a call
  that returns normally or throws.
- `errors.dfy` (`Errors`): one `Error` variant per exception class, plus `MissingHost` for
  the `NullPointerException` that `requireNonNull(host)` raises. Also `reject`, and the
  "first check that throws wins" sequencing.
- `text.dfy` (`Text`): the library behaviour the class relies on:
  - `String.join`, with `Split` proved to undo it for parts without the separator;
  - `Long.toString`, with a parser as its proved inverse;
  - `toLowerCase` on the ASCII enum names.
- `escaping.dfy` (`Escaping`): the escape table and the escaper. The escaper is written
  twice: `Escape`, a function, is its specification, and `EscapeQueryStringComponent`
  is the character loop of the source, proved equal to `Escape`.
- `paths.dfy` (`Paths`): `checkPath`, a loop proved against the recursive `PathCheck`,
  and `createPath`.
- `uri.dfy` (`Uri`): the builder's fields as a value (`UriState`), the setters' checks,
  and `toString` as `Serialize`.
  - `Serialize` takes the map's iteration order as an explicit parameter. Any
    duplicate-free listing of the keys is admissible, and every property is proved
    for all of them.
  - Lemmas relate the output to the state: the effect on the text of choosing a scheme,
    of setting or replacing the host, and of setting a user, port, path or fragment that
    was unset or parameters where there were none; the query section; and independence
    from the order up to rearrangement. Overwriting a user, port or fragment, and adding
    a parameter to a non-empty map, have no such lemma.
- `examples.dfy` (`UriExamples`): the addresses that the class documentation and the unit
  tests spell out, each derived from the model. The documentation's complex example has
  two parameters, so it is derived for both iteration orders.
- `builder.dfy` (`UriBuilder`): `class Builder`, with the seven fields, the constructor,
  the seven setters and `ToString`. Each setter is a method with `modifies this` that
  states its whole new state. The four setters that check their argument (`Host`,
  `User`, `Path`, `Param`) return the `Outcome` of their checks, and when one fails
  the state is unchanged; `Port`, `Scheme` and `Fragment` accept any argument and
  return nothing. Three client methods (`PathSetTwice`, `ParamSetTwice`,
  `RejectedHostKeepsHost`) show the set-once rules and a rejected setter.
- `builder_examples.dfy` (`BuilderExamples`): client methods that replay the call chains
  of the class documentation and of each unit test through the setters and `ToString`.

## Model

| member | source | states |
|---|---|---|
| Errors.Reject | src/main/java/com/qudini/uri/Builder.java:82-86 | fails exactly when the subject contains the rejected character, and then with the given error |
| Errors.AndThen | src/main/java/com/qudini/uri/Builder.java:89-90 | successive checks pass iff both pass; when the first throws, its error is the result |
| Escaping.EscapeCode | src/main/java/com/qudini/uri/Builder.java:36-58 | the table has an entry for exactly the eighteen characters `! # $ & ' ( ) * + , / : ; = ? @ [ ]` |
| Escaping.EscapeCodeIsHex | src/main/java/com/qudini/uri/Builder.java:40-57 | every table entry is the two upper-case hex digits of its own character's code |
| Escaping.EscapeChar | src/main/java/com/qudini/uri/Builder.java:164-168 | a table character becomes `%` and its hex code; every other character, non-ASCII included, is copied unchanged |
| Escaping.Escape | src/main/java/com/qudini/uri/Builder.java:161-171 | the escaped key grows by exactly two characters per table character (each becomes three) and keeps every other character |
| Escaping.EscapeCharAvoidsTable | src/main/java/com/qudini/uri/Builder.java:164-168 | the text written for one character never holds a table character |
| Escaping.EscapeAvoidsTable | src/main/java/com/qudini/uri/Builder.java:161-171 | an escaped key never holds a table character |
| Escaping.EscapeAppend | src/main/java/com/qudini/uri/Builder.java:163-169 | escaping works character by character, so it distributes over concatenation |
| Escaping.EscapeSnoc | src/main/java/com/qudini/uri/Builder.java:163-169 | escaping one more character appends exactly that character's escape |
| Escaping.EscapeIdentity | src/main/java/com/qudini/uri/Builder.java:167-168 | text without table characters is returned unchanged |
| Escaping.EscapeIdempotent | src/main/java/com/qudini/uri/Builder.java:161-171 | escaping an escaped key changes nothing |
| Escaping.EscapedKeyHasNoDelimiters | src/main/java/com/qudini/uri/Builder.java:151-155 | an escaped key cannot hold `&`, `=`, `#` or `?`, so it cannot break the query section |
| Escaping.EscapeNotInjective | src/main/java/com/qudini/uri/Builder.java:36-58 | `%` is not in the table, so `!` and `%21` escape alike: escaping has no inverse |
| Escaping.EscapeQueryStringComponent | src/main/java/com/qudini/uri/Builder.java:161-171 | the character loop appending to a builder yields exactly `Escape(component)` |
| Paths.SegmentCheck | src/main/java/com/qudini/uri/Builder.java:71-73 | a segment passes iff it holds none of `/`, `#`, `?`; the slash is checked first, then the hash, then the question mark |
| Paths.PathCheck | src/main/java/com/qudini/uri/Builder.java:69-75 | the segments pass iff every segment is valid |
| Paths.PathCheckFirstOffender | src/main/java/com/qudini/uri/Builder.java:70-74 | the error thrown is the one of the first invalid segment |
| Paths.CheckPath | src/main/java/com/qudini/uri/Builder.java:69-75 | the loop over the segments, returning at the first offending one, agrees with `PathCheck` |
| Paths.CreatePath | src/main/java/com/qudini/uri/Builder.java:77-80 | succeeds iff every segment is valid, then returns the segments joined with `/`; otherwise fails with the first offender's error |
| Paths.JoinPath | src/main/java/com/qudini/uri/Builder.java:79 | the joined text starts with the first segment; when that segment is a valid non-empty one, the text does not start with `/` |
| Paths.JoinPathRoundTrip | src/main/java/com/qudini/uri/Builder.java:79 | splitting the joined valid segments at `/` gives back exactly the segments |
| Paths.CreatePathExample | src/test/java/com/qudini/uri/BuilderTest.java:72-75 | `123`, `abc`, `42`, `foo` join to `123/abc/42/foo`, without the leading slash the test expects |
| Paths.MixedSegmentGivesSlash | src/test/java/com/qudini/uri/BuilderTest.java:58-70 | a path with segment `abc/def?ghi#123` is rejected with the slash error |
| Text.SplitJoin | src/main/java/com/qudini/uri/Builder.java:155 | joining pieces that do not hold the separator, then splitting, returns the pieces |
| Text.Join | src/main/java/com/qudini/uri/Builder.java:155 | the joined text starts with the first part, and with two or more parts the separator follows it immediately |
| Text.DecimalRoundTrip | src/main/java/com/qudini/uri/Builder.java:146 | the decimal text of a port or integer value reads back as the same number and is made of digits after an optional `-` |
| Text.Decimal | src/main/java/com/qudini/uri/Builder.java:146 | the decimal text is never empty and starts with `-` exactly for negative numbers |
| Text.Digits | src/main/java/com/qudini/uri/Builder.java:146 | the digits of a natural number: never empty, all decimal digits, no leading zero |
| Text.LowerAscii | src/main/java/com/qudini/uri/Builder.java:143 | lower-casing keeps the length and lowers exactly the upper-case ASCII letters |
| Uri.HostCheck | src/main/java/com/qudini/uri/Builder.java:88-94 | a host is accepted iff it holds neither `/` nor `:`; `/` is checked first |
| Uri.UserCheck | src/main/java/com/qudini/uri/Builder.java:127-132 | a user is accepted iff it holds no `@` |
| Uri.Valid | src/main/java/com/qudini/uri/Builder.java:88-137 | the invariant the setters keep: a stored host has no `/` or `:`, a stored user no `@`, stored segments no `/`, `#` or `?` |
| Uri.IterationOrderExists | src/main/java/com/qudini/uri/Builder.java:148-155 | every parameter map has a listing of its keys, each exactly once, so `toString` is defined whenever there is a host |
| Uri.IterationOrderLength | src/main/java/com/qudini/uri/Builder.java:148-155 | an iteration order lists as many keys as the map has entries |
| Uri.IterationOrdersArePermutations | src/main/java/com/qudini/uri/Builder.java:96-98 | any two iteration orders of one map are permutations of each other |
| Uri.ValueText | src/main/java/com/qudini/uri/Builder.java:153 | a string value is written as it is, an integer as decimal text that reads back to the integer, a boolean as `true` or `false` according to its value |
| Uri.Pair | src/main/java/com/qudini/uri/Builder.java:151-153 | the pair starts with the escaped key and `=`, the key holds no `=`, and the rest is the value text |
| Uri.Pairs | src/main/java/com/qudini/uri/Builder.java:148-155 | one pair per listed key, in listing order, each being the escaped key, `=` and the value's text |
| Uri.QueryPart | src/main/java/com/qudini/uri/Builder.java:148-156 | the query section is empty exactly when the map is, and otherwise starts with `?` |
| Uri.EachEntryOnce | src/main/java/com/qudini/uri/Builder.java:148-155 | every map entry occurs exactly once in the listing and gives its own pair |
| Uri.PairsPermute | src/main/java/com/qudini/uri/Builder.java:148-155 | permuting the listing only permutes the pairs |
| Uri.QueryOrderIrrelevant | src/main/java/com/qudini/uri/Builder.java:96-98 | any two admissible orders give the same pairs, merely rearranged |
| Uri.QuerySection | src/main/java/com/qudini/uri/Builder.java:148-156 | split at `&` after the `?`, the query section gives back the pairs when no value holds `&`; in each pair the text before the first `=` is its escaped key |
| Uri.PairKeys | src/main/java/com/qudini/uri/Builder.java:151-153 | in each pair the text before the first `=` is the escaped key |
| Uri.QuerySplitsIntoPairs | src/main/java/com/qudini/uri/Builder.java:148-155 | without `&` in the values, the text after `?` splits at `&` into exactly the pairs |
| Uri.ValueNotEscaped | src/main/java/com/qudini/uri/Builder.java:151-153 | values are written verbatim: key `x` with value `a&b` gives `x=a&b` |
| Uri.Serialize | src/main/java/com/qudini/uri/Builder.java:139-158 | fails exactly when no host is set, and then with the missing-host error |
| Uri.SchemeToken | src/main/java/com/qudini/uri/Builder.java:143 | the token is `http` for the HTTP scheme and `https` otherwise, including when no scheme was set |
| Uri.UserPart | src/main/java/com/qudini/uri/Builder.java:144 | empty exactly when no user is set; otherwise the user followed by a closing `@` |
| Uri.PortPart | src/main/java/com/qudini/uri/Builder.java:146 | empty exactly when no port is set; otherwise `:` and text that reads back to the port |
| Uri.PathPart | src/main/java/com/qudini/uri/Builder.java:147 | empty exactly when no path is set; otherwise `/` followed by exactly the segments joined with `/`, which begin with the first segment |
| Uri.FragmentPart | src/main/java/com/qudini/uri/Builder.java:157 | empty exactly when no fragment is set; otherwise `#` and the fragment verbatim |
| Uri.SchemeChangesOnlyToken | src/main/java/com/qudini/uri/Builder.java:143 | choosing a scheme replaces the leading token and leaves the rest of the text as it was |
| Uri.UserInsertedAfterScheme | src/main/java/com/qudini/uri/Builder.java:144 | setting a user inserts it, followed by `@`, right after `://`, leaving the rest unchanged |
| Uri.ValidPathReadsBack | src/main/java/com/qudini/uri/Builder.java:107-115 | for a state the setters can produce, splitting the path section after its `/` at `/` gives back exactly the stored segments |
| Uri.HostReplaced | src/main/java/com/qudini/uri/Builder.java:145 | setting or replacing the host puts the new host exactly where the old one stood, right after the user section, leaving the rest unchanged |
| Uri.PortAfterHost | src/main/java/com/qudini/uri/Builder.java:146 | setting a port inserts `:` and its decimal text right after the host, leaving the rest unchanged |
| Uri.PathAfterPort | src/main/java/com/qudini/uri/Builder.java:147 | setting a path inserts `/` and the joined segments right after the port section, leaving the rest unchanged |
| Uri.QueryBeforeFragment | src/main/java/com/qudini/uri/Builder.java:148-157 | parameters added to a builder without any put `?` and the pairs right before the fragment section, leaving the rest unchanged |
| Uri.FragmentAtEnd | src/main/java/com/qudini/uri/Builder.java:157 | setting a fragment appends `#` and the fragment, verbatim, at the very end |
| UriExamples.SimpleExample | src/main/java/com/qudini/uri/Builder.java:11-16 | the documentation's simple example: host `google.com` alone gives `https://google.com` |
| UriExamples.JustHost | src/test/java/com/qudini/uri/BuilderTest.java:14-17 | host `qudini.com` alone gives `https://qudini.com` |
| UriExamples.UserAndHost | src/test/java/com/qudini/uri/BuilderTest.java:19-22 | with user `qudini` it gives `https://qudini@qudini.com` |
| UriExamples.HostAndPort | src/test/java/com/qudini/uri/BuilderTest.java:24-27 | with port 80 it gives `https://qudini.com:80` |
| UriExamples.SchemeAndHost | src/test/java/com/qudini/uri/BuilderTest.java:29-36 | with the HTTP scheme it gives `http://qudini.com` |
| UriExamples.HostPortAndPath | src/test/java/com/qudini/uri/BuilderTest.java:38-42 | with port 80 and path `api`, `v2`, `resource` it gives `https://qudini.com:80/api/v2/resource` |
| UriExamples.TwoParamsQuery | src/test/java/com/qudini/uri/BuilderTest.java:44-56 | both listings of the two keys are admissible orders, and each gives its own query section |
| UriExamples.HostPathAndParameters | src/test/java/com/qudini/uri/BuilderTest.java:44-56 | the test's expected text is what one of the two admissible orders gives; the other order gives the pairs the other way round |
| UriExamples.EscapedKeyExample | src/main/java/com/qudini/uri/Builder.java:27-31 | the documented key `queu&#eId` escapes to `queu%26%23eId` |
| UriExamples.PairEscapedKey | src/main/java/com/qudini/uri/Builder.java:27 | the documented parameter `queu&#eId` set to `1` gives the pair `queu%26%23eId=1` |
| UriExamples.ComplexExampleSerialized | src/main/java/com/qudini/uri/Builder.java:18-31 | the documented state serialises to the documented text when `activate` is listed first, and to the same text with the two pairs swapped in the other order |
| UriBuilder.Builder.Valid | src/main/java/com/qudini/uri/Builder.java:88-137 | the object invariant: the fields, taken as a state, satisfy `Uri.Valid`; the constructor establishes it and every setter keeps it |
| UriBuilder.Builder.constructor | src/main/java/com/qudini/uri/Builder.java:61-67 | a new builder has no components and an empty parameter map |
| UriBuilder.Builder.Host | src/main/java/com/qudini/uri/Builder.java:88-94 | returns the host checks' outcome; on success only the host changes, replacing any earlier host; on failure nothing changes |
| UriBuilder.Builder.Param | src/main/java/com/qudini/uri/Builder.java:99-105 | fails with `ParameterAlreadySet` iff the key is present, changing nothing; otherwise adds exactly that entry and nothing else changes |
| UriBuilder.Builder.Path | src/main/java/com/qudini/uri/Builder.java:107-115 | a present path fails with `PathAlreadySet` before any segment check; otherwise the segment checks decide; on success exactly the segments are stored, in order; on failure nothing changes |
| UriBuilder.Builder.Port | src/main/java/com/qudini/uri/Builder.java:117-120 | any port is accepted and overwrites only the port |
| UriBuilder.Builder.Scheme | src/main/java/com/qudini/uri/Builder.java:122-125 | any scheme is accepted and overwrites only the scheme |
| UriBuilder.Builder.User | src/main/java/com/qudini/uri/Builder.java:127-132 | returns the user check's outcome; on success only the user changes; on failure nothing changes |
| UriBuilder.Builder.Fragment | src/main/java/com/qudini/uri/Builder.java:134-137 | any fragment is accepted and overwrites only the fragment |
| UriBuilder.Builder.ToString | src/main/java/com/qudini/uri/Builder.java:139-158 | reads the fields only; fails iff no host is set; otherwise starts with scheme token, `://`, the user part and the host |
| UriBuilder.PathSetTwice | src/main/java/com/qudini/uri/Builder.java:107-115 | after a successful `path`, a second one throws `PathAlreadySet` and the first path stays |
| UriBuilder.ParamSetTwice | src/main/java/com/qudini/uri/Builder.java:99-105 | a second `param` with the same key throws and the first value stays |
| UriBuilder.RejectedHostKeepsHost | src/main/java/com/qudini/uri/Builder.java:88-94 | a rejected host leaves the host stored earlier in place |
| BuilderExamples.SimpleExampleChain | src/main/java/com/qudini/uri/Builder.java:11-16 | the documented simple chain, run through the setters and `toString`, gives `https://google.com` |
| BuilderExamples.ComplexExampleChain | src/main/java/com/qudini/uri/Builder.java:18-31 | the documented complex chain, in the documented order, passes every check; `toString` gives the documented text in one iteration order and the pairs swapped in the other |
| BuilderExamples.JustHostChain | src/test/java/com/qudini/uri/BuilderTest.java:14-17 | test `justHost` replayed through the setters: `https://qudini.com` |
| BuilderExamples.UserAndHostChain | src/test/java/com/qudini/uri/BuilderTest.java:19-22 | test `userAndHost` replayed: `https://qudini@qudini.com` |
| BuilderExamples.HostAndPortChain | src/test/java/com/qudini/uri/BuilderTest.java:24-27 | test `hostAndPort` replayed: `https://qudini.com:80` |
| BuilderExamples.SchemeAndHostChain | src/test/java/com/qudini/uri/BuilderTest.java:29-36 | test `schemeAndHost` replayed: `http://qudini.com` |
| BuilderExamples.HostPortAndPathChain | src/test/java/com/qudini/uri/BuilderTest.java:38-42 | test `hostPortAndPath` replayed: `https://qudini.com:80/api/v2/resource` |
| BuilderExamples.HostPathAndParametersChain | src/test/java/com/qudini/uri/BuilderTest.java:44-56 | test `hostPathAndParameters` replayed: the expected text in one iteration order, the pairs swapped in the other |
| BuilderExamples.FailingHostPathAndParametersChain | src/test/java/com/qudini/uri/BuilderTest.java:58-70 | test `failingHostPathAndParameters` replayed: `path` fails with the slash error and no path is stored |

## Left out

- Query-pair order. `HashMap` iteration order is undefined, so `Serialize` and
  `Builder.ToString` take the order as a parameter that must list every key exactly once.
  No concrete hash order is modelled. For the test that expects `?123=456&abc=def`, the model
  proves this is one of the two possible outputs, not the output. The same holds for the
  class documentation's complex example, whose text is derived for both orders.
- The test `createPath` (BuilderTest.java:74) expects `/123/abc/42/foo`. The code joins with
  `String.join` (Builder.java:79), which puts no separator in front. The model follows the
  code (`Paths.CreatePathExample`, `Paths.JoinPath`).
- Fluent chaining: each setter returns `this` in Java. In the model a checking setter
  returns the `Outcome` of its checks, a thrown exception becoming `Fail`, and the
  other setters return nothing.
- The exception class hierarchy and `RuntimeException` mechanics. Each class is one
  `Error` variant.
- `null` arguments to the setters and `createPath` (Java `NullPointerException`). A host
  that was never set is the one `null` that is modelled, as `MissingHost` from `toString`.
- Parameter values are arbitrary `Object`s in Java. The model has strings, integers and
  booleans, rendered as their `toString` text. Integer values are unbounded; the port is
  a 64-bit `long`.
- Characters: Java `char` is a UTF-16 code unit, a Dafny `char` a Unicode scalar value.
  The escape table is ASCII and everything else is copied unchanged, so the model does
  not represent surrogate pairs.
- `toLowerCase` is locale-sensitive in Java. The model lowers ASCII letters only, which
  covers the two enum names `HTTP` and `HTTPS`.
- `String.format`, `StringBuilder`, `Optional.map`/`orElse`, streams and
  `Collections.unmodifiableMap` are modelled by their effect: concatenation, options and
  a map that is never changed.
- UriBuilder.Builder.ToString: its contract states the failure case and the prefix up to
  the host. The full text is given by `Uri.Serialize` and the lemmas about it.
- UriBuilder.Builder.Path: Java stores `Arrays.asList(pathComponents)` (Builder.java:113),
  a list view backed by the caller's array, so a caller that writes to that array after
  `path` returns changes the stored segments without any check, and can break the
  invariant `Valid`. The model stores a copy of the segments, so `Valid` holds only under
  the assumption that the caller never writes to the array again. The aliasing is not
  modelled.
