/** Path segments: `checkPath`, which rejects a segment holding `/`, `#` or `?`,
    and `createPath`, which joins valid segments with `/` and no leading slash. */
module Paths {
  import opened Wrappers
  import opened Errors
  import opened Text

  /** A segment that `checkPath` lets through. */
  predicate ValidSegment(segment: string) {
    '/' !in segment && '#' !in segment && '?' !in segment
  }

  /** The three `reject` calls for one segment, slash first, then hash, then
      question mark. */
  function SegmentCheck(segment: string): (r: Outcome<Error>)
    ensures r.Pass? <==> ValidSegment(segment)
    ensures '/' in segment ==> r == Fail(SlashInPathComponent)
    ensures '/' !in segment && '#' in segment ==> r == Fail(HashInPathComponent)
    ensures '/' !in segment && '#' !in segment && '?' in segment ==> r == Fail(QuestionMarkInPathComponent)
  {
    AndThen(Reject('/', SlashInPathComponent, segment),
      AndThen(Reject('#', HashInPathComponent, segment),
        Reject('?', QuestionMarkInPathComponent, segment)))
  }

  /** What `checkPath` throws, if anything, for the whole sequence of segments. */
  function PathCheck(segments: seq<string>): (r: Outcome<Error>)
    ensures r.Pass? <==> forall i :: 0 <= i < |segments| ==> ValidSegment(segments[i])
  {
    if segments == [] then Pass
    else if SegmentCheck(segments[0]).Fail? then SegmentCheck(segments[0])
    else PathCheck(segments[1..])
  }

  /** The error is the one of the first offending segment. */
  lemma {:induction false} PathCheckFirstOffender(segments: seq<string>, k: nat)
    requires k < |segments|
    requires forall j :: 0 <= j < k ==> ValidSegment(segments[j])
    requires !ValidSegment(segments[k])
    ensures PathCheck(segments) == SegmentCheck(segments[k])
  {
    if k > 0 {
      assert ValidSegment(segments[0]);
      PathCheckFirstOffender(segments[1..], k - 1);
    }
  }

  /** `String.join("/", components)`: no leading or trailing separator. */
  function JoinPath(components: seq<string>): (r: string)
    ensures |components| > 0 ==> components[0] <= r
    ensures |components| > 0 && components[0] != [] && ValidSegment(components[0]) ==> r[0] != '/'
  {
    Join(components, '/')
  }

  /** Joined valid segments split back into the same segments at `/`. */
  lemma JoinPathRoundTrip(components: seq<string>)
    requires |components| > 0
    requires forall i :: 0 <= i < |components| ==> ValidSegment(components[i])
    ensures Split(JoinPath(components), '/') == components
  {
    SplitJoin(components, '/');
  }

  /** `checkPath`: the loop over the segments, throwing on the first offending one. */
  method CheckPath(components: seq<string>) returns (r: Outcome<Error>)
    ensures r == PathCheck(components)
  {
    for i := 0 to |components|
      invariant forall j :: 0 <= j < i ==> ValidSegment(components[j])
    {
      var component := components[i];
      if '/' in component {
        PathCheckFirstOffender(components, i);
        return Fail(SlashInPathComponent);
      }
      if '#' in component {
        PathCheckFirstOffender(components, i);
        return Fail(HashInPathComponent);
      }
      if '?' in component {
        PathCheckFirstOffender(components, i);
        return Fail(QuestionMarkInPathComponent);
      }
    }
    r := Pass;
  }

  /** `createPath`: validates the segments, then joins them with `/`. */
  method CreatePath(components: seq<string>) returns (r: Result<string, Error>)
    ensures r.Success? <==> forall i :: 0 <= i < |components| ==> ValidSegment(components[i])
    ensures r.Success? ==> r.value == JoinPath(components)
    ensures r.Failure? ==> Fail(r.error) == PathCheck(components)
  {
    var checked := CheckPath(components);
    if checked.Fail? {
      return Failure(checked.error);
    }
    r := Success(JoinPath(components));
  }

  /** The worked example: four segments joined without a leading slash. */
  lemma CreatePathExample()
    ensures JoinPath(["123", "abc", "42", "foo"]) == "123/abc/42/foo"
  {
  }

  /** The test input `abc/def?ghi#123` holds all three characters; the slash decides. */
  lemma MixedSegmentGivesSlash()
    ensures PathCheck(["api", "v2", "abc/def?ghi#123"]) == Fail(SlashInPathComponent)
  {
    var segments := ["api", "v2", "abc/def?ghi#123"];
    assert segments[2][3] == '/';
    PathCheckFirstOffender(segments, 2);
  }
}
