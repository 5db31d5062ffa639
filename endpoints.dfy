/** `build_endpoint`: the VIPS URL is its segments joined by '/', in order, unescaped. */
module Endpoints {

  const Delimiter: char := '/'

  /** True when no segment contains the delimiter. */
  predicate SlashFree(segments: seq<string>) {
    forall i :: 0 <= i < |segments| ==> Delimiter !in segments[i]
  }

  /** `'/'.join(segments)`: empty for no segments, the one segment alone for one. */
  function BuildEndpoint(segments: seq<string>): (url: string)
  {
    if |segments| == 0 then ""
    else if |segments| == 1 then segments[0]
    else segments[0] + [Delimiter] + BuildEndpoint(segments[1..])
  }

  /** Index of the first delimiter in `s`. */
  function FirstDelimiter(s: string): (i: nat)
    requires Delimiter in s
    ensures i < |s| && s[i] == Delimiter && Delimiter !in s[..i]
  {
    if s[0] == Delimiter then 0
    else
      assert Delimiter in s[1..] by { var k :| 0 <= k < |s| && s[k] == Delimiter; assert s[1..][k - 1] == Delimiter; }
      var j := FirstDelimiter(s[1..]);
      assert s[..j + 1] == [s[0]] + s[1..][..j];
      j + 1
  }

  /** Python's `s.split('/')`: always at least one part, none containing the delimiter. */
  function Split(s: string): (parts: seq<string>)
    ensures |parts| >= 1
    ensures SlashFree(parts)
    decreases |s|
  {
    if Delimiter !in s then [s]
    else
      var i := FirstDelimiter(s);
      [s[..i]] + Split(s[i + 1..])
  }

  /** The left-to-right reading: each later segment is appended after a delimiter. */
  lemma {:induction false} BuildEndpointAppend(segments: seq<string>, last: string)
    requires |segments| >= 1
    ensures BuildEndpoint(segments + [last]) == BuildEndpoint(segments) + [Delimiter] + last
    decreases |segments|
  {
    if |segments| == 1 {
      assert segments + [last] == [segments[0], last];
      assert [segments[0], last][1..] == [last];
    } else {
      var rest := segments[1..];
      assert (segments + [last])[1..] == rest + [last];
      BuildEndpointAppend(rest, last);
    }
  }

  /** The first delimiter of `head/tail` is the one after a slash-free `head`. */
  lemma FirstDelimiterAfter(head: string, tail: string)
    requires Delimiter !in head
    ensures FirstDelimiter(head + [Delimiter] + tail) == |head|
  {
    var s := head + [Delimiter] + tail;
    assert s[|head|] == Delimiter;
    assert s[..|head|] == head;
  }

  /** Splitting an endpoint recovers its segments exactly when none holds a delimiter. */
  lemma {:induction false} SplitBuildEndpoint(segments: seq<string>)
    requires |segments| >= 1 && SlashFree(segments)
    ensures Split(BuildEndpoint(segments)) == segments
    decreases |segments|
  {
    if |segments| > 1 {
      var head, rest := segments[0], segments[1..];
      var tail := BuildEndpoint(rest);
      var url := head + [Delimiter] + tail;
      assert BuildEndpoint(segments) == url;
      assert Delimiter !in head;
      FirstDelimiterAfter(head, tail);
      assert url[..|head|] == head;
      assert url[|head| + 1..] == tail;
      assert SlashFree(rest);
      SplitBuildEndpoint(rest);
      assert Split(url) == [head] + Split(tail);
    }
  }

  /** Joining the parts of any string with the delimiter gives the string back. */
  lemma {:induction false} BuildEndpointSplit(s: string)
    ensures BuildEndpoint(Split(s)) == s
    decreases |s|
  {
    if Delimiter in s {
      var i := FirstDelimiter(s);
      var head, tail := s[..i], s[i + 1..];
      var parts := Split(tail);
      BuildEndpointSplit(tail);
      var all := [head] + parts;
      assert Split(s) == all;
      assert |all| > 1 && all[0] == head && all[1..] == parts;
      assert BuildEndpoint(all) == head + [Delimiter] + BuildEndpoint(parts);
      assert s == head + [Delimiter] + tail;
    }
  }

  /** Over slash-free segments, different segment lists give different endpoints. */
  lemma BuildEndpointInjective(a: seq<string>, b: seq<string>)
    requires |a| >= 1 && |b| >= 1 && SlashFree(a) && SlashFree(b)
    requires BuildEndpoint(a) == BuildEndpoint(b)
    ensures a == b
  {
    SplitBuildEndpoint(a);
    SplitBuildEndpoint(b);
  }

  // ----- joining a fixed number of segments -----

  lemma BuildEndpoint2(a: string, b: string)
    ensures BuildEndpoint([a, b]) == a + "/" + b
  {
    assert [a, b][1..] == [b];
  }

  lemma BuildEndpoint3(a: string, b: string, c: string)
    ensures BuildEndpoint([a, b, c]) == a + "/" + b + "/" + c
  {
    assert [a, b, c][1..] == [b, c];
    BuildEndpoint2(b, c);
  }

  lemma BuildEndpoint4(a: string, b: string, c: string, d: string)
    ensures BuildEndpoint([a, b, c, d]) == a + "/" + b + "/" + c + "/" + d
  {
    assert [a, b, c, d][1..] == [b, c, d];
    BuildEndpoint3(b, c, d);
  }

  lemma BuildEndpoint5(a: string, b: string, c: string, d: string, e: string)
    ensures BuildEndpoint([a, b, c, d, e]) == a + "/" + b + "/" + c + "/" + d + "/" + e
  {
    assert [a, b, c, d, e][1..] == [b, c, d, e];
    BuildEndpoint4(b, c, d, e);
  }

  lemma BuildEndpoint6(a: string, b: string, c: string, d: string, e: string, f: string)
    ensures BuildEndpoint([a, b, c, d, e, f]) == a + "/" + b + "/" + c + "/" + d + "/" + e + "/" + f
  {
    assert [a, b, c, d, e, f][1..] == [b, c, d, e, f];
    BuildEndpoint5(b, c, d, e, f);
  }

  lemma BuildEndpoint7(a: string, b: string, c: string, d: string, e: string, f: string, g: string)
    ensures BuildEndpoint([a, b, c, d, e, f, g]) == a + "/" + b + "/" + c + "/" + d + "/" + e + "/" + f + "/" + g
  {
    assert [a, b, c, d, e, f, g][1..] == [b, c, d, e, f, g];
    BuildEndpoint6(b, c, d, e, f, g);
  }

  // ----- the endpoint each caller builds -----

  /** vips_api.py:48 */
  function StatusEndpoint(root: string, prohibitionId: string, correlationId: string): (url: string)
    ensures url == root + "/" + prohibitionId + "/" + "status" + "/" + correlationId
  {
    BuildEndpoint4(root, prohibitionId, "status", correlationId);
    BuildEndpoint([root, prohibitionId, "status", correlationId])
  }

  /** vips_api.py:56 */
  function DisclosureEndpoint(root: string, documentId: string, correlationId: string): (url: string)
    ensures url == root + "/" + documentId + "/" + "disclosure" + "/" + correlationId
  {
    BuildEndpoint4(root, documentId, "disclosure", correlationId);
    BuildEndpoint([root, documentId, "disclosure", correlationId])
  }

  /** vips_api.py:61 */
  function PaymentEndpoint(root: string, prohibitionId: string, correlationId: string): (url: string)
    ensures url == root + "/" + prohibitionId + "/" + "payment" + "/" + "status" + "/" + correlationId
  {
    BuildEndpoint5(root, prohibitionId, "payment", "status", correlationId);
    BuildEndpoint([root, prohibitionId, "payment", "status", correlationId])
  }

  /** vips_api.py:66 and vips_api.py:91 (`application_update` builds the same endpoint) */
  function ApplicationEndpoint(root: string, guid: string, correlationId: string): (url: string)
    ensures url == root + "/" + guid + "/" + "application" + "/" + correlationId
  {
    BuildEndpoint4(root, guid, "application", correlationId);
    BuildEndpoint([root, guid, "application", correlationId])
  }

  /** vips_api.py:71 */
  function ApplicationCreateEndpoint(root: string, formType: string, prohibitionId: string, correlationId: string): (url: string)
    ensures url == root + "/" + formType + "/" + prohibitionId + "/" + "application" + "/" + correlationId
  {
    BuildEndpoint5(root, formType, prohibitionId, "application", correlationId);
    BuildEndpoint([root, formType, prohibitionId, "application", correlationId])
  }

  /** vips_api.py:96-103 */
  function ScheduleEndpoint(root: string, noticeTypeCode: string, reviewTypeCode: string, reviewDate: string, correlationId: string): (url: string)
    ensures url == root + "/" + noticeTypeCode + "/" + reviewTypeCode + "/" + reviewDate + "/" + "review" + "/" + "availableTimeSlot" + "/" + correlationId
  {
    BuildEndpoint7(root, noticeTypeCode, reviewTypeCode, reviewDate, "review", "availableTimeSlot", correlationId);
    BuildEndpoint([root, noticeTypeCode, reviewTypeCode, reviewDate, "review", "availableTimeSlot", correlationId])
  }

  /** vips_api.py:108 */
  function HealthEndpoint(root: string): (url: string)
    ensures url == root + "/" + "api" + "/" + "utility" + "/" + "ping"
  {
    BuildEndpoint4(root, "api", "utility", "ping");
    BuildEndpoint([root, "api", "utility", "ping"])
  }

  /** The status endpoint identifies its record: slash-free ids and correlation ids are recovered from it. */
  lemma StatusEndpointInjective(root: string, id1: string, cid1: string, id2: string, cid2: string)
    requires Delimiter !in id1 && Delimiter !in cid1 && Delimiter !in id2 && Delimiter !in cid2
    requires StatusEndpoint(root, id1, cid1) == StatusEndpoint(root, id2, cid2)
    ensures id1 == id2 && cid1 == cid2
  {
    var tail1, tail2 := [id1, "status", cid1], [id2, "status", cid2];
    assert SlashFree(tail1) && SlashFree(tail2);
    var n := |root| + 1;
    assert BuildEndpoint(tail1) == StatusEndpoint(root, id1, cid1)[n..];
    assert BuildEndpoint(tail2) == StatusEndpoint(root, id2, cid2)[n..];
    BuildEndpointInjective(tail1, tail2);
    assert tail1[0] == tail2[0] && tail1[2] == tail2[2];
  }
}
