/**
  The checksum gate of the batch job: the SHA-256 digest is read out of the
  feed's ".meta" resource and compared with the checksum of the last Task.
  Fetching the resource is not modelled; its decoded text is an input.
*/
module Checksum {
  import opened Wrappers

  /** The marker that precedes the digest in the meta resource. */
  const Marker := "sha256:"
  /** The digest is exactly this many word characters. */
  const DigestLength := 64

  /** A character matched by the regular expression class \w (ASCII part). */
  predicate IsWordChar(c: char) {
    'a' <= c <= 'z' || 'A' <= c <= 'Z' || '0' <= c <= '9' || c == '_'
  }

  /** `body` holds the marker at `i` followed by 64 word characters. */
  predicate DigestAt(body: string, i: nat) {
    && i + |Marker| + DigestLength <= |body|
    && body[i..i + |Marker|] == Marker
    && forall k :: i + |Marker| <= k < i + |Marker| + DigestLength ==> IsWordChar(body[k])
  }

  /**
    The last position below `n` where a digest starts. The leading `.*` of
    the pattern is greedy, so the match the regular expression engine finds
    first is the one whose marker starts last.
  */
  function LastDigestBefore(body: string, n: nat): (r: Option<nat>)
    requires n <= |body|
    ensures r.Some? ==> r.value < n && DigestAt(body, r.value)
    ensures r.Some? ==> forall k :: r.value < k < n ==> !DigestAt(body, k)
    ensures r.None? ==> forall k :: 0 <= k < n ==> !DigestAt(body, k)
    decreases n
  {
    if n == 0 then None
    else if DigestAt(body, n - 1) then Some(n - 1)
    else LastDigestBefore(body, n - 1)
  }

  /**
    The group captured by `.*sha256:(\w{64}).*` matched (DOTALL) against the
    whole body, or None when the pattern does not match.
  */
  function ExtractDigest(body: string): (r: Option<string>)
    ensures r.Some? <==> exists i: nat :: DigestAt(body, i)
    ensures r.Some? ==> |r.value| == DigestLength && forall c :: c in r.value ==> IsWordChar(c)
    ensures r.Some? ==> exists i: nat :: DigestAt(body, i) && r.value == body[i + |Marker|..i + |Marker| + DigestLength]
                                  && forall k: nat :: DigestAt(body, k) ==> k <= i
  {
    match LastDigestBefore(body, |body|)
    case None => None
    case Some(i) =>
      var d := body[i + |Marker|..i + |Marker| + DigestLength];
      assert forall c :: c in d ==> IsWordChar(c) by {
        forall c | c in d ensures IsWordChar(c) {
          var k :| 0 <= k < |d| && d[k] == c;
          assert body[i + |Marker| + k] == c;
        }
      }
      assert forall k: nat :: DigestAt(body, k) ==> k <= i by {
        forall k: nat | DigestAt(body, k) ensures k <= i {
          assert k < |body|;
        }
      }
      Some(d)
  }

  /** Why the gate could not decide. */
  datatype GateError =
    | NoDigest     // the pattern did not match: `matches.group(1)` fails on None
    | NoPriorTask  // no Task exists: the checksum lookup on the missing Task fails

  /**
    checksum_has_changed: `(true, digest)` when the fetched digest differs from
    the last Task's checksum, `(false, last checksum)` otherwise. `tasks` holds
    the recorded checksums in creation order.
  */
  function CheckChecksum(body: string, tasks: seq<string>): (r: Result<(bool, string), GateError>)
    ensures ExtractDigest(body).None? ==> r == Failure(NoDigest)
    ensures ExtractDigest(body).Some? && tasks == [] ==> r == Failure(NoPriorTask)
    ensures r.Success? <==> ExtractDigest(body).Some? && tasks != []
    ensures r.Success? ==> (r.value.0 <==> ExtractDigest(body).value != tasks[|tasks| - 1])
    ensures r.Success? && !r.value.0 ==> r.value.1 == tasks[|tasks| - 1]
    // Either way the returned checksum is the one just fetched.
    ensures r.Success? ==> r.value.1 == ExtractDigest(body).value
  {
    match ExtractDigest(body)
    case None => Failure(NoDigest)
    case Some(digest) =>
      if tasks == [] then Failure(NoPriorTask)
      else
        var last := tasks[|tasks| - 1];
        if digest != last then Success((true, digest)) else Success((false, last))
  }
}
