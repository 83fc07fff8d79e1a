/**
 * verifyRequestSignature of app.js, run by the JSON body parser on every
 * POST. The header `x-hub-signature` reads "sha1=<hex digest>"; the digest
 * the server expects is the HMAC-SHA1 of the raw body under the app secret,
 * which here is a parameter.
 */
module Signature {

  import opened Wrappers
  import opened Strings

  datatype SignatureCheck =
    | Unsigned  // no header: only logged, the request goes on
    | Accepted  // the digest matches: the request goes on
    | Rejected  // an Error is thrown and the body is refused

  /**
   * The header is split at every '='; the second field is compared with the
   * expected digest. A header without '=' has no second field (undefined in
   * the source), which never equals a digest.
   */
  function VerifyRequestSignature(header: Option<string>, expectedHash: string): (r: SignatureCheck)
    ensures r == Unsigned <==> header.None? || header.value == []
    ensures r == Accepted ==> '=' in header.value
    ensures r == Accepted ==> exists scheme: string :: scheme + "=" + expectedHash <= header.value
  {
    if header.None? || header.value == [] then Unsigned
    else
      var elements := Split(header.value, '=');
      if |elements| >= 2 && elements[1] == expectedHash then
        AcceptedShape(header.value, expectedHash);
        Accepted
      else
        Rejected
  }

  lemma AcceptedShape(s: string, hash: string)
    requires var parts := Split(s, '='); |parts| >= 2 && parts[1] == hash
    ensures '=' in s
    ensures exists scheme: string :: scheme + "=" + hash <= s
  {
    var parts := Split(s, '=');
    JoinSplit(s, '=');
    var rest := parts[2..];
    assert parts == [parts[0]] + ([hash] + rest);
    JoinCons(parts[0], [hash] + rest, '=');
    if rest == [] {
      assert Join([hash] + rest, '=') == hash;
    } else {
      JoinCons(hash, rest, '=');
    }
    assert s[|parts[0]|] == '=';
    assert (parts[0] + "=" + hash) <= s;
  }

  /** Joining a head to a non-empty tail puts one separator between them. */
  lemma JoinCons(head: string, tail: seq<string>, sep: char)
    requires |tail| >= 1
    ensures Join([head] + tail, sep) == head + [sep] + Join(tail, sep)
  {
    assert ([head] + tail)[0] == head && ([head] + tail)[1..] == tail;
  }

  /**
   * A well-formed header "<scheme>=<digest>" is accepted exactly when the
   * digest is the expected one; the scheme is never looked at.
   */
  lemma SignedHeader(scheme: string, hash: string, expectedHash: string)
    requires '=' !in scheme && '=' !in hash
    ensures VerifyRequestSignature(Some(scheme + "=" + hash), expectedHash)
            == if hash == expectedHash then Accepted else Rejected
  {
    SplitPrefix(scheme, '=', hash);
    SplitWithout(hash, '=');
    assert scheme + "=" + hash == scheme + ['='] + hash;
  }

  /** A non-empty header without '=' is always rejected. */
  lemma NoSeparatorRejected(header: string, expectedHash: string)
    requires header != [] && '=' !in header
    ensures VerifyRequestSignature(Some(header), expectedHash) == Rejected
  {
    SplitWithout(header, '=');
  }
}
