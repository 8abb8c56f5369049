/**
 * The Host-header rewrite that sits in front of the MCP web app: for every
 * HTTP request, each header named exactly `host` is replaced by the one value
 * the app trusts; every other header, and the order of all of them, is kept.
 *
 * Header names and values are byte strings, as in an ASGI scope.
 */
module HostHeaderMiddleware {

  newtype byte = b: int | 0 <= b < 256

  type Bytes = seq<byte>

  /** A Python `str` literal made of code points below 256, as the bytes of a `b"..."` literal. */
  function Latin1(s: string): (r: Bytes)
    requires forall i | 0 <= i < |s| :: s[i] as int < 256
    ensures |r| == |s|
    ensures forall i | 0 <= i < |s| :: r[i] as int == s[i] as int
  {
    seq(|s|, i requires 0 <= i < |s| => s[i] as int as byte)
  }

  datatype Header = Header(name: Bytes, value: Bytes)

  /** `b"host"`: the name is compared byte for byte, so `b"Host"` is not it. */
  const HOST: Bytes := Latin1("host")

  /** `b"localhost:8084"`: a literal, not derived from the server's `--port` (default 8080). */
  const TRUSTED_HOST: Bytes := Latin1("localhost:8084")

  const TRUSTED_HOST_HEADER: Header := Header(HOST, TRUSTED_HOST)

  /**
   * `after` is what the rewrite makes of `before`: the same length, entry `i`
   * is the trusted host header exactly when entry `i` of `before` is named
   * `host`, and every other entry stays as it was, where it was.
   */
  ghost predicate RewritesHost(before: seq<Header>, after: seq<Header>) {
    && |after| == |before|
    && (forall i | 0 <= i < |before| :: after[i] == TRUSTED_HOST_HEADER <==> before[i].name == HOST)
    && (forall i | 0 <= i < |before| :: before[i].name != HOST ==> after[i] == before[i])
  }

  /** The loop of `HostHeaderMiddleware.__call__` that builds `new_headers`. */
  method RewriteHeaders(headers: seq<Header>) returns (newHeaders: seq<Header>)
    ensures RewritesHost(headers, newHeaders)
  {
    newHeaders := [];
    for i := 0 to |headers|
      invariant |newHeaders| == i
      invariant forall k | 0 <= k < i :: headers[k].name == HOST ==> newHeaders[k] == TRUSTED_HOST_HEADER
      invariant forall k | 0 <= k < i :: headers[k].name != HOST ==> newHeaders[k] == headers[k]
    {
      if headers[i].name == HOST {
        newHeaders := newHeaders + [TRUSTED_HOST_HEADER];
      } else {
        newHeaders := newHeaders + [headers[i]];
      }
    }
  }

  /**
   * The part of an ASGI scope the middleware touches: the connection type,
   * which it only reads, and the header list, which it replaces in place.
   */
  class Scope {
    const kind: string
    var headers: seq<Header>

    constructor (kind: string, headers: seq<Header>)
      ensures this.kind == kind && this.headers == headers
    {
      this.kind := kind;
      this.headers := headers;
    }
  }

  /**
   * `HostHeaderMiddleware.__call__` up to handing the scope on: an `http`
   * scope gets its headers rewritten, any other scope (`websocket`,
   * `lifespan`, ...) is passed on untouched.
   */
  method Call(scope: Scope)
    modifies scope
    ensures scope.kind == "http" ==> RewritesHost(old(scope.headers), scope.headers)
    ensures scope.kind != "http" ==> scope.headers == old(scope.headers)
  {
    if scope.kind == "http" {
      var newHeaders := RewriteHeaders(scope.headers);
      scope.headers := newHeaders;
    }
  }

  /** The rewrite is a function of its input: there is only one possible result. */
  lemma RewritesHostUnique(before: seq<Header>, after1: seq<Header>, after2: seq<Header>)
    requires RewritesHost(before, after1) && RewritesHost(before, after2)
    ensures after1 == after2
  {
  }

  /** Rewriting again changes nothing: every `host` entry already carries the trusted value. */
  lemma RewritesHostIdempotent(before: seq<Header>, after: seq<Header>)
    requires RewritesHost(before, after)
    ensures RewritesHost(after, after)
  {
  }

  /** The number of headers named `host`. */
  function HostCount(headers: seq<Header>): nat
  {
    if headers == [] then 0
    else (if headers[0].name == HOST then 1 else 0) + HostCount(headers[1..])
  }

  /** The headers not named `host`, in their original order. */
  function OtherHeaders(headers: seq<Header>): seq<Header>
  {
    if headers == [] then []
    else (if headers[0].name == HOST then [] else [headers[0]]) + OtherHeaders(headers[1..])
  }

  lemma RewritesHostTail(before: seq<Header>, after: seq<Header>)
    requires RewritesHost(before, after) && before != []
    ensures RewritesHost(before[1..], after[1..])
  {
  }

  /** Duplicate `host` headers are each rewritten, never merged: their number is unchanged. */
  lemma {:induction false} HostCountPreserved(before: seq<Header>, after: seq<Header>)
    requires RewritesHost(before, after)
    ensures HostCount(after) == HostCount(before)
  {
    if before != [] {
      RewritesHostTail(before, after);
      HostCountPreserved(before[1..], after[1..]);
      assert after[0].name == HOST <==> before[0].name == HOST;
    }
  }

  /** Every header not named `host` survives unchanged and in its original relative order. */
  lemma {:induction false} OtherHeadersPreserved(before: seq<Header>, after: seq<Header>)
    requires RewritesHost(before, after)
    ensures OtherHeaders(after) == OtherHeaders(before)
  {
    if before != [] {
      RewritesHostTail(before, after);
      OtherHeadersPreserved(before[1..], after[1..]);
      assert after[0].name == HOST <==> before[0].name == HOST;
    }
  }

  /** Two `host` headers in, two trusted `host` headers out. */
  lemma DuplicateHostHeadersKept(v1: Bytes, v2: Bytes, after: seq<Header>)
    requires RewritesHost([Header(HOST, v1), Header(HOST, v2)], after)
    ensures after == [TRUSTED_HOST_HEADER, TRUSTED_HOST_HEADER]
    ensures HostCount(after) == 2
  {
    assert after[0] == TRUSTED_HOST_HEADER && after[1] == TRUSTED_HOST_HEADER;
    assert after[1..] == [TRUSTED_HOST_HEADER] && after[1..][1..] == [];
    assert HostCount(after[1..]) == 1 + HostCount(after[1..][1..]) == 1;
  }

  /** A header named `Host` is not `host` and is left exactly as it came. */
  lemma CapitalizedHostUntouched(value: Bytes, after: seq<Header>)
    requires RewritesHost([Header(Latin1("Host"), value)], after)
    ensures after == [Header(Latin1("Host"), value)]
  {
    assert Latin1("Host")[0] != HOST[0];
  }
}
