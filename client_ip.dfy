/**
 * internal/middleware/utils.go: GetClientIP, the identifier the rate limiter
 * keys on. It tries the first X-Forwarded-For entry, then X-Real-IP, then
 * the host part of the connection's remote address. net.ParseIP and
 * net.SplitHostPort are not modelled: they are passed in as parseIp (does
 * the text parse as an IP address?) and splitHost (the host part, or None
 * when the address does not split as host:port).
 */
module ClientIp {
  import opened Wrappers
  import Strings

  /** The request fields GetClientIP reads; a header absent from the request reads as "". */
  datatype Request = Request(xForwardedFor: string, xRealIp: string, remoteAddr: string)

  /** The first comma-separated entry of X-Forwarded-For, trimmed of white space. */
  function ForwardedCandidate(xForwardedFor: string): (ip: string)
    ensures ',' !in ip && Strings.Trimmed(ip)
  {
    var first := Strings.Before(xForwardedFor, ',');
    var ip := Strings.TrimSpace(first);
    assert forall i :: 0 <= i < |ip| ==> ip[i] in first by {
      TrimSpaceIsInside(first);
    }
    ip
  }

  lemma TrimSpaceIsInside(s: string)
    ensures forall i :: 0 <= i < |Strings.TrimSpace(s)| ==> Strings.TrimSpace(s)[i] in s
  {
    var left := Strings.TrimLeft(s);
    var r := Strings.TrimRight(left);
    assert r == Strings.TrimSpace(s);
    forall i | 0 <= i < |r|
      ensures r[i] in s
    {
      assert r[i] == left[i];
      assert left[i] == s[|s| - |left| + i];
    }
  }

  function GetClientIp(r: Request, parseIp: string -> bool, splitHost: string -> Option<string>): (ip: string)
    ensures r.xForwardedFor != "" && parseIp(ForwardedCandidate(r.xForwardedFor)) ==>
      ip == ForwardedCandidate(r.xForwardedFor)
    ensures !(r.xForwardedFor != "" && parseIp(ForwardedCandidate(r.xForwardedFor))) ==>
      ip == (if r.xRealIp != "" && parseIp(r.xRealIp) then r.xRealIp
             else if splitHost(r.remoteAddr).Some? then splitHost(r.remoteAddr).value
             else r.remoteAddr)
  {
    if r.xForwardedFor != "" && parseIp(ForwardedCandidate(r.xForwardedFor)) then
      ForwardedCandidate(r.xForwardedFor)
    else if r.xRealIp != "" && parseIp(r.xRealIp) then
      r.xRealIp
    else
      match splitHost(r.remoteAddr)
      case Some(host) => host
      case None => r.remoteAddr
  }

  /**
   * The request's own candidate identifiers: the trimmed first forwarded
   * entry, X-Real-IP, the remote address and its host part.
   */
  predicate IsCandidate(ip: string, r: Request, splitHost: string -> Option<string>) {
    || ip == ForwardedCandidate(r.xForwardedFor) || ip == r.xRealIp || ip == r.remoteAddr
    || (splitHost(r.remoteAddr).Some? && ip == splitHost(r.remoteAddr).value)
  }

  /** The identifier is always one of the request's own candidates; nothing else is made up. */
  lemma ClientIpIsACandidate(r: Request, parseIp: string -> bool, splitHost: string -> Option<string>)
    ensures IsCandidate(GetClientIp(r, parseIp, splitHost), r, splitHost)
  {
    var ip := GetClientIp(r, parseIp, splitHost);
    if r.xForwardedFor != "" && parseIp(ForwardedCandidate(r.xForwardedFor)) {
      assert ip == ForwardedCandidate(r.xForwardedFor);
    } else if r.xRealIp != "" && parseIp(r.xRealIp) {
      assert ip == r.xRealIp;
    } else if splitHost(r.remoteAddr).Some? {
      assert ip == splitHost(r.remoteAddr).value;
    } else {
      assert ip == r.remoteAddr;
    }
  }

  /**
   * Only the first X-Forwarded-For entry is examined: two requests whose
   * header starts with the same entry get the same identifier, whatever
   * follows the first comma.
   */
  lemma LaterForwardedEntriesIgnored(first: string, rest1: string, rest2: string, xRealIp: string, remoteAddr: string,
                                     parseIp: string -> bool, splitHost: string -> Option<string>)
    requires ',' !in first
    ensures GetClientIp(Request(first + [','] + rest1, xRealIp, remoteAddr), parseIp, splitHost)
         == GetClientIp(Request(first + [','] + rest2, xRealIp, remoteAddr), parseIp, splitHost)
  {
    var h1 := first + [','] + rest1;
    var h2 := first + [','] + rest2;
    ForwardedCandidateOfFirst(first, rest1);
    ForwardedCandidateOfFirst(first, rest2);
    assert h1[|first|] == ',' && h2[|first|] == ',';
    SameCandidateSameClient(h1, h2, xRealIp, remoteAddr, parseIp, splitHost);
  }

  /** Two non-empty X-Forwarded-For headers with the same candidate give the same identifier. */
  lemma SameCandidateSameClient(h1: string, h2: string, xRealIp: string, remoteAddr: string,
                                parseIp: string -> bool, splitHost: string -> Option<string>)
    requires h1 != [] && h2 != []
    requires ForwardedCandidate(h1) == ForwardedCandidate(h2)
    ensures GetClientIp(Request(h1, xRealIp, remoteAddr), parseIp, splitHost)
         == GetClientIp(Request(h2, xRealIp, remoteAddr), parseIp, splitHost)
  {
    var c := ForwardedCandidate(h1);
    var fallback := if xRealIp != "" && parseIp(xRealIp) then xRealIp
                    else if splitHost(remoteAddr).Some? then splitHost(remoteAddr).value
                    else remoteAddr;
    var expected := if parseIp(c) then c else fallback;
    assert GetClientIp(Request(h1, xRealIp, remoteAddr), parseIp, splitHost) == expected;
    assert GetClientIp(Request(h2, xRealIp, remoteAddr), parseIp, splitHost) == expected;
  }

  lemma ForwardedCandidateOfFirst(first: string, rest: string)
    requires ',' !in first
    ensures ForwardedCandidate(first + [','] + rest) == Strings.TrimSpace(first)
  {
    Strings.BeforeFirstSeparator(first, ',', rest);
  }

  /**
   * A proxy-supplied address wrapped in white space and followed by further
   * entries is returned bare when it parses.
   */
  lemma ForwardedAddressReturnedTrimmed(pad1: string, address: string, pad2: string, rest: string,
                                        xRealIp: string, remoteAddr: string,
                                        parseIp: string -> bool, splitHost: string -> Option<string>)
    requires Strings.AllSpace(pad1) && Strings.AllSpace(pad2) && Strings.Trimmed(address)
    requires ',' !in pad1 + address + pad2
    requires parseIp(address)
    ensures GetClientIp(Request(pad1 + address + pad2 + [','] + rest, xRealIp, remoteAddr), parseIp, splitHost)
         == address
  {
    Strings.BeforeFirstSeparator(pad1 + address + pad2, ',', rest);
    Strings.TrimSpaceExact(pad1, address, pad2);
  }

  /** With no usable header, a remote address that does not split is returned unchanged. */
  lemma UnsplittableRemoteAddress(r: Request, parseIp: string -> bool, splitHost: string -> Option<string>)
    requires r.xForwardedFor == "" && r.xRealIp == ""
    requires splitHost(r.remoteAddr).None?
    ensures GetClientIp(r, parseIp, splitHost) == r.remoteAddr
  {
  }
}
