/**
 * internal/middleware/memory_rate_limiter.go: the in-memory sliding-window
 * rate limiter. For every client identifier it keeps the timestamps of the
 * requests it granted; a request is granted when fewer than limit of them
 * lie strictly after now - window. Times are nanoseconds; time.Now() and the
 * request context are parameters.
 */
module RateLimiter {
  import opened Wrappers
  import opened Domain

  /** The request context as Allow and Reset see it: still live, or done with ctx.Err(). */
  datatype Context = Live | Done(err: Error)

  /**
   * The timestamps of requests strictly after cutoff (time.After), in their
   * original order.
   */
  function Recent(requests: seq<int>, cutoff: int): (kept: seq<int>)
    ensures |kept| <= |requests|
    ensures forall i :: 0 <= i < |kept| ==> kept[i] > cutoff
  {
    if requests == [] then []
    else
      var last := requests[|requests| - 1];
      var kept := Recent(requests[..|requests| - 1], cutoff);
      if last > cutoff then kept + [last] else kept
  }

  /**
   * Filtering keeps exactly the occurrences after the cutoff: each timestamp
   * after it occurs as often as before, every other timestamp not at all.
   */
  lemma {:induction false} RecentCounts(requests: seq<int>, cutoff: int)
    ensures forall t :: multiset(Recent(requests, cutoff))[t] == if t > cutoff then multiset(requests)[t] else 0
  {
    if requests != [] {
      var init := requests[..|requests| - 1];
      var last := requests[|requests| - 1];
      RecentCounts(init, cutoff);
      assert requests == init + [last];
    }
  }

  /** Every kept timestamp is after the cutoff and was in the list. */
  lemma RecentMembers(requests: seq<int>, cutoff: int)
    ensures forall t :: t in Recent(requests, cutoff) <==> t in requests && t > cutoff
  {
    RecentCounts(requests, cutoff);
    forall t
      ensures t in Recent(requests, cutoff) <==> t in requests && t > cutoff
    {
      assert t in Recent(requests, cutoff) <==> multiset(Recent(requests, cutoff))[t] > 0;
      assert t in requests <==> multiset(requests)[t] > 0;
    }
  }

  /** Filtering works piece by piece, so the relative order of what is kept is the original one. */
  lemma {:induction false} RecentConcat(a: seq<int>, b: seq<int>, cutoff: int)
    ensures Recent(a + b, cutoff) == Recent(a, cutoff) + Recent(b, cutoff)
    decreases |b|
  {
    if b == [] {
      assert a + b == a;
    } else {
      var init := b[..|b| - 1];
      var last := b[|b| - 1];
      assert (a + b)[..|a + b| - 1] == a + init;
      assert (a + b)[|a + b| - 1] == last;
      RecentConcat(a, init, cutoff);
    }
  }

  /** Filtering with a cutoff and then with a later one is filtering with the later one. */
  lemma {:induction false} RecentLaterCutoff(requests: seq<int>, earlier: int, later: int)
    requires earlier <= later
    ensures Recent(Recent(requests, earlier), later) == Recent(requests, later)
  {
    if requests != [] {
      var init := requests[..|requests| - 1];
      var last := requests[|requests| - 1];
      RecentLaterCutoff(init, earlier, later);
      if last > earlier {
        RecentConcat(Recent(init, earlier), [last], later);
      }
    }
  }

  /** Filtering twice with the same cutoff changes nothing the second time. */
  lemma RecentIdempotent(requests: seq<int>, cutoff: int)
    ensures Recent(Recent(requests, cutoff), cutoff) == Recent(requests, cutoff)
  {
    RecentLaterCutoff(requests, cutoff, cutoff);
  }

  predicate Sorted(s: seq<int>) {
    forall i, j :: 0 <= i < j < |s| ==> s[i] <= s[j]
  }

  /** When no request is after the cutoff, nothing is kept. */
  lemma {:induction false} RecentNoneAfter(requests: seq<int>, cutoff: int)
    requires forall i :: 0 <= i < |requests| ==> requests[i] <= cutoff
    ensures Recent(requests, cutoff) == []
  {
    if requests != [] {
      RecentNoneAfter(requests[..|requests| - 1], cutoff);
    }
  }

  /** On a list kept in time order the kept requests are a suffix: the old ones at the front go. */
  lemma {:induction false} RecentOfSortedIsSuffix(requests: seq<int>, cutoff: int)
    requires Sorted(requests)
    ensures var k := |requests| - |Recent(requests, cutoff)|;
      && 0 <= k <= |requests|
      && Recent(requests, cutoff) == requests[k..]
      && forall i :: 0 <= i < k ==> requests[i] <= cutoff
  {
    if requests != [] {
      var init := requests[..|requests| - 1];
      var last := requests[|requests| - 1];
      assert Sorted(init);
      RecentOfSortedIsSuffix(init, cutoff);
      var k := |init| - |Recent(init, cutoff)|;
      if last > cutoff {
        assert Recent(requests, cutoff) == init[k..] + [last];
        assert init[k..] + [last] == requests[k..];
      } else {
        assert forall i :: 0 <= i < |init| ==> init[i] <= last;
        RecentNoneAfter(init, cutoff);
        assert Recent(requests, cutoff) == [];
      }
    }
  }

  /**
   * The filtering loop of Allow (lines 89-98): the requests strictly after
   * cutoff, in order, collected by one pass.
   */
  method KeepAfter(requests: seq<int>, cutoff: int) returns (valid: seq<int>)
    ensures valid == Recent(requests, cutoff)
  {
    valid := [];
    var i := 0;
    while i < |requests|
      invariant 0 <= i <= |requests|
      invariant valid == Recent(requests[..i], cutoff)
    {
      assert requests[..i + 1][..i] == requests[..i];
      if requests[i] > cutoff {
        valid := valid + [requests[i]];
      }
      i := i + 1;
    }
    assert requests[..i] == requests;
  }

  /** What one Allow does to a client's list: the decision and the list it leaves. */
  datatype Admission = Admission(allowed: bool, requests: seq<int>)

  /**
   * The decision of Allow on a client whose stored list is requests: drop
   * the requests not after now - window; refuse when at least limit remain,
   * otherwise record now.
   */
  function Admit(requests: seq<int>, limit: int, window: int, now: int): (d: Admission)
    ensures d.allowed <==> |Recent(requests, now - window)| < limit
    ensures d.allowed ==> 1 <= |d.requests| <= limit && d.requests[|d.requests| - 1] == now
    ensures !d.allowed ==> limit <= |d.requests| <= |requests|
    ensures forall i :: 0 <= i < |d.requests| ==> d.requests[i] > now - window || (d.allowed && d.requests[i] == now)
  {
    var kept := Recent(requests, now - window);
    if |kept| >= limit then Admission(false, kept) else Admission(true, kept + [now])
  }

  /**
   * Allow's decision: granted exactly when fewer than limit stored requests
   * lie in the window; a grant appends now to the filtered list, a refusal
   * leaves the filtered list; either way the list never exceeds the limit
   * after a grant, and with a non-positive limit nothing is ever granted.
   */
  lemma AdmitDecision(requests: seq<int>, limit: int, window: int, now: int)
    ensures var d := Admit(requests, limit, window, now);
      && (d.allowed <==> |Recent(requests, now - window)| < limit)
      && (d.allowed ==> d.requests == Recent(requests, now - window) + [now] && |d.requests| <= limit)
      && (!d.allowed ==> d.requests == Recent(requests, now - window))
      && (limit <= 0 ==> !d.allowed)
  {
  }

  /**
   * With a positive window, everything the list holds after Allow lies in
   * (now - window, now + ...]: the stale requests are gone, and now itself
   * is in the window. Nothing is invented: apart from now, the list holds
   * only requests that were stored before.
   */
  lemma AdmitKeepsOnlyWindow(requests: seq<int>, limit: int, window: int, now: int)
    requires window > 0
    ensures var d := Admit(requests, limit, window, now);
      forall t :: t in d.requests ==> t > now - window && (t in requests || t == now)
  {
    RecentMembers(requests, now - window);
  }

  /**
   * The sliding-window guarantee. Let granted be every timestamp ever
   * granted to a client, and let the stored list be granted filtered at the
   * previous call's cutoff. For a call at a time whose cutoff is no earlier,
   * the new stored list is again all grants filtered at the new cutoff; and
   * if the call is granted, the grants inside its window, itself included,
   * number at most limit.
   */
  lemma SlidingWindow(stored: seq<int>, granted: seq<int>, previousCutoff: int,
                      limit: int, window: int, now: int)
    requires window > 0
    requires stored == Recent(granted, previousCutoff)
    requires previousCutoff <= now - window
    ensures var d := Admit(stored, limit, window, now);
      var all := if d.allowed then granted + [now] else granted;
      && d.requests == Recent(all, now - window)
      && (d.allowed ==> |Recent(all, now - window)| <= limit)
  {
    RecentLaterCutoff(granted, previousCutoff, now - window);
    var d := Admit(stored, limit, window, now);
    if d.allowed {
      assert (granted + [now])[..|granted + [now]| - 1] == granted;
    }
  }

  /**
   * The largest capacity make accepts for a []time.Time: its 24-byte
   * elements must fit in the runtime's allocation ceiling of 2^48 bytes
   * (linux/amd64).
   */
  const MaxRequestsCap: int := 0x1_0000_0000_0000 / 24

  /**
   * make([]time.Time, 0, limit) as written at line 76: a negative capacity,
   * or one whose bytes exceed the allocation ceiling, is a run-time panic
   * (None); otherwise an empty list.
   */
  function MakeRequests(limit: int): (r: Option<seq<int>>)
    ensures r.None? <==> limit < 0 || 24 * limit > 0x1_0000_0000_0000
    ensures r.Some? ==> r.value == []
  {
    if limit < 0 || limit > MaxRequestsCap then None else Some([])
  }

  /**
   * As written, the first request of an unseen client panics under a
   * negative limit, where a refusal was due, and under a limit too large to
   * allocate, where a grant was due.
   */
  lemma OutOfRangeLimitPanics()
    ensures MakeRequests(-1).None?
    ensures Admit([], -1, 60, 0) == Admission(false, [])
    ensures MakeRequests(100_000_000_000_000).None?
    ensures Admit([], 100_000_000_000_000, 60, 0) == Admission(true, [0])
  {
  }

  /** The client's stored list, or the empty list a new client is registered with. */
  function Stored(clients: map<string, seq<int>>, identifier: string): (requests: seq<int>)
    ensures requests != [] ==> identifier in clients && clients[identifier] == requests
    ensures identifier !in clients ==> requests == []
    ensures identifier in clients ==> requests == clients[identifier]
  {
    if identifier in clients then clients[identifier] else []
  }

  /**
   * MemoryRateLimiter: the per-client lists, keyed by identifier. The
   * clientInfo records and their mutexes are folded into the map's values.
   */
  class MemoryRateLimiter {
    var clients: map<string, seq<int>>

    /** NewMemoryRateLimiter: an empty table (the cleanup goroutine is modelled by Cleanup). */
    constructor ()
      ensures clients == map[]
    {
      clients := map[];
    }

    /**
     * Allow. A done context is refused with its error before the table is
     * touched. Otherwise an unseen identifier is registered with an empty
     * list, the list is filtered, and the decision of Admit is taken and
     * stored; no other client's list changes.
     */
    method Allow(ctx: Context, identifier: string, limit: int, window: int, now: int)
      returns (allowed: bool, err: Option<Error>)
      modifies this
      ensures ctx.Done? ==> !allowed && err == Some(ctx.err) && clients == old(clients)
      ensures ctx.Live? ==> err.None?
      ensures ctx.Live? ==>
        var d := Admit(Stored(old(clients), identifier), limit, window, now);
        allowed == d.allowed && clients == old(clients)[identifier := d.requests]
    {
      if ctx.Done? {
        return false, Some(ctx.err);
      }
      if identifier !in clients {
        clients := clients[identifier := []];
      }
      var cutoff := now - window;
      var valid := KeepAfter(clients[identifier], cutoff);
      clients := clients[identifier := valid];
      if |valid| >= limit {
        return false, None;
      }
      clients := clients[identifier := valid + [now]];
      return true, None;
    }

    /**
     * Reset. A done context returns its error; otherwise a known client's
     * list is emptied and an unknown identifier is not registered.
     */
    method Reset(ctx: Context, identifier: string) returns (err: Option<Error>)
      modifies this
      ensures ctx.Done? ==> err == Some(ctx.err) && clients == old(clients)
      ensures ctx.Live? ==> err.None?
      ensures ctx.Live? && identifier in old(clients) ==> clients == old(clients)[identifier := []]
      ensures ctx.Live? && identifier !in old(clients) ==> clients == old(clients)
    {
      if ctx.Done? {
        return Some(ctx.err);
      }
      if identifier in clients {
        clients := clients[identifier := []];
      }
      return None;
    }

    /**
     * One sweep of cleanup: the clients with an empty list are deleted and
     * every other client keeps its list.
     */
    method Cleanup()
      modifies this
      ensures forall id :: id in clients <==> id in old(clients) && old(clients)[id] != []
      ensures forall id :: id in clients ==> clients[id] == old(clients)[id]
    {
      var pending := clients.Keys;
      while pending != {}
        invariant pending <= old(clients).Keys
        invariant forall id :: id in clients <==>
          id in old(clients) && (id in pending || old(clients)[id] != [])
        invariant forall id :: id in clients ==> clients[id] == old(clients)[id]
        decreases pending
      {
        var id :| id in pending;
        if clients[id] == [] {
          clients := clients - {id};
        }
        pending := pending - {id};
      }
    }
  }
}
