/** The message aggregator: an offset/limit loop over the paginated member
    messages API that concatenates every page up to the first failing or
    empty one. */
module Aggregator {
  import opened Wrappers
  import opened Messages

  /** The `skip` of the k-th request (0-based): `limit` added once per earlier page. */
  function Offset(k: nat, limit: nat): nat {
    if k == 0 then 0 else Offset(k - 1, limit) + limit
  }

  /** The k-th request is made at skip = k * limit. */
  lemma {:induction false} OffsetIsMultiple(k: nat, limit: nat)
    ensures Offset(k, limit) == k * limit
  {
    if k > 0 {
      OffsetIsMultiple(k - 1, limit);
      assert k * limit == (k - 1) * limit + limit;
    }
  }

  /** Offsets only grow, by exactly `limit` per page. */
  lemma {:induction false} OffsetGrows(i: nat, j: nat, limit: nat)
    requires i <= j
    ensures Offset(j, limit) == Offset(i, limit) + (j - i) * limit
  {
    if i < j {
      OffsetGrows(i, j - 1, limit);
      assert (j - i) * limit == (j - 1 - i) * limit + limit;
    }
  }

  /** The response to the k-th request (0-based) when requests advance by `limit`. */
  function Page(source: Source, limit: nat, k: nat): Response {
    source(Offset(k, limit), limit)
  }

  /** The messages a 200 response carries: its `items`, or none when the key is absent. */
  function Items(r: Response): seq<Message> {
    r.items.GetOr([])
  }

  /** A response ends the loop: a status other than 200, or no items. */
  predicate Stops(r: Response) {
    r.status != 200 || Items(r) == []
  }

  /** Page `n` is the first page that ends the loop. */
  predicate IsFirstStop(source: Source, limit: nat, n: nat) {
    && Stops(Page(source, limit, n))
    && forall k :: 0 <= k < n ==> !Stops(Page(source, limit, k))
  }

  /** The in-order concatenation of the items of pages 0 .. count-1. */
  function Gathered(source: Source, limit: nat, count: nat): seq<Message> {
    if count == 0 then []
    else Gathered(source, limit, count - 1) + Items(Page(source, limit, count - 1))
  }

  /** Sum of the numbers of items on pages 0 .. count-1. */
  function ItemCount(source: Source, limit: nat, count: nat): nat {
    if count == 0 then 0
    else ItemCount(source, limit, count - 1) + |Items(Page(source, limit, count - 1))|
  }

  /** The first page at or after `k` that ends the loop, given that page
      `bound` is one. */
  ghost function StopIndex(source: Source, limit: nat, k: nat, bound: nat): (n: nat)
    requires k <= bound && Stops(Page(source, limit, bound))
    ensures k <= n <= bound && Stops(Page(source, limit, n))
    ensures forall j :: k <= j < n ==> !Stops(Page(source, limit, j))
    decreases bound - k
  {
    if Stops(Page(source, limit, k)) then k else StopIndex(source, limit, k + 1, bound)
  }

  /** The first stopping page is unique. */
  lemma FirstStopUnique(source: Source, limit: nat, n: nat, m: nat)
    requires IsFirstStop(source, limit, n) && IsFirstStop(source, limit, m)
    ensures n == m
  {
  }

  /** Which stopping page is used as the termination witness does not matter:
      the loop always ends at the first one. */
  lemma StopIndexIndependent(source: Source, limit: nat, b1: nat, b2: nat)
    requires Stops(Page(source, limit, b1)) && Stops(Page(source, limit, b2))
    ensures StopIndex(source, limit, 0, b1) == StopIndex(source, limit, 0, b2)
    ensures IsFirstStop(source, limit, StopIndex(source, limit, 0, b1))
  {
  }

  /** `fetch_member_messages(limit)`: request pages at skip = 0, limit, 2*limit, ...
      until a response has a non-200 status or no items, and return the
      concatenation of the items of every earlier page. The loop has no page
      cap: it terminates only because page `bound` of the source stops it.
      `requests` is the sequence of requests sent to the API. */
  method FetchMemberMessages(source: Source, limit: nat, ghost bound: nat)
    returns (messages: seq<Message>, requests: seq<Request>)
    requires limit > 0
    requires Stops(Page(source, limit, bound))
    ensures |requests| == StopIndex(source, limit, 0, bound) + 1
    ensures forall k :: 0 <= k < |requests| ==> requests[k] == Request(Offset(k, limit), limit)
    ensures IsFirstStop(source, limit, |requests| - 1)
    ensures messages == Gathered(source, limit, |requests| - 1)
  {
    ghost var n := StopIndex(source, limit, 0, bound);
    messages := [];
    requests := [];
    var skip: nat := 0;
    while true
      invariant |requests| <= n
      invariant skip == Offset(|requests|, limit)
      invariant forall k :: 0 <= k < |requests| ==> requests[k] == Request(Offset(k, limit), limit)
      invariant messages == Gathered(source, limit, |requests|)
      decreases n - |requests|
    {
      ghost var k := |requests|;
      assert source(skip, limit) == Page(source, limit, k);
      var resp := source(skip, limit);
      requests := requests + [Request(skip, limit)];
      if resp.status != 200 {
        assert k == n;
        break;
      }
      var items := resp.items.GetOr([]);
      if items == [] {
        assert k == n;
        break;
      }
      assert k < n;
      messages := messages + items;
      skip := skip + limit;
    }
  }

  /** Nothing is reordered or dropped: page k's j-th item sits at the offset
      given by the pages before it. */
  lemma {:induction false} GatheredAt(source: Source, limit: nat, count: nat, k: nat, j: nat)
    requires k < count && j < |Items(Page(source, limit, k))|
    ensures |Gathered(source, limit, k)| + j < |Gathered(source, limit, count)|
    ensures Gathered(source, limit, count)[|Gathered(source, limit, k)| + j] == Items(Page(source, limit, k))[j]
  {
    if k < count - 1 {
      GatheredAt(source, limit, count - 1, k, j);
    }
  }

  /** Nothing is added: every gathered message is some item of some earlier page. */
  lemma {:induction false} GatheredFrom(source: Source, limit: nat, count: nat, i: nat)
    requires i < |Gathered(source, limit, count)|
    ensures exists k, j :: 0 <= k < count && 0 <= j < |Items(Page(source, limit, k))|
                           && i == |Gathered(source, limit, k)| + j
                           && Gathered(source, limit, count)[i] == Items(Page(source, limit, k))[j]
  {
    var prev := Gathered(source, limit, count - 1);
    if i < |prev| {
      GatheredFrom(source, limit, count - 1, i);
      var k, j :| 0 <= k < count - 1 && 0 <= j < |Items(Page(source, limit, k))|
                  && i == |Gathered(source, limit, k)| + j
                  && prev[i] == Items(Page(source, limit, k))[j];
      assert Gathered(source, limit, count)[i] == prev[i];
    } else {
      var j := i - |prev|;
      assert Gathered(source, limit, count)[i] == Items(Page(source, limit, count - 1))[j];
    }
  }

  /** The result's length is the sum of the page lengths. */
  lemma {:induction false} GatheredLength(source: Source, limit: nat, count: nat)
    ensures |Gathered(source, limit, count)| == ItemCount(source, limit, count)
  {
    if count > 0 {
      GatheredLength(source, limit, count - 1);
    }
  }

  /** Earlier results are prefixes of later ones: pages are appended in order. */
  lemma {:induction false} GatheredPrefix(source: Source, limit: nat, i: nat, j: nat)
    requires i <= j
    ensures Gathered(source, limit, i) <= Gathered(source, limit, j)
  {
    if i < j {
      GatheredPrefix(source, limit, i, j - 1);
    }
  }

  /** A source whose first page is empty or fails: one request, no messages. */
  lemma FirstPageStops(source: Source, limit: nat)
    requires Stops(Page(source, limit, 0))
    ensures IsFirstStop(source, limit, 0) && StopIndex(source, limit, 0, 0) == 0
    ensures Gathered(source, limit, 0) == []
  {
  }

  /** A page that succeeds followed by a failing one: exactly the first page's
      items, and the failure is not an error. */
  lemma PartialFailure(source: Source, limit: nat)
    requires !Stops(Page(source, limit, 0)) && Page(source, limit, 1).status != 200
    ensures IsFirstStop(source, limit, 1)
    ensures Gathered(source, limit, 1) == Page(source, limit, 0).items.value
  {
  }

  function Min(a: nat, b: nat): nat { if a <= b then a else b }

  /** The page the API serves from the full message list `all` for `(skip, limit)`. */
  function Window(all: seq<Message>, skip: nat, limit: nat): seq<Message> {
    if skip >= |all| then [] else all[skip .. Min(skip + limit, |all|)]
  }

  /** A well-behaved API over the list `all`: always 200, `items` holds the window. */
  function Serve(all: seq<Message>): Source {
    (skip: nat, limit: nat) => Response(200, Some(Window(all, skip, limit)))
  }

  lemma {:induction false} ServeGathered(all: seq<Message>, limit: nat, k: nat)
    requires limit > 0
    ensures Gathered(Serve(all), limit, k) == all[..Min(Offset(k, limit), |all|)]
  {
    if k > 0 {
      ServeGathered(all, limit, k - 1);
      var a := Offset(k - 1, limit);
      assert Page(Serve(all), limit, k - 1) == Response(200, Some(Window(all, a, limit)));
      if a < |all| {
        assert all[..a] + all[a .. Min(a + limit, |all|)] == all[..Min(a + limit, |all|)];
      }
    }
  }

  /** Against a well-behaved API holding N messages in pages of size `limit`,
      the aggregator returns all N messages in order after ceil(N / limit)
      non-empty pages and one terminating empty page. */
  lemma ServeComplete(all: seq<Message>, limit: nat)
    requires limit > 0
    ensures var n := (|all| + limit - 1) / limit;
            IsFirstStop(Serve(all), limit, n) && Gathered(Serve(all), limit, n) == all
  {
    var n := (|all| + limit - 1) / limit;
    var r := (|all| + limit - 1) % limit;
    assert n * limit + r == |all| + limit - 1;
    assert n * limit >= |all|;
    OffsetIsMultiple(n, limit);
    assert Page(Serve(all), limit, n) == Response(200, Some([]));
    forall k | 0 <= k < n
      ensures !Stops(Page(Serve(all), limit, k))
    {
      OffsetGrows(k, n - 1, limit);
      OffsetIsMultiple(n - 1, limit);
      assert (n - 1) * limit == n * limit - limit;
      var w := Window(all, Offset(k, limit), limit);
      assert Offset(k, limit) < |all|;
      assert |w| > 0;
    }
    ServeGathered(all, limit, n);
  }

  /** The fetch run against a well-behaved API holding N messages: all N
      messages in order, after ceil(N / limit) + 1 requests. */
  method FetchServed(all: seq<Message>, limit: nat) returns (messages: seq<Message>, requests: seq<Request>)
    requires limit > 0
    ensures |requests| == (|all| + limit - 1) / limit + 1
    ensures forall k :: 0 <= k < |requests| ==> requests[k] == Request(Offset(k, limit), limit)
    ensures messages == all
  {
    ghost var n := (|all| + limit - 1) / limit;
    ServeComplete(all, limit);
    messages, requests := FetchMemberMessages(Serve(all), limit, n);
    FirstStopUnique(Serve(all), limit, |requests| - 1, n);
  }

  /** An API that answers every request with the same non-empty page. */
  function Endless(m: Message): Source {
    (skip: nat, limit: nat) => Response(200, Some([m]))
  }

  /** The loop has no page cap: against `Endless(m)` no page stops it, so
      no termination witness exists and the fetch never ends. */
  lemma EndlessNeverStops(m: Message, limit: nat, k: nat)
    ensures !Stops(Page(Endless(m), limit, k))
  {
  }
}
