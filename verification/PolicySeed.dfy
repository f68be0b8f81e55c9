/** clear_policies: deleting loaded policies until none is left or a whole pass fails. */
module PolicySeed {
  import opened SortedNames
  import Text

  /** The server's answer to the n-th DELETE, given what is still loaded. */
  type Server = (nat, set<string>, string) -> bool

  datatype Outcome = Cleared(deleted: nat) | CouldNotClear(remaining: set<string>)

  /** The requests of a run: the policies deleted and the numbers of those requests, then the range of the last pass. */
  datatype Requests = Requests(order: seq<string>, at: seq<nat>, lastPass: nat, asked: nat)

  /** The deletions that succeeded, each with the number of the request that achieved it. */
  ghost predicate Accepted(server: Server, ids: set<string>, order: seq<string>, at: seq<nat>) {
    && |at| == |order|
    && forall k :: 0 <= k < |order| ==> AcceptedAt(server, ids, order, at, k)
  }

  ghost predicate AcceptedAt(server: Server, ids: set<string>, order: seq<string>, at: seq<nat>, k: nat)
    requires k < |order| == |at|
  {
    var loaded := ids - Elements(order[..k]);
    order[k] in loaded && server(at[k], loaded, order[k])
  }

  ghost predicate Refused(server: Server, loaded: set<string>, id: string) {
    exists n: nat :: !server(n, loaded, id)
  }

  /** One of the requests numbered `from` up to `to` was the deletion of `id`, and it was refused. */
  ghost predicate RefusedDuring(server: Server, loaded: set<string>, id: string, from: nat, to: nat) {
    exists n: nat :: from <= n < to && !server(n, loaded, id)
  }

  /** Where the deletion stands: what was accepted so far and what is still loaded. */
  ghost predicate Standing(server: Server, ids: set<string>, order: seq<string>, at: seq<nat>, remaining: set<string>) {
    && Accepted(server, ids, order, at)
    && remaining == ids - Elements(order) && Elements(order) <= ids
    && |remaining| + |order| == |ids|
  }

  lemma {:induction false} DeletionAdvances(server: Server, ids: set<string>, order: seq<string>, at: seq<nat>,
                                            remaining: set<string>, n: nat, id: string)
    requires Standing(server, ids, order, at, remaining)
    requires id in remaining && server(n, remaining, id)
    ensures Standing(server, ids, order + [id], at + [n], remaining - {id})
    ensures |remaining - {id}| < |remaining|
  {
    var longer, longerAt := order + [id], at + [n];
    forall k | 0 <= k < |longer|
      ensures AcceptedAt(server, ids, longer, longerAt, k)
    {
      assert longer[..k] == order[..k];
      if k < |order| { assert AcceptedAt(server, ids, order, at, k); } else { assert order[..k] == order; }
    }
  }

  /** The listed policies that are still loaded, as listed. */
  function StillListed(preferred: seq<string>, remaining: set<string>): seq<string> {
    if preferred == [] then []
    else StillListed(preferred[..|preferred| - 1], remaining)
         + if preferred[|preferred| - 1] in remaining then [preferred[|preferred| - 1]] else []
  }

  /** Preferred policies in the listed order, then the rest sorted. */
  method DeleteOrder(preferred: seq<string>, remaining: set<string>) returns (ordered: seq<string>, ghost rest: seq<string>)
    ensures ordered == StillListed(preferred, remaining) + rest && Elements(ordered) == remaining
    ensures Ascending(rest, Text.AtMost) && forall x :: x in rest <==> x in remaining && x !in preferred
    ensures InDeleteOrder(ordered, preferred, remaining) && (Distinct(preferred) ==> Distinct(ordered))
  {
    ordered := [];
    for i := 0 to |preferred|
      invariant ordered == StillListed(preferred[..i], remaining)
      invariant forall x :: x in ordered <==> x in remaining && x in preferred[..i]
    {
      assert preferred[..i + 1] == preferred[..i] + [preferred[i]];
      if preferred[i] in remaining {
        ordered := ordered + [preferred[i]];
      }
    }
    assert preferred[..|preferred|] == preferred;
    StringsAreOrdered();
    var others := Sorted(remaining - Elements(ordered), Text.AtMost);
    assert forall x :: x in others <==> x in Elements(others);
    assert Elements(ordered + others) == Elements(ordered) + Elements(others);
    rest := others;
    ordered := ordered + others;
    if Distinct(preferred) {
      ListedAreDistinct(preferred, remaining);
      DistinctConcat(StillListed(preferred, remaining), rest);
    }
  }

  lemma {:induction false} DistinctConcat(a: seq<string>, b: seq<string>)
    requires Distinct(a) && Ascending(b, Text.AtMost) && forall x :: x in b ==> x !in a
    ensures Distinct(a + b)
  {
    forall i, j | 0 <= i < j < |a + b| ensures (a + b)[i] != (a + b)[j] {
      if i < |a| <= j { assert b[j - |a|] in b && a[i] in a; }
    }
  }

  ghost predicate RefusesNothing(server: Server) {
    forall loaded: set<string>, x: string {:trigger AlwaysAccepts(server, loaded, x)} :: AlwaysAccepts(server, loaded, x)
  }

  ghost predicate AlwaysAccepts(server: Server, loaded: set<string>, x: string) {
    forall n: nat :: server(n, loaded, x)
  }

  predicate Distinct(s: seq<string>) { forall i, j :: 0 <= i < j < |s| ==> s[i] != s[j] }

  /** The listed order, then the rest ascending. */
  ghost predicate InDeleteOrder(order: seq<string>, preferred: seq<string>, ids: set<string>) {
    exists rest: seq<string> ::
      order == StillListed(preferred, ids) + rest && Ascending(rest, Text.AtMost)
      && forall x :: x in rest <==> x in ids && x !in preferred
  }

  lemma {:induction false} ListedAreDistinct(preferred: seq<string>, remaining: set<string>)
    requires Distinct(preferred)
    ensures Distinct(StillListed(preferred, remaining))
    ensures forall x :: x in StillListed(preferred, remaining) <==> x in preferred && x in remaining
  {
    if preferred != [] {
      var front := preferred[..|preferred| - 1];
      ListedAreDistinct(front, remaining);
      var last := preferred[|preferred| - 1];
      assert preferred == front + [last] && last !in front;
      var listed := StillListed(front, remaining);
      forall i | 0 <= i < |listed| ensures listed[i] != last { assert listed[i] in listed; }
      forall x ensures x in StillListed(preferred, remaining) <==> x in preferred && x in remaining {
        assert x in preferred <==> x in front || x == last;
      }
    }
  }

  // ----- One pass --------------------------------------------------------------------------

  /** What is loaded, the requests made, and the deletions achieved so far with their request numbers. */
  datatype Progress = Progress(remaining: set<string>, requests: nat, order: seq<string>, at: seq<nat>)

  /** A DELETE for a policy that is still loaded. */
  ghost function Ask(server: Server, p: Progress, x: string): Progress {
    if x !in p.remaining then p
    else if server(p.requests, p.remaining, x) then Progress(p.remaining - {x}, p.requests + 1, p.order + [x], p.at + [p.requests])
    else p.(requests := p.requests + 1)
  }

  ghost function AskAll(server: Server, p: Progress, ordered: seq<string>): Progress {
    if ordered == [] then p else Ask(server, AskAll(server, p, ordered[..|ordered| - 1]), ordered[|ordered| - 1])
  }

  ghost predicate Stands(server: Server, ids: set<string>, p: Progress) { Standing(server, ids, p.order, p.at, p.remaining) }

  lemma {:induction false} PassStands(server: Server, ids: set<string>, p: Progress, ordered: seq<string>)
    requires Stands(server, ids, p)
    ensures var end := AskAll(server, p, ordered);
      && Stands(server, ids, end) && p.requests <= end.requests
      && (|end.remaining| < |p.remaining| || (end.remaining == p.remaining && end.order == p.order))
  {
    if ordered != [] {
      var before, x := AskAll(server, p, ordered[..|ordered| - 1]), ordered[|ordered| - 1];
      PassStands(server, ids, p, ordered[..|ordered| - 1]);
      if x in before.remaining && server(before.requests, before.remaining, x) {
        DeletionAdvances(server, ids, before.order, before.at, before.remaining, before.requests, x);
      }
    }
  }

  /** A pass that deletes nothing has asked for each policy and been refused. */
  lemma {:induction false} IdlePassRefuses(server: Server, ids: set<string>, p: Progress, ordered: seq<string>)
    requires Stands(server, ids, p) && AskAll(server, p, ordered).remaining == p.remaining
    ensures forall x :: x in ordered && x in p.remaining ==>
      RefusedDuring(server, p.remaining, x, p.requests, AskAll(server, p, ordered).requests)
  {
    if ordered != [] {
      var front, last := ordered[..|ordered| - 1], ordered[|ordered| - 1];
      var before := AskAll(server, p, front);
      PassStands(server, ids, p, front);
      assert before.remaining == p.remaining;
      IdlePassRefuses(server, ids, p, front);
      assert ordered == front + [last];
    }
  }

  /** Against a server that refuses nothing, a pass deletes in exactly its order. */
  lemma {:induction false} PlainPass(server: Server, ids: set<string>, p: Progress, ordered: seq<string>)
    requires Stands(server, ids, p) && RefusesNothing(server) && p.order == []
    requires Distinct(ordered) && forall x :: x in ordered ==> x in ids
    ensures AskAll(server, p, ordered).order == ordered
  {
    if ordered != [] {
      var front, last := ordered[..|ordered| - 1], ordered[|ordered| - 1];
      var before := AskAll(server, p, front);
      PassStands(server, ids, p, front);
      assert ordered == front + [last] && last in ordered;
      PlainPass(server, ids, p, front);
      assert last in before.remaining && AlwaysAccepts(server, before.remaining, last);
    }
  }

  lemma {:induction false} PlainPassClears(server: Server, ids: set<string>, p: Progress, ordered: seq<string>)
    requires Stands(server, ids, p) && RefusesNothing(server) && p.order == [] && Distinct(ordered) && Elements(ordered) == p.remaining
    ensures AskAll(server, p, ordered).order == ordered && AskAll(server, p, ordered).remaining == {} && p.remaining == ids
  {
    assert forall x :: x in ordered <==> x in Elements(ordered);
    PlainPass(server, ids, p, ordered);
    PassStands(server, ids, p, ordered);
  }

  method DeleteEach(server: Server, ordered: seq<string>, remaining: set<string>, deleted: nat, requests: nat,
                    ghost order: seq<string>, ghost at: seq<nat>)
    returns (remaining': set<string>, deleted': nat, requests': nat, ghost order': seq<string>, ghost at': seq<nat>)
    requires deleted == |order|
    ensures Progress(remaining', requests', order', at') == AskAll(server, Progress(remaining, requests, order, at), ordered)
    ensures deleted' == |order'|
  {
    remaining', deleted', requests', order', at' := remaining, deleted, requests, order, at;
    for i := 0 to |ordered|
      invariant Progress(remaining', requests', order', at') == AskAll(server, Progress(remaining, requests, order, at), ordered[..i])
      invariant deleted' == |order'|
    {
      assert ordered[..i + 1][..i] == ordered[..i];
      if ordered[i] !in remaining' { continue; }
      if server(requests', remaining', ordered[i]) {
        order', at' := order' + [ordered[i]], at' + [requests'];
        remaining', deleted' := remaining' - {ordered[i]}, deleted' + 1;
      }
      requests' := requests' + 1;
    }
    assert ordered[..|ordered|] == ordered;
  }

  /** One pass over the remaining policies, skipping none that is still loaded. */
  method ClearPass(server: Server, preferred: seq<string>, ids: set<string>, ghost order: seq<string>, ghost at: seq<nat>,
                   remaining: set<string>, deleted: nat, requests: nat)
    returns (remaining': set<string>, deleted': nat, requests': nat, ghost order': seq<string>, ghost at': seq<nat>)
    requires Standing(server, ids, order, at, remaining) && deleted == |order|
    ensures Standing(server, ids, order', at', remaining') && deleted' == |order'|
    ensures |remaining'| < |remaining| || (remaining' == remaining && order' == order)
    ensures requests <= requests'
    ensures remaining' == remaining ==> forall x :: x in remaining ==> RefusedDuring(server, remaining, x, requests, requests')
    ensures RefusesNothing(server) && Distinct(preferred) && order == [] ==>
      remaining' == {} && InDeleteOrder(order', preferred, ids)
  {
    var ordered, _ := DeleteOrder(preferred, remaining);
    ghost var start := Progress(remaining, requests, order, at);
    remaining', deleted', requests', order', at' := DeleteEach(server, ordered, remaining, deleted, requests, order, at);
    PassStands(server, ids, start, ordered);
    assert forall x :: x in ordered <==> x in Elements(ordered);
    if remaining' == remaining { IdlePassRefuses(server, ids, start, ordered); }
    if RefusesNothing(server) && Distinct(preferred) && order == [] { PlainPassClears(server, ids, start, ordered); }
  }

  /**
   Terminates against every server and for every preferred order, after at most |ids| passes
   that delete something. It gives up only after one more pass, made of the requests numbered
   `sent.lastPass` up to `sent.asked`, in which the server refused every policy still loaded. A
   server that refuses nothing sees the policies go in the listed order, the others after them.
   */
  method ClearPolicies(preferred: seq<string>, ids: set<string>, server: Server)
    returns (outcome: Outcome, ghost sent: Requests, ghost passes: nat)
    ensures Accepted(server, ids, sent.order, sent.at) && passes <= |ids|
    ensures outcome == if Elements(sent.order) == ids then Cleared(|ids|) else CouldNotClear(ids - Elements(sent.order))
    ensures outcome.CouldNotClear? ==> outcome.remaining != {}
    ensures outcome.CouldNotClear? ==>
              forall x :: x in outcome.remaining ==> RefusedDuring(server, outcome.remaining, x, sent.lastPass, sent.asked)
    ensures RefusesNothing(server) && Distinct(preferred) ==>
              outcome == Cleared(|ids|) && passes <= 1 && (ids != {} ==> InDeleteOrder(sent.order, preferred, ids))
  {
    passes := 0;
    ghost var order, at, lastPass := [], [], 0;
    var remaining, deleted, requests := ids, 0, 0;
    while remaining != {}
      invariant Standing(server, ids, order, at, remaining) && deleted == |order| && passes <= deleted
      invariant passes == 0 ==> order == [] && remaining == ids
      invariant RefusesNothing(server) && Distinct(preferred) && passes > 0 ==>
                  passes == 1 && remaining == {} && InDeleteOrder(order, preferred, ids)
      decreases |remaining|
    {
      var before := remaining;
      lastPass := requests;
      remaining, deleted, requests, order, at :=
        ClearPass(server, preferred, ids, order, at, remaining, deleted, requests);
      if remaining == before {
        return CouldNotClear(remaining), Requests(order, at, lastPass, requests), passes;
      }
      passes := passes + 1;
    }
    outcome, sent := Cleared(deleted), Requests(order, at, lastPass, requests);
  }

  // ----- A server that refuses to delete what others still need -----------------------------

  /** `needs(q, p)`: policy q imports policy p. */
  ghost predicate ChecksDependencies(server: Server, needs: (string, string) -> bool) {
    forall n: nat, loaded, p :: server(n, loaded, p) <==> !Needed(needs, loaded, p)
  }

  ghost predicate Needed(needs: (string, string) -> bool, loaded: set<string>, p: string) {
    exists q :: q in loaded && q != p && needs(q, p)
  }

  /** Each member is needed by another member: a cyclic tangle, from the deletion's point of view. */
  ghost predicate Blocked(needs: (string, string) -> bool, s: set<string>) {
    forall p :: p in s ==> Needed(needs, s, p)
  }

  lemma {:induction false} NeededInMore(needs: (string, string) -> bool, s: set<string>, loaded: set<string>, p: string)
    requires s <= loaded
    ensures Needed(needs, s, p) ==> Needed(needs, loaded, p)
  {
    if q :| q in s && q != p && needs(q, p) { assert q in loaded; }
  }

  lemma {:induction false} BlockedSurvives(server: Server, needs: (string, string) -> bool, ids: set<string>,
                                           order: seq<string>, at: seq<nat>, s: set<string>, k: nat)
    requires ChecksDependencies(server, needs) && Accepted(server, ids, order, at)
    requires Blocked(needs, s) && s <= ids && k <= |order|
    ensures s <= ids - Elements(order[..k])
  {
    if k > 0 {
      BlockedSurvives(server, needs, ids, order, at, s, k - 1);
      assert order[..k] == order[..k - 1] + [order[k - 1]];
      var loaded, p := ids - Elements(order[..k - 1]), order[k - 1];
      NeededInMore(needs, s, loaded, p);
      assert AcceptedAt(server, ids, order, at, k - 1);
    }
  }

  /**
   What is left over does not depend on the order of deletion: it is the largest blocked set
   of loaded policies. So everything is cleared exactly when no loaded policies block each other.
   */
  lemma {:induction false} LeftoverIsLargestBlockedSet(server: Server, needs: (string, string) -> bool, ids: set<string>,
                                                       order: seq<string>, at: seq<nat>, s: set<string>)
    requires ChecksDependencies(server, needs) && Accepted(server, ids, order, at)
    requires forall x :: x in ids - Elements(order) ==> Refused(server, ids - Elements(order), x)
    ensures Blocked(needs, ids - Elements(order))
    ensures s <= ids && Blocked(needs, s) ==> s <= ids - Elements(order)
  {
    if s <= ids && Blocked(needs, s) {
      BlockedSurvives(server, needs, ids, order, at, s, |order|);
      assert order[..|order|] == order;
    }
  }

  /** Importers rank above what they import: no import cycles. */
  ghost predicate Ranked(needs: (string, string) -> bool, rank: string -> nat) {
    forall q, r {:trigger needs(q, r)} :: needs(q, r) ==> rank(q) > rank(r)
  }

  lemma {:induction false} HighestRank(rank: string -> nat, s: set<string>) returns (top: string)
    requires s != {}
    ensures top in s && forall q :: q in s ==> rank(q) <= rank(top)
    decreases s
  {
    top :| top in s;
    if s != {top} {
      var other := HighestRank(rank, s - {top});
      if rank(other) > rank(top) { top := other; }
    }
  }

  /** Without import cycles no set blocks itself: nothing in it needs its highest member. */
  lemma {:induction false} RankedNeverBlocked(needs: (string, string) -> bool, rank: string -> nat, s: set<string>)
    requires Ranked(needs, rank)
    ensures Blocked(needs, s) <==> s == {}
  {
    if s != {} {
      var top := HighestRank(rank, s);
      assert !Needed(needs, s, top);
    }
  }

  /** The largest blocked set: what a dependency-checking server never lets go. */
  ghost predicate LargestBlocked(needs: (string, string) -> bool, ids: set<string>, leftover: set<string>) {
    && leftover <= ids && Blocked(needs, leftover)
    && forall s {:trigger Blocked(needs, s)} :: s <= ids && Blocked(needs, s) ==> s <= leftover
  }

  lemma {:induction false} LeftoverIsLargest(server: Server, needs: (string, string) -> bool, ids: set<string>,
                                             order: seq<string>, at: seq<nat>)
    requires ChecksDependencies(server, needs) && Accepted(server, ids, order, at)
    requires forall x :: x in ids - Elements(order) ==> Refused(server, ids - Elements(order), x)
    ensures LargestBlocked(needs, ids, ids - Elements(order))
  {
    LeftoverIsLargestBlockedSet(server, needs, ids, order, at, {});
    forall s {:trigger Blocked(needs, s)} | s <= ids && Blocked(needs, s)
      ensures s <= ids - Elements(order)
    {
      LeftoverIsLargestBlockedSet(server, needs, ids, order, at, s);
    }
  }

  /**
   Against a dependency-checking server the outcome is independent of the preferred order:
   cleared if and only if no loaded policies block each other, and otherwise exactly the
   largest blocked set is left.
   */
  method ClearAgainstDependencies(preferred: seq<string>, ids: set<string>, server: Server, ghost needs: (string, string) -> bool)
    returns (outcome: Outcome, ghost passes: nat)
    requires ChecksDependencies(server, needs)
    ensures outcome.Cleared? <==> LargestBlocked(needs, ids, {})
    ensures outcome.CouldNotClear? ==> outcome.remaining != {} && LargestBlocked(needs, ids, outcome.remaining)
    ensures outcome.Cleared? ==> outcome.deleted == |ids|
    ensures passes <= |ids|
  {
    ghost var sent;
    outcome, sent, passes := ClearPolicies(preferred, ids, server);
    assert outcome.CouldNotClear? ==>
      forall x :: x in outcome.remaining ==> RefusedDuring(server, outcome.remaining, x, sent.lastPass, sent.asked);
    LeftoverIsLargest(server, needs, ids, sent.order, sent.at);
  }

  /** Without import cycles nothing can be left over. */
  lemma {:induction false} AcyclicClears(needs: (string, string) -> bool, rank: string -> nat, ids: set<string>)
    requires Ranked(needs, rank)
    ensures LargestBlocked(needs, ids, {})
  {
    forall s {:trigger Blocked(needs, s)} | s <= ids && Blocked(needs, s)
      ensures s <= {}
    {
      RankedNeverBlocked(needs, rank, s);
    }
  }

  /**
   Without import cycles the seeding clears everything, in at most |ids| passes, for every
   preferred order.
   */
  method ClearAcyclicPolicies(preferred: seq<string>, ids: set<string>, server: Server,
                              ghost needs: (string, string) -> bool, ghost rank: string -> nat)
    returns (outcome: Outcome, ghost passes: nat)
    requires ChecksDependencies(server, needs) && Ranked(needs, rank)
    ensures outcome == Cleared(|ids|) && passes <= |ids|
  {
    AcyclicClears(needs, rank, ids);
    outcome, passes := ClearAgainstDependencies(preferred, ids, server, needs);
  }
}
