/**
 Attempt numbers derived from persisted Session Lineage links
 (crates/sylvops-core/src/domain.rs:284-312).
 */
module Lineage {
  import opened Wrappers

  type SessionId = nat

  datatype Link = Link(predecessor: SessionId, successor: SessionId)

  predicate Touches(link: Link, id: SessionId) {
    link.predecessor == id || link.successor == id
  }

  predicate Linked(id: SessionId, links: seq<Link>) {
    exists i | 0 <= i < |links| :: Touches(links[i], id)
  }

  /** The position of the first link that names `id` as successor, or the length when there is none. */
  function FirstMatch(id: SessionId, links: seq<Link>): (i: nat)
    ensures i <= |links|
    ensures forall j | 0 <= j < i :: links[j].successor != id
    ensures i < |links| ==> links[i].successor == id
  {
    if links == [] || links[0].successor == id then 0 else 1 + FirstMatch(id, links[1..])
  }

  /** The Session reached after `steps` predecessor lookups, if every lookup finds a link. */
  function Ancestor(id: SessionId, links: seq<Link>, steps: nat): Option<SessionId> {
    if steps == 0 then Some(id)
    else
      match Ancestor(id, links, steps - 1)
      case None => None
      case Some(current) =>
        var i := FirstMatch(current, links);
        if i < |links| then Some(links[i].predecessor) else None
  }

  /** `id` reaches a Session without predecessor after exactly `steps` lookups. */
  predicate ReachesRoot(id: SessionId, links: seq<Link>, steps: nat) {
    Ancestor(id, links, steps).Some? && Ancestor(id, links, steps + 1).None?
  }

  /** The walk comes back to a Session it has already visited. */
  ghost predicate Cycles(id: SessionId, links: seq<Link>) {
    exists i: nat, j: nat :: Repeats(id, links, i, j)
  }

  ghost predicate Repeats(id: SessionId, links: seq<Link>, i: nat, j: nat) {
    i < j && Ancestor(id, links, j).Some? && Ancestor(id, links, i) == Ancestor(id, links, j)
  }

  lemma {:induction false} AncestorsArePrefixClosed(id: SessionId, links: seq<Link>, i: nat, j: nat)
    requires i <= j && Ancestor(id, links, j).Some?
    ensures Ancestor(id, links, i).Some?
  {
    if i < j {
      AncestorsArePrefixClosed(id, links, i, j - 1);
    }
  }

  lemma {:induction false} AncestorsAfterRepeat(id: SessionId, links: seq<Link>, i: nat, j: nat, more: nat)
    requires Ancestor(id, links, i) == Ancestor(id, links, j)
    ensures Ancestor(id, links, i + more) == Ancestor(id, links, j + more)
  {
    if more > 0 {
      AncestorsAfterRepeat(id, links, i, j, more - 1);
      assert i + more - 1 == i + (more - 1) && j + more - 1 == j + (more - 1);
    }
  }

  /** A walk that repeats never ends. */
  lemma {:induction false} RepeatNeverEnds(id: SessionId, links: seq<Link>, i: nat, j: nat, steps: nat)
    requires Repeats(id, links, i, j)
    ensures Ancestor(id, links, steps).Some?
    decreases steps
  {
    if steps <= j {
      AncestorsArePrefixClosed(id, links, steps, j);
    } else {
      RepeatNeverEnds(id, links, i, j, i + (steps - j));
      AncestorsAfterRepeat(id, links, i, j, steps - j);
    }
  }

  /** The links followed by the first `steps` lookups, by position. */
  ghost function Followed(id: SessionId, links: seq<Link>, steps: nat): (r: seq<nat>)
    requires Ancestor(id, links, steps).Some?
    ensures |r| == steps
    ensures forall k | 0 <= k < steps :: r[k] < |links| && Ancestor(id, links, k) == Some(links[r[k]].successor)
  {
    if steps == 0 then []
    else Followed(id, links, steps - 1) + [FirstMatch(Ancestor(id, links, steps - 1).value, links)]
  }

  lemma {:induction false} Pigeonhole(r: seq<nat>, bound: nat)
    requires |r| > bound && forall k | 0 <= k < |r| :: r[k] < bound
    ensures exists i, j :: 0 <= i < j < |r| && r[i] == r[j]
    decreases bound
  {
    var last := |r| - 1;
    var top := r[last];
    if i :| 0 <= i < last && r[i] == top {
    } else {
      // The hole of the last pigeon is free for whoever sits in the highest one.
      var rest := seq(last, k requires 0 <= k < last => if r[k] == bound - 1 then top else r[k]);
      Pigeonhole(rest, bound - 1);
      var i, j :| 0 <= i < j < last && rest[i] == rest[j];
      assert r[i] == r[j];
    }
  }

  /** More lookups than links must follow one link twice. */
  lemma {:induction false} LongWalkCycles(id: SessionId, links: seq<Link>)
    requires Ancestor(id, links, |links| + 1).Some?
    ensures Cycles(id, links)
  {
    var followed := Followed(id, links, |links| + 1);
    Pigeonhole(followed, |links|);
    var i, j :| 0 <= i < j < |followed| && followed[i] == followed[j];
    AncestorsArePrefixClosed(id, links, j, |links| + 1);
    assert Repeats(id, links, i, j);
  }

  /** Either the walk ends at a root after at most as many lookups as there are links, or it cycles. */
  lemma {:induction false} WalkEndsOrCycles(id: SessionId, links: seq<Link>)
    ensures Cycles(id, links) <==> Ancestor(id, links, |links| + 1).Some?
    ensures Cycles(id, links) <==> forall steps: nat :: !ReachesRoot(id, links, steps)
  {
    if Cycles(id, links) {
      var i: nat, j: nat :| Repeats(id, links, i, j);
      forall steps: nat
        ensures !ReachesRoot(id, links, steps)
      {
        RepeatNeverEnds(id, links, i, j, steps + 1);
      }
      RepeatNeverEnds(id, links, i, j, |links| + 1);
    } else if Ancestor(id, links, |links| + 1).Some? {
      LongWalkCycles(id, links);
    } else {
      var root := LastBefore(id, links, |links| + 1);
    }
  }

  lemma {:induction false} LastBefore(id: SessionId, links: seq<Link>, steps: nat) returns (root: nat)
    requires Ancestor(id, links, steps).None?
    ensures root < steps && ReachesRoot(id, links, root)
  {
    if Ancestor(id, links, steps - 1).Some? {
      root := steps - 1;
    } else {
      root := LastBefore(id, links, steps - 1);
    }
  }

  lemma RootIsUnique(id: SessionId, links: seq<Link>, a: nat, b: nat)
    requires ReachesRoot(id, links, a) && ReachesRoot(id, links, b)
    ensures a == b
  {
    if a < b {
      AncestorsArePrefixClosed(id, links, a + 1, b);
    } else if b < a {
      AncestorsArePrefixClosed(id, links, b + 1, a);
    }
  }

  /**
   Some(n) exactly when the Session is linked and reaches a root after n - 1 lookups; None exactly
   when it is unlinked or its predecessors form a cycle. `links.len() + 1` rounds always suffice.
   */
  method SessionAttemptNumber(id: SessionId, links: seq<Link>) returns (r: Option<nat>)
    ensures forall n: nat :: r == Some(n) <==> IsAttempt(id, links, n)
    ensures r.None? <==> !Linked(id, links) || Cycles(id, links)
  {
    WalkEndsOrCycles(id, links);
    if !exists i | 0 <= i < |links| :: Touches(links[i], id) {
      return None;
    }
    var current := id;
    var attempt := 1;
    for round := 0 to |links| + 1
      invariant attempt == round + 1
      invariant Ancestor(id, links, round) == Some(current)
    {
      var i := 0;
      while i < |links| && links[i].successor != current
        invariant 0 <= i <= |links|
        invariant forall j | 0 <= j < i :: links[j].successor != current
      {
        i := i + 1;
      }
      FirstMatchIsUnique(current, links, i);
      if i == |links| {
        AttemptIsUnique(id, links, attempt);
        return Some(attempt);
      }
      current := links[i].predecessor;
      attempt := attempt + 1;
    }
    return None;
  }

  predicate IsAttempt(id: SessionId, links: seq<Link>, n: nat) {
    Linked(id, links) && 1 <= n && ReachesRoot(id, links, n - 1)
  }

  lemma AttemptIsUnique(id: SessionId, links: seq<Link>, n: nat)
    requires IsAttempt(id, links, n)
    ensures forall m: nat :: IsAttempt(id, links, m) ==> m == n
    ensures !Cycles(id, links)
  {
    WalkEndsOrCycles(id, links);
    forall m: nat | IsAttempt(id, links, m)
      ensures m == n
    {
      RootIsUnique(id, links, m - 1, n - 1);
    }
  }

  lemma FirstMatchIsUnique(id: SessionId, links: seq<Link>, i: nat)
    requires i <= |links| && (forall j | 0 <= j < i :: links[j].successor != id)
    requires i < |links| ==> links[i].successor == id
    ensures FirstMatch(id, links) == i
  {
  }

  /** `n` Sessions in a row, each the successor of the one before. */
  function Chain(n: nat): (links: seq<Link>)
    ensures |links| == n
  {
    seq(n, i requires 0 <= i < n => Link(i, i + 1))
  }

  lemma {:induction false} ChainAncestor(n: nat, steps: nat)
    requires steps <= n
    ensures Ancestor(n, Chain(n), steps) == Some(n - steps)
  {
    if steps > 0 {
      ChainAncestor(n, steps - 1);
      FirstMatchIsUnique(n - (steps - 1), Chain(n), n - steps);
    }
  }

  /**
   The bound on the rounds is tight for every number of links: the last Session of a chain reaches its root after
   as many lookups as there are links and no fewer, so a walk of fewer rounds than links plus one does not see it.
   */
  lemma {:induction false} OneRoundFewerIsTooFew(n: nat)
    ensures ReachesRoot(n, Chain(n), n)
    ensures forall steps: nat | steps < n :: !ReachesRoot(n, Chain(n), steps)
    ensures n > 0 ==> IsAttempt(n, Chain(n), n + 1)
  {
    ChainAncestor(n, n);
    FirstMatchIsUnique(0, Chain(n), n);
    forall steps: nat | steps < n
      ensures !ReachesRoot(n, Chain(n), steps)
    {
      ChainAncestor(n, steps + 1);
    }
    assert n > 0 ==> Touches(Chain(n)[n - 1], n);
  }
}
