/** `GitHub.ListStatuses`: the newest status per context, read from a paged history
    that lists every status ever posted on a commit, newest first. */
module Statuses {
  import opened Common
  import G = Gate
  import Safety = LifecycleSafety

  /** What page `page` (from 1) of a history answers. */
  function Page(h: seq<G.Post>, page: nat): seq<G.Post>
    requires page > 0
  {
    h[Min(100 * (page - 1), |h|)..Min(100 * page, |h|)]
  }

  function Contexts(h: seq<G.Post>): set<Context> { set e | e in h :: e.context }

  /** The first entry of each context, in order. */
  function FirstPerContext(h: seq<G.Post>): seq<G.Post> {
    if h == [] then [] else
      var n := |h| - 1;
      FirstPerContext(h[..n]) + if h[n].context in Contexts(h[..n]) then [] else [h[n]]
  }

  /** Whether one of the pages that get requested fails: a later page is requested only
      when every page before it was full. */
  predicate RequestFails(h: seq<G.Post>, answers: seq<bool>)
    requires |answers| == 3
  {
    !answers[0] || (|h| >= 100 && !answers[1]) || (|h| >= 200 && !answers[2])
  }

  /** What is known after the first n entries have been read. */
  predicate ReadSoFar(h: seq<G.Post>, n: nat, seen: set<Context>, out: seq<G.Post>) {
    n <= |h| && seen == Contexts(h[..n]) && out == FirstPerContext(h[..n])
  }

  lemma AllRead(h: seq<G.Post>, n: nat, seen: set<Context>, out: seq<G.Post>)
    requires ReadSoFar(h, n, seen, out) && n == Min(300, |h|)
    ensures out == FirstPerContext(h[..Min(300, |h|)])
  {
  }

  /** Pages of 100, at most three, stopping after a short one. `answers` says which of
      the three requests would succeed. */
  method ListStatuses(h: seq<G.Post>, answers: seq<bool>) returns (r: Option<seq<G.Post>>)
    requires |answers| == 3
    ensures r.None? <==> RequestFails(h, answers)
    ensures r.Some? ==> r.value == FirstPerContext(h[..Min(300, |h|)])
  {
    var seen: set<Context> := {};
    var out: seq<G.Post> := [];
    ghost var start := 0;
    assert ReadSoFar(h, 0, seen, out);
    hide ReadSoFar, Page, FirstPerContext;
    for page := 1 to 4
      invariant start == 100 * (page - 1) <= |h|
      invariant forall p | 0 <= p < page - 1 :: answers[p]
      invariant ReadSoFar(h, start, seen, out)
    {
      if !answers[page - 1] { return None; }
      var raw := Page(h, page);
      PageFollows(h, page);
      seen, out := AddPage(h, start, raw, seen, out);
      start := start + |raw|;
      if |raw| < 100 {
        AllRead(h, start, seen, out);
        return Some(out);
      }
    }
    AllRead(h, start, seen, out);
    return Some(out);
  }

  lemma PageFollows(h: seq<G.Post>, page: nat)
    requires page > 0 && |h| >= 100 * (page - 1)
    ensures var start, raw := 100 * (page - 1), Page(h, page);
            |raw| == Min(100, |h| - start) && raw == h[start..start + |raw|]
  {
  }

  /** The loop over one page's entries, the first of which is entry `start`. */
  method AddPage(ghost h: seq<G.Post>, ghost start: nat, raw: seq<G.Post>, known: set<Context>, listed: seq<G.Post>)
    returns (seen: set<Context>, out: seq<G.Post>)
    requires start + |raw| <= |h| && raw == h[start..start + |raw|] && ReadSoFar(h, start, known, listed)
    ensures ReadSoFar(h, start + |raw|, seen, out)
  {
    hide Contexts, FirstPerContext;
    seen, out := known, listed;
    for i := 0 to |raw|
      invariant ReadSoFar(h, start + i, seen, out)
    {
      OneMore(h[..start + i], raw[i]);
      assert h[..start + (i + 1)] == h[..start + i] + [raw[i]];
      if raw[i].context !in seen {
        seen := seen + {raw[i].context};
        out := out + [raw[i]];
      }
    }
  }

  lemma OneMore(h: seq<G.Post>, st: G.Post)
    ensures Contexts(h + [st]) == Contexts(h) + {st.context}
    ensures FirstPerContext(h + [st]) ==
            FirstPerContext(h) + if st.context in Contexts(h) then [] else [st]
  {
    assert (h + [st])[..|h|] == h;
    assert st in h + [st];
    assert forall e | e in h :: e in h + [st];
  }

  /** Entry i is e, and nothing before it is about the same context. */
  predicate FirstAt(h: seq<G.Post>, i: nat, e: G.Post) {
    i < |h| && h[i] == e && forall j | 0 <= j < i :: h[j].context != e.context
  }

  lemma FirstAtShorter(h: seq<G.Post>, e: G.Post, i: nat)
    requires h != [] && i < |h| - 1
    ensures FirstAt(h, i, e) <==> FirstAt(h[..|h| - 1], i, e)
  {
  }

  lemma FirstAtBound(h: seq<G.Post>, e: G.Post)
    ensures forall i: nat | FirstAt(h, i, e) :: i < |h|
  {
  }

  lemma NothingFirst(e: G.Post)
    ensures FirstPerContext([]) == []
  {
  }

  /** The last entry counts exactly when its context is new. */
  lemma LastIsFirst(h: seq<G.Post>, e: G.Post)
    requires h != []
    ensures var n := |h| - 1; FirstAt(h, n, e) <==> h[n] == e && e.context !in Contexts(h[..n])
  {
    var n := |h| - 1;
    assert forall j | 0 <= j < n :: h[j] == h[..n][j] && h[j] in h[..n];
    if h[n] == e && e.context in Contexts(h[..n]) {
      var seen :| seen in h[..n] && seen.context == e.context;
    }
  }

  lemma FirstPerContextGrows(h: seq<G.Post>, e: G.Post)
    requires h != []
    ensures var n := |h| - 1;
            e in FirstPerContext(h) <==>
            e in FirstPerContext(h[..n]) || (e == h[n] && e.context !in Contexts(h[..n]))
  {
    hide Contexts;
  }

  /** One entry per mentioned context, and it is that context's first in the history. */
  lemma {:induction false} FirstPerContextExact(h: seq<G.Post>, e: G.Post)
    ensures e in FirstPerContext(h) <==> exists i: nat :: FirstAt(h, i, e)
  {
    hide FirstAt, FirstPerContext, Contexts;
    FirstAtBound(h, e);
    if h != [] {
      var n := |h| - 1;
      FirstPerContextExact(h[..n], e);
      FirstPerContextGrows(h, e);
      LastIsFirst(h, e);
      FirstAtBound(h[..n], e);
      forall i: nat | i < n ensures FirstAt(h, i, e) <==> FirstAt(h[..n], i, e) { FirstAtShorter(h, e, i); }
    } else {
      NothingFirst(e);
    }
  }

  function Reverse(posts: seq<G.Post>): seq<G.Post> {
    if posts == [] then [] else [posts[|posts| - 1]] + Reverse(posts[..|posts| - 1])
  }

  lemma FirstAtLater(st: G.Post, h: seq<G.Post>, e: G.Post, i: nat)
    ensures FirstAt([st] + h, i + 1, e) <==> e.context != st.context && FirstAt(h, i, e)
    ensures FirstAt([st] + h, 0, e) <==> e == st
  {
    var all := [st] + h;
    assert all[0] == st && forall j | 0 <= j < |h| :: all[j + 1] == h[j];
    assert i < |h| ==> forall j | 0 < j < i + 1 :: all[j] == h[j - 1];
  }

  /** The first entry of a context in a history that starts with `st`. */
  lemma FirstAfter(st: G.Post, h: seq<G.Post>, e: G.Post)
    ensures e in FirstPerContext([st] + h) <==> e == st || (e.context != st.context && e in FirstPerContext(h))
  {
    FirstPerContextExact([st] + h, e);
    FirstPerContextExact(h, e);
    forall i: nat
      ensures FirstAt([st] + h, i + 1, e) <==> e.context != st.context && FirstAt(h, i, e)
      ensures FirstAt([st] + h, 0, e) <==> e == st
    {
      FirstAtLater(st, h, e, i);
    }
    hide FirstAt, FirstPerContext;
    if e in FirstPerContext([st] + h) {
      var i: nat :| FirstAt([st] + h, i, e);
      if i > 0 { assert FirstAt([st] + h, (i - 1) + 1, e) && FirstAt(h, i - 1, e); }
    }
    if e == st { assert FirstAt([st] + h, 0, e); }
    if e.context != st.context && e in FirstPerContext(h) {
      var i: nat :| FirstAt(h, i, e);
      assert FirstAt([st] + h, i + 1, e);
    }
  }

  lemma ReverseGrows(posts: seq<G.Post>)
    ensures posts != [] ==> Reverse(posts) == [posts[|posts| - 1]] + Reverse(posts[..|posts| - 1])
    ensures posts == [] ==> Reverse(posts) == []
  {
  }

  lemma NothingListed(context: Context)
    ensures FirstPerContext([]) == [] && Safety.Latest([], context) == None
  {
  }

  /** Listing a history of at most 300 posts returns, per context, exactly the last
      status posted: a context is listed pending just when it is pending. */
  lemma {:induction false} ListedIsLatest(posts: seq<G.Post>, context: Context, status: Status)
    ensures G.Post(context, status) in FirstPerContext(Reverse(posts)) <==>
            Safety.Latest(posts, context) == Some(status)
  {
    hide FirstPerContext, Reverse, Safety.Latest;
    ReverseGrows(posts);
    if posts != [] {
      var n := |posts| - 1;
      ListedIsLatest(posts[..n], context, status);
      FirstAfter(posts[n], Reverse(posts[..n]), G.Post(context, status));
      Safety.LatestAppend(posts[..n], posts[n], context);
      assert posts == posts[..n] + [posts[n]];
    } else {
      NothingListed(context);
    }
  }

  /** A context is listed exactly when its newest entry is among the first 300 of the
      history; beyond that it is missed altogether. */
  lemma OldContextsAreMissed(h: seq<G.Post>, i: nat, e: G.Post)
    requires FirstAt(h, i, e)
    ensures e in FirstPerContext(h)
    ensures e in FirstPerContext(h[..Min(300, |h|)]) <==> i < 300
  {
    var read := h[..Min(300, |h|)];
    FirstPerContextExact(h, e);
    FirstPerContextExact(read, e);
    if i < 300 { assert FirstAt(read, i, e); }
    assert forall j: nat | FirstAt(read, j, e) :: h[j] == e && j >= i;
  }
}
