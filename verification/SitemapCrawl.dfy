/** The sitemap worklist: index files push their children in front of what is left. */
module SitemapCrawl {

  type Url = string

  /** What fetching one address yields for the walk: the same-site children where it is a valid
      index answered with a 2xx, and none otherwise (blocked, failed, or an ordinary sitemap). */
  type Children = Url -> seq<Url>

  const MOST_ARTIFACTS: nat := 3

  function Unseen(urls: seq<Url>, seen: set<Url>): seq<Url> {
    if urls == [] then [] else (if urls[0] in seen then [] else [urls[0]]) + Unseen(urls[1..], seen)
  }

  /** What has been seen once all of `visited` has been walked. */
  function Marked(seen: set<Url>, visited: seq<Url>): set<Url>
    decreases |visited|
  {
    if visited == [] then seen else Marked(seen + {visited[0]}, visited[1..])
  }

  /** The worklist, as the loop runs it. */
  function Work(children: Children, pending: seq<Url>, seen: set<Url>, room: nat): seq<Url>
    decreases room, |pending|
  {
    if pending == [] || room == 0 then []
    else
      var url := pending[0];
      if url in seen then Work(children, pending[1..], seen, room)
      else [url] + Work(children, Unseen(children(url), seen + {url}) + pending[1..], seen + {url}, room - 1)
  }

  /** The walk it is meant to be: each address, then everything under it, then its siblings. */
  function DepthFirst(children: Children, urls: seq<Url>, seen: set<Url>, room: nat): (visited: seq<Url>)
    ensures |visited| <= room
    decreases room, |urls|
  {
    if urls == [] || room == 0 then []
    else
      var url := urls[0];
      if url in seen then DepthFirst(children, urls[1..], seen, room)
      else
        var below := [url] + DepthFirst(children, children(url), seen + {url}, room - 1);
        below + DepthFirst(children, urls[1..], Marked(seen, below), room - |below|)
  }

  /** The same worklist, pushing every child, seen or not. */
  function Plain(children: Children, pending: seq<Url>, seen: set<Url>, room: nat): seq<Url>
    decreases room, |pending|
  {
    if pending == [] || room == 0 then []
    else if pending[0] in seen then Plain(children, pending[1..], seen, room)
    else [pending[0]] + Plain(children, children(pending[0]) + pending[1..], seen + {pending[0]}, room - 1)
  }

  lemma PlainPops(children: Children, url: Url, behind: seq<Url>, seen: set<Url>, room: nat)
    ensures url in seen ==> Plain(children, [url] + behind, seen, room) == Plain(children, behind, seen, room)
    ensures url !in seen && room > 0 ==>
              Plain(children, [url] + behind, seen, room) == [url] + Plain(children, children(url) + behind, seen + {url}, room - 1)
  {
    assert ([url] + behind)[1..] == behind;
  }

  /** Two worklists that agree once their first address is dealt with agree from the start. */
  lemma PopBoth(children: Children, url: Url, less: seq<Url>, all: seq<Url>, seen: set<Url>, room: nat)
    requires url in seen ==> Plain(children, less, seen, room) == Plain(children, all, seen, room)
    requires url !in seen && room > 0 ==>
               Plain(children, children(url) + less, seen + {url}, room - 1) == Plain(children, children(url) + all, seen + {url}, room - 1)
    ensures Plain(children, [url] + less, seen, room) == Plain(children, [url] + all, seen, room)
  {
    PlainPops(children, url, less, seen, room);
    PlainPops(children, url, all, seen, room);
  }

  lemma PullFirst(front: seq<Url>, middle: seq<Url>, rest: seq<Url>)
    requires front != []
    ensures front + middle + rest == [front[0]] + (front[1..] + middle + rest)
  {
  }

  lemma PushFront(below: seq<Url>, front: seq<Url>, middle: seq<Url>, rest: seq<Url>)
    ensures below + (front + middle + rest) == below + front + middle + rest
  {
  }

  lemma FirstUnseen(urls: seq<Url>, known: set<Url>, rest: seq<Url>)
    requires urls != []
    ensures urls + rest == [urls[0]] + (urls[1..] + rest)
    ensures Unseen(urls, known) + rest
              == if urls[0] in known then Unseen(urls[1..], known) + rest else [urls[0]] + (Unseen(urls[1..], known) + rest)
  {
    assert urls == [urls[0]] + urls[1..];
    Regroup([urls[0]], urls[1..], rest);
    var fewer := Unseen(urls[1..], known);
    if urls[0] in known {
      assert Unseen(urls, known) == [] + fewer == fewer;
    } else {
      assert Unseen(urls, known) == [urls[0]] + fewer;
      Regroup([urls[0]], fewer, rest);
    }
  }

  /** Addresses already seen may be left out anywhere in the worklist. */
  lemma {:induction false} SeenMakesNoDifference(children: Children, front: seq<Url>, urls: seq<Url>, known: set<Url>, rest: seq<Url>,
                                                 seen: set<Url>, room: nat)
    requires known <= seen
    ensures Plain(children, front + Unseen(urls, known) + rest, seen, room) == Plain(children, front + urls + rest, seen, room)
    decreases room, |front| + |urls|, 1
  {
    var fewer := Unseen(urls, known);
    if front != [] {
      var url, front' := front[0], front[1..];
      if url in seen {
        SeenMakesNoDifference(children, front', urls, known, rest, seen, room);
      } else if room > 0 {
        SeenMakesNoDifference(children, children(url) + front', urls, known, rest, seen + {url}, room - 1);
        PushFront(children(url), front', fewer, rest);
        PushFront(children(url), front', urls, rest);
      }
      PopBoth(children, url, front' + fewer + rest, front' + urls + rest, seen, room);
      PullFirst(front, fewer, rest);
      PullFirst(front, urls, rest);
    } else {
      assert [] + fewer + rest == fewer + rest && [] + urls + rest == urls + rest;
      SeenInFront(children, urls, known, rest, seen, room);
    }
  }

  lemma {:induction false} SeenInFront(children: Children, urls: seq<Url>, known: set<Url>, rest: seq<Url>, seen: set<Url>, room: nat)
    requires known <= seen
    ensures Plain(children, Unseen(urls, known) + rest, seen, room) == Plain(children, urls + rest, seen, room)
    decreases room, |urls|, 0
  {
    if urls != [] {
      var url, more := urls[0], urls[1..];
      var fewer := Unseen(more, known);
      FirstUnseen(urls, known, rest);
      if url in seen {
        SeenInFront(children, more, known, rest, seen, room);
      } else if room > 0 {
        SeenMakesNoDifference(children, children(url), more, known, rest, seen + {url}, room - 1);
        Regroup(children(url), fewer, rest);
        Regroup(children(url), more, rest);
      }
      PlainPops(children, url, fewer + rest, seen, room);
      PopBoth(children, url, fewer + rest, more + rest, seen, room);
    }
  }

  lemma {:induction false} WorkIsPlain(children: Children, pending: seq<Url>, seen: set<Url>, room: nat)
    ensures Work(children, pending, seen, room) == Plain(children, pending, seen, room)
    decreases room, |pending|
  {
    if pending != [] && room > 0 {
      var url, rest := pending[0], pending[1..];
      if url in seen {
        WorkIsPlain(children, rest, seen, room);
      } else {
        var s' := seen + {url};
        WorkIsPlain(children, Unseen(children(url), s') + rest, s', room - 1);
        SeenMakesNoDifference(children, [], children(url), s', rest, s', room - 1);
        assert [] + Unseen(children(url), s') + rest == Unseen(children(url), s') + rest;
        assert [] + children(url) + rest == children(url) + rest;
      }
    }
  }

  lemma DepthFirstPops(children: Children, url: Url, more: seq<Url>, seen: set<Url>, room: nat)
    requires room > 0
    ensures url in seen ==> DepthFirst(children, [url] + more, seen, room) == DepthFirst(children, more, seen, room)
    ensures url !in seen ==>
              var below := [url] + DepthFirst(children, children(url), seen + {url}, room - 1);
              DepthFirst(children, [url] + more, seen, room) == below + DepthFirst(children, more, Marked(seen, below), room - |below|)
  {
    assert ([url] + more)[1..] == more;
  }

  lemma SeenBelow(url: Url, under: seq<Url>, seen: set<Url>)
    ensures Marked(seen, [url] + under) == Marked(seen + {url}, under)
  {
    assert ([url] + under)[1..] == under;
  }

  lemma {:induction false} SeenAfter(below: seq<Url>, after: seq<Url>, seen: set<Url>)
    ensures Marked(seen, below + after) == Marked(Marked(seen, below), after)
  {
    if below == [] {
      assert below + after == after;
    } else {
      SeenAfter(below[1..], after, seen + {below[0]});
      assert (below + after)[1..] == below[1..] + after;
    }
  }

  lemma Unwind(url: Url, under: seq<Url>, after: seq<Url>, last: seq<Url>, behind: seq<Url>, whole: seq<Url>)
    requires whole == under + behind && behind == after + last
    ensures [url] + whole == [url] + under + after + last
  {
  }

  /** What is in front of the worklist is walked to its end before what is behind it. */
  lemma {:induction false} PlainIsDepthFirst(children: Children, urls: seq<Url>, rest: seq<Url>, seen: set<Url>, room: nat)
    ensures var v := DepthFirst(children, urls, seen, room);
            Plain(children, urls + rest, seen, room) == v + Plain(children, rest, Marked(seen, v), room - |v|)
    decreases room, |urls|, 1
  {
    if urls == [] {
      assert urls + rest == rest;
    } else if room > 0 {
      var url, more := urls[0], urls[1..];
      assert urls == [url] + more;
      Regroup([url], more, rest);
      PlainPops(children, url, more + rest, seen, room);
      DepthFirstPops(children, url, more, seen, room);
      if url in seen {
        PlainIsDepthFirst(children, more, rest, seen, room);
      } else {
        NewPageFirst(children, url, more, rest, seen, room);
      }
    }
  }

  lemma {:induction false} NewPageFirst(children: Children, url: Url, more: seq<Url>, rest: seq<Url>, seen: set<Url>, room: nat)
    requires room > 0
    ensures var below := [url] + DepthFirst(children, children(url), seen + {url}, room - 1);
            var v := below + DepthFirst(children, more, Marked(seen, below), room - |below|);
            [url] + Plain(children, children(url) + (more + rest), seen + {url}, room - 1)
              == v + Plain(children, rest, Marked(seen, v), room - |v|)
    decreases room, |more|, 2
  {
    var under := DepthFirst(children, children(url), seen + {url}, room - 1);
    var below := [url] + under;
    PlainIsDepthFirst(children, children(url), more + rest, seen + {url}, room - 1);
    SeenBelow(url, under, seen);
    PlainIsDepthFirst(children, more, rest, Marked(seen, below), room - |below|);
    var after := DepthFirst(children, more, Marked(seen, below), room - |below|);
    SeenAfter(below, after, seen);
    var left := room - |below|;
    assert left - |after| == room - |below + after|;
    Unwind(url, under, after, Plain(children, rest, Marked(seen, below + after), left - |after|),
           Plain(children, more + rest, Marked(seen, below), left), Plain(children, children(url) + (more + rest), seen + {url}, room - 1));
  }

  lemma Regroup(a: seq<Url>, b: seq<Url>, c: seq<Url>)
    ensures a + (b + c) == a + b + c
  {
  }

  lemma {:induction false} VisitedAreNew(children: Children, pending: seq<Url>, seen: set<Url>, room: nat)
    ensures var v := Work(children, pending, seen, room);
            && |v| <= room
            && (forall n :: 0 <= n < |v| ==> v[n] !in seen)
            && (forall m, n :: 0 <= m < n < |v| ==> v[m] != v[n])
    decreases room, |pending|
  {
    if pending != [] && room > 0 {
      var url := pending[0];
      if url in seen {
        VisitedAreNew(children, pending[1..], seen, room);
      } else {
        VisitedAreNew(children, Unseen(children(url), seen + {url}) + pending[1..], seen + {url}, room - 1);
      }
    }
  }

  /** The worklist is the depth-first walk, and asks for nothing twice. */
  lemma WorklistIsDepthFirst(children: Children, targets: seq<Url>, room: nat)
    ensures Work(children, targets, {}, room) == DepthFirst(children, targets, {}, room)
    ensures var v := Work(children, targets, {}, room);
            |v| <= room && forall m, n :: 0 <= m < n < |v| ==> v[m] != v[n]
  {
    VisitedAreNew(children, targets, {}, room);
    WorkIsPlain(children, targets, {}, room);
    PlainIsDepthFirst(children, targets, [], {}, room);
    assert targets + [] == targets;
  }

  /** The loop ends although index files push onto its worklist, asks for at most three
      addresses and none twice, and asks for them in depth-first order. */
  method Crawl(children: Children, targets: seq<Url>) returns (artifacts: seq<Url>)
    ensures |artifacts| <= MOST_ARTIFACTS
    ensures forall m, n :: 0 <= m < n < |artifacts| ==> artifacts[m] != artifacts[n]
    ensures artifacts == DepthFirst(children, targets, {}, MOST_ARTIFACTS)
  {
    var pending, seen := targets, {};
    artifacts := [];
    while pending != [] && |artifacts| < MOST_ARTIFACTS
      invariant |artifacts| <= MOST_ARTIFACTS
      invariant artifacts + Work(children, pending, seen, MOST_ARTIFACTS - |artifacts|) == Work(children, targets, {}, MOST_ARTIFACTS)
      decreases MOST_ARTIFACTS - |artifacts|, |pending|
    {
      var url := pending[0];
      Regroup(artifacts, [url], Work(children, Unseen(children(url), seen + {url}) + pending[1..], seen + {url}, MOST_ARTIFACTS - |artifacts| - 1));
      pending := pending[1..];
      if url in seen { continue; }
      seen := seen + {url};
      artifacts := artifacts + [url];
      pending := Unseen(children(url), seen) + pending;
    }
    assert artifacts == Work(children, targets, {}, MOST_ARTIFACTS);
    WorklistIsDepthFirst(children, targets, MOST_ARTIFACTS);
  }
}
