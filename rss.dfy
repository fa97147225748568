/**
 * `fetch_new_posts`: the first three entries of each feed become candidates,
 * candidates whose link was posted before are dropped, the links of the rest
 * are recorded, and the rest are returned. `post_news` then broadcasts only the
 * first of them.
 */
module Rss {
  import opened Wrappers
  import opened PostedLinks

  /** The three feed addresses, in the order they are read. */
  const FeedUrls: seq<string> := [
    "https://fishering.ru/feed/",
    "https://ribakov.net/feed/",
    "https://www.rybolov-elit.ru/feed/"
  ]

  /** Entries taken from each feed. */
  const PerFeed: nat := 3

  /** A parsed feed entry; a missing attribute is `None`. */
  datatype Entry = Entry(title: Option<string>, summary: Option<string>, link: Option<string>, published: Option<string>)

  /** What reading one feed address gives: its entries, or an exception from the parser. */
  datatype Feed = ParseError | Parsed(entries: seq<Entry>)

  /** A candidate post, as the dictionary built for each entry. */
  datatype Post = Post(title: string, summary: string, link: string, published: string)

  /**
   * The dictionary for one entry. Reading a missing `title`, `summary` or `link`
   * raises; a missing `published` becomes "".
   */
  function ToPost(e: Entry): (p: Option<Post>)
    ensures p.Some? <==> e.title.Some? && e.summary.Some? && e.link.Some?
    ensures p.Some? ==> p.value.link == e.link.value
  {
    if e.title.Some? && e.summary.Some? && e.link.Some? then
      Some(Post(e.title.value, e.summary.value, e.link.value,
                if e.published.Some? then e.published.value else ""))
    else None
  }

  /** The posts built from `es` before the first entry that raises. */
  function UntilFailure(es: seq<Entry>): (ps: seq<Post>)
    ensures |ps| <= |es|
  {
    if es == [] then []
    else match ToPost(es[0])
      case None => []
      case Some(p) => [p] + UntilFailure(es[1..])
  }

  /**
   * An entry that raises ends its feed: the posts are those of the entries
   * before it, in order, and the entry right after them is the one that raised.
   */
  lemma {:induction false} UntilFailureStopsAtFailure(es: seq<Entry>)
    ensures forall i :: 0 <= i < |UntilFailure(es)| ==> ToPost(es[i]) == Some(UntilFailure(es)[i])
    ensures |UntilFailure(es)| < |es| ==> ToPost(es[|UntilFailure(es)|]).None?
  {
    if es != [] && ToPost(es[0]).Some? {
      UntilFailureStopsAtFailure(es[1..]);
      var rest := UntilFailure(es[1..]);
      assert UntilFailure(es) == [ToPost(es[0]).value] + rest;
      forall i | 1 <= i < |UntilFailure(es)| ensures ToPost(es[i]) == Some(UntilFailure(es)[i]) {
        assert es[1..][i - 1] == es[i];
      }
      if |UntilFailure(es)| < |es| {
        assert es[1..][|rest|] == es[|rest| + 1];
      }
    }
  }

  /** The first three entries of a list (all of them if there are fewer). */
  function FirstEntries(es: seq<Entry>): (first: seq<Entry>)
    ensures |first| <= PerFeed && first <= es
    ensures |es| >= PerFeed ==> |first| == PerFeed
    ensures |es| <= PerFeed ==> first == es
  {
    if |es| <= PerFeed then es else es[..PerFeed]
  }

  /** The candidates contributed by one feed. */
  function FeedCandidates(f: Feed): (ps: seq<Post>)
    ensures |ps| <= PerFeed
  {
    match f
    case ParseError => []
    case Parsed(es) => UntilFailure(FirstEntries(es))
  }

  /** The candidates of all feeds, feed by feed in order. */
  function Candidates(feeds: seq<Feed>): (cs: seq<Post>)
    ensures |cs| <= PerFeed * |feeds|
  {
    if feeds == [] then []
    else Candidates(feeds[..|feeds| - 1]) + FeedCandidates(feeds[|feeds| - 1])
  }

  /** The candidates whose link is not in `posted`, in their order. */
  function NotPosted(cs: seq<Post>, posted: set<string>): (r: seq<Post>)
    ensures |r| <= |cs|
  {
    if cs == [] then []
    else
      var last := cs[|cs| - 1];
      NotPosted(cs[..|cs| - 1], posted) + (if last.link in posted then [] else [last])
  }

  /** `[c for c in cs if c["link"] in ls]`. */
  function LinkIn(cs: seq<Post>, ls: seq<string>): (r: seq<Post>)
    ensures |r| <= |cs|
  {
    if cs == [] then []
    else
      var last := cs[|cs| - 1];
      LinkIn(cs[..|cs| - 1], ls) + (if last.link in ls then [last] else [])
  }

  function Links(ps: seq<Post>): (ls: seq<string>)
    ensures |ls| == |ps|
    ensures forall i :: 0 <= i < |ps| ==> ls[i] == ps[i].link
  {
    if ps == [] then [] else Links(ps[..|ps| - 1]) + [ps[|ps| - 1].link]
  }

  // ---------------------------------------------------------------------------
  // The filter

  /** A post is kept exactly when it is a candidate whose link is not posted. */
  lemma {:induction false} NotPostedMembers(cs: seq<Post>, posted: set<string>, p: Post)
    ensures p in NotPosted(cs, posted) <==> p in cs && p.link !in posted
  {
    if cs != [] {
      NotPostedMembers(cs[..|cs| - 1], posted, p);
      assert cs == cs[..|cs| - 1] + [cs[|cs| - 1]];
    }
  }

  /** Filtering by two predicates that agree on every candidate gives the same list. */
  lemma {:induction false} LinkInAgrees(cs: seq<Post>, ls: seq<string>, posted: set<string>)
    requires forall c :: c in cs ==> (c.link in ls <==> c.link !in posted)
    ensures LinkIn(cs, ls) == NotPosted(cs, posted)
  {
    if cs != [] {
      LinkInAgrees(cs[..|cs| - 1], ls, posted);
    }
  }

  /**
   * Keeping the candidates whose link is among the new links, as the second
   * comprehension does, is the same as keeping the unposted candidates: a
   * candidate sharing its link with a new one is itself new.
   */
  lemma NewPostsAreUnposted(cs: seq<Post>, posted: set<string>)
    ensures LinkIn(cs, Links(NotPosted(cs, posted))) == NotPosted(cs, posted)
  {
    var unseen := NotPosted(cs, posted);
    forall c | c in cs ensures c.link in Links(unseen) <==> c.link !in posted {
      if c.link !in posted {
        NotPostedMembers(cs, posted, c);
        var i :| 0 <= i < |unseen| && unseen[i] == c;
        assert Links(unseen)[i] == c.link;
      } else if c.link in Links(unseen) {
        var i :| 0 <= i < |unseen| && Links(unseen)[i] == c.link;
        assert unseen[i] in unseen;
        NotPostedMembers(cs, posted, unseen[i]);
        assert false;
      }
    }
    LinkInAgrees(cs, Links(unseen), posted);
  }

  /** Once the new links are recorded, the same candidates give nothing new. */
  lemma SecondFetchFindsNothing(cs: seq<Post>, posted: set<string>)
    ensures NotPosted(cs, posted + LinkSet(Links(NotPosted(cs, posted)))) == []
  {
    var unseen := NotPosted(cs, posted);
    var after := posted + LinkSet(Links(unseen));
    if NotPosted(cs, after) != [] {
      var p := NotPosted(cs, after)[0];
      NotPostedMembers(cs, after, p);
      NotPostedMembers(cs, posted, p);
      assert false;
    }
  }

  /** Candidates sharing one unposted link are all returned. */
  lemma DuplicateLinksAllReturned(p: Post, q: Post)
    requires p.link == q.link && p != q
    ensures NotPosted([p, q], {}) == [p, q]
  {
    assert [p, q][..1] == [p];
    assert [p][..0] == [];
  }

  // ---------------------------------------------------------------------------
  // The job

  /** The inner loop: up to three entries of one feed, until one raises. */
  method FeedPosts(first: seq<Entry>) returns (feedPosts: seq<Post>)
    ensures feedPosts == UntilFailure(first)
  {
    feedPosts := [];
    var j := 0;
    while j < |first|
      invariant 0 <= j <= |first|
      invariant UntilFailure(first) == feedPosts + UntilFailure(first[j..])
    {
      var p := ToPost(first[j]);
      if p.None? {
        break;
      }
      assert first[j..][1..] == first[j + 1..];
      feedPosts := feedPosts + [p.value];
      j := j + 1;
    }
  }

  /** The loop over the feeds; a parse error skips the feed. */
  method CollectCandidates(feeds: seq<Feed>) returns (candidates: seq<Post>)
    ensures candidates == Candidates(feeds)
  {
    candidates := [];
    var i := 0;
    while i < |feeds|
      invariant 0 <= i <= |feeds|
      invariant candidates == Candidates(feeds[..i])
    {
      assert feeds[..i + 1][..i] == feeds[..i];
      if feeds[i].Parsed? {
        var feedPosts := FeedPosts(FirstEntries(feeds[i].entries));
        candidates := candidates + feedPosts;
      }
      i := i + 1;
    }
    assert feeds[..i] == feeds;
  }

  /** The first comprehension: the links of the candidates `was_posted` rejects, in order. */
  method NewLinks(store: LinkStore, candidates: seq<Post>) returns (newLinks: seq<string>)
    requires store.tableExists
    ensures newLinks == Links(NotPosted(candidates, store.links))
  {
    newLinks := [];
    var k := 0;
    while k < |candidates|
      invariant 0 <= k <= |candidates|
      invariant newLinks == Links(NotPosted(candidates[..k], store.links))
    {
      assert candidates[..k + 1][..k] == candidates[..k];
      var seen := store.WasPosted(candidates[k].link);
      if !seen {
        newLinks := newLinks + [candidates[k].link];
      }
      k := k + 1;
    }
    assert candidates[..k] == candidates;
  }

  /** `fetch_new_posts`, reading `FeedUrls` with the outcomes `feeds`. */
  method FetchNewPosts(store: LinkStore, feeds: seq<Feed>) returns (newPosts: seq<Post>)
    requires store.tableExists
    requires |feeds| == |FeedUrls|
    modifies store`links
    ensures newPosts == NotPosted(Candidates(feeds), old(store.links))
    ensures |newPosts| <= PerFeed * |FeedUrls| == 9
    ensures store.links == old(store.links) + LinkSet(Links(newPosts))
  {
    var candidates := CollectCandidates(feeds);
    var newLinks := NewLinks(store, candidates);
    newPosts := LinkIn(candidates, newLinks);
    NewPostsAreUnposted(candidates, store.links);
    if |newLinks| > 0 {
      store.MarkPosted(newLinks);
    }
  }

  /** `post_news`: fetches, and broadcasts the first new post if there is one. */
  method PostNews(store: LinkStore, feeds: seq<Feed>) returns (sent: Option<Post>, recorded: seq<Post>)
    requires store.tableExists
    requires |feeds| == |FeedUrls|
    modifies store`links
    ensures recorded == NotPosted(Candidates(feeds), old(store.links))
    ensures sent == if recorded == [] then None else Some(recorded[0])
    ensures store.links == old(store.links) + LinkSet(Links(recorded))
  {
    recorded := FetchNewPosts(store, feeds);
    if recorded == [] {
      return None, recorded;
    }
    sent := Some(recorded[0]);
  }
}
