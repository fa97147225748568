/**
 * The `posted_links` table of the feed poster: a set of links with `link` as
 * primary key, created if missing, queried by membership and grown with
 * insert-or-ignore. Nothing ever deletes a link.
 */
module PostedLinks {

  /** The links of `ls` as a set: what `mark_posted(ls)` inserts. */
  function LinkSet(ls: seq<string>): (s: set<string>)
    ensures forall l :: l in s <==> l in ls
  {
    set l | l in ls
  }

  class LinkStore {
    /** Whether `CREATE TABLE posted_links` has run on this database file. */
    var tableExists: bool
    /** The rows of `posted_links`; the primary key makes each link appear once. */
    var links: set<string>

    /** A database file with no table yet. */
    constructor ()
      ensures !tableExists && links == {}
    {
      tableExists := false;
      links := {};
    }

    /** `init_db`: creates the table if it does not exist and keeps every stored link. */
    method InitDb()
      modifies this
      ensures tableExists && links == old(links)
    {
      tableExists := true;
    }

    /** `was_posted(link)`. */
    method WasPosted(link: string) returns (posted: bool)
      requires tableExists
      ensures posted <==> link in links
    {
      posted := link in links;
    }

    /** `mark_posted(ls)`: inserts every link, ignoring the ones already stored. */
    method MarkPosted(ls: seq<string>)
      requires tableExists
      modifies this`links
      ensures links == old(links) + LinkSet(ls)
    {
      var i := 0;
      while i < |ls|
        invariant 0 <= i <= |ls|
        invariant links == old(links) + LinkSet(ls[..i])
      {
        links := links + {ls[i]};
        i := i + 1;
        assert LinkSet(ls[..i]) == LinkSet(ls[..i - 1]) + {ls[i - 1]};
      }
      assert ls[..i] == ls;
    }
  }

  /** Inserting the same links twice stores what inserting them once does. */
  lemma MarkTwiceIsMarkOnce(links: set<string>, ls: seq<string>)
    ensures links + LinkSet(ls) + LinkSet(ls) == links + LinkSet(ls)
  {
  }

  /** After `init_db` twice and a round of inserts, stored links are still there and new ones are found. */
  method StoreScenario(first: seq<string>, second: seq<string>, l: string)
  {
    var store := new LinkStore();
    store.InitDb();
    store.MarkPosted(first);
    store.InitDb();
    store.MarkPosted([]);
    store.MarkPosted(second);
    var found := store.WasPosted(l);
    assert found <==> l in first || l in second;
  }
}
