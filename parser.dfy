/**
  The state update of src/parser.js: posts of a parsed document whose link is
  new are prepended, and the channel is recorded once per title.  Reading the
  XML is outside the model; the document arrives already taken apart.
 */
module Parser {
  import opened Wrappers

  datatype Post = Post(title: string, link: string)
  datatype Feed = Feed(title: string, description: string)

  /**
    A document after parsing: rejected with the parser's message, or its
    channel title, description and items.
   */
  datatype Document = Rejected(message: string) | Rss(title: string, description: string, items: seq<Post>)

  const RenderingPhase := "rendering"

  /** `data.findIndex(p)`: the first index whose element satisfies `p`, or -1. */
  function FindIndex<T>(data: seq<T>, p: T -> bool): (r: int)
    ensures -1 <= r < |data|
    ensures r == -1 <==> forall i :: 0 <= i < |data| ==> !p(data[i])
    ensures 0 <= r ==> p(data[r]) && forall i :: 0 <= i < r ==> !p(data[i])
  {
    if data == [] then -1
    else if p(data[0]) then 0
    else
      var k := FindIndex(data[1..], p);
      assert forall i :: 1 <= i < |data| ==> data[i] == data[1..][i - 1];
      if k == -1 then -1 else k + 1
  }

  /** `isIn(data, key, value)`: despite its name, true exactly when NO element has `key` equal to `value`. */
  function IsIn<T, K(==)>(data: seq<T>, key: T -> K, value: K): (r: bool)
    ensures r <==> forall i :: 0 <= i < |data| ==> key(data[i]) != value
  {
    FindIndex(data, el => key(el) == value) == -1
  }

  function PostLink(p: Post): string { p.link }
  function FeedTitle(f: Feed): string { f.title }

  function LinksOf(posts: seq<Post>): set<string> {
    set p | p in posts :: p.link
  }

  /** The items of a document kept by `.filter(({ link }) => isIn(state.posts, 'link', link))`. */
  function KeepNew(items: seq<Post>, posts: seq<Post>): (r: seq<Post>)
    ensures forall x :: x in r <==> x in items && x.link !in LinksOf(posts)
    ensures multiset(r) <= multiset(items)
    ensures forall x :: multiset(r)[x] == if x.link in LinksOf(posts) then 0 else multiset(items)[x]
  {
    if items == [] then []
    else
      assert items == [items[0]] + items[1..];
      var rest := KeepNew(items[1..], posts);
      var keep := IsIn(posts, PostLink, items[0].link);
      assert keep <==> items[0].link !in LinksOf(posts) by {
        if !keep {
          var i :| 0 <= i < |posts| && PostLink(posts[i]) == items[0].link;
          assert posts[i] in posts;
        }
      }
      if keep then [items[0]] + rest else rest
  }

  /** Whether the record of feeds lists no title twice. */
  ghost predicate TitlesDistinct(feeds: seq<Feed>) {
    forall i, j :: 0 <= i < j < |feeds| ==> feeds[i].title != feeds[j].title
  }

  /** When every item's link is already among the posts, nothing is kept. */
  lemma KeepNewCovered(items: seq<Post>, posts: seq<Post>)
    requires forall x :: x in items ==> x.link in LinksOf(posts)
    ensures KeepNew(items, posts) == []
  {
    if KeepNew(items, posts) != [] {
      assert KeepNew(items, posts)[0] in KeepNew(items, posts);
    }
  }

  /** Parsing the same document again, after it has been applied, keeps nothing and adds no feed. */
  lemma ReparseAddsNothing(items: seq<Post>, posts: seq<Post>, feeds: seq<Feed>, title: string, description: string)
    ensures KeepNew(items, KeepNew(items, posts) + posts) == []
    ensures !IsIn(if IsIn(feeds, FeedTitle, title) then feeds + [Feed(title, description)] else feeds, FeedTitle, title)
  {
    var after := KeepNew(items, posts) + posts;
    forall x | x in items ensures x.link in LinksOf(after) {
      if x in KeepNew(items, posts) {
        assert x in after;
      } else {
        var p :| p in posts && p.link == x.link;
        assert p in after;
      }
    }
    KeepNewCovered(items, after);
    var feeds' := if IsIn(feeds, FeedTitle, title) then feeds + [Feed(title, description)] else feeds;
    if IsIn(feeds, FeedTitle, title) {
      assert FeedTitle(feeds'[|feeds|]) == title;
    }
  }

  /** The `state` record that `parseData` updates. */
  class ChannelState {
    var posts: seq<Post>
    var feeds: seq<Feed>
    var phase: string

    ghost predicate Valid()
      reads this
    {
      TitlesDistinct(feeds)
    }

    constructor (phase: string)
      ensures Valid() && posts == [] && feeds == [] && this.phase == phase
    {
      posts, feeds, this.phase := [], [], phase;
    }

    /**
      `parseData(state, feed)` once the document is read.  A rejected
      document makes it throw (the message is returned) before anything is
      touched.  Otherwise the posts with a new link are prepended, and the
      channel is appended to the feeds, with the phase set to rendering,
      only when no feed has its title.
     */
    method ParseData(doc: Document) returns (thrown: Option<string>)
      requires Valid()
      modifies this
      ensures Valid()
      ensures doc.Rejected? ==> thrown == Some(doc.message) && posts == old(posts) && feeds == old(feeds) && phase == old(phase)
      ensures doc.Rss? ==> thrown == None && posts == KeepNew(doc.items, old(posts)) + old(posts)
      ensures doc.Rss? && (forall f :: f in old(feeds) ==> f.title != doc.title) ==>
        feeds == old(feeds) + [Feed(doc.title, doc.description)] && phase == RenderingPhase
      ensures doc.Rss? && (exists f :: f in old(feeds) && f.title == doc.title) ==>
        feeds == old(feeds) && phase == old(phase)
    {
      match doc
      case Rejected(message) =>
        return Some(message);
      case Rss(title, description, items) =>
        var kept := KeepNew(items, posts);
        posts := kept + posts;
        var isNewFeed := IsIn(feeds, FeedTitle, title);
        if isNewFeed {
          feeds := feeds + [Feed(title, description)];
          phase := RenderingPhase;
        }
        return None;
    }
  }
}
