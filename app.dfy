/**
  The feed bookkeeping of the reader's entry point (src/index.js): the
  refresh merge that folds newly fetched items into the post list by title,
  the commit of a newly submitted feed, and the submission transition with
  its validation.  The shared `state` record becomes the class `Store`,
  lodash's process-wide id counter the class `IdCounter`.  Fetching and
  parsing are outside the model: each fetch arrives as a `Response`.
 */
module App {
  import opened Wrappers
  import opened Strings
  import opened Schema

  /** An item of a feed as the parser delivers it. */
  datatype Item = Item(title: string, link: string, description: string)

  /** An item once it is in the post list, with the id it was given. */
  datatype Post = Post(id: nat, title: string, link: string, description: string)

  /** A parsed feed document. */
  datatype Channel = Channel(title: string, description: string, items: seq<Item>)

  /** A tracked feed, in the order the feeds were added. */
  datatype Feed = Feed(url: string, title: string, description: string)

  /**
    How one fetch-and-parse settles: a parsed channel, an error raised by the
    HTTP client, or any other thrown error (a parse failure) with its message.
   */
  datatype Response = Parsed(channel: Channel) | AxiosError | Thrown(message: string)

  datatype AppState = AppUnset | Loading | Ready | Failed
  datatype FormState = FormUnset | Validating | Invalid | Valid

  const NetworkErrorMessage := "Network Error"

  // ---------------------------------------------------------------------
  // Ids

  /** `{ ...item, id }`. */
  function WithId(item: Item, id: nat): Post {
    Post(id, item.title, item.link, item.description)
  }

  /** The posts `items.map(item => ({ ...item, id: _.uniqueId() }))` yields when the counter stands at `last`. */
  function Stamp(items: seq<Item>, last: nat): (r: seq<Post>)
    ensures |r| == |items|
    ensures forall i :: 0 <= i < |items| ==> r[i] == WithId(items[i], last + 1 + i)
  {
    if items == [] then [] else [WithId(items[0], last + 1)] + Stamp(items[1..], last + 1)
  }

  /** Every id is at most `last`, the counter's value, and no two posts share an id. */
  ghost predicate IdsFresh(posts: seq<Post>, last: nat) {
    && (forall i :: 0 <= i < |posts| ==> posts[i].id <= last)
    && (forall i, j :: 0 <= i < j < |posts| ==> posts[i].id != posts[j].id)
  }

  /** Prepending freshly stamped items keeps the ids distinct and below the advanced counter. */
  lemma StampKeepsIdsFresh(items: seq<Item>, posts: seq<Post>, last: nat)
    requires IdsFresh(posts, last)
    ensures IdsFresh(Stamp(items, last) + posts, last + |items|)
  {
    var s := Stamp(items, last);
    var r := s + posts;
    assert forall i :: 0 <= i < |s| ==> r[i].id == last + 1 + i;
    assert forall i :: |s| <= i < |r| ==> r[i] == posts[i - |s|];
    forall i, j | 0 <= i < j < |r| ensures r[i].id != r[j].id {
      if |s| <= i {
        assert r[i] == posts[i - |s|] && r[j] == posts[j - |s|];
      }
    }
  }

  // ---------------------------------------------------------------------
  // The refresh merge

  function TitlesOf(posts: seq<Post>): set<string> {
    set p | p in posts :: p.title
  }

  /**
    `_.differenceWith(items, posts, (a, b) => a.title === b.title)`:
    the items, in order, whose title no post has (exact comparison;
    duplicates inside `items` are not removed).
   */
  function Unseen(items: seq<Item>, posts: seq<Post>): (r: seq<Item>)
    ensures forall x :: x in r <==> x in items && x.title !in TitlesOf(posts)
    ensures multiset(r) <= multiset(items)
    ensures forall x :: multiset(r)[x] == if x.title in TitlesOf(posts) then 0 else multiset(items)[x]
  {
    if items == [] then []
    else
      assert items == [items[0]] + items[1..];
      if items[0].title in TitlesOf(posts) then Unseen(items[1..], posts)
      else [items[0]] + Unseen(items[1..], posts)
  }

  /** The post list after one feed's refreshed `items` are merged, the counter standing at `last`. */
  function Merge(posts: seq<Post>, items: seq<Item>, last: nat): seq<Post> {
    Stamp(Unseen(items, posts), last) + posts
  }

  /** The counter after that merge. */
  function MergeLast(posts: seq<Post>, items: seq<Item>, last: nat): nat {
    last + |Unseen(items, posts)|
  }

  /**
    A merge prepends only posts whose title is new, each carrying an id above
    the counter, keeps the earlier posts as they were, and keeps all ids distinct.
   */
  lemma MergeProperties(posts: seq<Post>, items: seq<Item>, last: nat)
    requires IdsFresh(posts, last)
    ensures var r := Merge(posts, items, last); var k := |r| - |posts|;
      && k == |Unseen(items, posts)|
      && r[k..] == posts
      && (forall i :: 0 <= i < k ==> r[i].title !in TitlesOf(posts) && last < r[i].id)
      && IdsFresh(r, MergeLast(posts, items, last))
  {
    var u := Unseen(items, posts);
    var r := Merge(posts, items, last);
    forall i | 0 <= i < |u| ensures r[i].title !in TitlesOf(posts) && last < r[i].id {
      assert r[i] == WithId(u[i], last + 1 + i);
      assert u[i] in u;
    }
    StampKeepsIdsFresh(u, posts, last);
  }

  /** Merging an empty batch changes nothing. */
  lemma MergeEmpty(posts: seq<Post>, last: nat)
    ensures Merge(posts, [], last) == posts && MergeLast(posts, [], last) == last
  {
  }

  /** After a merge, every title of the batch is among the posts. */
  lemma MergeCoversBatch(posts: seq<Post>, items: seq<Item>, last: nat)
    ensures forall x :: x in items ==> x.title in TitlesOf(Merge(posts, items, last))
  {
    var u := Unseen(items, posts);
    var s := Stamp(u, last);
    var r := Merge(posts, items, last);
    forall x | x in items ensures x.title in TitlesOf(r) {
      if x.title in TitlesOf(posts) {
        var p :| p in posts && p.title == x.title;
        assert p in r;
      } else {
        assert x in u;
        var i :| 0 <= i < |u| && u[i] == x;
        assert r[i] == s[i] && s[i].title == x.title;
        assert r[i] in r;
      }
    }
  }

  /** When every item's title is already present, nothing is unseen. */
  lemma UnseenCovered(items: seq<Item>, posts: seq<Post>)
    requires forall x :: x in items ==> x.title in TitlesOf(posts)
    ensures Unseen(items, posts) == []
  {
    if Unseen(items, posts) != [] {
      assert Unseen(items, posts)[0] in Unseen(items, posts);
    }
  }

  /** Merging the same batch a second time adds nothing. */
  lemma MergeTwiceAddsNothing(posts: seq<Post>, items: seq<Item>, last: nat, last': nat)
    ensures var r := Merge(posts, items, last);
      Merge(r, items, last') == r && MergeLast(r, items, last') == last'
  {
    MergeCoversBatch(posts, items, last);
    UnseenCovered(items, Merge(posts, items, last));
  }

  // ---------------------------------------------------------------------
  // One refresh cycle

  /** What one settled response does to the post list and the counter. */
  function Step(posts: seq<Post>, last: nat, response: Response): (seq<Post>, nat) {
    if response.Parsed? then
      (Merge(posts, response.channel.items, last), MergeLast(posts, response.channel.items, last))
    else (posts, last)
  }

  /** The post list and counter after the responses of one cycle have been merged, in the order they settled. */
  function Refresh(posts: seq<Post>, last: nat, responses: seq<Response>): (seq<Post>, nat)
    decreases responses
  {
    if responses == [] then (posts, last)
    else
      var (m, l) := Step(posts, last, responses[0]);
      Refresh(m, l, responses[1..])
  }

  function ParsedOnly(responses: seq<Response>): (r: seq<Response>)
    ensures forall x :: x in r <==> x in responses && x.Parsed?
  {
    if responses == [] then []
    else if responses[0].Parsed? then [responses[0]] + ParsedOnly(responses[1..])
    else ParsedOnly(responses[1..])
  }

  /** A failed source neither blocks the others nor uses up ids: the cycle is as if only the parsed responses had arrived. */
  lemma {:induction false} RefreshSkipsFailures(posts: seq<Post>, last: nat, responses: seq<Response>)
    ensures Refresh(posts, last, responses) == Refresh(posts, last, ParsedOnly(responses))
    decreases responses
  {
    if responses != [] {
      var rest := responses[1..];
      var (m, l) := Step(posts, last, responses[0]);
      RefreshSkipsFailures(m, l, rest);
      if responses[0].Parsed? {
        assert ParsedOnly(responses)[1..] == ParsedOnly(rest);
      }
    }
  }

  /** `tail` is what `s` ends with. */
  ghost predicate IsSuffix(tail: seq<Post>, s: seq<Post>) {
    |tail| <= |s| && s[|s| - |tail|..] == tail
  }

  lemma SuffixTransitive(a: seq<Post>, b: seq<Post>, c: seq<Post>)
    requires IsSuffix(a, b) && IsSuffix(b, c)
    ensures IsSuffix(a, c)
  {
    assert c[|c| - |b|..][|b| - |a|..] == c[|c| - |a|..];
  }

  /** A cycle only prepends: the posts it started with, in order and unchanged, end the result. */
  lemma {:induction false} RefreshOnlyPrepends(posts: seq<Post>, last: nat, responses: seq<Response>)
    ensures IsSuffix(posts, Refresh(posts, last, responses).0)
    decreases responses
  {
    if responses != [] {
      var (m, l) := Step(posts, last, responses[0]);
      if responses[0].Parsed? {
        assert m[|m| - |posts|..] == posts;
      }
      RefreshOnlyPrepends(m, l, responses[1..]);
      SuffixTransitive(posts, m, Refresh(m, l, responses[1..]).0);
    }
  }

  /** A cycle only advances the counter and keeps every id distinct and handed out. */
  lemma {:induction false} RefreshKeepsIdsFresh(posts: seq<Post>, last: nat, responses: seq<Response>)
    requires IdsFresh(posts, last)
    ensures last <= Refresh(posts, last, responses).1
    ensures IdsFresh(Refresh(posts, last, responses).0, Refresh(posts, last, responses).1)
    decreases responses
  {
    if responses != [] {
      var (m, l) := Step(posts, last, responses[0]);
      if responses[0].Parsed? {
        MergeProperties(posts, responses[0].channel.items, last);
      }
      RefreshKeepsIdsFresh(m, l, responses[1..]);
    }
  }

  /** Titles a batch of parsed responses brings. */
  ghost predicate Covers(posts: seq<Post>, responses: seq<Response>) {
    forall k, x :: 0 <= k < |responses| && responses[k].Parsed? && x in responses[k].channel.items ==>
      x.title in TitlesOf(posts)
  }

  lemma TitlesOfSuffix(posts: seq<Post>, r: seq<Post>)
    requires IsSuffix(posts, r)
    ensures TitlesOf(posts) <= TitlesOf(r)
  {
    forall t | t in TitlesOf(posts) ensures t in TitlesOf(r) {
      var p :| p in posts && p.title == t;
      var i :| 0 <= i < |posts| && posts[i] == p;
      assert r[|r| - |posts| + i] == p;
    }
  }

  /** After a cycle every title it fetched is among the posts. */
  lemma {:induction false} RefreshCovers(posts: seq<Post>, last: nat, responses: seq<Response>)
    ensures Covers(Refresh(posts, last, responses).0, responses)
    decreases responses
  {
    if responses != [] {
      var rest := responses[1..];
      var (m, l) := Step(posts, last, responses[0]);
      RefreshCovers(m, l, rest);
      var r := Refresh(m, l, rest).0;
      if responses[0].Parsed? {
        MergeCoversBatch(posts, responses[0].channel.items, last);
        RefreshOnlyPrepends(m, l, rest);
        TitlesOfSuffix(m, r);
      }
      forall k, x | 0 <= k < |responses| && responses[k].Parsed? && x in responses[k].channel.items
        ensures x.title in TitlesOf(r)
      {
        if k > 0 {
          assert responses[k] == rest[k - 1];
        }
      }
    }
  }

  /** A cycle whose titles are all present changes nothing. */
  lemma {:induction false} RefreshCovered(posts: seq<Post>, last: nat, responses: seq<Response>)
    requires Covers(posts, responses)
    ensures Refresh(posts, last, responses) == (posts, last)
    decreases responses
  {
    if responses != [] {
      var rest := responses[1..];
      forall k, x | 0 <= k < |rest| && rest[k].Parsed? && x in rest[k].channel.items
        ensures x.title in TitlesOf(posts)
      {
        assert rest[k] == responses[k + 1];
      }
      if responses[0].Parsed? {
        var items := responses[0].channel.items;
        assert Covers(posts, responses[..1]);
        UnseenCovered(items, posts);
        assert Merge(posts, items, last) == [] + posts == posts;
      }
      assert Step(posts, last, responses[0]) == (posts, last);
      RefreshCovered(posts, last, rest);
    }
  }

  /** Running the same cycle again (same feeds, same documents) adds nothing. */
  lemma RefreshAgainAddsNothing(posts: seq<Post>, last: nat, responses: seq<Response>)
    ensures var (r, l) := Refresh(posts, last, responses); Refresh(r, l, responses) == (r, l)
  {
    RefreshCovers(posts, last, responses);
    var (r, l) := Refresh(posts, last, responses);
    RefreshCovered(r, l, responses);
  }

  // ---------------------------------------------------------------------
  // Submission

  const NotOneOfMessage := "notOneOf error"

  function FeedUrls(feeds: seq<Feed>): seq<string> {
    seq(|feeds|, i requires 0 <= i < |feeds| => feeds[i].url)
  }

  /** The messages of the checks of `string().required().url().notOneOf(urls)` that `url` fails. */
  function Failures(urls: seq<string>, url: string, urlShaped: string -> bool): set<string> {
    (if url == "" then {RequiredMessage} else {})
    + (if !urlShaped(url) then {InvalidUrlMessage} else {})
    + (if url in urls then {NotOneOfMessage} else {})
  }

  /**
    The `validate` closure: `None` (the source's `false`) when the url passes,
    otherwise the message of a failing check.  Which failing check is reported
    when several fail is the schema library's business; this model reports
    them in the order the schema declares them.
   */
  function Validate(urls: seq<string>, url: string, urlShaped: string -> bool): (r: Option<string>)
    ensures r.None? <==> url != "" && urlShaped(url) && url !in urls
    ensures r.Some? ==> r.value in Failures(urls, url, urlShaped)
  {
    if url == "" then Some(RequiredMessage)
    else if !urlShaped(url) then Some(InvalidUrlMessage)
    else if url in urls then Some(NotOneOfMessage)
    else None
  }

  /** A url already tracked is always refused, whatever it looks like. */
  lemma ValidateRefusesTracked(feeds: seq<Feed>, k: nat, urlShaped: string -> bool)
    requires k < |feeds|
    ensures Validate(FeedUrls(feeds), feeds[k].url, urlShaped).Some?
  {
    assert FeedUrls(feeds)[k] == feeds[k].url;
  }

  /** An input made of white space is refused as missing. */
  lemma BlankInputIsRequired(urls: seq<string>, input: string, urlShaped: string -> bool)
    requires AllSpaces(input)
    ensures Validate(urls, Trim(input), urlShaped) == Some(RequiredMessage)
  {
    TrimAllSpaces(input);
  }

  // ---------------------------------------------------------------------
  // State

  /** lodash's module-wide counter behind `_.uniqueId`. */
  class IdCounter {
    var last: nat

    constructor ()
      ensures last == 0
    {
      last := 0;
    }

    /** `_.uniqueId()`: advances the counter and returns its new value. */
    method UniqueId() returns (id: nat)
      modifies this
      ensures id == old(last) + 1 && last == id
    {
      last := last + 1;
      id := last;
    }
  }

  /** `items.map(item => ({ ...item, id: _.uniqueId() }))`. */
  method AssignIds(items: seq<Item>, ids: IdCounter) returns (r: seq<Post>)
    modifies ids
    ensures r == Stamp(items, old(ids.last))
    ensures ids.last == old(ids.last) + |items|
  {
    r := [];
    var k := 0;
    while k < |items|
      invariant 0 <= k <= |items|
      invariant ids.last == old(ids.last) + k
      invariant r == Stamp(items[..k], old(ids.last))
    {
      var id := ids.UniqueId();
      r := r + [WithId(items[k], id)];
      k := k + 1;
      assert items[..k] == items[..k - 1] + [items[k - 1]];
    }
    assert items[..k] == items;
  }

  /** The record of fields the reader's handlers update in place. */
  class Store {
    var feeds: seq<Feed>
    var posts: seq<Post>
    var error: string
    var url: string
    var appState: AppState
    var formState: FormState

    constructor ()
      ensures feeds == [] && posts == [] && error == "" && url == ""
      ensures appState == AppUnset && formState == FormUnset
    {
      feeds, posts, error, url := [], [], "", "";
      appState, formState := AppUnset, FormUnset;
    }

    /** Posts carry distinct ids, all handed out by `ids`. */
    ghost predicate Valid(ids: IdCounter)
      reads this, ids
    {
      IdsFresh(posts, ids.last)
    }

    /** The `.then` of one feed in `reload`: prepend the unseen items with fresh ids. */
    method ApplyBatch(items: seq<Item>, ids: IdCounter)
      requires Valid(ids)
      modifies this`posts, ids
      ensures Valid(ids)
      ensures posts == Merge(old(posts), items, old(ids.last))
      ensures ids.last == MergeLast(old(posts), items, old(ids.last))
    {
      var newItems := Unseen(items, posts);
      var stamped := AssignIds(newItems, ids);
      StampKeepsIdsFresh(newItems, posts, old(ids.last));
      posts := stamped + posts;
    }

    /**
      One `reload` cycle.  `responses` are the outcomes of the feeds' fetches
      in the order they settled; each parsed one is merged as it arrives and
      each failed one changes nothing.
     */
    method Reload(responses: seq<Response>, ids: IdCounter)
      requires Valid(ids)
      modifies this`posts, ids
      ensures Valid(ids)
      ensures (posts, ids.last) == Refresh(old(posts), old(ids.last), responses)
    {
      var k := 0;
      while k < |responses|
        invariant 0 <= k <= |responses|
        invariant Valid(ids)
        invariant Refresh(posts, ids.last, responses[k..]) == Refresh(old(posts), old(ids.last), responses)
      {
        assert responses[k..][0] == responses[k] && responses[k..][1..] == responses[k + 1..];
        if responses[k].Parsed? {
          ApplyBatch(responses[k].channel.items, ids);
        }
        k := k + 1;
      }
    }

    /**
      The settlement of `loadFeed` for the submitted `url`: on success the
      feed is appended, the input cleared, the reader made ready and every
      parsed item prepended with a fresh id; on failure only `error` and
      `appState` change.
     */
    method LoadFeed(response: Response, ids: IdCounter)
      requires Valid(ids)
      modifies this, ids
      ensures Valid(ids)
      ensures formState == old(formState)
      ensures response.Parsed? ==>
        var ch := response.channel;
        && feeds == old(feeds) + [Feed(old(url), ch.title, ch.description)]
        && url == "" && appState == Ready && error == old(error)
        && posts == Stamp(ch.items, old(ids.last)) + old(posts)
        && ids.last == old(ids.last) + |ch.items|
      ensures !response.Parsed? ==>
        && feeds == old(feeds) && posts == old(posts) && url == old(url)
        && ids.last == old(ids.last) && appState == Failed
        && error == (if response.AxiosError? then NetworkErrorMessage else response.message)
    {
      match response
      case Parsed(ch) =>
        feeds := feeds + [Feed(url, ch.title, ch.description)];
        url := "";
        appState := Ready;
        var itemsWithId := AssignIds(ch.items, ids);
        StampKeepsIdsFresh(ch.items, posts, old(ids.last));
        posts := itemsWithId + posts;
      case AxiosError =>
        error := NetworkErrorMessage;
        appState := Failed;
      case Thrown(message) =>
        error := message;
        appState := Failed;
    }

    /**
      `handleSubmit` for the text `input` of the form's url field.  Returns
      whether `loadFeed` is started; its settlement is `LoadFeed`.
     */
    method HandleSubmit(input: string, urlShaped: string -> bool) returns (loading: bool)
      modifies this`url, this`formState, this`error, this`appState
      ensures url == Trim(input)
      ensures var v := Validate(FeedUrls(feeds), Trim(input), urlShaped);
        && loading == v.None?
        && (v.Some? ==> error == v.value && formState == Invalid && appState == old(appState))
        && (v.None? ==> error == old(error) && formState == FormState.Valid && appState == Loading)
    {
      url := Trim(input);
      formState := Validating;
      var urls := FeedUrls(feeds);
      var validationError := Validate(urls, url, urlShaped);
      if validationError.Some? {
        error := validationError.value;
        formState := Invalid;
        return false;
      }
      formState := FormState.Valid;
      appState := Loading;
      return true;
    }
  }

  /**
    Adding a feed and then submitting its address again is refused without
    starting a second load.
   */
  method ResubmitIsRefused(input: string, urlShaped: string -> bool, ch: Channel) returns (first: bool, second: bool)
    ensures first <==> Trim(input) != "" && urlShaped(Trim(input))
    ensures first ==> !second
  {
    var ids := new IdCounter();
    var store := new Store();
    first := store.HandleSubmit(input, urlShaped);
    second := false;
    if first {
      store.LoadFeed(Parsed(ch), ids);
      assert store.feeds == [Feed(Trim(input), ch.title, ch.description)];
      second := store.HandleSubmit(input, urlShaped);
      ValidateRefusesTracked(store.feeds, 0, urlShaped);
      assert !second && store.formState == Invalid;
    }
  }
}
