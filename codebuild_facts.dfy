/**
 * Properties of the `aws_codebuild_builds` listing: what one batch hands on, described
 * independently of the loop, and how a listing whose last page comes back without a next
 * token starts over at the newest build. Beside it, the listing as evidently intended, which
 * stops after that page, and what it hands on.
 */
module CodeBuildBuildsFacts {
  import opened Wrappers
  import opened Util
  import opened CodeBuildBuilds

  /** The builds of `s` that are handed on, in order. */
  function Kept(s: seq<Build>, since: Time): seq<Build>
    decreases |s|
  {
    if |s| == 0 then []
    else Kept(s[..|s| - 1], since) + (if Emits(s[|s| - 1], since) then [s[|s| - 1]] else [])
  }

  /** Keeping builds from a sequence that starts with `b`. */
  lemma {:induction false} KeptCons(b: Build, s: seq<Build>, since: Time)
    ensures Kept([b] + s, since) == (if Emits(b, since) then [b] else []) + Kept(s, since)
    decreases |s|
  {
    if |s| > 0 {
      var n := |s| - 1;
      assert ([b] + s)[..n + 1] == [b] + s[..n];
      KeptCons(b, s[..n], since);
    } else {
      assert [b] + s == [b];
      assert [b][..0] == [];
    }
  }

  /**
   * One batch: the scan reaches the cut-off exactly when some build of the batch is past it,
   * and hands on exactly the builds kept from those before the first such build.
   */
  lemma {:induction false} ScanIsKeptBeforeCutoff(builds: seq<Build>, since: Time, k: nat)
    requires k <= |builds|
    requires forall j :: 0 <= j < k ==> !PastCutoff(builds[j], since)
    requires k == |builds| || PastCutoff(builds[k], since)
    ensures Scan(builds, since).1 <==> k < |builds|
    ensures Scan(builds, since).0 == Kept(builds[..k], since)
    decreases |builds|
  {
    if k == 0 {
      assert builds[..0] == [];
    } else {
      ScanIsKeptBeforeCutoff(builds[1..], since, k - 1);
      assert builds[..k] == [builds[0]] + builds[1..][..k - 1];
      KeptCons(builds[0], builds[1..][..k - 1], since);
    }
  }

  /** `n` copies of `s`, one after another. */
  function Repeated(s: seq<Build>, n: nat): seq<Build>
    decreases n
  {
    if n == 0 then [] else s + Repeated(s, n - 1)
  }

  /**
   * A listing whose first page is also its last (no next token) and holds no build past the
   * cut-off never stops: the next request carries no token, so it lists the first page
   * again, and its builds are handed on once for every page the bound allows.
   */
  lemma {:induction false} RelistsFromStart(list: Option<string> -> Result<ListPage, string>,
                                             batch: seq<string> -> Result<seq<Build>, string>,
                                             since: Time, ids: seq<string>, builds: seq<Build>, fuel: nat)
    requires list(None) == Success(ListPage(ids, None))
    requires batch(ids) == Success(builds)
    requires !Scan(builds, since).1
    ensures Pages(list, batch, since, None, fuel) == Listing(Repeated(Scan(builds, since).0, fuel), Exhausted)
    decreases fuel
  {
    if fuel > 0 {
      RelistsFromStart(list, batch, since, ids, builds, fuel - 1);
    }
  }

  /** So one finished build on a single page is handed on twice when two pages are allowed. */
  lemma RelistedTwice(list: Option<string> -> Result<ListPage, string>,
                      batch: seq<string> -> Result<seq<Build>, string>,
                      since: Time, id: string, b: Build)
    requires list(None) == Success(ListPage([id], None))
    requires batch([id]) == Success([b])
    requires Emits(b, since)
    ensures Pages(list, batch, since, None, 2) == Listing([b, b], Exhausted)
  {
    assert Scan([b], since) == ([b], false) by {
      assert [b][0] == b && [b][1..] == [];
      assert Scan([b][1..], since) == ([], false);
      assert [b] + [] == [b];
    }
    RelistsFromStart(list, batch, since, [id], [b], 2);
    assert Repeated([b], 2) == [b] + ([b] + []);
  }

  /** A listing whose first request fails hands on nothing and reports that error. */
  lemma FirstListFails(list: Option<string> -> Result<ListPage, string>,
                       batch: seq<string> -> Result<seq<Build>, string>,
                       since: Time, fuel: nat)
    requires fuel > 0 && list(None).Failure?
    ensures Pages(list, batch, since, None, fuel) == Listing([], Failed(list(None).error))
  {
  }

  /**
   * The listing as evidently intended: as `Pages`, except that a page that comes back without a
   * next token is the last one listed.
   */
  function IntendedPages(list: Option<string> -> Result<ListPage, string>, batch: seq<string> -> Result<seq<Build>, string>,
                         since: Time, token: Option<string>, fuel: nat): Listing
    decreases fuel
  {
    if fuel == 0 then Listing([], Exhausted)
    else
      match list(token)
      case Failure(e) => Listing([], Failed(e))
      case Success(page) =>
        match batch(page.ids)
        case Failure(e) => Listing([], Failed(e))
        case Success(builds) =>
          var s := Scan(builds, since);
          if s.1 then Listing(s.0, Cutoff)
          else if page.nextToken.None? then Listing(s.0, LastPage)
          else Prefixed(s.0, IntendedPages(list, batch, since, page.nextToken, fuel - 1))
  }

  /** The builds of a run of pages, one page after another. */
  function Concat(pages: seq<seq<Build>>): seq<Build>
    decreases |pages|
  {
    if |pages| == 0 then [] else pages[0] + Concat(pages[1..])
  }

  /**
   * Listing from `token` serves the batches `pages` in turn: every list and batch call succeeds,
   * each page but the last has a next token, and the last has none.
   */
  predicate Serves(list: Option<string> -> Result<ListPage, string>, batch: seq<string> -> Result<seq<Build>, string>,
                   token: Option<string>, pages: seq<seq<Build>>)
    decreases |pages|
  {
    && |pages| > 0
    && list(token).Success?
    && batch(list(token).value.ids) == Success(pages[0])
    && (if |pages| == 1 then list(token).value.nextToken.None?
        else list(token).value.nextToken.Some? && Serves(list, batch, list(token).value.nextToken, pages[1..]))
  }

  /** Keeping builds from two runs one after the other. */
  lemma {:induction false} KeptAppend(a: seq<Build>, b: seq<Build>, since: Time)
    ensures Kept(a + b, since) == Kept(a, since) + Kept(b, since)
    decreases |b|
  {
    if |b| == 0 {
      assert a + b == a;
    } else {
      var n := |b| - 1;
      assert (a + b)[..|a + b| - 1] == a + b[..n];
      KeptAppend(a, b[..n], since);
    }
  }

  /** One page of the intended listing, its list and batch calls having succeeded. */
  lemma IntendedStep(list: Option<string> -> Result<ListPage, string>, batch: seq<string> -> Result<seq<Build>, string>,
                     since: Time, token: Option<string>, fuel: nat, builds: seq<Build>)
    requires fuel > 0 && list(token).Success? && batch(list(token).value.ids) == Success(builds)
    ensures var s := Scan(builds, since);
      IntendedPages(list, batch, since, token, fuel)
      == if s.1 then Listing(s.0, Cutoff)
         else if list(token).value.nextToken.None? then Listing(s.0, LastPage)
         else Prefixed(s.0, IntendedPages(list, batch, since, list(token).value.nextToken, fuel - 1))
  {
  }

  /**
   * The intended listing over pages it is served, with enough pages allowed: it hands on exactly
   * the builds kept from the concatenated pages before the first one past the cut-off, each
   * once and in order, and stops at that build or after the last page.
   */
  lemma {:induction false} IntendedListsKept(list: Option<string> -> Result<ListPage, string>,
                                              batch: seq<string> -> Result<seq<Build>, string>,
                                              since: Time, token: Option<string>, pages: seq<seq<Build>>,
                                              fuel: nat, k: nat)
    requires Serves(list, batch, token, pages) && fuel >= |pages|
    requires k <= |Concat(pages)|
    requires forall j :: 0 <= j < k ==> !PastCutoff(Concat(pages)[j], since)
    requires k == |Concat(pages)| || PastCutoff(Concat(pages)[k], since)
    ensures IntendedPages(list, batch, since, token, fuel)
         == Listing(Kept(Concat(pages)[..k], since), if k < |Concat(pages)| then Cutoff else LastPage)
    decreases |pages|
  {
    var first := pages[0];
    var all := Concat(pages);
    assert all == first + Concat(pages[1..]);
    IntendedStep(list, batch, since, token, fuel, first);
    if k < |first| {
      IntendedCutInFirst(first, all, since, k);
    } else {
      assert forall j :: 0 <= j < |first| ==> first[j] == all[j];
      ScanIsKeptBeforeCutoff(first, since, |first|);
      assert first[..|first|] == first;
      if |pages| == 1 {
        assert all == first;
      } else {
        IntendedPastFirst(list, batch, since, token, pages, fuel, k);
      }
    }
  }

  /** The cut-off falls in the first page: the listing ends there. */
  lemma IntendedCutInFirst(first: seq<Build>, all: seq<Build>, since: Time, k: nat)
    requires k < |first| <= |all| && all[..|first|] == first
    requires forall j :: 0 <= j < k ==> !PastCutoff(all[j], since)
    requires PastCutoff(all[k], since)
    ensures Scan(first, since) == (Kept(all[..k], since), true)
  {
    assert forall j :: 0 <= j <= k ==> first[j] == all[j];
    ScanIsKeptBeforeCutoff(first, since, k);
    assert all[..k] == first[..k];
  }

  /** The first page holds no build past the cut-off and has a next token: the listing goes on. */
  lemma {:induction false} IntendedPastFirst(list: Option<string> -> Result<ListPage, string>,
                                              batch: seq<string> -> Result<seq<Build>, string>,
                                              since: Time, token: Option<string>, pages: seq<seq<Build>>,
                                              fuel: nat, k: nat)
    requires Serves(list, batch, token, pages) && |pages| > 1 && fuel >= |pages|
    requires |pages[0]| <= k <= |Concat(pages)|
    requires forall j :: 0 <= j < k ==> !PastCutoff(Concat(pages)[j], since)
    requires k == |Concat(pages)| || PastCutoff(Concat(pages)[k], since)
    ensures Kept(pages[0], since) + IntendedPages(list, batch, since, list(token).value.nextToken, fuel - 1).emitted
         == Kept(Concat(pages)[..k], since)
    ensures IntendedPages(list, batch, since, list(token).value.nextToken, fuel - 1).end
         == if k < |Concat(pages)| then Cutoff else LastPage
    decreases |pages|, 0
  {
    var first := pages[0];
    var all := Concat(pages);
    var rest := Concat(pages[1..]);
    var m := k - |first|;
    assert all == first + rest;
    assert forall j :: 0 <= j < m ==> rest[j] == all[|first| + j];
    assert m < |rest| ==> rest[m] == all[k];
    IntendedListsKept(list, batch, since, list(token).value.nextToken, pages[1..], fuel - 1, m);
    assert all[..k] == first + rest[..m];
    KeptAppend(first, rest[..m], since);
  }

  /** Where the listing as written hands the single build on twice, the intended one hands it on once. */
  lemma IntendedListedOnce(list: Option<string> -> Result<ListPage, string>,
                           batch: seq<string> -> Result<seq<Build>, string>,
                           since: Time, id: string, b: Build, fuel: nat)
    requires list(None) == Success(ListPage([id], None))
    requires batch([id]) == Success([b])
    requires Emits(b, since) && fuel > 0
    ensures IntendedPages(list, batch, since, None, fuel) == Listing([b], LastPage)
  {
    assert Scan([b], since) == ([b], false) by {
      assert [b][0] == b && [b][1..] == [];
      assert Scan([b][1..], since) == ([], false);
      assert [b] + [] == [b];
    }
  }
}
