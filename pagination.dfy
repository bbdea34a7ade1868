/** What `execute`'s autopagination promises, proved about `Client.Paginate`
    over any round trip. `Client.Fetch` is `Paginate` over `Client.Retrieve`,
    and `Client.Execute` returns what `Fetch` gives, so all of it holds of
    `execute`. */
module Pagination {
  import opened Json
  import opened Wrappers
  import opened Client

  /** The items of several pages, page after page. */
  function Flatten<T>(pages: seq<seq<T>>): seq<T>
  {
    if pages == [] then [] else pages[0] + Flatten(pages[1..])
  }

  /** The fuel is only a bound: once it suffices, more changes nothing. */
  lemma {:induction false} FuelIrrelevant(retrieve: string -> Result<Json>, url: string, fuel: nat, more: nat)
    requires Paginate(retrieve, url, fuel).Some?
    requires fuel <= more
    ensures Paginate(retrieve, url, more) == Paginate(retrieve, url, fuel)
    decreases fuel
  {
    match retrieve(url)
    case Err(_) =>
    case Ok(page) =>
      match Continuation(page)
      case Final =>
      case Broken(_) =>
      case Follow(next, _, _) =>
        FuelIrrelevant(retrieve, next, fuel - 1, more - 1);
  }

  /** A value that is not a page to follow comes back exactly as received,
      pagination metadata included. */
  lemma UnpagedAsReceived(retrieve: string -> Result<Json>, url: string, fuel: nat, v: Json)
    requires fuel > 0
    requires retrieve(url) == Ok(v)
    requires !v.Object? || Lookup(v.fields, "next").Null? || Lookup(v.fields, "values").Null?
             || Lookup(v.fields, "next") == Str("")
    ensures Paginate(retrieve, url, fuel) == Some(Ok(v))
  {
  }

  /** A failed round trip fails the whole fetch with the same error. */
  lemma RetrieveErrorSurfaces(retrieve: string -> Result<Json>, url: string, fuel: nat, e: Error)
    requires fuel > 0
    requires retrieve(url) == Err(e)
    ensures Paginate(retrieve, url, fuel) == Some(Err(e))
  {
  }

  /** A page whose `next` is not a string, or whose `values` is not a list
      while `next` is set, is a run-time panic of the whole fetch. */
  lemma MalformedPagePanics(retrieve: string -> Result<Json>, url: string, fuel: nat, page: map<string, Json>)
    requires fuel > 0
    requires retrieve(url) == Ok(Object(page))
    requires !Lookup(page, "next").Null? && !Lookup(page, "values").Null?
    requires !Lookup(page, "next").Str? || (Lookup(page, "next").s != "" && !Lookup(page, "values").List?)
    ensures Paginate(retrieve, url, fuel).Some?
    ensures Paginate(retrieve, url, fuel).value.Err? && Paginate(retrieve, url, fuel).value.error.Panic?
  {
  }

  /** One followed page: the fetch is the merge of the page with the fetch of
      its `next`. */
  lemma FollowStep(retrieve: string -> Result<Json>, url: string, fuel: nat,
                   page: map<string, Json>, next: string, values: seq<Json>)
    requires fuel > 0
    requires retrieve(url) == Ok(Object(page))
    requires Lookup(page, "next") == Str(next) && next != "" && Lookup(page, "values") == List(values)
    ensures Paginate(retrieve, next, fuel - 1).None? ==> Paginate(retrieve, url, fuel).None?
    ensures Paginate(retrieve, next, fuel - 1).Some? ==>
      Paginate(retrieve, url, fuel) == Some(Merge(page, values, Paginate(retrieve, next, fuel - 1).value))
  {
    assert Continuation(Object(page)) == Follow(next, page, values);
  }

  /** Page `i` of a chain: the round trip to `urls[i]` gives the object
      `pages[i]`, whose `values` is the list `values[i]`. */
  ghost predicate Served(retrieve: string -> Result<Json>, urls: seq<string>, pages: seq<map<string, Json>>,
                         values: seq<seq<Json>>, i: int)
    requires 0 <= i < |urls| == |pages| == |values|
  {
    retrieve(urls[i]) == Ok(Object(pages[i])) && Lookup(pages[i], "values") == List(values[i])
  }

  /** Page `i` of a chain points by `next` to the URL of page `i + 1`. */
  ghost predicate Linked(urls: seq<string>, pages: seq<map<string, Json>>, i: int)
    requires 0 <= i && i + 1 < |urls| && i < |pages|
  {
    Lookup(pages[i], "next") == Str(urls[i + 1]) && urls[i + 1] != ""
  }

  /** `pages` are what the round trips to `urls` return, page after page,
      and the last one ends the chain. */
  ghost predicate Chain(retrieve: string -> Result<Json>, urls: seq<string>, pages: seq<map<string, Json>>,
                        values: seq<seq<Json>>)
  {
    && |urls| >= 1 && |pages| == |urls| && |values| == |urls|
    && (forall i | 0 <= i < |urls| :: Served(retrieve, urls, pages, values, i))
    && (forall i | 0 <= i < |urls| - 1 :: Linked(urls, pages, i))
    && (Lookup(pages[|urls| - 1], "next").Null? || Lookup(pages[|urls| - 1], "next") == Str(""))
  }

  lemma ChainTail(retrieve: string -> Result<Json>, urls: seq<string>, pages: seq<map<string, Json>>,
                  values: seq<seq<Json>>)
    requires Chain(retrieve, urls, pages, values)
    requires |urls| > 1
    ensures Chain(retrieve, urls[1..], pages[1..], values[1..])
  {
    forall i | 0 <= i < |urls| - 1
      ensures Served(retrieve, urls[1..], pages[1..], values[1..], i)
    {
      assert Served(retrieve, urls, pages, values, i + 1);
    }
    forall i | 0 <= i < |urls| - 2
      ensures Linked(urls[1..], pages[1..], i)
    {
      assert Linked(urls, pages, i + 1);
    }
  }

  /** Fetching an N-page chain: one page comes back as it is; several come
      back as the first page with `values` the concatenation of every page's
      values in page order, and without the metadata. */
  lemma {:induction false} ChainMerges(retrieve: string -> Result<Json>, urls: seq<string>,
                                       pages: seq<map<string, Json>>, values: seq<seq<Json>>, fuel: nat)
    requires Chain(retrieve, urls, pages, values)
    requires fuel >= |urls|
    ensures Paginate(retrieve, urls[0], fuel).Some?
    ensures Paginate(retrieve, urls[0], fuel).value.Ok?
    ensures var v := Paginate(retrieve, urls[0], fuel).value.value;
      && v.Object?
      && Lookup(v.fields, "values") == List(Flatten(values))
      && (|urls| == 1 ==> v.fields == pages[0])
      && (|urls| > 1 ==> v.fields.Keys == pages[0].Keys - METADATA)
      && (|urls| > 1 ==> forall k | k in pages[0] && k !in METADATA && k != "values" :: v.fields[k] == pages[0][k])
    decreases |urls|
  {
    assert Served(retrieve, urls, pages, values, 0);
    assert Flatten(values) == values[0] + Flatten(values[1..]);
    if |urls| == 1 {
      assert values[1..] == [];
      UnpagedAsReceived(retrieve, urls[0], fuel, Object(pages[0]));
    } else {
      assert Linked(urls, pages, 0);
      ChainTail(retrieve, urls, pages, values);
      ChainMerges(retrieve, urls[1..], pages[1..], values[1..], fuel - 1);
      FollowStep(retrieve, urls[0], fuel, pages[0], urls[1], values[0]);
      assert "values" in pages[0];
    }
  }

  /** No partial result: when the chain breaks after `|pages|` followed pages
      (the last followed fetch fails, or does not give an object with a list
      `values`), the whole fetch fails, with the error raised at the break. */
  lemma {:induction false} BrokenChainFails(retrieve: string -> Result<Json>, urls: seq<string>,
                                            pages: seq<map<string, Json>>, values: seq<seq<Json>>,
                                            fuel: nat, rest: Result<Json>)
    requires |pages| >= 1 && |urls| == |pages| + 1 && |values| == |pages|
    requires forall i | 0 <= i < |pages| :: Served(retrieve, urls[..|pages|], pages, values, i)
    requires forall i | 0 <= i < |pages| :: Linked(urls, pages, i)
    requires fuel >= |pages|
    requires Paginate(retrieve, urls[|pages|], fuel - |pages|) == Some(rest)
    requires Merge(pages[|pages| - 1], values[|pages| - 1], rest).Err?
    ensures Paginate(retrieve, urls[0], fuel) == Some(Merge(pages[|pages| - 1], values[|pages| - 1], rest))
    decreases |pages|
  {
    assert Served(retrieve, urls[..|pages|], pages, values, 0);
    assert Linked(urls, pages, 0);
    if |pages| > 1 {
      var urls', pages', values' := urls[1..], pages[1..], values[1..];
      forall i | 0 <= i < |pages'|
        ensures Served(retrieve, urls'[..|pages'|], pages', values', i)
        ensures Linked(urls', pages', i)
      {
        assert Served(retrieve, urls[..|pages|], pages, values, i + 1);
        assert Linked(urls, pages, i + 1);
      }
      BrokenChainFails(retrieve, urls', pages', values', fuel - 1, rest);
    }
    FollowStep(retrieve, urls[0], fuel, pages[0], urls[1], values[0]);
  }

  /** The case of a followed page whose `values` is gone: the fetch fails with
      "no values", and no merged value is returned. */
  lemma MissingValuesFails(retrieve: string -> Result<Json>, first: string, second: string,
                           page: map<string, Json>, items: seq<Json>, nextPage: map<string, Json>, fuel: nat)
    requires fuel >= 2
    requires retrieve(first) == Ok(Object(page))
    requires Lookup(page, "values") == List(items) && Lookup(page, "next") == Str(second) && second != ""
    requires retrieve(second) == Ok(Object(nextPage))
    requires "values" !in nextPage
    ensures Paginate(retrieve, first, fuel) == Some(Err(NextHasNoValues))
  {
    UnpagedAsReceived(retrieve, second, fuel - 1, Object(nextPage));
    FollowStep(retrieve, first, fuel, page, second, items);
  }
}
