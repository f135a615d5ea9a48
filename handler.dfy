/** main.go: which scrapers an HTTP request runs (the `collect[]` filter and
    the per-scraper `<name>[]` parameters of newHandler) and which scrapers
    are enabled at start-up. */
module Handler {
  import opened Strings
  import AssetsApi
  import AllocationApi

  datatype Scraper = ScrapeAssets | ScrapeAllocation
  {
    function Name(): (n: string)
      ensures this.ScrapeAssets? ==> n == "scrape_assets"
      ensures this.ScrapeAllocation? ==> n == "scrape_allocation"
    {
      match this
      case ScrapeAssets => AssetsApi.Name
      case ScrapeAllocation => AllocationApi.Name
    }
  }

  /** Scraper names are unique. */
  lemma NamesUnique(a: Scraper, b: Scraper)
    ensures a.Name() == b.Name() <==> a == b
  {
  }

  /** `url.Values`: each query key with its values in order. */
  type Query = map<string, seq<string>>

  /** `r.URL.Query()[key]`: the values of `key`, none when absent. */
  function QueryValues(q: Query, key: string): (r: seq<string>)
    ensures key !in q ==> r == []
  {
    if key in q then q[key] else []
  }

  /** The scrapers whose name is in `names`, in their original order. */
  function Selected(scrapers: seq<Scraper>, names: set<string>): (r: seq<Scraper>)
    ensures |r| <= |scrapers|
    ensures forall s :: s in r <==> s in scrapers && s.Name() in names
  {
    if scrapers == [] then []
    else (if scrapers[0].Name() in names then [scrapers[0]] else []) + Selected(scrapers[1..], names)
  }

  /** Selection keeps the original order: it distributes over
      concatenation. */
  lemma {:induction false} SelectedConcat(a: seq<Scraper>, b: seq<Scraper>, names: set<string>)
    ensures Selected(a + b, names) == Selected(a, names) + Selected(b, names)
  {
    if a == [] {
      assert a + b == b;
    } else {
      assert (a + b)[0] == a[0] && (a + b)[1..] == a[1..] + b;
      SelectedConcat(a[1..], b, names);
    }
  }

  /** A scraper listed once is selected at most once, however often its
      name is repeated in the query. */
  lemma {:induction false} SelectedNoDuplicates(scrapers: seq<Scraper>, names: set<string>)
    requires forall i, j :: 0 <= i < j < |scrapers| ==> scrapers[i] != scrapers[j]
    ensures var r := Selected(scrapers, names);
            forall i, j :: 0 <= i < j < |r| ==> r[i] != r[j]
  {
    if scrapers != [] {
      var tail := scrapers[1..];
      assert forall i, j :: 0 <= i < j < |tail| ==> tail[i] != tail[j] by {
        forall i, j | 0 <= i < j < |tail| ensures tail[i] != tail[j] {
          assert tail[i] == scrapers[i + 1] && tail[j] == scrapers[j + 1];
        }
      }
      SelectedNoDuplicates(tail, names);
      var head := if scrapers[0].Name() in names then [scrapers[0]] else [];
      var rest := Selected(tail, names);
      var r := Selected(scrapers, names);
      assert r == head + rest;
      assert scrapers[0] !in tail by {
        forall k | 0 <= k < |tail| ensures tail[k] != scrapers[0] {
          assert tail[k] == scrapers[k + 1];
        }
      }
      assert scrapers[0] !in rest;
      forall i, j | 0 <= i < j < |r| ensures r[i] != r[j] {
        assert r[j] == rest[j - |head|];
      }
    }
  }

  /** The values of the `<name>[]` query key of scraper `s`. */
  function ParamValues(q: Query, s: Scraper): seq<string>
  {
    QueryValues(q, s.Name() + "[]")
  }

  /** The parameters of the selected scrapers that were given some
      `<name>[]` value: the first such value split on ','. Keys are
      scraper names. */
  function ScraperParams(selected: seq<Scraper>, q: Query): (r: map<string, seq<string>>)
    ensures forall n :: n in r ==> exists s: Scraper :: s.Name() == n
    ensures forall s: Scraper :: s.Name() in r <==> s in selected && ParamValues(q, s) != []
    ensures forall s: Scraper :: s.Name() in r ==> r[s.Name()] == Split(ParamValues(q, s)[0], ',')
  {
    if selected == [] then map[]
    else
      var init := selected[..|selected| - 1];
      var last := selected[|selected| - 1];
      var rest := ScraperParams(init, q);
      assert forall s :: s in selected <==> s in init || s == last by {
        assert selected == init + [last];
      }
      assert forall s: Scraper :: s.Name() == last.Name() <==> s == last by {
        forall s: Scraper ensures s.Name() == last.Name() <==> s == last {
          NamesUnique(s, last);
        }
      }
      var values := ParamValues(q, last);
      if |values| > 0 then rest[last.Name() := Split(values[0], ',')] else rest
  }

  /** The names listed under `collect[]`, as a set. */
  function CollectNames(q: Query): (r: set<string>)
    ensures forall n :: n in r <==> n in QueryValues(q, "collect[]")
  {
    set v | v in QueryValues(q, "collect[]")
  }

  /** The set of `collect[]` values (the `filters` map of newHandler). */
  method CollectFilters(collect: seq<string>) returns (filters: map<string, bool>)
    ensures forall name :: (name in filters && filters[name]) <==> name in collect
  {
    filters := map[];
    for i := 0 to |collect|
      invariant forall name :: (name in filters && filters[name]) <==> name in collect[..i]
    {
      filters := filters[collect[i] := true];
      assert collect[..i + 1] == collect[..i] + [collect[i]];
    }
  }

  /** The loop of newHandler over the scrapers, once `collect[]` has been
      turned into `filters`: keep the scrapers whose name is set there, in
      order, and record the parameters of each kept one. */
  method SelectScrapers(scrapers: seq<Scraper>, filters: map<string, bool>, ghost names: set<string>, q: Query)
    returns (filtered: seq<Scraper>, params: map<string, seq<string>>)
    requires forall name :: (name in filters && filters[name]) <==> name in names
    ensures filtered == Selected(scrapers, names)
    ensures params == ScraperParams(filtered, q)
  {
    filtered, params := [], map[];
    for i := 0 to |scrapers|
      invariant filtered == Selected(scrapers[..i], names)
      invariant params == ScraperParams(filtered, q)
    {
      var scraper := scrapers[i];
      SelectedSnoc(scrapers[..i], scraper, names);
      assert scrapers[..i + 1] == scrapers[..i] + [scraper];
      if scraper.Name() in filters && filters[scraper.Name()] {
        ScraperParamsSnoc(filtered, scraper, q);
        filtered := filtered + [scraper];
        var paramsQuery := QueryValues(q, scraper.Name() + "[]");
        if |paramsQuery| > 0 {
          params := params[scraper.Name() := Split(paramsQuery[0], ',')];
        }
      }
    }
    assert scrapers[..|scrapers|] == scrapers;
  }

  /** Selecting one more scraper adds its parameters, if it has any. */
  lemma ScraperParamsSnoc(selected: seq<Scraper>, s: Scraper, q: Query)
    ensures ScraperParams(selected + [s], q) ==
              if ParamValues(q, s) != [] then ScraperParams(selected, q)[s.Name() := Split(ParamValues(q, s)[0], ',')]
              else ScraperParams(selected, q)
  {
    var longer := selected + [s];
    assert longer[..|longer| - 1] == selected && longer[|longer| - 1] == s;
  }

  lemma SelectedSnoc(a: seq<Scraper>, s: Scraper, names: set<string>)
    ensures Selected(a + [s], names) == Selected(a, names) + (if s.Name() in names then [s] else [])
  {
    SelectedConcat(a, [s], names);
    assert [s][1..] == [];
  }

  /** newHandler's request filtering: without `collect[]` every scraper
      runs and no parameters are passed; with it, exactly the scrapers
      named there run, in their original order, each with the parameters
      of its first `<name>[]` value when there is one. */
  method FilterScrapers(scrapers: seq<Scraper>, q: Query)
    returns (filtered: seq<Scraper>, params: map<string, seq<string>>)
    ensures QueryValues(q, "collect[]") == [] ==> filtered == scrapers && params == map[]
    ensures QueryValues(q, "collect[]") != [] ==>
              filtered == Selected(scrapers, CollectNames(q)) && params == ScraperParams(filtered, q)
  {
    filtered := scrapers;
    var collect := QueryValues(q, "collect[]");
    params := map[];
    if |collect| > 0 {
      var filters := CollectFilters(collect);
      filtered, params := SelectScrapers(scrapers, filters, CollectNames(q), q);
    }
  }

  /** A `collect[]` that names no scraper selects none. */
  lemma NoMatchSelectsNothing(scrapers: seq<Scraper>, names: set<string>)
    requires forall s :: s in scrapers ==> s.Name() !in names
    ensures Selected(scrapers, names) == []
  {
  }

  /** Only selected scrapers get parameters. */
  lemma ParamsOnlyForSelected(selected: seq<Scraper>, q: Query, s: Scraper)
    requires s !in selected
    ensures s.Name() !in ScraperParams(selected, q)
  {
  }

  /** Repeating a name in `collect[]` changes nothing. */
  lemma RepeatedCollectIgnored(collect: seq<string>, i: nat)
    requires i < |collect|
    ensures (set v | v in collect + [collect[i]]) == (set v | v in collect)
  {
  }

  /** The scrapers and whether each is enabled by default (the `scrapers`
      map), in the order of the start-up loop's one pass over it. */
  const DefaultScrapers: seq<(Scraper, bool)> := [(ScrapeAssets, true), (ScrapeAllocation, true)]

  /** The scrapers whose flag is set, in flag order. */
  function Enabled(flags: seq<(Scraper, bool)>): (r: seq<Scraper>)
    ensures forall s :: s in r <==> exists i :: 0 <= i < |flags| && flags[i] == (s, true)
  {
    if flags == [] then []
    else (if flags[0].1 then [flags[0].0] else []) + Enabled(flags[1..])
  }

  /** main's start-up selection: append every scraper whose flag is true. */
  method EnabledScrapers(flags: seq<(Scraper, bool)>) returns (enabled: seq<Scraper>)
    ensures enabled == Enabled(flags)
  {
    enabled := [];
    for i := 0 to |flags|
      invariant enabled + Enabled(flags[i..]) == Enabled(flags)
    {
      assert flags[i..][0] == flags[i] && flags[i..][1..] == flags[i + 1..];
      var (scraper, on) := flags[i];
      if on {
        enabled := enabled + [scraper];
      }
    }
    assert flags[|flags|..] == [];
    assert enabled + [] == enabled;
  }

  /** Unless a flag turns one off, both scrapers are enabled. */
  lemma DefaultsEnableBoth()
    ensures Enabled(DefaultScrapers) == [ScrapeAssets, ScrapeAllocation]
  {
    assert DefaultScrapers[1..][1..] == [];
  }
}
