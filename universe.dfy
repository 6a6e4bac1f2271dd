/** The symbol universe: the USDT-quoted futures pairs, fetched once and cached
    for the life of the process (fetch_binance_futures_usdt_pairs). */
module Universe {
  import opened Outcomes

  /** One entry of the exchange-info `symbols` list. A key that the entry lacks is None;
      reading it raises KeyError in the source. */
  datatype SymbolInfo = SymbolInfo(symbol: Option<string>, quoteAsset: Option<string>)

  const Usdt: string := "USDT"

  predicate IsUsdt(info: SymbolInfo) {
    info.quoteAsset == Some(Usdt)
  }

  /** The comprehension reads `quoteAsset` of every entry, and `symbol` only of the
      USDT-quoted ones; an entry is readable when neither read raises. */
  predicate Readable(info: SymbolInfo) {
    info.quoteAsset.Some? && (IsUsdt(info) ==> info.symbol.Some?)
  }

  /** The list comprehension over `data['symbols']`: None when it raises KeyError. */
  function ExtractUsdt(infos: seq<SymbolInfo>): (r: Option<seq<string>>)
    ensures r.None? <==> exists i :: 0 <= i < |infos| && !Readable(infos[i])
    ensures r.Some? ==> |r.value| <= |infos|
    ensures r.Some? ==> forall x :: x in r.value <==>
      exists i :: 0 <= i < |infos| && IsUsdt(infos[i]) && infos[i].symbol == Some(x)
  {
    if infos == [] then Some([])
    else
      var info := infos[0];
      var rest := ExtractUsdt(infos[1..]);
      assert forall i :: 1 <= i < |infos| ==> infos[i] == infos[1..][i - 1];
      if info.quoteAsset.None? then None
      else if info.quoteAsset.value != Usdt then rest
      else if info.symbol.None? then None
      else if rest.None? then None
      else Some([info.symbol.value] + rest.value)
  }

  /** The cache value one fetch attempt leaves behind: None on any failure. */
  function Loaded(response: Fetch<seq<SymbolInfo>>): (r: Option<seq<string>>)
    ensures response.Failed? ==> r.None?
    ensures r.Some? ==> |r.value| <= |response.payload|
  {
    match response
    case Failed => None
    case Fetched(infos) => ExtractUsdt(infos)
  }

  /** The list a call returns, given the cache before it and the response the
      exchange would give. */
  function PairsAfter(cache: Option<seq<string>>, response: Fetch<seq<SymbolInfo>>): (r: seq<string>)
    ensures cache.Some? ==> r == cache.value
    ensures cache.None? && Loaded(response).None? ==> r == []
  {
    match cache
    case Some(pairs) => pairs
    case None =>
      match Loaded(response)
      case Some(pairs) => pairs
      case None => []
  }

  /** The comprehension keeps the exchange's order: extracting from a concatenation
      concatenates the extractions. */
  lemma {:induction false} ExtractUsdtAppend(a: seq<SymbolInfo>, b: seq<SymbolInfo>)
    ensures ExtractUsdt(a + b) ==
      if ExtractUsdt(a).Some? && ExtractUsdt(b).Some?
      then Some(ExtractUsdt(a).value + ExtractUsdt(b).value)
      else None
  {
    if a == [] {
      assert a + b == b;
      if ExtractUsdt(b).Some? {
        assert [] + ExtractUsdt(b).value == ExtractUsdt(b).value;
      }
    } else {
      assert (a + b)[1..] == a[1..] + b;
      ExtractUsdtAppend(a[1..], b);
      if ExtractUsdt(a[1..]).Some? && ExtractUsdt(b).Some? && IsUsdt(a[0]) && a[0].symbol.Some? {
        assert [a[0].symbol.value] + (ExtractUsdt(a[1..]).value + ExtractUsdt(b).value)
            == ([a[0].symbol.value] + ExtractUsdt(a[1..]).value) + ExtractUsdt(b).value;
      }
    }
  }

  /** A successful load holds exactly the USDT-quoted symbols; a load fails exactly
      when the request fails or an entry cannot be read. */
  lemma LoadedExactly(response: Fetch<seq<SymbolInfo>>)
    ensures Loaded(response).None? <==>
      response.Failed? || exists i :: 0 <= i < |response.payload| && !Readable(response.payload[i])
    ensures Loaded(response).Some? ==> forall x :: x in Loaded(response).value <==>
      exists i :: 0 <= i < |response.payload| && IsUsdt(response.payload[i]) && response.payload[i].symbol == Some(x)
  {
  }

  /** The process-wide `usdt_pairs_cache` together with a count of the
      exchange-info requests made so far. */
  class PairCache {
    var cache: Option<seq<string>>
    var fetches: nat

    constructor ()
      ensures cache == None && fetches == 0
    {
      cache := None;
      fetches := 0;
    }

    /** Returns the cached pairs without a request once the cache is set; otherwise
        makes one request, and caches its result only when it succeeds. */
    method FetchUsdtPairs(response: Fetch<seq<SymbolInfo>>) returns (pairs: seq<string>)
      modifies this
      ensures old(cache).Some? ==> cache == old(cache) && fetches == old(fetches)
      ensures old(cache).None? ==> cache == Loaded(response) && fetches == old(fetches) + 1
      ensures pairs == PairsAfter(old(cache), response)
      ensures cache.Some? ==> pairs == cache.value
      ensures cache.None? ==> pairs == []
    {
      if cache.Some? {
        return cache.value;
      }
      fetches := fetches + 1;
      match response
      case Failed =>
        pairs := [];
      case Fetched(infos) =>
        var extracted := ExtractUsdt(infos);
        if extracted.None? {
          pairs := [];
        } else {
          cache := extracted;
          pairs := extracted.value;
        }
    }
  }
}
