/** The token catalogue of the swap form: the raw price feed, the tokens it
    is normalised into, lookup of a token by symbol (Array.prototype.find)
    and the duplicate-dropping reduce that runs when the feed arrives. */
module TokenCatalog {

  datatype Option<T> = None | Some(value: T)

  /** One entry of the price feed: { currency, price, ... }. Prices are
      only carried along, so a real stands for the JavaScript number. */
  datatype FeedEntry = FeedEntry(currency: string, price: real)

  /** A catalogue entry: { symbol, price, imageUrl }. */
  datatype Token = Token(symbol: string, price: real, imageUrl: string)

  const IconPrefix: string := "https://raw.githubusercontent.com/Switcheo/token-icons/main/tokens/"
  const IconSuffix: string := ".svg"

  /** The icon URL of a symbol: the fixed prefix, the symbol, ".svg". */
  function ImageUrl(symbol: string): string
  {
    IconPrefix + symbol + IconSuffix
  }

  /** Reads the symbol back out of an icon URL. */
  function SymbolOfImageUrl(url: string): (r: Option<string>)
    ensures r.Some? ==> ImageUrl(r.value) == url
  {
    if |url| >= |IconPrefix| + |IconSuffix|
       && url[..|IconPrefix|] == IconPrefix
       && url[|url| - |IconSuffix|..] == IconSuffix
    then
      var s := url[|IconPrefix|..|url| - |IconSuffix|];
      assert url == url[..|IconPrefix|] + s + url[|url| - |IconSuffix|..];
      Some(s)
    else None
  }

  /** The icon URL determines its symbol: no two symbols share an icon. */
  lemma ImageUrlRoundTrip(symbol: string)
    ensures SymbolOfImageUrl(ImageUrl(symbol)) == Some(symbol)
  {
    var url := ImageUrl(symbol);
    assert url[..|IconPrefix|] == IconPrefix;
    assert url[|url| - |IconSuffix|..] == IconSuffix;
    assert url[|IconPrefix|..|url| - |IconSuffix|] == symbol;
  }

  /** The token built for a feed entry that is kept. */
  function MakeToken(e: FeedEntry): (t: Token)
    ensures t.symbol == e.currency && t.price == e.price
    ensures SymbolOfImageUrl(t.imageUrl) == Some(e.currency)
  {
    ImageUrlRoundTrip(e.currency);
    Token(e.currency, e.price, ImageUrl(e.currency))
  }

  /** The symbols of a token list. */
  function Symbols(tokens: seq<Token>): set<string>
  {
    set k | 0 <= k < |tokens| :: tokens[k].symbol
  }

  /** The currencies named in a feed. */
  function Currencies(feed: seq<FeedEntry>): set<string>
  {
    set i | 0 <= i < |feed| :: feed[i].currency
  }

  /** tokens.find((token) => token.symbol === symbol): the first token with
      that symbol, or nothing when no token has it. */
  function Find(tokens: seq<Token>, symbol: string): (r: Option<Token>)
    ensures r.None? <==> forall k :: 0 <= k < |tokens| ==> tokens[k].symbol != symbol
    ensures r.Some? ==> r.value.symbol == symbol
    ensures r.Some? ==> (exists k :: 0 <= k < |tokens| && tokens[k] == r.value
                           && forall j :: 0 <= j < k ==> tokens[j].symbol != symbol)
  {
    if tokens == [] then None
    else if tokens[0].symbol == symbol then Some(tokens[0])
    else
      var r := Find(tokens[1..], symbol);
      FindShift(tokens, symbol, r);
      r
  }

  /** A match found in the tail, after a head that does not match, is the
      first match of the whole list. */
  lemma FindShift(tokens: seq<Token>, symbol: string, r: Option<Token>)
    requires tokens != [] && tokens[0].symbol != symbol
    requires r.Some? ==> (exists k :: 0 <= k < |tokens| - 1 && tokens[1..][k] == r.value
                            && forall j :: 0 <= j < k ==> tokens[1..][j].symbol != symbol)
    ensures r.Some? ==> (exists k :: 0 <= k < |tokens| && tokens[k] == r.value
                           && forall j :: 0 <= j < k ==> tokens[j].symbol != symbol)
  {
    if r.Some? {
      var k :| 0 <= k < |tokens| - 1 && tokens[1..][k] == r.value
               && forall j :: 0 <= j < k ==> tokens[1..][j].symbol != symbol;
      assert tokens[k + 1] == r.value;
      forall j | 0 <= j < k + 1 ensures tokens[j].symbol != symbol {
        if j > 0 { assert tokens[j] == tokens[1..][j - 1]; }
      }
    }
  }

  /** find succeeds exactly for the symbols of the list. */
  lemma FindIffSymbol(tokens: seq<Token>, symbol: string)
    ensures Find(tokens, symbol).Some? <==> symbol in Symbols(tokens)
  {
    if symbol in Symbols(tokens) {
      var k :| 0 <= k < |tokens| && tokens[k].symbol == symbol;
    }
  }

  /** No symbol occurs twice. */
  predicate UniqueSymbols(tokens: seq<Token>)
  {
    forall j, k :: 0 <= j < k < |tokens| ==> tokens[j].symbol != tokens[k].symbol
  }

  /** Entry i is the first in the feed with its currency. */
  predicate IsFirstOccurrence(feed: seq<FeedEntry>, i: int)
  {
    0 <= i < |feed| && forall j :: 0 <= j < i ==> feed[j].currency != feed[i].currency
  }

  /** The catalogue the reduce builds from a feed: a left fold that appends
      a token for an entry whose currency is not yet a symbol of the
      accumulator and otherwise leaves the accumulator as it is. */
  function Normalize(feed: seq<FeedEntry>): (tokens: seq<Token>)
    ensures UniqueSymbols(tokens)
    ensures |tokens| <= |feed|
  {
    if feed == [] then []
    else
      var acc := Normalize(feed[..|feed| - 1]);
      var e := feed[|feed| - 1];
      if e.currency in Symbols(acc) then acc
      else
        assert forall k :: 0 <= k < |acc| ==> acc[k].symbol in Symbols(acc);
        acc + [MakeToken(e)]
  }

  /** The feed positions the tokens of Normalize(feed) come from, in the
      same order. */
  ghost function Origins(feed: seq<FeedEntry>): seq<nat>
  {
    if feed == [] then []
    else
      var e := feed[|feed| - 1];
      if e.currency in Symbols(Normalize(feed[..|feed| - 1]))
      then Origins(feed[..|feed| - 1])
      else Origins(feed[..|feed| - 1]) + [|feed| - 1]
  }

  lemma CurrenciesSnoc(pre: seq<FeedEntry>, e: FeedEntry)
    ensures Currencies(pre + [e]) == Currencies(pre) + {e.currency}
  {
    var feed := pre + [e];
    assert feed[|pre|].currency == e.currency;
    forall c | c in Currencies(feed) ensures c in Currencies(pre) + {e.currency} {
      var i :| 0 <= i < |feed| && feed[i].currency == c;
      if i < |pre| { assert pre[i] == feed[i]; }
    }
    forall c | c in Currencies(pre) ensures c in Currencies(feed) {
      var i :| 0 <= i < |pre| && pre[i].currency == c;
      assert feed[i] == pre[i];
    }
  }

  lemma SymbolsSnoc(acc: seq<Token>, t: Token)
    ensures Symbols(acc + [t]) == Symbols(acc) + {t.symbol}
  {
    var acc' := acc + [t];
    assert acc'[|acc|].symbol == t.symbol;
    forall c | c in Symbols(acc') ensures c in Symbols(acc) + {t.symbol} {
      var k :| 0 <= k < |acc'| && acc'[k].symbol == c;
      if k < |acc| { assert acc'[k] == acc[k]; }
    }
    forall c | c in Symbols(acc) ensures c in Symbols(acc') {
      var k :| 0 <= k < |acc| && acc[k].symbol == c;
      assert acc'[k] == acc[k];
    }
  }

  /** The symbols of the catalogue are exactly the currencies of the feed:
      every currency appears, and nothing else does. */
  lemma {:induction false} NormalizeSymbols(feed: seq<FeedEntry>)
    ensures Symbols(Normalize(feed)) == Currencies(feed)
  {
    if feed != [] {
      var n := |feed| - 1;
      var pre, e := feed[..n], feed[n];
      assert feed == pre + [e];
      NormalizeSymbols(pre);
      CurrenciesSnoc(pre, e);
      if e.currency !in Symbols(Normalize(pre)) {
        SymbolsSnoc(Normalize(pre), MakeToken(e));
      }
    }
  }

  /** How appending an entry to a feed changes its first occurrences. */
  lemma FirstOccurrenceSnoc(pre: seq<FeedEntry>, e: FeedEntry, i: int)
    ensures IsFirstOccurrence(pre + [e], i) <==>
      (i < |pre| && IsFirstOccurrence(pre, i)) || (i == |pre| && e.currency !in Currencies(pre))
  {
    var feed := pre + [e];
    if 0 <= i < |pre| {
      assert feed[i] == pre[i];
      assert forall j :: 0 <= j < i ==> feed[j] == pre[j];
    } else if i == |pre| {
      if e.currency in Currencies(pre) {
        var j :| 0 <= j < |pre| && pre[j].currency == e.currency;
        assert feed[j] == pre[j];
      } else {
        forall j | 0 <= j < i ensures feed[j].currency != e.currency {
          assert feed[j] == pre[j];
          assert pre[j].currency in Currencies(pre);
        }
      }
    }
  }

  /** Each token of Normalize(feed) is the token of a first occurrence, and
      the positions they come from, Origins(feed), increase: the catalogue
      keeps feed order. */
  lemma {:induction false} NormalizeOrigins(feed: seq<FeedEntry>)
    ensures |Origins(feed)| == |Normalize(feed)|
    ensures forall k :: 0 <= k < |Origins(feed)| ==>
      IsFirstOccurrence(feed, Origins(feed)[k])
      && Normalize(feed)[k] == MakeToken(feed[Origins(feed)[k]])
    ensures forall j, k :: 0 <= j < k < |Origins(feed)| ==> Origins(feed)[j] < Origins(feed)[k]
  {
    if feed != [] {
      var n := |feed| - 1;
      var pre, e := feed[..n], feed[n];
      assert feed == pre + [e];
      NormalizeOrigins(pre);
      NormalizeSymbols(pre);
      var acc, org := Normalize(pre), Origins(pre);
      forall k | 0 <= k < |org| ensures IsFirstOccurrence(feed, org[k]) && feed[org[k]] == pre[org[k]] {
        FirstOccurrenceSnoc(pre, e, org[k]);
      }
      if e.currency !in Symbols(acc) {
        FirstOccurrenceSnoc(pre, e, n);
        var acc', org' := acc + [MakeToken(e)], org + [n];
        forall k | 0 <= k < |org'|
          ensures IsFirstOccurrence(feed, org'[k]) && acc'[k] == MakeToken(feed[org'[k]])
        {
          if k < |org| {
            assert org'[k] == org[k] && acc'[k] == acc[k];
          }
        }
      }
    }
  }

  /** Every first occurrence of a currency in the feed gives a token. */
  lemma {:induction false} NormalizeComplete(feed: seq<FeedEntry>, i: int)
    requires IsFirstOccurrence(feed, i)
    ensures i in Origins(feed)
  {
    var n := |feed| - 1;
    var pre, e := feed[..n], feed[n];
    assert feed == pre + [e];
    FirstOccurrenceSnoc(pre, e, i);
    NormalizeSymbols(pre);
    if i < n {
      NormalizeComplete(pre, i);
    }
  }

  /** First occurrence wins: the token for a symbol carries the price of the
      first feed entry with that currency; later duplicates are dropped. */
  lemma NormalizeFirstWins(feed: seq<FeedEntry>, i: int)
    requires IsFirstOccurrence(feed, i)
    ensures Find(Normalize(feed), feed[i].currency) == Some(MakeToken(feed[i]))
  {
    NormalizeOrigins(feed);
    NormalizeComplete(feed, i);
    var out, org := Normalize(feed), Origins(feed);
    var k :| 0 <= k < |org| && org[k] == i;
    var r := Find(out, feed[i].currency);
    assert out[k].symbol == feed[i].currency;
    var k' :| 0 <= k' < |out| && out[k'] == r.value;
    assert k' == k;
  }

  /** The reduce of the load callback: walks the feed once, appending a token
      for each entry whose currency find does not yet see in the
      accumulator. */
  method NormalizeFeed(feed: seq<FeedEntry>) returns (tokens: seq<Token>)
    ensures tokens == Normalize(feed)
  {
    tokens := [];
    for i := 0 to |feed|
      invariant tokens == Normalize(feed[..i])
    {
      var e := feed[i];
      assert feed[..i + 1][..i] == feed[..i];
      if Find(tokens, e.currency).None? {
        tokens := tokens + [MakeToken(e)];
      }
    }
    assert feed[..|feed|] == feed;
  }

  /** A feed that repeats BTC keeps one BTC token, at the first price. */
  lemma DuplicateFeedExample()
    ensures Normalize([FeedEntry("BTC", 50000.0), FeedEntry("BTC", 51000.0)])
            == [Token("BTC", 50000.0, ImageUrl("BTC"))]
  {
    var feed := [FeedEntry("BTC", 50000.0), FeedEntry("BTC", 51000.0)];
    assert feed[..1] == [FeedEntry("BTC", 50000.0)];
    assert [FeedEntry("BTC", 50000.0)][..0] == [];
    var one := Normalize(feed[..1]);
    assert one == [Token("BTC", 50000.0, ImageUrl("BTC"))];
    assert one[0].symbol == "BTC";
  }
}
