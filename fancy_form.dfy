/** The currency-swap form component: its state (the token catalogue, the
    error message, the loading flag, the last conversion result and the
    form's amount/from/to fields), the two outcomes of the price-feed load,
    the swap handler and the from/to switch. The floating-point conversion
    amount * fromPrice / toPrice followed by toFixed(4) is a parameter,
    quote, so only the decision structure is modelled. */
module FancyForm {
  import opened TokenCatalog

  const InvalidTokenData: string := "Invalid token data."
  const LoadFailure: string := "Failed to load tokens."

  /** { fromAmount, fromSymbol, toAmount, toSymbol } */
  datatype ConversionResult =
    ConversionResult(fromAmount: string, fromSymbol: string, toAmount: string, toSymbol: string)

  /** The form's values { amount, from, to }; a selection not yet made is
      None (undefined in the source). */
  datatype FormValues = FormValues(amount: string, from: Option<string>, to: Option<string>)

  /** What handleSwap decides: a new result, or the invalid-token error. */
  datatype SwapOutcome = Converted(result: ConversionResult) | Invalid

  /** tokens.find((token) => token.symbol === field); an undefined field
      matches no token. */
  function LookUp(tokens: seq<Token>, field: Option<string>): (r: Option<Token>)
    ensures r.Some? <==> field.Some? && field.value in Symbols(tokens)
    ensures field.Some? ==> r == Find(tokens, field.value)
  {
    if field.None? then None
    else
      FindIffSymbol(tokens, field.value);
      Find(tokens, field.value)
  }

  /** The decision handleSwap takes on the current catalogue and form
      values: both tokens found gives a result carrying the form's amount
      and symbols; otherwise the invalid-token error. Equal from and to are
      not rejected. */
  function Swap(tokens: seq<Token>, values: FormValues, quote: (string, real, real) -> string): (r: SwapOutcome)
    ensures r.Converted? <==>
      values.from.Some? && values.from.value in Symbols(tokens)
      && values.to.Some? && values.to.value in Symbols(tokens)
    ensures r.Converted? ==>
      r.result.fromAmount == values.amount && r.result.fromSymbol == values.from.value
      && r.result.toSymbol == values.to.value
      && r.result.toAmount == quote(values.amount, Find(tokens, values.from.value).value.price,
                                    Find(tokens, values.to.value).value.price)
  {
    var fromToken := LookUp(tokens, values.from);
    var toToken := LookUp(tokens, values.to);
    if fromToken.Some? && toToken.Some? then
      Converted(ConversionResult(values.amount, values.from.value,
                                 quote(values.amount, fromToken.value.price, toToken.value.price),
                                 values.to.value))
    else Invalid
  }

  /** Swapping a token for itself is computed like any other swap: it
      succeeds whenever the token is in the catalogue, with the token's own
      price on both sides of the quote. */
  lemma SwapSameToken(tokens: seq<Token>, amount: string, symbol: string,
                      quote: (string, real, real) -> string)
    requires symbol in Symbols(tokens)
    ensures var price := Find(tokens, symbol).value.price;
      Swap(tokens, FormValues(amount, Some(symbol), Some(symbol)), quote)
      == Converted(ConversionResult(amount, symbol, quote(amount, price, price), symbol))
  {
    FindIffSymbol(tokens, symbol);
  }

  /** On a catalogue normalised from a feed, a swap quotes the prices of the
      first feed entries of the two currencies. */
  lemma SwapUsesFirstPrices(feed: seq<FeedEntry>, amount: string, i: int, j: int,
                            quote: (string, real, real) -> string)
    requires IsFirstOccurrence(feed, i) && IsFirstOccurrence(feed, j)
    ensures Swap(Normalize(feed), FormValues(amount, Some(feed[i].currency), Some(feed[j].currency)), quote)
      == Converted(ConversionResult(amount, feed[i].currency,
                                    quote(amount, feed[i].price, feed[j].price), feed[j].currency))
  {
    NormalizeFirstWins(feed, i);
    NormalizeFirstWins(feed, j);
  }

  /** In a catalogue without duplicate symbols, the token a selection finds
      is the only token with that symbol. */
  lemma LookUpOnlyMatch(tokens: seq<Token>, field: Option<string>)
    requires UniqueSymbols(tokens)
    requires LookUp(tokens, field).Some?
    ensures forall k :: 0 <= k < |tokens| && tokens[k].symbol == field.value ==>
      tokens[k] == LookUp(tokens, field).value
  {
    var t := LookUp(tokens, field).value;
    var i :| 0 <= i < |tokens| && tokens[i] == t
             && forall j :: 0 <= j < i ==> tokens[j].symbol != field.value;
    forall k | 0 <= k < |tokens| && tokens[k].symbol == field.value ensures tokens[k] == t {
      if k != i {
        assert false;
      }
    }
  }

  /** A required field passes antd's required rule: present and not "". */
  predicate Required(field: Option<string>)
  {
    field.Some? && field.value != ""
  }

  /** form.validateFields() resolves: amount and to are required fields;
      from has no rule. */
  predicate Validates(values: FormValues)
  {
    values.amount != "" && Required(values.to)
  }

  /** The field values after handleSwitchTokens: from and to exchanged when
      validation passes, nothing changed when it does not. */
  function Switched(values: FormValues): (r: FormValues)
    ensures r.amount == values.amount
    ensures multiset{r.from, r.to} == multiset{values.from, values.to}
    ensures Validates(values) ==> r.from == values.to && r.to == values.from
    ensures !Validates(values) ==> r == values
  {
    if Validates(values) then values.(from := values.to, to := values.from) else values
  }

  /** Switching twice restores the fields exactly when the first switch did
      nothing or from was filled in too; when only to was filled in, the
      first switch empties to and the second is refused by validation. */
  lemma SwitchTwice(values: FormValues)
    ensures Switched(Switched(values)) == values <==> !Validates(values) || Required(values.from)
  {
    if Validates(values) && !Required(values.from) {
      assert Switched(values).to == values.from;
      assert Switched(Switched(values)) == Switched(values);
      assert Switched(values).to != values.to;
    }
  }

  /** The component's state. */
  class SwapForm {
    var tokens: seq<Token>
    var error: string
    var loading: bool
    var conversionResult: Option<ConversionResult>
    var amount: string
    var from: Option<string>
    var to: Option<string>
    /** Whether the mount-time price-feed request has settled. */
    ghost var settled: bool

    /** The catalogue has unique symbols and is empty until the feed has
        arrived; a result on display names tokens of the catalogue (so the
        icon lookups of the result view find them); the error is one of the
        component's messages. */
    ghost predicate Valid()
      reads this
    {
      && UniqueSymbols(tokens)
      && (!settled ==> tokens == [])
      && (conversionResult.Some? ==>
            conversionResult.value.fromSymbol in Symbols(tokens)
            && conversionResult.value.toSymbol in Symbols(tokens))
      && (error == "" || error == LoadFailure || error == InvalidTokenData)
    }

    function Values(): FormValues
      reads this
    {
      FormValues(amount, from, to)
    }

    /** Mount: an empty catalogue, no error, not loading, no result, an
        empty amount, and no selection (the initial from/to come from a
        catalogue that is still empty). */
    constructor ()
      ensures Valid() && !settled
      ensures tokens == [] && error == "" && !loading && conversionResult == None
      ensures Values() == FormValues("", None, None)
    {
      tokens, error, loading, conversionResult := [], "", false, None;
      amount, from, to := "", None, None;
      settled := false;
    }

    /** The user edits the form's fields through its widgets. */
    method Enter(values: FormValues)
      requires Valid()
      modifies this
      ensures Valid() && Values() == values && settled == old(settled)
      ensures tokens == old(tokens) && error == old(error) && loading == old(loading)
      ensures conversionResult == old(conversionResult)
    {
      amount, from, to := values.amount, values.from, values.to;
    }

    /** The feed arrived: the normalised catalogue replaces the empty one. */
    method LoadSucceeded(feed: seq<FeedEntry>)
      requires Valid() && !settled
      modifies this
      ensures Valid() && settled
      ensures tokens == Normalize(feed) && Symbols(tokens) == Currencies(feed)
      ensures error == old(error) && loading == old(loading)
      ensures conversionResult == old(conversionResult) && Values() == old(Values())
    {
      tokens := NormalizeFeed(feed);
      NormalizeSymbols(feed);
      settled := true;
    }

    /** The request or the normalisation failed: the load error is set and
        the catalogue stays empty. */
    method LoadFailed()
      requires Valid() && !settled
      modifies this
      ensures Valid() && settled
      ensures error == LoadFailure && tokens == []
      ensures loading == old(loading) && conversionResult == old(conversionResult)
      ensures Values() == old(Values())
    {
      error := LoadFailure;
      settled := true;
    }

    /** handleSwap, run as the form's onFinish on its current values, so
        only once amount and to have passed their required rules: a new
        result when both tokens are found (the error is left as it was),
        otherwise the invalid-token error (the previous result is left as
        it was); the loading flag set at the start is cleared at the end. */
    method HandleSwap(quote: (string, real, real) -> string)
      requires Valid() && Validates(Values())
      modifies this
      ensures Valid() && settled == old(settled)
      ensures match Swap(old(tokens), old(Values()), quote)
        case Converted(r) => conversionResult == Some(r) && error == old(error)
        case Invalid => conversionResult == old(conversionResult) && error == InvalidTokenData
      ensures !loading
      ensures tokens == old(tokens) && Values() == old(Values())
    {
      loading := true;
      var fromToken := LookUp(tokens, from);
      var toToken := LookUp(tokens, to);
      if fromToken.Some? && toToken.Some? {
        var toAmount := quote(amount, fromToken.value.price, toToken.value.price);
        conversionResult := Some(ConversionResult(amount, from.value, toAmount, to.value));
      } else {
        error := InvalidTokenData;
      }
      loading := false;
    }

    /** handleSwitchTokens: once validation passes, from takes the old to and
        to the old from; amount and everything else stay. */
    method HandleSwitchTokens()
      requires Valid()
      modifies this
      ensures Valid() && settled == old(settled)
      ensures Values() == Switched(old(Values()))
      ensures amount == old(amount)
      ensures Validates(old(Values())) ==> from == old(to) && to == old(from)
      ensures !Validates(old(Values())) ==> from == old(from) && to == old(to)
      ensures tokens == old(tokens) && error == old(error) && loading == old(loading)
      ensures conversionResult == old(conversionResult)
    {
      if Validates(Values()) {
        from, to := to, from;
      }
    }
  }
}
