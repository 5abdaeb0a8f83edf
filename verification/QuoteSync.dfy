/** Fetching every page of a provider's quotes and keeping the collectable ones. */
module QuoteSync {
  import opened Prelude

  const PAGE_LIMIT := 50
  const HISTORY_LIMIT := 100_000
  const MAX_QUOTE_ID := 512

  /** A quote as decoded from JSON: a field is `None` when missing or of another type. */
  datatype Quote = Quote(
    mintUrl: Option<string>, unit: Option<string>, quoteId: Option<string>, amount: Option<nat>,
    locked: Option<bool>, state: Option<string>, request: Option<string>)

  datatype Page = Page(quotes: Option<seq<Quote>>, total: Option<nat>)

  datatype Invoice = Invoice(mainnet: bool, msats: Option<nat>)

  /** Parsers and stores outside the model: mint address normalisation, BOLT11, and
      whether the wallet database accepts a quote. */
  datatype Env = Env(
    importMint: string -> Option<string>, parseInvoice: string -> Option<Invoice>, accepts: Quote -> bool)

  function CheckedMul(a: nat, b: nat): Option<nat> {
    if a * b <= U64_MAX then Some(a * b) else None
  }

  /** `Ok(true)` to store, `Ok(false)` to skip. */
  function Validate(env: Env, quote: Quote, mint: string): Result<bool> {
    if quote.mintUrl == None || env.importMint(quote.mintUrl.value) == None then Err
    else if env.importMint(quote.mintUrl.value) != Some(mint) then Ok(false)
    else if quote.unit != None && quote.unit != Some("sat") then Err
    else if quote.quoteId == None || quote.quoteId.value == "" || |quote.quoteId.value| > MAX_QUOTE_ID then Err
    else if quote.amount == None || quote.amount == Some(0) then Err
    else if quote.locked == None then Err
    else if quote.state == Some("ISSUED") then Ok(false)
    else if quote.state != Some("PAID") && quote.state != Some("INFLIGHT") then Err
    else if quote.request == None then Err
    else
      match env.parseInvoice(quote.request.value)
      case None => Err
      case Some(invoice) =>
        if invoice.mainnet && invoice.msats == CheckedMul(quote.amount.value, 1000) then Ok(true) else Err
  }

  /** A quote of this mint, in sats, payable to the holder, whose invoice is its own. */
  predicate Sound(env: Env, quote: Quote, mint: string) {
    && quote.mintUrl.Some? && env.importMint(quote.mintUrl.value) == Some(mint)
    && quote.unit in {None, Some("sat")}
    && quote.amount.Some? && quote.amount.value > 0
    && quote.state in {Some("PAID"), Some("INFLIGHT")}
    && quote.request.Some? && env.parseInvoice(quote.request.value).Some?
    && env.parseInvoice(quote.request.value).value.mainnet
    && env.parseInvoice(quote.request.value).value.msats == Some(1000 * quote.amount.value)
  }

  /** A quote accepted for storage is sound exactly when its amount in millisats fits
      in `u64`; beyond that the overflow matches an invoice that names no amount. */
  lemma AcceptedIsSound(env: Env, quote: Quote, mint: string)
    requires Validate(env, quote, mint) == Ok(true)
    ensures Sound(env, quote, mint) <==> 1000 * quote.amount.value <= U64_MAX
    ensures !Sound(env, quote, mint) ==> env.parseInvoice(quote.request.value).value.msats == None
  {
    assert quote.amount.value * 1000 == 1000 * quote.amount.value;
  }

  /** Validation both ways, in the fields: which quotes are stored, which are skipped, and
      that every other one stops the pass. */
  lemma ValidatedExactly(env: Env, quote: Quote, mint: string)
    ensures Validate(env, quote, mint) == Ok(true) <==>
      && quote.mintUrl.Some? && env.importMint(quote.mintUrl.value) == Some(mint)
      && (quote.unit == None || quote.unit == Some("sat"))
      && quote.quoteId.Some? && 0 < |quote.quoteId.value| <= 512
      && quote.amount.Some? && quote.amount.value > 0 && quote.locked.Some?
      && (quote.state == Some("PAID") || quote.state == Some("INFLIGHT"))
      && quote.request.Some? && env.parseInvoice(quote.request.value).Some?
      && env.parseInvoice(quote.request.value).value.mainnet
      && env.parseInvoice(quote.request.value).value.msats
           == if quote.amount.value * 1000 <= U64_MAX then Some(quote.amount.value * 1000) else None
    ensures Validate(env, quote, mint) == Ok(false) <==>
      && quote.mintUrl.Some? && env.importMint(quote.mintUrl.value).Some?
      && (|| env.importMint(quote.mintUrl.value) != Some(mint)
          || ((quote.unit == None || quote.unit == Some("sat"))
              && quote.quoteId.Some? && 0 < |quote.quoteId.value| <= 512
              && quote.amount.Some? && quote.amount.value > 0 && quote.locked.Some?
              && quote.state == Some("ISSUED")))
  {
  }

  /** Such a quote: 2^64 - 1 sats with an amountless invoice is accepted. */
  lemma OverflowAccepted() returns (env: Env, quote: Quote)
    ensures Validate(env, quote, "m") == Ok(true) && !Sound(env, quote, "m")
  {
    env := Env((s: string) => Some("m"), (s: string) => Some(Invoice(true, None)), (q: Quote) => true);
    quote := Quote(Some("m"), None, Some("id"), Some(U64_MAX), Some(true), Some("PAID"), Some("lnbc"));
  }

  /** What a complete pass over these quotes stores, the mint address normalised. */
  function Kept(env: Env, quotes: seq<Quote>, mint: string): seq<Quote> {
    if quotes == [] then []
    else
      var last := quotes[|quotes| - 1];
      Kept(env, quotes[..|quotes| - 1], mint)
      + (if Validate(env, last, mint) == Ok(true) then [last.(mintUrl := Some(mint))] else [])
  }

  predicate NoneInvalid(env: Env, quotes: seq<Quote>, mint: string) {
    forall i :: 0 <= i < |quotes| ==> Validate(env, quotes[i], mint).Ok?
  }

  /** A provider whose history does not change: each call returns some next stretch of
      it, never empty before the end, and its length. */
  ghost predicate Serves(fetch: (nat, nat) -> Option<Page>, history: seq<Quote>) {
    forall call: nat, offset: nat {:trigger fetch(call, offset)} :: offset <= |history| && fetch(call, offset).Some? ==>
      var page := fetch(call, offset).value;
      && page.total == Some(|history|)
      && page.quotes.Some? && offset + |page.quotes.value| <= |history|
      && page.quotes.value == history[offset..offset + |page.quotes.value|]
  }

  /** It answers every call with a page that makes progress, within the limits. */
  ghost predicate Reliable(fetch: (nat, nat) -> Option<Page>, history: seq<Quote>) {
    && |history| <= 100_000
    && forall call: nat, offset: nat {:trigger fetch(call, offset)} :: offset <= |history| ==>
      && fetch(call, offset).Some?
      && (fetch(call, offset).value.quotes.Some? ==>
            && |fetch(call, offset).value.quotes.value| <= 50
            && (offset < |history| ==> fetch(call, offset).value.quotes.value != []))
  }

  predicate Storable(env: Env, quotes: seq<Quote>, mint: string) {
    && NoneInvalid(env, quotes, mint)
    && forall i :: 0 <= i < |quotes| ==> env.accepts(quotes[i].(mintUrl := Some(mint)))
  }

  /** A stored quote is one of these, validated, under the normalised mint address. */
  ghost predicate FromValid(env: Env, quotes: seq<Quote>, mint: string, stored: Quote) {
    exists quote :: quote in quotes && Validate(env, quote, mint) == Ok(true) && stored == quote.(mintUrl := Some(mint))
  }

  lemma {:induction false} KeptAreValid(env: Env, quotes: seq<Quote>, mint: string)
    ensures forall stored :: stored in Kept(env, quotes, mint) ==> FromValid(env, quotes, mint, stored)
  {
    if quotes != [] {
      var rest, last := quotes[..|quotes| - 1], quotes[|quotes| - 1];
      KeptAreValid(env, rest, mint);
      assert quotes == rest + [last];
      forall stored | stored in Kept(env, quotes, mint) ensures FromValid(env, quotes, mint, stored) {
        if stored in Kept(env, rest, mint) {
          var quote :|
            quote in rest && Validate(env, quote, mint) == Ok(true) && stored == quote.(mintUrl := Some(mint));
          assert quote in quotes;
        } else {
          assert last in quotes && stored == last.(mintUrl := Some(mint));
        }
      }
    }
  }

  /** Validates and stores one page in order; stops before the first bad quote, keeping
      what it stored by then. */
  method StorePage(env: Env, quotes: seq<Quote>, mint: string) returns (done: nat, stored: seq<Quote>)
    ensures done <= |quotes| && NoneInvalid(env, quotes[..done], mint) && stored == Kept(env, quotes[..done], mint)
    ensures Storable(env, quotes, mint) ==> done == |quotes|
    ensures done < |quotes| ==>
      Validate(env, quotes[done], mint).Err? || !env.accepts(quotes[done].(mintUrl := Some(mint)))
  {
    stored, done := [], 0;
    while done < |quotes|
      invariant 0 <= done <= |quotes|
      invariant NoneInvalid(env, quotes[..done], mint) && stored == Kept(env, quotes[..done], mint)
    {
      assert quotes[..done + 1][..done] == quotes[..done];
      match Validate(env, quotes[done], mint)
      case Err =>
        return;
      case Ok(keep) =>
        if keep {
          var quote := quotes[done].(mintUrl := Some(mint));
          if !env.accepts(quote) {
            return;
          }
          stored := stored + [quote];
        }
      done := done + 1;
    }
  }

  /** With `KeptConcat`, exactly what is kept: each valid quote once, in order, with its
      mint address normalised, and nothing else. */
  lemma KeptOne(env: Env, quote: Quote, mint: string)
    ensures Kept(env, [quote], mint) ==
      if Validate(env, quote, mint) == Ok(true) then [quote.(mintUrl := Some(mint))] else []
    ensures Kept(env, [], mint) == []
  {
  }

  lemma {:induction false} KeptConcat(env: Env, a: seq<Quote>, b: seq<Quote>, mint: string)
    ensures Kept(env, a + b, mint) == Kept(env, a, mint) + Kept(env, b, mint)
  {
    if b == [] {
      assert a + b == a;
    } else {
      KeptConcat(env, a, b[..|b| - 1], mint);
      assert (a + b)[..|a + b| - 1] == a + b[..|b| - 1];
    }
  }

  /** Some call returned a page with this quote. */
  ghost predicate Fetched(fetch: (nat, nat) -> Option<Page>, quote: Quote) {
    exists call: nat, offset: nat {:trigger fetch(call, offset)} ::
      && fetch(call, offset).Some? && fetch(call, offset).value.quotes.Some?
      && quote in fetch(call, offset).value.quotes.value
  }

  /** A stretch of the provider's quotes, each of them valid, and what is kept of it. */
  ghost predicate Examined(
    env: Env, mint: string, fetch: (nat, nat) -> Option<Page>, quotes: seq<Quote>, stored: seq<Quote>)
  {
    && NoneInvalid(env, quotes, mint) && stored == Kept(env, quotes, mint)
    && (forall quote :: quote in quotes ==> Fetched(fetch, quote))
  }

  lemma ExaminedMore(env: Env, mint: string, fetch: (nat, nat) -> Option<Page>, call: nat, offset: nat, done: nat,
                     quotes: seq<Quote>, stored: seq<Quote>)
    requires Examined(env, mint, fetch, quotes, stored)
    requires fetch(call, offset).Some? && fetch(call, offset).value.quotes.Some?
    requires done <= |fetch(call, offset).value.quotes.value|
    requires NoneInvalid(env, fetch(call, offset).value.quotes.value[..done], mint)
    ensures var page := fetch(call, offset).value.quotes.value[..done];
      Examined(env, mint, fetch, quotes + page, stored + Kept(env, page, mint))
  {
    var page := fetch(call, offset).value.quotes.value[..done];
    KeptConcat(env, quotes, page, mint);
    assert forall quote :: quote in page ==> quote in fetch(call, offset).value.quotes.value;
  }

  /** Follows the pages until the announced total. `fetch` is any provider, free to
      answer each call differently. Whether the pass finishes or fails, what it stored
      came from the provider and was validated. */
  method SyncQuotes(env: Env, mint: string, fetch: (nat, nat) -> Option<Page>, ghost history: seq<Quote>)
    returns (ok: bool, examined: seq<Quote>, stored: seq<Quote>, calls: nat)
    ensures calls <= 100_001 && |examined| < 100_050
    ensures Examined(env, mint, fetch, examined, stored)
    ensures forall quote :: quote in stored ==> FromValid(env, examined, mint, quote)
    ensures ok && Serves(fetch, history) ==> examined == history
    ensures Serves(fetch, history) && Reliable(fetch, history) && Storable(env, history, mint) ==> ok
  {
    examined, stored, calls, ok := [], [], 0, false;
    var offset: nat := 0;
    while true
      invariant offset == |examined| && calls <= offset && !ok
      invariant Examined(env, mint, fetch, examined, stored)
      invariant Serves(fetch, history) ==> offset <= |history| && examined == history[..offset]
      invariant Serves(fetch, history) && offset > 0 ==> offset < |history|
      invariant offset < HISTORY_LIMIT || offset == 0
      decreases HISTORY_LIMIT - offset
    {
      var answer := fetch(calls, offset);
      calls := calls + 1;
      if answer == None || answer.value.quotes == None || answer.value.total == None {
        break;
      }
      var quotes, total := answer.value.quotes.value, answer.value.total.value;
      if |quotes| > PAGE_LIMIT || total > HISTORY_LIMIT {
        break;
      }
      var done, kept := StorePage(env, quotes, mint);
      ExaminedMore(env, mint, fetch, calls - 1, offset, done, examined, stored);
      examined, stored := examined + quotes[..done], stored + kept;
      if done < |quotes| {
        break;
      }
      assert quotes[..done] == quotes;
      offset := offset + |quotes|;
      if offset >= total {
        ok := true;
        break;
      }
      if quotes == [] {
        break;
      }
    }
    KeptAreValid(env, examined, mint);
  }
}
