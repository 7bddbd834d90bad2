/** The symbol validator of both bots (`validate_symbol`): a local format
    gate, a lazily fetched symbol set kept in an optional cache, and a
    membership test. The two bots differ only in which exchange-info
    endpoint they call, which the trace does not distinguish. */
module Validator {
  import opened Common
  import opened Text
  import opened Gateway

  /** The bot's only state: the cached symbol set, absent until a fetch
      succeeds. */
  datatype Bot = Bot(symbols: Option<set<string>>)

  /** What a bot operation returns: its value, the bot afterwards, and the
      calls it made. */
  datatype BotRun<+T> = BotRun(out: T, bot: Bot, calls: seq<Call>)

  const FetchApiFailed := "Unable to fetch symbol list"
  const FetchFailed := "Symbol list unavailable"

  /** The format gate: `isupper()`, no space character, some letter. */
  predicate FormatOk(symbol: string) {
    PyIsUpper(symbol) && ' ' !in symbol && HasAlpha(symbol)
  }

  /** For ASCII text the letter test adds nothing to `isupper`. */
  lemma UpperImpliesLetter(s: string)
    requires PyIsUpper(s)
    ensures HasAlpha(s)
  {
    var i :| 0 <= i < |s| && IsUpperChar(s[i]);
    assert IsAlphaChar(s[i]);
  }

  /** The gate accepts exactly the strings with an upper-case letter, no
      lower-case letter and no space; tabs and digits are let through. */
  lemma FormatOkIff(s: string)
    ensures FormatOk(s) <==>
      && (exists i :: 0 <= i < |s| && 'A' <= s[i] <= 'Z')
      && (forall i :: 0 <= i < |s| ==> !('a' <= s[i] <= 'z') && s[i] != ' ')
  {
    if PyIsUpper(s) {
      UpperImpliesLetter(s);
    }
  }

  /** The set built from the `symbol` fields of the exchange-info entries. */
  function SymbolSet(entries: seq<string>): (r: set<string>)
    ensures forall x :: x in r <==> x in entries
  {
    set x | x in entries
  }

  /** `validate_symbol(symbol)`: `Ok(true)`/`Ok(false)` for a verdict,
      `Raise(RuntimeError)` when the symbol set cannot be fetched. */
  function ValidateSymbol(bot: Bot, g: Gateway, at: nat, symbol: string): (r: BotRun<Result<bool>>)
    // the format gate answers without a call and without touching the cache
    ensures !FormatOk(symbol) ==> r.out == Ok(false) && r.calls == [] && r.bot == bot
    // a cached bot only tests membership
    ensures bot.symbols.Some? ==>
      r.calls == [] && r.bot == bot && r.out == Ok(FormatOk(symbol) && symbol in bot.symbols.value)
    // at most one call, and it is the exchange-info fetch
    ensures r.calls == [] || r.calls == [ExchangeInfo]
    // a fetch happens exactly when a well-formed symbol meets an empty cache
    ensures r.calls == [ExchangeInfo] <==> FormatOk(symbol) && bot.symbols.None?
    // a failed fetch raises RuntimeError and leaves the cache unset
    ensures r.out.Raise? ==>
      r.out.exc.RuntimeError? && r.bot == bot && bot.symbols.None? && r.calls == [ExchangeInfo]
    ensures r.out.Raise? <==> r.calls == [ExchangeInfo] && !(g.exchangeInfo(at).Ok? && g.exchangeInfo(at).value.Some?)
    // a successful fetch caches the fetched set
    ensures r.calls == [ExchangeInfo] && r.out.Ok? ==>
      g.exchangeInfo(at).Ok? && g.exchangeInfo(at).value.Some?
      && r.bot.symbols == Some(SymbolSet(g.exchangeInfo(at).value.value))
      && r.out.value == (symbol in SymbolSet(g.exchangeInfo(at).value.value))
    // once set, the cache never changes
    ensures bot.symbols.Some? ==> r.bot == bot
    ensures r.out == Ok(true) ==> r.bot.symbols.Some? && symbol in r.bot.symbols.value
  {
    if !FormatOk(symbol) then BotRun(Ok(false), bot, [])
    else if bot.symbols.Some? then BotRun(Ok(symbol in bot.symbols.value), bot, [])
    else
      match g.exchangeInfo(at)
      case Raise(ApiError(_, _)) => BotRun(Raise(RuntimeError(FetchApiFailed)), bot, [ExchangeInfo])
      case Raise(_) => BotRun(Raise(RuntimeError(FetchFailed)), bot, [ExchangeInfo])
      // the "Invalid API response format" error is caught by the same
      // handler's `except Exception` and re-raised as "Symbol list unavailable"
      case Ok(None) => BotRun(Raise(RuntimeError(FetchFailed)), bot, [ExchangeInfo])
      case Ok(Some(entries)) =>
        var valid := SymbolSet(entries);
        BotRun(Ok(symbol in valid), Bot(Some(valid)), [ExchangeInfo])
  }

  /** The error a failed fetch raises: an API error gives "Unable to fetch
      symbol list", any other failure "Symbol list unavailable". */
  lemma FetchErrorMessages(bot: Bot, g: Gateway, at: nat, symbol: string)
    requires FormatOk(symbol) && bot.symbols.None?
    ensures var r := ValidateSymbol(bot, g, at, symbol);
      && (g.exchangeInfo(at).Raise? && g.exchangeInfo(at).exc.ApiError? ==> r.out == Raise(RuntimeError(FetchApiFailed)))
      && (g.exchangeInfo(at).Raise? && !g.exchangeInfo(at).exc.ApiError? ==> r.out == Raise(RuntimeError(FetchFailed)))
      && (g.exchangeInfo(at) == Ok(None) ==> r.out == Raise(RuntimeError(FetchFailed)))
  {
  }

  /** Validating a sequence of symbols one after the other on one bot, the
      way a console keeps asking; a raised fetch error does not stop the
      sequence (the console reports it and asks again). */
  function ValidateMany(bot: Bot, g: Gateway, at: nat, symbols: seq<string>): BotRun<seq<Result<bool>>>
    decreases |symbols|
  {
    if |symbols| == 0 then BotRun([], bot, [])
    else
      var first := ValidateSymbol(bot, g, at, symbols[0]);
      var rest := ValidateMany(first.bot, g, at + |first.calls|, symbols[1..]);
      BotRun([first.out] + rest.out, rest.bot, first.calls + rest.calls)
  }

  /** Once the symbol set is cached, validations are pure membership tests:
      no call, no change of state. */
  lemma {:induction false} CachedValidationIsPure(bot: Bot, g: Gateway, at: nat, symbols: seq<string>)
    requires bot.symbols.Some?
    ensures var r := ValidateMany(bot, g, at, symbols);
      && r.calls == [] && r.bot == bot && |r.out| == |symbols|
      && forall i :: 0 <= i < |symbols| ==> r.out[i] == Ok(FormatOk(symbols[i]) && symbols[i] in bot.symbols.value)
    decreases |symbols|
  {
    if |symbols| > 0 {
      CachedValidationIsPure(bot, g, at, symbols[1..]);
      var r := ValidateMany(bot, g, at, symbols);
      var rest := ValidateMany(bot, g, at, symbols[1..]);
      forall i | 0 <= i < |symbols| ensures r.out[i] == Ok(FormatOk(symbols[i]) && symbols[i] in bot.symbols.value) {
        if i > 0 {
          assert r.out[i] == rest.out[i - 1];
        }
      }
    }
  }

  /** Every call validation makes is an exchange-info fetch. */
  lemma {:induction false} ValidationOnlyFetches(bot: Bot, g: Gateway, at: nat, symbols: seq<string>)
    ensures forall c :: c in ValidateMany(bot, g, at, symbols).calls ==> c == ExchangeInfo
    decreases |symbols|
  {
    if |symbols| > 0 {
      var first := ValidateSymbol(bot, g, at, symbols[0]);
      var rest := ValidateMany(first.bot, g, at + |first.calls|, symbols[1..]);
      ValidationOnlyFetches(first.bot, g, at + |first.calls|, symbols[1..]);
    }
  }

  /** With an exchange that always answers with a symbol list, a bot fetches
      the list at most once, however many symbols it validates. */
  lemma {:induction false} FetchAtMostOnce(bot: Bot, g: Gateway, at: nat, symbols: seq<string>)
    requires forall n :: g.exchangeInfo(n).Ok? && g.exchangeInfo(n).value.Some?
    ensures |ValidateMany(bot, g, at, symbols).calls| <= 1
    decreases |symbols|
  {
    if |symbols| > 0 {
      var first := ValidateSymbol(bot, g, at, symbols[0]);
      if first.calls == [] {
        FetchAtMostOnce(first.bot, g, at, symbols[1..]);
      } else {
        assert first.bot.symbols.Some?;
        CachedValidationIsPure(first.bot, g, at + 1, symbols[1..]);
      }
    }
  }

  /** A failed fetch is retried: the next well-formed symbol fetches again. */
  lemma RetryAfterFailedFetch(bot: Bot, g: Gateway, at: nat, s1: string, s2: string)
    requires ValidateSymbol(bot, g, at, s1).out.Raise?
    requires FormatOk(s2)
    ensures ValidateMany(bot, g, at, [s1, s2]).calls == [ExchangeInfo, ExchangeInfo]
  {
    var first := ValidateSymbol(bot, g, at, s1);
    assert [s1, s2][1..] == [s2];
    assert ValidateMany(first.bot, g, at + 1, [s2]).calls == [ExchangeInfo];
  }

  /** The three malformed examples are refused locally. */
  lemma MalformedExamplesRefused(bot: Bot, g: Gateway, at: nat)
    ensures ValidateSymbol(bot, g, at, "btcusdt") == BotRun(Ok(false), bot, [])
    ensures ValidateSymbol(bot, g, at, "BTC USDT") == BotRun(Ok(false), bot, [])
    ensures ValidateSymbol(bot, g, at, "12345") == BotRun(Ok(false), bot, [])
  {
    assert !IsUpperChar("btcusdt"[0]) && IsLowerChar("btcusdt"[0]);
    assert "BTC USDT"[3] == ' ';
    var d := "12345";
    assert forall i :: 0 <= i < |d| ==> !IsUpperChar(d[i]);
  }
}
