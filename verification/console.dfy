/** The input predicates of the two console front-ends: what each prompt
    accepts and what it makes of the accepted text. The prompt loops around
    them ask again until a predicate accepts; the validators see the input
    with surrounding whitespace stripped.

    src/trading_interface.py drives the spot bot (six menu entries, five
    order types); bot/main.py drives the futures bot (four menu entries,
    three order types). */
module Console {
  import opened Common
  import opened Text
  import opened Dispatcher
  import opened Validator

  const SpotMenu := ["1", "2", "3", "4", "5", "6"]
  const FuturesMenu := ["1", "2", "3", "4"]

  /** `_get_menu_choice`: the stripped input when it is one of the entries. */
  function MenuChoice(entries: seq<string>, input: string): (r: Option<string>)
    ensures r.Some? <==> Strip(input) in entries
    ensures r.Some? ==> r.value == Strip(input) && r.value in entries
  {
    var choice := Strip(input);
    if choice in entries then Some(choice) else None
  }

  /** A menu entry is a single digit from 1 to the menu's size. */
  lemma MenuEntries(c: string)
    ensures c in SpotMenu <==> |c| == 1 && '1' <= c[0] <= '6'
    ensures c in FuturesMenu <==> |c| == 1 && '1' <= c[0] <= '4'
  {
    if |c| == 1 {
      assert c == [c[0]];
    }
  }

  /** The menus accept exactly one digit from 1 to their size, with any
      whitespace around it. */
  lemma MenuDigits(input: string)
    ensures MenuChoice(SpotMenu, input).Some? <==> |Strip(input)| == 1 && '1' <= Strip(input)[0] <= '6'
    ensures MenuChoice(FuturesMenu, input).Some? <==> |Strip(input)| == 1 && '1' <= Strip(input)[0] <= '4'
  {
    MenuEntries(Strip(input));
  }

  /** A menu digit padded with whitespace is accepted as the digit alone. */
  lemma PaddedMenuDigit(a: string, d: char, b: string)
    requires AllSpace(a) && AllSpace(b) && '1' <= d <= '6'
    ensures MenuChoice(SpotMenu, a + [d] + b) == Some([d])
  {
    StripPadded(a, [d], b);
    MenuDigits(a + [d] + b);
  }

  const SpotOrderTypes := ["MARKET", "LIMIT", "STOP_LIMIT", "OCO", "TWAP"]
  const FuturesOrderTypes := ["MARKET", "LIMIT", "STOP_LIMIT"]
  const Sides := ["BUY", "SELL"]

  /** The order-type and side prompts: the stripped input is accepted when
      its upper-case form is one of the options, and that form is what the
      flow goes on with. */
  function ReadChoice(options: seq<string>, input: string): (r: Option<string>)
    ensures r.Some? <==> Upper(Strip(input)) in options
    ensures r.Some? ==> r.value == Upper(Strip(input)) && r.value in options
  {
    var x := Strip(input);
    if Upper(x) in options then Some(Upper(x)) else None
  }

  /** The choice prompts ignore case: any case mapping of the input is read
      the same way. */
  lemma ReadChoiceIgnoresCase(options: seq<string>, input: string)
    ensures ReadChoice(options, Lower(input)) == ReadChoice(options, input)
    ensures ReadChoice(options, Upper(input)) == ReadChoice(options, input)
  {
    StripCommutesWithCase(input);
    CaseMappingAbsorbs(Strip(input));
  }

  /** A word with whitespace around it is read as its upper-case form when
      that is an option, and refused otherwise. */
  lemma ReadPaddedWord(options: seq<string>, a: string, t: string, b: string)
    requires AllSpace(a) && AllSpace(b)
    requires |t| > 0 && !IsSpace(t[0]) && !IsSpace(t[|t| - 1])
    ensures Upper(t) in options ==> ReadChoice(options, a + t + b) == Some(Upper(t))
    ensures Upper(t) !in options ==> ReadChoice(options, a + t + b) == None
  {
    StripPadded(a, t, b);
  }

  /** A lower-case spelling is read as the option. */
  lemma ReadLowerCase()
    ensures ReadChoice(Sides, "buy") == Some("BUY")
  {
    var buy := "buy";
    assert Upper(buy) == "BUY" by {
      assert Upper(buy)[0] == 'B' && Upper(buy)[1] == 'U' && Upper(buy)[2] == 'Y';
    }
    assert Sides[0] == "BUY";
    assert "" + buy + "" == buy;
    ReadPaddedWord(Sides, "", buy, "");
  }

  /** A padded spelling is read as the option. */
  lemma ReadPadded()
    ensures ReadChoice(Sides, " Sell ") == Some("SELL")
  {
    var sell := "Sell";
    assert Upper(sell) == "SELL" by {
      assert Upper(sell)[0] == 'S' && Upper(sell)[1] == 'E' && Upper(sell)[2] == 'L' && Upper(sell)[3] == 'L';
    }
    assert Sides[1] == "SELL";
    assert " " + sell + " " == " Sell ";
    ReadPaddedWord(Sides, " ", sell, " ");
  }

  /** A word that is not an option is refused. */
  lemma ReadUnknown()
    ensures ReadChoice(Sides, "HOLD") == None
  {
    var hold := "HOLD";
    assert Upper(hold) == hold by {
      assert Upper(hold)[0] == 'H' && Upper(hold)[1] == 'O' && Upper(hold)[2] == 'L' && Upper(hold)[3] == 'D';
    }
    assert hold != Sides[0] && hold != Sides[1] by {
      assert |hold| != |Sides[0]| && hold[0] != Sides[1][0];
    }
    assert "" + hold + "" == hold;
    ReadPaddedWord(Sides, "", hold, "");
  }

  /** OCO is an order type of the spot console only. */
  lemma OcoOnlyOnSpotConsole()
    ensures ReadChoice(FuturesOrderTypes, "oco") == None
    ensures ReadChoice(SpotOrderTypes, "oco") == Some("OCO")
  {
    var oco := "oco";
    assert Upper(oco) == "OCO" by {
      assert Upper(oco)[0] == 'O' && Upper(oco)[1] == 'C' && Upper(oco)[2] == 'O';
    }
    assert SpotOrderTypes[3] == "OCO";
    assert "OCO" !in FuturesOrderTypes by {
      assert |FuturesOrderTypes[0]| != 3 && |FuturesOrderTypes[1]| != 3 && |FuturesOrderTypes[2]| != 3;
    }
    assert "" + oco + "" == oco;
    ReadPaddedWord(FuturesOrderTypes, "", oco, "");
    ReadPaddedWord(SpotOrderTypes, "", oco, "");
  }

  /** The numeric shape every price, quantity and duration prompt checks:
      digits with at most one dot, and at least one digit. */
  predicate NumberShape(x: string) {
    PyIsDigit(RemoveFirstDot(x))
  }

  /** The quantity and limit-price prompts, and both price prompts of the
      futures console, also require `float(x) > 0`. */
  predicate PositiveNumber(x: string) {
    NumberShape(x) && DecimalValue(x) > 0.0
  }

  /** A well-shaped number is positive exactly when one of its digits is not
      zero, so "0", "0.0" and ".0" are refused and "0.01" is accepted. */
  lemma PositiveNumberIff(x: string)
    ensures PositiveNumber(x) <==> NumberShape(x) && HasNonZeroDigit(x)
  {
    if NumberShape(x) {
      DecimalPositive(x);
    }
  }

  /** The shape alone lets zero through, which is what the spot console's
      stop, OCO and duration prompts check; it refuses a second dot, a sign
      and an empty input. */
  lemma NumberShapeExamples()
    ensures NumberShape("0") && !PositiveNumber("0")
    ensures NumberShape(".5") && NumberShape("5.") && PositiveNumber("0.01")
    ensures !NumberShape("1.2.3") && !NumberShape("-1") && !NumberShape("") && !NumberShape(".")
  {
    PositiveNumberIff("0");
    assert "0"[0] == '0';
    assert RemoveFirstDot(".5") == "5";
    assert RemoveFirstDot("5.") == "5";
    PositiveNumberIff("0.01");
    assert "0.01"[3] == '1';
    assert RemoveFirstDot("0.01") == "001";
    assert RemoveFirstDot("1.2.3") == "12.3";
    assert !IsDigitChar("12.3"[2]);
    assert RemoveFirstDot("-1") == "-1";
    assert RemoveFirstDot(".") == "";
  }

  /** The slice prompt: digits only and a value from 4 to 20. */
  predicate SlicesAccepted(x: string) {
    PyIsDigit(x) && 4 <= DigitsValue(x) <= 20
  }

  /** The decimal form of a number is accepted exactly when the number is
      from 4 to 20; leading zeros do not matter. */
  lemma SlicesRange(n: nat)
    ensures SlicesAccepted(Render(n)) <==> 4 <= n <= 20
    ensures SlicesAccepted("04") && SlicesAccepted("020") && !SlicesAccepted("21") && !SlicesAccepted("3")
  {
    RenderRoundTrip(n);
    assert "04"[..1] == "0" && "020"[..2] == "02" && "02"[..1] == "0";
    assert "21"[..1] == "2";
  }

  /** `_get_yes_no`: true for y/yes and false for n/no after stripping and
      lower-casing; anything else asks again (`None`). */
  function YesNo(input: string): (r: Option<bool>)
    ensures r == Some(true) ==> Lower(Strip(input)) in {"y", "yes"}
    ensures r == Some(false) ==> Lower(Strip(input)) in {"n", "no"}
  {
    var response := Lower(Strip(input));
    if response in {"y", "yes"} then Some(true)
    else if response in {"n", "no"} then Some(false)
    else None
  }

  /** The answers are recognised in any mix of cases: the stripped input
      must spell y, yes, n or no with any letter upper-cased. */
  lemma YesNoSpellings(input: string)
    ensures YesNo(input) == Some(true) <==>
      SpellsIgnoringCase(Strip(input), "y") || SpellsIgnoringCase(Strip(input), "yes")
    ensures YesNo(input) == Some(false) <==>
      SpellsIgnoringCase(Strip(input), "n") || SpellsIgnoringCase(Strip(input), "no")
  {
    var t := Strip(input);
    LowerPreimage(t, "y");
    LowerPreimage(t, "yes");
    LowerPreimage(t, "n");
    LowerPreimage(t, "no");
  }

  /** The answer does not depend on the case of the input. */
  lemma YesNoIgnoresCase(input: string)
    ensures YesNo(Upper(input)) == YesNo(input)
  {
    StripCommutesWithCase(input);
    CaseMappingAbsorbs(Strip(input));
  }

  /** The order-id prompt of the cancel flow: the stripped input must be
      digits, and is then read as a number. */
  function CancelId(input: string): (r: Option<nat>)
    ensures r.Some? <==> PyIsDigit(Strip(input))
    ensures r.Some? ==> r.value == DigitsValue(Strip(input))
  {
    var id := Strip(input);
    if PyIsDigit(id) then Some(DigitsValue(id)) else None
  }

  /** Every order id typed in decimal, with whitespace around it, is read
      back as itself. */
  lemma CancelIdRoundTrip(a: string, n: nat, b: string)
    requires AllSpace(a) && AllSpace(b)
    ensures CancelId(a + Render(n) + b) == Some(n)
  {
    var r := Render(n);
    assert !IsSpace(r[0]) && !IsSpace(r[|r| - 1]);
    StripPadded(a, r, b);
    RenderRoundTrip(n);
  }

  /** A positive-number prompt: the stripped input when it has the number
      shape and a positive value, read as that value; `None` asks again. */
  function ReadPositive(input: string): (r: Option<real>)
    ensures r.Some? <==> NumberShape(Strip(input)) && HasNonZeroDigit(Strip(input))
    ensures r.Some? ==> NumberShape(Strip(input)) && r.value == DecimalValue(Strip(input)) && r.value > 0.0
  {
    var x := Strip(input);
    PositiveNumberIff(x);
    if PositiveNumber(x) then Some(DecimalValue(x)) else None
  }

  /** The extra prices the futures console asks for: a price for LIMIT and
      STOP_LIMIT, a stop price for STOP_LIMIT only, each a positive number.
      `None` means a prompt that is asked again. */
  function FuturesExtraParams(orderType: string, priceInput: string, stopInput: string): (kw: Option<Kwargs>)
    ensures kw.None? <==>
      (orderType in {"LIMIT", "STOP_LIMIT"} && ReadPositive(priceInput).None?)
      || (orderType == "STOP_LIMIT" && ReadPositive(stopInput).None?)
    ensures kw.Some? ==>
      && (kw.value.price.Some? <==> orderType in {"LIMIT", "STOP_LIMIT"})
      && (kw.value.stopPrice.Some? <==> orderType == "STOP_LIMIT")
      && kw.value.stopLimitPrice.None? && kw.value.durationMin.None? && kw.value.slices.None?
    // every price collected is the positive value typed
    ensures kw.Some? && kw.value.price.Some? ==>
      kw.value.price.value == DecimalValue(Strip(priceInput)) && kw.value.price.value > 0.0
    ensures kw.Some? && kw.value.stopPrice.Some? ==>
      kw.value.stopPrice.value == DecimalValue(Strip(stopInput)) && kw.value.stopPrice.value > 0.0
  {
    var price := if orderType in {"LIMIT", "STOP_LIMIT"} then ReadPositive(priceInput) else None;
    var stop := if orderType == "STOP_LIMIT" then ReadPositive(stopInput) else None;
    if orderType in {"LIMIT", "STOP_LIMIT"} && price.None? then None
    else if orderType == "STOP_LIMIT" && stop.None? then None
    else Some(Kwargs(price, stop, None, None, None))
  }

  /** Unlike the spot console's shape-only stop prompt, the futures one
      refuses a zero stop price. */
  lemma FuturesZeroStopRefused(priceInput: string)
    ensures FuturesExtraParams("STOP_LIMIT", priceInput, "0").None?
    ensures NumberShape("0")
  {
    var zero := "0";
    assert "" + zero + "" == zero;
    StripPadded("", zero, "");
    assert RemoveFirstDot(zero) == zero;
    assert !HasNonZeroDigit(zero);
  }

  /** The futures console hands its order to the simulated `place_order`,
      which never looks at the type or the extra prices. The side it read is
      always BUY or SELL and the quantity it read is positive, so symbol
      validation alone decides whether the order is reported as placed,
      and no order ever reaches the exchange. */
  lemma FuturesConsoleOrder(bot: Bot, g: Gateway.Gateway, at: nat, symbol: string, sideInput: string, quantity: real)
    requires ReadChoice(Sides, sideInput).Some? && quantity > 0.0
    ensures var r := SimulatedPlaceOrder(bot, g, at, symbol, ReadChoice(Sides, sideInput).value, quantity);
      && (r.out == Simulated <==> ValidateSymbol(bot, g, at, symbol).out == Ok(true))
      && Gateway.NoOrders(r.calls)
  {
    var side := ReadChoice(Sides, sideInput).value;
    assert side == "BUY" || side == "SELL";
    SimulatedNeverOrders(bot, g, at, symbol, side, "MARKET", quantity, Kwargs(None, None, None, None, None));
  }
}
