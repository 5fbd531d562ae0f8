/** The form validators of app/main.py:23-39. */
module Validation {
  import opened Wrappers
  import opened Text

  /** `s` splits into at least three capital letters followed by "USD" or
      "USDT": the language of the pattern `[A-Z]{3,}USDT?`. */
  ghost predicate SplitsAt(s: string, k: int) {
    3 <= k <= |s| && AllAsciiUpper(s[..k]) && (s[k..] == "USD" || s[k..] == "USDT")
  }

  ghost predicate InSymbolLanguage(s: string) {
    exists k :: SplitsAt(s, k)
  }

  /** A hand-written recogniser for `[A-Z]{3,}USDT?`: capitals only, ending in
      "USD" after at least three more, or in "USDT" after at least three more. */
  function MatchesSymbolPattern(s: string): (ok: bool)
    ensures ok ==> |s| >= 6
  {
    AllAsciiUpper(s) &&
    ((|s| >= 6 && s[|s| - 3..] == "USD") || (|s| >= 7 && s[|s| - 4..] == "USDT"))
  }

  /** The recogniser accepts exactly the language of the pattern. */
  lemma SymbolRecogniserCorrect(s: string)
    ensures MatchesSymbolPattern(s) <==> InSymbolLanguage(s)
  {
    if InSymbolLanguage(s) {
      var k :| SplitsAt(s, k);
      assert s == s[..k] + s[k..];
      forall i | 0 <= i < |s| ensures IsAsciiUpper(s[i]) {
        if i >= k {
          assert s[i] == s[k..][i - k];
        } else {
          assert s[i] == s[..k][i];
        }
      }
    }
    if AllAsciiUpper(s) {
      if |s| >= 6 && s[|s| - 3..] == "USD" {
        assert SplitsAt(s, |s| - 3);
      } else if |s| >= 7 && s[|s| - 4..] == "USDT" {
        assert SplitsAt(s, |s| - 4);
      }
    }
  }

  /** `re.match(r'^[A-Z]{3,}USDT?$', s)`: the pattern must cover all of `s`,
      except that `$` also matches just before one final newline. */
  function FullMatch(s: string): (ok: bool)
    ensures ok ==> |s| >= 6
  {
    MatchesSymbolPattern(s) || (s != [] && s[|s| - 1] == '\n' && MatchesSymbolPattern(s[..|s| - 1]))
  }

  lemma FullMatchCorrect(s: string)
    ensures FullMatch(s) <==>
            InSymbolLanguage(s) || (s != [] && s[|s| - 1] == '\n' && InSymbolLanguage(s[..|s| - 1]))
  {
    SymbolRecogniserCorrect(s);
    if s != [] {
      SymbolRecogniserCorrect(s[..|s| - 1]);
    }
  }

  /** `validate_symbol` (app/main.py:23-29). */
  function ValidateSymbol(symbol: string): (ok: bool)
    ensures symbol == "" ==> !ok
    ensures ok ==> |Upper(symbol)| >= 6
  {
    if symbol == "" then false else FullMatch(Upper(symbol))
  }

  /** `validate_symbol` accepts exactly the non-empty symbols whose upper-case
      form is in the pattern's language, possibly followed by one newline. */
  lemma ValidateSymbolMeaning(symbol: string)
    ensures ValidateSymbol(symbol) <==>
            symbol != "" &&
            var u := Upper(symbol);
            InSymbolLanguage(u) || (u[|u| - 1] == '\n' && InSymbolLanguage(u[..|u| - 1]))
  {
    FullMatchCorrect(Upper(symbol));
  }

  /** `validate_symbol` does not see case. */
  lemma ValidateSymbolIgnoresCase(symbol: string)
    ensures ValidateSymbol(Upper(symbol)) == ValidateSymbol(symbol)
  {
    UpperIdempotent(symbol);
  }

  const MinQuantity: real := 0.0001

  /** `validate_quantity` (app/main.py:31-33): the `> 0` test is implied by the
      minimum. */
  function ValidateQuantity(quantity: real): (ok: bool)
    ensures ok <==> quantity >= MinQuantity
  {
    quantity > 0.0 && quantity >= MinQuantity
  }

  /** `validate_price` (app/main.py:35-39): only a LIMIT order, in any case,
      needs a positive price. */
  function ValidatePrice(price: Option<real>, orderType: string): (ok: bool)
    ensures Upper(orderType) != "LIMIT" ==> ok
    ensures Upper(orderType) == "LIMIT" ==> (ok <==> price.Some? && price.value > 0.0)
  {
    if Upper(orderType) == "LIMIT" then price.Some? && price.value > 0.0 else true
  }

  /** `validate_price` does not see the case of the order type. */
  lemma ValidatePriceIgnoresCase(price: Option<real>, orderType: string)
    ensures ValidatePrice(price, Upper(orderType)) == ValidatePrice(price, orderType)
  {
    UpperIdempotent(orderType);
  }

  /** Strings the pattern accepts, including the trailing newline `$` lets
      through. */
  lemma PatternAccepts()
    ensures FullMatch("BTCUSDT") && FullMatch("ETHUSD") && FullMatch("BTCUSDT\n")
  {
    assert SplitsAt("BTCUSDT", 3);
    assert SplitsAt("ETHUSD", 3);
    assert "BTCUSDT\n"[..7] == "BTCUSDT";
  }

  /** Strings it rejects: two letters before the suffix, text after the
      suffix, a separator, a second newline. */
  lemma PatternRejects()
    ensures !FullMatch("BTUSDT") && !FullMatch("BTCUSDTX") && !FullMatch("BTC-USDT")
    ensures !FullMatch("BTCUSDT\n\n")
  {
    assert "BTUSDT"[3..][0] == 'S';
    assert "BTCUSDTX"[5..][0] == 'D' && "BTCUSDTX"[4..][3] == 'X';
    assert !IsAsciiUpper("BTC-USDT"[3]);
    assert "BTCUSDT\n\n"[..8][7] == '\n';
    assert !IsAsciiUpper("BTCUSDT\n\n"[8]);
  }

  /** A lower-case symbol is accepted. */
  lemma LowerCaseSymbol()
    ensures ValidateSymbol("btcusdt")
  {
    assert Upper("btcusdt") == "BTCUSDT";
    PatternAccepts();
  }

  /** The dotless i upper-cases to I, so "l\u0131m\u0131t" is a LIMIT order for
      `validate_price`. */
  lemma DotlessLimitNeedsPrice()
    ensures !ValidatePrice(None, "l\U{131}m\U{131}t")
  {
    assert Upper("l\U{131}m\U{131}t") == "LIMIT";
  }
}
