/**
 * `IntegerField` and `BooleanField`: CharFields whose `validate_data` parses the
 * text instead of checking its length.
 */
module NumericFields {
  import opened Wrappers
  import opened Text
  import opened Protocol
  import opened CharFields

  const NotIntegerMessage: string := "This value can't be converted to an integer"
  const UnknownAnswerMessage: string := "Unknown answer received"

  const TrueTokens: seq<string> := ["true", "yes", "y", "1"]
  const FalseTokens: seq<string> := ["false", "no", "n", "0"]

  /** `IntegerField.validate_data`: `int(value)`, or the conversion message. */
  function IntegerValidate(text: string): (r: Checked)
    ensures r.Accept? <==> ParseInt(text).Some?
    ensures r.Accept? ==> r.value == IntV(ParseInt(text).value)
    ensures r.Reject? ==> r.message == NotIntegerMessage
  {
    match ParseInt(text)
    case Some(n) => Accept(IntV(n))
    case None => Reject(NotIntegerMessage)
  }

  /** `BooleanField.validate_data`: the lower-cased text against the two token lists. */
  function BooleanValidate(text: string): (r: Checked)
    ensures r == Accept(BoolV(true)) <==> Lower(text) in TrueTokens
    ensures r == Accept(BoolV(false)) <==> Lower(text) in FalseTokens
    ensures r.Reject? <==> Lower(text) !in TrueTokens && Lower(text) !in FalseTokens
    ensures r.Reject? ==> r.message == UnknownAnswerMessage
  {
    var t := Lower(text);
    if t in TrueTokens then Accept(BoolV(true))
    else if t in FalseTokens then Accept(BoolV(false))
    else Reject(UnknownAnswerMessage)
  }

  /** Every integer's decimal form is accepted and read back as that integer. */
  lemma IntegerValidateRoundTrip(n: int)
    ensures IntegerValidate(IntToString(n)) == Accept(IntV(n))
  {
    ParseIntToString(n);
  }

  /** The two token lists share no token, so an accepted answer is never both. */
  lemma BooleanTokensDisjoint(t: string)
    ensures !(t in TrueTokens && t in FalseTokens)
  {
  }

  /** Matching ignores case: "YES", "Yes" and "yes" give the same answer. */
  lemma BooleanValidateCaseInsensitive(text: string)
    ensures BooleanValidate(text) == BooleanValidate(Lower(text))
  {
    LowerIdempotent(text);
  }

  lemma AllDigitsNotSpaced(ds: string)
    requires |ds| > 0 && AllDigits(ds)
    ensures StripRight(StripLeft(ds)) == ds
  {
    assert !IsSpace(ds[0]) && !IsSpace(ds[|ds| - 1]);
  }

  /**
   * The override drops CharField's length checks: a run of digits longer than
   * the default `max_length` is an integer, while CharField refuses it.
   */
  lemma IntegerIgnoresLength(ds: string, c: CharConfig)
    requires |ds| > 255 && AllDigits(ds) && c.maxLength == 255
    ensures IntegerValidate(ds) == Accept(IntV(DigitsValue(ds)))
    ensures CharValidate(c, ds) == Reject(TooLongMessage)
  {
    AllDigitsNotSpaced(ds);
  }

  /** The same for the empty text: the integer message, not the min-length one. */
  lemma IntegerRejectsEmptyWithItsOwnMessage(c: CharConfig)
    requires c.minLength == 1 && c.maxLength >= 0
    ensures IntegerValidate("") == Reject(NotIntegerMessage)
    ensures CharValidate(c, "") == Reject(TooShortMessage)
  {
  }
}
