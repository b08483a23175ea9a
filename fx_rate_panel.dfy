/** The FX rate panel: two currency selections (USD and JPY by default),
    an optional amount, and an on-demand fetch of the latest rate that a
    300 ms timestamp gate protects against repeated clicks. */
module FxRate {
  import opened Common

  const FetchGapMs := 300
  const DefaultBase := "USD"
  const DefaultQuote := "JPY"

  const SelectCurrencyMessage := "通貨を選択してください。"
  const SameCurrencyMessage := "基軸通貨と相手通貨は同一にできません。"
  const NonPositiveAmountMessage := "金額は0より大きい値を入力してください。"
  const InputErrorTitle := "入力エラー"
  const FetchFailedTitle := "取得に失敗しました"

  /** The outcome of `validateInputs`. */
  datatype Validation = Ok | NotOk(message: string)

  /** What `getLatestRate` is asked for. */
  datatype RateRequest = RateRequest(baseCcy: string, quoteCcy: string, amount: Option<real>)

  /** What `getLatestRate` resolves to; each field may be null. */
  datatype RateResult = RateResult(rate: Option<real>, rateDate: Option<string>, convertedAmount: Option<real>)

  /** The minimum and maximum number of fraction digits to display. */
  datatype FractionDigits = FractionDigits(min: nat, max: nat)

  /** The checks made before any remote call: both currencies chosen, the
      two different, and an amount, when there is one, above zero. */
  function ValidateInputs(baseCcy: string, quoteCcy: string, amount: Option<real>): (v: Validation)
    ensures v.Ok? <==> baseCcy != "" && quoteCcy != "" && baseCcy != quoteCcy
                       && (amount.None? || amount.value > 0.0)
    ensures baseCcy == "" || quoteCcy == "" ==> v == NotOk(SelectCurrencyMessage)
    ensures baseCcy != "" && quoteCcy != "" && baseCcy == quoteCcy ==> v == NotOk(SameCurrencyMessage)
    ensures baseCcy != "" && quoteCcy != "" && baseCcy != quoteCcy && amount.Some? && amount.value <= 0.0
            ==> v == NotOk(NonPositiveAmountMessage)
  {
    if baseCcy == "" || quoteCcy == "" then NotOk(SelectCurrencyMessage)
    else if baseCcy == quoteCcy then NotOk(SameCurrencyMessage)
    else if amount.Some? && amount.value <= 0.0 then NotOk(NonPositiveAmountMessage)
    else Ok
  }

  /** JPY shows 0 to 2 fraction digits, every other currency 2 to 4. */
  function FractionDigitsFor(ccy: string): (r: FractionDigits)
    ensures r.min <= r.max
    ensures ccy == "JPY" ==> r == FractionDigits(0, 2)
    ensures ccy != "JPY" ==> r == FractionDigits(2, 4)
  {
    if ccy == "JPY" then FractionDigits(0, 2) else FractionDigits(2, 4)
  }

  class FxRatePanel {
    var baseCcy: string
    var quoteCcy: string
    var amountInput: string
    var rate: Option<real>
    var rateDate: Option<string>
    var convertedAmount: Option<real>
    var loading: bool
    var lastFetchAt: int
    /** Toasts dispatched, oldest first. */
    var events: seq<Toast>
    /** Calls made to the rate service, oldest first. */
    var requests: seq<RateRequest>

    /** `Number(text)` with NaN read as `None`; JavaScript's number parsing
        is not modelled. */
    const parseNumber: string -> Option<real>
    /** `Intl.NumberFormat('en-US', ...)` with the given fraction digits;
        number formatting is not modelled. */
    const formatDecimal: (real, FractionDigits) -> string

    /** Between handlers nothing is loading, and every request that reached
        the rate service had passed validation. */
    ghost predicate Valid()
      reads this
    {
      !loading
      && forall i :: 0 <= i < |requests| ==>
           ValidateInputs(requests[i].baseCcy, requests[i].quoteCcy, requests[i].amount).Ok?
    }

    constructor (parseNumber: string -> Option<real>, formatDecimal: (real, FractionDigits) -> string)
      ensures Valid()
      ensures baseCcy == DefaultBase && quoteCcy == DefaultQuote && amountInput == ""
      ensures rate.None? && rateDate.None? && convertedAmount.None?
      ensures !loading && lastFetchAt == 0 && events == [] && requests == []
      ensures this.parseNumber == parseNumber && this.formatDecimal == formatDecimal
    {
      baseCcy, quoteCcy, amountInput := DefaultBase, DefaultQuote, "";
      rate, rateDate, convertedAmount := None, None, None;
      loading, lastFetchAt := false, 0;
      events, requests := [], [];
      this.parseNumber, this.formatDecimal := parseNumber, formatDecimal;
    }

    /** `hasResult`: a rate is known; a null rate counts as none. */
    predicate HasResult()
      reads this
      ensures HasResult() <==> rate.Some?
    {
      rate.Some?
    }

    /** The amount typed, or `None` when the box is empty or not a number. */
    function AmountValue(): (r: Option<real>)
      reads this
      ensures amountInput == "" ==> r.None?
      ensures amountInput != "" ==> r == parseNumber(amountInput)
    {
      if amountInput == "" then None else parseNumber(amountInput)
    }

    /** `hasAmount`: the box holds a number, so in particular it is not
        empty. */
    predicate HasAmount()
      reads this
      ensures HasAmount() <==> AmountValue().Some?
      ensures HasAmount() ==> amountInput != "" && parseNumber(amountInput).Some?
    {
      AmountValue().Some?
    }

    /** `validateInputs` applied to the panel's current selections and
        amount. */
    function CurrentValidation(): Validation
      reads this
    {
      ValidateInputs(baseCcy, quoteCcy, AmountValue())
    }

    /** `formatNumber`: nothing for a missing value, otherwise the number
        with the fraction digits of `ccy`. */
    function FormatNumber(value: Option<real>, ccy: string): (r: string)
      reads this
      ensures value.None? ==> r == ""
      ensures value.Some? ==> r == formatDecimal(value.value, FractionDigitsFor(ccy))
    {
      match value
      case None => ""
      case Some(v) => formatDecimal(v, FractionDigitsFor(ccy))
    }

    /** "1 BASE = rate QUOTE", or nothing before a rate is known. */
    function RateDisplay(): (r: string)
      reads this
      ensures r == "" <==> !HasResult()
      ensures HasResult() ==> r == "1 " + baseCcy + " = " + FormatNumber(rate, quoteCcy) + " " + quoteCcy
    {
      if !HasResult() then ""
      else "1 " + baseCcy + " = " + FormatNumber(rate, quoteCcy) + " " + quoteCcy
    }

    /** "amount BASE = converted QUOTE" once there is both a rate and an
        amount; nothing otherwise. */
    function ConvertedDisplay(): (r: string)
      reads this
      ensures r == "" <==> !(HasResult() && HasAmount())
      ensures r != "" ==> r == FormatNumber(AmountValue(), baseCcy) + " " + baseCcy + " = "
                               + FormatNumber(convertedAmount, quoteCcy) + " " + quoteCcy
    {
      if !HasResult() || !HasAmount() then ""
      else FormatNumber(AmountValue(), baseCcy) + " " + baseCcy + " = "
           + FormatNumber(convertedAmount, quoteCcy) + " " + quoteCcy
    }

    method HandleBaseChange(value: string)
      modifies this`baseCcy
      ensures baseCcy == value
    {
      baseCcy := value;
    }

    method HandleQuoteChange(value: string)
      modifies this`quoteCcy
      ensures quoteCcy == value
    {
      quoteCcy := value;
    }

    method HandleAmountChange(value: string)
      modifies this`amountInput
      ensures amountInput == value
    {
      amountInput := value;
    }

    /** Back to USD/JPY with no amount and no result; the fetch gate and
        the loading flag are left alone. */
    method HandleClear()
      requires Valid()
      modifies this
      ensures Valid()
      ensures baseCcy == DefaultBase && quoteCcy == DefaultQuote && amountInput == ""
      ensures rate.None? && rateDate.None? && convertedAmount.None? && !HasResult()
      ensures RateDisplay() == "" && ConvertedDisplay() == ""
      ensures lastFetchAt == old(lastFetchAt) && loading == old(loading)
      ensures events == old(events) && requests == old(requests)
    {
      baseCcy, quoteCcy, amountInput := DefaultBase, DefaultQuote, "";
      rate, rateDate, convertedAmount := None, None, None;
    }

    /** A click on "fetch" at time `now`, with `response` the outcome of the
        rate service should it be called. Within 300 ms of the last attempt
        nothing happens. Otherwise the attempt is recorded first; invalid
        input then gives an error toast and no call; a call that fails gives
        an error toast and keeps the old result; a call that succeeds stores
        the three result fields. */
    method HandleFetch(now: int, response: Response<RateResult>)
      requires Valid()
      modifies this
      ensures Valid()
      ensures now - old(lastFetchAt) < FetchGapMs ==> unchanged(this)
      ensures now - old(lastFetchAt) >= FetchGapMs ==>
                lastFetchAt == now && !loading
                && baseCcy == old(baseCcy) && quoteCcy == old(quoteCcy) && amountInput == old(amountInput)
      ensures now - old(lastFetchAt) >= FetchGapMs && old(CurrentValidation()).NotOk? ==>
                requests == old(requests)
                && events == old(events) + [Toast(InputErrorTitle, old(CurrentValidation()).message, Error)]
                && rate == old(rate) && rateDate == old(rateDate) && convertedAmount == old(convertedAmount)
      ensures now - old(lastFetchAt) >= FetchGapMs && old(CurrentValidation()).Ok? ==>
                requests == old(requests) + [RateRequest(baseCcy, quoteCcy, AmountValue())]
      ensures now - old(lastFetchAt) >= FetchGapMs && old(CurrentValidation()).Ok? && response.Success? ==>
                events == old(events)
                && rate == response.payload.rate && rateDate == response.payload.rateDate
                && convertedAmount == response.payload.convertedAmount
      ensures now - old(lastFetchAt) >= FetchGapMs && old(CurrentValidation()).Ok? && response.Failure? ==>
                events == old(events) + [Toast(FetchFailedTitle, ErrorMessage(response.err), Error)]
                && rate == old(rate) && rateDate == old(rateDate) && convertedAmount == old(convertedAmount)
    {
      if now - lastFetchAt < FetchGapMs {
        return;
      }
      lastFetchAt := now;

      var validation := CurrentValidation();
      if validation.NotOk? {
        events := events + [Toast(InputErrorTitle, validation.message, Error)];
        return;
      }

      loading := true;
      requests := requests + [RateRequest(baseCcy, quoteCcy, AmountValue())];
      match response {
        case Success(result) =>
          rate, rateDate, convertedAmount := result.rate, result.rateDate, result.convertedAmount;
        case Failure(err) =>
          events := events + [Toast(FetchFailedTitle, ErrorMessage(err), Error)];
      }
      loading := false;
    }
  }

  /** Two clicks less than 300 ms apart on a fresh panel reach the rate
      service at most once, whatever the service answers. */
  method RapidSecondFetchIsDropped(
    parseNumber: string -> Option<real>, formatDecimal: (real, FractionDigits) -> string,
    first: int, second: int, r1: Response<RateResult>, r2: Response<RateResult>)
    returns (calls: nat)
    requires second < first + FetchGapMs
    ensures calls <= 1
  {
    var panel := new FxRatePanel(parseNumber, formatDecimal);
    panel.HandleFetch(first, r1);
    var afterFirst := |panel.requests|;
    panel.HandleFetch(second, r2);
    calls := |panel.requests|;
    assert afterFirst <= 1;
  }
}
