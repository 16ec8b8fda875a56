/** Margin requirements of the three buying-power models. */
module BuyingPower {
  import opened Reals

  datatype BuyingPowerModel = Cash | SecurityMargin | CryptoFutureMargin

  /** `validate_leverage` asserts this of every leverage the model is asked about. */
  type Leverage = l: real | l >= 1.0 witness 1.0

  function NotionalValue(quantity: real, price: real, multiplier: real): real {
    Abs(quantity) * Abs(price) * multiplier
  }

  function InitialMargin(model: BuyingPowerModel, quantity: real, price: real, multiplier: real,
                         leverage: Leverage): real {
    if quantity == 0.0 || price == 0.0 || multiplier == 0.0 then 0.0
    else
      match model
      case Cash => NotionalValue(quantity, price, multiplier)
      case SecurityMargin => NotionalValue(quantity, price, multiplier) / leverage
      case CryptoFutureMargin => NotionalValue(quantity, price, multiplier) / leverage
  }

  function UnitMargin(model: BuyingPowerModel, price: real, multiplier: real, leverage: Leverage): real {
    InitialMargin(model, 1.0, price, multiplier, leverage)
  }

  /** How many times its margin a position may be worth: a cash account borrows nothing. */
  function TimesMargin(model: BuyingPowerModel, leverage: Leverage): real { if model.Cash? then 1.0 else leverage }

  /** The margin, so many times, is what the position is worth: zero where it is worth nothing. */
  lemma MarginCoversNotional(model: BuyingPowerModel, quantity: real, price: real, multiplier: real, leverage: Leverage)
    ensures InitialMargin(model, quantity, price, multiplier, leverage) * TimesMargin(model, leverage)
            == Abs(quantity * price) * multiplier
  {
  }

  /** Margin is proportional to the absolute quantity. */
  lemma MarginIsProportional(model: BuyingPowerModel, quantity: real, price: real, multiplier: real, leverage: Leverage)
    ensures InitialMargin(model, quantity, price, multiplier, leverage)
            == Abs(quantity) * UnitMargin(model, price, multiplier, leverage)
  {
  }
}
