/** The three labels both recommenders return. */
module Recommendations {

  datatype Recommendation = Buy | Sell | Hold {

    /** The label as the program reports it. */
    function Label(): (s: string)
      ensures s in {"Buy", "Sell", "Hold"}
    {
      match this
      case Buy => "Buy"
      case Sell => "Sell"
      case Hold => "Hold"
    }
  }
}
