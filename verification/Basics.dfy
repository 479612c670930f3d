/** Shared vocabulary. */
module Basics {
  /** A trade is named by the id of the signal that opened it. */
  type TradeId = string

  /** A nullable column or a missing key. */
  datatype Option<+T> = None | Some(value: T) {
    function GetOr(default: T): T {
      match this
      case Some(v) => v
      case None => default
    }
  }
}
