/** Order-format validation and the error-code to message table of the order pipeline. */
module Validators {
  import opened Common
  import opened Protocol

  /** Error codes the pipeline throws. */
  const InvalidOrderFormat := "INVALID_ORDER_FORMAT"
  const RiskCheckFailed := "RISK_CHECK_FAILED"
  const SymbolNotFound := "SYMBOL_NOT_FOUND"
  const InsufficientLiquidity := "INSUFFICIENT_LIQUIDITY"

  /** The fixed table behind `getErrorMessage`. */
  const ErrorMessages: map<string, string> := map[
    InvalidOrderFormat := "Order format is invalid",
    RiskCheckFailed := "Order rejected by risk management system",
    SymbolNotFound := "Trading symbol not found",
    InsufficientLiquidity := "Not enough liquidity in the market"
  ]

  const UnknownErrorMessage := "Unknown error occurred"

  /** JavaScript truthiness of an optional number: present and not zero. */
  predicate Truthy(q: Option<int>) {
    q.Some? && q.value != 0
  }

  /**
   * `validateOrderFormat`: an order needs a non-empty symbol, and a quantity that is given
   * (truthy) must not be `<= 0`. Because a zero quantity is falsy, the test amounts to
   * "no negative quantity".
   */
  function ValidateOrderFormat(order: Option<OrderData>): (valid: bool)
    ensures valid <==>
      && order.Some?
      && order.value.symbol != ""
      && (order.value.quantity.None? || order.value.quantity.value >= 0)
  {
    if order.None? || order.value.symbol == "" then false
    else if Truthy(order.value.quantity) && order.value.quantity.value <= 0 then false
    else true
  }

  /** A zero quantity is treated exactly like an absent one. */
  lemma ZeroQuantityIsNotGiven(o: OrderData)
    ensures ValidateOrderFormat(Some(o.(quantity := Some(0)))) == ValidateOrderFormat(Some(o.(quantity := None)))
    ensures ValidateOrderFormat(Some(o.(quantity := None))) <==> o.symbol != ""
  {
  }

  /** `getErrorMessage`: the table entry of a known code, the fixed fallback for any other. */
  function GetErrorMessage(errorCode: string): (message: string)
    ensures message != ""
    ensures errorCode in ErrorMessages ==> message == ErrorMessages[errorCode]
    ensures errorCode !in ErrorMessages ==> message == UnknownErrorMessage
  {
    if errorCode in ErrorMessages then ErrorMessages[errorCode] else UnknownErrorMessage
  }

  /**
   * The message identifies the code: two codes with the same message are equal or both
   * unknown, and no known code maps to the fallback text.
   */
  lemma ErrorMessageIdentifiesCode(a: string, b: string)
    ensures GetErrorMessage(a) == UnknownErrorMessage <==> a !in ErrorMessages
    ensures GetErrorMessage(a) == GetErrorMessage(b) ==> a == b || (a !in ErrorMessages && b !in ErrorMessages)
  {
    var texts := [ErrorMessages[InvalidOrderFormat], ErrorMessages[RiskCheckFailed],
                  ErrorMessages[SymbolNotFound], ErrorMessages[InsufficientLiquidity], UnknownErrorMessage];
    assert texts[0][0] == 'O' && texts[1][0] == 'O' && texts[2][0] == 'T' && texts[3][0] == 'N' && texts[4][0] == 'U';
    assert texts[0][6] == 'f' && texts[1][6] == 'r';
  }
}
