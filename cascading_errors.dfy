/** The two backends of the cascading-errors demo: an order lookup and a refund
    processor. The refund processor only checks that an order ID was given and
    never looks the order up, so a failed lookup does not stop a refund. */
module CascadingErrors {
  import opened PyValues

  /** The error both backends return when the order ID is None or empty. */
  const MissingIdError: Record := map["error" := Str("Order ID is required")]

  const Orders: map<string, Record> := map[
    "ORD-001" := map["id" := Str("ORD-001"), "status" := Str("delivered"),
                     "total" := Float(99.99), "item" := Str("Laptop Stand")]
  ]

  /** `get_order`: the stored record for the one known order, and an error
      for a missing ID or any other ID. */
  function GetOrder(orderId: Option<string>): (r: Record)
    ensures !TruthyText(orderId) ==> r == MissingIdError
    ensures "error" !in r <==> orderId == Some("ORD-001")
    ensures "error" !in r ==> r == Orders["ORD-001"] && Get(r, "id") == Str(orderId.value)
    ensures TruthyText(orderId) && orderId.value !in Orders ==>
              r == map["error" := Str("Order " + orderId.value + " not found")]
  {
    if !TruthyText(orderId) then MissingIdError
    else if orderId.value in Orders then Orders[orderId.value]
    else map["error" := Str("Order " + orderId.value + " not found")]
  }

  /** `process_refund`: refuses only a missing ID; for any other ID it reports
      success with the fixed refund ID and the amount it was given. */
  function ProcessRefund(orderId: Option<string>, amount: Value): (r: Record)
    ensures "error" in r <==> !TruthyText(orderId)
    ensures !TruthyText(orderId) ==> r == MissingIdError
    ensures TruthyText(orderId) ==>
              Get(r, "success") == Bool(true) && Get(r, "refund_id") == Str("REF-123") &&
              Get(r, "amount") == amount
  {
    if !TruthyText(orderId) then MissingIdError
    else map["success" := Bool(true), "refund_id" := Str("REF-123"), "amount" := amount]
  }

  /** The cascade: an order the lookup reports as not found is still
      refunded, for whatever amount the caller names. */
  lemma RefundIgnoresFailedLookup(orderId: string, amount: Value)
    requires orderId != "" && orderId != "ORD-001"
    ensures "error" in GetOrder(Some(orderId))
    ensures "error" !in ProcessRefund(Some(orderId), amount)
    ensures Get(ProcessRefund(Some(orderId), amount), "amount") == amount
  {
  }

  /** The two backends reject exactly the same inputs in the same way, and
      only the lookup distinguishes known orders from unknown ones. */
  lemma GuardsAgree(orderId: Option<string>, amount: Value)
    ensures "error" in ProcessRefund(orderId, amount) ==>
              ProcessRefund(orderId, amount) == GetOrder(orderId)
    ensures "error" in ProcessRefund(orderId, amount) <==>
              GetOrder(orderId) == MissingIdError
  {
    if TruthyText(orderId) && orderId.value !in Orders {
      var r := GetOrder(orderId);
      assert Get(r, "error") != Str("Order ID is required") by {
        assert "Order " + orderId.value + " not found" != "Order ID is required" by {
          var s, t := "Order " + orderId.value + " not found", "Order ID is required";
          assert s[|s| - 2] == 'n' && t[|t| - 2] == 'e';
        }
      }
    }
  }

  /** The second scenario of the demo: looking up order 999 fails, and the
      refund of 50 for it succeeds anyway. */
  lemma Order999Scenario()
    ensures GetOrder(Some("999")) == map["error" := Str("Order 999 not found")]
    ensures ProcessRefund(Some("999"), Int(50)) ==
              map["success" := Bool(true), "refund_id" := Str("REF-123"), "amount" := Int(50)]
  {
    assert "999" !in Orders;
    assert "Order " + "999" + " not found" == "Order 999 not found";
  }
}
