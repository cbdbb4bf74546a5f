/** The terminal and the server together: an order built with the quantity
    buttons over the product list the terminal last received, then applied by the
    server to that same list. */
module OrderFlow {
  import opened Products
  import Pos
  import Server

  /** The order after a sequence of button presses, from the empty order. */
  function Clicks(ps: seq<Product>, presses: seq<(int, Pos.Action)>): map<int, int>
  {
    if |presses| == 0 then map[]
    else
      var last := presses[|presses| - 1];
      Pos.Stepped(ps, Clicks(ps, presses[..|presses| - 1]), last.0, last.1)
  }

  /** Whatever the buttons pressed, the order holds only known products, each
      with a quantity between one and its stock. */
  lemma {:induction false} ClicksWithinStock(ps: seq<Product>, presses: seq<(int, Pos.Action)>)
    ensures Pos.WithinStock(ps, Clicks(ps, presses))
  {
    if |presses| > 0 {
      var last := presses[|presses| - 1];
      ClicksWithinStock(ps, presses[..|presses| - 1]);
      Pos.StepKeepsWithinStock(ps, Clicks(ps, presses[..|presses| - 1]), last.0, last.1);
    }
  }

  /** An order that stays within the stocks of the list the server holds never
      takes a non-negative stock below zero. */
  lemma InSyncOrderNeverOversells(ps: seq<Product>, order: map<int, int>)
    requires Pos.WithinStock(ps, order)
    ensures forall i :: 0 <= i < |ps| && ps[i].stock >= 0 ==>
      Server.OrderApplied(ps, order)[i].stock >= 0
  {
    forall i | 0 <= i < |ps| && ps[i].stock >= 0
      ensures Server.OrderApplied(ps, order)[i].stock >= 0
    {
      var id := ps[i].id;
      if id in order && FirstIndex(ps, id) == Some(i) {
        assert Find(ps, id) == Some(ps[i]);
      }
    }
  }

  /** So an order built with the buttons, when the terminal's list is the
      server's, leaves every non-negative stock non-negative. */
  lemma ClickedOrderNeverOversells(ps: seq<Product>, presses: seq<(int, Pos.Action)>)
    ensures forall i :: 0 <= i < |ps| && ps[i].stock >= 0 ==>
      Server.OrderApplied(ps, Clicks(ps, presses))[i].stock >= 0
  {
    ClicksWithinStock(ps, presses);
    InSyncOrderNeverOversells(ps, Clicks(ps, presses));
  }
}
