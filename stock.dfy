/**
 * The inventory ledger as a pure fold: a table of on-hand counts per product
 * (the `Inventory` rows), and the sequence of adjustments the line saves post
 * to it. A purchase line posts a receipt that creates a zero row when none
 * exists; a sales line posts an issue that needs the row and cannot take the
 * count below zero, since `quantity` is a positive-integer column.
 */
module Stock {
  import opened Outcomes

  type ProductId = nat

  /** The `Inventory` table: product to on-hand quantity; a missing key is a missing row. */
  type Table = map<ProductId, nat>

  /** One inventory adjustment. */
  datatype Posting =
    | Receipt(product: ProductId, quantity: nat)  // a saved purchase line
    | Issue(product: ProductId, quantity: nat)    // a saved sales line

  /** The count a lookup with a zero default would see. */
  function OnHand(inv: Table, p: ProductId): nat {
    if p in inv then inv[p] else 0
  }

  /**
   * Applies one posting: a receipt is always accepted and creates a zero row
   * first when there is none; an issue is accepted exactly when the row exists
   * and its count covers the quantity. Only the posted product's count moves.
   */
  function Post(inv: Table, e: Posting): (r: Option<Table>)
    ensures e.Receipt? ==> r.Some?
    ensures e.Issue? ==> (r.Some? <==> e.product in inv && e.quantity <= inv[e.product])
    ensures r.Some? ==> r.value.Keys == inv.Keys + {e.product}
    ensures r.Some? && e.Receipt? ==> r.value[e.product] == OnHand(inv, e.product) + e.quantity
    ensures r.Some? && e.Issue? ==> r.value[e.product] + e.quantity == inv[e.product]
    ensures r.Some? ==> forall p :: p in inv && p != e.product ==> p in r.value && r.value[p] == inv[p]
  {
    match e
    case Receipt(p, q) => Some(inv[p := OnHand(inv, p) + q])
    case Issue(p, q) => if p in inv && q <= inv[p] then Some(inv[p := inv[p] - q]) else None
  }

  /** The table obtained by posting `h` in order to an empty table; None once a posting is refused. */
  function Replay(h: seq<Posting>): Option<Table>
    decreases |h|
  {
    if h == [] then Some(map[])
    else match Replay(h[..|h| - 1])
      case None => None
      case Some(inv) => Post(inv, h[|h| - 1])
  }

  /** Replaying one more posting is posting it to the table replayed so far. */
  lemma ReplayStep(h: seq<Posting>, e: Posting)
    ensures Replay(h + [e]) == if Replay(h).Some? then Post(Replay(h).value, e) else None
  {
  }

  /** Total quantity received for `p` over `h`. */
  function Received(h: seq<Posting>, p: ProductId): nat
    decreases |h|
  {
    if h == [] then 0
    else Received(h[..|h| - 1], p) + (if h[|h| - 1].Receipt? && h[|h| - 1].product == p then h[|h| - 1].quantity else 0)
  }

  /** Total quantity issued for `p` over `h`. */
  function Issued(h: seq<Posting>, p: ProductId): nat
    decreases |h|
  {
    if h == [] then 0
    else Issued(h[..|h| - 1], p) + (if h[|h| - 1].Issue? && h[|h| - 1].product == p then h[|h| - 1].quantity else 0)
  }

  /** Whether `h` holds a receipt for `p`, i.e. whether a row for `p` has been created. */
  function Stocked(h: seq<Posting>, p: ProductId): bool
    decreases |h|
  {
    h != [] && (Stocked(h[..|h| - 1], p) || (h[|h| - 1].Receipt? && h[|h| - 1].product == p))
  }

  /**
   * Inventory is a fold over the posting history: a product has a row exactly
   * when it has been received at least once, and its count is everything
   * received minus everything issued.
   */
  lemma {:induction false} NetFlow(h: seq<Posting>, inv: Table)
    requires Replay(h) == Some(inv)
    ensures forall p :: p in inv <==> Stocked(h, p)
    ensures forall p :: OnHand(inv, p) + Issued(h, p) == Received(h, p)
    decreases |h|
  {
    if h != [] {
      var front := h[..|h| - 1];
      var prev :| Replay(front) == Some(prev);
      NetFlow(front, prev);
    }
  }

  /** The first-ever receipt of `q` for a product leaves exactly `q` on hand. */
  lemma FirstReceipt(h: seq<Posting>, inv: Table, p: ProductId, q: nat)
    requires Replay(h) == Some(inv)
    requires !Stocked(h, p)
    ensures Replay(h + [Receipt(p, q)]) == Some(inv[p := q])
  {
    NetFlow(h, inv);
    assert (h + [Receipt(p, q)])[..|h|] == h;
  }

  /**
   * Posting the same adjustment twice (what a second save of the same line
   * does) moves the count by twice its quantity.
   */
  lemma PostedTwice(h: seq<Posting>, inv: Table, e: Posting)
    requires Replay(h) == Some(inv)
    requires e.Issue? ==> e.product in inv && 2 * e.quantity <= inv[e.product]
    ensures Replay(h + [e, e]).Some?
    ensures e.Receipt? ==> Replay(h + [e, e]).value[e.product] == OnHand(inv, e.product) + 2 * e.quantity
    ensures e.Issue? ==> Replay(h + [e, e]).value[e.product] == inv[e.product] - 2 * e.quantity
  {
    assert (h + [e, e])[..|h| + 1] == h + [e];
    assert (h + [e])[..|h|] == h;
  }

  /**
   * An issue is accepted exactly when the product has a row whose count
   * covers it, and then only that product's count changes.
   */
  lemma IssueAccepted(h: seq<Posting>, inv: Table, p: ProductId, q: nat)
    requires Replay(h) == Some(inv)
    ensures Replay(h + [Issue(p, q)]).Some? <==> Stocked(h, p) && q + Issued(h, p) <= Received(h, p)
    ensures Replay(h + [Issue(p, q)]).Some? ==>
      forall r :: OnHand(Replay(h + [Issue(p, q)]).value, r) == if r == p then OnHand(inv, p) - q else OnHand(inv, r)
  {
    NetFlow(h, inv);
    assert (h + [Issue(p, q)])[..|h|] == h;
  }
}
