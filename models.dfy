/**
 * The tables the three `save` methods touch, and the methods themselves:
 * `SalesTransaction.save` (slug), `SalesLineTransaction.save` (price, value,
 * inventory decrement) and `PurchaseLine.save` (get-or-create, inventory
 * increment). Products, clients and purchase headers are reference rows these
 * saves only read, so they are fixed when the store is built.
 */
module Models {
  import opened Outcomes
  import opened Stock
  import opened Sales
  import Clock

  type LineId = nat
  type PurchaseId = nat

  /** A purchase line as stored; its save never changes it. */
  datatype PurchaseLine = PurchaseLine(purchase: PurchaseId, product: ProductId, quantity: nat, price: Cents)

  /** Why a save raised. */
  datatype Error =
    | ProductDoesNotExist    // the line's `product` row is missing when the save reads it
    | InventoryDoesNotExist  // `Inventory.objects.get` found no row for the product
    | NegativeQuantity       // the decremented count violates the positive-integer column
    | ClientDoesNotExist     // the transaction's `client` row is missing when its name is read
    | ForeignKeyViolation    // the row being written refers to a missing row
    | DuplicateSlug          // another transaction already holds the slug (unique column)

  /** Whether a transaction other than `id` already holds `slug`. */
  predicate SlugTaken(transactions: map<TransactionId, SalesTransaction>, id: TransactionId, slug: string) {
    exists j :: j in transactions && j != id && transactions[j].slug == slug
  }

  class Store {
    const prices: map<ProductId, Cents>          // `Product.price` per product
    const clientNames: map<ClientId, string>     // `Client.name` per client
    const purchases: set<PurchaseId>             // existing `Purchase` headers
    var inventory: Table                         // `Inventory.quantity` per product with a row
    var transactions: map<TransactionId, SalesTransaction>
    var salesLines: map<LineId, SalesLine>
    var purchaseLines: map<LineId, PurchaseLine>
    ghost var postings: seq<Posting>             // every inventory adjustment written so far, in order

    /** The inventory is what the posting history replays to, and only products have rows. */
    ghost predicate StockValid()
      reads this
    {
      inventory.Keys <= prices.Keys && Replay(postings) == Some(inventory)
    }

    /** Every stored sales line is valued and refers to an existing product and transaction. */
    ghost predicate SalesLinesValid()
      reads this
    {
      forall id :: id in salesLines ==>
        Valued(salesLines[id]) && salesLines[id].product in prices
        && salesLines[id].transaction in transactions
    }

    /** Every stored purchase line refers to an existing product and purchase header. */
    ghost predicate PurchaseLinesValid()
      reads this
    {
      forall id :: id in purchaseLines ==>
        purchaseLines[id].product in prices && purchaseLines[id].purchase in purchases
    }

    /** Every transaction refers to an existing client, and no two share a slug. */
    ghost predicate TransactionsValid()
      reads this
    {
      && (forall id :: id in transactions ==> transactions[id].client in clientNames)
      && (forall i, j :: i in transactions && j in transactions && i != j ==>
            transactions[i].slug != transactions[j].slug)
    }

    ghost predicate Valid()
      reads this
    {
      StockValid() && SalesLinesValid() && PurchaseLinesValid() && TransactionsValid()
    }

    /** A store over the given reference rows, with every other table empty. */
    constructor (prices: map<ProductId, Cents>, clientNames: map<ClientId, string>, purchases: set<PurchaseId>)
      ensures Valid()
      ensures this.prices == prices && this.clientNames == clientNames && this.purchases == purchases
      ensures inventory == map[] && transactions == map[] && salesLines == map[] && purchaseLines == map[]
      ensures postings == []
    {
      this.prices := prices;
      this.clientNames := clientNames;
      this.purchases := purchases;
      inventory := map[];
      transactions := map[];
      salesLines := map[];
      purchaseLines := map[];
      postings := [];
    }

    /** The on-hand count `Inventory.objects.get(product=p).quantity` reads; None when there is no row. */
    method Quantity(p: ProductId) returns (q: Option<nat>)
      requires Valid()
      ensures q.Some? <==> Stocked(postings, p)
      ensures q.Some? ==> q.value + Issued(postings, p) == Received(postings, p)
    {
      NetFlow(postings, inventory);
      q := if p in inventory then Some(inventory[p]) else None;
    }

    /**
     * `SalesTransaction.save`: an empty slug is derived from the client's name
     * and the clock, a set one is kept; the row is then written under `id`
     * unless another transaction holds the slug. `header` is the transaction
     * object as the call leaves it: the slug is assigned to it before the
     * write, so it keeps the derived slug even when the write is refused.
     */
    method SaveTransaction(id: TransactionId, tx: SalesTransaction, now: Clock.DateTime, slugify: string -> string)
      returns (r: Result<SalesTransaction, Error>, header: SalesTransaction)
      requires Valid() && Clock.Valid(now)
      modifies this
      ensures Valid()
      ensures tx.client !in clientNames ==>
        r == Err(if tx.slug == "" then ClientDoesNotExist else ForeignKeyViolation) && header == tx
      ensures tx.client in clientNames ==>
        header == SalesTransaction(tx.client, AssignSlug(tx.slug, clientNames[tx.client], now, slugify))
      ensures tx.client in clientNames ==>
        if SlugTaken(old(transactions), id, header.slug) then r == Err(DuplicateSlug)
        else r == Ok(header) && transactions == old(transactions)[id := header]
      ensures r.Err? ==> transactions == old(transactions)
      ensures inventory == old(inventory) && postings == old(postings)
      ensures salesLines == old(salesLines) && purchaseLines == old(purchaseLines)
    {
      header := tx;
      if tx.client !in clientNames {
        return Err(if tx.slug == "" then ClientDoesNotExist else ForeignKeyViolation), header;
      }
      if tx.slug == "" {
        header := header.(slug := slugify(SlugSource(clientNames[tx.client], now)));
      }
      if SlugTaken(transactions, id, header.slug) {
        return Err(DuplicateSlug), header;
      }
      transactions := transactions[id := header];
      r := Ok(header);
    }

    /**
     * `SalesLineTransaction.save`: captures the price, computes the value,
     * decrements the product's inventory row, then writes the line under
     * `id`. Every call decrements again, whether or not `id` is already stored.
     * The decrement is written before the line, so a line whose transaction
     * is missing leaves the decrement in place.
     */
    method SaveSalesLine(id: LineId, d: SalesLineDraft) returns (r: Result<SalesLine, Error>)
      requires Valid()
      modifies this
      ensures Valid()
      ensures d.product !in prices ==> r == Err(ProductDoesNotExist)
      ensures d.product in prices && d.product !in old(inventory) ==> r == Err(InventoryDoesNotExist)
      ensures d.product in old(inventory) && old(inventory)[d.product] < d.quantity ==> r == Err(NegativeQuantity)
      ensures d.product in old(inventory) && d.quantity <= old(inventory)[d.product] ==>
        && Some(inventory) == Post(old(inventory), Issue(d.product, d.quantity))
        && postings == old(postings) + [Issue(d.product, d.quantity)]
        && (d.transaction !in transactions ==> r == Err(ForeignKeyViolation) && salesLines == old(salesLines))
        && (d.transaction in transactions ==>
              r == Ok(Priced(d, prices[d.product])) && salesLines == old(salesLines)[id := r.value])
      ensures !(d.product in old(inventory) && d.quantity <= old(inventory)[d.product]) ==>
        inventory == old(inventory) && postings == old(postings) && salesLines == old(salesLines)
      ensures transactions == old(transactions) && purchaseLines == old(purchaseLines)
    {
      var p := d.product;
      if p !in prices {
        return Err(ProductDoesNotExist);
      }
      var line := Priced(d, prices[p]);
      if p !in inventory {
        return Err(InventoryDoesNotExist);
      }
      var count: int := inventory[p] - d.quantity;
      if count < 0 {
        return Err(NegativeQuantity);
      }
      ReplayStep(postings, Issue(p, d.quantity));
      inventory := inventory[p := count];
      postings := postings + [Issue(p, d.quantity)];
      if d.transaction !in transactions {
        return Err(ForeignKeyViolation);
      }
      salesLines := salesLines[id := line];
      r := Ok(line);
    }

    /**
     * `PurchaseLine.save`: writes the line under `id`, then adds its quantity
     * to the product's inventory row, creating the row at zero first when
     * there is none. Every call adds again, whether or not `id` is already stored.
     */
    method SavePurchaseLine(id: LineId, line: PurchaseLine) returns (r: Result<PurchaseLine, Error>)
      requires Valid()
      modifies this
      ensures Valid()
      ensures r.Err? <==> line.product !in prices || line.purchase !in purchases
      ensures r.Err? ==>
        && r.error == ForeignKeyViolation
        && inventory == old(inventory) && postings == old(postings) && purchaseLines == old(purchaseLines)
      ensures r.Ok? ==> r.value == line && purchaseLines == old(purchaseLines)[id := line]
      ensures r.Ok? ==> Some(inventory) == Post(old(inventory), Receipt(line.product, line.quantity))
      ensures r.Ok? ==> postings == old(postings) + [Receipt(line.product, line.quantity)]
      ensures transactions == old(transactions) && salesLines == old(salesLines)
    {
      if line.product !in prices || line.purchase !in purchases {
        return Err(ForeignKeyViolation);
      }
      purchaseLines := purchaseLines[id := line];
      assert PurchaseLinesValid();
      var count := if line.product in inventory then inventory[line.product] else 0;  // get_or_create
      ghost var e := Receipt(line.product, line.quantity);
      ReplayStep(postings, e);
      inventory := inventory[line.product := count + line.quantity];
      postings := postings + [e];
      r := Ok(line);
    }
  }

  /**
   * A product priced 10.00 is bought five times, then sold twice on a new
   * transaction: the line is worth 20.00 and three remain. Saving the same
   * line again takes two more.
   */
  method SaleScenario(now: Clock.DateTime, slugify: string -> string)
    requires Clock.Valid(now)
  {
    var store := new Store(map[1 := 1000], map[7 := "Ali"], {3});
    var bought := store.SavePurchaseLine(0, PurchaseLine(3, 1, 5, 900));
    assert bought.Ok? && store.inventory[1] == 5;

    var tx, _ := store.SaveTransaction(0, SalesTransaction(7, ""), now, slugify);
    assert tx.Ok? && 0 in store.transactions;
    var sold := store.SaveSalesLine(0, SalesLineDraft(0, 1, 2, None));
    assert sold == Ok(Priced(SalesLineDraft(0, 1, 2, None), 1000));
    assert sold.value.price == 1000 && sold.value.value == 2000;
    assert store.inventory[1] == 3;

    sold := store.SaveSalesLine(0, Redraft(sold.value));
    assert sold.Ok? && store.inventory[1] == 1;
  }

  /**
   * Two transactions of one client saved in the same second derive the same
   * slug, so the second is refused by the unique column. The refused object
   * keeps that slug, so saving it again later is refused again.
   */
  method SameSecondScenario(now: Clock.DateTime, later: Clock.DateTime, slugify: string -> string)
    requires Clock.Valid(now) && Clock.Valid(later)
    requires slugify(SlugSource("Ali", now)) != ""
  {
    var store := new Store(map[], map[7 := "Ali"], {});
    var first, _ := store.SaveTransaction(0, SalesTransaction(7, ""), now, slugify);
    assert first.Ok? && store.transactions[0] == first.value;
    assert SlugTaken(store.transactions, 1, first.value.slug);
    var second, header := store.SaveTransaction(1, SalesTransaction(7, ""), now, slugify);
    assert second == Err(DuplicateSlug) && header == first.value;
    assert header.slug != "" && store.transactions[0] == header;
    assert SlugTaken(store.transactions, 1, header.slug);
    var retried, _ := store.SaveTransaction(1, header, later, slugify);
    assert retried == Err(DuplicateSlug);
  }
}
