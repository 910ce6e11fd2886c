/**
 * The sales side of the save logic that needs no table: the price a sales
 * line captures, the value it stores, and the slug a sales transaction
 * derives from its client's name and the clock.
 *
 * Money is integer cents: the price and value columns are two-place
 * decimals, and an integer quantity times a two-place decimal is exact.
 */
module Sales {
  import opened Outcomes
  import opened Clock
  import Stock

  type Cents = int
  type ClientId = nat
  type TransactionId = nat

  /** A sales line as handed to `save`: the price may be unset (None) or zero. */
  datatype SalesLineDraft = SalesLineDraft(
    transaction: TransactionId,
    product: Stock.ProductId,
    quantity: nat,
    price: Option<Cents>)

  /** A sales line as stored: its price is captured and its value computed. */
  datatype SalesLine = SalesLine(
    transaction: TransactionId,
    product: Stock.ProductId,
    quantity: nat,
    price: Cents,
    value: Cents)

  /** A sales transaction header; the empty slug means "not yet assigned". */
  datatype SalesTransaction = SalesTransaction(client: ClientId, slug: string)

  /** Python truthiness of the price field: both an unset and a zero price are false. */
  predicate Falsy(price: Option<Cents>) {
    price.None? || price.value == 0
  }

  /** A stored line whose value is its quantity times its captured price, to the cent. */
  predicate Valued(line: SalesLine) {
    line.value == line.quantity * line.price
  }

  /** The line `save` stores for `d` when the product's current price is `productPrice`. */
  function Priced(d: SalesLineDraft, productPrice: Cents): (line: SalesLine)
    ensures line.transaction == d.transaction && line.product == d.product && line.quantity == d.quantity
    ensures Valued(line)
    ensures Falsy(d.price) ==> line.price == productPrice
    ensures !Falsy(d.price) ==> line.price == d.price.value
  {
    var price := if Falsy(d.price) then productPrice else d.price.value;
    SalesLine(d.transaction, d.product, d.quantity, price, d.quantity * price)
  }

  /** The draft a second `save` of a stored line starts from. */
  function Redraft(line: SalesLine): SalesLineDraft
  {
    SalesLineDraft(line.transaction, line.product, line.quantity, Some(line.price))
  }

  /**
   * Saving a stored line again keeps its captured price and value whatever
   * the product's price has become, unless the captured price was zero.
   */
  lemma ResaveKeepsPrice(d: SalesLineDraft, priceThen: Cents, priceNow: Cents)
    requires Priced(d, priceThen).price != 0
    ensures Priced(Redraft(Priced(d, priceThen)), priceNow) == Priced(d, priceThen)
  {
  }

  /** A stored line with a zero price is re-priced at the product's current price by the next save. */
  lemma ResaveRepricesZero(d: SalesLineDraft, priceThen: Cents, priceNow: Cents)
    requires Priced(d, priceThen).price == 0
    ensures Priced(Redraft(Priced(d, priceThen)), priceNow).price == priceNow
    ensures Priced(Redraft(Priced(d, priceThen)), priceNow).value == d.quantity * priceNow
  {
  }

  /** The string `slugify` is applied to: the client's name, a dash, and the 14-digit timestamp. */
  function SlugSource(clientName: string, now: DateTime): (s: string)
    requires Valid(now)
    ensures |s| == |clientName| + 15
    ensures s[..|clientName|] == clientName && s[|clientName|] == '-'
    ensures s[|clientName| + 1..] == Timestamp(now)
    ensures ParseTimestamp(s[|clientName| + 1..]) == now
  {
    var s := clientName + "-" + Timestamp(now);
    assert s[|clientName| + 1..] == Timestamp(now);
    TimestampRoundTrip(now);
    s
  }

  /** The slug `save` leaves on a transaction: a set slug is kept, an empty one is derived. */
  function AssignSlug(slug: string, clientName: string, now: DateTime, slugify: string -> string): (r: string)
    requires Valid(now)
    ensures slug != "" ==> r == slug
    ensures slug == "" ==> r == slugify(SlugSource(clientName, now))
  {
    if slug != "" then slug else slugify(SlugSource(clientName, now))
  }

  /**
   * Once a non-empty slug is assigned, later saves at any time, under any
   * client name, leave it as it is.
   */
  lemma SlugAssignedOnce(slug: string, name1: string, now1: DateTime, name2: string, now2: DateTime,
                         slugify: string -> string)
    requires Valid(now1) && Valid(now2)
    requires AssignSlug(slug, name1, now1, slugify) != ""
    ensures AssignSlug(AssignSlug(slug, name1, now1, slugify), name2, now2, slugify)
         == AssignSlug(slug, name1, now1, slugify)
  {
  }

  /**
   * For one client name, the string handed to `slugify` tells apart exactly
   * the readings that differ somewhere down to the second; two saves in the
   * same second hand it the same string.
   */
  lemma SlugSourceInjective(clientName: string, t1: DateTime, t2: DateTime)
    requires Valid(t1) && Valid(t2)
    ensures SlugSource(clientName, t1) == SlugSource(clientName, t2) <==> t1 == t2
  {
  }
}
