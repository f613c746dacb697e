/** The invoice calculator: a list of line items edited in place, the total of
    the items and fees, and the receipt text built from them.

    Money is an exact number of centavos (100 centavos make one peso), so the
    model has no rounding; the peso formatter of the page is the parameter
    `fmt`, left abstract. */
module Invoice {

  type Money = int

  /** The fixed surcharge for GCash payments: ten pesos. */
  const GCashSurcharge: Money := 1000

  datatype Product = Product(id: int, name: string, price: Money)

  datatype PaymentMethod = Cash | GCash

  /** Everything the total and the summary are computed from. */
  datatype Inputs = Inputs(
    products: seq<Product>,
    serviceFee: Money,
    deliveryFee: Money,
    paymentMethod: PaymentMethod,
    gcashAccount: string)

  function MethodName(m: PaymentMethod): (r: string)
    ensures r == "Cash" <==> m == Cash
  {
    match m
    case Cash => "Cash"
    case GCash => "GCash"
  }

  // ---------------------------------------------------------------------
  // The product list
  // ---------------------------------------------------------------------

  predicate IdsUnique(ps: seq<Product>)
  {
    forall i, j :: 0 <= i < j < |ps| ==> ps[i].id != ps[j].id
  }

  /** The list without the items whose id is `id` (the `filter` of removeProduct). */
  function RemoveById(ps: seq<Product>, id: int): (r: seq<Product>)
    ensures |r| <= |ps|
    ensures forall i :: 0 <= i < |r| ==> r[i].id != id
  {
    if ps == [] then []
    else (if ps[0].id != id then [ps[0]] else []) + RemoveById(ps[1..], id)
  }

  /** The list with the name of the items whose id is `id` replaced (the `map` of updateProductName). */
  function RenameById(ps: seq<Product>, id: int, name: string): (r: seq<Product>)
    ensures |r| == |ps|
    ensures forall i :: 0 <= i < |ps| ==>
      r[i] == if ps[i].id == id then ps[i].(name := name) else ps[i]
  {
    if ps == [] then []
    else [if ps[0].id == id then ps[0].(name := name) else ps[0]] + RenameById(ps[1..], id, name)
  }

  /** The list with the price of the items whose id is `id` replaced (the `map` of updateProductPrice). */
  function RepriceById(ps: seq<Product>, id: int, price: Money): (r: seq<Product>)
    ensures |r| == |ps|
    ensures forall i :: 0 <= i < |ps| ==>
      r[i] == if ps[i].id == id then ps[i].(price := price) else ps[i]
  {
    if ps == [] then []
    else [if ps[0].id == id then ps[0].(price := price) else ps[0]] + RepriceById(ps[1..], id, price)
  }

  lemma {:induction false} RemoveByIdAppend(a: seq<Product>, b: seq<Product>, id: int)
    ensures RemoveById(a + b, id) == RemoveById(a, id) + RemoveById(b, id)
  {
    if a == [] {
      assert a + b == b;
    } else {
      assert (a + b)[0] == a[0];
      assert (a + b)[1..] == a[1..] + b;
      RemoveByIdAppend(a[1..], b, id);
    }
  }

  /** The items left are exactly the items without that id. */
  lemma {:induction false} RemoveByIdMembers(ps: seq<Product>, id: int)
    ensures forall p :: p in RemoveById(ps, id) <==> p in ps && p.id != id
  {
    if ps != [] {
      RemoveByIdMembers(ps[1..], id);
      assert ps == [ps[0]] + ps[1..];
    }
  }

  /** Removing an id that no item carries leaves the list as it is. */
  lemma {:induction false} RemoveAbsentId(ps: seq<Product>, id: int)
    requires forall p :: p in ps ==> p.id != id
    ensures RemoveById(ps, id) == ps
  {
    if ps != [] {
      assert ps[0] in ps;
      RemoveAbsentId(ps[1..], id);
    }
  }

  lemma UniqueTail(ps: seq<Product>)
    requires IdsUnique(ps) && ps != []
    ensures IdsUnique(ps[1..])
    ensures forall p :: p in ps[1..] ==> p.id != ps[0].id
  {
    forall i, j | 0 <= i < j < |ps[1..]| ensures ps[1..][i].id != ps[1..][j].id {
      assert ps[1..][i] == ps[i + 1] && ps[1..][j] == ps[j + 1];
    }
    forall p | p in ps[1..] ensures p.id != ps[0].id {
      var i :| 0 <= i < |ps[1..]| && ps[1..][i] == p;
      assert p == ps[i + 1];
    }
  }

  /** With unique ids, removing the id of item `k` deletes exactly that item
      and keeps the others in their order. */
  lemma {:induction false} RemoveUniqueId(ps: seq<Product>, k: int)
    requires IdsUnique(ps) && 0 <= k < |ps|
    ensures RemoveById(ps, ps[k].id) == ps[..k] + ps[k + 1..]
  {
    UniqueTail(ps);
    if k == 0 {
      RemoveAbsentId(ps[1..], ps[0].id);
      assert ps[..0] + ps[1..] == ps[1..];
    } else {
      assert ps[1..][k - 1] == ps[k];
      assert ps[0].id != ps[k].id;
      RemoveUniqueId(ps[1..], k - 1);
      assert ps[1..][..k - 1] + ps[1..][k..] == ps[1..k] + ps[k + 1..];
      assert ps[..k] + ps[k + 1..] == [ps[0]] + (ps[1..k] + ps[k + 1..]);
    }
  }

  lemma RemovePreservesUniqueIds(ps: seq<Product>, id: int)
    requires IdsUnique(ps)
    ensures IdsUnique(RemoveById(ps, id))
  {
    if k :| 0 <= k < |ps| && ps[k].id == id {
      RemoveUniqueId(ps, k);
      var r := RemoveById(ps, id);
      forall i, j | 0 <= i < j < |r| ensures r[i].id != r[j].id {
        var i' := if i < k then i else i + 1;
        var j' := if j < k then j else j + 1;
        assert r[i] == ps[i'] && r[j] == ps[j'];
      }
    } else {
      RemoveAbsentId(ps, id);
    }
  }

  /** The remove button is offered only while the list holds more than one item;
      pressing it on any item then removes one item and never empties the list. */
  lemma RemoveButtonKeepsListNonEmpty(ps: seq<Product>, k: int)
    requires IdsUnique(ps) && |ps| > 1 && 0 <= k < |ps|
    ensures |RemoveById(ps, ps[k].id)| == |ps| - 1 >= 1
  {
    RemoveUniqueId(ps, k);
  }

  /** Adding a fresh item and removing it again restores the list exactly,
      as long as every existing id is at most the counter. */
  lemma AddThenRemove(ps: seq<Product>, counter: int)
    requires forall p :: p in ps ==> p.id <= counter
    ensures RemoveById(ps + [Product(counter + 1, "", 0)], counter + 1) == ps
  {
    RemoveByIdAppend(ps, [Product(counter + 1, "", 0)], counter + 1);
    RemoveAbsentId(ps, counter + 1);
    assert RemoveById([Product(counter + 1, "", 0)], counter + 1) == [];
  }

  // ---------------------------------------------------------------------
  // The total
  // ---------------------------------------------------------------------

  /** The `reduce` over the item prices. With no negative price the sum is
      non-negative and at least every single price. */
  function SumPrices(ps: seq<Product>): (r: Money)
    ensures (forall p :: p in ps ==> p.price >= 0) ==> r >= 0 && forall p :: p in ps ==> p.price <= r
  {
    if ps == [] then 0 else ps[0].price + SumPrices(ps[1..])
  }

  lemma {:induction false} SumPricesAppend(a: seq<Product>, b: seq<Product>)
    ensures SumPrices(a + b) == SumPrices(a) + SumPrices(b)
  {
    if a == [] {
      assert a + b == b;
    } else {
      assert (a + b)[1..] == a[1..] + b;
      SumPricesAppend(a[1..], b);
    }
  }

  function Surcharge(m: PaymentMethod): Money
  {
    if m == GCash then GCashSurcharge else 0
  }

  /** calculateTotal: every item price, the service fee, the delivery fee and the GCash surcharge. */
  function CalculateTotal(inp: Inputs): (r: Money)
    ensures (forall p :: p in inp.products ==> p.price >= 0) ==>
      r >= inp.serviceFee + inp.deliveryFee + Surcharge(inp.paymentMethod)
  {
    SumPrices(inp.products) + inp.serviceFee + inp.deliveryFee + Surcharge(inp.paymentMethod)
  }

  /** A freshly added item (price 0) does not change the total. */
  lemma TotalAfterAdd(inp: Inputs, counter: int)
    ensures CalculateTotal(inp.(products := inp.products + [Product(counter + 1, "", 0)]))
         == CalculateTotal(inp)
  {
    SumPricesAppend(inp.products, [Product(counter + 1, "", 0)]);
  }

  /** Removing the item at `k` (ids unique) lowers the total by exactly its price. */
  lemma TotalAfterRemove(inp: Inputs, k: int)
    requires IdsUnique(inp.products) && 0 <= k < |inp.products|
    ensures CalculateTotal(inp.(products := RemoveById(inp.products, inp.products[k].id)))
         == CalculateTotal(inp) - inp.products[k].price
  {
    var ps := inp.products;
    RemoveUniqueId(ps, k);
    assert ps == ps[..k] + [ps[k]] + ps[k + 1..];
    SumPricesAppend(ps[..k] + [ps[k]], ps[k + 1..]);
    SumPricesAppend(ps[..k], [ps[k]]);
    SumPricesAppend(ps[..k], ps[k + 1..]);
  }

  /** Setting the price of item `k` (ids unique) moves the total by the difference. */
  lemma TotalAfterReprice(inp: Inputs, k: int, price: Money)
    requires IdsUnique(inp.products) && 0 <= k < |inp.products|
    ensures CalculateTotal(inp.(products := RepriceById(inp.products, inp.products[k].id, price)))
         == CalculateTotal(inp) - inp.products[k].price + price
  {
    var ps := inp.products;
    var r := RepriceById(ps, ps[k].id, price);
    assert r == r[..k] + [r[k]] + r[k + 1..];
    assert ps == ps[..k] + [ps[k]] + ps[k + 1..];
    assert r[..k] == ps[..k];
    assert r[k + 1..] == ps[k + 1..];
    SumPricesAppend(r[..k] + [r[k]], r[k + 1..]);
    SumPricesAppend(r[..k], [r[k]]);
    SumPricesAppend(ps[..k] + [ps[k]], ps[k + 1..]);
    SumPricesAppend(ps[..k], [ps[k]]);
  }

  /** Renaming never changes the total. */
  lemma {:induction false} TotalAfterRename(inp: Inputs, id: int, name: string)
    ensures CalculateTotal(inp.(products := RenameById(inp.products, id, name))) == CalculateTotal(inp)
  {
    RenameKeepsSum(inp.products, id, name);
  }

  lemma {:induction false} RenameKeepsSum(ps: seq<Product>, id: int, name: string)
    ensures SumPrices(RenameById(ps, id, name)) == SumPrices(ps)
  {
    if ps != [] {
      RenameKeepsSum(ps[1..], id, name);
    }
  }

  // ---------------------------------------------------------------------
  // The summary
  // ---------------------------------------------------------------------

  /** One line of the receipt text, before formatting. */
  datatype Line =
    | Header
    | Bullet(itemName: string, price: Money)
    | NoProductsAdded
    | NoProductDetails
    | ServiceFeeLine(amount: Money)
    | DeliveryFeeLine(amount: Money)
    | GCashFeeLine
    | TotalLine(amount: Money)
    | PaymentMethodLine(payment: PaymentMethod)
    | GCashAccountLine(account: string)

  /** The position of each kind of line in the fixed layout of the receipt. */
  function Rank(l: Line): nat
  {
    match l
    case Header => 0
    case Bullet(_, _) => 1
    case NoProductsAdded => 2
    case NoProductDetails => 3
    case ServiceFeeLine(_) => 4
    case DeliveryFeeLine(_) => 5
    case GCashFeeLine => 6
    case TotalLine(_) => 7
    case PaymentMethodLine(_) => 8
    case GCashAccountLine(_) => 9
  }

  /** An item gets a bullet when it has a name or a positive price. */
  predicate Listed(p: Product)
  {
    p.name != "" || p.price > 0
  }

  function Label(p: Product): string
  {
    if p.name != "" then p.name else "Unnamed Product"
  }

  predicate HasListed(ps: seq<Product>)
  {
    exists i :: 0 <= i < |ps| && Listed(ps[i])
  }

  function BulletLines(ps: seq<Product>): seq<Line>
  {
    if ps == [] then []
    else (if Listed(ps[0]) then [Bullet(Label(ps[0]), ps[0].price)] else []) + BulletLines(ps[1..])
  }

  function FallbackLines(ps: seq<Product>): seq<Line>
  {
    if HasListed(ps) then []
    else if |ps| == 0 then [NoProductsAdded]
    else [NoProductDetails]
  }

  function ServiceFeePart(inp: Inputs): seq<Line>
  {
    if inp.serviceFee > 0 then [ServiceFeeLine(inp.serviceFee)] else []
  }

  function GCashFeePart(inp: Inputs): seq<Line>
  {
    if inp.paymentMethod == GCash then [GCashFeeLine] else []
  }

  function GCashAccountPart(inp: Inputs): seq<Line>
  {
    if inp.paymentMethod == GCash && inp.gcashAccount != "" then [GCashAccountLine(inp.gcashAccount)] else []
  }

  function FeeLines(inp: Inputs): seq<Line>
  {
    ServiceFeePart(inp)
    + [DeliveryFeeLine(inp.deliveryFee)]
    + GCashFeePart(inp)
    + [TotalLine(CalculateTotal(inp))]
    + [PaymentMethodLine(inp.paymentMethod)]
    + GCashAccountPart(inp)
  }

  /** The lines of generateSummary, in order. */
  function SummaryLines(inp: Inputs): seq<Line>
  {
    [Header] + BulletLines(inp.products) + FallbackLines(inp.products) + FeeLines(inp)
  }

  /** The text of one line; every line ends in a newline. `fmt(n)` stands for
      the page's peso formatter applied to the amount in pesos, n / 100. */
  function Render(l: Line, fmt: Money -> string): (r: string)
    ensures |r| > 0 && r[|r| - 1] == '\n'
  {
    match l
    case Header => "Invoice\n"
    case Bullet(itemName, price) => "• " + itemName + ": ₱" + fmt(price) + "\n"
    case NoProductsAdded => "No products added.\n"
    case NoProductDetails => "No product details entered.\n"
    case ServiceFeeLine(a) => "Service Fee: ₱" + fmt(a) + "\n"
    case DeliveryFeeLine(a) => "Delivery Fee: ₱" + fmt(a) + "\n"
    case GCashFeeLine => "GCash Fee: ₱10.00\n"
    case TotalLine(a) => "Total: ₱" + fmt(a) + "\n"
    case PaymentMethodLine(m) => "Payment Method: " + MethodName(m) + "\n"
    case GCashAccountLine(a) => "GCash Account: " + a + "\n"
  }

  function Text(lines: seq<Line>, fmt: Money -> string): string
  {
    if lines == [] then "" else Render(lines[0], fmt) + Text(lines[1..], fmt)
  }

  /** generateSummary as a string. */
  function SummaryText(inp: Inputs, fmt: Money -> string): string
  {
    Text(SummaryLines(inp), fmt)
  }

  lemma {:induction false} TextAppend(a: seq<Line>, b: seq<Line>, fmt: Money -> string)
    ensures Text(a + b, fmt) == Text(a, fmt) + Text(b, fmt)
  {
    if a == [] {
      assert a + b == b;
    } else {
      assert (a + b)[0] == a[0];
      assert (a + b)[1..] == a[1..] + b;
      TextAppend(a[1..], b, fmt);
    }
  }

  lemma TextSnoc(a: seq<Line>, l: Line, fmt: Money -> string)
    ensures Text(a + [l], fmt) == Text(a, fmt) + Render(l, fmt)
  {
    TextAppend(a, [l], fmt);
    assert Text([l], fmt) == Render(l, fmt) + Text([], fmt);
  }

  lemma {:induction false} TextEndsInNewline(lines: seq<Line>, fmt: Money -> string)
    requires lines != []
    ensures |Text(lines, fmt)| > 0 && Text(lines, fmt)[|Text(lines, fmt)| - 1] == '\n'
  {
    if lines[1..] != [] {
      TextEndsInNewline(lines[1..], fmt);
    }
  }

  /** The summary text starts with the line "Invoice" and ends with a newline. */
  lemma SummaryTextShape(inp: Inputs, fmt: Money -> string)
    ensures |SummaryText(inp, fmt)| > 8
    ensures SummaryText(inp, fmt)[..8] == "Invoice\n"
    ensures SummaryText(inp, fmt)[|SummaryText(inp, fmt)| - 1] == '\n'
  {
    var all := SummaryLines(inp);
    var rest := all[1..];
    assert all[0] == Header;
    assert rest != [] by {
      assert DeliveryFeeLine(inp.deliveryFee) in FeeLines(inp);
      assert DeliveryFeeLine(inp.deliveryFee) in all;
    }
    assert Text(all, fmt) == "Invoice\n" + Text(rest, fmt);
    TextEndsInNewline(all, fmt);
    TextEndsInNewline(rest, fmt);
  }

  lemma {:induction false} BulletLinesAppend(a: seq<Product>, b: seq<Product>)
    ensures BulletLines(a + b) == BulletLines(a) + BulletLines(b)
  {
    if a == [] {
      assert a + b == b;
    } else {
      assert (a + b)[0] == a[0];
      assert (a + b)[1..] == a[1..] + b;
      BulletLinesAppend(a[1..], b);
    }
  }

  /** Number of items that get a bullet. */
  function CountListed(ps: seq<Product>): nat
  {
    if ps == [] then 0 else (if Listed(ps[0]) then 1 else 0) + CountListed(ps[1..])
  }

  /** The bullets are exactly the listed items, one each, in list order: there
      are as many bullets as listed items, every bullet is one, and the bullet
      of item `i` sits after the bullets of the listed items before it. */
  lemma {:induction false} BulletsFollowItems(ps: seq<Product>)
    ensures |BulletLines(ps)| == CountListed(ps)
    ensures forall l :: l in BulletLines(ps) ==> l.Bullet?
    ensures forall i :: 0 <= i < |ps| && Listed(ps[i]) ==>
      CountListed(ps[..i]) < |BulletLines(ps)| &&
      BulletLines(ps)[CountListed(ps[..i])] == Bullet(Label(ps[i]), ps[i].price)
  {
    if ps != [] {
      BulletsFollowItems(ps[1..]);
      forall i | 0 <= i < |ps| && Listed(ps[i])
        ensures CountListed(ps[..i]) < |BulletLines(ps)|
        ensures BulletLines(ps)[CountListed(ps[..i])] == Bullet(Label(ps[i]), ps[i].price)
      {
        if i > 0 {
          assert ps[..i][1..] == ps[1..][..i - 1];
          assert ps[1..][i - 1] == ps[i];
        }
      }
    }
  }

  /** A bullet's label is the item's name, or "Unnamed Product" for a nameless item. */
  lemma BulletLabels(ps: seq<Product>)
    ensures forall l :: l in BulletLines(ps) ==>
      exists p :: p in ps && Listed(p) && l == Bullet(Label(p), p.price)
  {
    if ps != [] {
      BulletLabels(ps[1..]);
    }
  }

  lemma {:induction false} NoBulletsIffNoneListed(ps: seq<Product>)
    ensures BulletLines(ps) == [] <==> !HasListed(ps)
  {
    if ps != [] {
      NoBulletsIffNoneListed(ps[1..]);
      if HasListed(ps[1..]) {
        var i :| 0 <= i < |ps[1..]| && Listed(ps[1..][i]);
        assert Listed(ps[i + 1]);
      }
      if HasListed(ps) && !Listed(ps[0]) {
        var i :| 0 <= i < |ps| && Listed(ps[i]);
        assert Listed(ps[1..][i - 1]);
      }
    }
  }

  /** Number of lines of a given rank. */
  function CountRank(lines: seq<Line>, k: nat): nat
  {
    if lines == [] then 0 else (if Rank(lines[0]) == k then 1 else 0) + CountRank(lines[1..], k)
  }

  lemma {:induction false} CountRankAppend(a: seq<Line>, b: seq<Line>, k: nat)
    ensures CountRank(a + b, k) == CountRank(a, k) + CountRank(b, k)
  {
    if a == [] {
      assert a + b == b;
    } else {
      assert (a + b)[0] == a[0];
      assert (a + b)[1..] == a[1..] + b;
      CountRankAppend(a[1..], b, k);
    }
  }

  lemma {:induction false} CountRankBullets(ps: seq<Product>, k: nat)
    ensures CountRank(BulletLines(ps), k) == if k == 1 then CountListed(ps) else 0
  {
    if ps != [] {
      var head := if Listed(ps[0]) then [Bullet(Label(ps[0]), ps[0].price)] else [];
      CountRankAppend(head, BulletLines(ps[1..]), k);
      CountRankBullets(ps[1..], k);
      assert CountRank(head, k) == if k == 1 && Listed(ps[0]) then 1 else 0 by {
        if head != [] {
          assert head[1..] == [];
        }
      }
    }
  }

  lemma CountRankSingle(l: Line, k: nat)
    ensures CountRank([l], k) == if Rank(l) == k then 1 else 0
  {
    assert [l][1..] == [];
  }

  lemma CountRankOpt(c: bool, l: Line, k: nat)
    ensures CountRank(if c then [l] else [], k) == if c && Rank(l) == k then 1 else 0
  {
    if c { CountRankSingle(l, k); }
  }

  /** How often each kind of line appears in the summary: one header, one
      bullet per listed item, one fallback line exactly when nothing is
      listed, a Service Fee line iff the fee is positive, always one Delivery
      Fee, Total and Payment Method line, the GCash Fee line iff paying by
      GCash, the GCash Account line iff paying by GCash with an account chosen. */
  lemma SummaryLineCounts(inp: Inputs)
    ensures CountRank(SummaryLines(inp), 0) == 1
    ensures CountRank(SummaryLines(inp), 1) == CountListed(inp.products)
    ensures CountRank(SummaryLines(inp), 2) == if |inp.products| == 0 then 1 else 0
    ensures CountRank(SummaryLines(inp), 3) == if |inp.products| > 0 && !HasListed(inp.products) then 1 else 0
    ensures CountRank(SummaryLines(inp), 4) == if inp.serviceFee > 0 then 1 else 0
    ensures CountRank(SummaryLines(inp), 5) == 1
    ensures CountRank(SummaryLines(inp), 6) == if inp.paymentMethod == GCash then 1 else 0
    ensures CountRank(SummaryLines(inp), 7) == 1
    ensures CountRank(SummaryLines(inp), 8) == 1
    ensures CountRank(SummaryLines(inp), 9) ==
      if inp.paymentMethod == GCash && inp.gcashAccount != "" then 1 else 0
  {
    forall k: nat | k <= 9
      ensures CountRank(SummaryLines(inp), k) == CountInSummary(inp, k)
    {
      SummaryCountAt(inp, k);
    }
  }

  /** The expected number of lines of rank `k`, as the layout of generateSummary fixes it. */
  function CountInSummary(inp: Inputs, k: nat): nat
  {
    var ps := inp.products;
    var gcash := inp.paymentMethod == GCash;
    if k == 0 then 1
    else if k == 1 then CountListed(ps)
    else if k == 2 then (if |ps| == 0 then 1 else 0)
    else if k == 3 then (if |ps| > 0 && !HasListed(ps) then 1 else 0)
    else if k == 4 then (if inp.serviceFee > 0 then 1 else 0)
    else if k == 5 || k == 7 || k == 8 then 1
    else if k == 6 then (if gcash then 1 else 0)
    else if k == 9 then (if gcash && inp.gcashAccount != "" then 1 else 0)
    else 0
  }

  lemma FeeCountAt(inp: Inputs, k: nat)
    ensures CountRank(FeeLines(inp), k) == if k <= 3 then 0 else CountInSummary(inp, k)
  {
    var gcash := inp.paymentMethod == GCash;
    var s := if inp.serviceFee > 0 then [ServiceFeeLine(inp.serviceFee)] else [];
    var g := if gcash then [GCashFeeLine] else [];
    var a := if gcash && inp.gcashAccount != "" then [GCashAccountLine(inp.gcashAccount)] else [];
    var d := [DeliveryFeeLine(inp.deliveryFee)];
    var t := [TotalLine(CalculateTotal(inp))];
    var m := [PaymentMethodLine(inp.paymentMethod)];
    assert FeeLines(inp) == s + d + g + t + m + a;
    CountRankAppend(s + d + g + t + m, a, k);
    CountRankAppend(s + d + g + t, m, k);
    CountRankAppend(s + d + g, t, k);
    CountRankAppend(s + d, g, k);
    CountRankAppend(s, d, k);
    CountRankOpt(inp.serviceFee > 0, ServiceFeeLine(inp.serviceFee), k);
    CountRankOpt(gcash, GCashFeeLine, k);
    CountRankOpt(gcash && inp.gcashAccount != "", GCashAccountLine(inp.gcashAccount), k);
    CountRankSingle(DeliveryFeeLine(inp.deliveryFee), k);
    CountRankSingle(TotalLine(CalculateTotal(inp)), k);
    CountRankSingle(PaymentMethodLine(inp.paymentMethod), k);
  }

  lemma HeadCountAt(inp: Inputs, k: nat)
    ensures CountRank([Header] + BulletLines(inp.products) + FallbackLines(inp.products), k)
         == if k <= 3 then CountInSummary(inp, k) else 0
  {
    var ps := inp.products;
    var f := FallbackLines(ps);
    NoBulletsIffNoneListed(ps);
    assert |ps| == 0 ==> !HasListed(ps);
    if HasListed(ps) {
      assert f == [];
    } else if |ps| == 0 {
      CountRankSingle(NoProductsAdded, k);
    } else {
      CountRankSingle(NoProductDetails, k);
    }
    CountRankBullets(ps, k);
    CountRankSingle(Header, k);
    CountRankAppend([Header] + BulletLines(ps), f, k);
    CountRankAppend([Header], BulletLines(ps), k);
  }

  lemma SummaryCountAt(inp: Inputs, k: nat)
    ensures CountRank(SummaryLines(inp), k) == CountInSummary(inp, k)
  {
    var ps := inp.products;
    CountRankAppend([Header] + BulletLines(ps) + FallbackLines(ps), FeeLines(inp), k);
    FeeCountAt(inp, k);
    HeadCountAt(inp, k);
  }

  predicate InLayoutOrder(lines: seq<Line>)
  {
    forall i, j :: 0 <= i < j < |lines| ==> Rank(lines[i]) <= Rank(lines[j])
  }

  predicate RanksWithin(lines: seq<Line>, lo: nat, hi: nat)
  {
    forall i :: 0 <= i < |lines| ==> lo <= Rank(lines[i]) <= hi
  }

  /** Two ordered runs, the first ranked at most `mid` and the second at least `mid`, join into one. */
  lemma OrderedJoin(a: seq<Line>, b: seq<Line>, lo: nat, mid: nat, hi: nat)
    requires lo <= mid <= hi
    requires InLayoutOrder(a) && RanksWithin(a, lo, mid)
    requires InLayoutOrder(b) && RanksWithin(b, mid, hi)
    ensures InLayoutOrder(a + b) && RanksWithin(a + b, lo, hi)
  {
    forall i, j | 0 <= i < j < |a + b| ensures Rank((a + b)[i]) <= Rank((a + b)[j]) {
      if j < |a| {
        assert (a + b)[i] == a[i] && (a + b)[j] == a[j];
      } else if i >= |a| {
        assert (a + b)[i] == b[i - |a|] && (a + b)[j] == b[j - |a|];
      } else {
        assert (a + b)[i] == a[i] && (a + b)[j] == b[j - |a|];
      }
    }
    forall i | 0 <= i < |a + b| ensures lo <= Rank((a + b)[i]) <= hi {
      if i < |a| {
        assert (a + b)[i] == a[i];
      } else {
        assert (a + b)[i] == b[i - |a|];
      }
    }
  }

  lemma HeadInOrder(ps: seq<Product>)
    ensures InLayoutOrder([Header] + BulletLines(ps) + FallbackLines(ps))
    ensures RanksWithin([Header] + BulletLines(ps) + FallbackLines(ps), 0, 3)
  {
    BulletsFollowItems(ps);
    var bullets := BulletLines(ps);
    assert RanksWithin(bullets, 1, 1) by {
      forall i | 0 <= i < |bullets| ensures Rank(bullets[i]) == 1 {
        assert bullets[i] in bullets;
      }
    }
    OrderedJoin([Header], bullets, 0, 1, 1);
    OrderedJoin([Header] + bullets, FallbackLines(ps), 0, 1, 3);
  }

  lemma FeeLinesInOrder(inp: Inputs)
    ensures InLayoutOrder(FeeLines(inp)) && RanksWithin(FeeLines(inp), 4, 9)
  {
    var a := ServiceFeePart(inp) + [DeliveryFeeLine(inp.deliveryFee)];
    OrderedJoin(ServiceFeePart(inp), [DeliveryFeeLine(inp.deliveryFee)], 4, 4, 5);
    var b := a + GCashFeePart(inp);
    OrderedJoin(a, GCashFeePart(inp), 4, 5, 6);
    var c := b + [TotalLine(CalculateTotal(inp))];
    OrderedJoin(b, [TotalLine(CalculateTotal(inp))], 4, 6, 7);
    var d := c + [PaymentMethodLine(inp.paymentMethod)];
    OrderedJoin(c, [PaymentMethodLine(inp.paymentMethod)], 4, 7, 8);
    OrderedJoin(d, GCashAccountPart(inp), 4, 8, 9);
  }

  /** The summary's lines follow the fixed layout: header, bullets, fallback,
      Service Fee, Delivery Fee, GCash Fee, Total, Payment Method, GCash Account. */
  lemma SummaryInLayoutOrder(inp: Inputs)
    ensures InLayoutOrder(SummaryLines(inp))
  {
    HeadInOrder(inp.products);
    FeeLinesInOrder(inp);
    OrderedJoin([Header] + BulletLines(inp.products) + FallbackLines(inp.products), FeeLines(inp), 0, 3, 9);
  }

  /** The lines before the fees are the header, bullets and fallbacks only. */
  lemma HeadKinds(ps: seq<Product>)
    ensures forall l :: l in [Header] + BulletLines(ps) + FallbackLines(ps) ==>
      l.Header? || l.Bullet? || l.NoProductsAdded? || l.NoProductDetails?
  {
    BulletsFollowItems(ps);
  }

  lemma FeeLineAmounts(inp: Inputs)
    ensures forall l :: l in FeeLines(inp) && l.ServiceFeeLine? ==>
      l.amount == inp.serviceFee && inp.serviceFee > 0
    ensures forall l :: l in FeeLines(inp) && l.DeliveryFeeLine? ==> l.amount == inp.deliveryFee
    ensures forall l :: l in FeeLines(inp) && l.TotalLine? ==> l.amount == CalculateTotal(inp)
    ensures forall l :: l in FeeLines(inp) && l.PaymentMethodLine? ==> l.payment == inp.paymentMethod
    ensures forall l :: l in FeeLines(inp) && l.GCashAccountLine? ==>
      l.account == inp.gcashAccount && inp.gcashAccount != "" && inp.paymentMethod == GCash
  {
  }

  /** The amounts the fee lines show: the fees as entered and the total of
      calculateTotal (which counts every item, listed or not). */
  lemma SummaryAmounts(inp: Inputs)
    ensures forall l :: l in SummaryLines(inp) && l.ServiceFeeLine? ==>
      l.amount == inp.serviceFee && inp.serviceFee > 0
    ensures forall l :: l in SummaryLines(inp) && l.DeliveryFeeLine? ==> l.amount == inp.deliveryFee
    ensures forall l :: l in SummaryLines(inp) && l.TotalLine? ==> l.amount == CalculateTotal(inp)
    ensures forall l :: l in SummaryLines(inp) && l.PaymentMethodLine? ==> l.payment == inp.paymentMethod
    ensures forall l :: l in SummaryLines(inp) && l.GCashAccountLine? ==>
      l.account == inp.gcashAccount && inp.gcashAccount != "" && inp.paymentMethod == GCash
  {
    var head := [Header] + BulletLines(inp.products) + FallbackLines(inp.products);
    HeadKinds(inp.products);
    FeeLineAmounts(inp);
    assert SummaryLines(inp) == head + FeeLines(inp);
  }

  /** Sum of the prices the bullets show. */
  function SumBullets(lines: seq<Line>): Money
  {
    if lines == [] then 0
    else (if lines[0].Bullet? then lines[0].price else 0) + SumBullets(lines[1..])
  }

  lemma {:induction false} SumBulletsAppend(a: seq<Line>, b: seq<Line>)
    ensures SumBullets(a + b) == SumBullets(a) + SumBullets(b)
  {
    if a == [] {
      assert a + b == b;
    } else {
      assert (a + b)[1..] == a[1..] + b;
      SumBulletsAppend(a[1..], b);
    }
  }

  /** The items the summary skips never raise the total: the sum of all
      prices is at most the sum the bullets show, and equal to it when no
      price is negative. */
  lemma {:induction false} SkippedItemsInTotal(ps: seq<Product>)
    ensures SumPrices(ps) <= SumBullets(BulletLines(ps))
    ensures (forall p :: p in ps ==> p.price >= 0) ==> SumPrices(ps) == SumBullets(BulletLines(ps))
  {
    if ps != [] {
      SkippedItemsInTotal(ps[1..]);
      var head := if Listed(ps[0]) then [Bullet(Label(ps[0]), ps[0].price)] else [];
      SumBulletsAppend(head, BulletLines(ps[1..]));
      assert SumBullets(head) == if Listed(ps[0]) then ps[0].price else 0 by {
        if head != [] { assert head[1..] == []; }
      }
      if forall p :: p in ps ==> p.price >= 0 {
        assert forall p :: p in ps[1..] ==> p in ps;
      }
    }
  }

  /** With no negative prices, the Total line equals the bullet prices plus the fees. */
  lemma TotalMatchesListedItems(inp: Inputs)
    requires forall p :: p in inp.products ==> p.price >= 0
    ensures CalculateTotal(inp) ==
      SumBullets(BulletLines(inp.products)) + inp.serviceFee + inp.deliveryFee + Surcharge(inp.paymentMethod)
  {
    SkippedItemsInTotal(inp.products);
  }

  /** One step of the item loop of generateSummary. */
  lemma BulletStep(ps: seq<Product>, i: int)
    requires 0 <= i < |ps|
    ensures BulletLines(ps[..i + 1]) ==
      BulletLines(ps[..i]) + if Listed(ps[i]) then [Bullet(Label(ps[i]), ps[i].price)] else []
    ensures HasListed(ps[..i + 1]) == (HasListed(ps[..i]) || Listed(ps[i]))
  {
    assert ps[..i + 1] == ps[..i] + [ps[i]];
    BulletLinesAppend(ps[..i], [ps[i]]);
    assert [ps[i]][1..] == [];
    if HasListed(ps[..i + 1]) && !Listed(ps[i]) {
      var j :| 0 <= j < i + 1 && Listed(ps[..i + 1][j]);
      assert ps[..i + 1][j] == ps[..i][j];
    }
    if HasListed(ps[..i]) {
      var j :| 0 <= j < i && Listed(ps[..i][j]);
      assert ps[..i + 1][j] == ps[..i][j];
    }
    if Listed(ps[i]) {
      assert ps[..i + 1][i] == ps[i];
    }
  }

  /** generateSummary: one pass over the items, then the fallback and fee
      lines; each line's text is its `Render`. */
  method GenerateSummary(inp: Inputs, fmt: Money -> string) returns (text: string)
    ensures text == SummaryText(inp, fmt)
  {
    ghost var lines := [Header];
    text := Render(Header, fmt);
    assert Text([Header], fmt) == Render(Header, fmt);
    var ps := inp.products;
    var hasValidProducts := false;
    var i := 0;
    while i < |ps|
      invariant 0 <= i <= |ps|
      invariant lines == [Header] + BulletLines(ps[..i])
      invariant text == Text(lines, fmt)
      invariant hasValidProducts == HasListed(ps[..i])
    {
      var product := ps[i];
      BulletStep(ps, i);
      if product.name != "" || product.price > 0 {
        var bullet := Bullet(if product.name != "" then product.name else "Unnamed Product", product.price);
        TextSnoc(lines, bullet, fmt);
        text := text + Render(bullet, fmt);
        lines := lines + [bullet];
        hasValidProducts := true;
      }
      i := i + 1;
    }
    assert ps[..i] == ps;

    if !hasValidProducts && |ps| == 0 {
      TextSnoc(lines, NoProductsAdded, fmt);
      text := text + Render(NoProductsAdded, fmt);
      lines := lines + [NoProductsAdded];
    } else if !hasValidProducts && |ps| > 0 {
      TextSnoc(lines, NoProductDetails, fmt);
      text := text + Render(NoProductDetails, fmt);
      lines := lines + [NoProductDetails];
    }
    assert lines == [Header] + BulletLines(ps) + FallbackLines(ps);
    text := AppendFeeLines(inp, lines, text, fmt);
  }

  /** The lines generateSummary writes after the items, in their fixed order. */
  method AppendFeeLines(inp: Inputs, ghost head: seq<Line>, text: string, fmt: Money -> string)
    returns (out: string)
    requires text == Text(head, fmt)
    ensures out == Text(head + FeeLines(inp), fmt)
  {
    ghost var lines := head;
    out := text;
    if inp.serviceFee > 0 {
      TextSnoc(lines, ServiceFeeLine(inp.serviceFee), fmt);
      out := out + Render(ServiceFeeLine(inp.serviceFee), fmt);
      lines := lines + [ServiceFeeLine(inp.serviceFee)];
    }
    assert lines == head + ServiceFeePart(inp);

    TextSnoc(lines, DeliveryFeeLine(inp.deliveryFee), fmt);
    out := out + Render(DeliveryFeeLine(inp.deliveryFee), fmt);
    lines := lines + [DeliveryFeeLine(inp.deliveryFee)];

    ghost var mid := lines;
    if inp.paymentMethod == GCash {
      TextSnoc(lines, GCashFeeLine, fmt);
      out := out + Render(GCashFeeLine, fmt);
      lines := lines + [GCashFeeLine];
    }
    assert lines == mid + GCashFeePart(inp);

    var total := CalculateTotal(inp);
    TextSnoc(lines, TotalLine(total), fmt);
    out := out + Render(TotalLine(total), fmt);
    lines := lines + [TotalLine(total)];

    TextSnoc(lines, PaymentMethodLine(inp.paymentMethod), fmt);
    out := out + Render(PaymentMethodLine(inp.paymentMethod), fmt);
    lines := lines + [PaymentMethodLine(inp.paymentMethod)];

    ghost var last := lines;
    if inp.paymentMethod == GCash && inp.gcashAccount != "" {
      TextSnoc(lines, GCashAccountLine(inp.gcashAccount), fmt);
      out := out + Render(GCashAccountLine(inp.gcashAccount), fmt);
      lines := lines + [GCashAccountLine(inp.gcashAccount)];
    }
    assert lines == last + GCashAccountPart(inp);
    FeeLinesAfter(head, inp);
  }

  /** Regroups `head + FeeLines(inp)` into the order AppendFeeLines appends in. */
  lemma FeeLinesAfter(head: seq<Line>, inp: Inputs)
    ensures head + FeeLines(inp) ==
      head + ServiceFeePart(inp) + [DeliveryFeeLine(inp.deliveryFee)] + GCashFeePart(inp)
      + [TotalLine(CalculateTotal(inp))] + [PaymentMethodLine(inp.paymentMethod)] + GCashAccountPart(inp)
  {
    var a := ServiceFeePart(inp) + [DeliveryFeeLine(inp.deliveryFee)];
    var b := a + GCashFeePart(inp);
    var c := b + [TotalLine(CalculateTotal(inp))];
    var d := c + [PaymentMethodLine(inp.paymentMethod)];
    assert head + a == head + ServiceFeePart(inp) + [DeliveryFeeLine(inp.deliveryFee)];
    assert head + b == head + a + GCashFeePart(inp);
    assert head + c == head + b + [TotalLine(CalculateTotal(inp))];
    assert head + d == head + c + [PaymentMethodLine(inp.paymentMethod)];
    assert head + FeeLines(inp) == head + d + GCashAccountPart(inp);
  }

  /** The calculator's state, with the product list edited in place. */
  class InvoiceCalculator {
    var products: seq<Product>
    var serviceFee: Money
    var deliveryFee: Money
    var paymentMethod: PaymentMethod
    var selectedGCashAccount: string
    var productCounter: int
    /** Every id ever handed out, including those of removed items. */
    ghost var issued: set<int>

    ghost predicate Valid()
      reads this
    {
      productCounter >= 1 &&
      IdsUnique(products) &&
      (forall p :: p in products ==> p.id in issued) &&
      (forall id :: id in issued ==> 1 <= id <= productCounter)
    }

    function State(): Inputs
      reads this
    {
      Inputs(products, serviceFee, deliveryFee, paymentMethod, selectedGCashAccount)
    }

    /** The view's initial state: one empty item with id 1, counter 1, no fees, Cash. */
    constructor ()
      ensures Valid()
      ensures products == [Product(1, "", 0)] && productCounter == 1 && issued == {1}
      ensures serviceFee == 0 && deliveryFee == 0
      ensures paymentMethod == Cash && selectedGCashAccount == ""
    {
      products := [Product(1, "", 0)];
      serviceFee := 0;
      deliveryFee := 0;
      paymentMethod := Cash;
      selectedGCashAccount := "";
      productCounter := 1;
      issued := {1};
    }

    /** addProduct: append an empty item under a fresh id, one above the counter. */
    method AddProduct()
      requires Valid()
      modifies this
      ensures Valid()
      ensures productCounter == old(productCounter) + 1
      ensures products == old(products) + [Product(productCounter, "", 0)]
      ensures productCounter !in old(issued) && issued == old(issued) + {productCounter}
      ensures serviceFee == old(serviceFee) && deliveryFee == old(deliveryFee)
      ensures paymentMethod == old(paymentMethod) && selectedGCashAccount == old(selectedGCashAccount)
    {
      var newId := productCounter + 1;
      productCounter := newId;
      products := products + [Product(newId, "", 0)];
      issued := issued + {newId};
    }

    /** removeProduct: drop the items with this id. */
    method RemoveProduct(id: int)
      requires Valid()
      modifies this
      ensures Valid()
      ensures products == RemoveById(old(products), id)
      ensures productCounter == old(productCounter) && issued == old(issued)
      ensures serviceFee == old(serviceFee) && deliveryFee == old(deliveryFee)
      ensures paymentMethod == old(paymentMethod) && selectedGCashAccount == old(selectedGCashAccount)
    {
      RemovePreservesUniqueIds(products, id);
      RemoveByIdMembers(products, id);
      products := RemoveById(products, id);
    }

    /** updateProductName */
    method UpdateProductName(id: int, name: string)
      requires Valid()
      modifies this
      ensures Valid()
      ensures products == RenameById(old(products), id, name)
      ensures productCounter == old(productCounter) && issued == old(issued)
      ensures serviceFee == old(serviceFee) && deliveryFee == old(deliveryFee)
      ensures paymentMethod == old(paymentMethod) && selectedGCashAccount == old(selectedGCashAccount)
    {
      var r := RenameById(products, id, name);
      assert forall i :: 0 <= i < |r| ==> r[i].id == products[i].id;
      assert forall p :: p in r ==> p.id in issued by {
        forall p | p in r ensures p.id in issued {
          var i :| 0 <= i < |r| && r[i] == p;
          assert products[i] in products;
        }
      }
      products := r;
    }

    /** updateProductPrice (the price already parsed, 0 for unparsable input). */
    method UpdateProductPrice(id: int, price: Money)
      requires Valid()
      modifies this
      ensures Valid()
      ensures products == RepriceById(old(products), id, price)
      ensures productCounter == old(productCounter) && issued == old(issued)
      ensures serviceFee == old(serviceFee) && deliveryFee == old(deliveryFee)
      ensures paymentMethod == old(paymentMethod) && selectedGCashAccount == old(selectedGCashAccount)
    {
      var r := RepriceById(products, id, price);
      assert forall i :: 0 <= i < |r| ==> r[i].id == products[i].id;
      assert forall p :: p in r ==> p.id in issued by {
        forall p | p in r ensures p.id in issued {
          var i :| 0 <= i < |r| && r[i] == p;
          assert products[i] in products;
        }
      }
      products := r;
    }

    method SetServiceFee(fee: Money)
      requires Valid()
      modifies this
      ensures Valid()
      ensures State() == old(State()).(serviceFee := fee)
      ensures products == old(products) && productCounter == old(productCounter) && issued == old(issued)
    {
      serviceFee := fee;
    }

    method SetDeliveryFee(fee: Money)
      requires Valid()
      modifies this
      ensures Valid()
      ensures State() == old(State()).(deliveryFee := fee)
      ensures products == old(products) && productCounter == old(productCounter) && issued == old(issued)
    {
      deliveryFee := fee;
    }

    method SetPaymentMethod(m: PaymentMethod)
      requires Valid()
      modifies this
      ensures Valid()
      ensures State() == old(State()).(paymentMethod := m)
      ensures products == old(products) && productCounter == old(productCounter) && issued == old(issued)
    {
      paymentMethod := m;
    }

    method SelectGCashAccount(account: string)
      requires Valid()
      modifies this
      ensures Valid()
      ensures State() == old(State()).(gcashAccount := account)
      ensures products == old(products) && productCounter == old(productCounter) && issued == old(issued)
    {
      selectedGCashAccount := account;
    }

    /** The Next button: hand over the summary text and the delivery fee. */
    method Next(fmt: Money -> string) returns (summary: string, fee: Money)
      ensures summary == SummaryText(State(), fmt)
      ensures fee == deliveryFee
    {
      summary := GenerateSummary(State(), fmt);
      fee := deliveryFee;
    }
  }
}
