/** The cart engine: an ordered list of lines kept in one storage slot, the operations
    that add, adjust, remove and clear lines, and the values derived from the list
    (badge count, total, order summary). */
module Cart {
  import Text
  import Catalog
  import opened Options

  /** One cart line; `price` is the unit price captured when the line was created. */
  datatype Line = Line(name: string, price: int, quantity: int)

  /** The cart invariant the operations maintain: at most one line per name, and every
      quantity at least 1. */
  predicate WellFormed(cart: seq<Line>)
  {
    (forall i, j :: 0 <= i < j < |cart| ==> cart[i].name != cart[j].name) &&
    (forall i :: 0 <= i < |cart| ==> cart[i].quantity >= 1)
  }

  // ---------------------------------------------------------------------------
  // Derived values

  /** The badge count: quantities summed from the left, as `reduce` does. */
  function BadgeCount(cart: seq<Line>): int
  {
    if cart == [] then 0 else BadgeCount(cart[..|cart| - 1]) + cart[|cart| - 1].quantity
  }

  function LineTotal(line: Line): int
  {
    line.price * line.quantity
  }

  /** The cart total: line totals summed from the left. */
  function Total(cart: seq<Line>): int
  {
    if cart == [] then 0 else Total(cart[..|cart| - 1]) + LineTotal(cart[|cart| - 1])
  }

  /** The badge count of a concatenation is the sum of the badge counts. */
  lemma {:induction false} BadgeCountConcat(a: seq<Line>, b: seq<Line>)
    ensures BadgeCount(a + b) == BadgeCount(a) + BadgeCount(b)
    decreases |b|
  {
    if b != [] {
      BadgeCountConcat(a, b[..|b| - 1]);
      assert (a + b)[..|a + b| - 1] == a + b[..|b| - 1];
      assert (a + b)[|a + b| - 1] == b[|b| - 1];
    } else {
      assert a + b == a;
    }
  }

  /** The total of a concatenation is the sum of the totals. */
  lemma {:induction false} TotalConcat(a: seq<Line>, b: seq<Line>)
    ensures Total(a + b) == Total(a) + Total(b)
    decreases |b|
  {
    if b != [] {
      TotalConcat(a, b[..|b| - 1]);
      assert (a + b)[..|a + b| - 1] == a + b[..|b| - 1];
      assert (a + b)[|a + b| - 1] == b[|b| - 1];
    } else {
      assert a + b == a;
    }
  }

  /** The badge count split around the line at `k`. */
  lemma BadgeCountAround(cart: seq<Line>, k: nat)
    requires k < |cart|
    ensures BadgeCount(cart) == BadgeCount(cart[..k]) + cart[k].quantity + BadgeCount(cart[k + 1..])
  {
    assert cart == cart[..k] + [cart[k]] + cart[k + 1..];
    BadgeCountConcat(cart[..k] + [cart[k]], cart[k + 1..]);
    BadgeCountConcat(cart[..k], [cart[k]]);
    assert [cart[k]][..0] == [];
  }

  /** The total split around the line at `k`. */
  lemma TotalAround(cart: seq<Line>, k: nat)
    requires k < |cart|
    ensures Total(cart) == Total(cart[..k]) + LineTotal(cart[k]) + Total(cart[k + 1..])
  {
    assert cart == cart[..k] + [cart[k]] + cart[k + 1..];
    TotalConcat(cart[..k] + [cart[k]], cart[k + 1..]);
    TotalConcat(cart[..k], [cart[k]]);
    assert [cart[k]][..0] == [];
  }

  /** Replacing the line at `k` changes the badge by the difference in quantity. */
  lemma BadgeCountReplace(cart: seq<Line>, k: nat, line: Line)
    requires k < |cart|
    ensures BadgeCount(cart[k := line]) == BadgeCount(cart) - cart[k].quantity + line.quantity
  {
    var r := cart[k := line];
    assert r[..k] == cart[..k] && r[k + 1..] == cart[k + 1..];
    BadgeCountAround(cart, k);
    BadgeCountAround(r, k);
  }

  /** Replacing the line at `k` changes the total by the difference in line total. */
  lemma TotalReplace(cart: seq<Line>, k: nat, line: Line)
    requires k < |cart|
    ensures Total(cart[k := line]) == Total(cart) - LineTotal(cart[k]) + LineTotal(line)
  {
    var r := cart[k := line];
    assert r[..k] == cart[..k] && r[k + 1..] == cart[k + 1..];
    TotalAround(cart, k);
    TotalAround(r, k);
  }

  /** In a well-formed cart the badge shows at least one per line, and zero exactly
      when the cart is empty. */
  lemma {:induction false} BadgeCountBounds(cart: seq<Line>)
    requires WellFormed(cart)
    ensures BadgeCount(cart) >= |cart|
    ensures BadgeCount(cart) == 0 <==> cart == []
  {
    if cart != [] {
      BadgeCountBounds(cart[..|cart| - 1]);
    }
  }

  /** The order summary text of one line: `<name> (x<qty>)`. */
  function LineText(line: Line): string
  {
    line.name + " (x" + Text.IntToString(line.quantity) + ")"
  }

  /** The summary text of each line, in cart order: `cart.map(...)`. */
  function LineTexts(cart: seq<Line>): (texts: seq<string>)
    ensures |texts| == |cart|
    ensures forall i :: 0 <= i < |cart| ==> texts[i] == LineText(cart[i])
  {
    seq(|cart|, i requires 0 <= i < |cart| => LineText(cart[i]))
  }

  /** The order summary: the line texts joined by ", ". */
  function Summary(cart: seq<Line>): string
  {
    Text.Join(LineTexts(cart), ", ")
  }

  /** The summary is empty exactly when the cart is. */
  lemma SummaryEmpty(cart: seq<Line>)
    ensures Summary(cart) == "" <==> cart == []
  {
    Text.JoinEmpty(LineTexts(cart), ", ");
  }

  /** The summary of two non-empty carts placed end to end is their summaries joined
      by ", ". */
  lemma SummaryConcat(a: seq<Line>, b: seq<Line>)
    requires a != [] && b != []
    ensures Summary(a + b) == Summary(a) + ", " + Summary(b)
  {
    assert LineTexts(a + b) == LineTexts(a) + LineTexts(b);
    Text.JoinConcat(LineTexts(a), LineTexts(b), ", ");
  }

  /** The summary is built line by line: one line gives its own text, and each further
      line adds ", " and its text at the end. */
  lemma SummaryAppend(cart: seq<Line>, line: Line)
    ensures Summary([line]) == LineText(line)
    ensures cart != [] ==> Summary(cart + [line]) == Summary(cart) + ", " + LineText(line)
  {
    assert LineTexts([line]) == [LineText(line)];
    if cart != [] {
      SummaryConcat(cart, [line]);
    }
  }

  // ---------------------------------------------------------------------------
  // Specification of the operations on the list

  /** The position of the first line named `name`, or `|cart|` when there is none. */
  function IndexOf(cart: seq<Line>, name: string): (i: nat)
    ensures i <= |cart|
    ensures i < |cart| ==> cart[i].name == name
    ensures forall j :: 0 <= j < i ==> cart[j].name != name
  {
    if cart == [] then 0
    else if cart[0].name == name then 0
    else 1 + IndexOf(cart[1..], name)
  }

  /** The unit price a new line gets: the explicit price when it is given and non-zero,
      else the catalog price for the name, else 0. */
  function ResolvePrice(name: string, price: Option<int>): int
  {
    if price.Some? && price.value != 0 then price.value
    else match Catalog.Find(Catalog.Products, name)
      case Some(p) => p.price
      case None => 0
  }

  /** The cart after ordering `name`: its line's quantity goes up by one, or a new line
      with quantity 1 is appended. */
  function Ordered(cart: seq<Line>, name: string, price: Option<int>): seq<Line>
  {
    var i := IndexOf(cart, name);
    if i < |cart| then cart[i := cart[i].(quantity := cart[i].quantity + 1)]
    else cart + [Line(name, ResolvePrice(name, price), 1)]
  }

  /** The cart after changing the quantity of the line at `index` by `delta`; the line is
      dropped when its quantity reaches 0 or below. */
  function QuantityChanged(cart: seq<Line>, index: nat, delta: int): seq<Line>
    requires index < |cart|
  {
    var q := cart[index].quantity + delta;
    if q <= 0 then cart[..index] + cart[index + 1..]
    else cart[index := cart[index].(quantity := q)]
  }

  /** Where `splice(index, 1)` starts: a negative index counts from the end, clamped at 0. */
  function SpliceStart(len: nat, index: int): (start: nat)
    requires 0 < len && index < len
    ensures start < len
    ensures 0 <= index ==> start == index
    ensures index < 0 ==> start == if len + index < 0 then 0 else len + index
  {
    if index >= 0 then index else if len + index < 0 then 0 else len + index
  }

  /** The cart with the line at position `start` cut out. */
  function Without(cart: seq<Line>, start: nat): seq<Line>
    requires start < |cart|
  {
    cart[..start] + cart[start + 1..]
  }

  /** What `splice(index, 1)` removes: index -1 takes the last line, any index at or
      below `-|cart|` takes the first line, and a non-negative index takes that line;
      in every case exactly one line goes. */
  lemma SpliceRemoves(cart: seq<Line>, index: int)
    requires 0 < |cart| && index < |cart|
    ensures |Without(cart, SpliceStart(|cart|, index))| == |cart| - 1
    ensures index == -1 ==> Without(cart, SpliceStart(|cart|, index)) == cart[..|cart| - 1]
    ensures index <= -|cart| ==> Without(cart, SpliceStart(|cart|, index)) == cart[1..]
    ensures 0 <= index ==> cart[SpliceStart(|cart|, index)] == cart[index]
  {
    if index <= -|cart| {
      assert cart[..0] + cart[1..] == cart[1..];
    }
    if index == -1 {
      assert cart[..|cart| - 1] + cart[|cart|..] == cart[..|cart| - 1];
    }
  }

  // ---------------------------------------------------------------------------
  // Properties of the operations

  /** Ordering a name already in the cart adds one to that line's quantity and changes
      nothing else: not its price, not the length, not any other line. */
  lemma OrderedExisting(cart: seq<Line>, name: string, price: Option<int>, k: nat)
    requires k < |cart| && cart[k].name == name
    requires forall j :: 0 <= j < k ==> cart[j].name != name
    ensures |Ordered(cart, name, price)| == |cart|
    ensures Ordered(cart, name, price)[k] == Line(name, cart[k].price, cart[k].quantity + 1)
    ensures forall j :: 0 <= j < |cart| && j != k ==> Ordered(cart, name, price)[j] == cart[j]
  {
    assert IndexOf(cart, name) == k;
  }

  /** Ordering a name not in the cart appends exactly one line with quantity 1 and the
      resolved price. */
  lemma OrderedNew(cart: seq<Line>, name: string, price: Option<int>)
    requires forall j :: 0 <= j < |cart| ==> cart[j].name != name
    ensures Ordered(cart, name, price) == cart + [Line(name, ResolvePrice(name, price), 1)]
  {
  }

  /** The resolved price: an explicit non-zero price wins; otherwise (no price, or 0) a
      catalog name gets its catalog price and any other name gets 0. */
  lemma ResolvePriceCases(name: string, price: Option<int>)
    ensures price.Some? && price.value != 0 ==> ResolvePrice(name, price) == price.value
    ensures (price.None? || price.value == 0) ==>
              forall i :: 0 <= i < |Catalog.Products| && Catalog.Products[i].name == name ==>
                ResolvePrice(name, price) == Catalog.Products[i].price
    ensures ((price.None? || price.value == 0) &&
             (forall p :: p in Catalog.Products ==> p.name != name)) ==> ResolvePrice(name, price) == 0
  {
    Catalog.ProductsNamesUnique();
    forall i | 0 <= i < |Catalog.Products| && Catalog.Products[i].name == name {
      Catalog.FindUnique(Catalog.Products, i);
    }
  }

  /** Ordering keeps the cart well formed. */
  lemma OrderedWellFormed(cart: seq<Line>, name: string, price: Option<int>)
    requires WellFormed(cart)
    ensures WellFormed(Ordered(cart, name, price))
  {
  }

  /** Ordering raises the badge count by exactly one. */
  lemma OrderedBadge(cart: seq<Line>, name: string, price: Option<int>)
    ensures BadgeCount(Ordered(cart, name, price)) == BadgeCount(cart) + 1
  {
    var i := IndexOf(cart, name);
    if i < |cart| {
      BadgeCountReplace(cart, i, cart[i].(quantity := cart[i].quantity + 1));
    } else {
      var r := Ordered(cart, name, price);
      assert r[..|r| - 1] == cart;
    }
  }

  /** Ordering raises the total by the unit price of the line ordered. */
  lemma OrderedTotal(cart: seq<Line>, name: string, price: Option<int>)
    ensures var r := Ordered(cart, name, price);
            var k := IndexOf(r, name);
            k < |r| && Total(r) == Total(cart) + r[k].price
  {
    var i := IndexOf(cart, name);
    var r := Ordered(cart, name, price);
    if i < |cart| {
      var line := cart[i].(quantity := cart[i].quantity + 1);
      assert r == cart[i := line];
      TotalReplace(cart, i, line);
      LineTotalAdd(cart[i], 1);
      IndexOfFirst(r, name, i);
    } else {
      assert r[..|r| - 1] == cart;
      IndexOfFirst(r, name, |cart|);
    }
  }

  /** A change that leaves the quantity positive alters only that line's quantity,
      by exactly `delta`. */
  lemma QuantityChangedKeeps(cart: seq<Line>, index: nat, delta: int)
    requires index < |cart| && cart[index].quantity + delta > 0
    ensures |QuantityChanged(cart, index, delta)| == |cart|
    ensures QuantityChanged(cart, index, delta)[index] ==
              cart[index].(quantity := cart[index].quantity + delta)
    ensures forall j :: 0 <= j < |cart| && j != index ==> QuantityChanged(cart, index, delta)[j] == cart[j]
  {
  }

  /** A change that takes the quantity to 0 or below removes that line; the others keep
      their relative order. */
  lemma QuantityChangedDrops(cart: seq<Line>, index: nat, delta: int)
    requires index < |cart| && cart[index].quantity + delta <= 0
    ensures QuantityChanged(cart, index, delta) == Without(cart, index)
    ensures |QuantityChanged(cart, index, delta)| == |cart| - 1
    ensures forall j :: 0 <= j < index ==> QuantityChanged(cart, index, delta)[j] == cart[j]
    ensures forall j :: index <= j < |cart| - 1 ==> QuantityChanged(cart, index, delta)[j] == cart[j + 1]
  {
  }

  /** Changing a quantity keeps the cart well formed. */
  lemma QuantityChangedWellFormed(cart: seq<Line>, index: nat, delta: int)
    requires WellFormed(cart) && index < |cart|
    ensures WellFormed(QuantityChanged(cart, index, delta))
  {
    if cart[index].quantity + delta <= 0 {
      WithoutWellFormed(cart, index);
    }
  }

  /** When the line stays, the badge count moves by exactly `delta`. */
  lemma QuantityChangedBadge(cart: seq<Line>, index: nat, delta: int)
    requires index < |cart| && cart[index].quantity + delta > 0
    ensures BadgeCount(QuantityChanged(cart, index, delta)) == BadgeCount(cart) + delta
  {
    var line := cart[index];
    BadgeCountReplace(cart, index, line.(quantity := line.quantity + delta));
  }

  /** When the line stays, the total moves by `delta` times its unit price. */
  lemma QuantityChangedTotal(cart: seq<Line>, index: nat, delta: int)
    requires index < |cart| && cart[index].quantity + delta > 0
    ensures Total(QuantityChanged(cart, index, delta)) == Total(cart) + cart[index].price * delta
  {
    var line := cart[index];
    TotalReplace(cart, index, line.(quantity := line.quantity + delta));
    LineTotalAdd(line, delta);
  }

  lemma LineTotalAdd(line: Line, delta: int)
    ensures LineTotal(line.(quantity := line.quantity + delta)) == LineTotal(line) + line.price * delta
  {
    assert line.price * (line.quantity + delta) == line.price * line.quantity + line.price * delta;
  }

  /** Cutting a line out keeps the cart well formed. */
  lemma WithoutWellFormed(cart: seq<Line>, start: nat)
    requires WellFormed(cart) && start < |cart|
    ensures WellFormed(Without(cart, start))
  {
    var r := Without(cart, start);
    forall i, j | 0 <= i < j < |r| ensures r[i].name != r[j].name {
      var i' := if i < start then i else i + 1;
      var j' := if j < start then j else j + 1;
      assert r[i] == cart[i'] && r[j] == cart[j'];
    }
  }

  /** Cutting a line out lowers the badge count by that line's quantity. */
  lemma WithoutBadge(cart: seq<Line>, start: nat)
    requires start < |cart|
    ensures BadgeCount(Without(cart, start)) == BadgeCount(cart) - cart[start].quantity
  {
    BadgeCountAround(cart, start);
    BadgeCountConcat(cart[..start], cart[start + 1..]);
  }

  /** Cutting a line out lowers the total by that line's total. */
  lemma WithoutTotal(cart: seq<Line>, start: nat)
    requires start < |cart|
    ensures Total(Without(cart, start)) == Total(cart) - LineTotal(cart[start])
  {
    TotalAround(cart, start);
    TotalConcat(cart[..start], cart[start + 1..]);
  }

  // ---------------------------------------------------------------------------
  // The cart held in its storage slot

  /** The storage slot holding the serialized cart. `None` is an absent key; reading an
      absent key gives the empty cart. Serialization round-trips, so the slot holds the
      list itself. */
  class CartStore {
    var slot: Option<seq<Line>>

    /** The cart as every operation reads it back from the slot. */
    function Contents(): seq<Line>
      reads this
    {
      match slot
      case None => []
      case Some(cart) => cart
    }

    constructor ()
      ensures slot == None && Contents() == []
    {
      slot := None;
    }

    /** `orderProduct`: increment the named line, or append a new one, then write back. */
    method OrderProduct(name: string, price: Option<int>)
      modifies this
      ensures slot == Some(Ordered(old(Contents()), name, price))
    {
      var cart := Contents();
      var i := FindLine(cart, name);
      if i < |cart| {
        cart := cart[i := cart[i].(quantity := cart[i].quantity + 1)];
      } else {
        var actualPrice := ResolvePrice(name, price);
        cart := cart + [Line(name, actualPrice, 1)];
      }
      slot := Some(cart);
    }

    /** `updateQuantity`: an index with no line is ignored (nothing is written);
        otherwise the line's quantity moves by `delta` and a line at 0 or below is
        dropped, and the cart is written back. */
    method UpdateQuantity(index: int, delta: int)
      modifies this
      ensures !(0 <= index < |old(Contents())|) ==> slot == old(slot)
      ensures 0 <= index < |old(Contents())| ==> slot == Some(QuantityChanged(old(Contents()), index, delta))
    {
      var cart := Contents();
      if !(0 <= index < |cart|) {
        return;
      }
      cart := cart[index := cart[index].(quantity := cart[index].quantity + delta)];
      if cart[index].quantity <= 0 {
        cart := cart[..index] + cart[index + 1..];
      }
      slot := Some(cart);
    }

    /** `removeItem`: `splice(index, 1)` and write back; returns the removed line's name
        for the notification. The source dereferences the removed line, so an index with
        nothing to remove (an empty cart, or `index >= |cart|`) is excluded. */
    method RemoveItem(index: int) returns (removedName: string)
      requires 0 < |Contents()| && index < |Contents()|
      modifies this
      ensures var start := SpliceStart(|old(Contents())|, index);
              slot == Some(Without(old(Contents()), start)) && removedName == old(Contents())[start].name
    {
      var cart := Contents();
      var start := SpliceStart(|cart|, index);
      var removed := cart[start];
      cart := cart[..start] + cart[start + 1..];
      slot := Some(cart);
      removedName := removed.name;
    }

    /** `clearCart`: remove the key; the cart then reads as empty. */
    method ClearCart()
      modifies this
      ensures slot == None && Contents() == []
      ensures BadgeCount(Contents()) == 0 && Total(Contents()) == 0
    {
      slot := None;
    }

    /** The computation inside `renderCart`: the running total over the lines, and the
        order summary, which exists only for a non-empty cart. */
    method RenderCart() returns (total: int, summary: Option<string>)
      ensures total == Total(Contents())
      ensures summary.None? <==> Contents() == []
      ensures summary.Some? ==> summary.value == Summary(Contents()) && summary.value != ""
    {
      var cart := Contents();
      total := 0;
      var i := 0;
      while i < |cart|
        invariant 0 <= i <= |cart|
        invariant total == Total(cart[..i])
      {
        assert cart[..i + 1][..i] == cart[..i];
        total := total + cart[i].price * cart[i].quantity;
        i := i + 1;
      }
      assert cart[..|cart|] == cart;
      if |cart| > 0 {
        SummaryEmpty(cart);
        summary := Some(Summary(cart));
      } else {
        summary := None;
      }
    }
  }

  /** The first position holding a line named `name`, or `|cart|`: `cart.find`. */
  method FindLine(cart: seq<Line>, name: string) returns (i: nat)
    ensures i <= |cart|
    ensures i < |cart| ==> cart[i].name == name
    ensures forall j :: 0 <= j < i ==> cart[j].name != name
    ensures i == IndexOf(cart, name)
  {
    i := 0;
    while i < |cart| && cart[i].name != name
      invariant i <= |cart|
      invariant forall j :: 0 <= j < i ==> cart[j].name != name
    {
      i := i + 1;
    }
    IndexOfFirst(cart, name, i);
  }

  /** Any position satisfying the first-match conditions is the one IndexOf gives. */
  lemma {:induction false} IndexOfFirst(cart: seq<Line>, name: string, i: nat)
    requires i <= |cart|
    requires i < |cart| ==> cart[i].name == name
    requires forall j :: 0 <= j < i ==> cart[j].name != name
    ensures IndexOf(cart, name) == i
  {
    if cart != [] && cart[0].name != name {
      IndexOfFirst(cart[1..], name, i - 1);
    }
  }

  // ---------------------------------------------------------------------------
  // Worked scenarios

  /** With no explicit price, Dress is priced from the catalog at 50. */
  lemma DressPrice()
    ensures ResolvePrice("Dress", None) == 50
  {
    Catalog.ProductsNamesUnique();
    Catalog.FindUnique(Catalog.Products, 1);
  }

  /** Ordering Dress twice into an empty cart gives one line of quantity 2 (badge 1, then
      2); then a change of -2 at position 0 empties the cart. */
  lemma DressScenario()
    ensures Ordered([], "Dress", None) == [Line("Dress", 50, 1)]
    ensures BadgeCount(Ordered([], "Dress", None)) == 1
    ensures Ordered([Line("Dress", 50, 1)], "Dress", None) == [Line("Dress", 50, 2)]
    ensures BadgeCount([Line("Dress", 50, 2)]) == 2
    ensures QuantityChanged([Line("Dress", 50, 2)], 0, -2) == []
  {
    DressPrice();
    assert [Line("Dress", 50, 1)][..0] == [];
    assert [Line("Dress", 50, 2)][..0] == [];
  }

  /** "Gadget" is not a catalog name. */
  lemma GadgetNotInCatalog()
    ensures forall p :: p in Catalog.Products ==> p.name != "Gadget"
  {
  }

  /** A name outside the catalog with no explicit price gets price 0, so the total
      stays 0. */
  lemma UnknownNameScenario()
    ensures Ordered([], "Gadget", None) == [Line("Gadget", 0, 1)]
    ensures Total(Ordered([], "Gadget", None)) == 0
  {
    GadgetNotInCatalog();
    assert Catalog.Find(Catalog.Products, "Gadget") == None;
    assert [Line("Gadget", 0, 1)][..0] == [];
  }
}
