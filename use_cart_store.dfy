/** A model of the cart store in hooks/use-cart-store.ts: an ordered list of
    cart lines with four mutations (addItem, removeItem, updateQuantity,
    clearCart) and two totals (getTotalPrice, getTotalItems).

    Prices are integers in minor currency units, so totals are exact sums.
    The persistence layer and the state-management library around the store
    are not modelled: the store's state is the plain field `items`. */
module UseCartStore {

  datatype Option<T> = None | Some(value: T)

  /** One line of the cart. */
  datatype CartItem = CartItem(id: string, name: string, price: int, quantity: int, image: Option<string>)

  /** The product record handed to addItem: a line without its quantity. */
  datatype Product = Product(id: string, name: string, price: int, image: Option<string>)

  /** The line addItem builds for a product that is not yet in the cart. */
  function NewLine(item: Product, quantity: int): CartItem {
    CartItem(item.id, item.name, item.price, quantity, item.image)
  }

  // ---------------------------------------------------------------------------
  // Predicates over a list of lines
  // ---------------------------------------------------------------------------

  /** Some line of `items` has the given id. */
  ghost predicate HasId(items: seq<CartItem>, id: string) {
    exists i :: 0 <= i < |items| && items[i].id == id
  }

  /** No two lines share an id. */
  ghost predicate UniqueIds(items: seq<CartItem>) {
    forall i, j :: 0 <= i < j < |items| ==> items[i].id != items[j].id
  }

  /** Every line has a quantity of at least one. */
  ghost predicate AllPositive(items: seq<CartItem>) {
    forall i :: 0 <= i < |items| ==> items[i].quantity >= 1
  }

  lemma HasIdTail(items: seq<CartItem>, id: string)
    requires items != []
    ensures HasId(items, id) <==> items[0].id == id || HasId(items[1..], id)
  {
  }

  // ---------------------------------------------------------------------------
  // The sequence computations inside the mutations
  // ---------------------------------------------------------------------------

  /** `items.find(line => line.id === id)`: the first line with the id, if any. */
  function Find(items: seq<CartItem>, id: string): (r: Option<CartItem>)
    ensures r.None? <==> !HasId(items, id)
    ensures r.Some? ==> (r.value.id == id &&
      exists i :: 0 <= i < |items| && items[i] == r.value && (forall j :: 0 <= j < i ==> items[j].id != id))
    decreases |items|
  {
    if items == [] then None
    else if items[0].id == id then Some(items[0])
    else
      HasIdTail(items, id);
      Find(items[1..], id)
  }

  /** The `map` of addItem's merge branch: every line with the id gets
      `quantity` added to its quantity; nothing else changes. */
  function MergeQuantity(items: seq<CartItem>, id: string, quantity: int): (r: seq<CartItem>)
    ensures |r| == |items|
    ensures forall i :: 0 <= i < |items| ==>
      r[i] == if items[i].id == id then items[i].(quantity := items[i].quantity + quantity) else items[i]
    decreases |items|
  {
    if items == [] then []
    else
      var line := items[0];
      [if line.id == id then line.(quantity := line.quantity + quantity) else line]
        + MergeQuantity(items[1..], id, quantity)
  }

  /** The `map` of updateQuantity: every line with the id gets exactly
      `quantity`; nothing else changes. */
  function SetQuantity(items: seq<CartItem>, id: string, quantity: int): (r: seq<CartItem>)
    ensures |r| == |items|
    ensures forall i :: 0 <= i < |items| ==>
      r[i] == if items[i].id == id then items[i].(quantity := quantity) else items[i]
    ensures !HasId(items, id) ==> r == items
    decreases |items|
  {
    if items == [] then []
    else
      var line := items[0];
      [if line.id == id then line.(quantity := quantity) else line]
        + SetQuantity(items[1..], id, quantity)
  }

  /** The `filter` of removeItem: the lines whose id differs from `id`. */
  function RemoveLines(items: seq<CartItem>, id: string): (r: seq<CartItem>)
    ensures |r| <= |items|
    ensures forall i :: 0 <= i < |r| ==> r[i].id != id
    ensures !HasId(items, id) ==> r == items
    decreases |items|
  {
    if items == [] then []
    else
      var n := |items| - 1;
      assert items == items[..n] + [items[n]];
      var kept := RemoveLines(items[..n], id);
      if items[n].id == id then kept else kept + [items[n]]
  }

  /** The positions of `items` that removing `id` keeps, in increasing order. */
  ghost function KeptIndices(items: seq<CartItem>, id: string): (ks: seq<nat>)
    ensures forall k :: 0 <= k < |ks| ==> ks[k] < |items| && items[ks[k]].id != id
    ensures forall k, l :: 0 <= k < l < |ks| ==> ks[k] < ks[l]
    ensures forall i :: 0 <= i < |items| && items[i].id != id ==> i in ks
    decreases |items|
  {
    if items == [] then []
    else
      var n := |items| - 1;
      var ks := KeptIndices(items[..n], id);
      if items[n].id == id then ks else ks + [n]
  }

  /** addItem on a list of lines: merge into the line with the same id when
      there is one, otherwise append a new line at the end. */
  function AddLine(items: seq<CartItem>, item: Product, quantity: int): (r: seq<CartItem>)
    ensures HasId(items, item.id) ==> |r| == |items| && forall i :: 0 <= i < |items| ==>
      r[i] == if items[i].id == item.id then items[i].(quantity := items[i].quantity + quantity) else items[i]
    ensures !HasId(items, item.id) ==> r == items + [NewLine(item, quantity)]
  {
    match Find(items, item.id)
    case Some(_) => MergeQuantity(items, item.id, quantity)
    case None => items + [NewLine(item, quantity)]
  }

  // ---------------------------------------------------------------------------
  // Totals
  // ---------------------------------------------------------------------------

  /** The amount a line contributes to getTotalPrice. */
  function LineTotal(line: CartItem): int {
    line.price * line.quantity
  }

  /** The amount a line contributes to getTotalItems. */
  function LineQuantity(line: CartItem): int {
    line.quantity
  }

  /** The sum of `f` over the lines: the reference meaning of both totals. */
  ghost function Sum(items: seq<CartItem>, f: CartItem -> int): int
    decreases |items|
  {
    if items == [] then 0 else f(items[0]) + Sum(items[1..], f)
  }

  /** `items.reduce((total, line) => total + f(line), acc)`, a left fold. */
  function Reduce(items: seq<CartItem>, acc: int, f: CartItem -> int): (total: int)
    ensures total == acc + Sum(items, f)
    decreases |items|
  {
    if items == [] then acc else Reduce(items[1..], acc + f(items[0]), f)
  }

  lemma {:induction false} SumConcat(a: seq<CartItem>, b: seq<CartItem>, f: CartItem -> int)
    ensures Sum(a + b, f) == Sum(a, f) + Sum(b, f)
    decreases |a|
  {
    if a == [] {
      assert a + b == b;
    } else {
      assert (a + b)[0] == a[0];
      assert (a + b)[1..] == a[1..] + b;
      SumConcat(a[1..], b, f);
    }
  }

  /** Replacing one line changes a sum by the difference of that line's terms. */
  lemma {:induction false} SumUpdate(items: seq<CartItem>, k: nat, x: CartItem, f: CartItem -> int)
    requires k < |items|
    ensures Sum(items[k := x], f) == Sum(items, f) - f(items[k]) + f(x)
    decreases |items|
  {
    if k > 0 {
      assert items[k := x][1..] == items[1..][k - 1 := x];
      SumUpdate(items[1..], k - 1, x, f);
    }
  }

  // ---------------------------------------------------------------------------
  // Properties of the sequence computations
  // ---------------------------------------------------------------------------

  /** removeItem keeps exactly the lines with other ids, in their old order. */
  lemma {:induction false} RemoveLinesKeepsOrder(items: seq<CartItem>, id: string)
    ensures |RemoveLines(items, id)| == |KeptIndices(items, id)|
    ensures forall k :: 0 <= k < |RemoveLines(items, id)| ==>
      RemoveLines(items, id)[k] == items[KeptIndices(items, id)[k]]
    decreases |items|
  {
    if items != [] {
      var n := |items| - 1;
      var front, x := items[..n], items[n];
      RemoveLinesKeepsOrder(front, id);
      assert items == front + [x];
      KeptSnoc(front, x, RemoveLines(front, id), KeptIndices(front, id));
    }
  }

  /** Appending a line to the cart keeps a picking of lines by positions
      valid, and appending the line's position picks up the line itself. */
  lemma KeptSnoc(front: seq<CartItem>, x: CartItem, r: seq<CartItem>, ks: seq<nat>)
    requires |r| == |ks| && forall k :: 0 <= k < |ks| ==> ks[k] < |front| && r[k] == front[ks[k]]
    ensures forall k :: 0 <= k < |ks| ==> r[k] == (front + [x])[ks[k]]
    ensures forall k :: 0 <= k < |ks| + 1 ==> (r + [x])[k] == (front + [x])[(ks + [|front|])[k]]
  {
  }

  /** removeItem keeps a line exactly when its id differs from `id`. */
  lemma RemoveLinesMembers(items: seq<CartItem>, id: string)
    ensures forall x :: x in RemoveLines(items, id) <==> x in items && x.id != id
  {
  }

  lemma RemoveLinesPreservesPositive(items: seq<CartItem>, id: string)
    requires AllPositive(items)
    ensures AllPositive(RemoveLines(items, id))
  {
  }

  lemma {:induction false} RemoveLinesPreservesUniqueIds(items: seq<CartItem>, id: string)
    requires UniqueIds(items)
    ensures UniqueIds(RemoveLines(items, id))
  {
    var r, ks := RemoveLines(items, id), KeptIndices(items, id);
    RemoveLinesKeepsOrder(items, id);
    forall a, b | 0 <= a < b < |r| ensures r[a].id != r[b].id {
      assert r[a] == items[ks[a]] && r[b] == items[ks[b]] && ks[a] < ks[b];
    }
  }

  lemma AddLinePreservesUniqueIds(items: seq<CartItem>, item: Product, quantity: int)
    requires UniqueIds(items)
    ensures UniqueIds(AddLine(items, item, quantity))
  {
  }

  lemma SetQuantityPreservesUniqueIds(items: seq<CartItem>, id: string, quantity: int)
    requires UniqueIds(items)
    ensures UniqueIds(SetQuantity(items, id, quantity))
  {
  }

  /** With unique ids, removing a present id deletes exactly its one line. */
  lemma RemoveLinesAt(items: seq<CartItem>, id: string, k: nat)
    requires UniqueIds(items) && k < |items| && items[k].id == id
    ensures RemoveLines(items, id) == items[..k] + items[k + 1..]
  {
  }

  /** With unique ids, merging into a present id changes exactly its one line. */
  lemma MergeQuantityAt(items: seq<CartItem>, id: string, quantity: int, k: nat)
    requires UniqueIds(items) && k < |items| && items[k].id == id
    ensures MergeQuantity(items, id, quantity) == items[k := items[k].(quantity := items[k].quantity + quantity)]
  {
  }

  lemma SetQuantityAt(items: seq<CartItem>, id: string, quantity: int, k: nat)
    requires UniqueIds(items) && k < |items| && items[k].id == id
    ensures SetQuantity(items, id, quantity) == items[k := items[k].(quantity := quantity)]
  {
  }

  // ---------------------------------------------------------------------------
  // How each mutation moves the totals
  // ---------------------------------------------------------------------------

  /** Adding `quantity` of an id already in the cart raises the item count by
      exactly `quantity` and the price total by the stored price times it. */
  lemma AddExistingTotals(items: seq<CartItem>, item: Product, quantity: int, k: nat)
    requires UniqueIds(items) && k < |items| && items[k].id == item.id
    ensures Sum(AddLine(items, item, quantity), LineQuantity) == Sum(items, LineQuantity) + quantity
    ensures Sum(AddLine(items, item, quantity), LineTotal) == Sum(items, LineTotal) + items[k].price * quantity
  {
    AddExistingAt(items, item, quantity, k);
    BumpTotals(items, k, quantity);
  }

  /** Raising one line's quantity by `quantity` raises the item count by
      `quantity` and the price total by that line's price times it. */
  lemma BumpTotals(items: seq<CartItem>, k: nat, quantity: int)
    requires k < |items|
    ensures Sum(items[k := items[k].(quantity := items[k].quantity + quantity)], LineQuantity) == Sum(items, LineQuantity) + quantity
    ensures Sum(items[k := items[k].(quantity := items[k].quantity + quantity)], LineTotal) == Sum(items, LineTotal) + items[k].price * quantity
  {
    var line := items[k].(quantity := items[k].quantity + quantity);
    SumUpdate(items, k, line, LineQuantity);
    SumUpdate(items, k, line, LineTotal);
    MergedLineTotal(items[k], quantity);
  }

  /** With unique ids, adding a present id changes exactly its one line. */
  lemma AddExistingAt(items: seq<CartItem>, item: Product, quantity: int, k: nat)
    requires UniqueIds(items) && k < |items| && items[k].id == item.id
    ensures AddLine(items, item, quantity) == items[k := items[k].(quantity := items[k].quantity + quantity)]
  {
  }

  lemma MergedLineTotal(line: CartItem, quantity: int)
    ensures LineTotal(line.(quantity := line.quantity + quantity)) == LineTotal(line) + line.price * quantity
  {
  }

  /** Adding a new id raises the totals by the new line's terms. */
  lemma AddNewTotals(items: seq<CartItem>, item: Product, quantity: int)
    requires !HasId(items, item.id)
    ensures Sum(AddLine(items, item, quantity), LineQuantity) == Sum(items, LineQuantity) + quantity
    ensures Sum(AddLine(items, item, quantity), LineTotal) == Sum(items, LineTotal) + item.price * quantity
  {
    var line := NewLine(item, quantity);
    SumConcat(items, [line], LineQuantity);
    SumConcat(items, [line], LineTotal);
  }

  /** addItem raises the item count by the added quantity, whether it merges or appends. */
  lemma AddLineTotalItems(items: seq<CartItem>, item: Product, quantity: int)
    requires UniqueIds(items)
    ensures Sum(AddLine(items, item, quantity), LineQuantity) == Sum(items, LineQuantity) + quantity
  {
    if HasId(items, item.id) {
      var k :| 0 <= k < |items| && items[k].id == item.id;
      AddExistingTotals(items, item, quantity, k);
    } else {
      AddNewTotals(items, item, quantity);
    }
  }

  /** Removing a present id lowers any total by that line's term. */
  lemma RemoveTotals(items: seq<CartItem>, id: string, k: nat, f: CartItem -> int)
    requires UniqueIds(items) && k < |items| && items[k].id == id
    ensures Sum(RemoveLines(items, id), f) == Sum(items, f) - f(items[k])
  {
    RemoveLinesAt(items, id, k);
    SumDeleteAt(items, k, f);
  }

  /** Deleting one line lowers a sum by that line's term. */
  lemma {:induction false} SumDeleteAt(items: seq<CartItem>, k: nat, f: CartItem -> int)
    requires k < |items|
    ensures Sum(items[..k] + items[k + 1..], f) == Sum(items, f) - f(items[k])
    decreases k
  {
    var rest := items[..k] + items[k + 1..];
    if k == 0 {
      assert rest == items[1..];
    } else {
      var tail := items[1..];
      assert rest[0] == items[0];
      assert rest[1..] == tail[..k - 1] + tail[k..];
      SumDeleteAt(tail, k - 1, f);
    }
  }

  /** Setting a present id's quantity replaces that line's terms in the totals. */
  lemma SetQuantityTotals(items: seq<CartItem>, id: string, quantity: int, k: nat)
    requires UniqueIds(items) && k < |items| && items[k].id == id
    ensures Sum(SetQuantity(items, id, quantity), LineQuantity) == Sum(items, LineQuantity) - items[k].quantity + quantity
    ensures Sum(SetQuantity(items, id, quantity), LineTotal) == Sum(items, LineTotal) - LineTotal(items[k]) + items[k].price * quantity
  {
    var line := items[k].(quantity := quantity);
    SetQuantityAt(items, id, quantity, k);
    SumUpdate(items, k, line, LineQuantity);
    SumUpdate(items, k, line, LineTotal);
  }

  // ---------------------------------------------------------------------------
  // Positive quantities
  // ---------------------------------------------------------------------------

  lemma AddLinePreservesPositive(items: seq<CartItem>, item: Product, quantity: int)
    requires AllPositive(items) && quantity >= 1
    ensures AllPositive(AddLine(items, item, quantity))
  {
  }

  /** addItem does not check the sign of `quantity`: adding zero or less for a
      new id leaves a line with a non-positive quantity in the cart. */
  lemma AddNonPositiveKeepsLine(items: seq<CartItem>, item: Product, quantity: int)
    requires !HasId(items, item.id) && quantity <= 0
    ensures !AllPositive(AddLine(items, item, quantity))
  {
    assert AddLine(items, item, quantity)[|items|].quantity == quantity;
  }

  // ---------------------------------------------------------------------------
  // Repeated adds of one product
  // ---------------------------------------------------------------------------

  /** One call of addItem: the product and the quantity passed. */
  datatype AddCall = AddCall(item: Product, quantity: int)

  /** The cart after the calls, in order. */
  ghost function AddAll(items: seq<CartItem>, calls: seq<AddCall>): seq<CartItem>
    decreases |calls|
  {
    if calls == [] then items
    else
      var n := |calls| - 1;
      AddLine(AddAll(items, calls[..n]), calls[n].item, calls[n].quantity)
  }

  /** The sum of the calls' quantities. */
  ghost function TotalQuantity(calls: seq<AddCall>): int
    decreases |calls|
  {
    if calls == [] then 0 else TotalQuantity(calls[..|calls| - 1]) + calls[|calls| - 1].quantity
  }

  /** Adding to the id of the last line, when no earlier line has that id,
      bumps the last line's quantity and changes nothing else. */
  lemma AddToLast(prefix: seq<CartItem>, line: CartItem, item: Product, quantity: int)
    requires !HasId(prefix, line.id) && item.id == line.id
    ensures AddLine(prefix + [line], item, quantity) == prefix + [line.(quantity := line.quantity + quantity)]
  {
    var items := prefix + [line];
    var bumped := line.(quantity := line.quantity + quantity);
    assert items[|prefix|] == line;
    assert HasId(items, item.id);
    var merged := MergeQuantity(items, line.id, quantity);
    assert forall i :: 0 <= i < |prefix| ==> merged[i] == prefix[i];
    assert merged == prefix + [bumped];
    calc {
      AddLine(items, item, quantity);
      merged;
      prefix + [bumped];
    }
  }

  /** Any run of addItem calls with one id that is not yet in the cart yields
      exactly one new line at the end: name, price and image from the first
      call, quantity the sum of all the calls' quantities. */
  lemma {:induction false} RepeatedAddsMerge(items: seq<CartItem>, calls: seq<AddCall>)
    requires calls != [] && !HasId(items, calls[0].item.id)
    requires forall k :: 0 <= k < |calls| ==> calls[k].item.id == calls[0].item.id
    ensures AddAll(items, calls) == items + [NewLine(calls[0].item, TotalQuantity(calls))]
    decreases |calls|
  {
    var n := |calls| - 1;
    var last := calls[n];
    if n == 0 {
      assert calls[..n] == [];
      assert AddAll(items, calls) == AddLine(items, last.item, last.quantity);
      assert TotalQuantity(calls) == last.quantity;
    } else {
      var earlier := calls[..n];
      assert earlier[0] == calls[0];
      assert forall k :: 0 <= k < |earlier| ==> earlier[k] == calls[k];
      RepeatedAddsMerge(items, earlier);
      assert calls == earlier + [last];
      AddToNewLine(items, calls[0].item, earlier, last);
    }
  }

  /** The inductive step of RepeatedAddsMerge: when the earlier calls appended
      one line for `first`, a further call for the same id merges into it. */
  lemma AddToNewLine(items: seq<CartItem>, first: Product, earlier: seq<AddCall>, call: AddCall)
    requires !HasId(items, first.id) && call.item.id == first.id
    requires AddAll(items, earlier) == items + [NewLine(first, TotalQuantity(earlier))]
    ensures AddAll(items, earlier + [call]) == items + [NewLine(first, TotalQuantity(earlier + [call]))]
  {
    var line := NewLine(first, TotalQuantity(earlier));
    AddAllSnoc(items, earlier, call);
    TotalQuantitySnoc(earlier, call);
    AddToLast(items, line, call.item, call.quantity);
    assert NewLine(first, TotalQuantity(earlier + [call])) == line.(quantity := line.quantity + call.quantity);
  }

  lemma AddAllSnoc(items: seq<CartItem>, calls: seq<AddCall>, call: AddCall)
    ensures AddAll(items, calls + [call]) == AddLine(AddAll(items, calls), call.item, call.quantity)
  {
    assert (calls + [call])[..|calls|] == calls;
  }

  lemma TotalQuantitySnoc(calls: seq<AddCall>, call: AddCall)
    ensures TotalQuantity(calls + [call]) == TotalQuantity(calls) + call.quantity
  {
    assert (calls + [call])[..|calls|] == calls;
  }

  // ---------------------------------------------------------------------------
  // The store
  // ---------------------------------------------------------------------------

  class CartStore {
    var items: seq<CartItem>

    /** The store starts with an empty cart. */
    constructor ()
      ensures items == []
    {
      items := [];
    }

    method AddItem(item: Product, quantity: int) returns (id: string)
      modifies this
      ensures id == item.id
      ensures items == AddLine(old(items), item, quantity)
      ensures UniqueIds(old(items)) ==> UniqueIds(items)
      ensures AllPositive(old(items)) && quantity >= 1 ==> AllPositive(items)
    {
      var existing := Find(items, item.id);
      if existing.Some? {
        items := MergeQuantity(items, item.id, quantity);
      } else {
        items := items + [NewLine(item, quantity)];
      }
      if UniqueIds(old(items)) {
        AddLinePreservesUniqueIds(old(items), item, quantity);
      }
      id := item.id;
    }

    method RemoveItem(id: string)
      modifies this
      ensures items == RemoveLines(old(items), id)
      ensures UniqueIds(old(items)) ==> UniqueIds(items)
      ensures AllPositive(old(items)) ==> AllPositive(items)
    {
      if UniqueIds(items) {
        RemoveLinesPreservesUniqueIds(items, id);
      }
      if AllPositive(items) {
        RemoveLinesPreservesPositive(items, id);
      }
      items := RemoveLines(items, id);
    }

    method UpdateQuantity(id: string, quantity: int)
      modifies this
      ensures quantity <= 0 ==> items == RemoveLines(old(items), id)
      ensures quantity > 0 ==> items == SetQuantity(old(items), id, quantity)
      ensures UniqueIds(old(items)) ==> UniqueIds(items)
      ensures AllPositive(old(items)) ==> AllPositive(items)
    {
      if quantity <= 0 {
        RemoveItem(id);
        return;
      }
      if UniqueIds(items) {
        SetQuantityPreservesUniqueIds(items, id, quantity);
      }
      items := SetQuantity(items, id, quantity);
    }

    method ClearCart()
      modifies this
      ensures items == []
      ensures GetTotalPrice() == 0 && GetTotalItems() == 0
    {
      items := [];
    }

    function GetTotalPrice(): (total: int)
      reads this
      ensures total == Sum(items, LineTotal)
      ensures items == [] ==> total == 0
    {
      Reduce(items, 0, LineTotal)
    }

    function GetTotalItems(): (total: int)
      reads this
      ensures total == Sum(items, LineQuantity)
      ensures items == [] ==> total == 0
    {
      Reduce(items, 0, LineQuantity)
    }
  }

  /** Adding a, then b, then a again keeps the order [a, b] and merges the
      second a into the first line, keeping its name, price and image. */
  method ReAddKeepsOrder(a: Product, a2: Product, b: Product, qa: int, qb: int, qa2: int)
    returns (lines: seq<CartItem>)
    requires a.id != b.id && a2.id == a.id
    ensures lines == [NewLine(a, qa + qa2), NewLine(b, qb)]
  {
    var store := new CartStore();
    var _ := store.AddItem(a, qa);
    var _ := store.AddItem(b, qb);
    assert store.items[0].id == a.id;
    var _ := store.AddItem(a2, qa2);
    lines := store.items;
  }
}
