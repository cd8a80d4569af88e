/** Products as the mock provider delivers them, and the running total of their prices. */
module Products {

  /** One product row. The price is an exact integer here, not a JavaScript float. */
  datatype Item = Item(productId: string, productName: string, price: int, boughtDate: string)

  /** Reference definition: the sum of the prices of `items`, first item first. */
  function Sum(items: seq<Item>): int
  {
    if items == [] then 0 else items[0].price + Sum(items[1..])
  }

  /** The component's running total: a left fold that adds each price to the accumulator, in
      list order. It agrees with the reference sum. */
  function Reduce(acc: int, items: seq<Item>): (r: int)
    ensures r == acc + Sum(items)
    decreases |items|
  {
    if items == [] then acc else Reduce(acc + items[0].price, items[1..])
  }

  /** The sum of a concatenation is the sum of its parts: recomputing the total over the whole
      list gives the same value as adding the new items' sum to the old total. */
  lemma {:induction false} SumAppend(a: seq<Item>, b: seq<Item>)
    ensures Sum(a + b) == Sum(a) + Sum(b)
  {
    if a == [] {
      assert a + b == b;
    } else {
      assert (a + b)[1..] == a[1..] + b;
      SumAppend(a[1..], b);
    }
  }
}
