/**
 Price-time priority and the simple form of maker selection: rank every eligible
 maker, then take from the front until the taker is covered.
 */
module OrderBook {
  import opened Outcomes
  import opened Decimals
  import opened Model

  /** A position in the book: the cursor of the scan. */
  datatype Key = Key(price: int, sequence: nat)

  function KeyOf(orders: seq<Order>, i: OrderId): Key
    requires i < |orders|
  {
    Key(orders[i].price, orders[i].sequence)
  }

  /** `a` is matched before `b` by a taker of side `takerSide`. */
  predicate Precedes(takerSide: Side, a: Key, b: Key) {
    || (if takerSide.Buy? then a.price < b.price else b.price < a.price)
    || (a.price == b.price && a.sequence < b.sequence)
  }

  predicate After(takerSide: Side, cursor: Option<Key>, k: Key) {
    cursor.Some? ==> Precedes(takerSide, cursor.value, k)
  }

  /** The filter of the candidate query. */
  predicate IsCandidate(taker: Order, maker: Order) {
    && maker.side != taker.side
    && maker.user != taker.user
    && IsResting(maker.status)
    && (if taker.side.Buy? then maker.price <= taker.price else taker.price <= maker.price)
  }

  /** The check repeated on the locked row. */
  predicate IsEligibleMaker(taker: Order, maker: Order) {
    && maker.user != taker.user
    && IsResting(maker.status)
    && 0 < maker.remaining
    && (if taker.side.Buy? then maker.side.Sell? && maker.price <= taker.price
        else maker.side.Buy? && taker.price <= maker.price)
  }

  predicate CandidateAt(orders: seq<Order>, taker: Order, cursor: Option<Key>, i: OrderId) {
    && i < |orders|
    && IsCandidate(taker, orders[i])
    && After(taker.side, cursor, KeyOf(orders, i))
  }

  /** The first candidate after the cursor among the first `n` rows. */
  function BestBelow(orders: seq<Order>, taker: Order, cursor: Option<Key>, n: nat): (best: Option<OrderId>)
    requires n <= |orders|
    ensures best.Some? ==> best.value < n && CandidateAt(orders, taker, cursor, best.value)
  {
    if n == 0 then None
    else
      var best := BestBelow(orders, taker, cursor, n - 1);
      if !CandidateAt(orders, taker, cursor, n - 1) then best
      else if best.None? || Precedes(taker.side, KeyOf(orders, n - 1), KeyOf(orders, best.value)) then Some(n - 1)
      else best
  }

  /** findNextCandidate: filter, order and LIMIT 1 on the committed table. */
  function NextCandidate(orders: seq<Order>, taker: Order, cursor: Option<Key>): (best: Option<OrderId>)
    ensures best.Some? ==> CandidateAt(orders, taker, cursor, best.value)
  {
    BestBelow(orders, taker, cursor, |orders|)
  }

  lemma {:induction false} BestIsFirst(orders: seq<Order>, taker: Order, cursor: Option<Key>, n: nat, i: OrderId)
    requires i < n <= |orders| && CandidateAt(orders, taker, cursor, i) && Sequenced(orders)
    ensures var best := BestBelow(orders, taker, cursor, n);
            best.Some? && (i == best.value || Precedes(taker.side, KeyOf(orders, best.value), KeyOf(orders, i)))
  {
    if i < n - 1 {
      BestIsFirst(orders, taker, cursor, n - 1, i);
    } else if BestBelow(orders, taker, cursor, n - 1).Some? {
    }
  }

  /** The query returns the candidate that precedes every other candidate after the cursor. */
  lemma NextCandidateIsFirst(orders: seq<Order>, taker: Order, cursor: Option<Key>, i: OrderId)
    requires CandidateAt(orders, taker, cursor, i) && Sequenced(orders)
    ensures var best := NextCandidate(orders, taker, cursor);
            best.Some? && (i == best.value || Precedes(taker.side, KeyOf(orders, best.value), KeyOf(orders, i)))
  {
    BestIsFirst(orders, taker, cursor, |orders|, i);
  }

  /** The other side's resting order of another user, at a price within the taker's limit. */
  ghost predicate IsOffer(taker: Order, o: Order) {
    && o.user != taker.user
    && (o.status == Open || o.status == PartiallyFilled)
    && (taker.side.Buy? ==> o.side.Sell? && o.price <= taker.price)
    && (taker.side.Sell? ==> o.side.Buy? && taker.price <= o.price)
  }

  /** A position behind the cursor in price, or at its price with a greater number. */
  ghost predicate IsBehind(taker: Order, cursor: Key, o: Order) {
    && (taker.side.Buy? ==> cursor.price < o.price || (cursor.price == o.price && cursor.sequence < o.sequence))
    && (taker.side.Sell? ==> o.price < cursor.price || (o.price == cursor.price && cursor.sequence < o.sequence))
  }

  /**
   The law of the query in prices and numbers: it returns an offer behind the cursor if there
   is one; of those a buyer gets the lowest price, a seller the highest, and at one price the
   one with the smallest number.
   */
  lemma NextCandidateIsBestPriced(orders: seq<Order>, taker: Order, cursor: Option<Key>)
    requires Sequenced(orders)
    ensures var best := NextCandidate(orders, taker, cursor);
            && (best.Some? ==>
                  && best.value < |orders| && IsOffer(taker, orders[best.value])
                  && (cursor.Some? ==> IsBehind(taker, cursor.value, orders[best.value])))
            && forall i: nat :: i < |orders| && IsOffer(taker, orders[i])
                                && (cursor.Some? ==> IsBehind(taker, cursor.value, orders[i])) ==>
                 && best.Some?
                 && (taker.side.Buy? ==> orders[best.value].price <= orders[i].price)
                 && (taker.side.Sell? ==> orders[i].price <= orders[best.value].price)
                 && (orders[best.value].price == orders[i].price ==>
                    orders[best.value].sequence <= orders[i].sequence)
  {
    forall i: nat | i < |orders| && IsOffer(taker, orders[i])
                    && (cursor.Some? ==> IsBehind(taker, cursor.value, orders[i]))
      ensures CandidateAt(orders, taker, cursor, i)
    {
    }
    forall i: nat | CandidateAt(orders, taker, cursor, i)
      ensures var best := NextCandidate(orders, taker, cursor);
              best.Some? && (i == best.value || Precedes(taker.side, KeyOf(orders, best.value), KeyOf(orders, i)))
    {
      NextCandidateIsFirst(orders, taker, cursor, i);
    }
  }

  /** How many candidates lie after the cursor among the first `n` rows. */
  function CountAfter(orders: seq<Order>, taker: Order, cursor: Option<Key>, n: nat): nat
    requires n <= |orders|
  {
    if n == 0 then 0
    else CountAfter(orders, taker, cursor, n - 1) + if CandidateAt(orders, taker, cursor, n - 1) then 1 else 0
  }

  /** Moving the cursor onto a candidate leaves strictly fewer candidates after it. */
  lemma {:induction false} CursorAdvances(orders: seq<Order>, taker: Order, cursor: Option<Key>, c: OrderId, n: nat)
    requires CandidateAt(orders, taker, cursor, c) && n <= |orders|
    ensures CountAfter(orders, taker, Some(KeyOf(orders, c)), n) + (if c < n then 1 else 0)
         <= CountAfter(orders, taker, cursor, n)
  {
    if n > 0 {
      CursorAdvances(orders, taker, cursor, c, n - 1);
    }
  }

  /** Every candidate after the cursor, best first. */
  function PriorityBook(orders: seq<Order>, taker: Order, cursor: Option<Key>): seq<OrderId>
    decreases CountAfter(orders, taker, cursor, |orders|)
  {
    match NextCandidate(orders, taker, cursor)
    case None => []
    case Some(c) =>
      CursorAdvances(orders, taker, cursor, c, |orders|);
      [c] + PriorityBook(orders, taker, Some(KeyOf(orders, c)))
  }

  /** Candidates only, strictly ordered. */
  ghost predicate IsOrdered(orders: seq<Order>, taker: Order, cursor: Option<Key>, book: seq<OrderId>) {
    && (forall k :: 0 <= k < |book| ==> CandidateAt(orders, taker, cursor, book[k]))
    && (forall j, k :: 0 <= j < k < |book| ==> Precedes(taker.side, KeyOf(orders, book[j]), KeyOf(orders, book[k])))
  }

  lemma {:induction false} PriorityBookIsOrdered(orders: seq<Order>, taker: Order, cursor: Option<Key>)
    ensures IsOrdered(orders, taker, cursor, PriorityBook(orders, taker, cursor))
    decreases CountAfter(orders, taker, cursor, |orders|)
  {
    var next := NextCandidate(orders, taker, cursor);
    if next.Some? {
      var c := next.value;
      CursorAdvances(orders, taker, cursor, c, |orders|);
      PriorityBookIsOrdered(orders, taker, Some(KeyOf(orders, c)));
    }
  }

  /** The declarative meaning of the ranking: exactly the candidates, strictly ordered. */
  ghost predicate IsRanking(orders: seq<Order>, taker: Order, cursor: Option<Key>, book: seq<OrderId>) {
    && IsOrdered(orders, taker, cursor, book)
    && forall i: nat :: CandidateAt(orders, taker, cursor, i) ==> i in book
  }

  lemma {:induction false} PriorityBookRanks(orders: seq<Order>, taker: Order, cursor: Option<Key>)
    requires Sequenced(orders)
    ensures IsRanking(orders, taker, cursor, PriorityBook(orders, taker, cursor))
    decreases CountAfter(orders, taker, cursor, |orders|)
  {
    PriorityBookIsOrdered(orders, taker, cursor);
    var next := NextCandidate(orders, taker, cursor);
    if next.None? {
      forall i: nat
        ensures !CandidateAt(orders, taker, cursor, i)
      {
        if CandidateAt(orders, taker, cursor, i) {
          NextCandidateIsFirst(orders, taker, cursor, i);
        }
      }
    } else {
      var c := next.value;
      CursorAdvances(orders, taker, cursor, c, |orders|);
      PriorityBookRanks(orders, taker, Some(KeyOf(orders, c)));
      var rest := PriorityBook(orders, taker, Some(KeyOf(orders, c)));
      var book := PriorityBook(orders, taker, cursor);
      assert book == [c] + rest;
      forall i: nat | CandidateAt(orders, taker, cursor, i)
        ensures i in book
      {
        NextCandidateIsFirst(orders, taker, cursor, i);
        if i == c {
          assert book[0] == c;
        } else {
          assert CandidateAt(orders, taker, Some(KeyOf(orders, c)), i);
          assert i in rest;
        }
      }
    }
  }

  lemma RankingCovers(orders: seq<Order>, taker: Order, cursor: Option<Key>, a: seq<OrderId>, b: seq<OrderId>)
    requires IsRanking(orders, taker, cursor, a) && IsRanking(orders, taker, cursor, b)
    ensures b != [] ==> a != []
  {
    if b != [] {
      assert CandidateAt(orders, taker, cursor, b[0]);
      assert b[0] in a;
    }
  }

  /** Two rankings of the same book are the same list. */
  lemma {:induction false} RankingIsUnique(orders: seq<Order>, taker: Order, cursor: Option<Key>, a: seq<OrderId>,
          b: seq<OrderId>)
    requires IsRanking(orders, taker, cursor, a) && IsRanking(orders, taker, cursor, b)
    ensures a == b
    decreases |a|
  {
    RankingCovers(orders, taker, cursor, a, b);
    if a != [] {
      assert CandidateAt(orders, taker, cursor, a[0]);
      assert a[0] in b;
      assert CandidateAt(orders, taker, cursor, b[0]);
      assert b[0] in a;
      assert a[0] == b[0] by {
        var j :| 0 <= j < |a| && a[j] == b[0];
        var k :| 0 <= k < |b| && b[k] == a[0];
        assert j > 0 ==> Precedes(taker.side, KeyOf(orders, a[0]), KeyOf(orders, a[j]));
        assert k > 0 ==> Precedes(taker.side, KeyOf(orders, b[0]), KeyOf(orders, b[k]));
      }
      var cursor' := Some(KeyOf(orders, a[0]));
      RankingTail(orders, taker, cursor, a);
      RankingTail(orders, taker, cursor, b);
      RankingIsUnique(orders, taker, cursor', a[1..], b[1..]);
      assert a == [a[0]] + a[1..];
      assert b == [b[0]] + b[1..];
    }
  }

  lemma RankingTail(orders: seq<Order>, taker: Order, cursor: Option<Key>, book: seq<OrderId>)
    requires IsRanking(orders, taker, cursor, book) && book != []
    ensures book[0] < |orders|
    ensures IsRanking(orders, taker, Some(KeyOf(orders, book[0])), book[1..])
  {
    var cursor', tail := Some(KeyOf(orders, book[0])), book[1..];
    forall k | 0 <= k < |tail|
      ensures CandidateAt(orders, taker, cursor', tail[k])
    {
      assert tail[k] == book[k + 1];
      assert CandidateAt(orders, taker, cursor, book[k + 1]);
    }
    forall i: nat | CandidateAt(orders, taker, cursor', i)
      ensures i in tail
    {
      assert CandidateAt(orders, taker, cursor, book[0]);
      assert CandidateAt(orders, taker, cursor, i);
      var k :| 0 <= k < |book| && book[k] == i;
      assert k > 0;
      assert tail[k - 1] == i;
    }
  }

  // ----- covering the taker -----

  /** What a maker contributes to a taker with `rest` left; fragments worth nothing contribute nothing. */
  function FillAmount(maker: Order, rest: nat): (q: nat)
    ensures q <= rest && q <= maker.remaining
  {
    var q := Min(rest, maker.remaining);
    if Cost(q, maker.price) == 0 then 0 else q
  }

  ghost predicate Rows(orders: seq<Order>, ids: seq<OrderId>) {
    forall k :: 0 <= k < |ids| ==> ids[k] < |orders|
  }

  /** What is left of a taker of size `amount` after the listed makers, in order. */
  function RestAfter(orders: seq<Order>, makers: seq<OrderId>, amount: nat): (rest: nat)
    requires Rows(orders, makers)
    ensures rest <= amount
  {
    if makers == [] then amount
    else
      var last := |makers| - 1;
      var rest := RestAfter(orders, makers[..last], amount);
      rest - FillAmount(orders[makers[last]], rest)
  }

  /** The least length from `k` on at which the ranking covers the taker, else all of it. */
  function CoverLength(orders: seq<Order>, book: seq<OrderId>, amount: nat, k: nat): (n: nat)
    requires Rows(orders, book) && k <= |book|
    ensures k <= n <= |book|
    decreases |book| - k
  {
    if k == |book| || RestAfter(orders, book[..k], amount) == 0 then k
    else CoverLength(orders, book, amount, k + 1)
  }

  /** It is the least such length. */
  lemma {:induction false} CoverLengthIsLeast(orders: seq<Order>, book: seq<OrderId>, amount: nat, k: nat)
    requires Rows(orders, book) && k <= |book|
    ensures var n := CoverLength(orders, book, amount, k);
            && (forall j :: k <= j < n ==> RestAfter(orders, book[..j], amount) != 0)
            && (n == |book| || RestAfter(orders, book[..n], amount) == 0)
    decreases |book| - k
  {
    if k < |book| && RestAfter(orders, book[..k], amount) != 0 {
      CoverLengthIsLeast(orders, book, amount, k + 1);
    }
  }

  lemma PriorityBookRows(orders: seq<Order>, taker: Order, cursor: Option<Key>)
    ensures Rows(orders, PriorityBook(orders, taker, cursor))
  {
    PriorityBookIsOrdered(orders, taker, cursor);
  }

  /** Sort the eligible book, then take until the taker is covered. */
  function SelectMakers(orders: seq<Order>, taker: Order): (makers: seq<OrderId>)
    ensures Rows(orders, makers)
  {
    PriorityBookRows(orders, taker, None);
    var book := PriorityBook(orders, taker, None);
    book[..CoverLength(orders, book, taker.remaining, 0)]
  }

  /** `a` comes before `b` for a taker: at a better price, or at the same price with a smaller number. */
  ghost predicate IsBetter(taker: Order, a: Order, b: Order) {
    && (taker.side.Buy? ==> a.price < b.price || (a.price == b.price && a.sequence < b.sequence))
    && (taker.side.Sell? ==> b.price < a.price || (a.price == b.price && a.sequence < b.sequence))
  }

  /** The selected are offers, best first; an offer is left out only for better ones that cover the taker. */
  ghost predicate TakesBestOffers(orders: seq<Order>, taker: Order, makers: seq<OrderId>)
    requires Rows(orders, makers)
  {
    && (forall k :: 0 <= k < |makers| ==> IsOffer(taker, orders[makers[k]]))
    && (forall j, k :: 0 <= j < k < |makers| ==> IsBetter(taker, orders[makers[j]], orders[makers[k]]))
    && forall i: nat :: i < |orders| && IsOffer(taker, orders[i]) && i !in makers ==>
         && RestAfter(orders, makers, taker.remaining) == 0
         && forall k :: 0 <= k < |makers| ==> IsBetter(taker, orders[makers[k]], orders[i])
  }

  lemma SelectionTakesBestOffers(orders: seq<Order>, taker: Order)
    requires Sequenced(orders)
    ensures TakesBestOffers(orders, taker, SelectMakers(orders, taker))
  {
    PriorityBookRanks(orders, taker, None);
    PriorityBookRows(orders, taker, None);
    var book := PriorityBook(orders, taker, None);
    var n := CoverLength(orders, book, taker.remaining, 0);
    CoverLengthIsLeast(orders, book, taker.remaining, 0);
    OffersInFront(orders, taker, book, n);
    forall i: nat | i < |orders| && IsOffer(taker, orders[i]) && i !in book[..n]
      ensures RestAfter(orders, book[..n], taker.remaining) == 0
      ensures forall k :: 0 <= k < n ==> IsBetter(taker, orders[book[k]], orders[i])
    {
      OfferLeftOut(orders, taker, book, n, i);
    }
  }

  lemma OffersInFront(orders: seq<Order>, taker: Order, book: seq<OrderId>, n: nat)
    requires IsOrdered(orders, taker, None, book) && n <= |book| && Rows(orders, book)
    ensures forall k :: 0 <= k < n ==> IsOffer(taker, orders[book[k]])
    ensures forall j, k :: 0 <= j < k < n ==> IsBetter(taker, orders[book[j]], orders[book[k]])
  {
    forall k | 0 <= k < n
      ensures IsOffer(taker, orders[book[k]])
    {
      assert CandidateAt(orders, taker, None, book[k]);
    }
    forall j, k | 0 <= j < k < n
      ensures IsBetter(taker, orders[book[j]], orders[book[k]])
    {
      assert Precedes(taker.side, KeyOf(orders, book[j]), KeyOf(orders, book[k]));
    }
  }

  lemma OfferLeftOut(orders: seq<Order>, taker: Order, book: seq<OrderId>, n: nat, i: OrderId)
    requires IsRanking(orders, taker, None, book) && n <= |book| && Rows(orders, book)
    requires i < |orders| && IsOffer(taker, orders[i]) && i !in book[..n]
    ensures n < |book| && forall k :: 0 <= k < n ==> IsBetter(taker, orders[book[k]], orders[i])
  {
    assert CandidateAt(orders, taker, None, i);
    var j :| 0 <= j < |book| && book[j] == i;
    forall k | 0 <= k < n
      ensures book[k] in book[..n]
    {
      assert book[..n][k] == book[k];
    }
    forall k | 0 <= k < n
      ensures IsBetter(taker, orders[book[k]], orders[i])
    {
      assert Precedes(taker.side, KeyOf(orders, book[k]), KeyOf(orders, book[j]));
    }
  }
}
