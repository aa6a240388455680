/** The Payments table and its four calls (point get, scan, currency-index
    query, unconditional put), as in be-test/src/lib/payments.ts.

    The DynamoDB table is an in-memory map from partition key (`paymentId`)
    to item, held by a `PaymentsTable` object. A call to the backend either
    yields its value or fails; whether it fails is not decided here, so each
    call takes a `fault` flag saying how the backend answered. */
module Payments {

  datatype Option<T> = None | Some(value: T)

  /** What one call to the table yields: its value, or a backend failure
      (the SDK call rejecting). */
  datatype Outcome<T> = Done(value: T) | StoreFailed

  /** The `Payment` type the handlers pass to the table: the key is `id`. */
  datatype Payment = Payment(id: string, amount: real, currency: string)

  /** An item of the table: the key field is called `paymentId`. */
  datatype Item = Item(paymentId: string, amount: real, currency: string)

  /** Which items a listing keeps: all of them (scan) or those of one
      currency (query on `currencyIndex`). */
  datatype Filter = Everything | CurrencyIs(currency: string)

  predicate Passes(f: Filter, it: Item) {
    match f
    case Everything => true
    case CurrencyIs(c) => it.currency == c
  }

  /** The item `createPayment` writes for `p`: `id` becomes `paymentId`,
      and only the amount and the currency come along. */
  function ToItem(p: Payment): Item {
    Item(p.id, p.amount, p.currency)
  }

  /** Every item sits under its own `paymentId`, the partition key. */
  predicate Keyed(items: map<string, Item>) {
    forall k :: k in items ==> items[k].paymentId == k
  }

  /** Point get by partition key. */
  function Lookup(items: map<string, Item>, k: string): (r: Option<Item>)
    ensures r.Some? <==> k in items
    ensures r.Some? ==> r.value == items[k]
    ensures Keyed(items) && r.Some? ==> r.value.paymentId == k
  {
    if k in items then Some(items[k]) else None
  }

  /** Unconditional put by partition key: whatever was stored under `p.id`
      is replaced, every other key keeps its item. */
  function Put(items: map<string, Item>, p: Payment): (r: map<string, Item>)
    ensures r.Keys == items.Keys + {p.id}
    ensures Lookup(r, p.id) == Some(Item(p.id, p.amount, p.currency))
    ensures forall k :: k != p.id ==> Lookup(r, k) == Lookup(items, k)
    ensures Keyed(items) ==> Keyed(r)
  {
    items[p.id := ToItem(p)]
  }

  /** No two entries of `s` share a `paymentId`. */
  predicate DistinctIds(s: seq<Item>) {
    forall i, j :: 0 <= i < j < |s| ==> s[i].paymentId != s[j].paymentId
  }

  /** `s` is a possible answer of a scan (`Everything`) or of an index query
      (`CurrencyIs(c)`): every stored item that passes `f`, each exactly once,
      nothing else, in no particular order. */
  predicate IsListing(s: seq<Item>, items: map<string, Item>, f: Filter) {
    && (forall i :: 0 <= i < |s| ==>
          s[i].paymentId in items && items[s[i].paymentId] == s[i] && Passes(f, s[i]))
    && (forall k :: k in items && Passes(f, items[k]) ==> items[k] in s)
    && DistinctIds(s)
  }

  class PaymentsTable {
    var items: map<string, Item>

    ghost predicate Valid()
      reads this
    {
      Keyed(items)
    }

    constructor ()
      ensures Valid() && items == map[]
    {
      items := map[];
    }

    /** `getPayment`: the item stored under `paymentId`, or none. */
    method GetPayment(paymentId: string, fault: bool) returns (r: Outcome<Option<Item>>)
      requires Valid()
      ensures r.StoreFailed? <==> fault
      ensures r.Done? ==> r.value == Lookup(items, paymentId)
      ensures r.Done? && r.value.Some? ==> r.value.value.paymentId == paymentId
    {
      if fault {
        return StoreFailed;
      }
      return Done(Lookup(items, paymentId));
    }

    /** `listPayments`: a full scan; an empty table gives an empty list. */
    method ListPayments(fault: bool) returns (r: Outcome<seq<Item>>)
      requires Valid()
      ensures r.StoreFailed? <==> fault
      ensures r.Done? ==> IsListing(r.value, items, Everything)
    {
      if fault {
        return StoreFailed;
      }
      var all := Collect(Everything);
      return Done(all);
    }

    /** `listPaymentsByCurrency`: a query on the currency index. */
    method ListPaymentsByCurrency(currency: string, fault: bool) returns (r: Outcome<seq<Item>>)
      requires Valid()
      ensures r.StoreFailed? <==> fault
      ensures r.Done? ==> IsListing(r.value, items, CurrencyIs(currency))
    {
      if fault {
        return StoreFailed;
      }
      var matching := Collect(CurrencyIs(currency));
      return Done(matching);
    }

    /** The backend's walk over the table, in whatever order it visits keys,
        keeping the items that pass `f`. */
    method Collect(f: Filter) returns (s: seq<Item>)
      requires Valid()
      ensures IsListing(s, items, f)
    {
      s := [];
      var pending := items.Keys;
      while pending != {}
        invariant pending <= items.Keys
        invariant forall i :: 0 <= i < |s| ==>
          s[i].paymentId in items && s[i].paymentId !in pending &&
          items[s[i].paymentId] == s[i] && Passes(f, s[i])
        invariant forall k :: k in items && k !in pending && Passes(f, items[k]) ==> items[k] in s
        invariant DistinctIds(s)
        decreases pending
      {
        var k :| k in pending;
        if Passes(f, items[k]) {
          s := s + [items[k]];
        }
        pending := pending - {k};
      }
    }

    /** `createPayment`: an unconditional put of `p`'s three fields under
        `p.id`; a failed put leaves the table as it was. */
    method CreatePayment(p: Payment, fault: bool) returns (r: Outcome<()>)
      requires Valid()
      modifies this
      ensures Valid()
      ensures r.StoreFailed? <==> fault
      ensures items == if fault then old(items) else Put(old(items), p)
    {
      if fault {
        return StoreFailed;
      }
      items := Put(items, p);
      return Done(());
    }
  }

  /** With distinct ids, an item occurs in `s` once or not at all. */
  lemma {:induction false} OccursAtMostOnce(s: seq<Item>, x: Item)
    requires DistinctIds(s)
    ensures multiset(s)[x] == if x in s then 1 else 0
  {
    if s != [] {
      var tail := s[1..];
      assert DistinctIds(tail) by {
        forall i, j | 0 <= i < j < |tail| ensures tail[i].paymentId != tail[j].paymentId {
          assert tail[i] == s[i + 1] && tail[j] == s[j + 1];
        }
      }
      OccursAtMostOnce(tail, x);
      assert s == [s[0]] + tail;
      if x == s[0] {
        forall j | 0 <= j < |tail| ensures tail[j] != x {
          assert tail[j] == s[j + 1];
        }
      }
    }
  }

  /** Two answers of the same scan or query hold the same items: they differ
      at most in order. */
  lemma ListingsAgree(s: seq<Item>, t: seq<Item>, items: map<string, Item>, f: Filter)
    requires IsListing(s, items, f) && IsListing(t, items, f)
    ensures multiset(s) == multiset(t)
  {
    forall x: Item ensures multiset(s)[x] == multiset(t)[x] {
      OccursAtMostOnce(s, x);
      OccursAtMostOnce(t, x);
      if x in s {
        var i :| 0 <= i < |s| && s[i] == x;
        assert x in t;
      }
      if x in t {
        var i :| 0 <= i < |t| && t[i] == x;
        assert x in s;
      }
    }
  }

  /** A currency query returns exactly the scanned items of that currency:
      a sub-multiset of the scan, never longer than it. */
  lemma CurrencyListingWithinScan(all: seq<Item>, sub: seq<Item>, items: map<string, Item>, c: string)
    requires IsListing(all, items, Everything) && IsListing(sub, items, CurrencyIs(c))
    ensures forall x :: x in sub ==> x in all && x.currency == c
    ensures forall x :: x in all && x.currency == c ==> x in sub
    ensures multiset(sub) <= multiset(all)
    ensures |sub| <= |all|
  {
    forall x | x in sub ensures x in all && x.currency == c {
      var i :| 0 <= i < |sub| && sub[i] == x;
      assert items[x.paymentId] == x;
    }
    forall x | x in all && x.currency == c ensures x in sub {
      var i :| 0 <= i < |all| && all[i] == x;
      assert items[x.paymentId] == x && Passes(CurrencyIs(c), x);
    }
    forall x: Item ensures multiset(sub)[x] <= multiset(all)[x] {
      OccursAtMostOnce(sub, x);
      OccursAtMostOnce(all, x);
    }
    assert |multiset(sub)| <= |multiset(all)| by {
      SubMultisetSize(multiset(sub), multiset(all));
    }
  }

  lemma {:induction false} SubMultisetSize(a: multiset<Item>, b: multiset<Item>)
    requires a <= b
    ensures |a| <= |b|
    decreases |b|
  {
    if b != multiset{} {
      var y :| y in b;
      var a' := if y in a then a - multiset{y} else a;
      SubMultisetSize(a', b - multiset{y});
    }
  }

  /** The keys whose items pass `f`. */
  function MatchingKeys(items: map<string, Item>, f: Filter): set<string> {
    set k | k in items && Passes(f, items[k])
  }

  /** The `paymentId`s that occur in `s`. */
  function IdsOf(s: seq<Item>): set<string> {
    set i | 0 <= i < |s| :: s[i].paymentId
  }

  lemma {:induction false} DistinctIdsCount(s: seq<Item>)
    requires DistinctIds(s)
    ensures |IdsOf(s)| == |s|
  {
    if s != [] {
      var tail := s[1..];
      assert DistinctIds(tail) by {
        forall i, j | 0 <= i < j < |tail| ensures tail[i].paymentId != tail[j].paymentId {
          assert tail[i] == s[i + 1] && tail[j] == s[j + 1];
        }
      }
      DistinctIdsCount(tail);
      assert IdsOf(s) == {s[0].paymentId} + IdsOf(tail) by {
        forall k | k in IdsOf(s) ensures k in {s[0].paymentId} + IdsOf(tail) {
          var i :| 0 <= i < |s| && s[i].paymentId == k;
          if i > 0 {
            assert tail[i - 1] == s[i];
          }
        }
        forall k | k in IdsOf(tail) ensures k in IdsOf(s) {
          var i :| 0 <= i < |tail| && tail[i].paymentId == k;
          assert s[i + 1] == tail[i];
        }
      }
      assert s[0].paymentId !in IdsOf(tail) by {
        forall i | 0 <= i < |tail| ensures tail[i].paymentId != s[0].paymentId {
          assert tail[i] == s[i + 1];
        }
      }
    }
  }

  /** A listing has one entry per stored key whose item passes the filter:
      no more, no fewer. */
  lemma ListingSize(s: seq<Item>, items: map<string, Item>, f: Filter)
    requires Keyed(items) && IsListing(s, items, f)
    ensures |s| == |MatchingKeys(items, f)|
  {
    DistinctIdsCount(s);
    forall k | k in MatchingKeys(items, f) ensures k in IdsOf(s) {
      var i :| 0 <= i < |s| && s[i] == items[k];
    }
    assert IdsOf(s) == MatchingKeys(items, f);
  }

  /** Listing an empty table yields an empty sequence, never anything else. */
  lemma EmptyTableListsNothing(s: seq<Item>, f: Filter)
    requires IsListing(s, map[], f)
    ensures s == []
  {
    ListingSize(s, map[], f);
    assert MatchingKeys(map[], f) == {};
  }

  /** After a put of `p`, a listing holds `p`'s item exactly when the
      listing's filter keeps it. */
  lemma ListingAfterPut(items: map<string, Item>, p: Payment, s: seq<Item>, f: Filter)
    requires IsListing(s, Put(items, p), f)
    ensures ToItem(p) in s <==> Passes(f, ToItem(p))
  {
  }
}
