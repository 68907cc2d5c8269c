/**
 * The balance filter of the trading cycle: of all account balance records the
 * exchange reports, only the bitcoin and won records are kept and shown to the
 * advisor.
 */
module Balances {

  /** One account balance record as the exchange returns it: the currency code
      plus the remaining fields (balance, locked, average buy price, ...),
      which the filter passes through untouched. */
  datatype BalanceRecord = BalanceRecord(currency: string, fields: map<string, string>)

  /** The currency codes the cycle keeps, compared by exact string equality. */
  const TrackedCurrencies: seq<string> := ["BTC", "KRW"]

  predicate Tracked(b: BalanceRecord) {
    b.currency in TrackedCurrencies
  }

  /** `s` occurs in `t` in order, possibly with gaps. */
  predicate IsSubsequence(s: seq<BalanceRecord>, t: seq<BalanceRecord>)
    decreases |t|
  {
    s == [] ||
    (t != [] &&
     ((s[0] == t[0] && IsSubsequence(s[1..], t[1..])) || IsSubsequence(s, t[1..])))
  }

  /** The list comprehension over all balances that keeps the tracked ones. */
  function FilterBalances(all: seq<BalanceRecord>): (r: seq<BalanceRecord>)
    ensures |r| <= |all|
    ensures forall i :: 0 <= i < |r| ==> Tracked(r[i])
    ensures forall b :: b in r <==> b in all && Tracked(b)
  {
    if all == [] then []
    else (if Tracked(all[0]) then [all[0]] else []) + FilterBalances(all[1..])
  }

  /** The filter keeps the original order: its result is a subsequence of its input. */
  lemma {:induction false} FilterIsSubsequence(all: seq<BalanceRecord>)
    ensures IsSubsequence(FilterBalances(all), all)
  {
    if all != [] {
      FilterIsSubsequence(all[1..]);
      var rest := FilterBalances(all[1..]);
      if Tracked(all[0]) {
        assert FilterBalances(all) == [all[0]] + rest;
        assert ([all[0]] + rest)[1..] == rest;
      } else {
        assert FilterBalances(all) == [] + rest == rest;
      }
    }
  }

  /** Every tracked record occurs in the result exactly as often as in the
      input, and no other record occurs at all: nothing is added or dropped. */
  lemma {:induction false} FilterCount(all: seq<BalanceRecord>, b: BalanceRecord)
    ensures multiset(FilterBalances(all))[b] == if Tracked(b) then multiset(all)[b] else 0
  {
    if all != [] {
      FilterCount(all[1..], b);
      assert all == [all[0]] + all[1..];
      assert multiset(all) == multiset([all[0]]) + multiset(all[1..]);
    }
  }

  /** Filtering a concatenation filters each part. */
  lemma {:induction false} FilterAppend(a: seq<BalanceRecord>, b: seq<BalanceRecord>)
    ensures FilterBalances(a + b) == FilterBalances(a) + FilterBalances(b)
  {
    if a == [] {
      assert a + b == b;
    } else {
      var ab := a + b;
      assert ab[0] == a[0] && ab[1..] == a[1..] + b;
      FilterAppend(a[1..], b);
      var head := if Tracked(a[0]) then [a[0]] else [];
      calc {
        FilterBalances(ab);
        head + FilterBalances(a[1..] + b);
        head + (FilterBalances(a[1..]) + FilterBalances(b));
        (head + FilterBalances(a[1..])) + FilterBalances(b);
      }
    }
  }

  /** A list that already holds only tracked records is returned unchanged. */
  lemma {:induction false} FilterKeepsTracked(all: seq<BalanceRecord>)
    requires forall i :: 0 <= i < |all| ==> Tracked(all[i])
    ensures FilterBalances(all) == all
  {
    if all != [] {
      FilterKeepsTracked(all[1..]);
      assert [all[0]] + all[1..] == all;
    }
  }

  /** Filtering twice is filtering once. */
  lemma FilterIdempotent(all: seq<BalanceRecord>)
    ensures FilterBalances(FilterBalances(all)) == FilterBalances(all)
  {
    FilterKeepsTracked(FilterBalances(all));
  }

  /** A list with no tracked record filters to the empty list. */
  lemma {:induction false} FilterDropsUntracked(all: seq<BalanceRecord>)
    requires forall i :: 0 <= i < |all| ==> !Tracked(all[i])
    ensures FilterBalances(all) == []
  {
    if all != [] {
      FilterDropsUntracked(all[1..]);
    }
  }

  /** Any subsequence of the input made of tracked records is a subsequence
      of the filter's result. */
  lemma {:induction false} TrackedSubsequenceOfFilter(s: seq<BalanceRecord>, all: seq<BalanceRecord>)
    requires IsSubsequence(s, all)
    requires forall i :: 0 <= i < |s| ==> Tracked(s[i])
    ensures IsSubsequence(s, FilterBalances(all))
    decreases |all|
  {
    if s != [] {
      var r := FilterBalances(all);
      if s[0] == all[0] && IsSubsequence(s[1..], all[1..]) {
        TrackedSubsequenceOfFilter(s[1..], all[1..]);
        assert r == [all[0]] + FilterBalances(all[1..]);
        assert r[0] == s[0] && r[1..] == FilterBalances(all[1..]);
      } else {
        TrackedSubsequenceOfFilter(s, all[1..]);
        var rest := FilterBalances(all[1..]);
        if Tracked(all[0]) {
          assert r == [all[0]] + rest && r[1..] == rest;
        } else {
          assert r == [] + rest == rest;
        }
      }
    }
  }

  /** A subsequence as long as the sequence it is taken from is that sequence. */
  lemma {:induction false} SubsequenceOfSameLength(s: seq<BalanceRecord>, t: seq<BalanceRecord>)
    requires IsSubsequence(s, t)
    requires |s| == |t|
    ensures s == t
    decreases |t|
  {
    if s != [] {
      if s[0] == t[0] && IsSubsequence(s[1..], t[1..]) {
        SubsequenceOfSameLength(s[1..], t[1..]);
        assert s == [s[0]] + s[1..] && t == [t[0]] + t[1..];
      } else {
        SubsequenceLength(s, t[1..]);
        assert false;
      }
    }
  }

  lemma {:induction false} SubsequenceLength(s: seq<BalanceRecord>, t: seq<BalanceRecord>)
    requires IsSubsequence(s, t)
    ensures |s| <= |t|
    decreases |t|
  {
    if s != [] {
      if s[0] == t[0] && IsSubsequence(s[1..], t[1..]) {
        SubsequenceLength(s[1..], t[1..]);
      } else {
        SubsequenceLength(s, t[1..]);
      }
    }
  }

  /** The filter's result is the only answer of its shape: any in-order
      selection of tracked records that is as long as the filter's result is
      the filter's result. */
  lemma FilterUnique(s: seq<BalanceRecord>, all: seq<BalanceRecord>)
    requires IsSubsequence(s, all)
    requires forall i :: 0 <= i < |s| ==> Tracked(s[i])
    requires |s| == |FilterBalances(all)|
    ensures s == FilterBalances(all)
  {
    TrackedSubsequenceOfFilter(s, all);
    SubsequenceOfSameLength(s, FilterBalances(all));
  }
}
