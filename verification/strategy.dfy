/** The computer player's decision tables and the weighted random choice made
    from them (AIPlayer.convert_percentage, build_computer_strategy,
    random_choice and choose_strategy). Everything here is a pure function:
    the random draw is an argument. */
module Strategy {
  import opened Options
  import opened Constants

  /** A percentage table: actions with their share, in the order the
      table lists them (a dict keeps insertion order). */
  type Table = seq<(Action, nat)>

  /** A converted strategy: running totals with the action each selects,
      in ascending order of the total (a dict iterated over sorted keys). */
  type Thresholds = seq<(nat, Action)>

  /** Sum of the percentages of a table. */
  function Total(t: Table): nat {
    if t == [] then 0 else t[0].1 + Total(t[1..])
  }

  /** The actions a table lists. */
  ghost function Actions(t: Table): set<Action> {
    set e | e in t :: e.0
  }

  /** No action appears twice in a table (the keys of a dict). */
  ghost predicate DistinctActions(t: Table) {
    forall i, j :: 0 <= i < j < |t| ==> t[i].0 != t[j].0
  }

  /** Whether a table lists an action at position `from` or later, checked
      entry by entry. */
  function Lists(t: Table, a: Action, from: nat): bool
    decreases |t| - from
  {
    from < |t| && (t[from].0 == a || Lists(t, a, from + 1))
  }

  /** No action appears twice from position `from` on, checked entry by
      entry. */
  function NoRepeats(t: Table, from: nat): bool
    decreases |t| - from
  {
    from >= |t| || (!Lists(t, t[from].0, from + 1) && NoRepeats(t, from + 1))
  }

  /** The entry-by-entry check finds an action exactly when some entry at
      or after `from` names it. */
  lemma {:induction false} ListsIsMembership(t: Table, a: Action, from: nat)
    ensures Lists(t, a, from) <==> exists k :: from <= k < |t| && t[k].0 == a
    decreases |t| - from
  {
    if from < |t| {
      ListsIsMembership(t, a, from + 1);
    }
  }

  /** The entry-by-entry check decides whether the actions are distinct. */
  lemma NoRepeatsIsDistinct(t: Table)
    ensures NoRepeats(t, 0) <==> DistinctActions(t)
  {
    NoRepeatsFromIsDistinct(t, 0);
  }

  lemma {:induction false} NoRepeatsFromIsDistinct(t: Table, from: nat)
    ensures NoRepeats(t, from) <==>
      forall i, j :: from <= i < j < |t| ==> t[i].0 != t[j].0
    decreases |t| - from
  {
    if from < |t| {
      NoRepeatsFromIsDistinct(t, from + 1);
      ListsIsMembership(t, t[from].0, from + 1);
    }
  }

  /** A table ordered by non-decreasing percentage. */
  ghost predicate SortedByPercent(t: Table) {
    forall i, j :: 0 <= i < j < |t| ==> t[i].1 <= t[j].1
  }

  /** Keys of a converted strategy strictly increase. */
  ghost predicate Ascending(s: Thresholds) {
    forall i, j :: 0 <= i < j < |s| ==> s[i].0 < s[j].0
  }

  // ---------------------------------------------------------------------
  // Totals

  /** The total of a concatenation is the sum of the totals. */
  lemma {:induction false} TotalAppend(a: Table, b: Table)
    ensures Total(a + b) == Total(a) + Total(b)
    decreases |a|
  {
    if a != [] {
      TotalAppend(a[1..], b);
      assert (a + b)[0] == a[0];
      assert (a + b)[1..] == a[1..] + b;
    } else {
      assert a + b == b;
    }
  }

  /** Every entry's share is part of the total. */
  lemma {:induction false} EntryBelowTotal(t: Table, i: nat)
    requires i < |t|
    ensures t[i].1 <= Total(t)
    decreases i
  {
    if i > 0 {
      EntryBelowTotal(t[1..], i - 1);
    }
  }

  /** Totals of longer prefixes are not smaller. */
  lemma TotalPrefixMonotone(s: Table, a: nat, b: nat)
    requires a <= b <= |s|
    ensures Total(s[..a]) <= Total(s[..b])
  {
    TotalAppend(s[..a], s[a..b]);
    assert s[..a] + s[a..b] == s[..b];
  }

  // ---------------------------------------------------------------------
  // sorted(percentage, key=percentage.get): a stable sort by percentage

  /** Inserts `e` into a table in front of the first entry whose percentage
      is at least its own. */
  function InsertByPercent(s: Table, e: (Action, nat)): (r: Table)
    ensures |r| == |s| + 1
  {
    if s == [] || e.1 <= s[0].1 then [e] + s
    else [s[0]] + InsertByPercent(s[1..], e)
  }

  /** Insertion adds exactly `e`: the result is a permutation of the table
      with `e` added, and its total grows by the share of `e`. */
  lemma InsertByPercentAddsEntry(s: Table, e: (Action, nat))
    ensures multiset(InsertByPercent(s, e)) == multiset(s) + multiset{e}
    ensures Total(InsertByPercent(s, e)) == Total(s) + e.1
  {
    InsertByPercentPermutes(s, e);
    InsertByPercentTotal(s, e);
  }

  lemma {:induction false} InsertByPercentPermutes(s: Table, e: (Action, nat))
    ensures multiset(InsertByPercent(s, e)) == multiset(s) + multiset{e}
    decreases |s|
  {
    var r := InsertByPercent(s, e);
    if s == [] || e.1 <= s[0].1 {
      assert r == [e] + s;
    } else {
      InsertByPercentPermutes(s[1..], e);
      assert s == [s[0]] + s[1..];
      assert r == [s[0]] + InsertByPercent(s[1..], e);
    }
  }

  lemma {:induction false} InsertByPercentTotal(s: Table, e: (Action, nat))
    ensures Total(InsertByPercent(s, e)) == Total(s) + e.1
    decreases |s|
  {
    var r := InsertByPercent(s, e);
    if s == [] || e.1 <= s[0].1 {
      assert r[1..] == s;
    } else {
      InsertByPercentTotal(s[1..], e);
      assert r[1..] == InsertByPercent(s[1..], e);
    }
  }

  /** A lower bound on the shares of a table and of `e` bounds the shares
      after insertion. */
  lemma {:induction false} InsertKeepsLowerBound(s: Table, e: (Action, nat), bound: nat)
    requires bound <= e.1
    requires forall i :: 0 <= i < |s| ==> bound <= s[i].1
    ensures forall i :: 0 <= i < |s| + 1 ==> bound <= InsertByPercent(s, e)[i].1
    decreases |s|
  {
    if !(s == [] || e.1 <= s[0].1) {
      InsertKeepsLowerBound(s[1..], e, bound);
      var r := InsertByPercent(s, e);
      assert r == [s[0]] + InsertByPercent(s[1..], e);
      assert forall i :: 1 <= i < |r| ==> r[i] == InsertByPercent(s[1..], e)[i - 1];
    }
  }

  /** Insertion keeps a table sorted by percentage. */
  lemma {:induction false} InsertKeepsSorted(s: Table, e: (Action, nat))
    requires SortedByPercent(s)
    ensures SortedByPercent(InsertByPercent(s, e))
    decreases |s|
  {
    if !(s == [] || e.1 <= s[0].1) {
      var rest := InsertByPercent(s[1..], e);
      assert SortedByPercent(rest) by {
        InsertKeepsSorted(s[1..], e);
      }
      assert forall i :: 0 <= i < |rest| ==> s[0].1 <= rest[i].1 by {
        InsertKeepsLowerBound(s[1..], e, s[0].1);
      }
      var r := [s[0]] + rest;
      assert r == InsertByPercent(s, e);
      forall i, j | 0 <= i < j < |r| ensures r[i].1 <= r[j].1 {
        assert r[j] == rest[j - 1];
        if i > 0 {
          assert r[i] == rest[i - 1];
        }
      }
    }
  }

  /** The table sorted by percentage. Each entry is inserted in front of the
      entries that follow it in the table and have the same percentage, so
      entries of equal percentage keep their table order, as Python's
      stable sort keeps them. */
  function SortByPercent(t: Table): (r: Table)
    ensures |r| == |t|
  {
    if t == [] then [] else InsertByPercent(SortByPercent(t[1..]), t[0])
  }

  /** The entries of a table that carry percentage `v`, in table order. */
  function WithShare(t: Table, v: nat): Table {
    if t == [] then []
    else (if t[0].1 == v then [t[0]] else []) + WithShare(t[1..], v)
  }

  /** Insertion puts `e` in front of every entry of its own percentage and
      leaves the order of the entries of any other percentage alone. */
  lemma {:induction false} InsertByPercentStable(s: Table, e: (Action, nat), v: nat)
    ensures WithShare(InsertByPercent(s, e), v)
              == if e.1 == v then [e] + WithShare(s, v) else WithShare(s, v)
    decreases |s|
  {
    var r := InsertByPercent(s, e);
    if s == [] || e.1 <= s[0].1 {
      assert r[0] == e && r[1..] == s;
    } else {
      InsertByPercentStable(s[1..], e, v);
      assert r[0] == s[0] && r[1..] == InsertByPercent(s[1..], e);
    }
  }

  /** The sort is stable: for every percentage, the entries carrying it
      appear in the sorted table in the order they have in the table. */
  lemma {:induction false} SortByPercentStable(t: Table, v: nat)
    ensures WithShare(SortByPercent(t), v) == WithShare(t, v)
    decreases |t|
  {
    if t != [] {
      SortByPercentStable(t[1..], v);
      InsertByPercentStable(SortByPercent(t[1..]), t[0], v);
    }
  }

  /** The sorted table is ordered by percentage, is a permutation of the
      table, and so has the same total. */
  lemma {:induction false} SortByPercentIsSortedPermutation(t: Table)
    ensures SortedByPercent(SortByPercent(t))
    ensures multiset(SortByPercent(t)) == multiset(t)
    ensures Total(SortByPercent(t)) == Total(t)
    decreases |t|
  {
    if t != [] {
      var rest := SortByPercent(t[1..]);
      SortByPercentIsSortedPermutation(t[1..]);
      InsertKeepsSorted(rest, t[0]);
      InsertByPercentAddsEntry(rest, t[0]);
      assert t == [t[0]] + t[1..];
    }
  }

  // ---------------------------------------------------------------------
  // convert_percentage

  /** `strategy[key] = action` on a strategy whose keys are all at most
      `key`: a repeated key is overwritten in place, a new one goes last. */
  function Assign(s: Thresholds, key: nat, action: Action): (r: Thresholds)
    requires forall i :: 0 <= i < |s| ==> s[i].0 <= key
    ensures |r| == |s| || |r| == |s| + 1
    ensures |r| > 0 && r[|r| - 1] == (key, action)
    ensures forall i :: 0 <= i < |r| ==> r[i].0 <= key
  {
    if |s| > 0 && s[|s| - 1].0 == key then s[..|s| - 1] + [(key, action)]
    else s + [(key, action)]
  }

  /** Assigning keeps every earlier entry, and keeps the keys ascending. */
  lemma AssignKeepsPrefix(s: Thresholds, key: nat, action: Action)
    requires forall i :: 0 <= i < |s| ==> s[i].0 <= key
    ensures var r := Assign(s, key, action);
      forall i :: 0 <= i < |r| - 1 ==> r[i] == s[i]
    ensures Ascending(s) ==> Ascending(Assign(s, key, action))
  {
  }

  /** A key above every key of the strategy is appended. */
  lemma AssignNewKey(s: Thresholds, key: nat, action: Action)
    requires forall i :: 0 <= i < |s| ==> s[i].0 < key
    ensures Assign(s, key, action) == s + [(key, action)]
  {
  }

  /** The loop of convert_percentage over the sorted entries: `number` is
      the running total so far and `acc` the strategy built so far. A
      running total above 100 stops the program (None). */
  function Accumulate(s: Table, number: nat, acc: Thresholds): Option<Thresholds>
    requires forall i :: 0 <= i < |acc| ==> acc[i].0 <= number
    decreases |s|
  {
    if s == [] then Some(acc)
    else
      var n := number + s[0].1;
      if n > 100 then None
      else Accumulate(s[1..], n, Assign(acc, n, s[0].0))
  }

  /** The loop stops exactly when the final running total passes 100:
      running totals only grow. */
  lemma {:induction false} AccumulateFailsPast100(s: Table, number: nat, acc: Thresholds)
    requires number <= 100
    requires forall i :: 0 <= i < |acc| ==> acc[i].0 <= number
    ensures Accumulate(s, number, acc).Some? <==> number + Total(s) <= 100
    decreases |s|
  {
    if s != [] {
      var n := number + s[0].1;
      if n <= 100 {
        var next := Assign(acc, n, s[0].0);
        AccumulateFailsPast100(s[1..], n, next);
        assert Accumulate(s, number, acc) == Accumulate(s[1..], n, next);
        assert number + Total(s) == n + Total(s[1..]);
      } else {
        assert Accumulate(s, number, acc) == None;
        assert number + Total(s) >= n;
      }
    }
  }

  /** No key passes the final running total. */
  lemma {:induction false} AccumulateKeysBounded(s: Table, number: nat, acc: Thresholds)
    requires forall i :: 0 <= i < |acc| ==> acc[i].0 <= number
    ensures var r := Accumulate(s, number, acc);
      r.Some? ==> forall i :: 0 <= i < |r.value| ==> r.value[i].0 <= number + Total(s)
    decreases |s|
  {
    if s != [] {
      var n := number + s[0].1;
      if n <= 100 {
        var next := Assign(acc, n, s[0].0);
        AccumulateKeysBounded(s[1..], n, next);
        assert Accumulate(s, number, acc) == Accumulate(s[1..], n, next);
        assert number + Total(s) == n + Total(s[1..]);
      }
    }
  }

  /** The last key is the final running total. */
  lemma {:induction false} AccumulateLastKey(s: Table, number: nat, acc: Thresholds)
    requires forall i :: 0 <= i < |acc| ==> acc[i].0 <= number
    ensures var r := Accumulate(s, number, acc);
      r.Some? && |s| > 0 ==> |r.value| > 0 && r.value[|r.value| - 1].0 == number + Total(s)
    decreases |s|
  {
    if s != [] {
      var n := number + s[0].1;
      assert number + Total(s) == n + Total(s[1..]);
      if n <= 100 {
        var next := Assign(acc, n, s[0].0);
        assert Accumulate(s, number, acc) == Accumulate(s[1..], n, next);
        if |s| == 1 {
          assert s[1..] == [];
          assert Accumulate(s[1..], n, next) == Some(next);
        } else {
          AccumulateLastKey(s[1..], n, next);
        }
      }
    }
  }

  /** Keys stay strictly ascending. */
  lemma {:induction false} AccumulateAscending(s: Table, number: nat, acc: Thresholds)
    requires forall i :: 0 <= i < |acc| ==> acc[i].0 <= number
    requires Ascending(acc)
    ensures Accumulate(s, number, acc).Some? ==> Ascending(Accumulate(s, number, acc).value)
    decreases |s|
  {
    if s != [] {
      var n := number + s[0].1;
      if n <= 100 {
        AssignKeepsPrefix(acc, n, s[0].0);
        AccumulateAscending(s[1..], n, Assign(acc, n, s[0].0));
      }
    }
  }

  /** Every entry the loop produces comes from `acc` or names an action
      of `s`. */
  lemma {:induction false} AccumulateActions(s: Table, number: nat, acc: Thresholds)
    requires forall i :: 0 <= i < |acc| ==> acc[i].0 <= number
    ensures Accumulate(s, number, acc).Some? ==>
      forall x :: x in Accumulate(s, number, acc).value ==> x in acc || x.1 in Actions(s)
    decreases |s|
  {
    if s != [] {
      var n := number + s[0].1;
      if n <= 100 {
        var next := Assign(acc, n, s[0].0);
        AssignKeepsPrefix(acc, n, s[0].0);
        AccumulateActions(s[1..], n, next);
        var r := Accumulate(s[1..], n, next);
        if r.Some? {
          forall x | x in r.value ensures x in acc || x.1 in Actions(s) {
            if x in next {
              var k :| 0 <= k < |next| && next[k] == x;
              if k < |next| - 1 {
                assert next[k] == acc[k];
              } else {
                assert s[0] in s;
              }
            } else {
              var e :| e in s[1..] && e.0 == x.1;
              assert e in s;
            }
          }
        }
      }
    }
  }

  /** convert_percentage: running totals over the table sorted by percentage,
      each mapped to the action that reached it; None where the program
      exits because a running total passed 100. The conversion fails
      exactly when the table sums past 100, and a converted strategy has
      strictly ascending keys. */
  function ConvertPercentage(percentage: Table): (r: Option<Thresholds>)
    ensures r.Some? <==> Total(percentage) <= 100
    ensures r.Some? ==> Ascending(r.value)
  {
    SortByPercentIsSortedPermutation(percentage);
    AccumulateFailsPast100(SortByPercent(percentage), 0, []);
    AccumulateAscending(SortByPercent(percentage), 0, []);
    Accumulate(SortByPercent(percentage), 0, [])
  }

  /** No key of a converted strategy is above the table's total, and for a
      non-empty table the largest key is that total: the draw range of
      random_choice. */
  lemma ConvertPercentageKeys(percentage: Table)
    ensures var r := ConvertPercentage(percentage);
      && (r.Some? ==> forall i :: 0 <= i < |r.value| ==> r.value[i].0 <= Total(percentage))
      && (r.Some? && |percentage| > 0 ==>
            |r.value| > 0 && r.value[|r.value| - 1].0 == Total(percentage))
  {
    var sorted := SortByPercent(percentage);
    var r := ConvertPercentage(percentage);
    assert r == Accumulate(sorted, 0, []);
    assert Total(sorted) == Total(percentage) by {
      SortByPercentIsSortedPermutation(percentage);
    }
    assert r.Some? ==> forall i :: 0 <= i < |r.value| ==> r.value[i].0 <= Total(percentage) by {
      AccumulateKeysBounded(sorted, 0, []);
    }
    assert r.Some? && |percentage| > 0 ==>
             |r.value| > 0 && r.value[|r.value| - 1].0 == Total(percentage) by {
      AccumulateLastKey(sorted, 0, []);
    }
  }

  /** Every action of a converted strategy is one of the table's. */
  lemma ConvertPercentageActions(percentage: Table)
    ensures var r := ConvertPercentage(percentage);
      r.Some? ==> forall i :: 0 <= i < |r.value| ==> r.value[i].1 in Actions(percentage)
  {
    var sorted := SortByPercent(percentage);
    var r := ConvertPercentage(percentage);
    assert r == Accumulate(sorted, 0, []);
    SortByPercentIsSortedPermutation(percentage);
    if r.Some? {
      AccumulateActions(sorted, 0, []);
      forall i | 0 <= i < |r.value| ensures r.value[i].1 in Actions(percentage) {
        assert r.value[i] in r.value;
        var e :| e in sorted && e.0 == r.value[i].1;
        assert e in multiset(sorted);
        assert e in percentage;
      }
    }
  }

  // ---------------------------------------------------------------------
  // build_computer_strategy

  /** The entries of a table whose action the given gold affords, in order. */
  function Affordable(percentage: Table, gold: int): (f: Table)
    ensures |f| <= |percentage|
  {
    if percentage == [] then []
    else if Cost(percentage[0].0) <= gold then [percentage[0]] + Affordable(percentage[1..], gold)
    else Affordable(percentage[1..], gold)
  }

  /** Exactly the entries whose cost the gold covers are kept, so the
      affordable total is at most the table's. */
  lemma {:induction false} AffordableSpec(percentage: Table, gold: int)
    ensures forall e :: e in Affordable(percentage, gold) <==> e in percentage && Cost(e.0) <= gold
    ensures Total(Affordable(percentage, gold)) <= Total(percentage)
    decreases |percentage|
  {
    if percentage != [] {
      AffordableSpec(percentage[1..], gold);
      var rest := Affordable(percentage[1..], gold);
      assert percentage == [percentage[0]] + percentage[1..];
      assert ([percentage[0]] + rest)[1..] == rest;
    }
  }

  /** A table all of whose actions the gold affords is kept whole. */
  lemma {:induction false} AffordableKeepsAll(t: Table, gold: int)
    requires forall i :: 0 <= i < |t| ==> Cost(t[i].0) <= gold
    ensures Affordable(t, gold) == t
    decreases |t|
  {
    if t != [] {
      AffordableKeepsAll(t[1..], gold);
      assert [t[0]] + t[1..] == t;
    }
  }

  /** build_computer_strategy: the converted strategy of the affordable part
      of the table, and the affordable total (the range of the draw). The
      total never exceeds the table's, and the conversion fails exactly
      when that total passes 100. */
  function BuildComputerStrategy(percentage: Table, gold: int): (r: (Option<Thresholds>, nat))
    ensures r.1 <= Total(percentage)
    ensures r.0.Some? <==> r.1 <= 100
    ensures r.0.Some? ==> Ascending(r.0.value)
  {
    var f := Affordable(percentage, gold);
    AffordableSpec(percentage, gold);
    (ConvertPercentage(f), Total(f))
  }

  /** Whatever the table, every action of a strategy it converts to is one
      of the table's and one the gold pays for. */
  lemma StrategyListsAffordableActions(percentage: Table, gold: int)
    ensures var s := BuildComputerStrategy(percentage, gold).0;
      s.Some? ==> forall i :: 0 <= i < |s.value| ==>
        s.value[i].1 in Actions(percentage) && Cost(s.value[i].1) <= gold
  {
    var f := Affordable(percentage, gold);
    AffordableSpec(percentage, gold);
    ConvertPercentageActions(f);
    var s := ConvertPercentage(f);
    if s.Some? {
      forall i | 0 <= i < |s.value|
        ensures s.value[i].1 in Actions(percentage) && Cost(s.value[i].1) <= gold
      {
        var e :| e in f && e.0 == s.value[i].1;
        assert e in percentage;
      }
    }
  }

  /** A table summing to at most 100 never makes the program exit; the
      strategy lists only affordable actions of the table, its keys lie
      within the draw range, and the largest key is the affordable total. */
  lemma BuildComputerStrategyIsAffordablePart(percentage: Table, gold: int)
    requires Total(percentage) <= 100
    ensures var (s, total) := BuildComputerStrategy(percentage, gold);
      && s.Some?
      && total == Total(Affordable(percentage, gold))
      && (forall i :: 0 <= i < |s.value| ==>
            Cost(s.value[i].1) <= gold && s.value[i].1 in Actions(percentage) && s.value[i].0 <= total)
      && (total > 0 ==> |s.value| > 0 && s.value[|s.value| - 1].0 == total)
  {
    var f := Affordable(percentage, gold);
    AffordableSpec(percentage, gold);
    ConvertPercentageKeys(f);
    ConvertPercentageActions(f);
    var s := ConvertPercentage(f);
    forall i | 0 <= i < |s.value|
      ensures Cost(s.value[i].1) <= gold && s.value[i].1 in Actions(percentage)
    {
      var e :| e in f && e.0 == s.value[i].1;
      assert e in percentage;
    }
  }

  // ---------------------------------------------------------------------
  // random_choice

  /** random_choice given the draw: the action of the first key, in
      ascending order, that is not below the draw; None when every key is
      below it. */
  function RandomChoice(strategy: Thresholds, draw: int): (c: Option<Action>)
    ensures c.None? <==> forall i :: 0 <= i < |strategy| ==> strategy[i].0 < draw
    ensures c.Some? ==> exists i :: 0 <= i < |strategy| && draw <= strategy[i].0 &&
                                    c.value == strategy[i].1 &&
                                    forall j :: 0 <= j < i ==> strategy[j].0 < draw
  {
    if strategy == [] then None
    else if draw <= strategy[0].0 then Some(strategy[0].1)
    else
      var c := RandomChoice(strategy[1..], draw);
      assert c.Some? ==> exists i :: 0 <= i < |strategy| && draw <= strategy[i].0 &&
                                     c.value == strategy[i].1 &&
                                     forall j :: 0 <= j < i ==> strategy[j].0 < draw by {
        if c.Some? {
          var i :| 0 <= i < |strategy[1..]| && draw <= strategy[1..][i].0 &&
            c.value == strategy[1..][i].1 && forall j :: 0 <= j < i ==> strategy[1..][j].0 < draw;
          assert strategy[i + 1] == strategy[1..][i];
          forall j | 0 <= j < i + 1 ensures strategy[j].0 < draw {
            if j > 0 { assert strategy[j] == strategy[1..][j - 1]; }
          }
        }
      }
      c
  }

  /** A draw from 1 to the affordable total always selects an action of the
      table, and never one the gold cannot pay for. */
  lemma DrawSelectsAffordableAction(percentage: Table, gold: int, draw: int)
    requires Total(percentage) <= 100
    requires 1 <= draw <= BuildComputerStrategy(percentage, gold).1
    ensures var s := BuildComputerStrategy(percentage, gold).0;
      && s.Some?
      && RandomChoice(s.value, draw).Some?
      && Cost(RandomChoice(s.value, draw).value) <= gold
      && RandomChoice(s.value, draw).value in Actions(percentage)
  {
    BuildComputerStrategyIsAffordablePart(percentage, gold);
    var s := BuildComputerStrategy(percentage, gold).0.value;
    assert s[|s| - 1].0 >= draw;
  }

  // ---------------------------------------------------------------------
  // Proportions: with positive shares, each action owns exactly its share
  // of the draws.

  /** Running totals from `number` over `s`, each with its action. */
  function Running(s: Table, number: nat): (r: Thresholds)
    ensures |r| == |s|
    decreases |s|
  {
    if s == [] then [] else [(number + s[0].1, s[0].0)] + Running(s[1..], number + s[0].1)
  }

  /** The i-th running total is `number` plus the shares up to entry i. */
  lemma {:induction false} RunningKey(s: Table, number: nat, i: nat)
    requires i < |s|
    ensures Running(s, number)[i].0 == number + Total(s[..i + 1])
    ensures Running(s, number)[i].1 == s[i].0
    decreases i
  {
    if i == 0 {
      assert s[..1][1..] == [];
    } else {
      RunningKey(s[1..], number + s[0].1, i - 1);
      assert s[..i + 1][1..] == s[1..][..i];
    }
  }

  /** With positive shares no key repeats, so conversion lists the running
      totals one per entry. */
  lemma {:induction false} AccumulatePositive(s: Table, number: nat, acc: Thresholds)
    requires forall i :: 0 <= i < |s| ==> s[i].1 > 0
    requires forall i :: 0 <= i < |acc| ==> acc[i].0 <= number
    requires number + Total(s) <= 100
    ensures Accumulate(s, number, acc) == Some(acc + Running(s, number))
    decreases |s|
  {
    if s == [] {
      assert acc + [] == acc;
    } else {
      var n := number + s[0].1;
      var next := acc + [(n, s[0].0)];
      assert acc + Running(s, number) == next + Running(s[1..], n) by {
        assert Running(s, number) == [(n, s[0].0)] + Running(s[1..], n);
      }
      assert Accumulate(s, number, acc) == Accumulate(s[1..], n, next) by {
        AssignNewKey(acc, n, s[0].0);
      }
      assert Accumulate(s[1..], n, next) == Some(next + Running(s[1..], n)) by {
        assert forall i :: 0 <= i < |s[1..]| ==> s[1..][i].1 > 0 by {
          assert forall i :: 0 <= i < |s[1..]| ==> s[1..][i] == s[i + 1];
        }
        assert forall i :: 0 <= i < |next| ==> next[i].0 <= n;
        assert n + Total(s[1..]) <= 100;
        AccumulatePositive(s[1..], n, next);
      }
    }
  }

  /** Sorting keeps every share positive. */
  lemma SortedSharesPositive(percentage: Table)
    requires forall k :: 0 <= k < |percentage| ==> percentage[k].1 > 0
    ensures forall k :: 0 <= k < |SortByPercent(percentage)| ==> SortByPercent(percentage)[k].1 > 0
  {
    var s := SortByPercent(percentage);
    SortByPercentIsSortedPermutation(percentage);
    forall k | 0 <= k < |s| ensures s[k].1 > 0 {
      assert s[k] in multiset(percentage);
      var j :| 0 <= j < |percentage| && percentage[j] == s[k];
    }
  }

  /** With positive shares summing to at most 100, the entry at sorted
      position i is chosen exactly by the draws above the running total
      before it and up to its own: its share of the draws. */
  lemma DrawPicksEntry(percentage: Table, i: nat, draw: int)
    requires forall k :: 0 <= k < |percentage| ==> percentage[k].1 > 0
    requires Total(percentage) <= 100
    requires i < |percentage|
    requires Total(SortByPercent(percentage)[..i]) < draw <= Total(SortByPercent(percentage)[..i + 1])
    ensures ConvertPercentage(percentage).Some?
    ensures RandomChoice(ConvertPercentage(percentage).value, draw) ==
      Some(SortByPercent(percentage)[i].0)
  {
    var s := SortByPercent(percentage);
    assert ConvertPercentage(percentage) == Some(Running(s, 0)) by {
      SortedSharesPositive(percentage);
      SortByPercentIsSortedPermutation(percentage);
      AccumulatePositive(s, 0, []);
      assert [] + Running(s, 0) == Running(s, 0);
    }
    var st := Running(s, 0);
    assert draw <= st[i].0 && st[i].1 == s[i].0 by {
      RunningKey(s, 0, i);
    }
    forall j | 0 <= j < i ensures st[j].0 < draw {
      RunningKey(s, 0, j);
      TotalPrefixMonotone(s, j + 1, i);
    }
    PickAt(st, i, draw);
  }

  /** A draw not above key i and above every earlier key selects entry i. */
  lemma {:induction false} PickAt(st: Thresholds, i: nat, draw: int)
    requires i < |st| && draw <= st[i].0
    requires forall j :: 0 <= j < i ==> st[j].0 < draw
    ensures RandomChoice(st, draw) == Some(st[i].1)
    decreases i
  {
    if i > 0 {
      PickAt(st[1..], i - 1, draw);
    }
  }

  // ---------------------------------------------------------------------
  // Test vectors of the repository's unit tests

  function ExampleTable(): Table {
    [(Spawn, 35), (IncomeUp, 30), (UnitHp, 10), (UnitDmg, 10), (UnitAttackSpeed, 10), (UnitRegen, 5)]
  }

  /** The example sorted: the three 10% entries keep their table order. */
  function ExampleSorted(): Table {
    [(UnitRegen, 5), (UnitHp, 10), (UnitDmg, 10), (UnitAttackSpeed, 10), (IncomeUp, 30), (Spawn, 35)]
  }

  /** An entry whose share is above every share of a sorted list is
      appended at its end. */
  lemma {:induction false} InsertLargest(s: Table, e: (Action, nat))
    requires forall i :: 0 <= i < |s| ==> s[i].1 < e.1
    ensures InsertByPercent(s, e) == s + [e]
    decreases |s|
  {
    if s != [] {
      InsertLargest(s[1..], e);
      assert [s[0]] + (s[1..] + [e]) == s + [e];
    }
  }

  /** The example sorts stably by percentage. */
  lemma SortExample()
    ensures SortByPercent(ExampleTable()) == ExampleSorted()
  {
    var t := ExampleTable();
    var s5: Table := [(UnitRegen, 5)];
    assert SortByPercent(t[5..]) == s5 by {
      assert t[5..][1..] == t[6..] == [];
    }
    var s4: Table := [(UnitRegen, 5), (UnitAttackSpeed, 10)];
    assert SortByPercent(t[4..]) == s4 by {
      assert t[4..][1..] == t[5..];
      InsertLargest(s5, t[4]);
    }
    var s3: Table := [(UnitRegen, 5), (UnitDmg, 10), (UnitAttackSpeed, 10)];
    assert SortByPercent(t[3..]) == s3 by {
      assert t[3..][1..] == t[4..];
      assert InsertByPercent(s4[1..], t[3]) == [t[3]] + s4[1..];
    }
    var s2: Table := [(UnitRegen, 5), (UnitHp, 10), (UnitDmg, 10), (UnitAttackSpeed, 10)];
    assert SortByPercent(t[2..]) == s2 by {
      assert t[2..][1..] == t[3..];
      assert InsertByPercent(s3[1..], t[2]) == [t[2]] + s3[1..];
    }
    var s1: Table := s2 + [(IncomeUp, 30)];
    assert SortByPercent(t[1..]) == s1 by {
      assert t[1..][1..] == t[2..];
      InsertLargest(s2, t[1]);
    }
    assert SortByPercent(t) == s1 + [(Spawn, 35)] by {
      InsertLargest(s1, t[0]);
    }
  }

  /** One step of the loop with a positive share appends a new key. */
  lemma AccumulateStep(s: Table, number: nat, acc: Thresholds)
    requires s != [] && s[0].1 > 0 && number + s[0].1 <= 100
    requires forall i :: 0 <= i < |acc| ==> acc[i].0 <= number
    ensures Accumulate(s, number, acc) ==
      Accumulate(s[1..], number + s[0].1, acc + [(number + s[0].1, s[0].0)])
  {
  }

  /** The example table converts to the keys 5, 15, 25, 35, 65, 100. */
  lemma ConvertExample()
    ensures ConvertPercentage(ExampleTable()) == Some(ExampleThresholds())
  {
    SortExample();
    AccumulateExample();
  }

  function ExampleThresholds(): Thresholds {
    [(5, UnitRegen), (15, UnitHp), (25, UnitDmg), (35, UnitAttackSpeed), (65, IncomeUp), (100, Spawn)]
  }

  /** The running totals of the sorted example. */
  lemma AccumulateExample()
    ensures Accumulate(ExampleSorted(), 0, []) == Some(ExampleThresholds())
  {
    var s := ExampleSorted();
    assert Total(s) == 100;
    AccumulatePositive(s, 0, []);
    assert [] + Running(s, 0) == Running(s, 0);
    RunningExample();
  }

  lemma RunningExample()
    ensures Running(ExampleSorted(), 0) == ExampleThresholds()
  {
    var s := ExampleSorted();
    var r5 := Running(s[5..], 65);
    assert r5 == [(100, Spawn)] by {
      assert s[5..][1..] == s[6..];
    }
    var r4 := Running(s[4..], 35);
    assert r4 == [(65, IncomeUp)] + r5 by {
      assert s[4..][1..] == s[5..];
    }
    var r3 := Running(s[3..], 25);
    assert r3 == [(35, UnitAttackSpeed)] + r4 by {
      assert s[3..][1..] == s[4..];
    }
    var r2 := Running(s[2..], 15);
    assert r2 == [(25, UnitDmg)] + r3 by {
      assert s[2..][1..] == s[3..];
    }
    var r1 := Running(s[1..], 5);
    assert r1 == [(15, UnitHp)] + r2 by {
      assert s[1..][1..] == s[2..];
    }
    assert Running(s, 0) == [(5, UnitRegen)] + r1;
  }

  /** With 200 gold everything is affordable and the draw range is 100. */
  lemma BuildExampleRich()
    ensures Affordable(ExampleTable(), 200) == ExampleTable()
    ensures BuildComputerStrategy(ExampleTable(), 200).1 == 100
  {
    AffordableKeepsAll(ExampleTable(), 200);
  }

  /** With 100 gold the spawn drops out and the draw range is 65. */
  lemma BuildExamplePoor()
    ensures Affordable(ExampleTable(), 100) == ExampleTable()[1..]
    ensures BuildComputerStrategy(ExampleTable(), 100).1 == 65
  {
    var t := ExampleTable();
    AffordableKeepsAll(t[1..], 100);
  }

  // ---------------------------------------------------------------------
  // choose_strategy

  /** What every table of choose_strategy satisfies: shares sum to 100,
      each action is listed once with a positive share, and the income
      upgrade is among the first two entries unless the table is the
      spawn-only one. */
  ghost predicate ChosenTableShape(t: Table) {
    && Total(t) == 100
    && NoRepeats(t, 0)
    && (forall i :: 0 <= i < |t| ==> t[i].1 > 0)
    && (t == SpawnOnly() || (|t| >= 1 && t[0].0 == IncomeUp) || (|t| >= 2 && t[1].0 == IncomeUp))
  }

  /** No army has been spawned yet: spawn only. */
  function SpawnOnly(): Table { [(Spawn, 100)] }

  /** Not a spawn turn: save up through income only. */
  function IncomeOnly(): (t: Table) ensures ChosenTableShape(t) { [(IncomeUp, 100)] }

  /** Income below 500. */
  function PoorTable(): (t: Table)
    ensures |t| >= 1 && t[0].0 == IncomeUp
    ensures forall i :: 0 <= i < |t| ==> t[i].1 > 0
  {
    [(IncomeUp, 70), (Spawn, 20), (UnitHp, 5), (UnitDmg, 3), (UnitAttackSpeed, 1), (UnitRegen, 1)]
  }

  lemma PoorTableTotal() ensures Total(PoorTable()) == 100 {}

  lemma PoorTableDistinct() ensures NoRepeats(PoorTable(), 0) {}

  /** Income below 5000. */
  function ModestTable(): (t: Table)
    ensures |t| >= 1 && t[0].0 == IncomeUp
    ensures forall i :: 0 <= i < |t| ==> t[i].1 > 0
  {
    [(IncomeUp, 90), (Spawn, 5), (UnitHp, 2), (UnitDmg, 1), (UnitAttackSpeed, 1), (UnitRegen, 1)]
  }

  lemma ModestTableTotal() ensures Total(ModestTable()) == 100 {}

  lemma ModestTableDistinct() ensures NoRepeats(ModestTable(), 0) {}

  /** Income below 10000. */
  function WealthyTable(): (t: Table)
    ensures |t| >= 1 && t[0].0 == IncomeUp
    ensures forall i :: 0 <= i < |t| ==> t[i].1 > 0
  {
    [(IncomeUp, 60), (Spawn, 10), (UnitHp, 10), (UnitDmg, 10), (UnitAttackSpeed, 9), (UnitRegen, 1)]
  }

  lemma WealthyTableTotal() ensures Total(WealthyTable()) == 100 {}

  lemma WealthyTableDistinct() ensures NoRepeats(WealthyTable(), 0) {}

  /** Unit health level below 4. */
  function WeakUnitsTable(): (t: Table)
    ensures |t| >= 2 && t[1].0 == IncomeUp
    ensures forall i :: 0 <= i < |t| ==> t[i].1 > 0
  {
    [(Spawn, 30), (IncomeUp, 35), (UnitHp, 15), (UnitDmg, 10), (UnitAttackSpeed, 10)]
  }

  lemma WeakUnitsTableTotal() ensures Total(WeakUnitsTable()) == 100 {}

  lemma WeakUnitsTableDistinct() ensures NoRepeats(WeakUnitsTable(), 0) {}

  /** More than two spawn buildings bought. */
  function ManySpawnsTable(): (t: Table)
    ensures |t| >= 2 && t[1].0 == IncomeUp
    ensures forall i :: 0 <= i < |t| ==> t[i].1 > 0
  {
    [(Spawn, 10), (IncomeUp, 45), (UnitHp, 15), (UnitDmg, 15), (UnitAttackSpeed, 10), (UnitRegen, 5)]
  }

  lemma ManySpawnsTableTotal() ensures Total(ManySpawnsTable()) == 100 {}

  lemma ManySpawnsTableDistinct() ensures NoRepeats(ManySpawnsTable(), 0) {}

  /** The table of choose_strategy's opening assignment. */
  function DefaultTable(): (t: Table)
    ensures |t| >= 2 && t[1].0 == IncomeUp
    ensures forall i :: 0 <= i < |t| ==> t[i].1 > 0
  {
    [(Spawn, 25), (IncomeUp, 45), (UnitHp, 10), (UnitDmg, 10), (UnitAttackSpeed, 10)]
  }

  lemma DefaultTableTotal() ensures Total(DefaultTable()) == 100 {}

  lemma DefaultTableDistinct() ensures NoRepeats(DefaultTable(), 0) {}

  /** Enemy unit level above 200. */
  function EnemyAbove200(): (t: Table)
    ensures |t| >= 2 && t[1].0 == IncomeUp
    ensures forall i :: 0 <= i < |t| ==> t[i].1 > 0
  {
    [(Spawn, 10), (IncomeUp, 50), (UnitHp, 10), (UnitDmg, 10), (UnitAttackSpeed, 10), (UnitRegen, 10)]
  }

  lemma EnemyAbove200Total() ensures Total(EnemyAbove200()) == 100 {}

  lemma EnemyAbove200Distinct() ensures NoRepeats(EnemyAbove200(), 0) {}

  /** Enemy unit level above 500. */
  function EnemyAbove500(): (t: Table)
    ensures |t| >= 2 && t[1].0 == IncomeUp
    ensures forall i :: 0 <= i < |t| ==> t[i].1 > 0
  {
    [(Spawn, 10), (IncomeUp, 45), (UnitHp, 10), (UnitDmg, 10), (UnitAttackSpeed, 10),
     (UnitRegen, 10), (CastleHp, 5)]
  }

  lemma EnemyAbove500Total() ensures Total(EnemyAbove500()) == 100 {}

  lemma EnemyAbove500Distinct() ensures NoRepeats(EnemyAbove500(), 0) {}

  /** Enemy unit level above 1000. */
  function EnemyAbove1000(): (t: Table)
    ensures |t| >= 2 && t[1].0 == IncomeUp
    ensures forall i :: 0 <= i < |t| ==> t[i].1 > 0
  {
    [(Spawn, 20), (IncomeUp, 40), (UnitHp, 10), (UnitDmg, 10), (UnitAttackSpeed, 10), (CastleHp, 10)]
  }

  lemma EnemyAbove1000Total() ensures Total(EnemyAbove1000()) == 100 {}

  lemma EnemyAbove1000Distinct() ensures NoRepeats(EnemyAbove1000(), 0) {}

  /** Enemy unit level above 2000. */
  function EnemyAbove2000(): (t: Table)
    ensures |t| >= 2 && t[1].0 == IncomeUp
    ensures forall i :: 0 <= i < |t| ==> t[i].1 > 0
  {
    [(Spawn, 20), (IncomeUp, 30), (UnitHp, 10), (UnitDmg, 10), (UnitAttackSpeed, 10),
     (CastleDmg, 5), (CastleHp, 15)]
  }

  lemma EnemyAbove2000Total() ensures Total(EnemyAbove2000()) == 100 {}

  lemma EnemyAbove2000Distinct() ensures NoRepeats(EnemyAbove2000(), 0) {}

  /** Castle below CASTLE_HP. */
  function CastleScratched(): (t: Table)
    ensures |t| >= 2 && t[1].0 == IncomeUp
    ensures forall i :: 0 <= i < |t| ==> t[i].1 > 0
  {
    [(Spawn, 10), (IncomeUp, 10), (UnitHp, 10), (UnitDmg, 10), (UnitAttackSpeed, 10),
     (CastleDmg, 40), (CastleRegen, 10)]
  }

  lemma CastleScratchedTotal() ensures Total(CastleScratched()) == 100 {}

  lemma CastleScratchedDistinct() ensures NoRepeats(CastleScratched(), 0) {}

  /** Castle below 90% of CASTLE_HP. */
  function CastleDamaged(): (t: Table)
    ensures |t| >= 2 && t[1].0 == IncomeUp
    ensures forall i :: 0 <= i < |t| ==> t[i].1 > 0
  {
    [(Spawn, 1), (IncomeUp, 1), (UnitHp, 1), (UnitDmg, 1), (UnitAttackSpeed, 1),
     (UnitRegen, 1), (CastleDmg, 70), (CastleRegen, 19), (CastleHp, 5)]
  }

  lemma CastleDamagedTotal() ensures Total(CastleDamaged()) == 100 {}

  lemma CastleDamagedDistinct() ensures NoRepeats(CastleDamaged(), 0) {}

  /** Castle below 40% of CASTLE_HP. */
  function CastleCritical(): (t: Table)
    ensures |t| >= 2 && t[1].0 == IncomeUp
    ensures forall i :: 0 <= i < |t| ==> t[i].1 > 0
  {
    [(Spawn, 10), (IncomeUp, 5), (UnitHp, 5), (UnitDmg, 5), (UnitAttackSpeed, 5),
     (UnitRegen, 5), (CastleDmg, 25), (CastleRegen, 20), (CastleHp, 20)]
  }

  lemma CastleCriticalTotal() ensures Total(CastleCritical()) == 100 {}

  lemma CastleCriticalDistinct() ensures NoRepeats(CastleCritical(), 0) {}

  /** The spawn-only table has the shape too. */
  lemma SpawnOnlyShape()
    ensures ChosenTableShape(SpawnOnly())
  {
  }

  /** The table chosen by the first, if/elif part of choose_strategy. */
  function BaseStrategy(spawns: int, income: int, unitHpLvl: int): (t: Table)
    ensures ChosenTableShape(t)
  {
    SpawnOnlyShape();
    PoorTableTotal(); PoorTableDistinct();
    ModestTableTotal(); ModestTableDistinct();
    WealthyTableTotal(); WealthyTableDistinct();
    WeakUnitsTableTotal(); WeakUnitsTableDistinct();
    ManySpawnsTableTotal(); ManySpawnsTableDistinct();
    DefaultTableTotal(); DefaultTableDistinct();
    if spawns == 0 then SpawnOnly()
    else if income < 500 then PoorTable()
    else if income < 5000 then ModestTable()
    else if income < 10000 then WealthyTable()
    else if unitHpLvl < 4 then WeakUnitsTable()
    else if spawns > 2 then ManySpawnsTable()
    else DefaultTable()
  }

  /** The override for the enemy's total unit upgrade level; the later, higher
      thresholds replace the earlier ones. */
  function EnemyLevelStrategy(enemyUnitLvl: int, t: Table): (r: Table)
    ensures ChosenTableShape(t) ==> ChosenTableShape(r)
  {
    EnemyAbove2000Total(); EnemyAbove2000Distinct();
    EnemyAbove1000Total(); EnemyAbove1000Distinct();
    EnemyAbove500Total(); EnemyAbove500Distinct();
    EnemyAbove200Total(); EnemyAbove200Distinct();
    if enemyUnitLvl > 2000 then EnemyAbove2000()
    else if enemyUnitLvl > 1000 then EnemyAbove1000()
    else if enemyUnitLvl > 500 then EnemyAbove500()
    else if enemyUnitLvl > 200 then EnemyAbove200()
    else t
  }

  /** The castle-rescue override; the thresholds are fractions of the
      constant CASTLE_HP, not of the castle's current maximum. */
  function RescueStrategy(castleHp: real, t: Table): (r: Table)
    ensures ChosenTableShape(t) ==> ChosenTableShape(r)
  {
    CastleCriticalTotal(); CastleCriticalDistinct();
    CastleDamagedTotal(); CastleDamagedDistinct();
    CastleScratchedTotal(); CastleScratchedDistinct();
    if castleHp < CASTLE_HP * 0.4 then CastleCritical()
    else if castleHp < CASTLE_HP * 0.9 then CastleDamaged()
    else if castleHp < CASTLE_HP then CastleScratched()
    else t
  }

  /** choose_strategy: the elif chain, then the overriding ifs for the
      enemy's unit level, for a turn that is not a spawn turn, and for
      castle rescue. Every table it can return sums to exactly 100, lists
      each action once with a positive share, and holds the income upgrade
      unless it is the spawn-only table. */
  function ChooseStrategy(spawns: int, income: int, unitHpLvl: int, enemyUnitLvl: int,
                          turnsToSpawn: int, castleHp: real): (t: Table)
    ensures ChosenTableShape(t)
    ensures DistinctActions(t)
  {
    var t := BaseStrategy(spawns, income, unitHpLvl);
    var t := EnemyLevelStrategy(enemyUnitLvl, t);
    var t := if turnsToSpawn > 0 then IncomeOnly() else t;
    var t := RescueStrategy(castleHp, t);
    NoRepeatsIsDistinct(t);
    t
  }

  /** choose_strategy settles on the spawn-only table exactly when the
      computer has no spawn and none of the later overrides fires. */
  lemma SpawnOnlyChosenExactly(spawns: int, income: int, unitHpLvl: int, enemyUnitLvl: int,
                               turnsToSpawn: int, castleHp: real)
    ensures ChooseStrategy(spawns, income, unitHpLvl, enemyUnitLvl, turnsToSpawn, castleHp) == SpawnOnly()
        <==> spawns == 0 && enemyUnitLvl <= 200 && turnsToSpawn <= 0 && castleHp >= CASTLE_HP
  {
    var b := BaseStrategy(spawns, income, unitHpLvl);
    var e := EnemyLevelStrategy(enemyUnitLvl, b);
    var i := if turnsToSpawn > 0 then IncomeOnly() else e;
    BaseSpawnOnly(spawns, income, unitHpLvl);
    EnemyLevelSpawnOnly(enemyUnitLvl, b);
    RescueSpawnOnly(castleHp, i);
  }

  /** The base table is the spawn-only one exactly without spawns. */
  lemma BaseSpawnOnly(spawns: int, income: int, unitHpLvl: int)
    ensures BaseStrategy(spawns, income, unitHpLvl) == SpawnOnly() <==> spawns == 0
  {
    var b := BaseStrategy(spawns, income, unitHpLvl);
    if spawns != 0 {
      assert b[0].0 == IncomeUp || b[1].0 == IncomeUp;
    }
  }

  /** The enemy-level override never picks the spawn-only table. */
  lemma EnemyLevelSpawnOnly(enemyUnitLvl: int, t: Table)
    ensures EnemyLevelStrategy(enemyUnitLvl, t) == SpawnOnly() <==> enemyUnitLvl <= 200 && t == SpawnOnly()
  {
    var e := EnemyLevelStrategy(enemyUnitLvl, t);
    if enemyUnitLvl > 200 {
      assert e[0].0 == IncomeUp || e[1].0 == IncomeUp;
    }
  }

  /** The castle-rescue override never picks the spawn-only table. */
  lemma RescueSpawnOnly(castleHp: real, t: Table)
    ensures RescueStrategy(castleHp, t) == SpawnOnly() <==> castleHp >= CASTLE_HP && t == SpawnOnly()
  {
    var r := RescueStrategy(castleHp, t);
    if castleHp < CASTLE_HP {
      assert r[0].0 == IncomeUp || r[1].0 == IncomeUp;
    }
  }

  /** The share of an affordable entry counts towards the affordable total. */
  lemma {:induction false} AffordableKeepsShare(t: Table, gold: int, k: nat)
    requires k < |t| && Cost(t[k].0) <= gold
    ensures t[k].1 <= Total(Affordable(t, gold))
    decreases k
  {
    if k > 0 {
      AffordableKeepsShare(t[1..], gold, k - 1);
    }
  }

  /** With at least the cheapest price in hand, a table of choose_strategy
      leaves nothing affordable exactly when it is the spawn-only table and
      the gold is below SPAWN_COST (the case where randint(1, 0) fails):
      every other table holds the income upgrade, which costs the cheapest
      price. */
  lemma AffordableEmptyOnlyForSpawnOnly(t: Table, gold: int)
    requires ChosenTableShape(t)
    requires gold >= MinPrice()
    ensures Total(Affordable(t, gold)) == 0 <==> t == SpawnOnly() && gold < SPAWN_COST
  {
    if t == SpawnOnly() && gold < SPAWN_COST {
      assert Affordable(t, gold) == [] by {
        assert Affordable(t, gold) == Affordable(t[1..], gold);
      }
    } else {
      var k: nat := if t == SpawnOnly() || t[0].0 == IncomeUp then 0 else 1;
      assert k < |t| && t[k].1 > 0 && Cost(t[k].0) <= gold by {
        CheapestPriceIs100();
      }
      AffordableKeepsShare(t, gold, k);
    }
  }
}
