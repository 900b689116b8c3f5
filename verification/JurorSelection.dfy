/**
  Round-robin selection from one pool: the scan that `select_from_pool` performs, what it
  finds, and how evenly the saved cursor spreads the work.
*/
module JurorSelection {
  import opened Prelude
  import opened Types

  /** The scan from `cursor` on, after `attempts` slots have been looked at. */
  function Scan(pool: seq<AccountId>, cursor: nat, attempts: nat, exclude: seq<AccountId>,
                selected: seq<AccountId>, count: nat): (seq<AccountId>, nat)
    requires pool != []
    decreases |pool| - attempts
  {
    if |selected| >= count || attempts >= |pool| then (selected, cursor)
    else
      var juror := pool[cursor % |pool|];
      var grown := if juror in exclude || juror in selected then selected else selected + [juror];
      Scan(pool, cursor + 1, attempts + 1, exclude, grown, count)
  }

  /** The selection grown from one pool, and the cursor saved for the next call. */
  function FromPool(pool: seq<AccountId>, cursor: nat, exclude: seq<AccountId>,
                    selected: seq<AccountId>, count: nat): (seq<AccountId>, nat)
  {
    if |selected| >= count || pool == [] then (selected, cursor)
    else
      var (grown, next) := Scan(pool, cursor, 0, exclude, selected, count);
      (grown, next % |pool|)
  }

  // ---------- modular indices ----------

  /** The slot `steps` places after the cursor. */
  function Slot(n: nat, cursor: nat, steps: nat): (slot: nat)
    requires n > 0
    ensures slot < n
  {
    (cursor + steps) % n
  }

  lemma MulMonotone(n: nat, a: int, b: int)
    requires a <= b
    ensures n * a <= n * b
  {
  }

  lemma MulCancel(n: nat, a: int, b: int)
    requires n * a < n * (b + 1)
    ensures a <= b
  {
    if b + 1 <= a {
      MulMonotone(n, b + 1, a);
    }
  }

  lemma ModUnique(n: nat, k: int, r: nat)
    requires r < n
    ensures (n * k + r) % n == r
  {
    var x := n * k + r;
    assert x == n * (x / n) + x % n;
    assert n * k < n * (x / n + 1) by { assert n * (x / n + 1) == n * (x / n) + n; }
    MulCancel(n, k, x / n);
    assert n * (x / n) < n * (k + 1) by { assert n * (k + 1) == n * k + n; }
    MulCancel(n, x / n, k);
  }

  /** Every slot lies fewer than `n` steps ahead of the cursor. */
  lemma SlotAhead(n: nat, cursor: nat, slot: nat) returns (t: nat)
    requires slot < n
    ensures t < n && Slot(n, cursor, t) == slot
  {
    var k, q := cursor / n, cursor % n;
    assert cursor == n * k + q;
    if q <= slot {
      t := slot - q;
      assert cursor + t == n * k + slot;
      ModUnique(n, k, slot);
    } else {
      t := slot + n - q;
      assert cursor + t == n * (k + 1) + slot;
      ModUnique(n, k + 1, slot);
    }
  }

  // ---------- soundness and completeness of one scan ----------

  /** `grown` extends `selected` by distinct, non-excluded members of the pool. */
  ghost predicate Extends(pool: seq<AccountId>, exclude: seq<AccountId>,
                          selected: seq<AccountId>, grown: seq<AccountId>)
  {
    && Distinct(grown)
    && selected <= grown
    && forall i :: |selected| <= i < |grown| ==> grown[i] in pool && grown[i] !in exclude
  }

  ghost predicate Exhausted(pool: seq<AccountId>, exclude: seq<AccountId>, grown: seq<AccountId>) {
    forall j :: j in pool ==> j in exclude || j in grown
  }

  lemma {:induction false} ScanFinds(pool: seq<AccountId>, start: nat, attempts: nat, exclude: seq<AccountId>,
                                     selected: seq<AccountId>, grown: seq<AccountId>, count: nat)
    requires pool != [] && attempts <= |pool|
    requires Extends(pool, exclude, selected, grown)
    requires |grown| <= Max(count, |selected|)
    requires forall t :: 0 <= t < attempts ==>
      pool[Slot(|pool|, start, t)] in exclude || pool[Slot(|pool|, start, t)] in grown
    ensures var r := Scan(pool, start + attempts, attempts, exclude, grown, count).0;
      && Extends(pool, exclude, selected, r)
      && |r| <= Max(count, |selected|)
      && (|r| < count ==> Exhausted(pool, exclude, r))
    decreases |pool| - attempts
  {
    if |grown| >= count {
    } else if attempts == |pool| {
      forall j | j in pool ensures j in exclude || j in grown {
        var slot :| 0 <= slot < |pool| && pool[slot] == j;
        var t := SlotAhead(|pool|, start, slot);
      }
    } else {
      var juror := pool[Slot(|pool|, start, attempts)];
      var next := if juror in exclude || juror in grown then grown else grown + [juror];
      ScanFinds(pool, start, attempts + 1, exclude, selected, next, count);
    }
  }

  /** One pool: sound, within the count, and short of the count only when nobody is left. */
  lemma FromPoolFinds(pool: seq<AccountId>, cursor: nat, exclude: seq<AccountId>,
                      selected: seq<AccountId>, count: nat)
    requires Distinct(selected)
    ensures var r := FromPool(pool, cursor, exclude, selected, count).0;
      && Extends(pool, exclude, selected, r)
      && |r| <= Max(count, |selected|)
      && (|r| < count ==> Exhausted(pool, exclude, r))
  {
    if |selected| < count && pool != [] {
      ScanFinds(pool, cursor, 0, exclude, selected, selected, count);
    }
  }

  // ---------- fairness ----------

  /** `len` consecutive slots of the pool, read cyclically from `cursor`. */
  function Window(pool: seq<AccountId>, cursor: nat, len: nat): (w: seq<AccountId>)
    requires pool != []
    ensures |w| == len
  {
    seq(len, i requires 0 <= i < len => pool[Slot(|pool|, cursor, i)])
  }

  lemma WindowSplit(pool: seq<AccountId>, cursor: nat, a: nat, b: nat)
    requires pool != []
    ensures Window(pool, cursor, a + b) == Window(pool, cursor, a) + Window(pool, cursor + a, b)
  {
  }

  /** Slots fewer than `n` apart are different slots. */
  lemma NearbySlotsDiffer(n: nat, cursor: nat, i: nat, j: nat)
    requires 0 < n && i < j && j - i < n
    ensures Slot(n, cursor, i) != Slot(n, cursor, j)
  {
    var k, q := (cursor + i) / n, (cursor + i) % n;
    assert cursor + i == n * k + q;
    if q + (j - i) < n {
      assert cursor + j == n * k + (q + (j - i));
      ModUnique(n, k, q + (j - i));
    } else {
      assert cursor + j == n * (k + 1) + (q + (j - i) - n);
      ModUnique(n, k + 1, q + (j - i) - n);
    }
  }

  // ---------- exactly one scan ----------

  /** Those of a window who are neither excluded nor selected already, in order. */
  function FreshOf(w: seq<AccountId>, exclude: seq<AccountId>, selected: seq<AccountId>): (taken: seq<AccountId>)
    ensures forall j :: j in taken <==> j in w && j !in exclude && j !in selected
  {
    if w == [] then []
    else
      var n := |w| - 1;
      FreshOf(w[..n], exclude, selected) + (if w[n] !in exclude && w[n] !in selected then [w[n]] else [])
  }

  /** The selection after the slots of a window. */
  function Taken(pool: seq<AccountId>, start: nat, len: nat, exclude: seq<AccountId>, selected: seq<AccountId>)
    : seq<AccountId>
    requires pool != []
  {
    selected + FreshOf(Window(pool, start, len), exclude, selected)
  }

  /** The next slot shows somebody not seen in this scan before. */
  lemma NextTaken(pool: seq<AccountId>, start: nat, attempts: nat, exclude: seq<AccountId>, selected: seq<AccountId>)
    requires pool != [] && Distinct(pool) && attempts < |pool|
    ensures var juror := pool[Slot(|pool|, start, attempts)];
      var grown := Taken(pool, start, attempts, exclude, selected);
      Taken(pool, start, attempts + 1, exclude, selected)
      == (if juror in exclude || juror in grown then grown else grown + [juror])
  {
    var w, juror := Window(pool, start, attempts), pool[Slot(|pool|, start, attempts)];
    forall i | 0 <= i < |w| ensures w[i] != juror {
      NearbySlotsDiffer(|pool|, start, i, attempts);
    }
    assert Window(pool, start, attempts + 1)[..attempts] == w;
    var taken := FreshOf(w, exclude, selected);
    assert juror !in taken;
    assert juror in selected + taken <==> juror in selected;
    assert selected + (taken + [juror]) == selected + taken + [juror];
    assert taken + [] == taken;
  }

  lemma ScanOnce(pool: seq<AccountId>, start: nat, attempts: nat, exclude: seq<AccountId>, grown: seq<AccountId>,
                 count: nat)
    requires pool != [] && attempts < |pool| && |grown| < count
    ensures var juror := pool[Slot(|pool|, start, attempts)];
      Scan(pool, start + attempts, attempts, exclude, grown, count)
      == Scan(pool, start + (attempts + 1), attempts + 1, exclude,
              if juror in exclude || juror in grown then grown else grown + [juror], count)
  {
  }

  lemma ScanOver(pool: seq<AccountId>, cursor: nat, attempts: nat, exclude: seq<AccountId>, grown: seq<AccountId>,
                 count: nat)
    requires pool != [] && (|grown| >= count || attempts >= |pool|)
    ensures Scan(pool, cursor, attempts, exclude, grown, count) == (grown, cursor)
  {
  }

  lemma {:induction false} ScanStops(pool: seq<AccountId>, start: nat, attempts: nat, exclude: seq<AccountId>,
                                     selected: seq<AccountId>, count: nat)
    returns (k: nat)
    requires pool != [] && Distinct(pool) && attempts <= |pool| && |selected| < count
    requires attempts == 0 ==> |Taken(pool, start, attempts, exclude, selected)| < count
    requires attempts > 0 ==> |Taken(pool, start, attempts - 1, exclude, selected)| < count
    ensures attempts <= k <= |pool| && k > 0
    ensures Scan(pool, start + attempts, attempts, exclude, Taken(pool, start, attempts, exclude, selected), count)
         == (Taken(pool, start, k, exclude, selected), start + k)
    ensures k < |pool| ==> |Taken(pool, start, k, exclude, selected)| >= count
    ensures |Taken(pool, start, k - 1, exclude, selected)| < count
    decreases |pool| - attempts
  {
    hide Taken, Scan, Distinct, Slot;
    var grown := Taken(pool, start, attempts, exclude, selected);
    if |grown| >= count || attempts == |pool| {
      k := attempts;
      ScanOver(pool, start + attempts, attempts, exclude, grown, count);
    } else {
      NextTaken(pool, start, attempts, exclude, selected);
      ScanOnce(pool, start, attempts, exclude, grown, count);
      k := ScanStops(pool, start, attempts + 1, exclude, selected, count);
    }
  }

  lemma NothingTaken(pool: seq<AccountId>, start: nat, exclude: seq<AccountId>, selected: seq<AccountId>)
    requires pool != []
    ensures Taken(pool, start, 0, exclude, selected) == selected
  {
  }

  /**
    One pool, exactly: from the saved cursor on it takes those neither excluded nor selected in
    cyclic order, stops as soon as nobody is missing or after a full turn, and saves the slot
    after the last one it looked at.
  */
  lemma FromPoolExactly(pool: seq<AccountId>, cursor: nat, exclude: seq<AccountId>, selected: seq<AccountId>,
                        count: nat)
    returns (k: nat)
    requires pool != [] && Distinct(pool) && |selected| < count
    ensures 0 < k <= |pool|
    ensures FromPool(pool, cursor, exclude, selected, count)
         == (Taken(pool, cursor, k, exclude, selected), (cursor + k) % |pool|)
    ensures k < |pool| ==> |Taken(pool, cursor, k, exclude, selected)| >= count
    ensures |Taken(pool, cursor, k - 1, exclude, selected)| < count
  {
    NothingTaken(pool, cursor, exclude, selected);
    hide Taken, Distinct, Scan;
    k := ScanStops(pool, cursor, 0, exclude, selected, count);
  }

  /** Nobody in the pool is among these. */
  ghost predicate Apart(pool: seq<AccountId>, others: seq<AccountId>) {
    forall j :: j in pool ==> j !in others
  }

  /** Where nobody of the pool is excluded or selected, a scan takes the next slots one after another. */
  lemma {:induction false} ScanTakesWindow(pool: seq<AccountId>, start: nat, attempts: nat, exclude: seq<AccountId>,
                                           selected: seq<AccountId>, count: nat)
    requires pool != [] && Distinct(pool) && Apart(pool, exclude) && Apart(pool, selected)
    requires attempts <= |pool| && |selected| + attempts <= count
    ensures var k := Min(count - |selected|, |pool|);
      Scan(pool, start + attempts, attempts, exclude, selected + Window(pool, start, attempts), count)
      == (selected + Window(pool, start, k), start + k)
    decreases |pool| - attempts
  {
    if |selected| + attempts < count && attempts < |pool| {
      var taken := Window(pool, start, attempts);
      var juror := pool[Slot(|pool|, start, attempts)];
      forall i | 0 <= i < |taken| ensures taken[i] != juror {
        NearbySlotsDiffer(|pool|, start, i, attempts);
      }
      assert juror in pool;
      assert selected + taken + [juror] == selected + Window(pool, start, attempts + 1);
      ScanTakesWindow(pool, start, attempts + 1, exclude, selected, count);
    }
  }

  lemma FromPoolTakesWindow(pool: seq<AccountId>, cursor: nat, exclude: seq<AccountId>, selected: seq<AccountId>,
                            count: nat)
    requires pool != [] && Distinct(pool) && Apart(pool, exclude) && Apart(pool, selected)
    requires |selected| < count
    ensures var k := Min(count - |selected|, |pool|);
      FromPool(pool, cursor, exclude, selected, count) == (selected + Window(pool, cursor, k), (cursor + k) % |pool|)
  {
    assert selected + Window(pool, cursor, 0) == selected;
    ScanTakesWindow(pool, cursor, 0, exclude, selected, count);
  }

  lemma SlotModulo(n: nat, cursor: nat, steps: nat)
    requires n > 0
    ensures Slot(n, cursor % n, steps) == Slot(n, cursor, steps)
  {
    var q, low := cursor / n, cursor % n + steps;
    var k, r := low / n, low % n;
    assert cursor == n * q + cursor % n;
    assert low == n * k + r;
    assert n * (q + k) == n * q + n * k;
    ModUnique(n, q + k, r);
  }

  /** A cursor and its remainder read the same window. */
  lemma WindowModulo(pool: seq<AccountId>, cursor: nat, len: nat)
    requires pool != []
    ensures Window(pool, cursor % |pool|, len) == Window(pool, cursor, len)
  {
    forall i | 0 <= i < len ensures Slot(|pool|, cursor % |pool|, i) == Slot(|pool|, cursor, i) {
      SlotModulo(|pool|, cursor, i);
    }
  }

  /** How many slots lie between the cursor and `slot`. */
  function Gap(n: nat, slot: nat, cursor: nat): (g: nat)
    requires slot < n
    ensures g < n
  {
    (slot - cursor) % n
  }

  lemma GapIs(n: nat, slot: nat, cursor: nat, k: int, d: nat)
    requires slot < n && d < n && slot - cursor == n * k + d
    ensures Gap(n, slot, cursor) == d
  {
    ModUnique(n, k, d);
  }

  lemma NoGap(n: nat, slot: nat, cursor: nat)
    requires slot < n
    ensures cursor % n == slot <==> Gap(n, slot, cursor) == 0
  {
    var q := cursor / n;
    assert cursor == n * q + cursor % n;
    if cursor % n == slot {
      assert n * (-q) == -(n * q);
      GapIs(n, slot, cursor, -q, 0);
    } else if Gap(n, slot, cursor) == 0 {
      var k := (slot - cursor) / n;
      assert slot - cursor == n * k;
      assert n * (-k) == -(n * k);
      ModUnique(n, -k, slot);
    }
  }

  lemma GapStep(n: nat, slot: nat, cursor: nat)
    requires slot < n
    ensures cursor % n == slot ==> Gap(n, slot, cursor) == 0 && Gap(n, slot, cursor + 1) == n - 1
    ensures cursor % n != slot ==> Gap(n, slot, cursor + 1) == Gap(n, slot, cursor) - 1
  {
    NoGap(n, slot, cursor);
    var d, k := Gap(n, slot, cursor), (slot - cursor) / n;
    assert slot - cursor == n * k + d;
    hide Gap;
    if d == 0 {
      assert n * (k - 1) == n * k - n;
      GapIs(n, slot, cursor + 1, k - 1, n - 1);
    } else {
      GapIs(n, slot, cursor + 1, k, d - 1);
    }
  }

  /** The exact number of times a slot is read, up to the distance still to go. */
  lemma {:induction false} WindowHits(pool: seq<AccountId>, cursor: nat, len: nat, slot: nat)
    requires pool != [] && Distinct(pool) && slot < |pool|
    ensures |pool| * multiset(Window(pool, cursor, len))[pool[slot]]
         == len + Gap(|pool|, slot, cursor + len) - Gap(|pool|, slot, cursor)
    decreases len
  {
    if len > 0 {
      var init, last := Window(pool, cursor, len - 1), cursor + (len - 1);
      WindowHits(pool, cursor, len - 1, slot);
      GapStep(|pool|, slot, last);
      LastHit(pool, cursor, len, slot);
      hide Window, Gap, Distinct;
      MulAdd(|pool|, multiset(init)[pool[slot]], if last % |pool| == slot then 1 else 0);
    }
  }

  /** The last place of a window hits the slot it reads. */
  lemma LastHit(pool: seq<AccountId>, cursor: nat, len: nat, slot: nat)
    requires pool != [] && Distinct(pool) && slot < |pool| && len > 0
    ensures multiset(Window(pool, cursor, len))[pool[slot]]
         == multiset(Window(pool, cursor,
                            len - 1))[pool[slot]] + (if (cursor + (len - 1)) % |pool| == slot then 1 else 0)
  {
    var init := Window(pool, cursor, len - 1);
    assert Window(pool, cursor, len) == init + [pool[Slot(|pool|, cursor, len - 1)]];
  }

  lemma MulAdd(n: nat, a: nat, b: nat)
    ensures n * (a + b) == n * a + n * b
  {
  }

  /** `floor(total / n) <= times <= ceil(total / n)`. */
  ghost predicate FairShare(times: nat, total: nat, n: nat)
    requires n > 0
  {
    total / n <= times <= (total + n - 1) / n
  }

  lemma DivBounds(n: nat, total: nat, times: nat)
    requires n > 0
    requires total - n < n * times < total + n
    ensures FairShare(times, total, n)
  {
    assert total == n * (total / n) + total % n;
    assert n * (times + 1) == n * times + n;
    MulCancel(n, total / n, times);
    var q := (total + n - 1) / n;
    assert total + n - 1 == n * q + (total + n - 1) % n;
    assert n * (q + 1) == n * q + n;
    MulCancel(n, times, q);
  }

  lemma WindowIsFair(pool: seq<AccountId>, cursor: nat, len: nat, juror: AccountId)
    requires Distinct(pool) && juror in pool
    ensures FairShare(multiset(Window(pool, cursor, len))[juror], len, |pool|)
  {
    var slot :| 0 <= slot < |pool| && pool[slot] == juror;
    WindowHits(pool, cursor, len, slot);
    DivBounds(|pool|, len, multiset(Window(pool, cursor, len))[juror]);
  }
}
