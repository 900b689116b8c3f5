/**
  What a jury selection returns: who, how many, in which order of preference, and how evenly
  repeated selections load the Gold pool.
*/
module SelectionTheorems {
  import opened Prelude
  import opened Types
  import opened JurorSelection
  import opened Reputation
  import opened JurorIndex

  predicate Accepts(minTier: JurorTier, t: JurorTier) {
    Rank(minTier) <= Rank(t)
  }

  /** The distinct jurors a call may pick. */
  function Eligible(r: RepStore, minTier: JurorTier, exclude: seq<AccountId>): set<AccountId> {
    set j | j in r.gold + r.silver + r.bronze && j !in exclude
         && (j in r.gold || (j in r.silver && Accepts(minTier, Silver)) || (j in r.bronze && Accepts(minTier, Bronze)))
  }

  /** One tier adds only its own jurors, and is short of the count only when it is used up. */
  lemma FromTierFinds(r: RepStore, t: JurorTier, exclude: seq<AccountId>, selected: seq<AccountId>, count: nat)
    requires Distinct(selected) && |selected| <= count
    ensures var (grown, v) := FromTier(r, t, exclude, selected, count);
      && Extends(Pool(r, t), exclude, selected, grown)
      && |grown| <= count
      && (|grown| < count ==> Exhausted(Pool(r, t), exclude, grown))
      && v == r.(nextIndex := v.nextIndex)
  {
    FromPoolFinds(Pool(r, t), Get(r.nextIndex, t), exclude, selected, count);
  }

  /** One tier, exactly: nothing if nobody is missing or listed, else one scan from the tier's own cursor. */
  lemma FromTierExactly(r: RepStore, t: JurorTier, exclude: seq<AccountId>, selected: seq<AccountId>, count: nat)
    returns (k: nat)
    requires Distinct(Pool(r, t))
    ensures |selected| >= count || Pool(r, t) == [] ==> FromTier(r, t, exclude, selected, count) == (selected, r)
    ensures |selected| < count && Pool(r, t) != [] ==>
      var pool, cursor := Pool(r, t), Get(r.nextIndex, t);
      && 0 < k <= |pool|
      && FromTier(r, t, exclude, selected, count)
           == (Taken(pool, cursor, k, exclude, selected),
               r.(nextIndex := r.nextIndex[t := (cursor + k) % |pool|]))
      && (k < |pool| ==> |Taken(pool, cursor, k, exclude, selected)| >= count)
      && |Taken(pool, cursor, k - 1, exclude, selected)| < count
  {
    hide Taken, FromPool, Distinct;
    k := 0;
    if |selected| < count && Pool(r, t) != [] {
      k := FromPoolExactly(Pool(r, t), Get(r.nextIndex, t), exclude, selected, count);
    }
  }

  /** A later tier cannot undo what an earlier one exhausted. */
  lemma StillExhausted(pool: seq<AccountId>, exclude: seq<AccountId>, selected: seq<AccountId>, grown: seq<AccountId>)
    requires Exhausted(pool, exclude, selected) && selected <= grown
    ensures Exhausted(pool, exclude, grown)
  {
    forall j | j in pool ensures j in exclude || j in grown {
      if j in selected {
        var i :| 0 <= i < |selected| && selected[i] == j;
        assert grown[i] == j;
      }
    }
  }

  /** What one tier did, as seen from the end of the selection. */
  ghost predicate TierDone(pool: seq<AccountId>, exclude: seq<AccountId>, before: seq<AccountId>,
                           after: seq<AccountId>, count: nat) {
    && Extends(pool, exclude, before, after)
    && |after| <= count
    && (|after| < count ==> Exhausted(pool, exclude, after))
  }

  /**
    The three passes of a selection: a tier the caller does not accept, or that is reached
    with nobody missing, adds no one.
  */
  lemma SelectionPasses(r: RepStore, minTier: JurorTier, exclude: seq<AccountId>, count: nat)
    returns (s1: seq<AccountId>, s2: seq<AccountId>)
    ensures var s3 := Selection(r, minTier, exclude, count).0;
      && TierDone(r.gold, exclude, [], s1, count)
      && (if Accepts(minTier, Silver) then TierDone(r.silver, exclude, s1, s2, count) else s2 == s1)
      && (if Accepts(minTier, Bronze) then TierDone(r.bronze, exclude, s2, s3, count) else s3 == s2)
    ensures var v := Selection(r, minTier, exclude, count).1;
      v == r.(nextIndex := v.nextIndex)
  {
    var p1 := FromTier(r, Gold, exclude, [], count);
    FromTierFinds(r, Gold, exclude, [], count);
    var p2 := if Accepts(minTier, Silver) then FromTier(p1.1, Silver, exclude, p1.0, count) else p1;
    if Accepts(minTier, Silver) {
      FromTierFinds(p1.1, Silver, exclude, p1.0, count);
    }
    if Accepts(minTier, Bronze) {
      FromTierFinds(p2.1, Bronze, exclude, p2.0, count);
    }
    s1, s2 := p1.0, p2.0;
  }

  /** Only eligible jurors, each once. */
  lemma SelectionSound(r: RepStore, minTier: JurorTier, exclude: seq<AccountId>, count: nat)
    ensures var sel := Selection(r, minTier, exclude, count).0;
      && Distinct(sel)
      && |sel| <= count
      && (forall i :: 0 <= i < |sel| ==> sel[i] in Eligible(r, minTier, exclude))
  {
    var s1, s2 := SelectionPasses(r, minTier, exclude, count);
    var sel := Selection(r, minTier, exclude, count).0;
    forall i | 0 <= i < |sel| ensures sel[i] in Eligible(r, minTier, exclude) {
      if i < |s1| {
        assert s1[i] in r.gold && sel[i] == s1[i];
      } else if i < |s2| {
        assert s2[i] in r.silver && sel[i] == s2[i];
      } else {
        assert sel[i] in r.bronze;
      }
    }
  }

  /** As many as asked for, or else everybody eligible. */
  lemma SelectionComplete(r: RepStore, minTier: JurorTier, exclude: seq<AccountId>, count: nat)
    ensures var sel := Selection(r, minTier, exclude, count).0;
      && |sel| == Min(count, |Eligible(r, minTier, exclude)|)
      && (|sel| < count ==> Elements(sel) == Eligible(r, minTier, exclude))
  {
    var s1, s2 := SelectionPasses(r, minTier, exclude, count);
    var sel := Selection(r, minTier, exclude, count).0;
    var eligible := Eligible(r, minTier, exclude);
    SelectionSound(r, minTier, exclude, count);
    DistinctCardinality(sel);
    SubsetFull(Elements(sel), eligible);
    if |sel| < count {
      assert s1 <= s2 <= sel;
      StillExhausted(r.gold, exclude, s1, sel);
      if Accepts(minTier, Silver) {
        StillExhausted(r.silver, exclude, s2, sel);
      }
      forall j | j in eligible ensures j in Elements(sel) {
      }
      assert Elements(sel) == eligible;
    }
  }

  /** A lower tier is used only after every non-excluded juror of the higher tiers was taken. */
  lemma SelectionPrefersHigherTiers(r: RepStore, minTier: JurorTier, exclude: seq<AccountId>, count: nat, j: AccountId)
    requires j in Selection(r, minTier, exclude, count).0
    ensures var sel := Selection(r, minTier, exclude, count).0;
      && (j !in r.gold ==> Exhausted(r.gold, exclude, sel))
      && (j !in r.gold && j !in r.silver && Accepts(minTier, Silver) ==> Exhausted(r.silver, exclude, sel))
  {
    var s1, s2 := SelectionPasses(r, minTier, exclude, count);
    var sel := Selection(r, minTier, exclude, count).0;
    var i :| 0 <= i < |sel| && sel[i] == j;
    assert s1 <= s2 <= sel;
    if j !in r.gold {
      assert i >= |s1|;
      StillExhausted(r.gold, exclude, s1, sel);
      if j !in r.silver && Accepts(minTier, Silver) {
        assert i >= |s2|;
        StillExhausted(r.silver, exclude, s2, sel);
      }
    }
  }

  /** With the index kept, the statistics of every selected juror support the required tier. */
  lemma SelectedJurorsQualify(cfg: Config, r: RepStore, minTier: JurorTier, exclude: seq<AccountId>, count: nat)
    requires IndexOk(cfg, r)
    ensures forall j :: j in Selection(r, minTier, exclude, count).0 ==>
      && j in r.registry
      && j !in exclude
      && Accepts(minTier, TierFromStats(StatsOf(r, j)))
  {
    SelectionSound(r, minTier, exclude, count);
    var sel := Selection(r, minTier, exclude, count).0;
    forall j | j in sel
      ensures j in r.registry && j !in exclude && Accepts(minTier, TierFromStats(StatsOf(r, j)))
    {
      var i :| 0 <= i < |sel| && sel[i] == j;
      assert j in Eligible(r, minTier, exclude);
      assert Deserved(r, j);
      assert j in Pool(r, Gold) || j in Pool(r, Silver) || j in Pool(r, Bronze);
    }
  }

  // ---------- fairness ----------

  /** What one call of the selection asks for. */
  datatype Request = Request(minTier: JurorTier, exclude: seq<AccountId>, count: nat)

  /** Everyone picked by selections one after another, each with its own tier, exclusions and size. */
  function Picks(r: RepStore, requests: seq<Request>): (seq<AccountId>, RepStore) {
    if requests == [] then ([], r)
    else
      var n := |requests| - 1;
      var (before, v) := Picks(r, requests[..n]);
      var (sel, u) := Selection(v, requests[n].minTier, requests[n].exclude, requests[n].count);
      (before + sel, u)
  }

  /** The picks that belong to a pool, in order. */
  function Only(picks: seq<AccountId>, pool: seq<AccountId>): seq<AccountId> {
    if picks == [] then []
    else
      var n := |picks| - 1;
      Only(picks[..n], pool) + (if picks[n] in pool then [picks[n]] else [])
  }

  lemma {:induction false} OnlyAdds(a: seq<AccountId>, b: seq<AccountId>, pool: seq<AccountId>)
    ensures Only(a + b, pool) == Only(a, pool) + Only(b, pool)
  {
    if b == [] {
      assert a + b == a;
    } else {
      var n := |b| - 1;
      assert (a + b)[..|a + b| - 1] == a + b[..n];
      OnlyAdds(a, b[..n], pool);
    }
  }

  lemma {:induction false} OnlyMembers(a: seq<AccountId>, pool: seq<AccountId>)
    requires forall i :: 0 <= i < |a| ==> a[i] in pool
    ensures Only(a, pool) == a
  {
    if a != [] {
      var n := |a| - 1;
      OnlyMembers(a[..n], pool);
      assert a == a[..n] + [a[n]];
    }
  }

  lemma {:induction false} OnlyOthers(a: seq<AccountId>, pool: seq<AccountId>)
    requires forall i :: 0 <= i < |a| ==> a[i] !in pool
    ensures Only(a, pool) == []
  {
    if a != [] {
      OnlyOthers(a[..|a| - 1], pool);
    }
  }

  lemma {:induction false} OnlyCounts(a: seq<AccountId>, pool: seq<AccountId>, juror: AccountId)
    requires juror in pool
    ensures multiset(Only(a, pool))[juror] == multiset(a)[juror]
  {
    if a != [] {
      var n := |a| - 1;
      OnlyCounts(a[..n], pool, juror);
      assert a == a[..n] + [a[n]];
      CountsAdd(a[..n], a[n], juror);
      CountsAdd(Only(a[..n], pool), a[n], juror);
    }
  }

  lemma CountsAdd(a: seq<AccountId>, last: AccountId, juror: AccountId)
    ensures multiset(a + [last])[juror] == multiset(a)[juror] + (if last == juror then 1 else 0)
    ensures a + [] == a
  {
  }

  /** No juror is listed twice, in one pool or in two. */
  ghost predicate Separate(r: RepStore) {
    && (forall t :: Distinct(Pool(r, t)))
    && (forall t, u, a :: a in Pool(r, t) && a in Pool(r, u) ==> t == u)
  }

  /** None of the requests excludes anybody in the pool. */
  ghost predicate Unexcluded(pool: seq<AccountId>, requests: seq<Request>) {
    forall i :: 0 <= i < |requests| ==> Apart(pool, requests[i].exclude)
  }

  /** Two cursors from which every scan sees the same jurors. */
  ghost predicate ReadsLike(pool: seq<AccountId>, c: nat, d: nat)
    requires pool != []
  {
    forall len: nat :: Window(pool, c, len) == Window(pool, d, len)
  }

  lemma RemainderReadsLike(pool: seq<AccountId>, c: nat)
    requires pool != []
    ensures ReadsLike(pool, c % |pool|, c)
  {
    forall len: nat ensures Window(pool, c % |pool|, len) == Window(pool, c, len) {
      WindowModulo(pool, c, len);
    }
  }

  lemma ReadsLikeLater(pool: seq<AccountId>, c: nat, d: nat, count: nat)
    requires pool != [] && ReadsLike(pool, c, d)
    ensures ReadsLike(pool, c + count, d + count)
  {
    var e, f := c + count, d + count;
    forall len: nat ensures Window(pool, e, len) == Window(pool, f, len) {
      WindowSplit(pool, c, count, len);
      WindowSplit(pool, d, count, len);
      assert Window(pool, e, len) == Window(pool, c, count + len)[count..];
      assert Window(pool, f, len) == Window(pool, d, count + len)[count..];
    }
  }

  /** The same lists, other cursors. */
  ghost predicate SamePools(r: RepStore, v: RepStore) {
    v == r.(nextIndex := v.nextIndex)
  }

  /** The picks grew by the next `k` slots of the pool, and the cursor moved on by as many. */
  ghost predicate Took(pool: seq<AccountId>, cursor: nat, next: nat, before: seq<AccountId>, after: seq<AccountId>,
                       k: nat)
    requires pool != []
  {
    after == before + Window(pool, cursor, k) && ReadsLike(pool, next, cursor + k)
  }

  /** What happened between two points of a selection, as pool `t` sees it: nothing, or its next window. */
  ghost predicate PassSeen(r: RepStore, v: RepStore, t: JurorTier, before: seq<AccountId>, after: seq<AccountId>)
    requires Pool(r, t) != []
  {
    var pool := Pool(r, t);
    exists k: nat :: Took(pool, Get(r.nextIndex, t), Get(v.nextIndex, t), Only(before, pool), Only(after, pool), k)
  }

  lemma TookNothing(pool: seq<AccountId>, cursor: nat, picks: seq<AccountId>)
    requires pool != []
    ensures Took(pool, cursor, cursor, picks, picks, 0)
  {
    assert picks + Window(pool, cursor, 0) == picks;
  }

  lemma TookTwice(pool: seq<AccountId>, c: nat, d: nat, e: nat, x: seq<AccountId>, y: seq<AccountId>, z: seq<AccountId>,
                  k: nat, m: nat)
    requires pool != [] && Took(pool, c, d, x, y, k) && Took(pool, d, e, y, z, m)
    ensures Took(pool, c, e, x, z, k + m)
  {
    NextWindow(pool, c, k, d, m, e);
    hide ReadsLike, Window;
    assert x + Window(pool, c, k) + Window(pool, d, m) == x + (Window(pool, c, k) + Window(pool, d, m));
  }

  /** A pass over tier `u` adds distinct members of its pool. */
  lemma PassAdds(r: RepStore, u: JurorTier, exclude: seq<AccountId>, selected: seq<AccountId>, count: nat)
    requires Distinct(selected)
    ensures var (grown, v) := FromTier(r, u, exclude, selected, count);
      && Extends(Pool(r, u), exclude, selected, grown) && SamePools(r, v)
      && forall t :: t != u ==> Get(v.nextIndex, t) == Get(r.nextIndex, t)
  {
    hide FromPool, Extends;
    FromPoolFinds(Pool(r, u), Get(r.nextIndex, u), exclude, selected, count);
    StaysExtended(Pool(r, u), exclude, selected);
  }

  lemma StaysExtended(pool: seq<AccountId>, exclude: seq<AccountId>, selected: seq<AccountId>)
    requires Distinct(selected)
    ensures Extends(pool, exclude, selected, selected)
  {
  }

  /** Two pools without a juror in common. */
  lemma Disjoint(r: RepStore, t: JurorTier, u: JurorTier)
    requires Separate(r) && t != u
    ensures Apart(Pool(r, t), Pool(r, u))
  {
  }

  lemma ExtendsApart(pool: seq<AccountId>, other: seq<AccountId>, exclude: seq<AccountId>, selected: seq<AccountId>,
                     grown: seq<AccountId>)
    requires Apart(pool, other) && Extends(other, exclude, selected, grown)
    ensures Only(grown, pool) == Only(selected, pool)
    ensures Apart(pool, selected) ==> Apart(pool, grown)
  {
    var added := grown[|selected|..];
    assert grown == selected + added;
    forall i | 0 <= i < |added| ensures added[i] !in pool {
      assert added[i] == grown[|selected| + i];
    }
    OnlyAdds(selected, added, pool);
    OnlyOthers(added, pool);
  }

  lemma PassOverOther(r: RepStore, t: JurorTier, u: JurorTier, exclude: seq<AccountId>, selected: seq<AccountId>,
                      count: nat)
    requires Separate(r) && Pool(r, t) != [] && u != t && Distinct(selected)
    ensures var (grown, v) := FromTier(r, u, exclude, selected, count);
      PassSeen(r, v, t, selected, grown) && (Apart(Pool(r, t), selected) ==> Apart(Pool(r, t), grown))
  {
    hide FromTier, Extends, Separate, Apart, Took, Pool;
    PassAdds(r, u, exclude, selected, count);
    Disjoint(r, t, u);
    ExtendsApart(Pool(r, t), Pool(r, u), exclude, selected, FromTier(r, u, exclude, selected, count).0);
    TookNothing(Pool(r, t), Get(r.nextIndex, t), Only(selected, Pool(r, t)));
  }

  lemma PassOverOwn(r: RepStore, t: JurorTier, exclude: seq<AccountId>, selected: seq<AccountId>, count: nat)
    requires Separate(r) && Pool(r, t) != [] && Apart(Pool(r, t), exclude) && Apart(Pool(r, t), selected)
    ensures var (grown, v) := FromTier(r, t, exclude, selected, count);
      PassSeen(r, v, t, selected, grown)
  {
    var pool, cursor := Pool(r, t), Get(r.nextIndex, t);
    assert Distinct(pool);
    hide FromPool, Took, Separate, Apart, Distinct, Pool;
    if |selected| < count {
      var k := Min(count - |selected|, |pool|);
      FromPoolTakesWindow(pool, cursor, exclude, selected, count);
      TookWindow(pool, cursor, selected, k);
      var (grown, v) := FromTier(r, t, exclude, selected, count);
      assert Took(pool, cursor, Get(v.nextIndex, t), Only(selected, pool), Only(grown, pool), k);
    } else {
      TookNothing(pool, cursor, Only(selected, pool));
    }
  }

  lemma TookWindow(pool: seq<AccountId>, cursor: nat, selected: seq<AccountId>, k: nat)
    requires pool != []
    ensures Took(pool, cursor, (cursor + k) % |pool|, Only(selected, pool),
                 Only(selected + Window(pool, cursor, k), pool), k)
  {
    RemainderReadsLike(pool, cursor + k);
    WindowMembers(pool, cursor, k);
    hide ReadsLike, Window;
    OnlyAdds(selected, Window(pool, cursor, k), pool);
    OnlyMembers(Window(pool, cursor, k), pool);
  }

  lemma WindowMembers(pool: seq<AccountId>, cursor: nat, k: nat)
    requires pool != []
    ensures forall i :: 0 <= i < k ==> Window(pool, cursor, k)[i] in pool
  {
  }

  /** A window and the next one make a longer window. */
  lemma NextWindow(pool: seq<AccountId>, start: nat, done: nat, cursor: nat, count: nat, next: nat)
    requires pool != [] && ReadsLike(pool, cursor, start + done) && ReadsLike(pool, next, cursor + count)
    ensures Window(pool, start, done) + Window(pool, cursor, count) == Window(pool, start, done + count)
    ensures ReadsLike(pool, next, start + (done + count))
  {
    assert Window(pool, cursor, count) == Window(pool, start + done, count);
    WindowSplit(pool, start, done, count);
    ReadsLikeLater(pool, cursor, start + done, count);
    assert start + done + count == start + (done + count);
  }

  /** Two stretches one after the other. */
  lemma PassesJoin(r: RepStore, v: RepStore, u: RepStore, t: JurorTier, a: seq<AccountId>, b: seq<AccountId>,
                   c: seq<AccountId>)
    requires Pool(r, t) != [] && Pool(v, t) == Pool(r, t) && PassSeen(r, v, t, a, b) && PassSeen(v, u, t, b, c)
    ensures PassSeen(r, u, t, a, c)
  {
    hide Took, Pool, Only;
    var pool, d, e := Pool(r, t), Get(v.nextIndex, t), Get(u.nextIndex, t);
    var k: nat :| Took(pool, Get(r.nextIndex, t), d, Only(a, pool), Only(b, pool), k);
    var m: nat :| Took(pool, d, e, Only(b, pool), Only(c, pool), m);
    TookTwice(pool, Get(r.nextIndex, t), d, e, Only(a, pool), Only(b, pool), Only(c, pool), k, m);
  }

  lemma NoPass(r: RepStore, t: JurorTier, selected: seq<AccountId>)
    requires Pool(r, t) != []
    ensures PassSeen(r, r, t, selected, selected)
  {
    TookNothing(Pool(r, t), Get(r.nextIndex, t), Only(selected, Pool(r, t)));
  }

  lemma SamePoolsSeparate(r: RepStore, v: RepStore)
    requires SamePools(r, v)
    ensures forall t :: Pool(v, t) == Pool(r, t)
    ensures Separate(r) ==> Separate(v)
  {
    assert forall t :: Pool(v, t) == Pool(r, t);
    hide Pool;
  }

  lemma OnePass(r: RepStore, t: JurorTier, u: JurorTier, exclude: seq<AccountId>, selected: seq<AccountId>, count: nat)
    requires Separate(r) && Pool(r, t) != [] && Distinct(selected) && Apart(Pool(r, t), exclude)
    requires u == t ==> Apart(Pool(r, t), selected)
    ensures var (grown, v) := FromTier(r, u, exclude, selected, count);
      && PassSeen(r, v, t, selected, grown) && Distinct(grown) && Separate(v) && Pool(v, t) == Pool(r, t)
      && (u != t && Apart(Pool(r, t), selected) ==> Apart(Pool(r, t), grown))
  {
    hide FromTier, PassSeen, Separate, Distinct, Apart, Pool, SamePools;
    PassAdds(r, u, exclude, selected, count);
    SamePoolsSeparate(r, FromTier(r, u, exclude, selected, count).1);
    if u == t {
      PassOverOwn(r, t, exclude, selected, count);
    } else {
      PassOverOther(r, t, u, exclude, selected, count);
    }
  }

  /** A whole selection, as one pool sees it: its next window, whatever the other pools contributed. */
  lemma SelectionSeen(r: RepStore, minTier: JurorTier, exclude: seq<AccountId>, count: nat, t: JurorTier)
    requires Separate(r) && Pool(r, t) != [] && Apart(Pool(r, t), exclude)
    ensures var (sel, v) := Selection(r, minTier, exclude, count);
      PassSeen(r, v, t, [], sel) && Separate(v) && Pool(v, t) == Pool(r, t)
  {
    hide FromTier, PassSeen, Separate, Distinct, Apart, Pool;
    var (s1, r1) := FromTier(r, Gold, exclude, [], count);
    var (s2, r2) := if Rank(minTier) <= Rank(Silver) then FromTier(r1, Silver, exclude, s1, count) else (s1, r1);
    EmptyApart(Pool(r, t));
    OnePass(r, t, Gold, exclude, [], count);
    if Rank(minTier) <= Rank(Silver) {
      OnePass(r1, t, Silver, exclude, s1, count);
    } else {
      NoPass(r1, t, s1);
    }
    PassesJoin(r, r1, r2, t, [], s1, s2);
    if Rank(minTier) <= Rank(Bronze) {
      OnePass(r2, t, Bronze, exclude, s2, count);
      PassesJoin(r, r2, FromTier(r2, Bronze, exclude, s2, count).1, t, [], s2,
                 FromTier(r2, Bronze, exclude, s2, count).0);
    }
  }

  lemma EmptyApart(pool: seq<AccountId>)
    ensures Apart(pool, []) && Distinct<AccountId>([])
  {
  }

  /**
    Over any selections, each with its own tier, size and exclusions, the picks from a pool none
    of them excludes anybody of are one cyclic window of it: the saved cursor resumes where the
    last scan stopped.
  */
  lemma {:induction false} PicksAreOneWindow(r: RepStore, requests: seq<Request>, t: JurorTier)
    requires Separate(r) && Pool(r, t) != [] && Unexcluded(Pool(r, t), requests)
    ensures var (picks, v) := Picks(r, requests); var drawn := Only(picks, Pool(r, t));
      && drawn == Window(Pool(r, t), Get(r.nextIndex, t), |drawn|)
      && PassSeen(r, v, t, [], picks) && Separate(v) && Pool(v, t) == Pool(r, t)
  {
    if requests == [] {
      NoPass(r, t, []);
    } else {
      hide Selection, Separate, Apart, PassSeen, Pool, Only;
      var n := |requests| - 1;
      var (before, v) := Picks(r, requests[..n]);
      var q := requests[n];
      var (sel, u) := Selection(v, q.minTier, q.exclude, q.count);
      PicksAreOneWindow(r, requests[..n], t);
      SelectionSeen(v, q.minTier, q.exclude, q.count, t);
      SeenAfter(v, u, t, before, sel);
      PassesJoin(r, v, u, t, [], before, before + sel);
      SeenWindow(r, u, t, before + sel);
    }
  }

  lemma SeenAfter(r: RepStore, v: RepStore, t: JurorTier, before: seq<AccountId>, sel: seq<AccountId>)
    requires Pool(r, t) != [] && PassSeen(r, v, t, [], sel)
    ensures PassSeen(r, v, t, before, before + sel)
  {
    var pool, c, d := Pool(r, t), Get(r.nextIndex, t), Get(v.nextIndex, t);
    hide ReadsLike, Window, Pool;
    var k: nat :| Took(pool, c, d, Only([], pool), Only(sel, pool), k);
    OnlyAdds(before, sel, pool);
    assert Only(sel, pool) == Window(pool, c, k);
    assert Took(pool, c, d, Only(before, pool), Only(before + sel, pool), k);
  }

  lemma SeenWindow(r: RepStore, v: RepStore, t: JurorTier, picks: seq<AccountId>)
    requires Pool(r, t) != [] && PassSeen(r, v, t, [], picks)
    ensures var drawn := Only(picks, Pool(r, t)); drawn == Window(Pool(r, t), Get(r.nextIndex, t), |drawn|)
  {
    var pool, start := Pool(r, t), Get(r.nextIndex, t);
    hide ReadsLike, Pool;
    var k: nat :| Took(pool, start, Get(v.nextIndex, t), Only([], pool), Only(picks, pool), k);
    assert Only(picks, pool) == Window(pool, start, k);
  }

  /**
    Over any selections, each juror of a pool nobody of which is excluded is chosen the floor or
    the ceiling of the average number of times among all picks from that pool.
  */
  lemma SelectionIsFair(r: RepStore, requests: seq<Request>, t: JurorTier, juror: AccountId)
    requires Separate(r) && Unexcluded(Pool(r, t), requests) && juror in Pool(r, t)
    ensures var picks := Picks(r, requests).0;
      FairShare(multiset(picks)[juror], |Only(picks, Pool(r, t))|, |Pool(r, t)|)
  {
    var picks, pool := Picks(r, requests).0, Pool(r, t);
    PicksAreOneWindow(r, requests, t);
    OnlyCounts(picks, pool, juror);
    WindowIsFair(pool, Get(r.nextIndex, t), |Only(picks, pool)|, juror);
  }

  function Asked(requests: seq<Request>): nat {
    if requests == [] then 0 else Asked(requests[..|requests| - 1]) + requests[|requests| - 1].count
  }

  lemma GoldSuffices(r: RepStore, minTier: JurorTier, exclude: seq<AccountId>, count: nat)
    requires Separate(r) && r.gold != [] && Apart(r.gold, exclude) && count <= |r.gold|
    ensures var (sel, v) := Selection(r, minTier, exclude, count);
      |sel| == count && Only(sel, r.gold) == sel && v.gold == r.gold
  {
    var pool, cursor := r.gold, Get(r.nextIndex, Gold);
    assert Distinct(Pool(r, Gold));
    EmptyApart(pool);
    WindowMembers(pool, cursor, count);
    hide FromPool, Separate, Apart, Distinct, Window, Only;
    OnlyMembers(Window(pool, cursor, count), pool);
    if count > 0 {
      FromPoolTakesWindow(pool, cursor, exclude, [], count);
      assert [] + Window(pool, cursor, count) == Window(pool, cursor, count);
    } else {
      OnlyMembers([], pool);
    }
  }

  /** As long as the Gold pool has as many jurors as each selection asks for, it supplies them all. */
  lemma {:induction false} GoldSupplies(r: RepStore, requests: seq<Request>)
    requires Separate(r) && r.gold != [] && Unexcluded(r.gold, requests)
    requires forall i :: 0 <= i < |requests| ==> requests[i].count <= |r.gold|
    ensures var (picks, v) := Picks(r, requests);
      |Only(picks, r.gold)| == |picks| == Asked(requests) && Separate(v) && v.gold == r.gold
  {
    if requests != [] {
      hide Selection, Separate, Apart;
      var n := |requests| - 1;
      var (before, v) := Picks(r, requests[..n]);
      GoldSupplies(r, requests[..n]);
      PicksAreOneWindow(r, requests, Gold);
      GoldSuffices(v, requests[n].minTier, requests[n].exclude, requests[n].count);
      OnlyAdds(before, Selection(v, requests[n].minTier, requests[n].exclude, requests[n].count).0, r.gold);
    }
  }

  /** Then the average is over all that was asked for. */
  lemma GoldSelectionIsFair(r: RepStore, requests: seq<Request>, juror: AccountId)
    requires Separate(r) && Unexcluded(r.gold, requests) && juror in r.gold
    requires forall i :: 0 <= i < |requests| ==> requests[i].count <= |r.gold|
    ensures FairShare(multiset(Picks(r, requests).0)[juror], Asked(requests), |r.gold|)
  {
    GoldSupplies(r, requests);
    SelectionIsFair(r, requests, Gold, juror);
  }

  /** The pools of a reachable state are separate. */
  lemma IndexSeparate(cfg: Config, r: RepStore)
    requires IndexShape(cfg, r)
    ensures Separate(r)
  {
    hide Pool;
    forall t, u, a | a in Pool(r, t) && a in Pool(r, u) ensures t == u {
      assert TierOf(r, a) == t;
    }
  }

  // ---------- exclusions within a pool ----------

  /** Three Gold jurors, and requests of one each that exclude the first juror every other time. */
  const THREE: RepStore := RepStore(map[], map[], {}, [1, 2, 3], [], [], map[], 0, map[])
  const SKEWED: seq<Request> := [
    Request(Gold, [1], 1), Request(Gold, [], 1), Request(Gold, [1], 1), Request(Gold, [], 1)]

  function At(cursor: nat): RepStore {
    THREE.(nextIndex := map[Gold := cursor])
  }

  lemma SkewedRound(r: RepStore)
    requires r == THREE || r == At(0)
    ensures Selection(r, Gold, [1], 1) == ([2], At(2))
    ensures Selection(At(2), Gold, [], 1) == ([3], At(0))
  {
    var pool, none := THREE.gold, [];
    assert none + [2] == [2] && none + [3] == [3];
    assert Scan(pool, 2, 2, [1], [2], 1) == ([2], 2);
    assert Scan(pool, 1, 1, [1], none, 1) == ([2], 2);
    assert Scan(pool, 0, 0, [1], none, 1) == ([2], 2);
    assert Scan(pool, 3, 1, none, [3], 1) == ([3], 3);
    assert Scan(pool, 2, 0, none, none, 1) == ([3], 3);
    assert r.nextIndex[Gold := 2] == map[Gold := 2];
    assert At(2).nextIndex[Gold := 0] == map[Gold := 0];
  }

  lemma OnePick(r: RepStore, requests: seq<Request>, q: Request, picks: seq<AccountId>, v: RepStore,
                sel: seq<AccountId>, u: RepStore)
    requires Picks(r, requests) == (picks, v) && Selection(v, q.minTier, q.exclude, q.count) == (sel, u)
    ensures Picks(r, requests + [q]) == (picks + sel, u)
  {
    hide Selection;
    assert (requests + [q])[..|requests|] == requests;
  }

  lemma SkewedPicks()
    ensures Picks(THREE, SKEWED).0 == [2, 3, 2, 3]
  {
    SkewedRound(THREE);
    SkewedRound(At(0));
    var some, open := Request(Gold, [1], 1), Request(Gold, [], 1);
    var none: seq<Request> := [];
    assert Picks(THREE, none) == ([], THREE);
    hide Selection, Picks, At;
    OnePick(THREE, none, some, [], THREE, [2], At(2));
    OnePick(THREE, none + [some], open, [] + [2], At(2), [3], At(0));
    OnePick(THREE, none + [some] + [open], some, [] + [2] + [3], At(0), [2], At(2));
    OnePick(THREE, none + [some] + [open] + [some], open, [] + [2] + [3] + [2], At(2), [3], At(0));
    assert none + [some] + [open] + [some] + [open] == SKEWED;
  }

  lemma SkewedShare(picks: seq<AccountId>)
    requires picks == [2, 3, 2, 3]
    ensures !FairShare(multiset(picks)[1], |picks|, 3)
  {
  }

  /** Without the premise on exclusions fairness fails: juror 1 is excluded half of the time and never chosen at all. */
  lemma ExclusionsSkew()
    ensures Separate(THREE) && 1 in THREE.gold
    ensures var picks := Picks(THREE, SKEWED).0;
      picks == [2, 3, 2, 3]
      && !FairShare(multiset(picks)[1], |Only(picks, THREE.gold)|, |THREE.gold|)
  {
    SkewedPicks();
    hide Picks, Only, FairShare;
    OnlyMembers([2, 3, 2, 3], THREE.gold);
    SkewedShare([2, 3, 2, 3]);
  }
}
