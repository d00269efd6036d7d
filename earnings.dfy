/** The simulated "today's earnings" ranking and the tick that perturbs it:
    adjust some amounts (floored at 1000), maybe push a new entrant, sort by
    amount from highest to lowest, keep the first ten. */
module Earnings {

  /** No amount is ever adjusted below this floor. */
  const MinAmount := 1000
  /** The ranking keeps at most this many entries. */
  const MaxEntries := 10
  /** The range of one entry's random adjustment. */
  const MinChange := -500
  const MaxChange := 1000
  /** The range of a new entrant's random amount. */
  const MinNewAmount := 2000
  const MaxNewAmount := 15000

  /** One row of the ranking. */
  datatype Entry = Entry(id: int, name: string, amount: int)

  /** The draw made for one existing entry: leave it, or add `change` to its amount. */
  datatype EntryDraw = Keep | Adjust(change: int)

  /** The draw made once per tick: no new entrant, or one with this name and amount. */
  datatype AppendDraw = NoEntrant | Entrant(name: string, amount: int)

  /** A per-entry draw the tick can make. */
  predicate AdmissibleEntryDraw(d: EntryDraw) {
    d.Adjust? ==> MinChange <= d.change <= MaxChange
  }

  /** An append draw the tick can make. */
  predicate AdmissibleAppendDraw(a: AppendDraw) {
    a.Entrant? ==> MinNewAmount <= a.amount <= MaxNewAmount
  }

  predicate AllAtLeastMin(s: seq<Entry>) {
    forall e :: e in s ==> e.amount >= MinAmount
  }

  /** Non-increasing by amount: the order of the comparator `b.amount - a.amount`. */
  predicate Sorted(s: seq<Entry>) {
    forall i, j :: 0 <= i < j < |s| ==> s[i].amount >= s[j].amount
  }

  function Min(a: int, b: int): int {
    if a <= b then a else b
  }

  // ---------------------------------------------------------------------------
  // Step 1: the per-entry update (the `map` over the list)

  /** An adjusted entry keeps its id and name and gets `max(1000, amount + change)`;
      a kept entry is returned as it is. */
  function UpdateEntry(e: Entry, d: EntryDraw): (r: Entry)
    ensures r.id == e.id && r.name == e.name
    ensures d.Keep? ==> r == e
    ensures d.Adjust? ==> r.amount >= MinAmount && r.amount >= e.amount + d.change
    ensures d.Adjust? ==> r.amount == MinAmount || r.amount == e.amount + d.change
  {
    match d
    case Keep => e
    case Adjust(change) =>
      e.(amount := if MinAmount > e.amount + change then MinAmount else e.amount + change)
  }

  /** The list after every entry has met its own draw, position by position. */
  function UpdateAll(data: seq<Entry>, draws: seq<EntryDraw>): (r: seq<Entry>)
    requires |draws| == |data|
    ensures |r| == |data|
    ensures forall i :: 0 <= i < |data| ==> r[i] == UpdateEntry(data[i], draws[i])
  {
    if data == [] then []
    else [UpdateEntry(data[0], draws[0])] + UpdateAll(data[1..], draws[1..])
  }

  /** A tick that draws `Keep` for every entry leaves the list as it is. */
  lemma UpdateAllKeep(data: seq<Entry>, draws: seq<EntryDraw>)
    requires |draws| == |data|
    requires forall i :: 0 <= i < |draws| ==> draws[i] == Keep
    ensures UpdateAll(data, draws) == data
  {
  }

  /** The update never takes an amount below the floor it started above. */
  lemma UpdateAllKeepsFloor(data: seq<Entry>, draws: seq<EntryDraw>)
    requires |draws| == |data|
    requires AllAtLeastMin(data)
    ensures AllAtLeastMin(UpdateAll(data, draws))
  {
  }

  // ---------------------------------------------------------------------------
  // Step 2: the optional new entrant (the `push`)

  /** The new entrant, if any, goes to the end with id "current length + 1". */
  function Pushed(data: seq<Entry>, add: AppendDraw): (r: seq<Entry>)
    ensures add.NoEntrant? ==> r == data
    ensures add.Entrant? ==> |r| == |data| + 1 && r[..|data|] == data
    ensures add.Entrant? ==> r[|data|] == Entry(|data| + 1, add.name, add.amount)
  {
    match add
    case NoEntrant => data
    case Entrant(name, amount) => data + [Entry(|data| + 1, name, amount)]
  }

  // ---------------------------------------------------------------------------
  // Step 3: the stable sort by amount, highest first

  /** Places `e` before the first entry whose amount does not exceed its own. */
  function Insert(e: Entry, s: seq<Entry>): (r: seq<Entry>)
    requires Sorted(s)
    ensures Sorted(r)
    ensures multiset(r) == multiset(s) + multiset{e}
    ensures |r| == |s| + 1
  {
    if s == [] || e.amount >= s[0].amount then [e] + s
    else
      var rest := Insert(e, s[1..]);
      assert AllAtMost(s[1..], s[0].amount);
      AtMostTransfers(s[1..], e, rest, s[0].amount);
      ConsSorted(s[0], rest);
      assert s == [s[0]] + s[1..];
      [s[0]] + rest
  }

  /** Every amount in `s` is at most `m`. */
  predicate AllAtMost(s: seq<Entry>, m: int) {
    forall i :: 0 <= i < |s| ==> s[i].amount <= m
  }

  /** A bound on every amount holds of any rearrangement of the entries plus one more within it. */
  lemma AtMostTransfers(s: seq<Entry>, e: Entry, t: seq<Entry>, m: int)
    requires AllAtMost(s, m) && e.amount <= m
    requires multiset(t) == multiset(s) + multiset{e}
    ensures AllAtMost(t, m)
  {
    forall i | 0 <= i < |t|
      ensures t[i].amount <= m
    {
      assert t[i] in multiset(t);
      if t[i] != e {
        assert t[i] in multiset(s);
        var k :| 0 <= k < |s| && s[k] == t[i];
      }
    }
  }

  lemma ConsSorted(h: Entry, t: seq<Entry>)
    requires Sorted(t)
    requires AllAtMost(t, h.amount)
    ensures Sorted([h] + t)
  {
  }

  /** `Array.prototype.sort` with comparator `(a, b) => b.amount - a.amount`. */
  function SortByAmount(s: seq<Entry>): (r: seq<Entry>)
    ensures Sorted(r)
    ensures multiset(r) == multiset(s)
    ensures |r| == |s|
  {
    if s == [] then []
    else
      assert s == [s[0]] + s[1..];
      Insert(s[0], SortByAmount(s[1..]))
  }

  /** The entries of `s` whose amount is `a`, in their order in `s`. */
  function WithAmount(s: seq<Entry>, a: int): seq<Entry> {
    if s == [] then []
    else (if s[0].amount == a then [s[0]] else []) + WithAmount(s[1..], a)
  }

  lemma WithAmountCons(h: Entry, t: seq<Entry>, a: int)
    ensures WithAmount([h] + t, a) == (if h.amount == a then [h] else []) + WithAmount(t, a)
  {
    assert ([h] + t)[1..] == t;
  }

  lemma {:induction false} InsertStable(e: Entry, s: seq<Entry>, a: int)
    requires Sorted(s)
    ensures WithAmount(Insert(e, s), a) == (if e.amount == a then [e] else []) + WithAmount(s, a)
  {
    if s == [] || e.amount >= s[0].amount {
      WithAmountCons(e, s, a);
    } else {
      InsertStable(e, s[1..], a);
      InsertBelowHead(e, s);
      WithAmountPastHead(e, s[0], Insert(e, s[1..]), s[1..], a);
      assert [s[0]] + s[1..] == s;
    }
  }

  lemma InsertBelowHead(e: Entry, s: seq<Entry>)
    requires Sorted(s) && s != [] && e.amount < s[0].amount
    ensures Insert(e, s) == [s[0]] + Insert(e, s[1..])
  {
  }

  /** Putting `h` in front keeps `e` ahead of the other entries of its amount,
      as long as `h` has a different amount. */
  lemma WithAmountPastHead(e: Entry, h: Entry, rest: seq<Entry>, tail: seq<Entry>, a: int)
    requires h.amount != e.amount
    requires WithAmount(rest, a) == (if e.amount == a then [e] else []) + WithAmount(tail, a)
    ensures WithAmount([h] + rest, a) == (if e.amount == a then [e] else []) + WithAmount([h] + tail, a)
  {
    WithAmountCons(h, rest, a);
    WithAmountCons(h, tail, a);
    var front, head := (if e.amount == a then [e] else []), (if h.amount == a then [h] else []);
    assert front == [] || head == [];
    assert head + (front + WithAmount(tail, a)) == front + (head + WithAmount(tail, a));
  }

  /** The sort is stable: entries of equal amount keep their relative order. */
  lemma {:induction false} SortStable(s: seq<Entry>, a: int)
    ensures WithAmount(SortByAmount(s), a) == WithAmount(s, a)
  {
    if s != [] {
      SortStable(s[1..], a);
      InsertStable(s[0], SortByAmount(s[1..]), a);
    }
  }

  lemma {:induction false} WithAmountMembers(s: seq<Entry>, a: int, x: Entry)
    requires x in WithAmount(s, a)
    ensures x in s && x.amount == a
  {
    if s != [] && !(s[0].amount == a && x == s[0]) {
      assert x in WithAmount(s[1..], a);
      WithAmountMembers(s[1..], a, x);
    }
  }

  lemma WithAmountOfHead(s: seq<Entry>)
    ensures s != [] ==> WithAmount(s, s[0].amount) != []
  {
  }

  /** Two sorted lists that agree on the order of every amount start with the same
      entry and agree on the rest after it. */
  lemma SortedHeads(t1: seq<Entry>, t2: seq<Entry>)
    requires t1 != [] && t2 != []
    requires Sorted(t1) && Sorted(t2)
    requires forall a :: WithAmount(t1, a) == WithAmount(t2, a)
    ensures t1[0] == t2[0]
    ensures forall b :: WithAmount(t1[1..], b) == WithAmount(t2[1..], b)
  {
    var a1, a2 := t1[0].amount, t2[0].amount;
    WithAmountOfHead(t1);
    WithAmountOfHead(t2);
    WithAmountMembers(t2, a1, WithAmount(t2, a1)[0]);
    WithAmountMembers(t1, a2, WithAmount(t1, a2)[0]);
    assert a1 == a2;
    assert WithAmount(t1, a1) == [t1[0]] + WithAmount(t1[1..], a1);
    assert WithAmount(t2, a1) == [t2[0]] + WithAmount(t2[1..], a1);
    forall b
      ensures WithAmount(t1[1..], b) == WithAmount(t2[1..], b)
    {
      if b == a1 {
        assert WithAmount(t1, b)[1..] == WithAmount(t1[1..], b);
        assert WithAmount(t2, b)[1..] == WithAmount(t2[1..], b);
      } else {
        assert WithAmount(t1, b) == WithAmount(t1[1..], b);
        assert WithAmount(t2, b) == WithAmount(t2[1..], b);
      }
    }
  }

  /** A stable sort has only one possible result: two sorted lists that agree on
      the order of the entries of every amount are the same list. */
  lemma {:induction false} SortedUnique(t1: seq<Entry>, t2: seq<Entry>)
    requires Sorted(t1) && Sorted(t2)
    requires forall a :: WithAmount(t1, a) == WithAmount(t2, a)
    ensures t1 == t2
    decreases |t1|
  {
    BothEmptyOrNeither(t1, t2);
    if t1 != [] {
      SortedHeads(t1, t2);
      SortedUnique(t1[1..], t2[1..]);
      assert t1 == [t1[0]] + t1[1..] && t2 == [t2[0]] + t2[1..];
    }
  }

  lemma BothEmptyOrNeither(t1: seq<Entry>, t2: seq<Entry>)
    requires forall a :: WithAmount(t1, a) == WithAmount(t2, a)
    ensures t1 == [] <==> t2 == []
  {
    WithAmountOfHead(t1);
    WithAmountOfHead(t2);
    if t1 != [] {
      assert WithAmount(t2, t1[0].amount) != [];
    }
    if t2 != [] {
      assert WithAmount(t1, t2[0].amount) != [];
    }
  }

  /** The sort is characterised by its contract: the sorted arrangement of `s` that
      keeps equal amounts in their order in `s` is `SortByAmount(s)`, and no other. */
  lemma SortIsTheStableSort(s: seq<Entry>, t: seq<Entry>)
    requires Sorted(t)
    requires forall a :: WithAmount(t, a) == WithAmount(s, a)
    ensures t == SortByAmount(s)
  {
    forall a
      ensures WithAmount(t, a) == WithAmount(SortByAmount(s), a)
    {
      SortStable(s, a);
    }
    SortedUnique(t, SortByAmount(s));
  }

  // ---------------------------------------------------------------------------
  // Step 4: the truncation (the `slice(0, 10)`)

  /** The first ten entries, or all of them when there are no more than ten. */
  function Truncate(s: seq<Entry>): (r: seq<Entry>)
    ensures |r| == Min(|s|, MaxEntries)
    ensures r == s[..|r|]
    ensures multiset(r) <= multiset(s)
  {
    assert s == s[..Min(|s|, MaxEntries)] + s[Min(|s|, MaxEntries)..];
    if |s| > MaxEntries then s[..MaxEntries] else s
  }

  // ---------------------------------------------------------------------------
  // The whole tick

  /** The list the tick sorts: every entry updated, then the entrant pushed. */
  function Staged(data: seq<Entry>, draws: seq<EntryDraw>, add: AppendDraw): seq<Entry>
    requires |draws| == |data|
  {
    Pushed(UpdateAll(data, draws), add)
  }

  /** One earnings tick under the given draws. */
  function Tick(data: seq<Entry>, draws: seq<EntryDraw>, add: AppendDraw): (r: seq<Entry>)
    requires |draws| == |data|
    ensures Sorted(r)
    ensures |r| == Min(|data| + (if add.Entrant? then 1 else 0), MaxEntries)
  {
    Truncate(SortByAmount(Staged(data, draws, add)))
  }

  /** Amounts stay at or above the floor across a tick, and the entrant starts above it. */
  lemma TickKeepsFloor(data: seq<Entry>, draws: seq<EntryDraw>, add: AppendDraw)
    requires |draws| == |data|
    requires AllAtLeastMin(data)
    requires AdmissibleAppendDraw(add)
    ensures AllAtLeastMin(Tick(data, draws, add))
  {
    var u := Staged(data, draws, add);
    UpdateAllKeepsFloor(data, draws);
    assert AllAtLeastMin(u);
    var r := Tick(data, draws, add);
    forall e | e in r
      ensures e.amount >= MinAmount
    {
      assert e in multiset(r);
    }
  }

  /** Truncation keeps the top of the ranking: every entry the tick drops has an
      amount no greater than any entry it keeps. */
  lemma TickKeepsTop(data: seq<Entry>, draws: seq<EntryDraw>, add: AppendDraw)
    requires |draws| == |data|
    ensures multiset(Tick(data, draws, add)) <= multiset(Staged(data, draws, add))
    ensures forall x: Entry, y: Entry ::
              x in multiset(Staged(data, draws, add)) - multiset(Tick(data, draws, add)) &&
              y in Tick(data, draws, add)
              ==> x.amount <= y.amount
  {
    var s := SortByAmount(Staged(data, draws, add));
    assert Tick(data, draws, add) == s[..|Tick(data, draws, add)|];
    SortedPrefixIsTop(s, |Tick(data, draws, add)|);
  }

  /** In a sorted list, what follows a prefix ranks no higher than the prefix. */
  lemma SortedPrefixIsTop(s: seq<Entry>, k: nat)
    requires Sorted(s)
    requires k <= |s|
    ensures multiset(s[..k]) <= multiset(s)
    ensures forall x: Entry, y: Entry ::
              x in multiset(s) - multiset(s[..k]) && y in s[..k] ==> x.amount <= y.amount
  {
    assert s == s[..k] + s[k..];
    assert multiset(s) - multiset(s[..k]) == multiset(s[k..]);
    forall x: Entry, y: Entry | x in multiset(s) - multiset(s[..k]) && y in s[..k]
      ensures x.amount <= y.amount
    {
      assert x in s[k..];
      var j :| k <= j < |s| && s[j] == x;
      var i :| 0 <= i < k && s[i] == y;
    }
  }

  /** Nothing is dropped while the staged list fits: the tick then only reorders. */
  lemma TickDropsOnlyOverflow(data: seq<Entry>, draws: seq<EntryDraw>, add: AppendDraw)
    requires |draws| == |data|
    requires |Staged(data, draws, add)| <= MaxEntries
    ensures multiset(Tick(data, draws, add)) == multiset(Staged(data, draws, add))
  {
  }

  /** A new entrant is ranked with id "length before the push + 1", and survives
      the tick whenever the list held fewer than ten entries. */
  lemma TickEntrant(data: seq<Entry>, draws: seq<EntryDraw>, add: AppendDraw)
    requires |draws| == |data|
    requires add.Entrant?
    ensures Entry(|data| + 1, add.name, add.amount) in Staged(data, draws, add)
    ensures |data| < MaxEntries ==> Entry(|data| + 1, add.name, add.amount) in Tick(data, draws, add)
  {
    var u := Staged(data, draws, add);
    var e := Entry(|data| + 1, add.name, add.amount);
    assert u[|data|] == e;
    if |data| < MaxEntries {
      TickDropsOnlyOverflow(data, draws, add);
      assert e in multiset(Tick(data, draws, add));
    }
  }

  /** When at most one entry of `u` is missing from `r`, and no missing entry
      outranks a kept one, an entry that outranks another entry of `u` is kept. */
  lemma KeptUnlessLowest(u: seq<Entry>, r: seq<Entry>, x: Entry, z: Entry)
    requires multiset(r) <= multiset(u)
    requires |u| <= |r| + 1
    requires forall a: Entry, b: Entry ::
               a in multiset(u) - multiset(r) && b in r ==> a.amount <= b.amount
    requires x in u && z in u && z.amount < x.amount
    ensures x in r
  {
    var dropped := multiset(u) - multiset(r);
    assert multiset(u) == multiset(r) + dropped;
    if x !in r {
      assert z !in r;
      TwoMembers(dropped, x, z);
      assert false;
    }
  }

  lemma TwoMembers(m: multiset<Entry>, x: Entry, z: Entry)
    requires x in m && z in m && x != z
    ensures |m| >= 2
  {
    var rest := m - multiset{x};
    assert z in rest;
    assert m == multiset{x} + rest;
  }

  /** While a tick drops at most one entry, an entry that outranks some other
      staged entry is kept: only a lowest-ranked entry can be the one dropped. */
  lemma TickKeepsOutranking(data: seq<Entry>, draws: seq<EntryDraw>, add: AppendDraw, x: Entry, z: Entry)
    requires |draws| == |data|
    requires |Staged(data, draws, add)| <= MaxEntries + 1
    requires x in Staged(data, draws, add) && z in Staged(data, draws, add)
    requires z.amount < x.amount
    ensures x in Tick(data, draws, add)
  {
    TickKeepsTop(data, draws, add);
    KeptUnlessLowest(Staged(data, draws, add), Tick(data, draws, add), x, z);
  }

  /** The entrant's id is not fresh. Once the list is full, every entrant gets id
      11; an id-11 entry kept from an earlier tick then shares its id with the
      new entrant whenever both outrank some other entry. */
  lemma EntrantIdRepeatsOnFullList(data: seq<Entry>, draws: seq<EntryDraw>, add: AppendDraw,
                                   x: Entry, z: Entry)
    requires |data| == MaxEntries && |draws| == |data|
    requires add.Entrant?
    requires x in UpdateAll(data, draws) && x.id == MaxEntries + 1
    requires z in UpdateAll(data, draws) && z.amount < x.amount && z.amount < add.amount
    ensures x in Tick(data, draws, add)
    ensures Entry(MaxEntries + 1, add.name, add.amount) in Tick(data, draws, add)
  {
    var u := Staged(data, draws, add);
    var e := Entry(MaxEntries + 1, add.name, add.amount);
    assert u == UpdateAll(data, draws) + [e];
    assert x in u && z in u && e in u;
    TickKeepsOutranking(data, draws, add, x, z);
    TickKeepsOutranking(data, draws, add, e, z);
  }

  /** A full ranking, in descending order of amount, whose top entry is an earlier
      entrant: the next entrant that outranks its last entry repeats id 11. */
  lemma EntrantIdMayRepeat()
    ensures var data := [
              Entry(11, "User****aa", 15000), Entry(2, "Merr**RSY", 13000),
              Entry(3, "Merr**IUC", 12000), Entry(4, "Merr**CPF", 11000),
              Entry(6, "Merr**O9L", 10000), Entry(5, "Merr**BGX", 9000),
              Entry(7, "Man****av", 8000), Entry(8, "User****cc", 7000),
              Entry(9, "User****dd", 6000), Entry(10, "User****ee", 5000)];
            var r := Tick(data, seq(MaxEntries, _ => Keep), Entrant("User****bb", 14000));
            Entry(11, "User****aa", 15000) in r && Entry(11, "User****bb", 14000) in r
  {
    var data := [
      Entry(11, "User****aa", 15000), Entry(2, "Merr**RSY", 13000),
      Entry(3, "Merr**IUC", 12000), Entry(4, "Merr**CPF", 11000),
      Entry(6, "Merr**O9L", 10000), Entry(5, "Merr**BGX", 9000),
      Entry(7, "Man****av", 8000), Entry(8, "User****cc", 7000),
      Entry(9, "User****dd", 6000), Entry(10, "User****ee", 5000)];
    var draws := seq(MaxEntries, _ => Keep);
    UpdateAllKeep(data, draws);
    EntrantIdRepeatsOnFullList(data, draws, Entrant("User****bb", 14000), data[0], data[9]);
  }
}
