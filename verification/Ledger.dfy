/** Sums and filters over the append-only entry history. */
module Ledger {
  import opened Sums
  import opened Tables

  function EntrySum(es: seq<Entry>, account: string, side: EntryType): int {
    if es == [] then 0
    else
      var e := es[|es| - 1];
      EntrySum(es[..|es| - 1], account, side) + if e.account == account && e.side == side then e.amount else 0
  }

  function SideTotal(es: seq<Entry>, side: EntryType): int {
    if es == [] then 0
    else SideTotal(es[..|es| - 1], side) + if es[|es| - 1].side == side then es[|es| - 1].amount else 0
  }

  /** The entries of one transaction, in posting order. */
  function EntriesFor(es: seq<Entry>, x: Id): seq<Entry> {
    if es == [] then []
    else EntriesFor(es[..|es| - 1], x) + if es[|es| - 1].transaction == x then [es[|es| - 1]] else []
  }

  lemma AppendPair(es: seq<Entry>, d: Entry, c: Entry)
    ensures forall a, side :: EntrySum(es + [d, c], a, side) == EntrySum(es, a, side)
              + (if d.account == a && d.side == side then d.amount else 0)
              + (if c.account == a && c.side == side then c.amount else 0)
    ensures forall side :: SideTotal(es + [d, c], side) == SideTotal(es, side)
              + (if d.side == side then d.amount else 0) + (if c.side == side then c.amount else 0)
    ensures forall x :: EntriesFor(es + [d, c], x) == EntriesFor(es, x)
              + (if d.transaction == x then [d] else []) + (if c.transaction == x then [c] else [])
  {
    var one, two := es + [d], es + [d, c];
    assert one[..|one| - 1] == es && two[..|two| - 1] == one;
  }

  /** Filtering by transaction loses no entry and invents none. */
  lemma {:induction false} EntriesForCounts(es: seq<Entry>, e: Entry)
    ensures multiset(EntriesFor(es, e.transaction))[e] == multiset(es)[e]
  {
    if es != [] {
      var front, last := es[..|es| - 1], es[|es| - 1];
      EntriesForCounts(front, e);
      assert es == front + [last];
      assert multiset(es) == multiset(front) + multiset{last};
      var kept := if last.transaction == e.transaction then [last] else [];
      assert multiset(EntriesFor(front, e.transaction) + kept)
          == multiset(EntriesFor(front, e.transaction)) + multiset(kept);
    }
  }
}
