/** eval/budget.py: the spend ledger and the guard that stops a run at the cap. */
module Budget {
  import opened Wrappers
  import opened Aggregates
  import opened Rounding

  datatype Entry = Entry(name: string, cost: real)

  function Costs(entries: seq<Entry>): seq<real> {
    seq(|entries|, i requires 0 <= i < |entries| => entries[i].cost)
  }

  function Larger(a: real, b: real): real { if a < b then b else a }

  /** The entries in memory and in the file, which a restart reads back. */
  class Ledger {
    var entries: seq<Entry>
    var file: Option<seq<Entry>>

    constructor Load(stored: Option<seq<Entry>>)
      ensures file == stored && entries == if stored.None? then [] else stored.value
    {
      file := stored;
      entries := if stored.None? then [] else stored.value;
    }

    function Spent(): real
      reads this
    {
      Sum(Costs(entries))
    }

    method Record(name: string, cost: real)
      modifies this
      ensures entries == old(entries) + [Entry(name, ToMicros(cost))] && file == Some(entries)
      ensures Spent() == old(Spent()) + ToMicros(cost)
      ensures -0.0000005 <= Spent() - old(Spent()) - cost <= 0.0000005
    {
      ToMicrosIsNear(cost);
      entries := entries + [Entry(name, ToMicros(cost))];
      file := Some(entries);
      SumConcat(Costs(old(entries)), [ToMicros(cost)]);
      assert Costs(entries) == Costs(old(entries)) + [ToMicros(cost)];
      assert Sum([ToMicros(cost)]) == ToMicros(cost);
    }
  }

  class BudgetGuard {
    const ledger: Ledger
    const name: string
    const estimate: real
    const cap: real
    var baseline: Option<real>
    var latest: real

    constructor (l: Ledger, title: string, projection: real, limit: real)
      ensures ledger == l && name == title && estimate == projection && cap == limit && baseline == None
              && latest == 0.0
    {
      ledger, name, estimate, cap := l, title, projection, limit;
      baseline, latest := None, 0.0;
    }

    /** Refuses before anything is spent. */
    method Preflight() returns (refused: bool)
      ensures refused <==> ledger.Spent() + estimate > cap
    {
      refused := ledger.Spent() + estimate > cap;
    }

    /** The first observation is the baseline, and spends nothing. */
    method Observe(total: real)
      modifies this
      ensures baseline == if old(baseline).None? then Some(total) else old(baseline)
      ensures latest == Larger(0.0, total - baseline.value)
    {
      if baseline.None? {
        baseline := Some(total);
      }
      latest := Larger(0.0, total - baseline.value);
    }

    method Check() returns (exceeded: bool)
      ensures exceeded <==> ledger.Spent() + latest > cap
    {
      exceeded := ledger.Spent() + latest > cap;
    }

    method Commit()
      modifies ledger
      ensures ledger.entries == old(ledger.entries) + [Entry(name, ToMicros(latest))]
      ensures ledger.Spent() == old(ledger.Spent()) + ToMicros(latest)
    {
      ledger.Record(name, latest);
    }
  }
}
