/** The metadata map a table carries, and the one entry the hopper owns in it. */
module Metadata {
  import opened Engine

  /** The key under which the pending queue is stored. */
  const HopperKey: string := "hopper_filters"

  /** A metadata value: the hopper's own queue of predicates, or an entry
      written by someone else, which the hopper never looks into. */
  datatype Value = Filters(preds: seq<Pred>) | Opaque(text: string)

  type Meta = map<string, Value>

  /** The hopper's key, when present, holds a queue. */
  predicate WellFormed(m: Meta)
  {
    HopperKey in m ==> m[HopperKey].Filters?
  }

  /** The stored queue, read with an empty default as `meta.get("hopper_filters", [])` does. */
  function PendingOf(m: Meta): (q: seq<Pred>)
    requires WellFormed(m)
    ensures HopperKey !in m ==> q == []
    ensures HopperKey in m ==> m[HopperKey] == Filters(q)
  {
    if HopperKey in m then m[HopperKey].preds else []
  }

  /** `m` with the hopper's entry set to `q` and every other entry kept. */
  function WithPending(m: Meta, q: seq<Pred>): (r: Meta)
    ensures WellFormed(r)
    ensures PendingOf(r) == q
    ensures r.Keys == m.Keys + {HopperKey}
    ensures forall k :: k in m && k != HopperKey ==> r[k] == m[k]
  {
    m[HopperKey := Filters(q)]
  }
}
