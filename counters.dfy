/** The denormalised statistic fields of a document (views, likes, owned
    properties, ...) and the store's atomic `$inc` on one of them. */
module Counters {

  /** The integer statistic fields of one document, keyed by field name. */
  type Counters = map<string, int>

  /** The value a statistic field reads as; a field the document does not
      carry reads as 0. */
  function Stat(c: Counters, key: string): int
  {
    if key in c then c[key] else 0
  }

  /** `{ $inc: { [key]: modifier } }`: adds the signed modifier to the one
      named field. A field the document does not carry yet is created and
      holds the modifier afterwards. */
  function Inc(c: Counters, key: string, modifier: int): (r: Counters)
    ensures r.Keys == c.Keys + {key}
    ensures Stat(r, key) == Stat(c, key) + modifier
    ensures forall k :: k in c && k != key ==> r[k] == c[k]
  {
    c[key := Stat(c, key) + modifier]
  }

  /** Incrementing by `a` and then by `b` is one increment by `a + b`. */
  lemma IncAdditive(c: Counters, key: string, a: int, b: int)
    ensures Inc(Inc(c, key, a), key, b) == Inc(c, key, a + b)
  {
  }

  /** An increment followed by the opposite increment leaves every field
      reading as before (the field may now be present, holding 0). */
  lemma IncUndo(c: Counters, key: string, modifier: int)
    ensures forall k :: Stat(Inc(Inc(c, key, modifier), key, -modifier), k) == Stat(c, k)
  {
    IncAdditive(c, key, modifier, -modifier);
  }
}
