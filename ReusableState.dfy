/**
 * composables/useReusableState.ts: the Proxy placed over the object a
 * composable returns. Reading a property unwraps a ref (`unref`); writing a
 * property stores into the ref it holds, keeping the cell the composable's
 * own closures captured, or else replaces the property.
 *
 * Refs are heap cells (`Ref`); the composable's returned object is the map
 * `target` from property names to what each property holds.
 */
module ReusableState {

  /** The JavaScript values the composables of this program keep in their state. */
  datatype Value = Undefined | Bool(b: bool) | Str(s: string) | Callable(name: string)

  /** A Vue `ref`: a mutable cell with a `.value`. */
  class Ref {
    var value: Value

    constructor (v: Value)
      ensures value == v
    {
      value := v;
    }
  }

  /** What one property of the composable's object holds: a ref, or anything else. */
  datatype Field = IsRef(cell: Ref) | NotRef(v: Value)

  /** The object returned by `new Proxy(state, { get, set })`. */
  class Proxy {
    var target: map<string, Field>

    /** The ref cells the properties currently hold. */
    ghost function Cells(): set<Ref>
      reads this
    {
      set p | p in target && target[p].IsRef? :: target[p].cell
    }

    /**
     * `isRef(target[prop])`; a missing property is `undefined`, not a ref.
     * A property that holds a ref holds one of the proxy's cells.
     */
    predicate HoldsRef(prop: string)
      reads this
      ensures HoldsRef(prop) ==> prop in target && target[prop].IsRef? && target[prop].cell in Cells()
    {
      prop in target && target[prop].IsRef?
    }

    /** Two properties hold the very same ref cell. */
    predicate ShareCell(p: string, q: string)
      reads this
    {
      HoldsRef(p) && HoldsRef(q) && target[p].cell == target[q].cell
    }

    /**
     * `new Proxy(state, handler)`. The object is kept as a map value, so it
     * is copied here; that cannot be observed, because nothing but the proxy
     * holds the object the composable returned.
     */
    constructor (state: map<string, Field>)
      ensures target == state
    {
      target := state;
    }

    /**
     * The `get` trap, `unref(target[prop])`: the current value of a ref,
     * a plain property as it is, `undefined` for a property the object does
     * not own (properties inherited from `Object.prototype` are not modelled).
     */
    function Get(prop: string): (r: Value)
      reads this, Cells()
      ensures prop !in target ==> r == Undefined
      ensures HoldsRef(prop) ==> r == target[prop].cell.value
      ensures prop in target && target[prop].NotRef? ==> r == target[prop].v
    {
      if prop !in target then Undefined
      else match target[prop]
        case IsRef(c) => c.value
        case NotRef(v) => v
    }

    /**
     * The `set` trap. A property holding a ref keeps that very cell and the
     * cell receives the value, so the composable's closures see it; any other
     * property (an absent one included) is replaced by the value. The trap
     * always reports success. Nothing else changes: other properties, and
     * every other cell, keep their values; only a property sharing the
     * written cell reads the new value too.
     */
    method Set(prop: string, value: Value) returns (ok: bool)
      modifies this, Cells()
      ensures ok
      ensures Get(prop) == value
      ensures old(HoldsRef(prop)) ==>
                target == old(target) && target[prop].cell.value == value
      ensures !old(HoldsRef(prop)) ==> target == old(target)[prop := NotRef(value)]
      ensures Cells() == old(Cells())
      ensures forall c :: c in old(Cells()) && !(old(HoldsRef(prop)) && c == old(target[prop].cell)) ==>
                c.value == old(c.value)
      ensures forall q :: q in old(target) && q != prop && !old(ShareCell(q, prop)) ==>
                q in target && Get(q) == old(Get(q))
      ensures forall q :: q in old(target) && old(ShareCell(q, prop)) ==> Get(q) == value
    {
      if HoldsRef(prop) {
        target[prop].cell.value := value;
        return true;
      }
      target := target[prop := NotRef(value)];
      forall c ensures c in Cells() <==> c in old(Cells()) {
        if c in old(Cells()) {
          var p :| p in old(target) && old(target)[p].IsRef? && old(target)[p].cell == c;
          assert p != prop && target[p] == old(target)[p];
        }
      }
      return true;
    }
  }
}
