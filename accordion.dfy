/**
 * The FAQ accordion: a set of open item values, toggled by clicking an
 * item's trigger. In "single" mode (the default) at most one item is open;
 * in "multiple" mode each item opens and closes on its own.
 */
module Accordion {

  /** A JavaScript `Set<string>` object: a mutable set behind a reference. */
  class JsSet {
    var items: set<string>

    /** `new Set()`. */
    constructor Empty()
      ensures items == {}
    {
      items := {};
    }

    /** `new Set(prev)`: a new object with the same members. */
    constructor Copy(prev: JsSet)
      ensures items == prev.items
    {
      items := prev.items;
    }

    method Has(v: string) returns (b: bool)
      ensures b <==> v in items
    {
      b := v in items;
    }

    method Clear()
      modifies this
      ensures items == {}
    {
      items := {};
    }

    method Add(v: string)
      modifies this
      ensures items == old(items) + {v}
    {
      items := items + {v};
    }

    method Delete(v: string)
      modifies this
      ensures items == old(items) - {v}
    {
      items := items - {v};
    }
  }

  /** The set that one toggle of `value` produces from `prev`. */
  function Toggled(prev: set<string>, value: string, single: bool): (r: set<string>)
    ensures value in r <==> value !in prev
    ensures single ==> r <= {value}
    ensures !single ==> forall v :: v != value ==> (v in r <==> v in prev)
  {
    if single then
      if value in prev then {} else {value}
    else
      if value in prev then prev - {value} else prev + {value}
  }

  /** In single mode no toggle opens a second item. */
  lemma SingleAtMostOne(prev: set<string>, value: string)
    ensures |Toggled(prev, value, true)| <= 1
  {
    var r := Toggled(prev, value, true);
    if value in r {
      assert r == {value};
    } else {
      assert r == {};
    }
  }

  /** In single mode, toggling an open item closes everything; toggling a closed one leaves only it open. */
  lemma SingleToggle(prev: set<string>, value: string)
    ensures value in prev ==> Toggled(prev, value, true) == {}
    ensures value !in prev ==> Toggled(prev, value, true) == {value}
  {
  }

  /** In multiple mode, toggling the same value twice restores the set. */
  lemma MultipleToggleTwice(prev: set<string>, value: string)
    ensures Toggled(Toggled(prev, value, false), value, false) == prev
  {
    var once := Toggled(prev, value, false);
    var twice := Toggled(once, value, false);
    assert forall v :: v in twice <==> v in prev;
  }

  class AccordionState {
    /** `type === "single"`. */
    const single: bool
    var openItems: JsSet

    /** An item is open when its value is in the open set. */
    predicate IsOpen(value: string)
      reads this, openItems
    {
      value in openItems.items
    }

    /** In single mode, at most one item is open. */
    predicate Valid()
      reads this, openItems
    {
      single ==> |openItems.items| <= 1
    }

    /** A fresh accordion: nothing open. */
    constructor (single: bool)
      ensures this.single == single
      ensures fresh(openItems)
      ensures forall v :: !IsOpen(v)
      ensures Valid()
    {
      this.single := single;
      openItems := new JsSet.Empty();
    }

    /**
     * `toggleItem`: copy the open set, change the copy, install it. The old
     * set object is left as it was.
     */
    method ToggleItem(value: string)
      requires Valid()
      modifies this
      ensures Valid()
      ensures fresh(openItems)
      ensures unchanged(old(openItems))
      ensures openItems.items == Toggled(old(openItems.items), value, single)
      ensures IsOpen(value) <==> !old(IsOpen(value))
      ensures single ==> forall v :: v != value ==> !IsOpen(v)
      ensures !single ==> forall v :: v != value ==> (IsOpen(v) <==> old(IsOpen(v)))
    {
      var newSet := new JsSet.Copy(openItems);
      var has := newSet.Has(value);
      if single {
        if has {
          newSet.Clear();
        } else {
          newSet.Clear();
          newSet.Add(value);
        }
      } else {
        if has {
          newSet.Delete(value);
        } else {
          newSet.Add(value);
        }
      }
      openItems := newSet;
      SingleAtMostOne(old(openItems.items), value);
    }
  }
}
