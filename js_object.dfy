/**
 * The breakdown loops as JavaScript runs them on a plain object `{}`.
 *
 * `obj[k]` on `{}` also finds the members every object inherits from
 * Object.prototype (section 20.1.3 of ECMA-262, and the `__proto__`
 * accessor and `__defineGetter__` family of its Annex B). A category or
 * source that names one of them does not start from 0: the inherited
 * function (or object) is truthy, so `(obj[k] || 0) + amount` concatenates
 * strings, and a write to `__proto__` that is not an object is dropped.
 * The rest of the model uses Records.GroupTotals, the grouping intended.
 */
module JsObject {
  import opened Records

  /** What reading a property of the breakdown object yields, as far as the loop cares. */
  datatype Slot = Missing | Number(n: int) | NonNumber

  /** The property names a plain object inherits. */
  const Inherited: set<string> := {
    "constructor", "hasOwnProperty", "isPrototypeOf", "propertyIsEnumerable",
    "toLocaleString", "toString", "valueOf", "__proto__",
    "__defineGetter__", "__defineSetter__", "__lookupGetter__", "__lookupSetter__"
  }

  /** `obj[k]`: an own property, else an inherited member, else undefined. */
  function Read(own: map<string, Slot>, k: string): Slot
  {
    if k in own then own[k] else if k in Inherited then NonNumber else Missing
  }

  /** `(v || 0) + amount` */
  function Add(v: Slot, amount: int): Slot
  {
    match v
    case Missing => Number(amount)
    case Number(n) => Number(n + amount)
    case NonNumber => NonNumber
  }

  /** `obj[k] = v`: the `__proto__` setter ignores a value that is not an object. */
  function Write(own: map<string, Slot>, k: string, v: Slot): map<string, Slot>
  {
    if k == "__proto__" then own else own[k := v]
  }

  /** The own properties of the breakdown object after the `forEach` loop. */
  function GroupAsWritten(es: seq<Entry>): map<string, Slot>
  {
    if es == [] then map[]
    else
      var own := GroupAsWritten(es[..|es| - 1]);
      var e := es[|es| - 1];
      Write(own, e.group, Add(Read(own, e.group), e.amount))
  }

  /**
   * Where no group names an inherited member, the object holds exactly the
   * intended group totals.
   */
  lemma {:induction false} AsWrittenAgreesOffPrototype(es: seq<Entry>)
    requires forall i :: 0 <= i < |es| ==> es[i].group !in Inherited
    ensures GroupAsWritten(es) == map k | k in GroupTotals(es) :: Number(GroupTotals(es)[k])
  {
    if es != [] {
      var init, e := es[..|es| - 1], es[|es| - 1];
      assert es == init + [e];
      AsWrittenAgreesOffPrototype(init);
      GroupTotalsSnoc(init, e);
    }
  }

  /**
   * One expense of 100 in category "toString" leaves a string, not 100,
   * under "toString"; one in category "__proto__" leaves no entry at all.
   * The intended grouping has 100 under each.
   */
  lemma PrototypeCategoryBreaksBreakdown(d: int)
    ensures GroupAsWritten(ExpenseEntries([Expense("toString", 100, d)])) == map["toString" := NonNumber]
    ensures GroupTotals(ExpenseEntries([Expense("toString", 100, d)])) == map["toString" := 100]
    ensures GroupAsWritten(ExpenseEntries([Expense("__proto__", 100, d)])) == map[]
    ensures GroupTotals(ExpenseEntries([Expense("__proto__", 100, d)])) == map["__proto__" := 100]
  {
    var t := ExpenseEntries([Expense("toString", 100, d)]);
    var p := ExpenseEntries([Expense("__proto__", 100, d)]);
    assert t == [Entry("toString", 100)] && t[..0] == [];
    assert p == [Entry("__proto__", 100)] && p[..0] == [];
    assert Labels(t) == {"toString"} by { assert t[0].group == "toString"; }
    assert Labels(p) == {"__proto__"} by { assert p[0].group == "__proto__"; }
    assert SumFor(t, "toString") == 100;
    assert p[|p| - 1].group == "__proto__" && p[..|p| - 1] == [];
    assert SumFor(p, "__proto__") == SumFor([], "__proto__") + 100;
  }
}
