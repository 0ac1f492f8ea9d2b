/**
 * The values the gateway puts into JSON responses, and `convert_sets_to_lists`,
 * which turns Python sets into lists so that the JSON encoder accepts them.
 */
module JsonConvert {

  /**
   * A Python value as far as the conversion can tell them apart. A set is
   * given by its elements in the order Python iterates over them, and a dict
   * by its entries in insertion order.
   */
  datatype Value =
    | Null
    | Bool(b: bool)
    | Int(i: int)
    | Str(s: string)
    | List(items: seq<Value>)
    | Tuple(items: seq<Value>)
    | PySet(items: seq<Value>)
    | Dict(entries: seq<Entry>)

  datatype Entry = Entry(key: Value, val: Value)

  /** The keys of a dict, in order. */
  function Keys(entries: seq<Entry>): (ks: seq<Value>)
    ensures |ks| == |entries|
    ensures forall i :: 0 <= i < |entries| ==> ks[i] == entries[i].key
  {
    seq(|entries|, i requires 0 <= i < |entries| => entries[i].key)
  }

  /**
   * `convert_sets_to_lists`: a dict keeps its keys and converts its values; a
   * set becomes a list of its elements, which are not converted; a list or
   * tuple becomes a list of its converted items; anything else is returned
   * as it is.
   */
  function Convert(v: Value): (r: Value)
    ensures v.Dict? ==> r.Dict? && Keys(r.entries) == Keys(v.entries)
    ensures v.PySet? ==> r == List(v.items)
    ensures (v.List? || v.Tuple?) ==> r.List? && |r.items| == |v.items|
    ensures !v.Dict? && !v.PySet? && !v.List? && !v.Tuple? ==> r == v
    decreases v, 1
  {
    match v
    case Dict(entries) => Dict(ConvertEntries(v, entries))
    case PySet(items) => List(items)
    case List(items) => List(ConvertItems(v, items))
    case Tuple(items) => List(ConvertItems(v, items))
    case _ => v
  }

  /** The converted items of the list or tuple `parent`. */
  function ConvertItems(ghost parent: Value, items: seq<Value>): (r: seq<Value>)
    requires (parent.List? || parent.Tuple?) && items == parent.items
    ensures |r| == |items|
    ensures forall i :: 0 <= i < |items| ==> r[i] == Convert(items[i])
    decreases parent, 0
  {
    seq(|items|, i requires 0 <= i < |items| => Convert(items[i]))
  }

  /** The entries of the dict `parent` with their values converted and their keys kept. */
  function ConvertEntries(ghost parent: Value, entries: seq<Entry>): (r: seq<Entry>)
    requires parent.Dict? && entries == parent.entries
    ensures |r| == |entries|
    ensures forall i :: 0 <= i < |entries| ==> r[i] == Entry(entries[i].key, Convert(entries[i].val))
    decreases parent, 0
  {
    seq(|entries|, i requires 0 <= i < |entries| => Entry(entries[i].key, Convert(entries[i].val)))
  }

  /** Values Python can hash, and so may appear as set elements and dict keys. */
  predicate Hashable(v: Value)
  {
    match v
    case Null => true
    case Bool(_) => true
    case Int(_) => true
    case Str(_) => true
    case Tuple(items) => forall i :: 0 <= i < |items| ==> Hashable(items[i])
    case _ => false
  }

  /** The values Python can build: set elements and dict keys are hashable. */
  predicate WellFormed(v: Value)
  {
    match v
    case PySet(items) => forall i :: 0 <= i < |items| ==> Hashable(items[i])
    case List(items) => forall i :: 0 <= i < |items| ==> WellFormed(items[i])
    case Tuple(items) => forall i :: 0 <= i < |items| ==> WellFormed(items[i])
    case Dict(entries) => forall i :: 0 <= i < |entries| ==> Hashable(entries[i].key) && WellFormed(entries[i].val)
    case _ => true
  }

  /** No set anywhere inside `v`: what the JSON encoder needs. */
  predicate SetFree(v: Value)
  {
    match v
    case PySet(_) => false
    case List(items) => forall i :: 0 <= i < |items| ==> SetFree(items[i])
    case Tuple(items) => forall i :: 0 <= i < |items| ==> SetFree(items[i])
    case Dict(entries) => forall i :: 0 <= i < |entries| ==> SetFree(entries[i].key) && SetFree(entries[i].val)
    case _ => true
  }

  lemma {:induction false} HashableIsSetFree(v: Value)
    requires Hashable(v)
    ensures SetFree(v)
  {
    if v.Tuple? {
      forall i | 0 <= i < |v.items| ensures SetFree(v.items[i]) {
        HashableIsSetFree(v.items[i]);
      }
    }
  }

  lemma {:induction false} HashableIsWellFormed(v: Value)
    requires Hashable(v)
    ensures WellFormed(v)
  {
    if v.Tuple? {
      forall i | 0 <= i < |v.items| ensures WellFormed(v.items[i]) {
        HashableIsWellFormed(v.items[i]);
      }
    }
  }

  /**
   * The point of the conversion: a value Python can build has no set left in
   * it once converted. Sets need not be recursed into, because their elements
   * are hashable and so contain no set themselves.
   */
  lemma {:induction false} ConvertRemovesSets(v: Value)
    requires WellFormed(v)
    ensures SetFree(Convert(v))
    ensures WellFormed(Convert(v))
  {
    match v
    case PySet(items) =>
      forall i | 0 <= i < |items| ensures SetFree(items[i]) && WellFormed(items[i]) {
        HashableIsSetFree(items[i]);
        HashableIsWellFormed(items[i]);
      }
    case List(items) =>
      forall i | 0 <= i < |items| ensures SetFree(Convert(items[i])) && WellFormed(Convert(items[i])) {
        ConvertRemovesSets(items[i]);
      }
    case Tuple(items) =>
      forall i | 0 <= i < |items| ensures SetFree(Convert(items[i])) && WellFormed(Convert(items[i])) {
        ConvertRemovesSets(items[i]);
      }
    case Dict(entries) =>
      var r := Convert(v).entries;
      forall i | 0 <= i < |entries|
        ensures SetFree(r[i].key) && SetFree(r[i].val) && Hashable(r[i].key) && WellFormed(r[i].val)
      {
        HashableIsSetFree(entries[i].key);
        ConvertRemovesSets(entries[i].val);
      }
    case _ =>
  }

  /** A value that already has no set and no tuple is returned unchanged. */
  predicate Plain(v: Value)
  {
    match v
    case PySet(_) => false
    case Tuple(_) => false
    case List(items) => forall i :: 0 <= i < |items| ==> Plain(items[i])
    case Dict(entries) => forall i :: 0 <= i < |entries| ==> Plain(entries[i].val)
    case _ => true
  }

  lemma {:induction false} ConvertFixesPlain(v: Value)
    requires Plain(v)
    ensures Convert(v) == v
  {
    match v
    case List(items) =>
      forall i | 0 <= i < |items| ensures Convert(items[i]) == items[i] {
        ConvertFixesPlain(items[i]);
      }
      assert Convert(v).items == items;
    case Dict(entries) =>
      forall i | 0 <= i < |entries| ensures Convert(entries[i].val) == entries[i].val {
        ConvertFixesPlain(entries[i].val);
      }
      assert Convert(v).entries == entries;
    case _ =>
  }

  /**
   * Set elements are not converted: a tuple inside a set stays a tuple,
   * while the same tuple inside a list becomes a list.
   */
  lemma SetElementsNotConverted()
    ensures Convert(PySet([Tuple([Int(1)])])) == List([Tuple([Int(1)])])
    ensures Convert(List([Tuple([Int(1)])])) == List([List([Int(1)])])
  {
    var inner := Tuple([Int(1)]);
    assert Convert(inner) == List([Int(1)]) by {
      assert Convert(inner).items[0] == Convert(Int(1));
    }
    assert Convert(List([inner])).items[0] == Convert(inner);
  }
}
