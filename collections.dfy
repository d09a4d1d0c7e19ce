/**
 * Observable collections: a list and a map that are their own observable
 * value. The value handed to the observable is the backing container object
 * itself, so the observable's lastValue aliases the live container.
 */
module Collections {
  import opened Wrappers
  import opened Sequences
  import opened Observables

  /** The java.util.ArrayList an ObservableArrayList owns. */
  class BackingList<E> {
    var elements: seq<E>

    constructor (elements: seq<E>)
      ensures this.elements == elements
    {
      this.elements := elements;
    }
  }

  /** The element test removeAll(c) keeps. */
  function NotIn<E(==)>(c: seq<E>): E -> bool
  {
    x => x !in c
  }

  /** The element test retainAll(c) keeps. */
  function In<E(==)>(c: seq<E>): E -> bool
  {
    x => x in c
  }

  /**
   * ObservableList over an ArrayList (ObservableArrayList). Both a Collection
   * argument and a varargs array are sequences here, so each varargs overload
   * is the same member as its Collection form.
   */
  class ObservableList<E(==)> {
    const list: BackingList<E>
    const observable: ObservableImpl<BackingList<E>>

    /** The observed value is the backing list object. */
    ghost predicate Valid()
      reads this, observable
    {
      observable.lastValue == Some(list)
    }

    /** new ObservableArrayList(): an empty backing list with no listeners. */
    constructor Empty()
      ensures fresh(list) && fresh(observable) && Valid()
      ensures list.elements == []
      ensures observable.listeners == [] && observable.eventListeners == [] && observable.log == []
    {
      var backing := new BackingList([]);
      list := backing;
      observable := new ObservableImpl(Some(backing));
    }

    /** new ObservableArrayList(c): a fresh copy of c, so later changes to c do not show here. */
    constructor Copy(c: BackingList<E>)
      ensures fresh(list) && fresh(observable) && Valid()
      ensures list.elements == c.elements && list != c
      ensures observable.listeners == [] && observable.eventListeners == [] && observable.log == []
    {
      var backing := new BackingList(c.elements);
      list := backing;
      observable := new ObservableImpl(Some(backing));
    }

    /** new ObservableArrayList(e...): the arguments in order. */
    constructor OfElements(c: seq<E>)
      ensures fresh(list) && fresh(observable) && Valid()
      ensures list.elements == c
      ensures observable.listeners == [] && observable.eventListeners == [] && observable.log == []
    {
      var backing := new BackingList(c);
      list := backing;
      observable := new ObservableImpl(Some(backing));
    }

    /** The list's current contents. */
    function Elements(): seq<E>
      reads list
    {
      list.elements
    }

    function Size(): (n: nat)
      reads list
      ensures n == |Elements()|
    {
      |list.elements|
    }

    function IsEmpty(): (r: bool)
      reads list
      ensures r <==> Size() == 0
      ensures r <==> Elements() == []
    {
      |list.elements| == 0
    }

    function Contains(o: E): (r: bool)
      reads list
      ensures r <==> exists i :: 0 <= i < |Elements()| && Elements()[i] == o
    {
      if o in list.elements then
        assert Elements()[FirstIndex(list.elements, o)] == o;
        true
      else false
    }

    function ContainsAll(c: seq<E>): (r: bool)
      reads list
      ensures r <==> forall i :: 0 <= i < |c| ==> Contains(c[i])
    {
      forall i :: 0 <= i < |c| ==> c[i] in list.elements
    }

    /** get(index): the element there, or IndexOutOfBoundsException. */
    function Get(index: int): (r: Result<E>)
      reads list
      ensures r.Success? <==> 0 <= index < Size()
      ensures r.Success? ==> r.value == Elements()[index]
      ensures r.Failure? ==> r.exception == IndexOutOfBounds(index, Size())
    {
      if 0 <= index < |list.elements| then Success(list.elements[index])
      else Failure(IndexOutOfBounds(index, |list.elements|))
    }

    /** indexOf(o): the first index holding o, or -1. */
    function IndexOf(o: E): (r: int)
      reads list
      ensures r == -1 <==> !Contains(o)
      ensures r != -1 ==> 0 <= r < Size() && Elements()[r] == o && o !in Elements()[..r]
    {
      if o in list.elements then FirstIndex(list.elements, o) else -1
    }

    /** lastIndexOf(o): the last index holding o, or -1. */
    function LastIndexOf(o: E): (r: int)
      reads list
      ensures r == -1 <==> !Contains(o)
      ensures r != -1 ==> 0 <= r < Size() && Elements()[r] == o && o !in Elements()[r + 1..]
    {
      if o in list.elements then LastIndex(list.elements, o) else -1
    }

    /** getValue(): the backing list object itself, not a copy. */
    function GetValue(): (r: BackingList<E>)
      ensures r == list
    {
      list
    }

    /** add(e): appends e and reports a change. */
    method Add(e: E) returns (changed: bool)
      modifies list
      ensures Elements() == old(Elements()) + [e] && changed
    {
      list.elements := list.elements + [e];
      changed := true;
    }

    /** remove(o): removes the first occurrence of o, reporting whether there was one. */
    method Remove(o: E) returns (changed: bool)
      modifies list
      ensures changed <==> o in old(Elements())
      ensures Elements() == RemoveFirst(old(Elements()), o)
    {
      changed := o in list.elements;
      list.elements := RemoveFirst(list.elements, o);
    }

    /** addAll(c): appends c in order, reporting a change iff c is not empty. */
    method AddAll(c: seq<E>) returns (changed: bool)
      modifies list
      ensures Elements() == old(Elements()) + c
      ensures changed <==> c != []
    {
      list.elements := list.elements + c;
      changed := c != [];
    }

    /** addAll(index, c): inserts c at index, shifting the tail right; index may equal the size. */
    method AddAllAt(index: int, c: seq<E>) returns (r: Result<bool>)
      modifies list
      ensures r.Failure? <==> !(0 <= index <= old(Size()))
      ensures r.Failure? ==> r.exception == IndexOutOfBounds(index, old(Size())) && Elements() == old(Elements())
      ensures r.Success? ==> Elements() == old(Elements())[..index] + c + old(Elements())[index..]
      ensures r.Success? ==> (r.value <==> c != [])
    {
      if 0 <= index <= |list.elements| {
        list.elements := list.elements[..index] + c + list.elements[index..];
        r := Success(c != []);
      } else {
        r := Failure(IndexOutOfBounds(index, |list.elements|));
      }
    }

    /** removeAll(c): drops every element found in c, keeping the order of the rest. */
    method RemoveAll(c: seq<E>) returns (changed: bool)
      modifies list
      ensures Elements() == Filter(old(Elements()), NotIn(c))
      ensures forall i :: 0 <= i < |Elements()| ==> Elements()[i] !in c
      ensures changed <==> exists i :: 0 <= i < |old(Elements())| && old(Elements())[i] in c
    {
      var before := list.elements;
      list.elements := Filter(before, NotIn(c));
      FilterKeepsLength(before, NotIn(c));
      changed := |list.elements| != |before|;
    }

    /** retainAll(c): drops every element not found in c, keeping the order of the rest. */
    method RetainAll(c: seq<E>) returns (changed: bool)
      modifies list
      ensures Elements() == Filter(old(Elements()), In(c))
      ensures forall i :: 0 <= i < |Elements()| ==> Elements()[i] in c
      ensures changed <==> exists i :: 0 <= i < |old(Elements())| && old(Elements())[i] !in c
    {
      var before := list.elements;
      list.elements := Filter(before, In(c));
      FilterKeepsLength(before, In(c));
      changed := |list.elements| != |before|;
    }

    method Clear()
      modifies list
      ensures Elements() == []
    {
      list.elements := [];
    }

    /** set(index, e): replaces the element there and returns the one it replaced. */
    method SetAt(index: int, e: E) returns (r: Result<E>)
      modifies list
      ensures r.Failure? <==> !(0 <= index < old(Size()))
      ensures r.Failure? ==> r.exception == IndexOutOfBounds(index, old(Size())) && Elements() == old(Elements())
      ensures r.Success? ==> r.value == old(Elements())[index] && Elements() == old(Elements())[index := e]
    {
      if 0 <= index < |list.elements| {
        r := Success(list.elements[index]);
        list.elements := list.elements[index := e];
      } else {
        r := Failure(IndexOutOfBounds(index, |list.elements|));
      }
    }

    /** set(c): clear() then addAll(c), so the contents become c in order. */
    method SetAll(c: seq<E>)
      modifies list
      ensures Elements() == c
    {
      Clear();
      var _ := AddAll(c);
    }

    /** add(index, e): e lands at index and the tail shifts right; index may equal the size. */
    method AddAt(index: int, e: E) returns (out: Outcome)
      modifies list
      ensures out.Threw? <==> !(0 <= index <= old(Size()))
      ensures out.Threw? ==> out.exception == IndexOutOfBounds(index, old(Size())) && Elements() == old(Elements())
      ensures out.Normal? ==> Elements() == old(Elements())[..index] + [e] + old(Elements())[index..]
    {
      if 0 <= index <= |list.elements| {
        list.elements := list.elements[..index] + [e] + list.elements[index..];
        out := Normal;
      } else {
        out := Threw(IndexOutOfBounds(index, |list.elements|));
      }
    }

    /** insert(index, e): exactly add(index, e). */
    method Insert(index: int, e: E) returns (out: Outcome)
      modifies list
      ensures out.Threw? <==> !(0 <= index <= old(Size()))
      ensures out.Threw? ==> out.exception == IndexOutOfBounds(index, old(Size())) && Elements() == old(Elements())
      ensures out.Normal? ==> Elements() == old(Elements())[..index] + [e] + old(Elements())[index..]
    {
      out := AddAt(index, e);
    }

    /** remove(index): removes the element there, shifting the tail left, and returns it. */
    method RemoveAt(index: int) returns (r: Result<E>)
      modifies list
      ensures r.Failure? <==> !(0 <= index < old(Size()))
      ensures r.Failure? ==> r.exception == IndexOutOfBounds(index, old(Size())) && Elements() == old(Elements())
      ensures r.Success? ==> r.value == old(Elements())[index]
      ensures r.Success? ==> Elements() == old(Elements())[..index] + old(Elements())[index + 1..]
    {
      if 0 <= index < |list.elements| {
        r := Success(list.elements[index]);
        list.elements := list.elements[..index] + list.elements[index + 1..];
      } else {
        r := Failure(IndexOutOfBounds(index, |list.elements|));
      }
    }

    /**
     * update(): the observable compares getValue() with lastValue. Both are
     * the same backing list object, so no change listener is ever called,
     * whatever the list's contents went through.
     */
    method Update()
      requires Valid()
      modifies observable`lastValue, observable`log
      ensures Valid() && observable.log == old(observable.log)
    {
      observable.Update(Some(GetValue()));
    }
  }

  /** The java.util.Map an ObservableMap wraps. */
  class BackingMap<K(==), V> {
    var entries: map<K, V>

    constructor (entries: map<K, V>)
      ensures this.entries == entries
    {
      this.entries := entries;
    }
  }

  /** ObservableMap over a given map, which is also the observed value. */
  class ObservableMap<K(==), V(==)> {
    const backing: BackingMap<K, V>
    const observable: ObservableImpl<BackingMap<K, V>>

    /** The observed value is the backing map object. */
    ghost predicate Valid()
      reads this, observable
    {
      observable.lastValue == Some(backing)
    }

    /** ObservableMap(m): observes m itself, with empty listener lists. */
    constructor (initialMap: BackingMap<K, V>)
      ensures backing == initialMap && fresh(observable) && Valid()
      ensures observable.listeners == [] && observable.eventListeners == [] && observable.log == []
    {
      backing := initialMap;
      observable := new ObservableImpl(Some(initialMap));
    }

    function Entries(): map<K, V>
      reads backing
    {
      backing.entries
    }

    function Size(): (n: nat)
      reads backing
      ensures n == |Entries().Keys|
    {
      |backing.entries|
    }

    function IsEmpty(): (r: bool)
      reads backing
      ensures r <==> Size() == 0
      ensures r <==> Entries() == map[]
    {
      |backing.entries| == 0
    }

    function ContainsKey(k: K): (r: bool)
      reads backing
      ensures r <==> k in Entries()
    {
      k in backing.entries
    }

    function ContainsValue(v: V): (r: bool)
      reads backing
      ensures r <==> exists k :: k in Entries() && Entries()[k] == v
    {
      if v in backing.entries.Values then
        assert exists k :: k in Entries() && Entries()[k] == v by {
          var k :| k in backing.entries && backing.entries[k] == v;
          assert k in Entries() && Entries()[k] == v;
        }
        true
      else
        assert forall k :: k in backing.entries ==> backing.entries[k] in backing.entries.Values;
        false
    }

    /** get(k): the value for k, or null when k is absent. */
    function Get(k: K): (r: Option<V>)
      reads backing
      ensures r.Some? <==> ContainsKey(k)
      ensures r.Some? ==> r.value == Entries()[k]
    {
      if k in backing.entries then Some(backing.entries[k]) else None
    }

    /** getValue(): the backing map object itself, not a copy. */
    function GetValue(): (r: BackingMap<K, V>)
      ensures r == backing
    {
      backing
    }

    /** put(k, v): returns the previous value for k (null if none); afterwards k maps to v. */
    method Put(k: K, v: V) returns (previous: Option<V>)
      modifies backing
      ensures previous == old(Get(k))
      ensures Entries() == old(Entries())[k := v]
      ensures Get(k) == Some(v)
    {
      previous := Get(k);
      backing.entries := backing.entries[k := v];
    }

    /** remove(k): returns the previous value for k; afterwards k is absent and the other keys are unchanged. */
    method Remove(k: K) returns (previous: Option<V>)
      modifies backing
      ensures previous == old(Get(k))
      ensures Entries() == old(Entries()) - {k}
      ensures !ContainsKey(k)
    {
      previous := Get(k);
      backing.entries := backing.entries - {k};
    }

    /** putAll(m): every key of m maps to m's value; other keys are unchanged. */
    method PutAll(m: map<K, V>)
      modifies backing
      ensures Entries() == old(Entries()) + m
      ensures forall k :: k in m ==> Get(k) == Some(m[k])
    {
      backing.entries := backing.entries + m;
    }

    method Clear()
      modifies backing
      ensures Entries() == map[] && Size() == 0 && IsEmpty()
    {
      backing.entries := map[];
    }

    /** update(): as for the list, lastValue is the live map, so no change listener is ever called. */
    method Update()
      requires Valid()
      modifies observable`lastValue, observable`log
      ensures Valid() && observable.log == old(observable.log)
    {
      observable.Update(Some(GetValue()));
    }
  }
}
