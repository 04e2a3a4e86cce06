/** The activity-type tally of the Activity widget.

    In the source the tally is a plain JavaScript object used as a counter
    map: its own keys are activity-type labels, its values are counts, and
    its keys iterate in insertion order (labels such as "recreational" are
    never integer-like, so no other ordering rule of the engine applies).
    Here the object is the sequence of its own properties in key order. */
module Tally {

  /** One own property of the tally object: a type label and its count. */
  datatype Entry = Entry(key: string, count: nat)

  /** The tally object, as its properties in key order. */
  type Tally = seq<Entry>

  /** The keys of the tally, in key order. */
  function Labels(t: Tally): (ks: seq<string>)
    ensures |ks| == |t|
    ensures forall i :: 0 <= i < |t| ==> ks[i] == t[i].key
  {
    if t == [] then [] else [t[0].key] + Labels(t[1..])
  }

  /** `tally[name] || 0`: the count stored under `name`, or 0 when the
      object has no such key. */
  function Get(t: Tally, name: string): (n: nat)
    ensures name !in Labels(t) ==> n == 0
  {
    if t == [] then 0
    else if t[0].key == name then t[0].count
    else Get(t[1..], name)
  }

  /** A JavaScript object never holds the same key twice. */
  ghost predicate Distinct(t: Tally)
  {
    forall i, j :: 0 <= i < j < |t| ==> t[i].key != t[j].key
  }

  /** Every stored count is at least one. */
  ghost predicate Positive(t: Tally)
  {
    forall i :: 0 <= i < |t| ==> t[i].count >= 1
  }

  /** The invariant of every tally the widget can reach. */
  ghost predicate WellFormed(t: Tally)
  {
    Distinct(t) && Positive(t)
  }

  /** The sum of all counts. */
  function Sum(t: Tally): nat
  {
    if t == [] then 0 else t[0].count + Sum(t[1..])
  }

  /** `{...t, [key]: value}`: a copy of `t` in which `key` maps to `value`.
      An existing key keeps its place; a new key goes last. */
  function Put(t: Tally, key: string, value: nat): (r: Tally)
    ensures Get(r, key) == value
    ensures forall other :: other != key ==> Get(r, other) == Get(t, other)
    ensures Labels(r) == if key in Labels(t) then Labels(t) else Labels(t) + [key]
  {
    if t == [] then [Entry(key, value)]
    else
      assert Labels(t) == [t[0].key] + Labels(t[1..]);
      if t[0].key == key then
        var r := [Entry(key, value)] + t[1..];
        assert r[1..] == t[1..];
        r
      else
        var rest := Put(t[1..], key, value);
        var r := [t[0]] + rest;
        assert r[1..] == rest;
        r
  }

  /** The functional update applied on every successful activity
      completion: the count for `name` goes up by one, or `name` is
      added with count 1 when absent. */
  function Increment(t: Tally, name: string): (r: Tally)
    ensures Get(r, name) == Get(t, name) + 1
    ensures forall other :: other != name ==> Get(r, other) == Get(t, other)
    ensures name in Labels(t) ==> Labels(r) == Labels(t)
    ensures name !in Labels(t) ==> Labels(r) == Labels(t) + [name] && Get(r, name) == 1
  {
    Put(t, name, Get(t, name) + 1)
  }

  /** In an object with distinct keys, reading the key at position `i`
      yields the count stored at position `i`. */
  lemma {:induction false} GetAt(t: Tally, i: nat)
    requires Distinct(t) && i < |t|
    ensures Get(t, t[i].key) == t[i].count
  {
    if i > 0 {
      assert t[0].key != t[i].key;
      GetAt(t[1..], i - 1);
    }
  }

  /** Overwriting a key keeps every other count and gives the key the new
      one, so the sum moves by the difference. */
  lemma {:induction false} PutSum(t: Tally, key: string, value: nat)
    ensures Sum(Put(t, key, value)) == Sum(t) - Get(t, key) + value
  {
    if t != [] && t[0].key != key {
      PutSum(t[1..], key, value);
      assert Put(t, key, value)[1..] == Put(t[1..], key, value);
    } else if t != [] {
      assert Put(t, key, value)[1..] == t[1..];
    }
  }

  /** Storing a positive count keeps every count positive. */
  lemma {:induction false} PutPositive(t: Tally, key: string, value: nat)
    requires Positive(t) && value >= 1
    ensures Positive(Put(t, key, value))
  {
    if t != [] && t[0].key != key {
      PutPositive(t[1..], key, value);
      assert Put(t, key, value)[1..] == Put(t[1..], key, value);
    }
  }

  /** One successful completion adds exactly one to the sum of counts. */
  lemma IncrementSum(t: Tally, name: string)
    ensures Sum(Increment(t, name)) == Sum(t) + 1
  {
    PutSum(t, name, Get(t, name) + 1);
  }

  /** Incrementing keeps keys distinct and counts positive. */
  lemma IncrementWellFormed(t: Tally, name: string)
    requires WellFormed(t)
    ensures WellFormed(Increment(t, name))
  {
    var r := Increment(t, name);
    PutPositive(t, name, Get(t, name) + 1);
    forall i, j | 0 <= i < j < |r|
      ensures r[i].key != r[j].key
    {
      assert r[i].key == Labels(r)[i] && r[j].key == Labels(r)[j];
      if j < |t| {
        assert Labels(r)[i] == t[i].key && Labels(r)[j] == t[j].key;
      } else {
        assert name !in Labels(t) && Labels(r)[j] == name && Labels(r)[i] == Labels(t)[i];
      }
    }
  }

  /** The tally after the given successful completions, in the order they
      happened, starting from the empty object `{}`. */
  function TallyOf(types: seq<string>): Tally
  {
    if types == [] then []
    else Increment(TallyOf(types[..|types| - 1]), types[|types| - 1])
  }

  /** One more successful completion is one more increment. */
  lemma TallyOfAppend(types: seq<string>, name: string)
    ensures TallyOf(types + [name]) == Increment(TallyOf(types), name)
  {
  }

  /** Every reachable tally has distinct keys and positive counts. */
  lemma {:induction false} TallyOfWellFormed(types: seq<string>)
    ensures WellFormed(TallyOf(types))
  {
    if types != [] {
      TallyOfWellFormed(types[..|types| - 1]);
      IncrementWellFormed(TallyOf(types[..|types| - 1]), types[|types| - 1]);
    }
  }

  /** The counts add up to the number of successful completions. */
  lemma {:induction false} TallyOfSum(types: seq<string>)
    ensures Sum(TallyOf(types)) == |types|
  {
    if types != [] {
      TallyOfSum(types[..|types| - 1]);
      IncrementSum(TallyOf(types[..|types| - 1]), types[|types| - 1]);
    }
  }

  /** The count of each label is the number of completions of that type;
      in particular the counts do not depend on completion order. */
  lemma {:induction false} TallyOfCount(types: seq<string>, name: string)
    ensures Get(TallyOf(types), name) == multiset(types)[name]
  {
    if types != [] {
      var prefix, last := types[..|types| - 1], types[|types| - 1];
      assert types == prefix + [last];
      TallyOfCount(prefix, name);
    }
  }

  /** A label is a key exactly when some completion had that type. */
  lemma {:induction false} TallyOfKeys(types: seq<string>)
    ensures forall name :: name in Labels(TallyOf(types)) <==> name in types
  {
    if types != [] {
      var prefix, last := types[..|types| - 1], types[|types| - 1];
      assert types == prefix + [last];
      TallyOfKeys(prefix);
    }
  }

  /** The position of the first occurrence of `x` in `s`. */
  function IndexOf(s: seq<string>, x: string): (i: nat)
    requires x in s
    ensures i < |s| && s[i] == x
    ensures forall j :: 0 <= j < i ==> s[j] != x
  {
    if s[0] == x then 0 else 1 + IndexOf(s[1..], x)
  }

  /** Appending to a sequence does not move a first occurrence. */
  lemma IndexOfAppend(s: seq<string>, x: string, y: string)
    requires y in s
    ensures IndexOf(s + [x], y) == IndexOf(s, y)
  {
    var i, k := IndexOf(s + [x], y), IndexOf(s, y);
    assert (s + [x])[k] == y;
    assert s[i] == (s + [x])[i];
  }

  /** `keys` lists labels in the order in which they first occur in
      `types`. */
  ghost predicate FirstSeenOrder(keys: seq<string>, types: seq<string>)
  {
    && (forall k :: k in keys ==> k in types)
    && forall i, j :: 0 <= i < j < |keys| ==> IndexOf(types, keys[i]) < IndexOf(types, keys[j])
  }

  /** A completion of a type already seen keeps the order valid. */
  lemma FirstSeenAppendKnown(keys: seq<string>, prefix: seq<string>, last: string)
    requires FirstSeenOrder(keys, prefix)
    ensures FirstSeenOrder(keys, prefix + [last])
  {
    forall i, j | 0 <= i < j < |keys|
      ensures IndexOf(prefix + [last], keys[i]) < IndexOf(prefix + [last], keys[j])
    {
      IndexOfAppend(prefix, last, keys[i]);
      IndexOfAppend(prefix, last, keys[j]);
    }
  }

  /** A completion of a new type puts that type after every earlier key. */
  lemma FirstSeenAppendNew(keys: seq<string>, prefix: seq<string>, last: string)
    requires FirstSeenOrder(keys, prefix)
    requires last !in prefix
    ensures FirstSeenOrder(keys + [last], prefix + [last])
  {
    var types, after := prefix + [last], keys + [last];
    assert IndexOf(types, last) == |prefix|;
    forall i | 0 <= i < |keys|
      ensures after[i] == keys[i] && IndexOf(types, keys[i]) == IndexOf(prefix, keys[i]) < |prefix|
    {
      assert keys[i] in keys;
      IndexOfAppend(prefix, last, keys[i]);
    }
  }

  /** Key order is first-seen order: together with TallyOfKeys and
      TallyOfWellFormed this fixes the key sequence completely. */
  lemma {:induction false} TallyOfFirstSeen(types: seq<string>)
    ensures FirstSeenOrder(Labels(TallyOf(types)), types)
  {
    if types != [] {
      var prefix, last := types[..|types| - 1], types[|types| - 1];
      assert types == prefix + [last];
      var before := Labels(TallyOf(prefix));
      TallyOfFirstSeen(prefix);
      TallyOfKeys(prefix);
      if last in before {
        FirstSeenAppendKnown(before, prefix, last);
      } else {
        FirstSeenAppendNew(before, prefix, last);
      }
    }
  }
}
