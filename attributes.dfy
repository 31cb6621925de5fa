/** The `_to_dict` of the manifest builders: a dict of an object's
    attributes, in the order they were first assigned, keeping only those
    whose value is truthy. */
module Attributes {
  import opened Values
  import opened Dicts

  /** The attributes of `attrs` with a truthy value, in their order. */
  function KeepTruthy(attrs: Dict<Value>): (kept: Dict<Value>)
    ensures forall i :: 0 <= i < |kept| ==> Truthy(kept[i].1)
  {
    if attrs == [] then []
    else
      var last := attrs[|attrs| - 1];
      KeepTruthy(attrs[..|attrs| - 1]) + (if Truthy(last.1) then [last] else [])
  }

  /** An attribute is kept exactly when its value is truthy. */
  lemma {:induction false} KeepTruthyMembers(attrs: Dict<Value>, p: (string, Value))
    ensures p in KeepTruthy(attrs) <==> p in attrs && Truthy(p.1)
  {
    if attrs != [] {
      var init := attrs[..|attrs| - 1];
      KeepTruthyMembers(init, p);
      assert attrs == init + [attrs[|attrs| - 1]];
    }
  }

  /** Filtering keeps the order: the kept attributes of a concatenation are
      the kept attributes of its first part, then those of its second. */
  lemma {:induction false} KeepTruthyConcat(a: Dict<Value>, b: Dict<Value>)
    ensures KeepTruthy(a + b) == KeepTruthy(a) + KeepTruthy(b)
    decreases |b|
  {
    if b != [] {
      var init := b[..|b| - 1];
      assert (a + b)[..|a + b| - 1] == a + init;
      KeepTruthyConcat(a, init);
    } else {
      assert a + b == a;
    }
  }

  /** When every attribute is truthy, all are kept. */
  lemma {:induction false} KeepTruthyAll(attrs: Dict<Value>)
    requires forall i :: 0 <= i < |attrs| ==> Truthy(attrs[i].1)
    ensures KeepTruthy(attrs) == attrs
  {
    if attrs != [] {
      KeepTruthyAll(attrs[..|attrs| - 1]);
    }
  }

  /** When no attribute is truthy, none is kept. */
  lemma {:induction false} KeepTruthyNone(attrs: Dict<Value>)
    requires forall i :: 0 <= i < |attrs| ==> !Truthy(attrs[i].1)
    ensures KeepTruthy(attrs) == []
  {
    if attrs != [] {
      KeepTruthyNone(attrs[..|attrs| - 1]);
    }
  }

  /** The loop of `_to_dict`: assign each truthy attribute into a fresh dict. */
  method TruthyAttributes(attrs: Dict<Value>) returns (d: Dict<Value>)
    requires KeysUnique(attrs)
    ensures d == KeepTruthy(attrs)
  {
    d := [];
    var i := 0;
    while i < |attrs|
      invariant 0 <= i <= |attrs|
      invariant d == KeepTruthy(attrs[..i])
    {
      var (attribute, attributeVal) := attrs[i];
      if Truthy(attributeVal) {
        assert attribute !in Keys(d) by {
          forall j | 0 <= j < |d| ensures d[j].0 != attribute {
            KeepTruthyMembers(attrs[..i], d[j]);
            var m :| 0 <= m < i && attrs[..i][m] == d[j];
            assert attrs[m] == d[j];
          }
        }
        PutAppend(d, attribute, attributeVal);
        d := Put(d, attribute, attributeVal);
      }
      assert attrs[..i + 1][..i] == attrs[..i];
      i := i + 1;
    }
    assert attrs[..i] == attrs;
  }
}
