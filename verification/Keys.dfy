/** Sorted keys of a dictionary. */
module Keys {

  lemma Inhabited(keys: set<int>)
    ensures keys == {} || exists x :: x in keys
  {
    if forall x :: x !in keys {
      assert keys == {};
    }
  }

  predicate IsMin(keys: set<int>, m: int) {
    m in keys && forall x :: x in keys ==> m <= x
  }

  lemma {:induction false} MinExists(keys: set<int>)
    requires keys != {}
    ensures exists m :: IsMin(keys, m)
  {
    Inhabited(keys);
    var x :| x in keys;
    if keys == {x} {
      assert IsMin(keys, x);
    } else {
      var rest := keys - {x};
      assert keys == rest + {x};
      MinExists(rest);
      var m :| IsMin(rest, m);
      assert IsMin(keys, if x < m then x else m);
    }
  }

  ghost function MinKey(keys: set<int>): (m: int)
    requires keys != {}
    ensures IsMin(keys, m)
  {
    MinExists(keys);
    var m :| IsMin(keys, m);
    m
  }

  method EarliestKey(keys: set<int>) returns (m: int)
    requires keys != {}
    ensures m == MinKey(keys)
  {
    Inhabited(keys);
    m :| m in keys;
    var todo := keys;
    while todo != {}
      invariant todo <= keys && m in keys
      invariant forall x :: x in keys ==> x in todo || m <= x
      decreases todo
    {
      Inhabited(todo);
      var x :| x in todo;
      todo := todo - {x};
      if x < m {
        m := x;
      }
    }
    assert IsMin(keys, m);
  }

  ghost function SortedKeys(keys: set<int>): seq<int> {
    if keys == {} then [] else [MinKey(keys)] + SortedKeys(keys - {MinKey(keys)})
  }

  predicate Increasing(s: seq<int>) {
    forall i, j :: 0 <= i < j < |s| ==> s[i] < s[j]
  }

  lemma {:induction false} SortedKeysAre(keys: set<int>)
    ensures Increasing(SortedKeys(keys)) && |SortedKeys(keys)| == |keys|
    ensures forall x :: x in SortedKeys(keys) <==> x in keys
  {
    if keys != {} {
      var m := MinKey(keys);
      SortedKeysAre(keys - {m});
      var rest := SortedKeys(keys - {m});
      forall j | 0 <= j < |rest| ensures m < rest[j] {
        assert rest[j] in keys - {m};
      }
    }
  }

  method SortKeys(keys: set<int>) returns (s: seq<int>)
    ensures s == SortedKeys(keys)
  {
    s := [];
    var todo := keys;
    while todo != {}
      invariant s + SortedKeys(todo) == SortedKeys(keys)
      decreases todo
    {
      var m := EarliestKey(todo);
      assert s + SortedKeys(todo) == (s + [m]) + SortedKeys(todo - {m});
      s := s + [m];
      todo := todo - {m};
    }
    assert s + [] == s;
  }
}
