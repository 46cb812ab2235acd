/**
 * What the model keeps of the configuration loader: a required option left
 * empty is an error, and a record read as a map has a single key to pick.
 */
module Records {

  /** The error for a required option left empty. */
  function MissingField(key: string): (msg: string)
    ensures |msg| > |key|
  {
    "missing required field '" + key + "'"
  }

  lemma SubsetSize<T>(a: set<T>, b: set<T>)
    requires a <= b
    ensures |a| <= |b|
  {
    if a != {} {
      var x :| x in a;
      SubsetSize(a - {x}, b - {x});
    }
  }

  /** A map of size one has one key. */
  lemma SingleKey<V>(m: map<string, V>)
    requires |m| == 1
    ensures forall a, b :: a in m && b in m ==> a == b
  {
    forall a, b | a in m && b in m
      ensures a == b
    {
      SubsetSize({a, b}, m.Keys);
      assert a != b ==> |{a, b}| == 2;
    }
  }

  /** The key of a single-key map. */
  function OnlyKey<V>(m: map<string, V>): (k: string)
    requires |m| == 1
    ensures k in m && m.Keys == {k}
  {
    SingleKey(m);
    var k :| k in m;
    k
  }
}
