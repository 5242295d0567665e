/** `Array.prototype.find`, the lookup every core file uses to pick a record by its slug. */
module Arrays {
  import opened Wrappers

  /** The first element that `matches`, or none when no element does. */
  function Find<T(==)>(xs: seq<T>, matches: T -> bool): (r: Option<T>)
    ensures r.None? <==> forall i | 0 <= i < |xs| :: !matches(xs[i])
    ensures r.Some? ==> exists i | 0 <= i < |xs| :: xs[i] == r.value && matches(xs[i]) && forall j | 0 <= j < i :: !matches(xs[j])
  {
    if xs == [] then None
    else if matches(xs[0]) then Some(xs[0])
    else
      var r := Find(xs[1..], matches);
      assert r.Some? ==> exists i | 0 <= i < |xs[1..]| :: xs[1..][i] == r.value && matches(xs[1..][i]) && forall j | 0 <= j < i :: !matches(xs[1..][j]);
      if r.Some? then
        var i :| 0 <= i < |xs[1..]| && xs[1..][i] == r.value && matches(xs[1..][i]) && forall j | 0 <= j < i :: !matches(xs[1..][j]);
        assert xs[i + 1] == r.value && forall j | 0 <= j < i + 1 :: !matches(xs[j]);
        r
      else r
  }

  /** When at most one element matches, `find` returns exactly that element. */
  lemma FindUnique<T>(xs: seq<T>, matches: T -> bool, x: T)
    requires forall i, j | 0 <= i < j < |xs| && matches(xs[i]) :: !matches(xs[j])
    ensures Find(xs, matches) == Some(x) <==> x in xs && matches(x)
  {
    var r := Find(xs, matches);
    if x in xs && matches(x) {
      var k :| 0 <= k < |xs| && xs[k] == x;
      assert r.Some?;
      var i :| 0 <= i < |xs| && xs[i] == r.value && matches(xs[i]) && forall j | 0 <= j < i :: !matches(xs[j]);
    }
  }
}
