// `groupby(['pod', 'container'])` over a frame in its current row order. Everything here
// depends only on the row keys and on one column, so a frame's other columns never matter.
module Groups {
  import opened Wrappers
  import opened Numbers
  import opened Frames

  predicate SameGroup(a: Key, b: Key)
  {
    a.pod == b.pod && a.container == b.container
  }

  /** The indices below `n` of rows in the group of `g`, in increasing order. */
  function GroupBefore(keys: seq<Key>, g: Key, n: nat): (js: seq<nat>)
    requires n <= |keys|
    ensures forall j: int :: j in js <==> 0 <= j < n && SameGroup(keys[j], g)
    ensures forall a, b :: 0 <= a < b < |js| ==> js[a] < js[b]
  {
    if n == 0 then []
    else
      var init := GroupBefore(keys, g, n - 1);
      if SameGroup(keys[n - 1], g) then
        assert forall a :: 0 <= a < |init| ==> init[a] in init;
        var js := init + [n - 1];
        assert forall j :: j in js <==> j in init || j == n - 1;
        js
      else init
  }

  /** The row before `i` in its group, if any. */
  function Previous(keys: seq<Key>, i: nat): (p: Option<nat>)
    requires i < |keys|
    ensures p.Some? ==> p.value < i && SameGroup(keys[p.value], keys[i])
                        && forall k :: p.value < k < i ==> !SameGroup(keys[k], keys[i])
    ensures p.None? <==> forall k :: 0 <= k < i ==> !SameGroup(keys[k], keys[i])
  {
    var js := GroupBefore(keys, keys[i], i);
    if js == [] then None
    else
      var p := js[|js| - 1];
      assert p in js;
      assert forall x :: x in js ==> x <= p by {
        forall x | x in js ensures x <= p {
          var a :| 0 <= a < |js| && js[a] == x;
        }
      }
      Some(p)
  }

  /** `fillna(v)`. */
  function FillNaN(x: Num, v: Num): (r: Num)
    ensures !r.NaN? || v.NaN?
    ensures !x.NaN? ==> r == x
  {
    if x.NaN? then v else x
  }

  /** `groupby(...)[c].diff()` at row `i`: NaN at the first row of a group. */
  function DiffAt(keys: seq<Key>, vs: seq<Num>, i: nat): (d: Num)
    requires i < |keys| == |vs|
    ensures Previous(keys, i).None? ==> d.NaN?
    ensures Previous(keys, i).Some? ==> d == Sub(vs[i], vs[Previous(keys, i).value])
  {
    match Previous(keys, i)
    case None => NaN
    case Some(j) => Sub(vs[i], vs[j])
  }

  function GroupDiff(keys: seq<Key>, vs: seq<Num>): (ds: seq<Num>)
    requires |keys| == |vs|
    ensures |ds| == |vs|
    ensures forall i :: 0 <= i < |vs| ==> ds[i] == DiffAt(keys, vs, i)
  {
    seq(|vs|, i requires 0 <= i < |vs| => DiffAt(keys, vs, i))
  }

  function FillColumn(values: seq<Num>, v: Num): (r: seq<Num>)
    ensures |r| == |values|
    ensures forall i :: 0 <= i < |values| ==> r[i] == FillNaN(values[i], v)
  {
    seq(|values|, i requires 0 <= i < |values| => FillNaN(values[i], v))
  }
}
