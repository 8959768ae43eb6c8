/**
 * `getOrientationForFeature`
 * (app/static/script/app/plugins/WMSGetFeatureInfo.js, lines 157-168): the
 * camera heading for the street view, read from the first attribute whose
 * name equals the configured heading attribute name, ignoring case.
 *
 * Attributes are given in the order a `for ... in` loop visits them.
 * `upper` stands for String.prototype.toUpperCase and `toNumber` for the
 * global Number conversion; neither is interpreted here.
 */
module Orientation {
  import opened Wrappers

  /** The index of the first attribute whose upper-cased name is `key`. */
  function FirstMatch<V>(attrs: seq<(string, V)>, key: string, upper: string -> string): (r: Option<nat>)
    ensures r.Some? ==> r.value < |attrs| && upper(attrs[r.value].0) == key
    ensures r.Some? ==> forall i :: 0 <= i < r.value ==> upper(attrs[i].0) != key
    ensures r.None? <==> forall i :: 0 <= i < |attrs| ==> upper(attrs[i].0) != key
  {
    if attrs == [] then None
    else if upper(attrs[0].0) == key then Some(0)
    else match FirstMatch(attrs[1..], key, upper)
      case None => None
      case Some(k) => Some(k + 1)
  }

  /** The orientation of a feature: 0 when the heading attribute name is
      empty or no attribute name matches it ignoring case, otherwise the
      converted value of the first matching attribute. */
  function Orientation<V>(attrs: seq<(string, V)>, heading: string,
                          upper: string -> string, toNumber: V -> real): (r: real)
    ensures heading == "" ==> r == 0.0
    ensures (forall i :: 0 <= i < |attrs| ==> upper(attrs[i].0) != upper(heading)) ==> r == 0.0
    ensures forall k :: 0 <= k < |attrs| && heading != "" && upper(attrs[k].0) == upper(heading)
                        && (forall i :: 0 <= i < k ==> upper(attrs[i].0) != upper(heading))
                        ==> r == toNumber(attrs[k].1)
  {
    if heading == "" then 0.0
    else match FirstMatch(attrs, upper(heading), upper)
      case None => 0.0
      case Some(k) => toNumber(attrs[k].1)
  }

  /** The source's loop: scan the attributes, stop at the first name that
      matches ignoring case. */
  method OrientationForFeature<V>(attrs: seq<(string, V)>, heading: string,
                                  upper: string -> string, toNumber: V -> real)
    returns (orientation: real)
    ensures orientation == Orientation(attrs, heading, upper, toNumber)
  {
    orientation := 0.0;
    if heading != "" {
      var i := 0;
      while i < |attrs|
        invariant 0 <= i <= |attrs|
        invariant forall k :: 0 <= k < i ==> upper(attrs[k].0) != upper(heading)
        invariant orientation == 0.0
      {
        if upper(attrs[i].0) == upper(heading) {
          orientation := toNumber(attrs[i].1);
          break;
        }
        i := i + 1;
      }
    }
  }

  /** Once an attribute matches, attributes after it make no difference:
      later matches are never read. */
  lemma {:induction false} LaterAttributesIgnored<V>(attrs: seq<(string, V)>, more: seq<(string, V)>,
                                                     heading: string, upper: string -> string,
                                                     toNumber: V -> real, k: nat)
    requires k < |attrs| && upper(attrs[k].0) == upper(heading)
    ensures Orientation(attrs + more, heading, upper, toNumber) == Orientation(attrs, heading, upper, toNumber)
  {
    if heading != "" {
      var m := FirstMatch(attrs, upper(heading), upper);
      assert m.Some?;
      assert forall i :: 0 <= i < |attrs| ==> (attrs + more)[i] == attrs[i];
      var n := FirstMatch(attrs + more, upper(heading), upper);
      assert n.Some?;
      assert n.value == m.value;
    }
  }
}
