/** The visibility dictionaries the map and analysis stores keep (layer
    keys and zoning categories to booleans), with the two update forms of
    their setters and the toggle that negates one entry. */
module Visibility {
  type Flags = map<string, bool>

  /** `{...m, [k]: !m[k]}`: an absent key reads as `undefined`, so it
      becomes `true`. */
  function Toggled(m: Flags, k: string): (r: Flags)
    ensures k in r && r[k] == !(k in m && m[k])
    ensures forall j :: j != k ==> (j in r <==> j in m)
    ensures forall j :: j != k && j in m ==> r[j] == m[j]
  {
    m[k := !(k in m && m[k])]
  }

  /** Toggling a present key twice restores the map; toggling an absent key
      twice leaves it present and `false`. */
  lemma ToggleTwice(m: Flags, k: string)
    ensures k in m ==> Toggled(Toggled(m, k), k) == m
    ensures k !in m ==> Toggled(Toggled(m, k), k) == m[k := false]
  {
    var t := Toggled(Toggled(m, k), k);
    if k in m {
      assert forall j :: j in t <==> j in m;
      assert forall j :: j in m ==> t[j] == m[j];
    } else {
      assert forall j :: j in t <==> j in m[k := false];
      assert forall j :: j in t ==> t[j] == m[k := false][j];
    }
  }

  /** Toggling distinct keys commutes. */
  lemma TogglesCommute(m: Flags, a: string, b: string)
    requires a != b
    ensures Toggled(Toggled(m, a), b) == Toggled(Toggled(m, b), a)
  {
    var x := Toggled(Toggled(m, a), b);
    var y := Toggled(Toggled(m, b), a);
    assert forall j :: j in x <==> j in y;
    assert forall j :: j in x ==> x[j] == y[j];
  }

  /** A setter's argument: a new map, or a function of the current one. */
  datatype Update = Replace(flags: Flags) | Apply(f: Flags -> Flags)

  function Applied(u: Update, current: Flags): Flags {
    match u
    case Replace(flags) => flags
    case Apply(f) => f(current)
  }
}
