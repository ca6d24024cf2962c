/**
 * The texture-tiling table of the box: six materials (one per face, in the
 * box geometry's group order), each holding six texture maps, each map with
 * a repeat factor (x, y). The dimension controls rewrite cells of this table
 * in place, key by key.
 */
module Materials {

  /** The six texture channels, in the order they are declared and iterated. */
  datatype TextureKey = Map | NormalMap | MetalnessMap | RoughnessMap | AoMap | DisplacementMap

  /** The keys of the texture table, in iteration order. */
  const Keys: seq<TextureKey> := [Map, NormalMap, MetalnessMap, RoughnessMap, AoMap, DisplacementMap]

  const MaterialCount: nat := 6

  /** The repeat factor of one texture map. */
  datatype Repeat = Repeat(x: real, y: real)

  /** One material: its texture maps by key (a key is absent until its map is assigned). */
  type Material = map<TextureKey, Repeat>

  lemma KeysComplete(k: TextureKey)
    ensures k in Keys
  {
    match k
    case Map => assert Keys[0] == k;
    case NormalMap => assert Keys[1] == k;
    case MetalnessMap => assert Keys[2] == k;
    case RoughnessMap => assert Keys[3] == k;
    case AoMap => assert Keys[4] == k;
    case DisplacementMap => assert Keys[5] == k;
  }

  predicate HasAllMaps(m: Material) {
    forall k :: k in Keys ==> k in m
  }

  /** Six materials, each with all six maps assigned. */
  predicate WellFormed(t: seq<Material>) {
    |t| == MaterialCount && forall i :: 0 <= i < |t| ==> HasAllMaps(t[i])
  }

  // ---------------------------------------------------------------------
  // Initial tiling
  // ---------------------------------------------------------------------

  /** A material whose maps of keys `ks` have been assigned with repeat (1, 1). */
  function Tiled(ks: seq<TextureKey>): Material {
    map k | k in ks :: Repeat(1.0, 1.0)
  }

  /** Every material with every map at repeat (1, 1). */
  const InitialTable: seq<Material> := seq(MaterialCount, _ => Tiled(Keys))

  lemma InitialTableIsOnes()
    ensures WellFormed(InitialTable)
    ensures forall i, k :: 0 <= i < |InitialTable| && k in Keys ==> InitialTable[i][k] == Repeat(1.0, 1.0)
    ensures forall i :: 0 <= i < |InitialTable| ==> InitialTable[i].Keys == set k | k in Keys
  {
  }

  lemma TiledStep(ks: seq<TextureKey>, key: TextureKey)
    ensures Tiled(ks + [key]) == Tiled(ks)[key := Repeat(1.0, 1.0)]
  {
    var l, r := Tiled(ks + [key]), Tiled(ks)[key := Repeat(1.0, 1.0)];
    assert forall k :: k in l <==> k in r;
  }

  /**
   * The setup loop: for each texture key, give every material its own copy
   * of the map, with repeat (1, 1).
   */
  method InitRepeats(a: array<Material>)
    requires a.Length == MaterialCount
    requires forall i :: 0 <= i < a.Length ==> a[i] == map[]
    modifies a
    ensures a[..] == InitialTable
  {
    for j := 0 to |Keys|
      invariant forall i :: 0 <= i < a.Length ==> a[i] == Tiled(Keys[..j])
    {
      var key := Keys[j];
      TiledStep(Keys[..j], key);
      assert Keys[..j + 1] == Keys[..j] + [key];
      for i := 0 to a.Length
        invariant forall m :: 0 <= m < i ==> a[m] == Tiled(Keys[..j + 1])
        invariant forall m :: i <= m < a.Length ==> a[m] == Tiled(Keys[..j])
      {
        a[i] := a[i][key := Repeat(1.0, 1.0)];
      }
    }
    assert Keys[..|Keys|] == Keys;
  }

  // ---------------------------------------------------------------------
  // The dimension changes
  // ---------------------------------------------------------------------

  /**
   * A change of the box's dimensions as it reaches the table: the width
   * slider, the depth slider, or both inputs applied together.
   */
  datatype Change = Width(v: real) | Depth(v: real) | Dimension(width: real, depth: real)

  /** The materials whose maps a change writes to. */
  predicate Touches(ch: Change, i: int) {
    match ch
    case Width(_) => 2 <= i <= 5
    case Depth(_) => i == 0 || i == 1 || i == 2 || i == 4
    case Dimension(_, _) => 0 <= i <= 5
  }

  /** The repeat factor a map of material `i` holds after a change, given the factor `c` it held. */
  function Retile(c: Repeat, i: int, ch: Change): Repeat {
    match ch
    case Width(w) =>
      if 2 <= i <= 5 then c.(x := w) else c
    case Depth(d) =>
      var c1 := if i == 0 || i == 1 then c.(x := d) else c;
      if i == 2 || i == 4 then c1.(y := d) else c1
    case Dimension(w, d) =>
      var c1 := if 2 <= i <= 5 then c.(x := w) else c;
      var c2 := if i == 0 || i == 1 then c1.(x := d) else c1;
      if i == 2 || i == 4 then c2.(y := d) else c2
  }

  /** Material m of index i with the maps of keys `done` retiled and the others as they were. */
  function RetileKeys(m: Material, i: int, ch: Change, done: seq<TextureKey>): Material {
    map k | k in m :: if k in done then Retile(m[k], i, ch) else m[k]
  }

  /** The whole table after a change: every key of every material retiled. */
  function Retable(t: seq<Material>, ch: Change): seq<Material> {
    seq(|t|, i requires 0 <= i < |t| => RetileKeys(t[i], i, ch, Keys))
  }

  lemma RetileUntouched(c: Repeat, i: int, ch: Change)
    requires !Touches(ch, i)
    ensures Retile(c, i, ch) == c
  {
  }

  /** A material no change touches comes out of the table update as it went in. */
  lemma UntouchedMaterialUnchanged(t: seq<Material>, ch: Change, i: int)
    requires 0 <= i < |t| && !Touches(ch, i)
    ensures Retable(t, ch)[i] == t[i]
  {
    var r := Retable(t, ch)[i];
    forall k | k in t[i]
      ensures r[k] == t[i][k]
    {
      RetileUntouched(t[i][k], i, ch);
    }
  }

  /** Processing one more key writes that key's map and nothing else. */
  lemma RetileKeysStep(m: Material, i: int, ch: Change, done: seq<TextureKey>, key: TextureKey)
    requires key in m
    ensures var p := RetileKeys(m, i, ch, done);
      RetileKeys(m, i, ch, done + [key]) == p[key := Retile(p[key], i, ch)]
  {
    var p := RetileKeys(m, i, ch, done);
    var l, r := RetileKeys(m, i, ch, done + [key]), p[key := Retile(p[key], i, ch)];
    assert forall k :: k in l <==> k in r;
    forall k | k in l
      ensures l[k] == r[k]
    {
      if k == key {
        assert k in done + [key];
      } else {
        assert (k in done + [key]) == (k in done);
      }
    }
  }

  lemma RetablePreservesWellFormed(t: seq<Material>, ch: Change)
    requires WellFormed(t)
    ensures WellFormed(Retable(t, ch))
  {
  }

  /** Table s is table t with the maps of keys `done` retiled by ch. */
  ghost predicate Partial(t: seq<Material>, s: seq<Material>, ch: Change, done: seq<TextureKey>) {
    |s| == |t| && forall i :: 0 <= i < |t| ==> s[i] == RetileKeys(t[i], i, ch, done)
  }

  /** One more key: every material gets that key's map retiled. */
  lemma PartialStep(t: seq<Material>, s: seq<Material>, s': seq<Material>, ch: Change, done: seq<TextureKey>, key: TextureKey)
    requires WellFormed(t) && key in Keys && Partial(t, s, ch, done)
    requires |s'| == |s|
    requires forall i :: 0 <= i < |s| ==> s'[i] == s[i][key := Retile(s[i][key], i, ch)]
    ensures Partial(t, s', ch, done + [key])
  {
    forall i | 0 <= i < |t|
      ensures s'[i] == RetileKeys(t[i], i, ch, done + [key])
    {
      RetileKeysStep(t[i], i, ch, done, key);
    }
  }

  /** Once every key has been processed the table is the retabled one. */
  lemma PartialDone(t: seq<Material>, s: seq<Material>, ch: Change)
    requires Partial(t, s, ch, Keys[..|Keys|])
    ensures s == Retable(t, ch)
  {
    assert Keys[..|Keys|] == Keys;
  }

  lemma PartialStart(t: seq<Material>, ch: Change)
    ensures Partial(t, t, ch, Keys[..0])
  {
    forall i | 0 <= i < |t|
      ensures t[i] == RetileKeys(t[i], i, ch, Keys[..0])
    {
      RetileKeysNone(t[i], i, ch);
    }
  }

  lemma RetileKeysNone(m: Material, i: int, ch: Change)
    ensures RetileKeys(m, i, ch, []) == m
  {
  }

  /** A table part-way through a change still has every map assigned. */
  lemma PartialHasMaps(t: seq<Material>, s: seq<Material>, ch: Change, done: seq<TextureKey>)
    requires WellFormed(t) && Partial(t, s, ch, done)
    ensures WellFormed(s)
  {
  }

  /** Writing back the value a map already holds changes nothing. */
  lemma UpdateSame(m: Material, key: TextureKey)
    requires key in m
    ensures m[key := m[key]] == m
  {
  }

  /**
   * The width half of the per-key loop body: repeat.x of materials 2, 3, 4
   * and 5 becomes the width, for the map of `key`.
   */
  method WidthForKey(a: array<Material>, key: TextureKey, w: real)
    requires a.Length == MaterialCount && forall i :: 0 <= i < a.Length ==> key in a[i]
    modifies a
    ensures forall i :: 0 <= i < a.Length ==> a[i] == old(a[i])[key := Retile(old(a[i])[key], i, Width(w))]
  {
    a[2] := a[2][key := a[2][key].(x := w)];
    a[3] := a[3][key := a[3][key].(x := w)];
    a[4] := a[4][key := a[4][key].(x := w)];
    a[5] := a[5][key := a[5][key].(x := w)];
    UpdateSame(a[0], key);
    UpdateSame(a[1], key);
  }

  /**
   * The depth half of the per-key loop body: repeat.x of materials 0 and 1
   * and repeat.y of materials 2 and 4 become the depth, for the map of `key`.
   */
  method DepthForKey(a: array<Material>, key: TextureKey, d: real)
    requires a.Length == MaterialCount && forall i :: 0 <= i < a.Length ==> key in a[i]
    modifies a
    ensures forall i :: 0 <= i < a.Length ==> a[i] == old(a[i])[key := Retile(old(a[i])[key], i, Depth(d))]
  {
    a[0] := a[0][key := a[0][key].(x := d)];
    a[1] := a[1][key := a[1][key].(x := d)];
    a[2] := a[2][key := a[2][key].(y := d)];
    a[4] := a[4][key := a[4][key].(y := d)];
    UpdateSame(a[3], key);
    UpdateSame(a[5], key);
  }

  /** The Width handler's loop over the texture keys. */
  method ApplyWidth(a: array<Material>, v: real)
    requires WellFormed(a[..])
    modifies a
    ensures a[..] == Retable(old(a[..]), Width(v))
  {
    PartialStart(a[..], Width(v));
    for j := 0 to |Keys|
      invariant Partial(old(a[..]), a[..], Width(v), Keys[..j])
    {
      var key := Keys[j];
      PartialHasMaps(old(a[..]), a[..], Width(v), Keys[..j]);
      ghost var before := a[..];
      WidthForKey(a, key, v);
      PartialStep(old(a[..]), before, a[..], Width(v), Keys[..j], key);
      assert Keys[..j + 1] == Keys[..j] + [key];
    }
    PartialDone(old(a[..]), a[..], Width(v));
  }

  /** The Depth handler's loop over the texture keys. */
  method ApplyDepth(a: array<Material>, v: real)
    requires WellFormed(a[..])
    modifies a
    ensures a[..] == Retable(old(a[..]), Depth(v))
  {
    PartialStart(a[..], Depth(v));
    for j := 0 to |Keys|
      invariant Partial(old(a[..]), a[..], Depth(v), Keys[..j])
    {
      var key := Keys[j];
      PartialHasMaps(old(a[..]), a[..], Depth(v), Keys[..j]);
      ghost var before := a[..];
      DepthForKey(a, key, v);
      PartialStep(old(a[..]), before, a[..], Depth(v), Keys[..j], key);
      assert Keys[..j + 1] == Keys[..j] + [key];
    }
    PartialDone(old(a[..]), a[..], Depth(v));
  }

  /**
   * The loop of the combined dimension update: for every key, the width
   * assignments and then the depth assignments.
   */
  method ApplyDimension(a: array<Material>, w: real, d: real)
    requires WellFormed(a[..])
    modifies a
    ensures a[..] == Retable(old(a[..]), Dimension(w, d))
  {
    PartialStart(a[..], Dimension(w, d));
    for j := 0 to |Keys|
      invariant Partial(old(a[..]), a[..], Dimension(w, d), Keys[..j])
    {
      var key := Keys[j];
      PartialHasMaps(old(a[..]), a[..], Dimension(w, d), Keys[..j]);
      ghost var before := a[..];
      WidthForKey(a, key, w);
      DepthForKey(a, key, d);
      forall i | 0 <= i < a.Length
        ensures a[..][i] == before[i][key := Retile(before[i][key], i, Dimension(w, d))]
      {
        RetileWidthDepth(before[i][key], i, w, d);
      }
      PartialStep(old(a[..]), before, a[..], Dimension(w, d), Keys[..j], key);
      assert Keys[..j + 1] == Keys[..j] + [key];
    }
    PartialDone(old(a[..]), a[..], Dimension(w, d));
  }

  // ---------------------------------------------------------------------
  // What the changes do to the table
  // ---------------------------------------------------------------------

  /**
   * A width change writes repeat.x of materials 2 to 5, for every key, and
   * no other cell.
   */
  lemma WidthCells(t: seq<Material>, v: real, i: int, k: TextureKey)
    requires WellFormed(t) && 0 <= i < MaterialCount && k in Keys
    ensures var r := Retable(t, Width(v))[i][k];
      r.x == (if 2 <= i <= 5 then v else t[i][k].x) && r.y == t[i][k].y
  {
  }

  /**
   * A depth change writes repeat.x of materials 0 and 1 and repeat.y of
   * materials 2 and 4, for every key, and no other cell.
   */
  lemma DepthCells(t: seq<Material>, v: real, i: int, k: TextureKey)
    requires WellFormed(t) && 0 <= i < MaterialCount && k in Keys
    ensures var r := Retable(t, Depth(v))[i][k];
      r.x == (if i == 0 || i == 1 then v else t[i][k].x)
      && r.y == (if i == 2 || i == 4 then v else t[i][k].y)
  {
  }

  /**
   * The combined update: repeat.x is the width on materials 2 to 5 and the
   * depth on materials 0 and 1; repeat.y is the depth on materials 2 and 4
   * and untouched on materials 0, 1, 3 and 5.
   */
  lemma DimensionCells(t: seq<Material>, w: real, d: real, i: int, k: TextureKey)
    requires WellFormed(t) && 0 <= i < MaterialCount && k in Keys
    ensures var r := Retable(t, Dimension(w, d))[i][k];
      r.x == (if 2 <= i then w else d)
      && r.y == (if i == 2 || i == 4 then d else t[i][k].y)
  {
  }

  /** Two changes compose map by map into a third when they do so cell by cell. */
  lemma RetileKeysCompose(m: Material, i: int, a: Change, b: Change, c: Change)
    requires forall r: Repeat :: Retile(Retile(r, i, a), i, b) == Retile(r, i, c)
    ensures RetileKeys(RetileKeys(m, i, a, Keys), i, b, Keys) == RetileKeys(m, i, c, Keys)
  {
    var p := RetileKeys(m, i, a, Keys);
    var l, r := RetileKeys(p, i, b, Keys), RetileKeys(m, i, c, Keys);
    assert forall k :: k in l <==> k in r;
    forall k | k in m
      ensures l[k] == r[k]
    {
      if k in Keys {
        assert p[k] == Retile(m[k], i, a);
      }
    }
  }

  /** Two changes compose cell by cell into a third: then they compose on the whole table. */
  lemma RetableCompose(t: seq<Material>, a: Change, b: Change, c: Change)
    requires forall r: Repeat, i: int :: Retile(Retile(r, i, a), i, b) == Retile(r, i, c)
    ensures Retable(Retable(t, a), b) == Retable(t, c)
  {
    var l, r := Retable(Retable(t, a), b), Retable(t, c);
    forall i | 0 <= i < |t|
      ensures l[i] == r[i]
    {
      RetileKeysCompose(t[i], i, a, b, c);
    }
  }

  lemma RetileWidthDepth(r: Repeat, i: int, w: real, d: real)
    ensures Retile(Retile(r, i, Width(w)), i, Depth(d)) == Retile(r, i, Dimension(w, d))
    ensures Retile(Retile(r, i, Depth(d)), i, Width(w)) == Retile(r, i, Dimension(w, d))
  {
  }

  lemma RetileIdempotent(r: Repeat, i: int, ch: Change)
    ensures Retile(Retile(r, i, ch), i, ch) == Retile(r, i, ch)
  {
  }

  /** Widths and depths write disjoint cells, so their order does not matter. */
  lemma WidthDepthCommute(t: seq<Material>, w: real, d: real)
    ensures Retable(Retable(t, Width(w)), Depth(d)) == Retable(Retable(t, Depth(d)), Width(w))
  {
    forall r: Repeat, i: int
      ensures Retile(Retile(r, i, Width(w)), i, Depth(d)) == Retile(r, i, Dimension(w, d))
      ensures Retile(Retile(r, i, Depth(d)), i, Width(w)) == Retile(r, i, Dimension(w, d))
    {
      RetileWidthDepth(r, i, w, d);
    }
    RetableCompose(t, Width(w), Depth(d), Dimension(w, d));
    RetableCompose(t, Depth(d), Width(w), Dimension(w, d));
  }

  /** The combined update is a width change followed by a depth change. */
  lemma DimensionIsWidthThenDepth(t: seq<Material>, w: real, d: real)
    ensures Retable(t, Dimension(w, d)) == Retable(Retable(t, Width(w)), Depth(d))
  {
    forall r: Repeat, i: int
      ensures Retile(Retile(r, i, Width(w)), i, Depth(d)) == Retile(r, i, Dimension(w, d))
    {
      RetileWidthDepth(r, i, w, d);
    }
    RetableCompose(t, Width(w), Depth(d), Dimension(w, d));
  }

  /** Applying the same change twice is applying it once. */
  lemma RetableIdempotent(t: seq<Material>, ch: Change)
    ensures Retable(Retable(t, ch), ch) == Retable(t, ch)
  {
    forall r: Repeat, i: int
      ensures Retile(Retile(r, i, ch), i, ch) == Retile(r, i, ch)
    {
      RetileIdempotent(r, i, ch);
    }
    RetableCompose(t, ch, ch, ch);
  }
}
