/** ItemMultiBreakWithModes and ToolModeMultiBreak (Item/ItemMultiBreakWithModes.cs):
    breaking or damaging the blocks around the one being worked on. The world
    is abstract: `canBreak` is the item's CanMultiBreak applied to the block at
    a position, `access` the land-claim check, `dist` the squared distance from
    the hit position to a block's centre. */
module MultiBreak {
  import opened Types
  import opened ToolModes
  import ItemModes

  datatype Pos = Pos(x: int, y: int, z: int)

  /** ItemMultiBreakWithModes.Group */
  const MultiBreakGroup: Code := "game:item-scythe"
  /** ToolModeMultiBreak.MultiBreakQuantity */
  const DefaultQuantity: int := 5

  /** ItemMultiBreakWithModes.CanMultiBreak: every block qualifies. */
  function DefaultCanMultiBreak(p: Pos): (r: bool)
    ensures r
  {
    true
  }

  function Min(a: int, b: int): (r: int)
    ensures r <= a && r <= b && (r == a || r == b)
  {
    if a <= b then a else b
  }

  predicate IsNeighbour(origin: Pos, p: Pos) {
    p != origin && -1 <= p.x - origin.x <= 1 && -1 <= p.y - origin.y <= 1 && -1 <= p.z - origin.z <= 1
  }

  // ---------------------------------------------------------------------------
  // Candidate enumeration (GetNearblyMultibreakables)

  /** The i-th cell of the 3x3x3 cube in loop order (dx outermost, dz innermost). */
  function Cell(origin: Pos, i: nat): Pos {
    Pos(origin.x + Dx(i), origin.y + Dy(i), origin.z + Dz(i))
  }

  /** The offsets of step i: i == 9 * (dx + 1) + 3 * (dy + 1) + (dz + 1). */
  function Dx(i: nat): int {
    if i < 9 then -1 else if i < 18 then 0 else 1
  }

  function Dy(i: nat): int {
    var r := i - 9 * (Dx(i) + 1);
    if r < 3 then -1 else if r < 6 then 0 else 1
  }

  function Dz(i: nat): int {
    i - 9 * (Dx(i) + 1) - 3 * (Dy(i) + 1) - 1
  }

  /** The cell the loops visit with offsets (dx, dy, dz). */
  lemma CellAt(origin: Pos, dx: int, dy: int, dz: int)
    requires -1 <= dx <= 1 && -1 <= dy <= 1 && -1 <= dz <= 1
    ensures Cell(origin, (dx + 1) * 9 + (dy + 1) * 3 + (dz + 1)) == Pos(origin.x + dx, origin.y + dy, origin.z + dz)
  {
  }

  /** The positions the loops have added after visiting the first k cells. */
  function Kept(origin: Pos, canBreak: Pos -> bool, k: nat): seq<Pos>
    requires k <= 27
  {
    if k == 0 then []
    else
      var c := Cell(origin, k - 1);
      Kept(origin, canBreak, k - 1) + (if c != origin && canBreak(c) then [c] else [])
  }

  lemma KeptStep(origin: Pos, canBreak: Pos -> bool, k: nat)
    requires k < 27
    ensures Kept(origin, canBreak, k + 1)
              == Kept(origin, canBreak, k) + (if Cell(origin, k) != origin && canBreak(Cell(origin, k)) then [Cell(origin, k)] else [])
  {
  }

  /** The innermost loop, over dz, for fixed dx and dy: visits the next three cells. */
  method ScanColumn(origin: Pos, canBreak: Pos -> bool, dx: int, dy: int, start: seq<Pos>) returns (positions: seq<Pos>)
    requires -1 <= dx <= 1 && -1 <= dy <= 1
    requires start == Kept(origin, canBreak, (dx + 1) * 9 + (dy + 1) * 3)
    ensures positions == Kept(origin, canBreak, (dx + 1) * 9 + (dy + 1) * 3 + 3)
  {
    positions := start;
    ghost var base := (dx + 1) * 9 + (dy + 1) * 3;
    for dz := -1 to 2
      invariant positions == Kept(origin, canBreak, base + (dz + 1))
    {
      CellAt(origin, dx, dy, dz);
      KeptStep(origin, canBreak, base + (dz + 1));
      var dpos := Pos(origin.x + dx, origin.y + dy, origin.z + dz);
      if !(dx == 0 && dy == 0 && dz == 0) && canBreak(dpos) {
        positions := positions + [dpos];
      }
    }
  }

  /** The triple loop over offsets in {-1, 0, 1}, skipping the origin; the
      OrderedDictionary keeps insertion order. */
  method GetNearbyMultibreakables(origin: Pos, canBreak: Pos -> bool) returns (positions: seq<Pos>)
    ensures positions == Kept(origin, canBreak, 27)
  {
    positions := [];
    for dx := -1 to 2
      invariant positions == Kept(origin, canBreak, (dx + 1) * 9)
    {
      for dy := -1 to 2
        invariant positions == Kept(origin, canBreak, (dx + 1) * 9 + (dy + 1) * 3)
      {
        positions := ScanColumn(origin, canBreak, dx, dy, positions);
      }
    }
  }

  lemma CellIsNearby(origin: Pos, i: nat)
    requires i < 27
    ensures var c := Cell(origin, i); -1 <= c.x - origin.x <= 1 && -1 <= c.y - origin.y <= 1 && -1 <= c.z - origin.z <= 1
  {
  }

  lemma {:induction false} KeptMembers(origin: Pos, canBreak: Pos -> bool, k: nat, p: Pos)
    requires k <= 27
    ensures p in Kept(origin, canBreak, k) <==> p != origin && canBreak(p) && exists i :: 0 <= i < k && Cell(origin, i) == p
  {
    if k > 0 {
      KeptMembers(origin, canBreak, k - 1, p);
    }
  }

  /** Distinct steps visit distinct cells. */
  lemma CellInjective(origin: Pos, i: nat, j: nat)
    requires i < 27 && j < 27 && i != j
    ensures Cell(origin, i) != Cell(origin, j)
  {
  }

  lemma {:induction false} KeptFacts(origin: Pos, canBreak: Pos -> bool, k: nat)
    requires k <= 27
    ensures |Kept(origin, canBreak, k)| <= if k > 13 then k - 1 else k
    ensures forall a, b :: 0 <= a < b < |Kept(origin, canBreak, k)| ==> Kept(origin, canBreak, k)[a] != Kept(origin, canBreak, k)[b]
  {
    if k > 0 {
      KeptFacts(origin, canBreak, k - 1);
      var c := Cell(origin, k - 1);
      if k - 1 == 13 {
        assert c == origin;
      }
      KeptMembers(origin, canBreak, k - 1, c);
      forall i | 0 <= i < k - 1
        ensures Cell(origin, i) != c
      {
        CellInjective(origin, i, k - 1);
      }
      assert c !in Kept(origin, canBreak, k - 1);
    }
  }

  /** The candidates are exactly the breakable neighbours: at most 26 of them,
      none twice (so OrderedDictionary.Add never meets a duplicate key). */
  lemma CandidatesAreBreakableNeighbours(origin: Pos, canBreak: Pos -> bool)
    ensures forall p :: p in Kept(origin, canBreak, 27) <==> IsNeighbour(origin, p) && canBreak(p)
    ensures |Kept(origin, canBreak, 27)| <= 26
    ensures forall a, b :: 0 <= a < b < |Kept(origin, canBreak, 27)| ==> Kept(origin, canBreak, 27)[a] != Kept(origin, canBreak, 27)[b]
  {
    KeptFacts(origin, canBreak, 27);
    forall p
      ensures p in Kept(origin, canBreak, 27) <==> IsNeighbour(origin, p) && canBreak(p)
    {
      KeptMembers(origin, canBreak, 27, p);
      if IsNeighbour(origin, p) {
        CellAt(origin, p.x - origin.x, p.y - origin.y, p.z - origin.z);
        var i := (p.x - origin.x + 1) * 9 + (p.y - origin.y + 1) * 3 + (p.z - origin.z + 1);
        assert Cell(origin, i) == p;
      }
      if exists i :: 0 <= i < 27 && Cell(origin, i) == p {
        var i :| 0 <= i < 27 && Cell(origin, i) == p;
        CellIsNearby(origin, i);
      }
    }
  }

  // ---------------------------------------------------------------------------
  // Ordering by distance (OrderBy(v => v.Value), a stable sort)

  predicate SortedBy(s: seq<Pos>, dist: Pos -> real) {
    forall i, j :: 0 <= i < j < |s| ==> dist(s[i]) <= dist(s[j])
  }

  /** Inserts p after every element not farther than it, so ties keep their
      arrival order. */
  function Insert(p: Pos, s: seq<Pos>, dist: Pos -> real): (r: seq<Pos>)
    requires SortedBy(s, dist)
    ensures multiset(r) == multiset(s) + multiset{p}
    ensures SortedBy(r, dist)
  {
    if s == [] then [p]
    else if dist(p) < dist(s[0]) then [p] + s
    else
      var rest := Insert(p, s[1..], dist);
      InsertHead(p, s, rest, dist);
      [s[0]] + rest
  }

  /** The step of Insert that keeps s[0] in front of the insertion into s[1..]. */
  lemma InsertHead(p: Pos, s: seq<Pos>, rest: seq<Pos>, dist: Pos -> real)
    requires s != [] && SortedBy(s, dist) && dist(s[0]) <= dist(p)
    requires multiset(rest) == multiset(s[1..]) + multiset{p} && SortedBy(rest, dist)
    ensures multiset([s[0]] + rest) == multiset(s) + multiset{p}
    ensures SortedBy([s[0]] + rest, dist)
  {
    assert s == [s[0]] + s[1..];
    assert multiset(s) == multiset{s[0]} + multiset(s[1..]);
    forall j | 0 <= j < |rest|
      ensures dist(s[0]) <= dist(rest[j])
    {
      assert rest[j] in multiset(rest);
      if rest[j] != p {
        assert rest[j] in multiset(s[1..]);
        var k :| 0 <= k < |s[1..]| && s[1..][k] == rest[j];
        assert s[k + 1] == rest[j];
      }
    }
    var r := [s[0]] + rest;
    forall i, j | 0 <= i < j < |r|
      ensures dist(r[i]) <= dist(r[j])
    {
      if i > 0 {
        assert r[i] == rest[i - 1] && r[j] == rest[j - 1];
      } else {
        assert r[j] == rest[j - 1];
      }
    }
  }

  /** The candidates in ascending order of distance, a permutation of them. */
  function OrderByDistance(s: seq<Pos>, dist: Pos -> real): (r: seq<Pos>)
    ensures multiset(r) == multiset(s)
    ensures SortedBy(r, dist)
  {
    if s == [] then []
    else
      assert s == s[..|s| - 1] + [s[|s| - 1]];
      Insert(s[|s| - 1], OrderByDistance(s[..|s| - 1], dist), dist)
  }

  function Ordered(origin: Pos, canBreak: Pos -> bool, dist: Pos -> real): seq<Pos> {
    OrderByDistance(Kept(origin, canBreak, 27), dist)
  }

  /** The positions the two loops consider are exactly the breakable neighbours. */
  lemma OrderedAreBreakableNeighbours(origin: Pos, canBreak: Pos -> bool, dist: Pos -> real)
    ensures forall p :: p in Ordered(origin, canBreak, dist) <==> IsNeighbour(origin, p) && canBreak(p)
    ensures |Ordered(origin, canBreak, dist)| <= 26
    ensures SortedBy(Ordered(origin, canBreak, dist), dist)
  {
    CandidatesAreBreakableNeighbours(origin, canBreak);
    var s := Kept(origin, canBreak, 27);
    var r := Ordered(origin, canBreak, dist);
    assert |r| == |multiset(r)| == |multiset(s)| == |s|;
    forall p
      ensures p in r <==> p in s
    {
      assert p in r <==> p in multiset(r);
      assert p in s <==> p in multiset(s);
    }
  }

  /** The accessible positions, in order. */
  function Accessible(ps: seq<Pos>, access: Pos -> bool): (r: seq<Pos>)
    ensures |r| <= |ps|
    ensures forall p :: p in r <==> p in ps && access(p)
  {
    if ps == [] then [] else (if access(ps[0]) then [ps[0]] else []) + Accessible(ps[1..], access)
  }

  // ---------------------------------------------------------------------------
  // DamageNearbyBlocks

  /** The positions damaged from `ps` on with quota q: stop when q reaches 0,
      skip inaccessible positions without using quota. */
  function DamagedFrom(ps: seq<Pos>, access: Pos -> bool, q: int): seq<Pos>
    decreases |ps|
  {
    if ps == [] || q == 0 then []
    else if !access(ps[0]) then DamagedFrom(ps[1..], access, q)
    else [ps[0]] + DamagedFrom(ps[1..], access, q - 1)
  }

  /** With a non-negative quota the damaged positions are the first
      min(q, accessible) accessible positions; a negative quota (a negative
      durability) never reaches 0 and damages every accessible position. */
  lemma {:induction false} DamagedIsAccessiblePrefix(ps: seq<Pos>, access: Pos -> bool, q: int)
    ensures q >= 0 ==> DamagedFrom(ps, access, q) == Accessible(ps, access)[..Min(q, |Accessible(ps, access)|)]
    ensures q < 0 ==> DamagedFrom(ps, access, q) == Accessible(ps, access)
    decreases |ps|
  {
    if ps != [] && q != 0 {
      if access(ps[0]) {
        DamagedIsAccessiblePrefix(ps[1..], access, q - 1);
      } else {
        DamagedIsAccessiblePrefix(ps[1..], access, q);
      }
    }
  }

  /** The foreach over the ordered positions with `q = Math.Min(MultiBreakQuantity, leftDurability)`. */
  method DamageOrdered(ordered: seq<Pos>, access: Pos -> bool, q0: int) returns (damaged: seq<Pos>)
    ensures damaged == DamagedFrom(ordered, access, q0)
  {
    damaged := [];
    var q := q0;
    var i := 0;
    while i < |ordered|
      invariant 0 <= i <= |ordered|
      invariant damaged + DamagedFrom(ordered[i..], access, q) == DamagedFrom(ordered, access, q0)
    {
      if q == 0 {
        break;
      }
      assert ordered[i..][1..] == ordered[i + 1..];
      if access(ordered[i]) {
        damaged := damaged + [ordered[i]];
        q := q - 1;
      }
      i := i + 1;
    }
  }

  /** DamageNearbyBlocks: nothing unless the held item is a multi-break item
      and the origin block qualifies; then the quota loop over the candidates
      in ascending distance. Returns the positions DamageBlock is called on. */
  method DamageNearbyBlocks(origin: Pos, canBreak: Pos -> bool, dist: Pos -> real, access: Pos -> bool,
                            isMultiBreakItem: bool, quantity: int, leftDurability: int) returns (damaged: seq<Pos>)
    ensures !isMultiBreakItem || !canBreak(origin) ==> damaged == []
    ensures isMultiBreakItem && canBreak(origin) ==>
              damaged == DamagedFrom(Ordered(origin, canBreak, dist), access, Min(quantity, leftDurability))
  {
    if !isMultiBreakItem || !canBreak(origin) {
      return [];
    }
    var candidates := GetNearbyMultibreakables(origin, canBreak);
    var ordered := OrderByDistance(candidates, dist);
    damaged := DamageOrdered(ordered, access, Min(quantity, leftDurability));
  }

  /** The damaged positions are accessible breakable neighbours, at most the
      quota, nearest first. */
  lemma DamageNearbyBounds(origin: Pos, canBreak: Pos -> bool, dist: Pos -> real, access: Pos -> bool, quantity: int, leftDurability: int)
    requires quantity >= 0 && leftDurability >= 0
    ensures var d := DamagedFrom(Ordered(origin, canBreak, dist), access, Min(quantity, leftDurability));
            |d| <= Min(quantity, leftDurability) && |d| <= 26
            && |d| <= |Accessible(Ordered(origin, canBreak, dist), access)|
            && (forall p :: p in d ==> IsNeighbour(origin, p) && canBreak(p) && access(p))
            && d == Accessible(Ordered(origin, canBreak, dist), access)[..|d|]
  {
    var ordered := Ordered(origin, canBreak, dist);
    OrderedAreBreakableNeighbours(origin, canBreak, dist);
    DamagedIsAccessiblePrefix(ordered, access, Min(quantity, leftDurability));
    var acc := Accessible(ordered, access);
    var d := DamagedFrom(ordered, access, Min(quantity, leftDurability));
    assert forall p :: p in d ==> p in acc;
  }

  // ---------------------------------------------------------------------------
  // ToolModeMultiBreak.OnBlockBrokenWith

  /** The neighbours broken from `ps` on after q neighbours so far: skip
      inaccessible positions; after each break (and its DamageItem) stop once
      q reaches the quantity or the itemstack is gone. `alive(n)` says whether
      the itemstack is still there after the n-th DamageItem. */
  function BrokenFrom(ps: seq<Pos>, access: Pos -> bool, quantity: int, alive: nat -> bool, q: nat): seq<Pos>
    decreases |ps|
  {
    if ps == [] then []
    else if !access(ps[0]) then BrokenFrom(ps[1..], access, quantity, alive, q)
    else [ps[0]] + (if q + 1 >= quantity || !alive(q + 1) then [] else BrokenFrom(ps[1..], access, quantity, alive, q + 1))
  }

  /** The broken neighbours are the first accessible ones; there are at most
      max(quantity - q, 1) of them, since the quota is checked only after a
      break; with an itemstack that survives they are exactly
      min(quantity - q, accessible) of them. */
  lemma {:induction false} BrokenIsAccessiblePrefix(ps: seq<Pos>, access: Pos -> bool, quantity: int, alive: nat -> bool, q: nat)
    requires q == 0 || q < quantity
    ensures var b := BrokenFrom(ps, access, quantity, alive, q);
            |b| <= |Accessible(ps, access)| && b == Accessible(ps, access)[..|b|]
            && |b| <= if quantity - q >= 1 then quantity - q else 1
    ensures (forall n: nat :: alive(n)) && q < quantity ==>
              |BrokenFrom(ps, access, quantity, alive, q)| == Min(quantity - q, |Accessible(ps, access)|)
    decreases |ps|
  {
    if ps != [] {
      var acc := Accessible(ps, access);
      var tail := Accessible(ps[1..], access);
      if !access(ps[0]) {
        assert acc == tail;
        BrokenIsAccessiblePrefix(ps[1..], access, quantity, alive, q);
      } else {
        assert acc == [ps[0]] + tail;
        if !(q + 1 >= quantity || !alive(q + 1)) {
          BrokenIsAccessiblePrefix(ps[1..], access, quantity, alive, q + 1);
          var rest := BrokenFrom(ps[1..], access, quantity, alive, q + 1);
          assert acc[..1 + |rest|] == [ps[0]] + tail[..|rest|];
        }
      }
    }
  }

  /** The foreach of OnBlockBrokenWith over the ordered neighbours. `damages`
      counts DamageItem calls. */
  method BreakOrdered(ordered: seq<Pos>, access: Pos -> bool, quantity: int, alive: nat -> bool)
    returns (broken: seq<Pos>, damages: nat)
    ensures broken == BrokenFrom(ordered, access, quantity, alive, 0)
    ensures damages == |broken|
  {
    broken := [];
    var q: nat := 0;
    var i := 0;
    var done := false;
    while i < |ordered| && !done
      invariant 0 <= i <= |ordered|
      invariant q == |broken|
      invariant done ==> broken == BrokenFrom(ordered, access, quantity, alive, 0)
      invariant !done ==> broken + BrokenFrom(ordered[i..], access, quantity, alive, q) == BrokenFrom(ordered, access, quantity, alive, 0)
      decreases |ordered| - i, if done then 0 else 1
    {
      assert ordered[i..][1..] == ordered[i + 1..];
      if access(ordered[i]) {
        broken := broken + [ordered[i]];
        q := q + 1;
        if q >= quantity || !alive(q) {
          done := true;
        }
      }
      i := i + 1;
    }
    damages := q;
  }

  /** The result of ToolModeMultiBreak.OnBlockBrokenWith: the handling it
      writes, its return value, the BreakMultiBlock calls in order and the
      number of DamageItem calls. */
  datatype BrokenWith = BrokenWith(handling: Handling, result: bool, broken: seq<Pos>, damages: nat)

  /** Sets PreventSubsequent and returns true on every path. Without a player,
      an itemstack or a multi-break item nothing is broken; otherwise the origin
      is broken first, and the neighbours only if the origin block qualifies.
      The world is one snapshot: canBreak judges the origin and its
      neighbours alike, so the origin's own break is taken not to change what
      the neighbours look like. */
  method OnBlockBrokenWith(hasPlayer: bool, hasItemstack: bool, isMultiBreakItem: bool, origin: Pos, canBreak: Pos -> bool,
                           dist: Pos -> real, access: Pos -> bool, quantity: int, alive: nat -> bool)
    returns (r: BrokenWith)
    ensures r.handling == PreventSubsequent && r.result
    ensures !(hasPlayer && hasItemstack && isMultiBreakItem) ==> r.broken == [] && r.damages == 0
    ensures hasPlayer && hasItemstack && isMultiBreakItem && !canBreak(origin) ==> r.broken == [origin] && r.damages == 0
    ensures hasPlayer && hasItemstack && isMultiBreakItem && canBreak(origin) ==>
              r.broken == [origin] + BrokenFrom(Ordered(origin, canBreak, dist), access, quantity, alive, 0)
              && r.damages == |r.broken| - 1
  {
    if !hasPlayer || !hasItemstack || !isMultiBreakItem {
      return BrokenWith(PreventSubsequent, true, [], 0);
    }
    if !canBreak(origin) {
      return BrokenWith(PreventSubsequent, true, [origin], 0);
    }
    var candidates := GetNearbyMultibreakables(origin, canBreak);
    var ordered := OrderByDistance(candidates, dist);
    var neighbours, damages := BreakOrdered(ordered, access, quantity, alive);
    return BrokenWith(PreventSubsequent, true, [origin] + neighbours, damages);
  }

  /** With the default quantity at most five neighbours follow the origin,
      every one an accessible breakable neighbour, nearest first; with a
      lasting itemstack it is exactly the five nearest accessible ones (or
      all of them when there are fewer). */
  lemma DefaultBreaksAtMostFive(origin: Pos, canBreak: Pos -> bool, dist: Pos -> real, access: Pos -> bool, alive: nat -> bool)
    ensures var b := BrokenFrom(Ordered(origin, canBreak, dist), access, DefaultQuantity, alive, 0);
            |b| <= 5 && |b| <= |Accessible(Ordered(origin, canBreak, dist), access)|
            && (forall p :: p in b ==> IsNeighbour(origin, p) && canBreak(p) && access(p))
            && b == Accessible(Ordered(origin, canBreak, dist), access)[..|b|]
    ensures (forall n: nat :: alive(n)) ==>
              |BrokenFrom(Ordered(origin, canBreak, dist), access, DefaultQuantity, alive, 0)|
                == Min(5, |Accessible(Ordered(origin, canBreak, dist), access)|)
  {
    var ordered := Ordered(origin, canBreak, dist);
    OrderedAreBreakableNeighbours(origin, canBreak, dist);
    BrokenIsAccessiblePrefix(ordered, access, DefaultQuantity, alive, 0);
    var acc := Accessible(ordered, access);
    var b := BrokenFrom(ordered, access, DefaultQuantity, alive, 0);
    assert forall p :: p in b ==> p in acc;
  }

  // ---------------------------------------------------------------------------
  // ItemMultiBreakWithModes.OnBlockBreaking

  /** What the item's OnBlockBreaking does: the resistance it returns and the
      positions damaged by the mode's OnBlockBreakingAfter. */
  datatype Breaking = Breaking(resistance: real, damaged: seq<Pos>)

  /** Base (the ItemWithModes chain, with `host` standing for the engine's
      CollectibleObject.OnBlockBreaking) runs first. If the current mode
      implements IActOnBlockBreakingAfter it damages the nearby blocks with
      base's value as damage; the resistance is base's value either way.
      `current` is both the chain's mode and GetRealToolMode's: the two index
      the same resolution, and for an item without modes both are taken as
      no mode. */
  method OnBlockBreaking(current: Option<ToolMode>, handler: ToolMode -> Reply<real>, host: real -> real, remaining: real,
                         isBreakingAfter: ToolMode -> bool, origin: Pos, canBreak: Pos -> bool, dist: Pos -> real,
                         access: Pos -> bool, isMultiBreakItem: bool, quantity: int, leftDurability: int)
    returns (r: Breaking)
    ensures r.resistance == match ItemModes.BlockBreaking(current, handler, remaining)
                            case BaseWith(x) => host(x)
                            case Final(v) => v
    ensures !(current.Some? && isBreakingAfter(current.value)) ==> r.damaged == []
    ensures current.Some? && isBreakingAfter(current.value) && !(isMultiBreakItem && canBreak(origin)) ==> r.damaged == []
    ensures current.Some? && isBreakingAfter(current.value) && isMultiBreakItem && canBreak(origin) ==>
              r.damaged == DamagedFrom(Ordered(origin, canBreak, dist), access, Min(quantity, leftDurability))
  {
    var baseValue := match ItemModes.BlockBreaking(current, handler, remaining)
                     case BaseWith(x) => host(x)
                     case Final(v) => v;
    if current.Some? && isBreakingAfter(current.value) {
      var after := OnBlockBreakingAfter(origin, canBreak, dist, access, isMultiBreakItem, quantity, leftDurability, baseValue);
      return Breaking(after.resistance, after.damaged);
    }
    return Breaking(baseValue, []);
  }

  /** ToolModeMultiBreak.OnBlockBreakingAfter: damages the nearby blocks and
      returns the resistance unchanged. */
  method OnBlockBreakingAfter(origin: Pos, canBreak: Pos -> bool, dist: Pos -> real, access: Pos -> bool,
                              isMultiBreakItem: bool, quantity: int, leftDurability: int, remaining: real)
    returns (r: Breaking)
    ensures r.resistance == remaining
    ensures !isMultiBreakItem || !canBreak(origin) ==> r.damaged == []
    ensures isMultiBreakItem && canBreak(origin) ==>
              r.damaged == DamagedFrom(Ordered(origin, canBreak, dist), access, Min(quantity, leftDurability))
  {
    var damaged := DamageNearbyBlocks(origin, canBreak, dist, access, isMultiBreakItem, quantity, leftDurability);
    return Breaking(remaining, damaged);
  }
}
