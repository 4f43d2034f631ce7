/** The XOR sprite engine behind Dxyn and Dxy0 in both revisions: which
    framebuffer cells a sprite touches, in which order, what toggling them
    does, and what ends up in VF. */
module Sprite {
  import opened Opcodes

  /** A `uint32_t` framebuffer cell; a lit cell holds all ones. */
  type Pixel = p: int | 0 <= p < 0x1_0000_0000
  const On: Pixel := 0xFFFF_FFFF

  /** `p ^= 0xFFFFFFFF` on 32 bits. */
  function Toggle(p: Pixel): Pixel { On - p }

  /** `0x80u >> col`: one bit moving right, gone from column 8 on. */
  function ColumnMask(col: nat): Byte {
    if col < 8 then [0x80, 0x40, 0x20, 0x10, 0x08, 0x04, 0x02, 0x01][col] else 0
  }

  /** `spriteByte & (0x80u >> col)` is nonzero: bit 7 - col of the byte is
      set (see `LitIsMaskTest`). */
  predicate Lit(b: Byte, col: nat) {
    col < 8 && (b / [0x80, 0x40, 0x20, 0x10, 0x08, 0x04, 0x02, 0x01][col]) % 2 == 1
  }

  /** The cells one lit sprite pixel toggles: one cell, or a 2x2 block. */
  datatype Group = Single(a: int) | Block(a1: int, a2: int, a3: int, a4: int)

  predicate Fits(g: Group, size: nat) {
    match g
    case Single(a) => 0 <= a < size
    case Block(a1, a2, a3, a4) => 0 <= a1 < size && 0 <= a2 < size && 0 <= a3 < size && 0 <= a4 < size
  }

  predicate AllFit(gs: seq<Group>, size: nat) {
    forall g :: g in gs ==> Fits(g, size)
  }

  /** A collision: some cell of the group is lit before it is toggled. */
  predicate Hit(v: seq<Pixel>, g: Group)
    requires Fits(g, |v|)
  {
    match g
    case Single(a) => v[a] == On
    case Block(a1, a2, a3, a4) => v[a1] == On || v[a2] == On || v[a3] == On || v[a4] == On
  }

  function ToggleAt(v: seq<Pixel>, a: int): (r: seq<Pixel>)
    requires 0 <= a < |v|
    ensures |r| == |v|
  {
    v[a := Toggle(v[a])]
  }

  /** The four `^=` of a block run one after the other. */
  function ToggleGroup(v: seq<Pixel>, g: Group): (r: seq<Pixel>)
    requires Fits(g, |v|)
    ensures |r| == |v|
  {
    match g
    case Single(a) => ToggleAt(v, a)
    case Block(a1, a2, a3, a4) => ToggleAt(ToggleAt(ToggleAt(ToggleAt(v, a1), a2), a3), a4)
  }

  /** Where a sprite pixel lands.
      Scaled: CPU.cpp's Dxyn, with origin `(xPos, yPos)` already wrapped, a
      step of `scale` cells per sprite pixel, the 8-bit truncation and the
      wrap of each coordinate, and a 2x2 block when `doubled`.
      Direct: CPU.cpp's Dxy0 and Chip8.cpp's Dxyn, origin wrapped only, one
      cell per pixel on a screen `width` cells wide. */
  datatype Layout =
    | Scaled(xPos: int, yPos: int, scale: int, doubled: bool)
    | Direct(xPos: int, yPos: int, width: int)

  function Place(l: Layout, row: nat, col: nat): Group {
    match l
    case Scaled(x, y, k, d) =>
      var nx := ((x + col * k) % 256) % 128;
      var ny := ((y + row * k) % 256) % 64;
      if d then Block(ny * 128 + nx, (ny + 1) * 128 + nx, (ny + 1) * 128 + nx + 1, ny * 128 + nx + 1)
      else Single(ny * 128 + nx)
    case Direct(x, y, w) => Single((y + row) * w + x + col)
  }

  /** The groups of the lit pixels among the first `cols` columns of one
      sprite row, left to right. */
  function RowGroups(l: Layout, b: Byte, row: nat, cols: nat): seq<Group> {
    if cols == 0 then []
    else RowGroups(l, b, row, cols - 1) + (if Lit(b, cols - 1) then [Place(l, row, cols - 1)] else [])
  }

  /** The groups of a whole sprite, row after row: the order of the nested
      loops of the draw handlers. */
  function SpriteGroups(l: Layout, rows: seq<Byte>, width: nat): seq<Group>
    decreases |rows|
  {
    if rows == [] then []
    else SpriteGroups(l, rows[..|rows| - 1], width) + RowGroups(l, rows[|rows| - 1], |rows| - 1, width)
  }

  /** The framebuffer after toggling the groups in order. */
  function Painted(v: seq<Pixel>, gs: seq<Group>): (r: seq<Pixel>)
    requires AllFit(gs, |v|)
    ensures |r| == |v|
    decreases |gs|
  {
    if gs == [] then v
    else ToggleGroup(Painted(v, gs[..|gs| - 1]), gs[|gs| - 1])
  }

  /** VF under CPU.cpp's Dxyn: reset to 0, then assigned the collision of each
      lit pixel in turn, so the last one decides. */
  function LastHit(v: seq<Pixel>, gs: seq<Group>): Byte
    requires AllFit(gs, |v|)
  {
    if gs == [] then 0
    else if Hit(Painted(v, gs[..|gs| - 1]), gs[|gs| - 1]) then 1 else 0
  }

  /** VF under Dxy0 and Chip8.cpp's Dxyn: reset to 0, then set to 1 by any
      collision. */
  predicate AnyHit(v: seq<Pixel>, gs: seq<Group>)
    requires AllFit(gs, |v|)
    decreases |gs|
  {
    gs != [] && (AnyHit(v, gs[..|gs| - 1]) || Hit(Painted(v, gs[..|gs| - 1]), gs[|gs| - 1]))
  }

  /** One more lit pixel drawn: how the framebuffer and both collision
      rules move on. */
  lemma PaintedSnoc(v: seq<Pixel>, gs: seq<Group>, g: Group)
    requires AllFit(gs, |v|) && Fits(g, |v|)
    ensures AllFit(gs + [g], |v|)
    ensures Painted(v, gs + [g]) == ToggleGroup(Painted(v, gs), g)
    ensures LastHit(v, gs + [g]) == if Hit(Painted(v, gs), g) then 1 else 0
    ensures AnyHit(v, gs + [g]) == (AnyHit(v, gs) || Hit(Painted(v, gs), g))
  {
    assert (gs + [g])[..|gs|] == gs;
  }

  /** The draw loops take one more sprite row. */
  lemma SpriteGroupsSnoc(l: Layout, rows: seq<Byte>, width: nat, r: nat)
    requires r < |rows|
    ensures SpriteGroups(l, rows[..r + 1], width) == SpriteGroups(l, rows[..r], width) + RowGroups(l, rows[r], r, width)
  {
    assert rows[..r + 1][..r] == rows[..r];
  }

  // ---------------------------------------------------------------------
  // Toggling is an involution: parity of visits decides each cell

  /** How many of the group's cells are `a`. */
  function Visits(g: Group, a: int): nat {
    match g
    case Single(b) => if b == a then 1 else 0
    case Block(a1, a2, a3, a4) =>
      (if a1 == a then 1 else 0) + (if a2 == a then 1 else 0) +
      (if a3 == a then 1 else 0) + (if a4 == a then 1 else 0)
  }

  function Flips(gs: seq<Group>, a: int): nat
    decreases |gs|
  {
    if gs == [] then 0 else Flips(gs[..|gs| - 1], a) + Visits(gs[|gs| - 1], a)
  }

  function Parity(p: Pixel, k: nat): Pixel {
    if k % 2 == 0 then p else Toggle(p)
  }

  lemma ToggleGroupCell(v: seq<Pixel>, g: Group, a: int)
    requires Fits(g, |v|) && 0 <= a < |v|
    ensures ToggleGroup(v, g)[a] == Parity(v[a], Visits(g, a))
  {
  }

  /** Each cell ends toggled once per visit. */
  lemma {:induction false} PaintedCell(v: seq<Pixel>, gs: seq<Group>, a: int)
    requires AllFit(gs, |v|) && 0 <= a < |v|
    ensures Painted(v, gs)[a] == Parity(v[a], Flips(gs, a))
    decreases |gs|
  {
    if gs != [] {
      var p, last := gs[..|gs| - 1], gs[|gs| - 1];
      assert last in gs;
      assert AllFit(p, |v|) by {
        forall g | g in p ensures Fits(g, |v|) { assert g in gs; }
      }
      PaintedCell(v, p, a);
      ToggleGroupCell(Painted(v, p), last, a);
      ParityAdd(v[a], Flips(p, a), Visits(last, a));
    }
  }

  lemma ParityAdd(p: Pixel, j: nat, k: nat)
    ensures Parity(Parity(p, j), k) == Parity(p, j + k)
  {
  }

  /** Drawing the same sprite twice restores the framebuffer, whatever the
      overlaps between its pixels. */
  lemma PaintTwice(v: seq<Pixel>, gs: seq<Group>)
    requires AllFit(gs, |v|)
    ensures Painted(Painted(v, gs), gs) == v
  {
    var w := Painted(v, gs);
    forall a | 0 <= a < |v|
      ensures Painted(w, gs)[a] == v[a]
    {
      PaintedCell(v, gs, a);
      PaintedCell(w, gs, a);
    }
  }

  // ---------------------------------------------------------------------
  // Which pixels are drawn

  /** The arithmetic bit test agrees with the mask test of the handlers. */
  lemma LitIsMaskTest(b: Byte, col: nat)
    ensures Lit(b, col) <==> BitAnd(b, ColumnMask(col)) != 0
  {
    if col >= 8 {
      assert BitAnd(b, 0) == ((b as bv8) & 0) as int;
    } else if col == 0 {
      BitTest(b, 0x80);
    } else if col == 1 {
      BitTest(b, 0x40);
    } else if col == 2 {
      BitTest(b, 0x20);
    } else if col == 3 {
      BitTest(b, 0x10);
    } else if col == 4 {
      BitTest(b, 0x08);
    } else if col == 5 {
      BitTest(b, 0x04);
    } else if col == 6 {
      BitTest(b, 0x02);
    } else {
      BitTest(b, 0x01);
    }
  }

  lemma BitTest(b: Byte, m: Byte)
    requires m in {0x80, 0x40, 0x20, 0x10, 0x08, 0x04, 0x02, 0x01}
    ensures (b / m) % 2 == 1 <==> BitAnd(b, m) != 0
  {
    if m == 0x80 {
    } else if m == 0x40 {
    } else if m == 0x20 {
    } else if m == 0x10 {
    } else if m == 0x08 {
    } else if m == 0x04 {
    } else if m == 0x02 {
    } else {
    }
  }

  /** A group is in the row's list exactly when it is the placement of a lit
      pixel of that row. */
  lemma {:induction false} RowGroupsMembers(l: Layout, b: Byte, row: nat, cols: nat, g: Group)
    ensures g in RowGroups(l, b, row, cols) <==> exists c :: 0 <= c < cols && Lit(b, c) && g == Place(l, row, c)
  {
    if cols > 0 {
      RowGroupsMembers(l, b, row, cols - 1, g);
    }
  }

  /** A group is in the sprite's list exactly when it is the placement of a
      lit sprite pixel. */
  lemma {:induction false} SpriteGroupsMembers(l: Layout, rows: seq<Byte>, width: nat, g: Group)
    ensures g in SpriteGroups(l, rows, width) <==>
      exists r, c :: 0 <= r < |rows| && 0 <= c < width && Lit(rows[r], c) && g == Place(l, r, c)
    decreases |rows|
  {
    if rows != [] {
      var p := rows[..|rows| - 1];
      SpriteGroupsMembers(l, p, width, g);
      RowGroupsMembers(l, rows[|rows| - 1], |rows| - 1, width, g);
      if g in SpriteGroups(l, rows, width) {
        if g in SpriteGroups(l, p, width) {
          var r, c :| 0 <= r < |p| && 0 <= c < width && Lit(p[r], c) && g == Place(l, r, c);
          assert rows[r] == p[r];
        }
      } else {
        forall r, c | 0 <= r < |rows| && 0 <= c < width && Lit(rows[r], c)
          ensures g != Place(l, r, c)
        {
          if r < |p| { assert rows[r] == p[r]; }
        }
      }
    }
  }

  // ---------------------------------------------------------------------
  // Collision flag when no cell is visited twice (the Direct layouts)

  /** Every group is a single cell, and the cells strictly increase. */
  predicate Increasing(gs: seq<Group>) {
    (forall i :: 0 <= i < |gs| ==> gs[i].Single?) &&
    (forall i, j :: 0 <= i < j < |gs| ==> gs[i].a < gs[j].a)
  }

  lemma {:induction false} FlipsBelow(gs: seq<Group>, a: int)
    requires forall i :: 0 <= i < |gs| ==> gs[i].Single? && gs[i].a < a
    ensures Flips(gs, a) == 0
    decreases |gs|
  {
    if gs != [] {
      FlipsBelow(gs[..|gs| - 1], a);
    }
  }

  /** With no cell visited twice, "any collision along the way" is the same as
      "some sprite pixel lands on a cell that was lit before the draw". */
  lemma {:induction false} AnyHitIncreasing(v: seq<Pixel>, gs: seq<Group>)
    requires AllFit(gs, |v|) && Increasing(gs)
    ensures AnyHit(v, gs) <==> exists g :: g in gs && Hit(v, g)
    decreases |gs|
  {
    if gs != [] {
      var p := gs[..|gs| - 1];
      var last := gs[|gs| - 1];
      assert last in gs;
      assert AllFit(p, |v|) by {
        forall g | g in p ensures Fits(g, |v|) { assert g in gs; }
      }
      AnyHitIncreasing(v, p);
      FlipsBelow(p, last.a);
      PaintedCell(v, p, last.a);
      assert Hit(Painted(v, p), last) <==> Hit(v, last);
      if exists g :: g in gs && Hit(v, g) {
        var g :| g in gs && Hit(v, g);
        if g != last {
          var i :| 0 <= i < |gs| && gs[i] == g;
          assert g in p by { assert i < |p| && p[i] == g; }
        }
      }
    }
  }

  /** The cells of one row of a Direct layout lie in
      `[base, base + cols)`, increasing, where `base` is the row's first cell. */
  lemma {:induction false} RowGroupsDirect(x: int, y: int, w: int, b: Byte, row: nat, cols: nat)
    ensures var gs := RowGroups(Direct(x, y, w), b, row, cols);
      Increasing(gs) &&
      forall i :: 0 <= i < |gs| ==> (y + row) * w + x <= gs[i].a < (y + row) * w + x + cols
  {
    if cols > 0 {
      RowGroupsDirect(x, y, w, b, row, cols - 1);
      var base := (y + row) * w + x;
      var p := RowGroups(Direct(x, y, w), b, row, cols - 1);
      if Lit(b, cols - 1) {
        var gs := p + [Single(base + cols - 1)];
        assert gs == RowGroups(Direct(x, y, w), b, row, cols);
        assert forall i :: 0 <= i < |p| ==> gs[i] == p[i];
        assert forall i :: 0 <= i < |gs| ==> base <= gs[i].a < base + cols;
        assert Increasing(gs);
      } else {
        assert p + [] == p;
      }
    }
  }

  /** The cells of a Direct sprite strictly increase in drawing order, as
      long as a sprite row is no wider than the screen. */
  lemma {:induction false} SpriteGroupsDirect(x: int, y: int, w: int, rows: seq<Byte>, width: nat)
    requires width <= w
    ensures var gs := SpriteGroups(Direct(x, y, w), rows, width);
      Increasing(gs) && forall i :: 0 <= i < |gs| ==> gs[i].a < (y + |rows|) * w + x
    decreases |rows|
  {
    if rows != [] {
      var r := |rows| - 1;
      var p := rows[..r];
      var base := (y + r) * w + x;
      var a := SpriteGroups(Direct(x, y, w), p, width);
      var b := RowGroups(Direct(x, y, w), rows[r], r, width);
      SpriteGroupsDirect(x, y, w, p, width);
      RowGroupsDirect(x, y, w, rows[r], r, width);
      assert (y + |rows|) * w + x == base + w by { MulSucc(y + r, w); }
      assert SpriteGroups(Direct(x, y, w), rows, width) == a + b;
      IncreasingConcat(a, b, base);
      forall i | 0 <= i < |a + b|
        ensures (a + b)[i].a < base + w
      {
        if i < |a| { assert (a + b)[i] == a[i]; } else { assert (a + b)[i] == b[i - |a|]; }
      }
    }
  }

  lemma MulSucc(k: int, w: int)
    ensures (k + 1) * w == k * w + w
  {
  }

  lemma IncreasingConcat(a: seq<Group>, b: seq<Group>, bound: int)
    requires Increasing(a) && Increasing(b)
    requires forall i :: 0 <= i < |a| ==> a[i].a < bound
    requires forall i :: 0 <= i < |b| ==> bound <= b[i].a
    ensures Increasing(a + b)
  {
    var c := a + b;
    forall i, j | 0 <= i < j < |c|
      ensures c[i].a < c[j].a
    {
      if j < |a| {
        assert c[i] == a[i] && c[j] == a[j];
      } else if i < |a| {
        assert c[i] == a[i] && c[j] == b[j - |a|];
      } else {
        assert c[i] == b[i - |a|] && c[j] == b[j - |a|];
      }
    }
  }

  /** A lit pixel of the sprite lands on a cell that is lit in `v`. */
  predicate LandsOnLit(v: seq<Pixel>, l: Layout, rows: seq<Byte>, width: nat) {
    exists r, c :: 0 <= r < |rows| && 0 <= c < width && Lit(rows[r], c) &&
      Fits(Place(l, r, c), |v|) && Hit(v, Place(l, r, c))
  }

  /** VF after a Direct draw is 1 exactly when some lit sprite pixel lands on
      a lit cell: collisions cannot be created or hidden by earlier toggles. */
  lemma AnyHitDirect(v: seq<Pixel>, x: int, y: int, w: int, rows: seq<Byte>, width: nat)
    requires width <= w
    requires AllFit(SpriteGroups(Direct(x, y, w), rows, width), |v|)
    ensures AnyHit(v, SpriteGroups(Direct(x, y, w), rows, width)) <==> LandsOnLit(v, Direct(x, y, w), rows, width)
  {
    var l := Direct(x, y, w);
    var gs := SpriteGroups(l, rows, width);
    SpriteGroupsDirect(x, y, w, rows, width);
    AnyHitIncreasing(v, gs);
    if exists g :: g in gs && Hit(v, g) {
      var g :| g in gs && Hit(v, g);
      SpriteGroupsMembers(l, rows, width, g);
    }
    if LandsOnLit(v, l, rows, width) {
      var r, c :| 0 <= r < |rows| && 0 <= c < width && Lit(rows[r], c) &&
        Fits(Place(l, r, c), |v|) && Hit(v, Place(l, r, c));
      SpriteGroupsMembers(l, rows, width, Place(l, r, c));
    }
  }

  // ---------------------------------------------------------------------
  // Where Scaled sprites land

  /** With a scale of 2 from an even origin every coordinate is even, so each
      2x2 block stays inside the 128x64 framebuffer. */
  lemma ScaledLowResFits(x: int, y: int, row: nat, col: nat)
    requires x % 2 == 0 && y % 2 == 0 && 0 <= x < 128 && 0 <= y < 64
    ensures Fits(Place(Scaled(x, y, 2, true), row, col), 128 * 64)
  {
    EvenWrap(x, col, 128);
    EvenWrap(y, row, 64);
    BlockFits(((x + col * 2) % 256) % 128, ((y + row * 2) % 256) % 64);
  }

  /** A 2x2 block whose top-left cell is at most at column 126 and row 62
      of the 128x64 grid lies inside it. */
  lemma BlockFits(nx: int, ny: int)
    requires 0 <= nx <= 126 && 0 <= ny <= 62
    ensures Fits(Block(ny * 128 + nx, (ny + 1) * 128 + nx, (ny + 1) * 128 + nx + 1, ny * 128 + nx + 1), 128 * 64)
  {
  }

  /** An even coordinate moved by an even step stays even through the 8-bit
      truncation and the wrap to the screen, so it is at most the
      second-to-last one. */
  lemma EvenWrap(base: int, step: nat, m: int)
    requires base % 2 == 0 && (m == 128 || m == 64)
    ensures 0 <= ((base + step * 2) % 256) % m <= m - 2
  {
    var b := (base + step * 2) % 256;
    EvenTruncated(base, step);
    if m == 128 {
      EvenBelow(b, 128);
    } else {
      EvenBelow(b, 64);
    }
  }

  lemma EvenTruncated(base: int, step: nat)
    requires base % 2 == 0
    ensures ((base + step * 2) % 256) % 2 == 0
  {
    var h := base / 2;
    var a := base + step * 2;
    var q := a / 256;
    assert a == 256 * q + a % 256;
    assert a % 256 == 2 * (h + step - 128 * q);
  }

  lemma EvenBelow(b: int, m: int)
    requires b % 2 == 0 && 0 <= b < 256 && (m == 128 || m == 64)
    ensures 0 <= b % m <= m - 2
  {
    assert b == m * (b / m) + b % m;
  }

  /** Every lit pixel of the sprite lands inside a framebuffer of `size`
      cells. */
  predicate LandsInside(l: Layout, rows: seq<Byte>, width: nat, size: nat) {
    forall r, c :: 0 <= r < |rows| && 0 <= c < width && Lit(rows[r], c) ==> Fits(Place(l, r, c), size)
  }

  /** If every lit pixel lands inside, so does every group the draw loops
      visit. */
  lemma LandsInsideFits(l: Layout, rows: seq<Byte>, width: nat, size: nat)
    requires LandsInside(l, rows, width, size)
    ensures AllFit(SpriteGroups(l, rows, width), size)
  {
    forall g | g in SpriteGroups(l, rows, width)
      ensures Fits(g, size)
    {
      SpriteGroupsMembers(l, rows, width, g);
    }
  }

  /** The pixels of one row land inside. */
  lemma LandsInsideRow(l: Layout, rows: seq<Byte>, width: nat, size: nat, r: nat)
    requires LandsInside(l, rows, width, size) && r < |rows|
    ensures forall c :: 0 <= c < width && Lit(rows[r], c) ==> Fits(Place(l, r, c), size)
  {
  }

  lemma LowResLandsInside(x: int, y: int, rows: seq<Byte>, width: nat)
    requires x % 2 == 0 && y % 2 == 0 && 0 <= x < 128 && 0 <= y < 64
    ensures LandsInside(Scaled(x, y, 2, true), rows, width, 128 * 64)
  {
    forall r, c | 0 <= r < |rows| && 0 <= c < width && Lit(rows[r], c)
      ensures Fits(Place(Scaled(x, y, 2, true), r, c), 128 * 64)
    {
      ScaledLowResFits(x, y, r, c);
    }
  }

  /** With a scale of 1 and doubling forced on, a block at the bottom row
      reaches past the end of the 128x64 framebuffer. */
  lemma ScaledHighResDoubledOverflows(x: int)
    requires 0 <= x < 128
    ensures !Fits(Place(Scaled(x, 63, 1, true), 0, 0), 128 * 64)
  {
  }

  // ---------------------------------------------------------------------
  // The two collision rules differ

  /** Two lit pixels, the first on a lit cell and the second on a dark one:
      "last collision" reports 0 where "any collision" reports 1. */
  lemma LastHitIsNotAnyHit()
    ensures var v := [On, 0];
      var gs := [Single(0), Single(1)];
      AllFit(gs, |v|) && LastHit(v, gs) == 0 && AnyHit(v, gs)
  {
    var v: seq<Pixel> := [On, 0];
    var gs := [Single(0), Single(1)];
    assert gs[..1] == [Single(0)];
    assert [Single(0)][..0] == [];
  }
}
