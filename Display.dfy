/**
 * What Dxyn promises about the screen: every pixel a set sprite bit lands
 * on (after wrapping at the edges) toggles, every other pixel stays, VF
 * reports whether a pixel that was on went off, and drawing the same
 * sprite twice at the same place restores the screen.
 */
module Display {
  import opened Bytes
  import opened Machine

  /** Two screens are equal when they agree on every pixel. */
  lemma ScreensEqual(g: seq<seq<bool>>, h: seq<seq<bool>>)
    requires IsScreen(g) && IsScreen(h)
    requires forall r, c :: 0 <= r < ScreenHeight && 0 <= c < ScreenWidth ==> g[r][c] == h[r][c]
    ensures g == h
  {
    forall r | 0 <= r < ScreenHeight
      ensures g[r] == h[r]
    {
      assert forall c :: 0 <= c < ScreenWidth ==> g[r][c] == h[r][c];
    }
  }

  /** One of the two screen dimensions. */
  predicate IsDimension(m: nat) { m == ScreenHeight || m == ScreenWidth }

  /** Wrapping an offset onto the screen and unwrapping it again gives the offset back. */
  lemma UnwrapOffset(offset: nat, base: nat, m: nat)
    requires IsDimension(m) && offset < m
    ensures ((offset + base) % m - base) % m == offset
  {
    if m == ScreenHeight {
      var q := (offset + base) / 32;
      assert offset + base == q * 32 + (offset + base) % 32;
      ModOfShift(offset, (offset + base) % 32 - base, -q, 32);
    } else {
      var q := (offset + base) / 64;
      assert offset + base == q * 64 + (offset + base) % 64;
      ModOfShift(offset, (offset + base) % 64 - base, -q, 64);
    }
  }

  /** Every pixel is reached from the offset that unwrapping it gives. */
  lemma RewrapPixel(p: nat, base: nat, m: nat)
    requires IsDimension(m) && p < m
    ensures ((p - base) % m + base) % m == p
  {
    if m == ScreenHeight {
      var q := (p - base) / 32;
      assert p - base == q * 32 + (p - base) % 32;
      ModOfShift(p, (p - base) % 32 + base, -q, 32);
    } else {
      var q := (p - base) / 64;
      assert p - base == q * 64 + (p - base) % 64;
      ModOfShift(p, (p - base) % 64 + base, -q, 64);
    }
  }

  /** A value `k` dimensions away from `r < m` leaves remainder `r`. */
  lemma ModOfShift(r: nat, z: int, k: int, m: nat)
    requires IsDimension(m) && r < m && z == r + k * m
    ensures z % m == r
  {
    if m == ScreenHeight {
      var q := z / 32;
      assert z == q * 32 + z % 32;
      assert (q - k) * 32 == r - z % 32;
    } else {
      var q := z / 64;
      assert z == q * 64 + z % 64;
      assert (q - k) * 64 == r - z % 64;
    }
  }

  /**
   * Drawing toggles exactly the pixel that sprite row `row`, column `col`
   * lands on when that bit is set; sprites have at most 15 rows, so no two
   * rows land on the same screen row.
   */
  lemma DrawTogglesCovered(screen: seq<seq<bool>>, sprite: seq<u8>, vx: nat, vy: nat, row: nat, col: nat)
    requires IsScreen(screen) && row < |sprite| < 16 && col < 8
    ensures var r, c := (row + vy) % ScreenHeight, (col + vx) % ScreenWidth;
      DrawSprite(screen, sprite, vx, vy)[r][c] == (screen[r][c] != SpriteBit(sprite[row], col))
  {
    UnwrapOffset(row, vy, ScreenHeight);
    UnwrapOffset(col, vx, ScreenWidth);
  }

  /** A pixel changes exactly when a set sprite bit lands on it. */
  lemma DrawChangesOnlyCovered(screen: seq<seq<bool>>, sprite: seq<u8>, vx: nat, vy: nat, r: nat, c: nat)
    requires IsScreen(screen) && |sprite| < 16 && r < ScreenHeight && c < ScreenWidth
    ensures DrawSprite(screen, sprite, vx, vy)[r][c] != screen[r][c] <==>
      exists row, col :: 0 <= row < |sprite| && 0 <= col < 8 && SpriteBit(sprite[row], col)
        && (row + vy) % ScreenHeight == r && (col + vx) % ScreenWidth == c
  {
    if DrawSprite(screen, sprite, vx, vy)[r][c] != screen[r][c] {
      var row, col := (r - vy) % ScreenHeight, (c - vx) % ScreenWidth;
      RewrapPixel(r, vy, ScreenHeight);
      RewrapPixel(c, vx, ScreenWidth);
      assert row < |sprite| && col < 8 && SpriteBit(sprite[row], col);
    } else if exists row, col :: (0 <= row < |sprite| && 0 <= col < 8 && SpriteBit(sprite[row], col)
        && (row + vy) % ScreenHeight == r && (col + vx) % ScreenWidth == c) {
      var row, col :| 0 <= row < |sprite| && 0 <= col < 8 && SpriteBit(sprite[row], col)
        && (row + vy) % ScreenHeight == r && (col + vx) % ScreenWidth == c;
      DrawTogglesCovered(screen, sprite, vx, vy, row, col);
      assert false;
    }
  }

  /** Drawing the same sprite at the same place twice leaves the screen as it was. */
  lemma DrawTwiceRestores(screen: seq<seq<bool>>, sprite: seq<u8>, vx: nat, vy: nat)
    requires IsScreen(screen)
    ensures DrawSprite(DrawSprite(screen, sprite, vx, vy), sprite, vx, vy) == screen
  {
    var g := DrawSprite(DrawSprite(screen, sprite, vx, vy), sprite, vx, vy);
    forall r | 0 <= r < ScreenHeight
      ensures g[r] == screen[r]
    {
    }
  }

  /** Some pixel that is on in `before` is off in `after`. */
  predicate Erases(before: seq<seq<bool>>, after: seq<seq<bool>>)
    requires IsScreen(before) && IsScreen(after)
  {
    exists r, c :: 0 <= r < ScreenHeight && 0 <= c < ScreenWidth && before[r][c] && !after[r][c]
  }

  /** A set bit over a lit pixel erases it. */
  lemma CollisionErases(screen: seq<seq<bool>>, sprite: seq<u8>, vx: nat, vy: nat, row: nat, col: nat)
    requires IsScreen(screen) && row < |sprite| < 16 && col < 8 && SpriteBit(sprite[row], col)
    requires screen[(row + vy) % ScreenHeight][(col + vx) % ScreenWidth]
    ensures Erases(screen, DrawSprite(screen, sprite, vx, vy))
  {
    DrawTogglesCovered(screen, sprite, vx, vy, row, col);
    var r, c := (row + vy) % ScreenHeight, (col + vx) % ScreenWidth;
    assert screen[r][c] && !DrawSprite(screen, sprite, vx, vy)[r][c];
  }

  /** A pixel that went off was hit by a set bit while lit. */
  lemma ErasedCollides(screen: seq<seq<bool>>, sprite: seq<u8>, vx: nat, vy: nat, r: nat, c: nat)
    requires IsScreen(screen) && r < ScreenHeight && c < ScreenWidth
    requires screen[r][c] && !DrawSprite(screen, sprite, vx, vy)[r][c]
    ensures Collides(screen, sprite, vx, vy)
  {
    var row, col := (r - vy) % ScreenHeight, (c - vx) % ScreenWidth;
    RewrapPixel(r, vy, ScreenHeight);
    RewrapPixel(c, vx, ScreenWidth);
    assert row < |sprite| && col < 8 && SpriteBit(sprite[row], col);
    assert screen[(row + vy) % ScreenHeight][(col + vx) % ScreenWidth];
  }

  /** VF after Dxyn is 1 exactly when some pixel that was on is off afterwards. */
  lemma CollisionMeansErased(screen: seq<seq<bool>>, sprite: seq<u8>, vx: nat, vy: nat)
    requires IsScreen(screen) && |sprite| < 16
    ensures Collides(screen, sprite, vx, vy) <==> Erases(screen, DrawSprite(screen, sprite, vx, vy))
  {
    var g := DrawSprite(screen, sprite, vx, vy);
    if Collides(screen, sprite, vx, vy) {
      var row, col :| 0 <= row < |sprite| && 0 <= col < 8 && SpriteBit(sprite[row], col)
        && screen[(row + vy) % ScreenHeight][(col + vx) % ScreenWidth];
      CollisionErases(screen, sprite, vx, vy, row, col);
    }
    if Erases(screen, g) {
      var r, c :| 0 <= r < ScreenHeight && 0 <= c < ScreenWidth && screen[r][c] && !g[r][c];
      ErasedCollides(screen, sprite, vx, vy, r, c);
    }
  }

  /** Nothing collides with a blank screen. */
  lemma BlankNeverCollides(sprite: seq<u8>, vx: nat, vy: nat)
    ensures !Collides(BlankScreen(), sprite, vx, vy)
  {
  }

  /** Redrawing a sprite collides when one of its set bits landed on a pixel that was off before the first draw. */
  lemma RedrawCollides(screen: seq<seq<bool>>, sprite: seq<u8>, vx: nat, vy: nat, row: nat, col: nat)
    requires IsScreen(screen) && row < |sprite| < 16 && col < 8 && SpriteBit(sprite[row], col)
    requires !screen[(row + vy) % ScreenHeight][(col + vx) % ScreenWidth]
    ensures Collides(DrawSprite(screen, sprite, vx, vy), sprite, vx, vy)
  {
    DrawTogglesCovered(screen, sprite, vx, vy, row, col);
  }

  // ---------------------------------------------------------------------------
  // Drawing one sprite bit at a time, in the order of the Dxyn loops: rows
  // first, then columns. These describe the screen and VF part-way through.

  /** Sprite bit (row', col') comes before (row, col) in the drawing order. */
  predicate Before(row': nat, col': nat, row: nat, col: nat)
  {
    row' < row || (row' == row && col' < col)
  }

  /** Pixel (r, c) is covered by a set sprite bit that the loops have reached before (row, col). */
  predicate CoveredBefore(sprite: seq<u8>, vx: nat, vy: nat, r: nat, c: nat, row: nat, col: nat)
  {
    var row', col' := (r - vy) % ScreenHeight, (c - vx) % ScreenWidth;
    row' < |sprite| && col' < 8 && Before(row', col', row, col) && SpriteBit(sprite[row'], col')
  }

  /** Some set sprite bit reached before (row, col) lands on a pixel that is on in `screen`. */
  predicate CollidesBefore(screen: seq<seq<bool>>, sprite: seq<u8>, vx: nat, vy: nat, row: nat, col: nat)
    requires IsScreen(screen)
  {
    exists row', col' :: 0 <= row' < |sprite| && 0 <= col' < 8 && Before(row', col', row, col)
      && SpriteBit(sprite[row'], col') && screen[(row' + vy) % ScreenHeight][(col' + vx) % ScreenWidth]
  }

  /** Reaching past the last row is the whole draw. */
  lemma DrawnAll(screen: seq<seq<bool>>, sprite: seq<u8>, vx: nat, vy: nat, r: nat, c: nat)
    requires IsScreen(screen) && r < ScreenHeight && c < ScreenWidth
    ensures CoveredBefore(sprite, vx, vy, r, c, |sprite|, 0) == SpriteCovers(sprite, vx, vy, r, c)
    ensures CollidesBefore(screen, sprite, vx, vy, |sprite|, 0) == Collides(screen, sprite, vx, vy)
  {
  }

  /**
   * Drawing bit (row, col) flips only the pixel it lands on, which no
   * earlier bit has touched.
   */
  lemma DrawnStep(screen: seq<seq<bool>>, sprite: seq<u8>, vx: nat, vy: nat, row: nat, col: nat, r: nat, c: nat)
    requires IsScreen(screen) && row < |sprite| < 16 && col < 8 && r < ScreenHeight && c < ScreenWidth
    ensures var tr, tc := (row + vy) % ScreenHeight, (col + vx) % ScreenWidth;
      && !CoveredBefore(sprite, vx, vy, tr, tc, row, col)
      && CoveredBefore(sprite, vx, vy, r, c, row, col + 1) ==
           (CoveredBefore(sprite, vx, vy, r, c, row, col) || (r == tr && c == tc && SpriteBit(sprite[row], col)))
  {
    UnwrapOffset(row, vy, ScreenHeight);
    UnwrapOffset(col, vx, ScreenWidth);
    if (r - vy) % ScreenHeight == row && (c - vx) % ScreenWidth == col {
      RewrapPixel(r, vy, ScreenHeight);
      RewrapPixel(c, vx, ScreenWidth);
    }
  }

  /** Drawing bit (row, col) adds a collision exactly when it is set and lands on a pixel that is on. */
  lemma CollidesStep(screen: seq<seq<bool>>, sprite: seq<u8>, vx: nat, vy: nat, row: nat, col: nat)
    requires IsScreen(screen) && row < |sprite| && col < 8
    ensures CollidesBefore(screen, sprite, vx, vy, row, col + 1) <==>
      (CollidesBefore(screen, sprite, vx, vy, row, col)
       || (SpriteBit(sprite[row], col) && screen[(row + vy) % ScreenHeight][(col + vx) % ScreenWidth]))
  {
    if CollidesBefore(screen, sprite, vx, vy, row, col + 1) {
      var row', col' :| 0 <= row' < |sprite| && 0 <= col' < 8 && Before(row', col', row, col + 1)
        && SpriteBit(sprite[row'], col') && screen[(row' + vy) % ScreenHeight][(col' + vx) % ScreenWidth];
      if !(row' == row && col' == col) {
        assert Before(row', col', row, col);
      }
    }
  }

  /** The end of a row is the start of the next one. */
  lemma NextRow(screen: seq<seq<bool>>, sprite: seq<u8>, vx: nat, vy: nat, row: nat, r: nat, c: nat)
    requires IsScreen(screen)
    ensures CoveredBefore(sprite, vx, vy, r, c, row, 8) == CoveredBefore(sprite, vx, vy, r, c, row + 1, 0)
    ensures CollidesBefore(screen, sprite, vx, vy, row, 8) == CollidesBefore(screen, sprite, vx, vy, row + 1, 0)
  {
  }
}
