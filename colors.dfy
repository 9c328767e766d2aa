/**
 * The rainbow palette of `generateColors`: `count` hues spread evenly over
 * the colour wheel, one translucent background colour and one opaque,
 * darker border colour per hue.
 */
module Colors {

  /** A colour `hsla(hue, sat%, light%, alpha)`, kept as a record rather than its CSS text. */
  datatype HSLA = HSLA(hue: real, sat: nat, light: nat, alpha: real)

  /** JavaScript `x % 360` for a non-negative `x`: the remainder of truncated division. */
  function Mod360(x: real): (r: real)
    requires 0.0 <= x
    ensures 0.0 <= r < 360.0
    ensures x < 360.0 ==> r == x
  {
    x - 360.0 * ((x / 360.0).Floor as real)
  }

  /**
   * The hue of entry `i`: the share `i / count` of the full circle, taken
   * modulo 360. Division happens only when `i < count`, so never by zero,
   * and the remainder leaves the evenly spaced hue as it is.
   */
  function Hue(i: nat, count: nat): (h: real)
    requires i < count
    ensures 0.0 <= h < 360.0
    ensures h * (count as real) == (i as real) * 360.0
  {
    var x := (i as real) * 360.0 / (count as real);
    assert x * (count as real) == (i as real) * 360.0;
    assert x < 360.0 by {
      assert (i as real) < (count as real);
    }
    Mod360(x)
  }

  /** The background colour of a hue: saturation 70%, lightness 60%, alpha 0.7. */
  function BackgroundColor(hue: real): HSLA {
    HSLA(hue, 70, 60, 0.7)
  }

  /** The border colour of a hue: saturation 70%, lightness 50%, opaque. */
  function BorderColor(hue: real): HSLA {
    HSLA(hue, 70, 50, 1.0)
  }

  /** The background list `generateColors(count)` returns, as a value. */
  function Backgrounds(count: nat): seq<HSLA> {
    seq(count, i requires 0 <= i < count => BackgroundColor(Hue(i, count)))
  }

  /** The border list `generateColors(count)` returns, as a value. */
  function Borders(count: nat): seq<HSLA> {
    seq(count, i requires 0 <= i < count => BorderColor(Hue(i, count)))
  }

  /** Hues grow strictly with the index, so no two entries share a hue. */
  lemma HueStrictlyIncreasing(i: nat, j: nat, count: nat)
    requires i < j < count
    ensures Hue(i, count) < Hue(j, count)
  {
    CancelFactor(Hue(i, count), Hue(j, count), count as real, (i as real) * 360.0, (j as real) * 360.0);
  }

  /** Multiplying by the same positive factor keeps the order of two numbers. */
  lemma CancelFactor(a: real, b: real, c: real, ac: real, bc: real)
    requires 0.0 < c && a * c == ac && b * c == bc && ac < bc
    ensures a < b
  {
    assert (b - a) * c == bc - ac;
  }

  /** Neighbouring hues are `360 / count` degrees apart. */
  lemma HueStep(i: nat, count: nat)
    requires i + 1 < count
    ensures Hue(i + 1, count) - Hue(i, count) == 360.0 / (count as real)
  {
    var hi, hn, c := Hue(i, count), Hue(i + 1, count), count as real;
    assert (hn - hi) * c == 360.0;
  }

  /** The starting hue is red (0 degrees) whatever the count. */
  lemma HueStartsAtZero(count: nat)
    requires 0 < count
    ensures Hue(0, count) == 0.0
  {
    assert Hue(0, count) * (count as real) == 0.0;
  }

  /** Six colours, as for the form's starting data, sit 60 degrees apart. */
  lemma SixHues()
    ensures Hue(0, 6) == 0.0 && Hue(1, 6) == 60.0 && Hue(2, 6) == 120.0
    ensures Hue(3, 6) == 180.0 && Hue(4, 6) == 240.0 && Hue(5, 6) == 300.0
  {
    assert Hue(1, 6) * 6.0 == 360.0;
    assert Hue(2, 6) * 6.0 == 720.0;
    assert Hue(3, 6) * 6.0 == 1080.0;
    assert Hue(4, 6) * 6.0 == 1440.0;
    assert Hue(5, 6) * 6.0 == 1800.0;
    HueStartsAtZero(6);
  }

  /** The two lists of the palette, entry by entry. */
  lemma PaletteEntries(count: nat, i: nat)
    requires i < count
    ensures |Backgrounds(count)| == count && |Borders(count)| == count
    ensures Backgrounds(count)[i] == HSLA(Hue(i, count), 70, 60, 0.7)
    ensures Borders(count)[i] == Backgrounds(count)[i].(light := Backgrounds(count)[i].light - 10, alpha := 1.0)
  {
  }

  /**
   * `generateColors(count)`: pushes one background and one border colour
   * per index. The lists have `count` entries each (none for `count = 0`);
   * entry `i` of both has the hue `i * 360 / count`, which lies in [0, 360)
   * and grows with `i`; both have saturation 70; the background has
   * lightness 60 and alpha 0.7, the border lightness 50 and alpha 1.
   */
  method GenerateColors(count: nat) returns (background: seq<HSLA>, border: seq<HSLA>)
    ensures background == Backgrounds(count) && border == Borders(count)
    ensures |background| == count && |border| == count
    ensures forall i :: 0 <= i < count ==>
      && 0.0 <= background[i].hue < 360.0
      && background[i].hue * (count as real) == (i as real) * 360.0
      && border[i].hue == background[i].hue
      && background[i].sat == 70 && border[i].sat == 70
      && background[i].light == 60 && border[i].light == 50
      && background[i].alpha == 0.7 && border[i].alpha == 1.0
    ensures forall i, j :: 0 <= i < j < count ==> background[i].hue < background[j].hue
  {
    background, border := [], [];
    var i := 0;
    while i < count
      invariant i <= count
      invariant |background| == i && |border| == i
      invariant forall k :: 0 <= k < i ==> background[k] == BackgroundColor(Hue(k, count))
      invariant forall k :: 0 <= k < i ==> border[k] == BorderColor(Hue(k, count))
    {
      var hue := Mod360((i as real) * 360.0 / (count as real));
      background := background + [HSLA(hue, 70, 60, 0.7)];
      border := border + [HSLA(hue, 70, 50, 1.0)];
      i := i + 1;
    }
    forall i, j | 0 <= i < j < count ensures background[i].hue < background[j].hue {
      HueStrictlyIncreasing(i, j, count);
    }
  }
}
