/**
 * The heightmap source: a row-major grid of samples in [0, 1] built from a
 * decoded grayscale raster, with a clamped integer lookup and a bilinear
 * lookup. Decoding the image file is done by a foreign library; its result
 * is passed in as an optional `Image`.
 */
module Heightmap {
  import opened Glm
  import opened Wrappers

  type Byte = b: int | 0 <= b < 256

  /** What the image decoder hands back: width, height and one byte per pixel, row-major. */
  datatype Image = Image(width: int, height: int, pixels: seq<Byte>)

  /** The decoder's promise about a successfully decoded single-channel image. */
  predicate WellFormed(img: Image) {
    img.width >= 1 && img.height >= 1 && |img.pixels| == img.width * img.height
  }

  /** A pixel byte scaled to a height sample: `byte / 255`. */
  function Normalized(b: Byte): (r: real)
    ensures 0.0 <= r <= 1.0
    ensures r * 255.0 == b as real
  {
    b as real / 255.0
  }

  /** Row-major indexing of an in-range cell stays inside the `w * h` samples. */
  lemma RowMajorInRange(x: int, z: int, w: int, h: int)
    requires 0 <= x < w && 0 <= z < h
    ensures 0 <= z * w + x < w * h
  {
    assert z * w <= (h - 1) * w;
  }

  /** The samples a loader holds, as a value: `width` by `height`, row-major. */
  datatype HeightGrid = HeightGrid(samples: seq<real>, width: int, height: int)

  /**
   * The lookup with both coordinates clamped into the grid: column x, row z
   * is sample `z * width + x`. A grid that holds no samples reads 0.
   */
  function SampleAt(g: HeightGrid, x: int, z: int): real {
    if g.width < 1 || g.height < 1 || |g.samples| != g.width * g.height then 0.0
    else
      var cx, cz := ClampInt(x, 0, g.width - 1), ClampInt(z, 0, g.height - 1);
      RowMajorInRange(cx, cz, g.width, g.height);
      g.samples[cz * g.width + cx]
  }

  class HeightmapLoader {
    var heightData: seq<real>
    var width: int
    var height: int
    var loaded: bool

    ghost predicate Valid()
      reads this
    {
      && (loaded ==> width >= 1 && height >= 1 && |heightData| == width * height)
      && (!loaded ==> heightData == [])
      && (forall i :: 0 <= i < |heightData| ==> 0.0 <= heightData[i] <= 1.0)
    }

    constructor ()
      ensures Valid()
      ensures width == 0 && height == 0 && !loaded && heightData == []
    {
      heightData := [];
      width := 0;
      height := 0;
      loaded := false;
    }

    /**
     * Replaces the grid by the decoded image. `decoded` is None when the file
     * could not be decoded: then the grid is left empty and not loaded.
     */
    method Load(decoded: Option<Image>) returns (ok: bool)
      requires Valid()
      requires decoded.Some? ==> WellFormed(decoded.value)
      modifies this
      ensures Valid()
      ensures ok <==> decoded.Some?
      ensures ok == loaded
      ensures !ok ==> heightData == [] && width == old(width) && height == old(height)
      ensures ok ==> width == decoded.value.width && height == decoded.value.height
      ensures ok ==> |heightData| == width * height
      ensures ok ==> forall i :: 0 <= i < |heightData| ==> heightData[i] == Normalized(decoded.value.pixels[i])
    {
      heightData := [];
      loaded := false;
      if decoded.None? {
        return false;
      }
      var img := decoded.value;
      width, height := img.width, img.height;
      heightData := seq(width * height, _ => 0.0);
      var i := 0;
      while i < width * height
        invariant width == img.width && height == img.height && !loaded
        invariant 0 <= i <= width * height
        invariant |heightData| == width * height
        invariant forall k :: 0 <= k < i ==> heightData[k] == Normalized(img.pixels[k])
        invariant forall k :: i <= k < |heightData| ==> heightData[k] == 0.0
      {
        heightData := heightData[i := Normalized(img.pixels[i])];
        i := i + 1;
      }
      loaded := true;
      ok := true;
    }

    /** The row-major position `z * width + x` of an in-range cell. */
    function SampleIndex(x: int, z: int): (i: int)
      reads this
      requires Valid() && loaded && 0 <= x < width && 0 <= z < height
      ensures 0 <= i < |heightData|
    {
      RowMajorInRange(x, z, width, height);
      z * width + x
    }

    /** The loaded samples as a value. */
    function Grid(): HeightGrid
      reads this
    {
      HeightGrid(heightData, width, height)
    }

    /** The sample at integer coordinates, each clamped into the grid; 0 when nothing is loaded. */
    function GetHeight(x: int, z: int): (r: real)
      reads this
      requires Valid()
      ensures !loaded ==> r == 0.0
      ensures 0.0 <= r <= 1.0
      ensures loaded && 0 <= x < width && 0 <= z < height ==> r == heightData[SampleIndex(x, z)]
    {
      if !loaded then 0.0 else SampleAt(Grid(), x, z)
    }

    /**
     * The lattice cell used by the bilinear lookup: the clamped coordinates,
     * their truncations `x0`, `z0` and the next lattice points `x1`, `z1`
     * (clamped to the last column and row).
     */
    function Neighbours(x: real, z: real): (n: (int, int, int, int))
      reads this
      requires Valid() && loaded
      ensures 0 <= n.0 <= n.2 < width && n.2 <= n.0 + 1
      ensures 0 <= n.1 <= n.3 < height && n.3 <= n.1 + 1
    {
      var cx := ClampReal(x, 0.0, (width - 1) as real);
      var cz := ClampReal(z, 0.0, (height - 1) as real);
      (cx.Floor, cz.Floor, MinInt(cx.Floor + 1, width - 1), MinInt(cz.Floor + 1, height - 1))
    }

    /** Bilinear interpolation over the four lattice neighbours of the clamped point. */
    function GetHeightInterpolated(x: real, z: real): (r: real)
      reads this
      requires Valid()
      ensures !loaded ==> r == 0.0
    {
      if !loaded then 0.0
      else
        var cx := ClampReal(x, 0.0, (width - 1) as real);
        var cz := ClampReal(z, 0.0, (height - 1) as real);
        var n := Neighbours(x, z);
        var fx := cx - n.0 as real;
        var fz := cz - n.1 as real;
        var h0 := Mix(GetHeight(n.0, n.1), GetHeight(n.2, n.1), fx);
        var h1 := Mix(GetHeight(n.0, n.3), GetHeight(n.2, n.3), fx);
        Mix(h0, h1, fz)
    }
  }

  /** Out-of-range integer coordinates read the nearest in-range sample. */
  lemma GetHeightClamps(hm: HeightmapLoader, x: int, z: int)
    requires hm.Valid() && hm.loaded
    ensures hm.GetHeight(x, z) == hm.GetHeight(ClampInt(x, 0, hm.width - 1), ClampInt(z, 0, hm.height - 1))
    ensures hm.GetHeight(x, z) == hm.heightData[hm.SampleIndex(ClampInt(x, 0, hm.width - 1), ClampInt(z, 0, hm.height - 1))]
  {
  }

  /** The loader's lookup is the value-level lookup on its samples, loaded or not. */
  lemma GetHeightReadsGrid(hm: HeightmapLoader, x: int, z: int)
    requires hm.Valid()
    ensures hm.GetHeight(x, z) == SampleAt(hm.Grid(), x, z)
  {
  }

  /** The interpolation weights lie in [0, 1). */
  lemma WeightsInUnitRange(hm: HeightmapLoader, x: real, z: real)
    requires hm.Valid() && hm.loaded
    ensures var n := hm.Neighbours(x, z);
            && 0.0 <= ClampReal(x, 0.0, (hm.width - 1) as real) - n.0 as real < 1.0
            && 0.0 <= ClampReal(z, 0.0, (hm.height - 1) as real) - n.1 as real < 1.0
  {
  }

  /** The bilinear result lies between the lowest and the highest of its four neighbours. */
  lemma InterpolatedBetweenNeighbours(hm: HeightmapLoader, x: real, z: real)
    requires hm.Valid() && hm.loaded
    ensures var n := hm.Neighbours(x, z);
            var h00, h10 := hm.GetHeight(n.0, n.1), hm.GetHeight(n.2, n.1);
            var h01, h11 := hm.GetHeight(n.0, n.3), hm.GetHeight(n.2, n.3);
            var r := hm.GetHeightInterpolated(x, z);
            && MinReal(MinReal(h00, h10), MinReal(h01, h11)) <= r
            && r <= MaxReal(MaxReal(h00, h10), MaxReal(h01, h11))
  {
    var n := hm.Neighbours(x, z);
    var fx := ClampReal(x, 0.0, (hm.width - 1) as real) - n.0 as real;
    var fz := ClampReal(z, 0.0, (hm.height - 1) as real) - n.1 as real;
    WeightsInUnitRange(hm, x, z);
    var h00, h10 := hm.GetHeight(n.0, n.1), hm.GetHeight(n.2, n.1);
    var h01, h11 := hm.GetHeight(n.0, n.3), hm.GetHeight(n.2, n.3);
    MixBetween(h00, h10, fx);
    MixBetween(h01, h11, fx);
    MixBetween(Mix(h00, h10, fx), Mix(h01, h11, fx), fz);
  }

  /** The bilinear result is a height sample in [0, 1]. */
  lemma InterpolatedInUnitRange(hm: HeightmapLoader, x: real, z: real)
    requires hm.Valid()
    ensures 0.0 <= hm.GetHeightInterpolated(x, z) <= 1.0
  {
    if hm.loaded {
      InterpolatedBetweenNeighbours(hm, x, z);
    }
  }

  /** At integer coordinates, interpolation degenerates to the clamped point lookup. */
  lemma InterpolatedAtLattice(hm: HeightmapLoader, x: int, z: int)
    requires hm.Valid()
    ensures hm.GetHeightInterpolated(x as real, z as real) == hm.GetHeight(x, z)
  {
    if hm.loaded {
      var cx := ClampInt(x, 0, hm.width - 1);
      var cz := ClampInt(z, 0, hm.height - 1);
      assert ClampReal(x as real, 0.0, (hm.width - 1) as real) == cx as real;
      assert ClampReal(z as real, 0.0, (hm.height - 1) as real) == cz as real;
      var n := hm.Neighbours(x as real, z as real);
      assert n.0 == cx && n.1 == cz;
      var h0 := Mix(hm.GetHeight(n.0, n.1), hm.GetHeight(n.2, n.1), 0.0);
      var h1 := Mix(hm.GetHeight(n.0, n.3), hm.GetHeight(n.2, n.3), 0.0);
      MixAtZero(hm.GetHeight(n.0, n.1), hm.GetHeight(n.2, n.1));
      MixAtZero(hm.GetHeight(n.0, n.3), hm.GetHeight(n.2, n.3));
      MixAtZero(h0, h1);
      assert hm.GetHeightInterpolated(x as real, z as real) == Mix(h0, h1, 0.0);
      GetHeightClamps(hm, x, z);
    }
  }

  /** Out-of-range real coordinates interpolate as their clamped counterparts. */
  lemma InterpolatedClamps(hm: HeightmapLoader, x: real, z: real)
    requires hm.Valid() && hm.loaded
    ensures hm.GetHeightInterpolated(x, z)
         == hm.GetHeightInterpolated(ClampReal(x, 0.0, (hm.width - 1) as real), ClampReal(z, 0.0, (hm.height - 1) as real))
  {
  }
}
