// The DE2 pixel-format catalogue: for each DRM fourcc the mixer accepts,
// the hardware format code, whether the layer reads it as RGB, and the
// colour-space conversion it needs.
module Formats {
  import opened Wrappers
  import opened Csc

  /** The DRM fourcc codes the catalogue names; any other code is `Unlisted`. */
  datatype Fourcc =
    | ARGB8888 | ABGR8888 | RGBA8888 | BGRA8888
    | XRGB8888 | XBGR8888 | RGBX8888 | BGRX8888
    | RGB888 | BGR888 | RGB565 | BGR565
    | ARGB4444 | ABGR4444 | RGBA4444 | BGRA4444
    | ARGB1555 | ABGR1555 | RGBA5551 | BGRA5551
    | UYVY | VYUY | YUYV | YVYU | NV16 | NV61 | NV12 | NV21
    | YUV444 | YUV422 | YUV420 | YUV411
    | YVU444 | YVU422 | YVU420 | YVU411
    | Unlisted(code: int)

  /** One `de2_fmt_info` entry. */
  datatype FormatEntry = FormatEntry(drm: Fourcc, de2: nat, rgb: bool, csc: CscMode)

  // Hardware format codes (SUNH5_MIXER_FBFMT_*).
  const FBFMT_RGB888: nat := 8
  const FBFMT_YUYV: nat := 0
  const FBFMT_UYVY: nat := 1
  const FBFMT_YVYU: nat := 2
  const FBFMT_VYUY: nat := 3
  const FBFMT_NV16: nat := 4
  const FBFMT_NV61: nat := 5
  const FBFMT_YUV422: nat := 6
  const FBFMT_NV12: nat := 8
  const FBFMT_NV21: nat := 9
  const FBFMT_YUV420: nat := 10
  const FBFMT_YUV411: nat := 14

  /** The RGB formats in catalogue order; the i-th has hardware code i. */
  const RgbFormats: seq<Fourcc> := [
    ARGB8888, ABGR8888, RGBA8888, BGRA8888, XRGB8888, XBGR8888, RGBX8888, BGRX8888,
    RGB888, BGR888, RGB565, BGR565, ARGB4444, ABGR4444, RGBA4444, BGRA4444,
    ARGB1555, ABGR1555, RGBA5551, BGRA5551
  ]

  function RgbEntry(i: nat): FormatEntry
    requires i < |RgbFormats|
  {
    FormatEntry(RgbFormats[i], i, true, Off)
  }

  /** `de2_formats`, in source order. */
  const Table: seq<FormatEntry> := [
    RgbEntry(0), RgbEntry(1), RgbEntry(2), RgbEntry(3), RgbEntry(4),
    RgbEntry(5), RgbEntry(6), RgbEntry(7), RgbEntry(8), RgbEntry(9),
    RgbEntry(10), RgbEntry(11), RgbEntry(12), RgbEntry(13), RgbEntry(14),
    RgbEntry(15), RgbEntry(16), RgbEntry(17), RgbEntry(18), RgbEntry(19),
    FormatEntry(UYVY, FBFMT_UYVY, false, Yuv2Rgb),
    FormatEntry(VYUY, FBFMT_VYUY, false, Yuv2Rgb),
    FormatEntry(YUYV, FBFMT_YUYV, false, Yuv2Rgb),
    FormatEntry(YVYU, FBFMT_YVYU, false, Yuv2Rgb),
    FormatEntry(NV16, FBFMT_NV16, false, Yuv2Rgb),
    FormatEntry(NV61, FBFMT_NV61, false, Yuv2Rgb),
    FormatEntry(NV12, FBFMT_NV12, false, Yuv2Rgb),
    FormatEntry(NV21, FBFMT_NV21, false, Yuv2Rgb),
    FormatEntry(YUV444, FBFMT_RGB888, true, Yuv2Rgb),
    FormatEntry(YUV422, FBFMT_YUV422, false, Yuv2Rgb),
    FormatEntry(YUV420, FBFMT_YUV420, false, Yuv2Rgb),
    FormatEntry(YUV411, FBFMT_YUV411, false, Yuv2Rgb),
    FormatEntry(YVU444, FBFMT_RGB888, true, Yvu2Rgb),
    FormatEntry(YVU422, FBFMT_YUV422, false, Yvu2Rgb),
    FormatEntry(YVU420, FBFMT_YUV420, false, Yvu2Rgb),
    FormatEntry(YVU411, FBFMT_YUV411, false, Yvu2Rgb)
  ]

  /** Formats the UI planes advertise. */
  const UiFormats: seq<Fourcc> := [
    ABGR1555, ABGR4444, ABGR8888, ARGB1555, ARGB4444, ARGB8888, BGR565, BGR888,
    BGRA5551, BGRA4444, BGRA8888, BGRX8888, RGB565, RGB888, RGBA4444, RGBA5551,
    RGBA8888, RGBX8888, XBGR8888, XRGB8888
  ]

  /** Formats the VI planes advertise. */
  const ViFormats: seq<Fourcc> := [
    ABGR1555, ABGR4444, ARGB1555, ARGB4444, BGR565, BGR888, BGRA5551, BGRA4444,
    BGRX8888, RGB565, RGB888, RGBA4444, RGBA5551, RGBX8888, XBGR8888, XRGB8888,
    NV16, NV12, NV21, NV61, UYVY, VYUY, YUYV, YVYU,
    YUV411, YUV420, YUV422, YUV444, YVU411, YVU420, YVU422, YVU444
  ]

  /** First index at or after `k` whose entry has fourcc `f`. */
  function FindFrom(t: seq<FormatEntry>, f: Fourcc, k: nat): (r: Option<nat>)
    requires k <= |t|
    decreases |t| - k
    ensures r.Some? ==> k <= r.value < |t| && t[r.value].drm == f
                        && forall j :: k <= j < r.value ==> t[j].drm != f
    ensures r.None? ==> forall j :: k <= j < |t| ==> t[j].drm != f
  {
    if k == |t| then None
    else if t[k].drm == f then Some(k)
    else FindFrom(t, f, k + 1)
  }

  /** The entry `sunh5_mixer_format_info` returns, as a specification function. */
  function Lookup(f: Fourcc): Option<FormatEntry>
  {
    match FindFrom(Table, f, 0)
    case Some(i) => Some(Table[i])
    case None => None
  }

  /** The scan of `sunh5_mixer_format_info` over a table: the index of the first
      entry whose fourcc matches, or none. */
  method ScanTable(t: seq<FormatEntry>, f: Fourcc) returns (r: Option<nat>)
    ensures r.Some? ==> r.value < |t| && t[r.value].drm == f
                        && forall j :: 0 <= j < r.value ==> t[j].drm != f
    ensures r.None? <==> forall j :: 0 <= j < |t| ==> t[j].drm != f
    ensures r == FindFrom(t, f, 0)
  {
    var i := 0;
    while i < |t|
      invariant 0 <= i <= |t|
      invariant forall j :: 0 <= j < i ==> t[j].drm != f
      invariant FindFrom(t, f, 0) == FindFrom(t, f, i)
    {
      if t[i].drm == f {
        return Some(i);
      }
      i := i + 1;
    }
    return None;
  }

  /** `sunh5_mixer_format_info`: the catalogue entry for `f`, or none. */
  method FormatInfo(f: Fourcc) returns (r: Option<FormatEntry>)
    ensures r == Lookup(f)
  {
    var i := ScanTable(Table, f);
    r := if i.Some? then Some(Table[i.value]) else None;
  }

  /** Position of each listed fourcc in the catalogue (36 for an unlisted one);
      an independent reference for the scan. */
  function Ordinal(f: Fourcc): (r: nat)
    ensures r <= 36
  {
    match f
    case ARGB8888 => 0   case ABGR8888 => 1   case RGBA8888 => 2   case BGRA8888 => 3
    case XRGB8888 => 4   case XBGR8888 => 5   case RGBX8888 => 6   case BGRX8888 => 7
    case RGB888 => 8     case BGR888 => 9     case RGB565 => 10    case BGR565 => 11
    case ARGB4444 => 12  case ABGR4444 => 13  case RGBA4444 => 14  case BGRA4444 => 15
    case ARGB1555 => 16  case ABGR1555 => 17  case RGBA5551 => 18  case BGRA5551 => 19
    case UYVY => 20      case VYUY => 21      case YUYV => 22      case YVYU => 23
    case NV16 => 24      case NV61 => 25      case NV12 => 26      case NV21 => 27
    case YUV444 => 28    case YUV422 => 29    case YUV420 => 30    case YUV411 => 31
    case YVU444 => 32    case YVU422 => 33    case YVU420 => 34    case YVU411 => 35
    case Unlisted(_) => 36
  }

  /** The fourccs whose pixels are stored as RGB. */
  predicate IsRgbFourcc(f: Fourcc)
  {
    || f.ARGB8888? || f.ABGR8888? || f.RGBA8888? || f.BGRA8888?
    || f.XRGB8888? || f.XBGR8888? || f.RGBX8888? || f.BGRX8888?
    || f.RGB888? || f.BGR888? || f.RGB565? || f.BGR565?
    || f.ARGB4444? || f.ABGR4444? || f.RGBA4444? || f.BGRA4444?
    || f.ARGB1555? || f.ABGR1555? || f.RGBA5551? || f.BGRA5551?
  }

  /** The three-plane formats that store V before U. */
  predicate IsPlanarYvu(f: Fourcc) { f.YVU444? || f.YVU422? || f.YVU420? || f.YVU411? }

  lemma OrdinalInjective(a: Fourcc, b: Fourcc)
    requires Ordinal(a) == Ordinal(b) < 36
    ensures a == b
  {
  }

  lemma OrdinalAt0To5(j: nat)
    requires 0 <= j < 6 && |Table| == 36
    ensures Ordinal(Table[j].drm) == j
  {
    if j == 0 { assert Ordinal(Table[0].drm) == 0; } else if j == 1 { assert Ordinal(Table[1].drm) == 1; } else if j == 2 { assert Ordinal(Table[2].drm) == 2; } else if j == 3 { assert Ordinal(Table[3].drm) == 3; } else if j == 4 { assert Ordinal(Table[4].drm) == 4; } else { assert Ordinal(Table[5].drm) == 5; }
  }

  lemma OrdinalAt6To11(j: nat)
    requires 6 <= j < 12 && |Table| == 36
    ensures Ordinal(Table[j].drm) == j
  {
    if j == 6 { assert Ordinal(Table[6].drm) == 6; } else if j == 7 { assert Ordinal(Table[7].drm) == 7; } else if j == 8 { assert Ordinal(Table[8].drm) == 8; } else if j == 9 { assert Ordinal(Table[9].drm) == 9; } else if j == 10 { assert Ordinal(Table[10].drm) == 10; } else { assert Ordinal(Table[11].drm) == 11; }
  }

  lemma OrdinalAt12To17(j: nat)
    requires 12 <= j < 18 && |Table| == 36
    ensures Ordinal(Table[j].drm) == j
  {
    if j == 12 { assert Ordinal(Table[12].drm) == 12; } else if j == 13 { assert Ordinal(Table[13].drm) == 13; } else if j == 14 { assert Ordinal(Table[14].drm) == 14; } else if j == 15 { assert Ordinal(Table[15].drm) == 15; } else if j == 16 { assert Ordinal(Table[16].drm) == 16; } else { assert Ordinal(Table[17].drm) == 17; }
  }

  lemma OrdinalAt18To23(j: nat)
    requires 18 <= j < 24 && |Table| == 36
    ensures Ordinal(Table[j].drm) == j
  {
    if j == 18 { assert Ordinal(Table[18].drm) == 18; } else if j == 19 { assert Ordinal(Table[19].drm) == 19; } else if j == 20 { assert Ordinal(Table[20].drm) == 20; } else if j == 21 { assert Ordinal(Table[21].drm) == 21; } else if j == 22 { assert Ordinal(Table[22].drm) == 22; } else { assert Ordinal(Table[23].drm) == 23; }
  }

  lemma OrdinalAt24To29(j: nat)
    requires 24 <= j < 30 && |Table| == 36
    ensures Ordinal(Table[j].drm) == j
  {
    if j == 24 { assert Ordinal(Table[24].drm) == 24; } else if j == 25 { assert Ordinal(Table[25].drm) == 25; } else if j == 26 { assert Ordinal(Table[26].drm) == 26; } else if j == 27 { assert Ordinal(Table[27].drm) == 27; } else if j == 28 { assert Ordinal(Table[28].drm) == 28; } else { assert Ordinal(Table[29].drm) == 29; }
  }

  lemma OrdinalAt30To35(j: nat)
    requires 30 <= j < 36 && |Table| == 36
    ensures Ordinal(Table[j].drm) == j
  {
    if j == 30 { assert Ordinal(Table[30].drm) == 30; } else if j == 31 { assert Ordinal(Table[31].drm) == 31; } else if j == 32 { assert Ordinal(Table[32].drm) == 32; } else if j == 33 { assert Ordinal(Table[33].drm) == 33; } else if j == 34 { assert Ordinal(Table[34].drm) == 34; } else { assert Ordinal(Table[35].drm) == 35; }
  }

  /** Entry j of the catalogue holds the fourcc of ordinal j. */
  lemma TableInOrdinalOrder()
    ensures |Table| == 36
    ensures forall j :: 0 <= j < 36 ==> Ordinal(Table[j].drm) == j
  {
    forall j | 0 <= j < 36 ensures Ordinal(Table[j].drm) == j {
      if j < 6 { OrdinalAt0To5(j); } else if j < 12 { OrdinalAt6To11(j); } else if j < 18 { OrdinalAt12To17(j); } else if j < 24 { OrdinalAt18To23(j); } else if j < 30 { OrdinalAt24To29(j); } else { OrdinalAt30To35(j); }
    }
  }

  /** The fields of entry j follow the family of its fourcc. */
  lemma TableFields()
    ensures |Table| == 36
    ensures forall j :: 0 <= j < 20 ==> Table[j] == RgbEntry(j)
    ensures forall j :: 20 <= j < 36 ==> Table[j].csc == (if j < 32 then Yuv2Rgb else Yvu2Rgb)
    ensures forall j :: 20 <= j < 36 ==> (Table[j].rgb <==> j == 28 || j == 32)
    ensures forall j :: 20 <= j < 36 ==> Table[j].de2 <= FBFMT_YUV411
  {
    forall j | 0 <= j < 20 ensures Table[j] == RgbEntry(j) {
      if j < 10 {
        assert j == 0 || j == 1 || j == 2 || j == 3 || j == 4 || j == 5
            || j == 6 || j == 7 || j == 8 || j == 9;
      } else {
        assert j == 10 || j == 11 || j == 12 || j == 13 || j == 14 || j == 15
            || j == 16 || j == 17 || j == 18 || j == 19;
      }
    }
    forall j | 20 <= j < 36
      ensures Table[j].csc == (if j < 32 then Yuv2Rgb else Yvu2Rgb)
      ensures Table[j].rgb <==> j == 28 || j == 32
      ensures Table[j].de2 <= FBFMT_YUV411
    {
      if j < 28 {
        assert j == 20 || j == 21 || j == 22 || j == 23 || j == 24 || j == 25
            || j == 26 || j == 27;
      } else {
        assert j == 28 || j == 29 || j == 30 || j == 31 || j == 32 || j == 33
            || j == 34 || j == 35;
      }
    }
  }

  /** The scan finds a listed fourcc at its ordinal, and nothing for any other code. */
  lemma LookupByOrdinal(f: Fourcc)
    ensures Lookup(f) == if Ordinal(f) < 36 then Some(Table[Ordinal(f)]) else None
  {
    TableInOrdinalOrder();
    var r := FindFrom(Table, f, 0);
    if Ordinal(f) < 36 {
      var i := Ordinal(f);
      OrdinalInjective(Table[i].drm, f);
      assert r.Some?;
      assert Ordinal(Table[r.value].drm) == r.value;
    } else {
      forall j | 0 <= j < 36 ensures Table[j].drm != f {
        assert Ordinal(Table[j].drm) == j;
      }
    }
  }

  /** An RGB fourcc finds the entry whose hardware code is its ordinal, read as
      RGB with no conversion. */
  lemma RgbFourccLookup(f: Fourcc)
    requires IsRgbFourcc(f)
    ensures Lookup(f) == Some(FormatEntry(f, Ordinal(f), true, Off))
  {
    LookupByOrdinal(f);
    TableFields();
    assert Ordinal(f) < 20;
    OrdinalInjective(Table[Ordinal(f)].drm, f) by { TableInOrdinalOrder(); }
  }

  /** Every format a UI plane advertises has an RGB entry that needs no conversion. */
  lemma UiFormatsAreRgb()
    ensures forall f :: f in UiFormats ==>
              Lookup(f).Some? && Lookup(f).value.rgb && Lookup(f).value.csc == Off
  {
    forall f | f in UiFormats
      ensures Lookup(f).Some? && Lookup(f).value.rgb && Lookup(f).value.csc == Off
    {
      assert IsRgbFourcc(f);
      RgbFourccLookup(f);
    }
  }

  /** Every format a VI plane advertises has a catalogue entry. */
  lemma ViFormatsListed()
    ensures forall f :: f in ViFormats ==> Lookup(f).Some?
  {
    forall f | f in ViFormats ensures Lookup(f).Some? {
      LookupByOrdinal(f);
      assert !f.Unlisted?;
    }
  }

  /** The conversion follows the family: none for RGB fourccs, YVU2RGB for the
      planar YVU fourccs, YUV2RGB for every other YUV fourcc. */
  lemma CscByFamily(f: Fourcc)
    requires Lookup(f).Some?
    ensures Lookup(f).value.csc == if IsRgbFourcc(f) then Off
                                    else if IsPlanarYvu(f) then Yvu2Rgb
                                    else Yuv2Rgb
  {
    LookupByOrdinal(f);
    FamilyByOrdinal(f);
    TableFields();
    var i := Ordinal(f);
    if i < 20 {
      assert Table[i] == RgbEntry(i);
    } else {
      assert Table[i].csc == (if i < 32 then Yuv2Rgb else Yvu2Rgb);
    }
  }

  /** The RGB fourccs are the first twenty ordinals, the planar YVU ones
      the last four. */
  lemma FamilyByOrdinal(f: Fourcc)
    ensures IsRgbFourcc(f) <==> Ordinal(f) < 20
    ensures IsPlanarYvu(f) <==> 32 <= Ordinal(f) < 36
  {
  }

  /** `rgb` does not imply that no conversion is needed: the 4:4:4 planar YUV
      and YVU formats are fetched with the RGB888 code but still converted. */
  lemma FullResolutionYuvReadAsRgb()
    ensures Lookup(YUV444) == Some(FormatEntry(YUV444, FBFMT_RGB888, true, Yuv2Rgb))
    ensures Lookup(YVU444) == Some(FormatEntry(YVU444, FBFMT_RGB888, true, Yvu2Rgb))
  {
    LookupByOrdinal(YUV444);
    LookupByOrdinal(YVU444);
  }

  /** Every hardware code in the catalogue fits the five-bit FBFMT field. */
  lemma CodesFitField(f: Fourcc)
    requires Lookup(f).Some?
    ensures Lookup(f).value.de2 < 20
  {
    LookupByOrdinal(f);
    TableFields();
  }
}
