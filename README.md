# Allwinner H5 display engine and AC108 codec, modelled in Dafny

This project models the register programming of two Linux 5.2 drivers and proves what it achieves.

The first is the Allwinner H5 "DE2" display driver:
- the mixer, its pixel-format table and its register layout;
- the UI and VI layers (blend-pipe routing, geometry, chroma alignment, coarse down-scaling, buffer addresses and formats);
- the colour-space converter;
- the timing controller (TCON) mode set, channel enables, vblank interrupt and page-flip event;
- the CRTC's atomic begin, flush and enable, and its plane roles;
- the pipeline walk of the DRM driver's probe and the dumb-buffer pitch;
- the HDMI PHY's band selection and calibration, and the PHY clock's divider and parent search.

The second is the AC108 four-channel ADC codec and its ASoC card:
- the mixer controls' get and put;
- the sample-rate, resolution and PLL tables;
- the DAI operations set_sysclk, set_fmt and hw_params, with the PLL, TDM slot and power programming;
- the debug register store;
- the card's startup, shutdown, hw_params and trigger, and its device-tree defaults.

Every register block is a `map<int, bv32>`. A register never written reads 0. The driver's two register primitives are modelled in `Regs`:
- `regmap_write` becomes `Written`;
- `regmap_update_bits` becomes `BitsUpdated` (`new = (old & ~mask) | (v & mask)`).

The driver functions that write step by step are methods on the `RegMap` class. Each is proved to leave the register file as a specification function describes. Lemmas then state what those functions mean: which fields read back as what, and which registers and bits stay as they were. Objects whose fields the drivers update in place are classes: the CRTC and its event slot, the PHY, the AC108 private data, and the card with the CPU DAI's channel limits. Pure table searches and encoders are functions.

Where the driver's code differs from what its comments or its own computations evidently intend, the driver's methods follow the code as written: the mixer bind, the VI layer's `update_coord` and the TCON mode set all program what the code programs. Beside each, a corrected definition serves as a reference, with the intended property proved about it and a lemma saying where the two differ. Both halves are listed under "## Findings".

## Model

| member | source | states |
|---|---|---|
| Csc.TableFor | linux-5.2/drivers/gpu/drm/sun5h/sunh5_csc.c:39-49 | YUV2RGB and YVU2RGB pick their 12-entry tables; any other mode has none |
| Csc.CoeffsWrittenSpec | linux-5.2/drivers/gpu/drm/sun5h/sunh5_csc.c:51-57 | after n loop steps, word k < n holds entry k (biased on the constant column) and every other register is unchanged |
| Csc.ProgrammedWords | linux-5.2/drivers/gpu/drm/sun5h/sunh5_csc.c:51-57 | a full programming writes exactly the words base+0x10+4i, adding 0x2000 to entries 3, 7 and 11 only |
| Csc.YvuSwapsChromaColumns | linux-5.2/drivers/gpu/drm/sun5h/sunh5_csc.c:20-30 | the YVU table is the YUV table with the U and V columns exchanged in every row |
| Csc.CcscUnitsDisjoint | linux-5.2/drivers/gpu/drm/sun5h/sunh5_csc.c:10-13 | the four converter units never share a register |
| Csc.SetCoefficients | linux-5.2/drivers/gpu/drm/sun5h/sunh5_csc.c:34-58 | OFF leaves the registers alone; otherwise the register file is the 12-write loop's result |
| Csc.SetCcscCoefficients | linux-5.2/drivers/gpu/drm/sun5h/sunh5_csc.c:60-69 | programs the unit chosen by the mixer's `ccsc` set and the layer |
| Csc.Enable | linux-5.2/drivers/gpu/drm/sun5h/sunh5_csc.c:71-81 | bit 0 of the control word becomes `enable`; no other bit or register changes |
| Csc.EnableCcsc | linux-5.2/drivers/gpu/drm/sun5h/sunh5_csc.c:83-92 | updates only the enable bit of the chosen unit |
| Formats.FindFrom | linux-5.2/drivers/gpu/drm/sun5h/sunh5_mixer.c:247-250 | the first index at or after k whose fourcc matches, with no match before it; none only when no entry matches |
| Formats.ScanTable | linux-5.2/drivers/gpu/drm/sun5h/sunh5_mixer.c:243-253 | the loop returns the first matching index, and none exactly when no entry matches |
| Formats.FormatInfo | linux-5.2/drivers/gpu/drm/sun5h/sunh5_mixer.c:243-253 | returns the catalogue entry `Lookup` names |
| Formats.TableFields | linux-5.2/drivers/gpu/drm/sun5h/sunh5_mixer.c:24-241 | the 20 RGB entries carry their own index as code, read as RGB with no conversion; the 16 YUV entries convert with YUV2RGB (YVU2RGB for the last four), only the 4:4:4 ones read as RGB, all codes at most 14 |
| Formats.LookupByOrdinal | linux-5.2/drivers/gpu/drm/sun5h/sunh5_mixer.c:243-253 | a listed fourcc is found at its position in the catalogue; an unlisted code is not found |
| Formats.RgbFourccLookup | linux-5.2/drivers/gpu/drm/sun5h/sunh5_mixer.c:24-144 | an RGB fourcc's entry has the hardware code of its position, RGB, no conversion |
| Formats.UiFormatsAreRgb | linux-5.2/drivers/gpu/drm/sun5h/sunh5_ui_layer.c:341-362 | every fourcc a UI plane advertises has an RGB entry needing no conversion |
| Formats.ViFormatsListed | linux-5.2/drivers/gpu/drm/sun5h/sunh5_vi_layer.c:434-468 | every fourcc a VI plane advertises has a catalogue entry |
| Formats.CscByFamily | linux-5.2/drivers/gpu/drm/sun5h/sunh5_mixer.c:24-241 | the conversion is none for RGB, YVU2RGB for planar YVU, YUV2RGB for every other YUV fourcc |
| Formats.FullResolutionYuvReadAsRgb | linux-5.2/drivers/gpu/drm/sun5h/sunh5_mixer.c:193-222 | YUV444 and YVU444 use the RGB888 code and are read as RGB, but still converted |
| Formats.CodesFitField | linux-5.2/drivers/gpu/drm/sun5h/sunh5_mixer.h:58-93 | every catalogue code is below 20, so it fits the five-bit FBFMT field |
| MixerRegs.Size | linux-5.2/drivers/gpu/drm/sun5h/sunh5_mixer.h:10 | for dimensions 1..65536, the low half-word reads back width-1 and the high half-word height-1 |
| MixerRegs.SizeInjective | linux-5.2/drivers/gpu/drm/sun5h/sunh5_mixer.h:10 | two in-range sizes encode equally exactly when both dimensions are equal |
| MixerRegs.Coord | linux-5.2/drivers/gpu/drm/sun5h/sunh5_mixer.h:11 | coordinates below 65536 read back from the low (x) and high (y) half-words |
| MixerRegs.WindowsDisjoint | linux-5.2/drivers/gpu/drm/sun5h/sunh5_mixer.h:22-30 | on DE2 and DE3 every channel window lies above the blender and apart from every other channel's |
| MixerRegs.BlenderWordsDistinct | linux-5.2/drivers/gpu/drm/sun5h/sunh5_mixer.h:33-54 | the per-pipe attribute and blend-mode words of pipes 0..7 are pairwise distinct and sit between the fixed blender words |
| MixerRegs.PipeEnInMask | linux-5.2/drivers/gpu/drm/sun5h/sunh5_mixer.h:34-36 | the five pipe-enable bits lie in EN_MSK, are pairwise disjoint and never meet a fill-colour bit |
| MixerRegs.RouteNibbles | linux-5.2/drivers/gpu/drm/sun5h/sunh5_mixer.h:42-44 | route nibbles of different pipes do not overlap, and a channel below 16 placed at pipe n reads back from nibble n |
| Layers.RouteNibbleMerge | linux-5.2/drivers/gpu/drm/sun5h/sunh5_mixer.h:42-44 | updating ROUTE_PIPE_MSK(n) with `v << 4n` sets nibble n to v and keeps every other nibble |
| Layers.PipeWordClaims | linux-5.2/drivers/gpu/drm/sun5h/sunh5_ui_layer.c:81-86 | an enabled layer's pipe bit is on afterwards |
| Layers.PipeWordVacates | linux-5.2/drivers/gpu/drm/sun5h/sunh5_ui_layer.c:70-74 | a disabled or moved layer's old pipe bit is off afterwards, even when enabling |
| Layers.PipeWordKeeps | linux-5.2/drivers/gpu/drm/sun5h/sunh5_ui_layer.c:70-86 | every pipe bit outside the vacated and claimed slots keeps its value |
| Layers.RouteWordClaims | linux-5.2/drivers/gpu/drm/sun5h/sunh5_ui_layer.c:88-93 | an enabled layer's route nibble names its channel afterwards |
| Layers.RouteWordVacates | linux-5.2/drivers/gpu/drm/sun5h/sunh5_ui_layer.c:75-78 | a disabled or moved layer's old route nibble is empty afterwards |
| Layers.RouteWordKeeps | linux-5.2/drivers/gpu/drm/sun5h/sunh5_ui_layer.c:70-93 | every route nibble outside the two touched slots keeps its value |
| Layers.SlotWords | linux-5.2/drivers/gpu/drm/sun5h/sunh5_ui_layer.c:52-95 | layer_enable changes only the attribute word, the pipe-control word and the route word, each as its word function says |
| Layers.SlotAttrBit | linux-5.2/drivers/gpu/drm/sun5h/sunh5_ui_layer.c:61-68 | only bit 0 of the attribute word changes, and it follows `enable` |
| Layers.SlotClaimed | linux-5.2/drivers/gpu/drm/sun5h/sunh5_ui_layer.c:81-94 | an enabled layer ends with pipe zpos on and route nibble zpos naming its channel |
| Layers.SlotVacated | linux-5.2/drivers/gpu/drm/sun5h/sunh5_ui_layer.c:70-79 | a disabled or moved layer leaves pipe old_zpos off and its route nibble empty |
| Layers.SlotKeepsPipes | linux-5.2/drivers/gpu/drm/sun5h/sunh5_ui_layer.c:70-94 | no other pipe bit changes |
| Layers.SlotKeepsRoutes | linux-5.2/drivers/gpu/drm/sun5h/sunh5_ui_layer.c:70-94 | no other route nibble changes |
| Layers.DisableIdempotent | linux-5.2/drivers/gpu/drm/sun5h/sunh5_ui_layer.c:97-106 | disabling a layer a second time from the same slot changes nothing |
| Layers.LayerEnable | linux-5.2/drivers/gpu/drm/sun5h/sunh5_ui_layer.c:52-95 | the register file is `SlotUpdated` of the old one (the VI copy at linux-5.2/drivers/gpu/drm/sun5h/sunh5_vi_layer.c:58-103 is the same code) |
| Layers.AtomicCheck | linux-5.2/drivers/gpu/drm/sun5h/sunh5_ui_layer.c:26-50 | no CRTC: accepted; CRTC without state: -EINVAL; otherwise the helper decides, and only a channel with a scaler gets scaling limits |
| Layers.FixedPointSplit | linux-5.2/drivers/gpu/drm/sun5h/sunh5_ui_layer.c:108-187 | a 16.16 source coordinate is its whole part shifted up joined with its fraction |
| Layers.FbfmtField | linux-5.2/drivers/gpu/drm/sun5h/sunh5_ui_layer.c:189-212 | the FBFMT field reads back as the hardware code |
| Layers.PixelAddress | linux-5.2/drivers/gpu/drm/sun5h/sunh5_ui_layer.c:231-237 | the computed address is below 2^32, as `lower_32_bits` stores it |
| Layers.PixelAddressSteps | linux-5.2/drivers/gpu/drm/sun5h/sunh5_ui_layer.c:235-237 | one row down adds one pitch and one pixel right adds one pixel size, modulo 2^32 |
| Layers.InitOutcome | linux-5.2/drivers/gpu/drm/sun5h/sunh5_ui_layer.c:364-406 | the layer is returned only when allocation, plane init and the zpos property all succeed; otherwise the first failure's errno |
| UiLayer.AttrApart | linux-5.2/drivers/gpu/drm/sun5h/sunh5_ui_layer.h:10-14 | a UI layer's attribute word lies apart from the blender's pipe-control and route words |
| UiLayer.Enable | linux-5.2/drivers/gpu/drm/sun5h/sunh5_ui_layer.c:52-95 | the register file is `SlotUpdated` for the layer's attribute word and the mixer's blender |
| UiLayer.AtomicDisable | linux-5.2/drivers/gpu/drm/sun5h/sunh5_ui_layer.c:97-106 | a disabled plane vacates the slot its old state held and clears its enable bit |
| UiLayer.ScalerOffIffIdentity | linux-5.2/drivers/gpu/drm/sun5h/sunh5_ui_layer.c:161-174 | for sizes the encoder represents, the scaler stays off exactly when source and destination sizes agree and the source starts on a whole pixel |
| UiLayer.CoordLayerWords | linux-5.2/drivers/gpu/drm/sun5h/sunh5_ui_layer.c:154-184 | the layer and overlay sizes hold the source size, and blend slot zpos holds the destination position and size |
| UiLayer.CoordPrimaryWords | linux-5.2/drivers/gpu/drm/sun5h/sunh5_ui_layer.c:133-152 | only the primary plane sets the global and blender output sizes to the destination size and the interlace bit to the mode's, leaving the other OUTCTL bits |
| UiLayer.CoordFrame | linux-5.2/drivers/gpu/drm/sun5h/sunh5_ui_layer.c:108-187 | update_coord writes no register besides the seven it names |
| UiLayer.UpdateCoord | linux-5.2/drivers/gpu/drm/sun5h/sunh5_ui_layer.c:108-187 | the register file is `CoordWritten` and the scaler request is `Scaler` |
| UiLayer.FormatField | linux-5.2/drivers/gpu/drm/sun5h/sunh5_ui_layer.c:200-206 | accepted exactly when the catalogue has an RGB entry, otherwise -EINVAL; the field reads back as the entry's code |
| UiLayer.AdvertisedFormatsAccepted | linux-5.2/drivers/gpu/drm/sun5h/sunh5_ui_layer.c:189-212 | every fourcc the UI planes advertise passes update_formats |
| UiLayer.UpdateFormats | linux-5.2/drivers/gpu/drm/sun5h/sunh5_ui_layer.c:189-212 | returns 0 or -EINVAL as `FormatField` decides, and only on success changes the FBFMT bits of the attribute word |
| UiLayer.UpdateBuffer | linux-5.2/drivers/gpu/drm/sun5h/sunh5_ui_layer.c:214-248 | writes plane 0's pitch and the 32-bit address of the first source pixel |
| UiLayer.AtomicUpdate | linux-5.2/drivers/gpu/drm/sun5h/sunh5_ui_layer.c:250-268 | an invisible plane only vacates its slot; a visible one is programmed coord, format, buffer, then enabled, and its scaler request returned |
| UiLayer.ChannelWordsApart | linux-5.2/drivers/gpu/drm/sun5h/sunh5_ui_layer.c:108-248 | none of the words update_coord and update_buffer write is the attribute word |
| UiLayer.StepsBeforeEnable | linux-5.2/drivers/gpu/drm/sun5h/sunh5_ui_layer.c:264-266 | before the enable, only update_formats has touched the attribute word |
| UiLayer.VisibleAttrWord | linux-5.2/drivers/gpu/drm/sun5h/sunh5_ui_layer.c:259-268 | a visible plane ends enabled, with the rest of its attribute word as update_formats left it |
| UiLayer.UpdateIgnoresFormatError | linux-5.2/drivers/gpu/drm/sun5h/sunh5_ui_layer.c:265 | a rejected format does not stop the update: the plane is still enabled and its FBFMT field unchanged |
| UiLayer.UpdateProgramsFormat | linux-5.2/drivers/gpu/drm/sun5h/sunh5_ui_layer.c:265-267 | an accepted format's FBFMT field survives the buffer update and the enable |
| UiLayer.InitOne | linux-5.2/drivers/gpu/drm/sun5h/sunh5_ui_layer.c:364-406 | the first UI layer is primary, each drives channel vi_num + index, overlay 0, with a zpos starting at its channel and bounded by the plane count minus 1 |
| ViLayer.AttrApart | linux-5.2/drivers/gpu/drm/sun5h/sunh5_vi_layer.h:9-19 | a VI layer's attribute word lies apart from the blender's pipe-control and route words |
| ViLayer.Enable | linux-5.2/drivers/gpu/drm/sun5h/sunh5_vi_layer.c:58-103 | the register file is `SlotUpdated` for the layer's attribute word and the mixer's blender |
| ViLayer.AtomicDisable | linux-5.2/drivers/gpu/drm/sun5h/sunh5_vi_layer.c:105-114 | a disabled plane vacates the slot its old state held and clears its enable bit |
| ViLayer.AlignKeepsOrigin | linux-5.2/drivers/gpu/drm/sun5h/sunh5_vi_layer.c:141-161 | after aligning to the subsampling factor, the aligned start pixel plus the new phase is exactly the requested 16.16 start |
| ViLayer.AlignedSizeMultiple | linux-5.2/drivers/gpu/drm/sun5h/sunh5_vi_layer.c:145-161 | the aligned source size is a multiple of the subsampling factor |
| ViLayer.AlignedEndWithin | linux-5.2/drivers/gpu/drm/sun5h/sunh5_vi_layer.c:145-161 | the aligned window ends no later than the requested one |
| ViLayer.AlignedEndClose | linux-5.2/drivers/gpu/drm/sun5h/sunh5_vi_layer.c:145-161 | the aligned window ends less than one subsampling factor before the requested one |
| ViLayer.AlignedStartBounds | linux-5.2/drivers/gpu/drm/sun5h/sunh5_vi_layer.c:302-303 | the start pixel `update_buffer` reads from is a multiple of the factor, at or below the requested start and less than one factor below it |
| ViLayer.UnsubsampledAgreesWithUi | linux-5.2/drivers/gpu/drm/sun5h/sunh5_vi_layer.c:163-184 | without subsampling, the VI layer programs the source size the UI layer does and uses the scaler exactly when the UI layer would |
| ViLayer.CoarseHeight | linux-5.2/drivers/gpu/drm/sun5h/sunh5_vi_layer.c:205 | the coarse line count fits 32 bits |
| ViLayer.Narrowed | linux-5.2/drivers/gpu/drm/sun5h/sunh5_vi_layer.c:209-217 | the scaler width never exceeds the scanline buffer nor the aligned width; a fitting source keeps its width and a wider one becomes exactly one scanline |
| ViLayer.ScaledWidthNarrowed | linux-5.2/drivers/gpu/drm/sun5h/sunh5_vi_layer.c:209-217 | the width handed to the scaler is the aligned width narrowed to the scanline (2048, or the mixer's YUV scanline for subsampled formats) |
| ViLayer.SubsampledUsesScaler | linux-5.2/drivers/gpu/drm/sun5h/sunh5_vi_layer.c:178-184 | a subsampled format always turns the scaler on |
| ViLayer.VerticalCoarseChoice | linux-5.2/drivers/gpu/drm/sun5h/sunh5_vi_layer.c:200-207 | when the unit's ability is below the required percentage the scaler reads the coarse height, otherwise the aligned height |
| ViLayer.CoarseBelowSource | linux-5.2/drivers/gpu/drm/sun5h/sunh5_vi_layer.c:200-207 | without 32-bit wrap-around, vertical coarse scaling reads fewer lines than the source has |
| ViLayer.HorizontalDsOff | linux-5.2/drivers/gpu/drm/sun5h/sunh5_vi_layer.c:212-232 | the horizontal down-sampling word is 0 unless the line is coarsely scaled |
| ViLayer.DsFields | linux-5.2/drivers/gpu/drm/sun5h/sunh5_vi_layer.h:32-33 | N and M both read back from a down-sampling word when they fit 16 bits |
| ViLayer.HorizontalDsFields | linux-5.2/drivers/gpu/drm/sun5h/sunh5_vi_layer.c:212-232 | with horizontal coarse scaling N reads back as the scanline and M as the aligned source width |
| ViLayer.VerticalDsFields | linux-5.2/drivers/gpu/drm/sun5h/sunh5_vi_layer.c:202-207 | with vertical coarse scaling N reads back as the height the scaler is set up for and M as the aligned source height |
| ViLayer.CoordWordsHold | linux-5.2/drivers/gpu/drm/sun5h/sunh5_vi_layer.c:171-241 | after `update_coord` the layer and overlay sizes hold the aligned source size, the four down-sampling words hold what was passed, and blend slot zpos holds the destination position and size |
| ViLayer.CoordFrame | linux-5.2/drivers/gpu/drm/sun5h/sunh5_vi_layer.c:171-241 | `update_coord` writes no register besides the eight it names |
| ViLayer.AsWrittenDropsVerticalCoarse | linux-5.2/drivers/gpu/drm/sun5h/sunh5_vi_layer.c:231-234 | as written, a plane read with only vertical coarse scaling gets a zero vertical down-sampling word while the scaler is set up for fewer lines; the corrected update writes a non-zero word |
| ViLayer.CoordAgreesWithoutVerticalCoarse | linux-5.2/drivers/gpu/drm/sun5h/sunh5_vi_layer.c:231-234 | without coarse scaling the as-written and corrected updates write the same register file |
| ViLayer.UpdateCoord | linux-5.2/drivers/gpu/drm/sun5h/sunh5_vi_layer.c:116-244 | as written: the scaler request is `Scaler` of the inputs (with the coarse height), and the register file is `CoordWritten`, where all four down-sampling registers receive the horizontal word |
| ViLayer.CoarseScaling | linux-5.2/drivers/gpu/drm/sun5h/sunh5_vi_layer.c:184-221 | the scaler width and height and both down-sampling words are the narrowed width, the coarse or aligned height, and the words above |
| ViLayer.VerticalStep | linux-5.2/drivers/gpu/drm/sun5h/sunh5_vi_layer.c:200-207 | the height and vertical word follow the ability test |
| ViLayer.HorizontalStep | linux-5.2/drivers/gpu/drm/sun5h/sunh5_vi_layer.c:209-217 | the width and horizontal word follow the scanline test |
| ViLayer.WriteCoordWords | linux-5.2/drivers/gpu/drm/sun5h/sunh5_vi_layer.c:171-241 | the eight register writes of `update_coord` in order |
| ViLayer.CatalogueField | linux-5.2/drivers/gpu/drm/sun5h/sunh5_vi_layer.c:262 | the FBFMT field of a catalogued format reads back as the entry's hardware code |
| ViLayer.UpdateFormat | linux-5.2/drivers/gpu/drm/sun5h/sunh5_vi_layer.c:246-284 | returns -EINVAL exactly for a fourcc without a catalogue entry, and the register file is `FormatWritten` of the old one |
| ViLayer.FormatAttrWord | linux-5.2/drivers/gpu/drm/sun5h/sunh5_vi_layer.c:262-281 | the attribute word receives the FBFMT merge, then the RGB-mode merge; the CSC writes do not reach it |
| ViLayer.AttrMergeFields | linux-5.2/drivers/gpu/drm/sun5h/sunh5_vi_layer.c:262-281 | the two merges set the FBFMT field and the RGB-mode bit and keep the enable bit |
| ViLayer.FormatAttrFields | linux-5.2/drivers/gpu/drm/sun5h/sunh5_vi_layer.c:262-281 | a catalogued format leaves FBFMT holding its hardware code, the RGB-mode bit set exactly for RGB entries, and the enable bit untouched |
| ViLayer.FormatCscUnit | linux-5.2/drivers/gpu/drm/sun5h/sunh5_vi_layer.c:267-272 | the channel's CCSC unit ends enabled exactly for formats needing a conversion; then its 12 coefficients come from the mode's table, otherwise they are left alone |
| ViLayer.AdvertisedFormatsConverted | linux-5.2/drivers/gpu/drm/sun5h/sunh5_vi_layer.c:434-468 | every advertised VI format is catalogued, and its CCSC unit ends enabled exactly for the YUV ones |
| ViLayer.PlaneAddress | linux-5.2/drivers/gpu/drm/sun5h/sunh5_vi_layer.c:312-332 | the address written is the low 32 bits of the first displayed sample of the plane |
| ViLayer.UpdateBuffer | linux-5.2/drivers/gpu/drm/sun5h/sunh5_vi_layer.c:286-336 | the register file is the old one with every plane's pitch and address words written, plane by plane |
| ViLayer.WritePlane | linux-5.2/drivers/gpu/drm/sun5h/sunh5_vi_layer.c:326-332 | one plane's pitch word, then its address word |
| ViLayer.BuffersFrame | linux-5.2/drivers/gpu/drm/sun5h/sunh5_vi_layer.c:305-333 | `update_buffer` writes only the pitch and address words of its planes |
| ViLayer.BufferWordsAt | linux-5.2/drivers/gpu/drm/sun5h/sunh5_vi_layer.c:305-333 | for formats of up to three planes, plane k's pitch word holds its pitch and its address word its first displayed sample |
| ViLayer.BufferOriginAgrees | linux-5.2/drivers/gpu/drm/sun5h/sunh5_vi_layer.c:141-303 | the luma plane's aligned start together with the phase `update_coord` programs gives back the 16.16 source origin, in both directions |
| ViLayer.AtomicUpdate | linux-5.2/drivers/gpu/drm/sun5h/sunh5_vi_layer.c:338-356 | an invisible plane only vacates its old slot; a visible one gets the as-written geometry, then format, buffers and slot programmed in that order, and the scaler request is returned |
| ViLayer.Show | linux-5.2/drivers/gpu/drm/sun5h/sunh5_vi_layer.c:352-355 | the plane's registers staged as the code writes them, then its layer enabled in slot zpos |
| ViLayer.Stage | linux-5.2/drivers/gpu/drm/sun5h/sunh5_vi_layer.c:352-354 | the as-written coordinate step, then the format and buffer steps, the format step's error not looked at |
| ViLayer.StepsBeforeEnable | linux-5.2/drivers/gpu/drm/sun5h/sunh5_vi_layer.c:352-354 | of the as-written steps before enabling, only `update_format` touches the attribute word |
| ViLayer.CoordKeepsAttr | linux-5.2/drivers/gpu/drm/sun5h/sunh5_vi_layer.c:116-244 | the as-written `update_coord` leaves the attribute word alone |
| ViLayer.UpdateProgramsFormat | linux-5.2/drivers/gpu/drm/sun5h/sunh5_vi_layer.c:338-356 | after the as-written update, a visible plane with a catalogued format ends enabled, with FBFMT holding the format's code and the RGB-mode bit set exactly for RGB entries |
| ViLayer.EnabledWithFormat | linux-5.2/drivers/gpu/drm/sun5h/sunh5_vi_layer.c:353-355 | enabling the slot keeps the format fields `update_format` wrote |
| ViLayer.UpdateIgnoresUnknownFormat | linux-5.2/drivers/gpu/drm/sun5h/sunh5_vi_layer.c:352-356 | after the as-written update, a visible plane with an uncatalogued format is still enabled, its FBFMT field and RGB-mode bit left as they were |
| ViLayer.EnabledWithoutFormat | linux-5.2/drivers/gpu/drm/sun5h/sunh5_vi_layer.c:355 | enabling the slot over an untouched word keeps the rest of it |
| ViLayer.InitOne | linux-5.2/drivers/gpu/drm/sun5h/sunh5_vi_layer.c:470-509 | succeeds exactly when allocation, plane init and the zpos property succeed; the layer is channel index, overlay 0, zpos index, range up to the plane count minus 1 |
| Mixer.Mixer0Layout | linux-5.2/drivers/gpu/drm/sun5h/sunh5_mixer.c:504-511 | mixer 0 drives four planes, every one of them on a channel with a scaler, and no fifth |
| Mixer.Commit | linux-5.2/drivers/gpu/drm/sun5h/sunh5_mixer.c:255-260 | the register file is `Committed` of the old one |
| Mixer.CommitOnlyLatches | linux-5.2/drivers/gpu/drm/sun5h/sunh5_mixer.c:255-260 | a commit sets the double-buffer word to 1, leaves every other word unchanged, and is idempotent |
| Mixer.LayersInit | linux-5.2/drivers/gpu/drm/sun5h/sunh5_mixer.c:262-298 | fails with -ENOMEM when the array cannot be allocated; succeeds exactly when every layer's init succeeds, with VI layers, then UI layers, then a null entry; otherwise returns the error of the first layer that failed |
| Mixer.LayersByChannel | linux-5.2/drivers/gpu/drm/sun5h/sunh5_mixer.c:262-298 | entry i of a built array drives channel i with zpos i, VI layers come first, and the first UI layer is the primary plane |
| Mixer.ClearedAt | linux-5.2/drivers/gpu/drm/sun5h/sunh5_mixer.c:438-439 | after n steps of the reset loop the first n words read 0 and every other word is unchanged |
| Mixer.BlendModesAt | linux-5.2/drivers/gpu/drm/sun5h/sunh5_mixer.c:463-464 | the first n pipes' blend-mode words hold the default and no other word changes |
| Mixer.InitWordsAt | linux-5.2/drivers/gpu/drm/sun5h/sunh5_mixer.c:438-466 | each word after the bind sequence, register by register: PIPE_CTL with its enable bits cleared, default blend modes, black background and bottom fill, mixer enabled, the rest of the unit zeroed, everything else unchanged |
| Mixer.ResetAt | linux-5.2/drivers/gpu/drm/sun5h/sunh5_mixer.c:438-447 | after the reset loop and the sub-engine writes, the unit's words and the seven sub-engine enables read 0 |
| Mixer.PipeCtlCleared | linux-5.2/drivers/gpu/drm/sun5h/sunh5_mixer.c:466 | the final update of PIPE_CTL clears exactly its pipe-enable bits |
| Mixer.SetUpAt | linux-5.2/drivers/gpu/drm/sun5h/sunh5_mixer.c:450-460 | the mixer is enabled, background and bottom fill colour are black, PIPE_CTL takes its first word, and nothing else changes |
| Mixer.SubEnginesAt | linux-5.2/drivers/gpu/drm/sun5h/sunh5_mixer.c:441-447 | the seven sub-engine enables read 0 and nothing else changes |
| Mixer.BindInitState | linux-5.2/drivers/gpu/drm/sun5h/sunh5_mixer.c:437-466 | after bind as written the mixer is enabled, background and bottom fill colour are black, each pipe has the default blend mode, and PIPE_CTL is 0: no pipe and no fill colour enabled |
| Mixer.BindBlendMode | linux-5.2/drivers/gpu/drm/sun5h/sunh5_mixer.c:463-464 | each of the mixer's pipes ends with the default blend mode |
| Mixer.AsWrittenLeavesNoFill | linux-5.2/drivers/gpu/drm/sun5h/sunh5_mixer.c:459-466 | as written, PIPE_CTL ends 0, so the bottom pipe's fill colour is never enabled |
| Mixer.CorrectedFillsBottom | linux-5.2/drivers/gpu/drm/sun5h/sunh5_mixer.c:459-466 | corrected, PIPE_CTL ends with exactly the bottom pipe's fill-colour bit set |
| Mixer.CorrectedAgreesElsewhere | linux-5.2/drivers/gpu/drm/sun5h/sunh5_mixer.c:437-466 | the corrected sequence leaves every word but PIPE_CTL as the code does, and enables no pipe |
| Mixer.BindInit | linux-5.2/drivers/gpu/drm/sun5h/sunh5_mixer.c:437-466 | as written, PIPE_CTL first given PIPE_CTL_EN(0): the register file is `InitAsWritten` of the old one |
| Mixer.SetUpBlender | linux-5.2/drivers/gpu/drm/sun5h/sunh5_mixer.c:450-460 | the register file is `BlenderSetUp` of the old one |
| Mixer.WriteBlendModes | linux-5.2/drivers/gpu/drm/sun5h/sunh5_mixer.c:463-464 | the register file is the old one with the first n blend-mode words set to the default |
| Mixer.ClearUnit | linux-5.2/drivers/gpu/drm/sun5h/sunh5_mixer.c:438-439 | every word of the 0x6000-byte unit is written with 0 |
| Mixer.DisableSubEngines | linux-5.2/drivers/gpu/drm/sun5h/sunh5_mixer.c:441-447 | the seven sub-engine enables written with 0 |
| CrtcState.Crtc.constructor | linux-5.2/drivers/gpu/drm/sun5h/sunh5_crtc.h:6-12 | a zero-allocated CRTC holds no event, no vblank reference and has vblank handling off |
| Crtc.GetEncoder | linux-5.2/drivers/gpu/drm/sun5h/sunh5_crtc.c:25-34 | the result is the first encoder attached to the CRTC, or none when no encoder is attached |
| Crtc.EncoderFrom | linux-5.2/drivers/gpu/drm/sun5h/sunh5_crtc.c:29-33 | the first attached encoder at or after a position, or none |
| Crtc.AtomicCheck | linux-5.2/drivers/gpu/drm/sun5h/sunh5_crtc.c:36-48 | the engine's own check result when it has one, 0 otherwise; the mixer's engine has none, so the check always passes |
| Crtc.BeginTakesEvent | linux-5.2/drivers/gpu/drm/sun5h/sunh5_crtc.c:50-67 | begin moves the state's event into the driver's slot, dropping an event still in the slot, and sends or arms nothing |
| Crtc.FlushPlacesEvent | linux-5.2/drivers/gpu/drm/sun5h/sunh5_crtc.c:69-88 | flush empties the state's event into exactly one of armed (with a vblank reference) or sent, losing and duplicating nothing |
| Crtc.FlipCompletesInHandler | linux-5.2/drivers/gpu/drm/sun5h/sunh5_crtc.c:50-88 | after begin has taken an event, flush changes nothing and the interrupt handler delivers the event exactly once, however often it runs |
| Crtc.AtomicBegin | linux-5.2/drivers/gpu/drm/sun5h/sunh5_crtc.c:50-67 | the CRTC's events are `Begun` of the old ones |
| Crtc.AtomicFlush | linux-5.2/drivers/gpu/drm/sun5h/sunh5_crtc.c:69-88 | the mixer's registers are committed and the events are `Flushed` of the old ones |
| Crtc.AtomicEnable | linux-5.2/drivers/gpu/drm/sun5h/sunh5_crtc.c:90-100 | the TCON is switched on for the first attached encoder, the channel clock is enabled exactly for an HDMI encoder, and vblank handling is on |
| Crtc.ModeSetNofb | linux-5.2/drivers/gpu/drm/sun5h/sunh5_crtc.c:102-111 | the TCON is programmed, as its mode set is written, for the adjusted mode on the first attached encoder |
| Crtc.EnableVblank | linux-5.2/drivers/gpu/drm/sun5h/sunh5_crtc.c:121-130 | returns 0 with the vblank interrupt enabled |
| Crtc.DisableVblank | linux-5.2/drivers/gpu/drm/sun5h/sunh5_crtc.c:132-139 | the vblank interrupt disabled |
| Crtc.Terminator | linux-5.2/drivers/gpu/drm/sun5h/sunh5_crtc.c:227 | the null entry that ends a plane array is the first null entry |
| Crtc.NoneFrom | linux-5.2/drivers/gpu/drm/sun5h/sunh5_crtc.c:227 | the first null entry at or after a position |
| Crtc.LastOfKind | linux-5.2/drivers/gpu/drm/sun5h/sunh5_crtc.c:227-240 | the last plane of a type before the null entry, or none when there is no such plane |
| Crtc.PlaneRoles | linux-5.2/drivers/gpu/drm/sun5h/sunh5_crtc.c:226-240 | the primary and cursor planes are the last of each type before the null entry |
| Crtc.MarkOverlays | linux-5.2/drivers/gpu/drm/sun5h/sunh5_crtc.c:253-260 | `possible_crtcs` is set on the overlay planes and on no other |
| Crtc.Init | linux-5.2/drivers/gpu/drm/sun5h/sunh5_crtc.c:203-263 | -ENOMEM when allocation fails, a null pointer (not an error pointer) when the plane array fails, the error of `drm_crtc_init_with_planes`, or a CRTC with its primary, cursor and overlay planes |
| Crtc.MixerPlaneRoles | linux-5.2/drivers/gpu/drm/sun5h/sunh5_crtc.c:226-260 | on the mixer's plane array the first UI layer is the primary plane, there is no cursor, and every other layer is an overlay |
| Crtc.LayerKinds | linux-5.2/drivers/gpu/drm/sun5h/sunh5_crtc.c:230-238 | no layer of the mixer is a cursor |
| Tcon.InterruptBits | linux-5.2/drivers/gpu/drm/sun5h/sunh5_tcon.h:14-17 | the vblank enables are bits 31, 30 and 27, the status bits 15, 14 and 11, each status bit 16 below its enable and the two sets disjoint |
| Tcon.ClkDelay | linux-5.2/drivers/gpu/drm/sun5h/sunh5_tcon.c:29-44 | the delay is the (halved, less two on channel 1) vertical blanking capped at 30: never above 30 nor above the blanking, and equal to one of them |
| Tcon.ClkDelayByScan | linux-5.2/drivers/gpu/drm/sun5h/sunh5_tcon.c:29-44 | for channel 1 the delay is min(blank - 2, 30) for progressive and min(blank / 2 - 2, 30) for interlaced modes |
| Tcon.DelayByte | linux-5.2/drivers/gpu/drm/sun5h/sunh5_tcon.c:49-58 | the `u8` the delay is kept in holds every delay in 0..255 unchanged |
| Tcon.ClkDelayField | linux-5.2/drivers/gpu/drm/sun5h/sunh5_tcon.h:35-36 | the delay lands in bits 8:4 and nothing outside them |
| Tcon.DelayProgrammed | linux-5.2/drivers/gpu/drm/sun5h/sunh5_tcon.c:58-59 | a delay in 0..30 reads back from the field unchanged |
| Tcon.NegativeDelayWraps | linux-5.2/drivers/gpu/drm/sun5h/sunh5_tcon.c:29-59 | a delay of -1 wraps through the `u8` and the 5-bit field into 31, above the cap |
| Tcon.ResolutionX | linux-5.2/drivers/gpu/drm/sun5h/sunh5_tcon.h:39 | BASIC0..2 X holds the width less one in bits 27:16 |
| Tcon.LowCount | linux-5.2/drivers/gpu/drm/sun5h/sunh5_tcon.h:40-56 | BASIC0..2 Y, H_BACKPORCH and V_BACKPORCH hold the count less one in bits 11:0 |
| Tcon.HTotal | linux-5.2/drivers/gpu/drm/sun5h/sunh5_tcon.h:51 | BASIC3 H_TOTAL holds the total less one in bits 28:16 |
| Tcon.VTotal | linux-5.2/drivers/gpu/drm/sun5h/sunh5_tcon.h:55 | BASIC4 V_TOTAL holds the total itself, not decremented, in bits 28:16 |
| Tcon.HSync | linux-5.2/drivers/gpu/drm/sun5h/sunh5_tcon.h:59 | BASIC5 H_SYNC holds the width less one in bits 25:16 |
| Tcon.VSync | linux-5.2/drivers/gpu/drm/sun5h/sunh5_tcon.h:60 | BASIC5 V_SYNC holds the height less one in bits 9:0 |
| Tcon.Halves | linux-5.2/drivers/gpu/drm/sun5h/sunh5_tcon.h:38-60 | a word of an upper-half field and a lower-half field gives both back |
| Tcon.ModeSetControl | linux-5.2/drivers/gpu/drm/sun5h/sunh5_tcon.c:58-66 | TCON1_CTL gets the clock delay in bits 8:4 and the interlace bit exactly for interlaced modes, keeping its other bits; GCTL routes the pins to channel 1 and keeps its other bits |
| Tcon.CtlFields | linux-5.2/drivers/gpu/drm/sun5h/sunh5_tcon.c:59-66 | the two TCON1_CTL merges set the delay field and interlace bit and keep the rest |
| Tcon.ModeSetDelay | linux-5.2/drivers/gpu/drm/sun5h/sunh5_tcon.c:58-59 | with non-negative adjusted blanking, the clock-delay field holds the delay |
| Tcon.ResolutionAt | linux-5.2/drivers/gpu/drm/sun5h/sunh5_tcon.c:69-75 | BASIC0, BASIC1 and BASIC2 hold the resolution word |
| Tcon.HorizontalAt | linux-5.2/drivers/gpu/drm/sun5h/sunh5_tcon.c:77-80 | BASIC3 holds H_TOTAL of the horizontal total and H_BACKPORCH of `crtc_htotal - crtc_hsync_start` |
| Tcon.VerticalAt | linux-5.2/drivers/gpu/drm/sun5h/sunh5_tcon.c:82-103 | BASIC4 holds V_TOTAL of the vertical total (doubled for progressive modes) and V_BACKPORCH of `crtc_vtotal - crtc_vsync_start` |
| Tcon.SyncAt | linux-5.2/drivers/gpu/drm/sun5h/sunh5_tcon.c:110 | BASIC5 holds the word the mode set stores |
| Tcon.PairReadsBack | linux-5.2/drivers/gpu/drm/sun5h/sunh5_tcon.h:38-60 | a word of two decremented fields gives both values back |
| Tcon.ModeSetResolution | linux-5.2/drivers/gpu/drm/sun5h/sunh5_tcon.c:69-75 | BASIC0..2 read back the active width and height |
| Tcon.ResolutionFields | linux-5.2/drivers/gpu/drm/sun5h/sunh5_tcon.h:39-40 | the resolution word reads back the active width and height |
| Tcon.ModeSetHorizontal | linux-5.2/drivers/gpu/drm/sun5h/sunh5_tcon.c:77-80 | BASIC3 reads back the horizontal total and backporch |
| Tcon.HorizontalFields | linux-5.2/drivers/gpu/drm/sun5h/sunh5_tcon.h:51-52 | the BASIC3 word reads back the horizontal total and backporch |
| Tcon.ModeSetVertical | linux-5.2/drivers/gpu/drm/sun5h/sunh5_tcon.c:82-103 | BASIC4 reads back the vertical total (undecremented) and backporch |
| Tcon.VerticalFields | linux-5.2/drivers/gpu/drm/sun5h/sunh5_tcon.h:55-56 | the BASIC4 word reads back the vertical total and backporch |
| Tcon.ModeSetSync | linux-5.2/drivers/gpu/drm/sun5h/sunh5_tcon.c:106-110 | the corrected BASIC5 reads back the horizontal and vertical sync lengths the driver computes |
| Tcon.SyncFields | linux-5.2/drivers/gpu/drm/sun5h/sunh5_tcon.h:59-60 | the corrected BASIC5 word reads back both sync lengths |
| Tcon.ModeSetFrame | linux-5.2/drivers/gpu/drm/sun5h/sunh5_tcon.c:46-115 | the mode set writes TCON1_CTL, BASIC0..5 and GCTL and no other register |
| Tcon.AsWrittenSyncFields | linux-5.2/drivers/gpu/drm/sun5h/sunh5_tcon.c:110 | as written, BASIC5 holds the vertical total less one (ten bits) as V_SYNC and the vertical backporch less one as H_SYNC |
| Tcon.AsWrittenMisprogramsSync | linux-5.2/drivers/gpu/drm/sun5h/sunh5_tcon.c:106-110 | for 1080p60 the as-written BASIC5 announces sync lengths of 41 and 202 where the driver computes 44 and 41 |
| Tcon.CorrectedDiffersOnlyInSync | linux-5.2/drivers/gpu/drm/sun5h/sunh5_tcon.c:106-110 | the corrected mode set writes every word but BASIC5 as the code does |
| Tcon.Tcon1ModeSet | linux-5.2/drivers/gpu/drm/sun5h/sunh5_tcon.c:46-115 | the channel-1 clock is asked for the mode's clock times 1000 and the register file is `Tcon1AsWritten` of the old one, BASIC5 holding V_SYNC(vtotal) \| H_SYNC(vertical backporch) |
| Tcon.SetControl | linux-5.2/drivers/gpu/drm/sun5h/sunh5_tcon.c:58-66 | the register file after the two TCON1_CTL updates |
| Tcon.WriteTimings | linux-5.2/drivers/gpu/drm/sun5h/sunh5_tcon.c:69-110 | the register file after the six BASIC writes |
| Tcon.ModeSet | linux-5.2/drivers/gpu/drm/sun5h/sunh5_tcon.c:118-129 | TV-DAC and TMDS encoders get the channel-1 mode set as written; any other type changes nothing and requests no clock |
| Tcon.EnableMerge | linux-5.2/drivers/gpu/drm/sun5h/sunh5_tcon.c:138-173 | an enable update sets the bit exactly when enabling and keeps the rest of the word |
| Tcon.StatusGlobal | linux-5.2/drivers/gpu/drm/sun5h/sunh5_tcon.c:155-176 | for every accepted encoder type the GCTL enable bit follows `enabled` and the rest of GCTL stays |
| Tcon.StatusChannel1 | linux-5.2/drivers/gpu/drm/sun5h/sunh5_tcon.c:131-140 | channel 1 sets its TCON1_CTL enable bit to `enabled` and keeps the other bits |
| Tcon.StatusChannel0 | linux-5.2/drivers/gpu/drm/sun5h/sunh5_tcon.c:141-144 | channel 0 and rejected types leave TCON1_CTL alone |
| Tcon.StatusFrame | linux-5.2/drivers/gpu/drm/sun5h/sunh5_tcon.c:155-176 | rejected types change nothing; accepted ones change only GCTL and TCON1_CTL |
| Tcon.StatusLastWins | linux-5.2/drivers/gpu/drm/sun5h/sunh5_tcon.c:131-176 | of two status changes only the last shows |
| Tcon.ChannelSetStatus | linux-5.2/drivers/gpu/drm/sun5h/sunh5_tcon.c:131-153 | channel 1 switches its enable bit and its clock; any other channel is refused with nothing done |
| Tcon.SetStatus | linux-5.2/drivers/gpu/drm/sun5h/sunh5_tcon.c:155-176 | the register file is `StatusSet` of the old one and the channel clock is switched exactly for channel-1 encoder types |
| Tcon.VblankBits | linux-5.2/drivers/gpu/drm/sun5h/sunh5_tcon.c:178-190 | the three interrupt enables are all set or all clear as asked, and the rest of GINT0 stays |
| Tcon.VblankKeepsStatus | linux-5.2/drivers/gpu/drm/sun5h/sunh5_tcon.c:178-190 | pending status bits survive a vblank switch |
| Tcon.VblankFrame | linux-5.2/drivers/gpu/drm/sun5h/sunh5_tcon.c:178-190 | only GINT0 changes |
| Tcon.StatusOutsideEnables | linux-5.2/drivers/gpu/drm/sun5h/sunh5_tcon.c:184-189 | the status bits lie outside the enable mask |
| Tcon.EnableVblank | linux-5.2/drivers/gpu/drm/sun5h/sunh5_tcon.c:178-190 | the register file is `VblankSet` of the old one |
| Tcon.ResetQuiesces | linux-5.2/drivers/gpu/drm/sun5h/sunh5_tcon.c:237-243 | after the regmap reset the TCON is disabled, no interrupt is enabled or pending, and both channels' pins are tri-stated |
| Tcon.Reset | linux-5.2/drivers/gpu/drm/sun5h/sunh5_tcon.c:237-243 | the register file is `ResetWords` of the old one |
| Tcon.AckClearsStatus | linux-5.2/drivers/gpu/drm/sun5h/sunh5_tcon.c:283-285 | the acknowledgement clears exactly the three status bits, keeps the enables and all other words, and leaves nothing pending |
| Tcon.PageFlipDelivers | linux-5.2/drivers/gpu/drm/sun5h/sunh5_tcon.c:254-265 | a held event is sent once and its vblank reference dropped, the slot is emptied, a second call does nothing, and no event is lost or duplicated |
| Tcon.FinishPageFlip | linux-5.2/drivers/gpu/drm/sun5h/sunh5_tcon.c:254-265 | the CRTC's events are `PageFlipFinished` of the old ones |
| Tcon.Handler | linux-5.2/drivers/gpu/drm/sun5h/sunh5_tcon.c:267-288 | with a handled status bit pending, the flip is finished, the status acknowledged and IRQ_HANDLED returned; otherwise IRQ_NONE with nothing changed |
| Drv.PitchBounds | linux-5.2/drivers/gpu/drm/sun5h/sunh5_drv.c:31-41 | the pitch is even, and when the product and rounding fit in 32 bits it holds a whole line and wastes at most one byte |
| Drv.PitchWraps | linux-5.2/drivers/gpu/drm/sun5h/sunh5_drv.c:36 | past 32 bits the product wraps: a 2^29-pixel line of 8-bit pixels gets pitch 0 |
| Drv.PitchExamples | linux-5.2/drivers/gpu/drm/sun5h/sunh5_drv.c:36 | 1920 RGB888 pixels need a 5760-byte pitch; a 3-pixel 1-bit line gets 2 bytes |
| Drv.Remotes | linux-5.2/drivers/gpu/drm/sun5h/sunh5_drv.c:265-275 | no more remotes are put than the port has endpoints |
| Drv.RemotesMembers | linux-5.2/drivers/gpu/drm/sun5h/sunh5_drv.c:265-275 | exactly the remotes of the available endpoints are put |
| Drv.PutOne | linux-5.2/drivers/gpu/drm/sun5h/sunh5_drv.c:22-24 | one put is the single-element sequence of puts |
| Drv.PutAllSnoc | linux-5.2/drivers/gpu/drm/sun5h/sunh5_drv.c:265-275 | putting a sequence then one more is the puts in order |
| Drv.PutAllTruncates | linux-5.2/drivers/gpu/drm/sun5h/sunh5_drv.c:22-24 | puts into the 16-entry FIFO keep the first entries that fit and drop every later one |
| Drv.OutputsLater | linux-5.2/drivers/gpu/drm/sun5h/sunh5_drv.c:299-300 | in a well-formed graph every node's outputs come later in the numbering |
| Drv.FloorFree | linux-5.2/drivers/gpu/drm/sun5h/sunh5_drv.c:327-336 | the weight total does not depend on the lower bound used to define it |
| Drv.TotalAppend | linux-5.2/drivers/gpu/drm/sun5h/sunh5_drv.c:327-336 | the weight total of a concatenation is the sum of the totals |
| Drv.TotalPrefix | linux-5.2/drivers/gpu/drm/sun5h/sunh5_drv.c:327-336 | a prefix of the FIFO weighs no more than the FIFO |
| Drv.VisitLowers | linux-5.2/drivers/gpu/drm/sun5h/sunh5_drv.c:327-336 | a turn of the probe loop lowers the FIFO's total weight, so the loop ends on an acyclic graph |
| Drv.Run | linux-5.2/drivers/gpu/drm/sun5h/sunh5_drv.c:327-336 | the walk ends with an empty FIFO, its count rises by the number of matches it adds, it keeps earlier matches, and every added node is available and not a connector |
| Drv.RunStep | linux-5.2/drivers/gpu/drm/sun5h/sunh5_drv.c:327-336 | the walk is one turn on the head of the FIFO and then the rest |
| Drv.RunCounts | linux-5.2/drivers/gpu/drm/sun5h/sunh5_drv.c:305-341 | from the queued pipelines, the count equals the number of matches and each match is an available non-connector node |
| Drv.TraverseEndpoints | linux-5.2/drivers/gpu/drm/sun5h/sunh5_drv.c:251-276 | the FIFO after the remotes of the node's port 1 are put |
| Drv.AddEndpoint | linux-5.2/drivers/gpu/drm/sun5h/sunh5_drv.c:278-303 | a connector counts nothing and puts nothing; any other node counts one exactly when available and has its outputs followed |
| Drv.QueuePipelines | linux-5.2/drivers/gpu/drm/sun5h/sunh5_drv.c:314-325 | the FIFO after each pipeline node is put, at most 16 entries |
| Drv.Probe | linux-5.2/drivers/gpu/drm/sun5h/sunh5_drv.c:305-341 | the matches are those of the walk from the queued pipelines; with nothing counted the probe returns 0, otherwise what registering the master returns |
| Drv.DiamondWellFormed | linux-5.2/drivers/gpu/drm/sun5h/sunh5_drv.c:327-336 | the two-pipelines-into-one graph is acyclic |
| Drv.ReachedTwiceCountedTwice | linux-5.2/drivers/gpu/drm/sun5h/sunh5_drv.c:327-336 | with no visited set, a node reached by two paths is matched and counted twice |
| Drv.DiamondVisits | linux-5.2/drivers/gpu/drm/sun5h/sunh5_drv.c:327-336 | the four turns of the diamond walk, one node at a time |
| Drv.UnavailableStillFollowed | linux-5.2/drivers/gpu/drm/sun5h/sunh5_drv.c:289-300 | an unavailable node is not counted, yet its outputs are still followed |
| PhyClk.ScanDividers | linux-5.2/drivers/gpu/drm/sun5h/sunh5_hdmi_phy_clk.c:31-49 | the divider loop only ever holds the initial choice or an answer of an existing parent with the divider that asked for it |
| PhyClk.ScanParents | linux-5.2/drivers/gpu/drm/sun5h/sunh5_hdmi_phy_clk.c:26-53 | the parent loop skips missing parents and holds only valid choices |
| PhyClk.Determined | linux-5.2/drivers/gpu/drm/sun5h/sunh5_hdmi_phy_clk.c:15-60 | the answer is the initial choice or a parent's answer with its divider |
| PhyClk.ExactDividerFound | linux-5.2/drivers/gpu/drm/sun5h/sunh5_hdmi_phy_clk.c:37-42 | an exact answer rate·j at any divider from the current one on ends the divider loop with the requested rate |
| PhyClk.ExactParentFound | linux-5.2/drivers/gpu/drm/sun5h/sunh5_hdmi_phy_clk.c:26-53 | an exact answer from any later parent ends the search with the requested rate |
| PhyClk.ExactRateFound | linux-5.2/drivers/gpu/drm/sun5h/sunh5_hdmi_phy_clk.c:15-60 | when some parent can produce rate·i exactly, the reported rate is the requested one |
| PhyClk.NoParentNoRate | linux-5.2/drivers/gpu/drm/sun5h/sunh5_hdmi_phy_clk.c:26-29 | with no usable parent the search reports rate 0 and no parent |
| PhyClk.DetermineRate | linux-5.2/drivers/gpu/drm/sun5h/sunh5_hdmi_phy_clk.c:15-60 | the requested rate, parent rate and parent are those of `Determined` |
| PhyClk.TryDividers | linux-5.2/drivers/gpu/drm/sun5h/sunh5_hdmi_phy_clk.c:31-49 | the inner loop's result is `ScanDividers` from divider 1 |
| PhyClk.RecalcRate | linux-5.2/drivers/gpu/drm/sun5h/sunh5_hdmi_phy_clk.c:67-78 | the rate is the parent rate divided by something in 1..16: between parent/16 and parent |
| PhyClk.Prediv | linux-5.2/drivers/gpu/drm/sun5h/sunh5_hdmi_phy_clk.c:100 | a divider m in 1..16 gives the field value m - 1; m = 0 gives all ones in the field |
| PhyClk.PickDivider | linux-5.2/drivers/gpu/drm/sun5h/sunh5_hdmi_phy_clk.c:88-98 | the divider picked is at most 16 |
| PhyClk.BestDivider | linux-5.2/drivers/gpu/drm/sun5h/sunh5_hdmi_phy_clk.c:88-98 | the divider `set_rate` picks is at most 16 |
| PhyClk.PickDividerProps | linux-5.2/drivers/gpu/drm/sun5h/sunh5_hdmi_phy_clk.c:88-98 | the pick is 0 exactly when nothing fits; otherwise it fits, no fitting divider comes closer from below, the first fitting divider wins (the comparison is strict) and, once the rates reach 0, the last divider |
| PhyClk.BestDividerCloses | linux-5.2/drivers/gpu/drm/sun5h/sunh5_hdmi_phy_clk.c:88-98 | `set_rate` picks 0 exactly when no divider fits; otherwise the closest fitting divider from below, the smallest one unless its rate is 0, when it is 16 |
| PhyClk.ZeroRateTakesLastDivider | linux-5.2/drivers/gpu/drm/sun5h/sunh5_hdmi_phy_clk.c:88-98 | a 5 Hz parent and a target of 0: the held rate 0 counts as none, so the pick ends on 16 |
| PhyClk.NoFitDividesBy16 | linux-5.2/drivers/gpu/drm/sun5h/sunh5_hdmi_phy_clk.c:88-100 | when nothing fits, the field is written all ones and the clock divides by 16 |
| PhyClk.SetRateReadsBack | linux-5.2/drivers/gpu/drm/sun5h/sunh5_hdmi_phy_clk.c:67-100 | after `set_rate` writes divider d, `recalc_rate` reads back parent / d |
| PhyClk.PredivField | linux-5.2/drivers/gpu/drm/sun5h/sunh5_hdmi_phy_clk.c:75-100 | the field written for divider d reads back d - 1 |
| PhyClk.SetRate | linux-5.2/drivers/gpu/drm/sun5h/sunh5_hdmi_phy_clk.c:80-103 | returns 0 with the pre-divider field updated to the picked divider |
| PhyClk.GetParentAsWritten | linux-5.2/drivers/gpu/drm/sun5h/sunh5_hdmi_phy_clk.c:105-116 | as written, parent 0 is reported whatever the register holds |
| PhyClk.GetParent | linux-5.2/drivers/gpu/drm/sun5h/sunh5_hdmi_phy_clk.c:112-113 | the parent reported is 0 or 1, and 1 exactly when the clock-input select bit is set |
| PhyClk.SelBit | linux-5.2/drivers/gpu/drm/sun5h/sunh5_hdmi_phy_clk.c:113 | the shifted select field is 0 or 1, and 1 exactly when the bit is set |
| PhyClk.SetParentRoundTrip | linux-5.2/drivers/gpu/drm/sun5h/sunh5_hdmi_phy_clk.c:118-130 | indices above 1 are refused with -EINVAL; otherwise the corrected `get_parent` reads the index back and only the select bit changes |
| PhyClk.SelValue | linux-5.2/drivers/gpu/drm/sun5h/sunh5_hdmi_phy_clk.c:127 | the value written for index 0 or 1 sets the select bit exactly for 1 |
| PhyClk.AsWrittenLosesParent | linux-5.2/drivers/gpu/drm/sun5h/sunh5_hdmi_phy_clk.c:105-130 | as written, `get_parent` reports 0 after `set_parent` has selected parent 1 |
| PhyClk.SetParent | linux-5.2/drivers/gpu/drm/sun5h/sunh5_hdmi_phy_clk.c:118-130 | an index above 1 returns -EINVAL and changes nothing; otherwise 0 with the select bit set to the index |
| PhyClk.Create | linux-5.2/drivers/gpu/drm/sun5h/sunh5_hdmi_phy_clk.c:141-172 | -ENODEV without a name for PLL 0, -ENOMEM when allocation fails, the registration error, or success with two parents exactly when a second parent is asked for |
| HdmiPhy.Phy.constructor | linux-5.2/drivers/gpu/drm/sun5h/sunh5_dw_hdmi.h:135-146 | a new PHY has its variant and no calibration value yet |
| HdmiPhy.SetOps | linux-5.2/drivers/gpu/drm/sun5h/sunh5_hdmi_phy.c:75-88 | the custom PHY operations are handed over exactly for a custom-PHY variant |
| HdmiPhy.PolarityFields | linux-5.2/drivers/gpu/drm/sun5h/sunh5_hdmi_phy.c:15-21 | bit 8 is set exactly for a negative hsync and bit 9 exactly for a negative vsync, the rest of bits 15:8 is cleared and the other bits kept |
| HdmiPhy.ClkRate | linux-5.2/drivers/gpu/drm/sun5h/sunh5_hdmi_phy.c:23-26 | the rate asked for is crtc_clock·1000 as a 32-bit unsigned value |
| HdmiPhy.Band | linux-5.2/drivers/gpu/drm/sun5h/sunh5_hdmi_phy.c:251-285 | one of four bands |
| HdmiPhy.H3Settings | linux-5.2/drivers/gpu/drm/sun5h/sunh5_hdmi_phy.c:251-285 | only the top band adds 2 to the B value |
| HdmiPhy.BandTable | linux-5.2/drivers/gpu/drm/sun5h/sunh5_hdmi_phy.c:251-285 | S is 4, 5, 6, 7 by band, VCO_S 6 only in the top band, AMPCK 3, 5, 7, 9, AMP 5, 7, 9, 13, and EMP 3 only in the top band |
| HdmiPhy.Band0Fields | linux-5.2/drivers/gpu/drm/sun5h/sunh5_hdmi_phy.c:251-260 | the fields of the band up to 27 MHz |
| HdmiPhy.Band1Fields | linux-5.2/drivers/gpu/drm/sun5h/sunh5_hdmi_phy.c:261-270 | the fields of the band up to 74.25 MHz |
| HdmiPhy.BandSwitches | linux-5.2/drivers/gpu/drm/sun5h/sunh5_hdmi_phy.c:203-285 | CNT_INT is 63 in every band; the 3.3 V flag is set below the top band, the calibration switch up to 74.25 MHz, the big swing above it; B offset 2 only in the top band |
| HdmiPhy.Ana1End | linux-5.2/drivers/gpu/drm/sun5h/sunh5_hdmi_phy.c:218-240 | the final ANA_CFG1 turns every transmitter, bias, calibration and data serializer enable back on, and leaves the TMDS clock serializer enable (bit 7) clear |
| HdmiPhy.LowBandSwitches | linux-5.2/drivers/gpu/drm/sun5h/sunh5_hdmi_phy.c:251-270 | the switches of the two lower bands |
| HdmiPhy.CalibrationUsed | linux-5.2/drivers/gpu/drm/sun5h/sunh5_hdmi_phy.c:251-285 | in the two lower bands the resistor calibration goes into RESDI unchanged; the upper bands leave RESDI 0; SLV is 2 in the third band and 4 otherwise |
| HdmiPhy.ResdiLow | linux-5.2/drivers/gpu/drm/sun5h/sunh5_hdmi_phy.c:251-270 | RESDI and SLV of the two lower bands |
| HdmiPhy.BClamp | linux-5.2/drivers/gpu/drm/sun5h/sunh5_hdmi_phy.c:316-319 | the B value is the status field plus the band's offset, clamped to 0x3f |
| HdmiPhy.PllWordFields | linux-5.2/drivers/gpu/drm/sun5h/sunh5_hdmi_phy.c:301-326 | the PLL_CFG1 updates keep the clock select, set PLLEN and both output dividers, put B in bits 5:0 and take every other bit from the band word |
| HdmiPhy.PllCfg1At | linux-5.2/drivers/gpu/drm/sun5h/sunh5_hdmi_phy.c:301-326 | PLL_CFG1 after `config_h3` is the band word with select, enables and B as above |
| HdmiPhy.OthersAt | linux-5.2/drivers/gpu/drm/sun5h/sunh5_hdmi_phy.c:294-332 | PLL_CFG2 keeps its pre-divider and takes the band word elsewhere, PLL_CFG3 holds SOUT_DIV2, the three analog words hold the band's, and no other register changes |
| HdmiPhy.ConfigKeepsClock | linux-5.2/drivers/gpu/drm/sun5h/sunh5_hdmi_phy.c:294-332 | `config_h3` keeps the clock select and pre-divider where the PHY clock put them, loads the clamped B value and ends with the band's analog words |
| HdmiPhy.MergeKeepsComplement | linux-5.2/drivers/gpu/drm/sun5h/sunh5_hdmi_phy.c:301-306 | an update through the complement of a mask keeps the masked bits |
| HdmiPhy.StartPll | linux-5.2/drivers/gpu/drm/sun5h/sunh5_hdmi_phy.c:294-312 | transmitters off, the PLL words, the output divider and the PLL on |
| HdmiPhy.FinishPll | linux-5.2/drivers/gpu/drm/sun5h/sunh5_hdmi_phy.c:321-332 | the output dividers and B in PLL_CFG1, then the three analog words |
| HdmiPhy.ConfigH3 | linux-5.2/drivers/gpu/drm/sun5h/sunh5_hdmi_phy.c:191-336 | returns 0 with the register file `H3Configured` for the band of the clock rate and the PHY's calibration |
| HdmiPhy.Config | linux-5.2/drivers/gpu/drm/sun5h/sunh5_hdmi_phy.c:8-27 | the polarity update; on a variant with a PHY clock, that clock's `set_parent` and `set_rate` as the clock framework calls them; then `config_h3` for crtc_clock·1000; returns 0 and the requested rate exactly when the variant has the clock |
| HdmiPhy.SetClockRate | linux-5.2/drivers/gpu/drm/sun5h/sunh5_hdmi_phy_clk.c:80-130 | the PHY clock's side of `clk_set_rate`: an optional `set_parent` whose error is not looked at, then `set_rate` |
| HdmiPhy.ConfigSetsClock | linux-5.2/drivers/gpu/drm/sun5h/sunh5_hdmi_phy.c:8-27 | after `phy_config`, `recalc_rate` reads back the parent rate over the divider `set_rate` picked and the clock input is the parent chosen |
| HdmiPhy.ClockSetReadsBack | linux-5.2/drivers/gpu/drm/sun5h/sunh5_hdmi_phy_clk.c:80-130 | after `set_parent` then `set_rate`, the divider and the parent read back |
| HdmiPhy.H3KeepsClock | linux-5.2/drivers/gpu/drm/sun5h/sunh5_hdmi_phy.c:294-332 | `config_h3` leaves what `recalc_rate` and `get_parent` read unchanged |
| HdmiPhy.InitAna1Value | linux-5.2/drivers/gpu/drm/sun5h/sunh5_hdmi_phy.c:112-153 | `init_h3` leaves ANA_CFG1 with bits 11:0, 16, 18 and 19 set and nothing else |
| HdmiPhy.Rcal | linux-5.2/drivers/gpu/drm/sun5h/sunh5_hdmi_phy.c:178-179 | the calibration kept is below 16 |
| HdmiPhy.InitState | linux-5.2/drivers/gpu/drm/sun5h/sunh5_hdmi_phy.c:95-180 | after init the register interface is unlocked, DDC is on, the PLL takes parent 0, CEC is under hardware control and the status register is untouched |
| HdmiPhy.InitCalibrationFits | linux-5.2/drivers/gpu/drm/sun5h/sunh5_hdmi_phy.c:178-179 | the calibration `init_h3` keeps reaches RESDI unchanged in the lower bands |
| HdmiPhy.InitAnalog | linux-5.2/drivers/gpu/drm/sun5h/sunh5_hdmi_phy.c:112-153 | ANA_CFG1 is set to its init value and nothing else changes |
| HdmiPhy.InitH3 | linux-5.2/drivers/gpu/drm/sun5h/sunh5_hdmi_phy.c:104-180 | the register file is `InitWords` of the old one and the PHY keeps bits 5:2 of the status register as its calibration |
| HdmiPhy.DisableH3 | linux-5.2/drivers/gpu/drm/sun5h/sunh5_hdmi_phy.c:182-189 | only LDOEN, ENVBS and ENBI stay on in ANA_CFG1, PLL_CFG1 is cleared, and nothing else changes |
| HdmiPhy.LookupError | linux-5.2/drivers/gpu/drm/sun5h/sunh5_hdmi_phy.c:402-412 | a lookup fails exactly when it returns an error pointer |
| HdmiPhy.AsWrittenKeepsErrorClock | linux-5.2/drivers/gpu/drm/sun5h/sunh5_hdmi_phy.c:408-412 | as written, a failed module clock lookup is not caught and probe carries on with an error pointer |
| HdmiPhy.GetClocksChecksBoth | linux-5.2/drivers/gpu/drm/sun5h/sunh5_hdmi_phy.c:402-412 | corrected, probe goes on only with two real clocks and fails with the error of the first lookup that failed |
| Ac108.VolumeGet | linux-5.2/sound/soc/codecs/ac108.c:128-147 | `get_volsw` on a digital volume reports the low byte of the register, mirrored against 0xff when the control is inverted |
| Ac108.VolumePut | linux-5.2/sound/soc/codecs/ac108.c:159-182 | `put_volsw` on a digital volume merges the value (mirrored when inverted) into the low byte under the fls mask |
| Ac108.VolumeRoundTrip | linux-5.2/sound/soc/codecs/ac108.c:128-182 | for every volume 0..0xff, put then get reports the value put, inverted or not, whatever the register held |
| Ac108.VolumePutKeeps | linux-5.2/sound/soc/codecs/ac108.c:159-182 | a volume put leaves every bit of the register outside bits 7:0 unchanged |
| Ac108.VolumePutGet | linux-5.2/sound/soc/codecs/ac108.c:128-182 | the volume get reports at most 0xff, and putting that value back leaves the register word as it was |
| Ac108.GainGet | linux-5.2/sound/soc/codecs/ac108.c:128-147 | `get_volsw` on a PGA gain reports bits 5:1 of the register, mirrored against 0x1f when inverted |
| Ac108.GainPut | linux-5.2/sound/soc/codecs/ac108.c:159-182 | `put_volsw` on a PGA gain merges the value, shifted by one, under mask 0x3e |
| Ac108.GainRoundTrip | linux-5.2/sound/soc/codecs/ac108.c:128-182 | for every gain 0..0x1f, put then get reports the value put, inverted or not |
| Ac108.GainPutKeeps | linux-5.2/sound/soc/codecs/ac108.c:159-182 | a gain put leaves every bit outside bits 5:1 unchanged |
| Ac108.GainPutGet | linux-5.2/sound/soc/codecs/ac108.c:128-182 | the gain get reports at most 0x1f, and putting it back leaves the register word as it was |
| Ac108.ControlsRoundTrip | linux-5.2/sound/soc/codecs/ac108.c:199-218 | each of the eight controls the driver registers reads back what was put, for every value up to its maximum |
| Ac108.ControlsInRange | linux-5.2/sound/soc/codecs/ac108.c:199-218 | each control reports a value no larger than its maximum, and putting it back changes nothing |
| Ac108.ResolutionIndex | linux-5.2/sound/soc/codecs/ac108.c:546-566 | the resolution index `hw_params` picks is inside the resolution table |
| Ac108.ResolutionMatchesFormat | linux-5.2/sound/soc/codecs/ac108.c:546-566 | exactly the five supported formats find a resolution (the rest are refused), and its bit count equals the format's sample width |
| Ac108.FindReal | linux-5.2/sound/soc/codecs/ac108.c:568-575 | the search returns the first index whose real value matches, or none when no entry matches |
| Ac108.RateCodesArePositions | linux-5.2/sound/soc/codecs/ac108.c:31-42 | every sample-rate code equals its position in the table, so writing the index writes the code |
| Ac108.RateIndexExact | linux-5.2/sound/soc/codecs/ac108.c:568-575 | a rate is accepted exactly when the table lists it, and the index found holds that rate and its code |
| Ac108.PllTableGood | linux-5.2/sound/soc/codecs/ac108.c:53-116 | every PLL row fits the divider register fields and yields its output frequency within 1% by FOUT = FIN*N/((M1+1)(M2+1)(K1+1)(K2+1)) |
| Ac108.FindPll | linux-5.2/sound/soc/codecs/ac108.c:397-403 | the PLL search returns the first row whose input matches, or none when no row matches |
| Ac108.PllLookupGood | linux-5.2/sound/soc/codecs/ac108.c:371-403 | the divider programmed always fits the registers; a matched row is accurate and takes the input in; no match leaves the all-zero divider |
| Ac108.RepeatedInputs | linux-5.2/sound/soc/codecs/ac108.c:53-88 | the 17 rows to 22.5792 MHz repeat the inputs of the 17 rows to 24.576 MHz before them |
| Ac108.ShadowedRows | linux-5.2/sound/soc/codecs/ac108.c:397-403 | because the first match wins, no input ever selects a row of the 22.5792 MHz block for bit-clock inputs |
| Ac108.UnlistedInput | linux-5.2/sound/soc/codecs/ac108.c:636 | 48 kHz, 24-bit, two channels asks for a 9.216 MHz input that no row lists, so the PLL gets the all-zero divider |
| Ac108Codec.I2sCtrlMeaning | linux-5.2/sound/soc/codecs/ac108.c:754-787 | the clocking role is accepted exactly for master and slave, only master drives BCLK and LRCK out, and both enable the outputs, transmit, receive and the global enable |
| Ac108Codec.FramingMeaning | linux-5.2/sound/soc/codecs/ac108.c:790-820 | exactly the five listed serial formats are accepted; DSP A and B select PCM mode, and I2S and DSP A delay the data by one BCLK |
| Ac108Codec.PolarityMeaning | linux-5.2/sound/soc/codecs/ac108.c:823-848 | exactly the four listed inversions are accepted; the IB codes invert BCLK and the normal-frame codes put the left channel on LRCK high |
| Ac108Codec.SetFmtFields | linux-5.2/sound/soc/codecs/ac108.c:744-923 | after an accepted set_fmt, each field of the format reads back from I2S_CTRL, I2S_FMT_CTRL1, I2S_BCLK_CTRL and I2S_LRCK_CTRL1, the other I2S_CTRL bits are kept, the power settings hold and the high-pass filter is off |
| Ac108Codec.FormatTailFields | linux-5.2/sound/soc/codecs/ac108.c:850-922 | the writes after I2S_CTRL store the framing mode and offsets and both polarities, set power and slot format, clear HPF_EN, and leave I2S_CTRL alone |
| Ac108Codec.PllWords | linux-5.2/sound/soc/codecs/ac108.c:406-421 | config_pll merges each divider field, the lock enable, the BCLK system-clock selection and the PLL enables through their masks, and touches no other register |
| Ac108Codec.PllReadBack | linux-5.2/sound/soc/codecs/ac108.c:406-421 | reading PLL_CTRL2 to PLL_CTRL5 back gives the divider programmed; the PLL is locked, enabled and clocks the system from BCLK; every other register is unchanged |
| Ac108Codec.LookupFieldsFit | linux-5.2/sound/soc/codecs/ac108.c:397-406 | the divider looked up, matched or all-zero, fits the PLL register fields |
| Ac108Codec.FitsFieldsFit | linux-5.2/sound/soc/codecs/ac108.c:406-412 | a table divider within its field widths stays within them as register values |
| Ac108Codec.BitsWordWidth | linux-5.2/sound/soc/codecs/ac108.c:546-566 | the channel width programmed is the format's sample width, which is the width the resolution table lists for it |
| Ac108Codec.LrckWords | linux-5.2/sound/soc/codecs/ac108.c:588-608 | hw_params writes channel width less one (I2S and justified modes) or frame width less one split over PERIODH and LRCK_CTRL2 (PCM mode) |
| Ac108Codec.LrckPeriodMeaning | linux-5.2/sound/soc/codecs/ac108.c:588-608 | the LRCK period read back is the channel width outside PCM mode and the whole frame width in PCM mode whenever it fits ten bits |
| Ac108Codec.LrckKeepsPolarity | linux-5.2/sound/soc/codecs/ac108.c:590-603 | the LRCK period writes keep the LRCK polarity bit set_fmt chose |
| Ac108Codec.SlotPass | linux-5.2/sound/soc/codecs/ac108.c:482-498 | one pass of the slot loop writes the slot count less one, the chip's slot mask and its channel map, byte by byte |
| Ac108Codec.SlotWordsAgain | linux-5.2/sound/soc/codecs/ac108.c:449-507 | a later pass of the slot loop overwrites everything an earlier pass wrote, so the last chip decides the words |
| Ac108Codec.SingleChipSlots | linux-5.2/sound/soc/codecs/ac108.c:482-492 | with one chip exactly slots 0 to 3 are enabled and carry microphones 0 to 3 in order |
| Ac108Codec.TwoChipSlots | linux-5.2/sound/soc/codecs/ac108.c:443-495 | with two chips, chip 0 enables slots 6, 7, 0, 1 and chip 1 slots 2 to 5, no slot is claimed twice, and each chip sends microphones 0 to 3 in the listed slot order |
| Ac108Codec.FormatStageOf | linux-5.2/sound/soc/codecs/ac108.c:588-629 | the LRCK writes followed by the resolution and rate writes are the format stage of hw_params |
| Ac108Codec.PllInputOf | linux-5.2/sound/soc/codecs/ac108.c:636 | the PLL input hw_params asks for is the listed rate times the width times the channels times four, in unsigned int |
| Ac108Codec.ClockStageOf | linux-5.2/sound/soc/codecs/ac108.c:636-661 | the PLL step, the slot loop and the module writes are the clock stage of hw_params |
| Ac108Codec.PllRegsKeeps | linux-5.2/sound/soc/codecs/ac108.c:369-435 | config_pll leaves every register outside the PLL and system-clock registers alone |
| Ac108Codec.SlotRegsKeeps | linux-5.2/sound/soc/codecs/ac108.c:437-509 | the slot loop writes only the TX1 slot and channel-map registers |
| Ac108Codec.ClockStageKeeps | linux-5.2/sound/soc/codecs/ac108.c:636-661 | the clock stage leaves every register the format stage programmed alone |
| Ac108Codec.ResolutionFields | linux-5.2/sound/soc/codecs/ac108.c:616-629 | the resolution code lands in both the slot-width and resolution fields, the rate code in ADC_SPRC, the high-pass filters are on, and the LRCK words are kept |
| Ac108Codec.CodesFit | linux-5.2/sound/soc/codecs/ac108.c:21-42 | every resolution code fits three bits and every rate code four bits |
| Ac108Codec.FormatStageFields | linux-5.2/sound/soc/codecs/ac108.c:588-629 | after the format stage the listed resolution and rate codes read back and the LRCK polarity is kept |
| Ac108Codec.FormatStagePeriod | linux-5.2/sound/soc/codecs/ac108.c:588-608 | after the format stage the LRCK period is the channel width, or the frame width in PCM mode when it fits |
| Ac108Codec.FormatStageLrck | linux-5.2/sound/soc/codecs/ac108.c:588-629 | the resolution and rate writes keep the LRCK words |
| Ac108Codec.HwParamsKeepsFormat | linux-5.2/sound/soc/codecs/ac108.c:588-661 | after hw_params every format-stage register holds what the format stage wrote |
| Ac108Codec.HwParamsFields | linux-5.2/sound/soc/codecs/ac108.c:530-666 | after a successful hw_params the resolution and rate codes read back, the high-pass filters and the four modules are on, and the LRCK polarity set_fmt chose is kept |
| Ac108Codec.HwParamsPeriod | linux-5.2/sound/soc/codecs/ac108.c:530-666 | after a successful hw_params the LRCK period is the channel width outside PCM mode and the frame width in PCM mode when it fits ten bits |
| Ac108Codec.ParseStore | linux-5.2/sound/soc/codecs/ac108.c:1027-1029 | the parsed flag fits four bits and the register and the value eight bits each |
| Ac108Codec.StoreRoundTrip | linux-5.2/sound/soc/codecs/ac108.c:1027-1034 | parsing a command word gives back the flag, register and value it was built from |
| Ac108Codec.StoreEffect | linux-5.2/sound/soc/codecs/ac108.c:1031-1048 | a write command stores its value in its register and nowhere else; a command with a zero flag changes nothing |
| Ac108Codec.StoreExamples | linux-5.2/sound/soc/codecs/ac108.c:1010-1017 | the usage examples hold: 11055 writes 0x55 to register 0x10, 01000 only reads register 0x10 |
| Ac108Priv.LookupRate | linux-5.2/sound/soc/codecs/ac108.c:568-575 | the loop over the sample-rate table finds the rate's index exactly as the search function does |
| Ac108Priv.LookupPll | linux-5.2/sound/soc/codecs/ac108.c:371-403 | the loop over the PLL table returns the first matching row, or the all-zero divider |
| Ac108Priv.Codec.constructor | linux-5.2/sound/soc/codecs/ac108.c:1096-1104 | the probe resets the chip by writing CHIP_RST_VAL to CHIP_RST and counts one chip, the rest of the private data zero |
| Ac108Priv.Codec.SetSysclk | linux-5.2/sound/soc/codecs/ac108.c:331-363 | whatever the caller asks, SYSCLK_SRC selects the PLL, mclk becomes 24 MHz and clk_id the PLL; returns 0 |
| Ac108Priv.Codec.ConfigPll | linux-5.2/sound/soc/codecs/ac108.c:369-435 | with the PLL as system clock the registers hold the divider for input rate*ratio and sysclk that row's output; otherwise nothing changes |
| Ac108Priv.Codec.WritePllDivider | linux-5.2/sound/soc/codecs/ac108.c:406-421 | the seven PLL writes leave the registers as PllProgrammed describes |
| Ac108Priv.Codec.WriteDividerWords | linux-5.2/sound/soc/codecs/ac108.c:406-409 | the four divider writes leave the registers as PllDivided describes |
| Ac108Priv.Codec.EnablePll | linux-5.2/sound/soc/codecs/ac108.c:412-421 | the lock, system-clock and PLL enables leave the registers as PllEnabled describes |
| Ac108Priv.Codec.WriteSlotMask | linux-5.2/sound/soc/codecs/ac108.c:486-488 | the slot count less one and the two slot-mask bytes land in I2S_TX1_CTRL1 to 3 |
| Ac108Priv.Codec.WriteChannelMap | linux-5.2/sound/soc/codecs/ac108.c:497-500 | the four bytes of the channel map land in I2S_TX1_CHMP_CTRL1 to 4 |
| Ac108Priv.Codec.MultiChipsSlots | linux-5.2/sound/soc/codecs/ac108.c:437-509 | the loop over the chips leaves the registers as SlotRegs describes (the last chip's pass) and returns 0 |
| Ac108Priv.Codec.ConfigurePower | linux-5.2/sound/soc/codecs/ac108.c:699-742 | the power writes leave the registers as PowerOn describes and return 0 |
| Ac108Priv.Codec.SetFmt | linux-5.2/sound/soc/codecs/ac108.c:744-923 | the registers after set_fmt are SetFmtRegs of the format; it returns 0 exactly for an accepted format and -EINVAL otherwise; i2s_mode changes only once role and framing are accepted |
| Ac108Priv.Codec.WriteFormatTail | linux-5.2/sound/soc/codecs/ac108.c:850-922 | the writes after I2S_CTRL leave the registers as FormatTail describes |
| Ac108Priv.Codec.WriteLrckPeriod | linux-5.2/sound/soc/codecs/ac108.c:588-608 | the LRCK period writes leave the registers as LrckRegs describes |
| Ac108Priv.Codec.WriteResolution | linux-5.2/sound/soc/codecs/ac108.c:616-629 | the slot-width, resolution, rate and filter writes leave the registers as ResolutionRegs describes |
| Ac108Priv.Codec.EnableModules | linux-5.2/sound/soc/codecs/ac108.c:657-661 | MOD_CLK_EN and MOD_RST_CTRL both hold the four module bits |
| Ac108Priv.Codec.HwParams | linux-5.2/sound/soc/codecs/ac108.c:530-666 | an unsupported format or unlisted rate is refused with -EINVAL and nothing written; otherwise the registers are HwParamsRegs and sysclk the PLL row's output when the PLL is the system clock |
| Ac108Priv.Codec.ProgramFormat | linux-5.2/sound/soc/codecs/ac108.c:588-629 | the LRCK, resolution and rate writes leave the registers as FormatStage describes |
| Ac108Priv.Codec.ProgramClocks | linux-5.2/sound/soc/codecs/ac108.c:636-661 | the PLL, slot and module steps leave the registers as ClockStage describes and sysclk as config_pll sets it |
| Ac108Priv.Codec.GetVolswCtl | linux-5.2/sound/soc/codecs/ac108.c:128-147 | the control value is GetVolsw of the register the control names |
| Ac108Priv.Codec.PutVolswCtl | linux-5.2/sound/soc/codecs/ac108.c:159-182 | the register the control names is updated under the shifted put mask with the shifted put value; returns 0 |
| Ac108Priv.Codec.Store | linux-5.2/sound/soc/codecs/ac108.c:1019-1051 | the registers after the debug store are StoreRegs of the parsed word, and the whole count is consumed |
| Ac108Card.Trigger | linux-5.2/sound/soc/generic/ac108-card.c:188-219 | trigger returns 0 exactly for the start, resume and pause-release commands and the stop, suspend and pause-push commands, and -EINVAL for any other |
| Ac108Card.TriggerAccepts | linux-5.2/sound/soc/generic/ac108-card.c:188-219 | the accepted commands are exactly 0 to 6 without 2, and DRAIN is refused |
| Ac108Card.CardHwParams | linux-5.2/sound/soc/generic/ac108-card.c:147-181 | with no factor nothing is called and 0 returned; otherwise the codec gets rate*mclk_fs as input clock, the CPU DAI the same as output clock only if the codec's answer was 0 or -ENOTSUPP, and the first other answer is returned |
| Ac108Card.CardFsWins | linux-5.2/sound/soc/generic/ac108-card.c:160-164 | a card-level mclk_fs decides the outcome whatever the link sets |
| Ac108Card.LinkFsFallback | linux-5.2/sound/soc/generic/ac108-card.c:160-164 | without a card-level mclk_fs the link's factor acts as the card's would |
| Ac108Card.ChannelsOf | linux-5.2/sound/soc/generic/ac108-card.c:453-464 | each channel setting is the device-tree value when present, otherwise override 2 and default 0 |
| Ac108Card.OpenedForcesOverride | linux-5.2/sound/soc/generic/ac108-card.c:117-125 | while a stream is open the CPU DAI offers exactly the override channel count in that direction |
| Ac108Card.OpenCloseRestoresMin | linux-5.2/sound/soc/generic/ac108-card.c:117-141 | startup then shutdown leaves both limits at the old channels_min, or at the saved default when that was 0; the old channels_max is not restored |
| Ac108Card.NestedOpenKeepsOverride | linux-5.2/sound/soc/generic/ac108-card.c:117-141 | a second startup before the first shutdown saves the override as the default, so the final shutdown leaves the override in place |
| Ac108Card.CpuDaiDriver.constructor | linux-5.2/sound/soc/generic/ac108-card.c:117-125 | the CPU DAI driver holds the playback and capture channel limits the card rewrites |
| Ac108Card.Card.constructor | linux-5.2/sound/soc/generic/ac108-card.c:406-464 | the card's mclk_fs, the link's mclk_fs and the four channel settings are as the device tree gives them, zero or defaulted otherwise, and no clock is enabled |
| Ac108Card.Card.Startup | linux-5.2/sound/soc/generic/ac108-card.c:93-128 | a failed CPU clock is returned unchanged; a failed codec clock releases the CPU clock and is returned; otherwise both clocks are enabled once more and both directions opened |
| Ac108Card.Card.Shutdown | linux-5.2/sound/soc/generic/ac108-card.c:130-145 | both directions' limits become the saved defaults and both clock enable counts drop by one |
| Ac108Card.Card.HwParams | linux-5.2/sound/soc/generic/ac108-card.c:147-181 | with the AC108 as codec the result is CardHwParams with the AC108's answer 0, and the AC108 switches its system clock to the PLL exactly when there is a factor |

## Left out

- Clock, reset, interrupt, I/O-memory and regmap acquisition in the bind and probe functions (mixer, TCON, DRM driver, HDMI PHY, AC108 I2C probe), and unbind and remove: these are calls into kernel frameworks. The AC108 probe keeps only its chip reset and chip count.
- Device-tree parsing (the mixer and TCON ids, the engine lookup, the card's DAI links): the pipeline walk takes the graph as a given sequence of nodes, and the card takes the properties it reads as optional inputs.
- The DRM core: atomic helpers, plane-state checking (`drm_atomic_helper_check_plane_state` is a parameter), GEM and PRIME wrappers, `sunh5_framebuffer.c` and `sunh5_dw_hdmi.c`. They only forward to DRM helpers; the HDMI bridge's one check is its 297 MHz mode limit.
- Spinlocks and interrupt context: the event slot and the vblank reference are modelled sequentially. The vblank count that `drm_crtc_handle_vblank` keeps is not modelled.
- The UI and VI scalers' own register programming: `sunh5_ui_scaler.h` is not part of this model. The UI scaler's minimum and maximum scale limits are parameters. `update_coord` is modelled up to the scaler call it makes (`ScalerCall`), whose arguments are stated.
- Sleeps, delays and polls: `udelay`, `usleep_range`, `msleep`, and the PHY calibration poll whose outcome the driver ignores.
- PhyClk: the 64-bit products `rate * i` in `determine_rate` and the unsigned absolute difference in `set_rate` are modelled on unbounded integers. Their wrap-around for rates near 2^64 is not modelled.
- ViLayer.UpdateCoord: when the plane needs the scaler, it requires `Schedulable`. That means non-zero mode totals and a non-zero 32-bit divisor `vdisplay * fps * max(src_w, dst_w)`. The driver divides by both without a check (vi_layer.c:193, 198). A mode whose clock·1000 is below htotal·vtotal makes `fps` 0, and `do_div` then divides by zero; a wrap of the divisor to 0 does the same. These crash paths are not modelled.
- ViLayer.CoarseScaling: requires `Schedulable`, for the same divisions.
- ViLayer.AtomicUpdate: requires `Schedulable` for a visible plane that needs the scaler, for the same divisions.
- ViLayer.Show: requires `Schedulable` when the scaler is needed, for the same divisions.
- ViLayer.Stage: requires `Schedulable` when the scaler is needed, for the same divisions.
- Crtc.AtomicEnable: requires an attached encoder (`HasEncoder`). With none, the CRTC passes a NULL encoder (crtc.c:92-97) to `set_status`, which dereferences it (tcon.c:159). That crash path is not modelled.
- Crtc.ModeSetNofb: requires an attached encoder. With none, the NULL encoder (crtc.c:105-110) reaches `mode_set`, which dereferences it (tcon.c:120). That crash path is not modelled.
- HdmiPhy.Config: what the clock framework decides inside `clk_set_rate` is an input (`RateChange`): whether the rate is already in place, the parent it moves to, the rate it settles on and the parent's rate. These come from `determine_rate` and the parent PLLs, whose registers lie outside the PHY. The parent PLL's own rate change (`CLK_SET_RATE_PARENT`) is not modelled.
- Drv.Probe: requires an acyclic port-1 graph (`WellFormed`: every output numbered after its node). The driver keeps no visited set, so on a cyclic graph its walk never ends.
- The DAPM widgets and routes, the TLV tables, the sysfs `show` text, suspend, resume and set_bias_level of the AC108: declarative tables and power-management hooks with no logic.
- AC108 `set_clkdiv`, `set_pll`, `prepare`, `trigger` and `mute`: each only returns 0.
- AC108 `set_sysclk`: the MCLK and refusal branches of its switch are dead, because the driver overwrites `clk_id` with the PLL before the switch. Only the PLL branch is modelled.
- AC108 `config_pll`: the dead `if(0)` branch that would take the master clock as PLL input is not modelled.
- Ac108.VolumeRoundTrip: the put-then-get round trip is proved for the two control shapes the driver registers, 8 bits at shift 0 and 5 bits at shift 1, both with minimum 0 and no sign bit. It is not proved for an arbitrary control; `GetVolsw` and `PutWord` are defined for every well-formed control.
- Ac108.GainRoundTrip: as for VolumeRoundTrip, for the 5-bit PGA gain shape only.
- Ac108Priv.Codec.Store: `simple_strtol` is not modelled; the store takes the parsed value. A refused write or read only logs, so its error is not modelled either.
- Register I/O errors: every `regmap` call is modelled as succeeding. The 8-bit regmap of the AC108 is modelled by writing the low byte where the driver passes a wider value.
- The SND_SOC_DAIFMT, SNDRV_PCM_TRIGGER and SND_SOC_CLOCK codes are copied from Linux 5.2's public headers, which are not part of this model.
- Ac108Card.Card.HwParams: the CPU DAI's `set_sysclk` answer and the two `clk_prepare_enable` answers of `startup` are inputs. The card is modelled with its single DAI link, so the per-link lookup through `rtd->num` is not modelled.
- Ac108Card.Card.Shutdown: `clk_disable_unprepare` is modelled as an enable count that does not go below zero. The two DAIs are modelled with separate clocks, and NULL clocks are not modelled.
- Several AC108 chips: each I2C probe allocates a fresh private structure (ac108.c:1077) and adds one to its zeroed chip count, so `codec_cnt` is always 1. The model's constructor is that probe and sets the count to 1; no operation changes it.
- Ac108Priv.Codec.MultiChipsSlots: the branches for two or more chips cannot be reached, because `codec_cnt` is always 1. The method is still proved for any count up to 4.
- Ac108Codec.TwoChipSlots: states the slot layout of the two-chip branch, which the driver as written never takes.
- Ac108Priv.Codec.GetVolswCtl: the driver reads through the global `ac108` pointer, which the last probe set, not through the control's own chip. The model's receiver stands for that pointer. With several chips probed, a control of an earlier chip reaches the last chip's registers, and that aliasing is not modelled.
- Ac108Priv.Codec.PutVolswCtl: writes through the same global pointer, with the same aliasing left out.

## Findings

| source | as written | input that shows it | evidently intended | confidence | as-written member | corrected member |
|---|---|---|---|---|---|---|
| linux-5.2/drivers/gpu/drm/sun5h/sunh5_tcon.c:106-110 | BASIC5 is written as V_SYNC(vtotal) \| H_SYNC(vertical backporch); the hsync and vsync lengths computed just before are unused | the CEA 1080p60 mode: BASIC5 becomes 0x002800c9 | H_SYNC(hsync) \| V_SYNC(vsync) from the lengths computed at lines 107-108, 0x002b0028 for 1080p60 | not executed | Tcon.AsWrittenMisprogramsSync | Tcon.ModeSetSync |
| linux-5.2/drivers/gpu/drm/sun5h/sunh5_mixer.c:459-466 | PIPE_CTL is written with PIPE_CTL_EN(0) (bit 8), and the update that follows clears bits 12:8, so PIPE_CTL ends 0 | any bind: PIPE_CTL reads 0 after the init sequence | the fill colour of the bottom pipe, as the comment says: FC_EN(0), bit 0 | not executed | Mixer.AsWrittenLeavesNoFill | Mixer.CorrectedFillsBottom |
| linux-5.2/drivers/gpu/drm/sun5h/sunh5_vi_layer.c:231-234 | VDS_Y and VDS_UV are written with the horizontal word (hn, hm); the vn and vm computed at lines 204-205 are never used | a plane that needs vertical but not horizontal coarse scaling: VDS reads 0 while the scaler is set up for the reduced height | VDS_Y and VDS_UV written from vn and vm | not executed | ViLayer.AsWrittenDropsVerticalCoarse | ViLayer.VerticalDsFields |
| linux-5.2/drivers/gpu/drm/sun5h/sunh5_hdmi_phy_clk.c:105-116 | get_parent reads PLL_CFG1 and then returns 0 whatever bit 26 holds | set_parent(1) then get_parent reports 0 | return bit 26 (CKIN_SEL), the parent set_parent selected | not executed | PhyClk.AsWrittenLosesParent | PhyClk.SetParentRoundTrip |
| linux-5.2/drivers/gpu/drm/sun5h/sunh5_hdmi_phy.c:402-412 | after looking up the module clock, probe tests the bus clock's handle a second time | the bus clock found and the module clock missing: probe goes on with an error pointer as its module clock | test the module clock's own handle | not executed | HdmiPhy.AsWrittenKeepsErrorClock | HdmiPhy.GetClocksChecksBoth |
