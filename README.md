# Refractive index of the ocean surface from Copernicus ARMOR3D data

The repository turns sea-surface salinity and temperature from the
Copernicus Marine ARMOR3D product into refractive-index grids. This model
covers three scripts:

- `Code/RefIdx_COP_dynamicAOI_v2.py`. The function `cop_ref_idx` takes an
  area of interest (AOI) and clamps it to the dataset's extent. It rejects
  an AOI whose bounds are reversed. It cleans up the project name, makes
  the project folder, and picks the dataset id from `weekly`/`nrt`. Then it
  queries the dataset. For every wavelength it adds a `ref_idx_<int(wl)>`
  variable and, slice by slice, can save a PNG and write a GeoTIFF named
  `armor3d_nw<wl>_<project>_<start>_<start+6 days>`. It returns the cube,
  plus the project folder when plotting or export is on.
- `Code/RefIdx_COP_dynamicAOI_v1.py`. The earlier top-level script does
  the same for one wavelength, with these differences:
  - it makes the folder before clamping;
  - it never checks the bound order;
  - it always queries the near-real-time weekly dataset;
  - it labels every output `nw532`.
- `Code/RefIdx_COP_monlthly_netcdf_to_raster.py`. For each monthly netCDF
  archive and each calendar year in it, this script writes one GeoTIFF. The
  GeoTIFF holds one band per timestamp of that year, labelled `YYYY_Mon`.
  When the year has twelve timestamps, it adds two more bands:
  - band 13, the average (`YYYY_AVG`);
  - band 14, the range (`YYYY_RANGE`).

Modules:

- `Text` (`text.dfy`) holds the pieces of Python the naming relies on:
  - `'%i'` and `str()` of an int;
  - `int()` of a float;
  - `str.split`;
  - the head part of `os.path.split`.
- `Calendar` (`calendar.dfy`) holds dates, the "+ 6 days" window end, and
  the strftime formats `%Y%m%d` and `%Y_%b`.
- `Grid` (`grid.dfy`) holds grids as sequences of cells, where `None`
  stands for NaN. It also has `np.nansum`, `np.fmin`, `np.fmax` and the
  running-statistics fold.
- `DynamicAoi` (`dynamic_aoi.dfy`) holds what v1 and v2 share:
  - AOI clamping;
  - the order check;
  - the `re.sub` clean-up of the project name;
  - dataset ids and output names;
  - the per-slice output loop.
- `DynamicAoiV2` (`dynamic_aoi_v2.dfy`) models `cop_ref_idx`.
- `DynamicAoiV1` (`dynamic_aoi_v1.dfy`) models the v1 script.
- `MonthlyRaster` (`monthly_raster.dfy`) models the yearly band stacks:
  - the open raster and its accumulators become the class `AnnualRaster`;
  - each script is modelled as methods proved against specification
    functions.

Side effects are recorded as a trace of effects: making a folder, querying
the dataset, saving a PNG, writing a GeoTIFF. A monthly raster is modelled
as the band and description maps it holds, plus whether it was closed. The
AOI list is an `array` that the scripts clamp in place.

## Model

| member | source | states |
|---|---|---|
| DynamicAoi.Clamped | Code/RefIdx_COP_dynamicAOI_v2.py:130-137 | a bound at or beyond its world limit becomes the interior value (-179.875, 179.875, -82.125, 89.875); every other bound is kept. So each bound ends on the inner side of its own world limit (min long > -180, max long < 180, min lat > -90, max lat < 90), and entries after the fourth are untouched |
| DynamicAoi.Clamp | Code/RefIdx_COP_dynamicAOI_v2.py:130-137 | clamps the AOI list in place, ending as `Clamped` of the old list; reports whether the list had the four entries the code indexes |
| DynamicAoi.ClampIdempotent | Code/RefIdx_COP_dynamicAOI_v2.py:130-137 | clamping an already clamped AOI changes nothing |
| DynamicAoi.OrderCheck | Code/RefIdx_COP_dynamicAOI_v2.py:139-142 | accepts iff min long < max long and min lat < max lat. Reversed longitudes raise the longitude error, checked first; the latitude error is raised only when the longitudes are in order |
| DynamicAoi.AcceptedAoiInsideWorld | Code/RefIdx_COP_dynamicAOI_v2.py:130-142 | an AOI that passes the check is an ordered box strictly inside the world |
| DynamicAoi.SouthernAoiRejected | Code/RefIdx_COP_dynamicAOI_v2.py:134-142 | a box from -90 to -85 latitude is rejected: its southern bound is moved to -82.125, north of its northern bound |
| DynamicAoi.SanitizeClean | Code/RefIdx_COP_dynamicAOI_v2.py:147 | the cleaned project name holds no space and no dash and is never longer than the name |
| DynamicAoi.SanitizeIdentity | Code/RefIdx_COP_dynamicAOI_v2.py:147 | a name without space or dash is left as it is |
| DynamicAoi.SanitizeIdempotent | Code/RefIdx_COP_dynamicAOI_v2.py:147 | cleaning a cleaned name changes nothing |
| DynamicAoi.SanitizeAppend | Code/RefIdx_COP_dynamicAOI_v2.py:147 | the substitution works piecewise: cleaning a + b is cleaning a, then b, when a does not end in '.' (where a ". " match could straddle the join) |
| DynamicAoi.SanitizePieces | Code/RefIdx_COP_dynamicAOI_v2.py:147 | a space or a dash becomes "_", any other single character is kept, and ". " becomes one "_" |
| DynamicAoi.SanitizeDot | Code/RefIdx_COP_dynamicAOI_v2.py:147 | ". " is replaced as a whole by one "_" (the first alternative wins); a '.' not followed by a space is kept |
| DynamicAoi.SanitizeSpaceDash | Code/RefIdx_COP_dynamicAOI_v2.py:147 | a leading space or dash becomes "_" and the rest is cleaned on its own |
| DynamicAoi.DatasetId | Code/RefIdx_COP_dynamicAOI_v2.py:154-163 | the id is "dataset-armor-3d-", then "nrt" or "rep", then "-weekly" or "-monthly" |
| DynamicAoi.DatasetIdInjective | Code/RefIdx_COP_dynamicAOI_v2.py:154-163 | the four (weekly, nrt) settings select four different datasets |
| DynamicAoi.DateStringInjective | Code/RefIdx_COP_dynamicAOI_v2.py:208-209 | different slice dates give different "%Y%m%d_%Y%m%d" spans |
| DynamicAoi.OutputNameInjective | Code/RefIdx_COP_dynamicAOI_v2.py:235-248 | two output names in one folder for one project agree only when their wavelength label and slice date agree (for labels without '_') |
| DynamicAoi.PathInjective | Code/RefIdx_COP_dynamicAOI_v2.py:245-248 | for the same folder, project and extension, two output paths are equal iff the outputs are the same (for labels without '_', which `WlLabelHasNoUnderscore` guarantees, and valid dates) |
| DynamicAoi.SliceRunTiffSound | Code/RefIdx_COP_dynamicAOI_v2.py:204-249 | a GeoTIFF is written only when export is on, and each one is slice j's file holding slice j's grid |
| DynamicAoi.SliceRunTiffComplete | Code/RefIdx_COP_dynamicAOI_v2.py:243-249 | with export on, every slice's GeoTIFF is written with that slice's grid |
| DynamicAoi.SliceRunPngSound | Code/RefIdx_COP_dynamicAOI_v2.py:211-241 | a PNG is saved only when plotting is on, and each one is named after some slice |
| DynamicAoi.SliceRunPngComplete | Code/RefIdx_COP_dynamicAOI_v2.py:211-241 | with plotting on, every slice's PNG is saved |
| DynamicAoi.SliceRunOnlyOutputs | Code/RefIdx_COP_dynamicAOI_v2.py:204-249 | the slice loop does nothing but save PNGs and write GeoTIFFs |
| DynamicAoi.WriteSlices | Code/RefIdx_COP_dynamicAOI_v2.py:204-249 | the loop over slices appends exactly the slice outputs, in slice order, to the effects so far |
| DynamicAoiV2.WlLabelHasNoUnderscore | Code/RefIdx_COP_dynamicAOI_v2.py:198 | the "%i" label of a wavelength contains no '_' |
| DynamicAoiV2.WlLabelInjective | Code/RefIdx_COP_dynamicAOI_v2.py:198 | two wavelengths get the same label and the same variable name iff they truncate to the same integer |
| DynamicAoiV2.WavelengthRunVars | Code/RefIdx_COP_dynamicAOI_v2.py:192-199 | without error, the cube gains one variable per wavelength, in order: its name is "ref_idx_" + int(wl) and its slices are `AllSlices`: slice j is the formula at wl applied cell by cell to slice j's salinity and temperature |
| DynamicAoiV2.WavelengthRunFailure | Code/RefIdx_COP_dynamicAOI_v2.py:192-199 | the loop only fails with ZeroDivisionError at a zero wavelength (the assign's `-4382/wl**2`) or on a rename onto a name some wavelength already produced |
| DynamicAoiV2.RunCompletesIff | Code/RefIdx_COP_dynamicAOI_v2.py:192-199 | the wavelength loop finishes iff no wavelength is zero and no two wavelengths truncate to the same integer |
| DynamicAoiV2.WavelengthRunTiffSound | Code/RefIdx_COP_dynamicAOI_v2.py:192-249 | each GeoTIFF written is that of one wavelength and one slice, holding that pair's grid, and only when export is on |
| DynamicAoiV2.WavelengthRunTiffComplete | Code/RefIdx_COP_dynamicAOI_v2.py:192-249 | a run that finishes with export on writes the GeoTIFF of every wavelength and every slice |
| DynamicAoiV2.DistinctOutputPaths | Code/RefIdx_COP_dynamicAOI_v2.py:235-248 | different (wavelength, slice) pairs get different file names when wavelengths truncate differently and slice dates differ, so no output overwrites another |
| DynamicAoiV2.InvalidAoiHasNoEffects | Code/RefIdx_COP_dynamicAOI_v2.py:125-151 | the function records no effect (no folder, no query) iff the AOI is too short or its clamped bounds are out of order, and it then raises; the caller's list is still clamped in place |
| DynamicAoiV2.AcceptedAoiQueried | Code/RefIdx_COP_dynamicAOI_v2.py:130-177 | an accepted AOI first makes the missing project folder, then queries the selected dataset with the clamped box and both dates at "T00:00:00" |
| DynamicAoiV2.IntWavelengthRaisesAfterQuery | Code/RefIdx_COP_dynamicAOI_v2.py:125-190 | an int wavelength is not wrapped into a list (`Wrapped` only wraps a float), so `len` raises after the folder and the query and before any variable or file |
| DynamicAoiV2.FloatWavelengthIsSingleton | Code/RefIdx_COP_dynamicAOI_v2.py:125-126 | a float wavelength, which `Wrapped` turns into a one-element list, behaves exactly like that list |
| DynamicAoiV2.ReturnShape | Code/RefIdx_COP_dynamicAOI_v2.py:125-258 | the function returns iff the AOI is accepted, the wavelengths form a list, none is zero and no two truncate alike. It then returns one variable per wavelength, plus the project folder iff plotting or export is on |
| DynamicAoiV2.ProcessWavelengths | Code/RefIdx_COP_dynamicAOI_v2.py:192-249 | the nested loops produce exactly the effects, variables and error of the wavelength-run specification |
| DynamicAoiV2.CopRefIdx | Code/RefIdx_COP_dynamicAOI_v2.py:125-258 | clamps the caller's list in place and produces the effects and the return value or exception of `CopRefIdxSpec` on the original list |
| DynamicAoiV1.DatasetIdV1IsRepKeyed | Code/RefIdx_COP_dynamicAOI_v1.py:116-125 | the computed id is the v2 id with nrt = not rep. It equals the id actually queried iff weekly and not rep |
| DynamicAoiV1.FolderBeforeClamp | Code/RefIdx_COP_dynamicAOI_v1.py:109-135 | a too-short AOI still leaves the project folder made before the IndexError |
| DynamicAoiV1.QueryUnchecked | Code/RefIdx_COP_dynamicAOI_v1.py:116-165 | any AOI of four entries is queried, clamped but unchecked, always from "dataset-armor-3d-nrt-weekly" whatever id was computed; the run then raises iff wl is zero (ZeroDivisionError in the assign) |
| DynamicAoiV1.ReversedAoiQueried | Code/RefIdx_COP_dynamicAOI_v1.py:128-149 | a reversed box is queried as it is and raises nothing unless wl is zero, where the function version rejects it |
| DynamicAoiV1.OutputsLabelled532 | Code/RefIdx_COP_dynamicAOI_v1.py:165-214 | every PNG and GeoTIFF is named "nw532" plus a slice date, whatever the wavelength. The variable is named after the truncated wavelength |
| DynamicAoiV1.EveryTiffWritten | Code/RefIdx_COP_dynamicAOI_v1.py:163-214 | with export on, every slice's "nw532" GeoTIFF is written with that slice's grid iff wl is not zero |
| DynamicAoiV1.RunScript | Code/RefIdx_COP_dynamicAOI_v1.py:109-214 | clamps the module-level list in place and produces the effects, dataset id, variable and exception of `ScriptSpec` on the original list |
| MonthlyRaster.Unique | Code/RefIdx_COP_monlthly_netcdf_to_raster.py:92 | the years visited are the years present, each once |
| MonthlyRaster.UniqueFirstAppearance | Code/RefIdx_COP_monlthly_netcdf_to_raster.py:92 | the years are visited in order of first appearance in the file |
| MonthlyRaster.YearIndices | Code/RefIdx_COP_monlthly_netcdf_to_raster.py:126 | the selected positions are increasing and all hold timestamps of the year |
| MonthlyRaster.YearIndicesComplete | Code/RefIdx_COP_monlthly_netcdf_to_raster.py:126 | every timestamp of the year is selected |
| MonthlyRaster.OfYear | Code/RefIdx_COP_monlthly_netcdf_to_raster.py:115-126 | the dates of a year are those at the selected positions, in file order |
| MonthlyRaster.NonContiguousYear | Code/RefIdx_COP_monlthly_netcdf_to_raster.py:126 | the timestamps of a year need not be adjacent in the file |
| MonthlyRaster.NonContiguousYearOrder | Code/RefIdx_COP_monlthly_netcdf_to_raster.py:92 | a year that reappears later in the file is not visited twice |
| MonthlyRaster.PixelCentreOnGrid | Code/RefIdx_COP_monlthly_netcdf_to_raster.py:109-110 | cell (col, row) is centred at (-179.875 + 0.25 col, lat[0] + 0.25 row) |
| MonthlyRaster.SourcePrefixSpec | Code/RefIdx_COP_monlthly_netcdf_to_raster.py:77 | a prefix exists iff the path has a '-'. It is then the dash-free text just before the last '-' |
| MonthlyRaster.YearRunStaysFailed | Code/RefIdx_COP_monlthly_netcdf_to_raster.py:129-165 | once a raster call raises, later timestamps change nothing |
| MonthlyRaster.YearRunMatches | Code/RefIdx_COP_monlthly_netcdf_to_raster.py:126-165 | with enough declared bands, the first k timestamps succeed: band i holds grid i, labelled with its "YYYY_Mon", and the accumulators are those of the first k grids |
| MonthlyRaster.ThirteenSliceYearFails | Code/RefIdx_COP_monlthly_netcdf_to_raster.py:115-165 | a 13-timestamp year opens 13 bands. At the twelfth it writes band 13 as the average and then raises on band 14. The file keeps bands 1-13 and stays open |
| MonthlyRaster.YearOutputSpec | Code/RefIdx_COP_monlthly_netcdf_to_raster.py:95-168 | a year without 13 timestamps gives a closed raster at "monthly_rasters/armor3d_nw532_<year>_monthly_<prefix>.tif" whose bands are exactly 1..count, where count is the number of timestamps, or 14 at exactly 12 (`DeclaredCount`). Band k holds the grid read for the k-th timestamp, labelled "YYYY_Mon"; at 12 timestamps bands 13 and 14 hold the average and range labelled "YYYY_AVG" and "YYYY_RANGE" |
| MonthlyRaster.YearOutputCloses | Code/RefIdx_COP_monlthly_netcdf_to_raster.py:168 | such a year finishes and its raster is closed |
| MonthlyRaster.BandReadsFileIndex | Code/RefIdx_COP_monlthly_netcdf_to_raster.py:126-136 | as written, band k of every year holds the grid of file time index k - 1: the formula applied to that index's salinity and temperature (`Fields`) |
| MonthlyRaster.SummaryIffTwelve | Code/RefIdx_COP_monlthly_netcdf_to_raster.py:115-165 | band 13 is the "YYYY_AVG" summary iff the year has exactly 12 timestamps |
| MonthlyRaster.SummaryBands | Code/RefIdx_COP_monlthly_netcdf_to_raster.py:145-165 | in a 12-timestamp year bands 13 and 14 are the sum / 12 and max - min of the year's grids |
| MonthlyRaster.TwelveMonthSummary | Code/RefIdx_COP_monlthly_netcdf_to_raster.py:145-164 | in a 12-timestamp year every average cell is present and equals the sum of the present values / 12, and every range cell present is non-negative |
| MonthlyRaster.SecondYearRereadsFirstGrid | Code/RefIdx_COP_monlthly_netcdf_to_raster.py:126-136 | for the archive of January 2020 and January 2021, the 2021 raster's band 1 holds the 2020 grid |
| MonthlyRaster.IntendedBandsOwnTimestamp | Code/RefIdx_COP_monlthly_netcdf_to_raster.py:126-156 | with the correction (grids read at the file index of the year's own timestamps, `IntendedYearFields`), band k holds the grid of the timestamp its label names |
| MonthlyRaster.SecondYearIntendedGrid | Code/RefIdx_COP_monlthly_netcdf_to_raster.py:126-136 | with the correction, that 2021 band 1 holds the 2021 grid |
| MonthlyRaster.UntilFailureStops | Code/RefIdx_COP_monlthly_netcdf_to_raster.py:92-168 | a run of years stops at the first year that raises, keeping the rasters up to and including it |
| MonthlyRaster.YearsOutputSpec | Code/RefIdx_COP_monlthly_netcdf_to_raster.py:92-168 | when no year has 13 timestamps, an archive yields one closed raster per year, in year order |
| MonthlyRaster.ThirteenStopsArchive | Code/RefIdx_COP_monlthly_netcdf_to_raster.py:92-168 | the first 13-timestamp year ends the script with its raster left open, after the rasters of the years before it |
| MonthlyRaster.AnnualRaster.Open | Code/RefIdx_COP_monlthly_netcdf_to_raster.py:95-123 | a new raster has the given path, shape, band count and transform. It holds no bands and is open, with a zero counter and empty accumulators |
| MonthlyRaster.AnnualRaster.WriteBand | Code/RefIdx_COP_monlthly_netcdf_to_raster.py:155 | writing band b succeeds iff 1 <= b <= count and then sets only that band |
| MonthlyRaster.AnnualRaster.SetBandDescription | Code/RefIdx_COP_monlthly_netcdf_to_raster.py:156 | describing band b succeeds iff 1 <= b <= count and then sets only that label |
| MonthlyRaster.AnnualRaster.AddMonth | Code/RefIdx_COP_monlthly_netcdf_to_raster.py:129-165 | one pass of the in-year loop moves the raster and accumulators exactly as the month step of the specification |
| MonthlyRaster.AnnualRaster.Close | Code/RefIdx_COP_monlthly_netcdf_to_raster.py:168 | closing keeps the bands and marks the file closed |
| MonthlyRaster.RunMonths | Code/RefIdx_COP_monlthly_netcdf_to_raster.py:126-165 | the in-year loop leaves the raster in the state of the year-run specification |
| MonthlyRaster.ConvertYear | Code/RefIdx_COP_monlthly_netcdf_to_raster.py:95-168 | one year's processing yields exactly `YearOutput` |
| MonthlyRaster.ConvertArchive | Code/RefIdx_COP_monlthly_netcdf_to_raster.py:76-168 | one archive yields exactly `ArchiveOutput`: nothing when the path has no '-', else its years in order up to the first failure |
| MonthlyRaster.ConvertAll | Code/RefIdx_COP_monlthly_netcdf_to_raster.py:73-168 | the archives in list order, stopping at the first exception, yield exactly `AllOutput` |
| Grid.RiField | Code/RefIdx_COP_monlthly_netcdf_to_raster.py:135-137 | a cell is missing iff salinity or temperature is missing there, and otherwise holds the formula's value |
| Grid.FMinCell | Code/RefIdx_COP_monlthly_netcdf_to_raster.py:151 | fmin returns one of its inputs, ignores a missing one, and is missing only when both are |
| Grid.FMaxCell | Code/RefIdx_COP_monlthly_netcdf_to_raster.py:152 | fmax returns one of its inputs, ignores a missing one, and is missing only when both are |
| Grid.AccumulateBounds | Code/RefIdx_COP_monlthly_netcdf_to_raster.py:145-152 | every present value of a cell lies between the running minimum and maximum, which are then present |
| Grid.AccumulateMissing | Code/RefIdx_COP_monlthly_netcdf_to_raster.py:145-152 | the running minimum and maximum of a cell are missing iff the cell is missing in every grid so far |
| Grid.AccumulateAttained | Code/RefIdx_COP_monlthly_netcdf_to_raster.py:145-152 | the running minimum and maximum are values some grid actually holds |
| Grid.RangeNonNegative | Code/RefIdx_COP_monlthly_netcdf_to_raster.py:164 | the range band is never negative where present |
| Grid.AccumulateSum | Code/RefIdx_COP_monlthly_netcdf_to_raster.py:145-150 | after one grid the running sum is that grid, NaN included; from the second grid on every cell is present and holds the sum of the present values |
| Calendar.AddDays | Code/RefIdx_COP_dynamicAOI_v2.py:184 | adding days to a valid date gives a valid, strictly later date |
| Calendar.AddDaysWithinMonth | Code/RefIdx_COP_dynamicAOI_v2.py:184 | inside a month, adding days only moves the day |
| Calendar.WindowCrossesYear | Code/RefIdx_COP_dynamicAOI_v2.py:184 | a window starting on 28 December 2024 ends on 3 January 2025 |
| Calendar.YmdRoundTrip | Code/RefIdx_COP_dynamicAOI_v2.py:208-209 | a "%Y%m%d" string reads back to the date it was printed from |
| Calendar.YmdInjective | Code/RefIdx_COP_dynamicAOI_v2.py:208-209 | different dates print to different "%Y%m%d" strings |
| Calendar.YearMonthLabelInjective | Code/RefIdx_COP_monlthly_netcdf_to_raster.py:156 | two band labels "%Y_%b" agree only when year and month agree |
| Text.NatToStringRoundTrip | Code/RefIdx_COP_monlthly_netcdf_to_raster.py:120 | the decimal digits of a year read back to the year |
| Text.IntToStringRoundTrip | Code/RefIdx_COP_dynamicAOI_v2.py:198 | "%i" of an int is a sign and digits that parse back to the int |
| Text.Trunc | Code/RefIdx_COP_dynamicAOI_v2.py:198 | int() of a float is the integer next to it toward zero |
| Text.TruncTowardZero | Code/RefIdx_COP_dynamicAOI_v2.py:198 | truncation keeps the sign and never grows the magnitude |
| Text.SplitJoin | Code/RefIdx_COP_monlthly_netcdf_to_raster.py:77 | joining the parts of split with the separator gives the string back |
| Text.SplitHasTwoParts | Code/RefIdx_COP_monlthly_netcdf_to_raster.py:77 | split gives at least two parts iff the separator occurs, so [-2] exists iff the path has a '-' |
| Text.DirName | Code/RefIdx_COP_monlthly_netcdf_to_raster.py:102 | the head is a prefix of the path, empty when there is no '/'. Only separators and the last component follow it, and it has no trailing '/' unless it is all slashes. With a '/' in the path the head is non-empty and ends no later than the last '/' ("a/b/c" gives "a/b") |

## Left out

- Logging in to Copernicus Marine and the `open_dataset` query itself are left out. The queried cube is a parameter, and the query is recorded as an effect with its dataset id, box and times.
- Reading netCDF files is left out: an archive is given as its path, latitudes, longitudes, dates and surface grids. So is converting the seconds since 1970 to dates: dates arrive as calendar dates.
- Refractive-index formulas: `quanfry_ri` is a parameter of the dynamic-AOI model. Its one exception is modelled: `-4382/wl**2` on a Python number raises ZeroDivisionError at wl = 0, which both versions record as `ZeroDivision` at the assign, after the folder, the query and the earlier wavelengths' outputs. The monthly script's formula is written out as `MonthlyRaster.Ri532`, and its operations take the formula as a parameter.
- ReturnShape, CopRefIdxSpec, ScriptSpec: the zero-division test is on exact reals. A non-zero float wavelength whose square underflows to 0.0 (below about 1e-162) also raises in the source, and a numpy scalar wavelength divides to inf instead of raising; neither is modelled.
- Floating point is modelled as exact reals, with NaN as a missing cell. Rounding is left out, and so are NaN produced by arithmetic (e.g. 0/0) and float32 storage.
- Plotting is left out beyond the PNG name: figure size, colour map, limits and title are not modelled.
- GeoTIFF details are left out: CRS, compression, dtype, `write_crs`, `rio.to_raster` contents beyond the slice grid, and the raster's pixel data layout. The transform is modelled as an affine value.
- `os.path.abspath` and the existence test of the project folder are left out: the output path is taken as given, and whether the folder exists is a parameter. The `monthly_rasters` folder is made when missing, with no effect recorded.
- Windows path handling is left out: `os.path.split` is modelled as on POSIX.
- MonthAbbrev, YearMonthLabel: `%b` is taken in the C locale ("Jan" … "Dec"); band labels under other locales are not modelled.
- `print` output is left out, as is `drop_vars` on the returned cube; the returned variables are the `ref_idx_*` ones.
- Failure of the network, the file system or rasterio for reasons other than a band index is left out.
- The model requires well-shaped inputs: at least one latitude (an archive without one raises IndexError at `lat[0,0]` when the transform is built, which is not modelled), and salinity and temperature grids of matching sizes, one per timestamp. The source assumes the same of its data.
- The example caller in `Code/cop_dynamic_V2_func_test.py` is not part of this model. It passes a list of ints, which `Wrapped` and `CopRefIdx` cover.

## Findings

| source | as written | input that shows it | evidently intended | confidence | as-written member | corrected member |
|---|---|---|---|---|---|---|
| Code/RefIdx_COP_monlthly_netcdf_to_raster.py:126-136 | the per-year `enumerate` counter restarts at 0 for every year, and the grids are read at file time index `i`, so the k-th timestamp of every year gets the archive's k-th grid | an archive with timestamps January 2020 and January 2021 and different salinity grids: band 1 of the 2021 raster, labelled "2021_Jan", holds the 2020 grid | each band holds the grid of the timestamp its label names | not executed | MonthlyRaster.SecondYearRereadsFirstGrid | MonthlyRaster.IntendedBandsOwnTimestamp |

The main pipeline (`ConvertYear`, `ConvertArchive`, `ConvertAll`) models
the code as written. The corrected grids are `IntendedYearFields` and
`IntendedYearOutput`. For the same input, `SecondYearIntendedGrid` shows
the 2021 band holding the 2021 grid.

A 13-timestamp year cannot occur with one timestamp per month, but the code
raises on it rather than skipping the year (`ThirteenSliceYearFails`,
`ThirteenStopsArchive`). The raster is then left open and the whole script
stops. The model follows the code here, not a design where a failed year
leaves the other years and files unaffected.
