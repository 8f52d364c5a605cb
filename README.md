# A Dafny model of quantarhei's 2D spectrum core

This project models the core of `quantarhei/spectroscopy/twod2.py`: the
container of two-dimensional electronic spectra and the calculators that
fill it. The model covers these parts:

- **The taxonomy and the resolution ladder.** There are eight Liouville
  pathway types (`R1g` … `R4fs`). They are grouped into four processes
  (GSB, SE, ESA, DC) and into three signals (REPH, NONR, DC). The five
  storage resolutions are `off`, `signals`, `processes`, `types` and
  `pathways`, and `_resolution2number` numbers them 0 to 4. This is module
  `Resolution`.
- **Arrays.** numpy arrays are modelled as rectangular matrices of reals.
  The model covers zeros, the in-place `+=` with numpy broadcasting,
  division, and basic slicing. This is module `Matrices`.
- **The store.** This is the attribute `_d__data` behind the
  `twodspectrum_dictionary` property. The model gives its getter and
  setter, the zero-initialised sums that compute a type, a process, a
  signal or the total from the finer data, and `set_data_flag`,
  `get_all_tags`, `_add_data`, `_convert_resolution` and
  `set_resolution`. All of these are pure functions on a `StoreState`.
  A Python exception becomes an `Error`. An assignment made before the
  exception stays made. This is in modules `Aggregation` and `Store`.
  - `StoreProperties` proves what they promise: a write reads back, the
    layout is kept, the five supported lowerings are the only ones, and
    refused calls change nothing.
  - `Totals` proves that the total spectrum is the same along both routes
    down the ladder, pathways → types → processes and pathways → types →
    signals. Sample by sample, it is the sum of every stored pathway.
    These lemmas hold for a store whose pathways all have the shape of
    the axes, as the docstring of `_add_data` demands (twod2.py:882);
    the setter does not enforce it (twod2.py:497-499).
- **The data of a spectrum.** This covers the dtype lock of
  `set_data_type`, `set_data` and `add_data`, and also `get_value_at`,
  `devide_by` and `trim_to`, over modules `SpectrumData` and `Axes`.
  `save`/`load` are modelled as an abstract record of attributes, datasets
  and axis groups in place of an HDF5 file (module `Persistence`).
- **The class `TwoDSpectrum`.** This is the class whose fields the methods
  above update in place (module `Spectrum`). Every method is proved
  against the pure function that specifies it. It states the new
  dictionary state, data fields and saved attributes, and says what else
  stays unchanged.
- **The calculators.** This covers the `tc` cursor over the waiting times
  of `TwoDSpectrumCalculator` and `MockTwoDSpectrumCalculator`, and the
  mock calculator's parameter selection and line-shape filling in
  `calculate_pathway`. The peak function (Gaussian or Lorentzian) is an
  uninterpreted parameter. This is module `Calculators`.

Several behaviours of the code are modelled as the code is written,
because that is what it does:

- The shape check of the store setter sits after `raise` inside the
  duplicate-tag branch, so it is never reached.
- Below `pathways` the setter quietly stores nothing.
- `_types_to_total` calls `_types_to_processes(process)` without `obj` and
  raises.
- The lowerings to `off` compute the total but keep the old store.
- Any read at `off` raises.
- The guard of `add_data` tests its argument (`dtype is None`), not the
  lock. So the lock is never set there, and on a fresh spectrum
  `add_data` always fails.
- `TwoDSpectrumCalculator.calculate_one` sets `Reph` data and then `Nonr`
  data on a spectrum whose lock was just fixed to `Reph`, so it never
  succeeds.
- The mock calculator's choice of `dephy` tests `widths[3]`.
- For a pathway type that is neither `R` nor `NR`, `calculate_pathway`
  falls through and returns `None`.

The getter has a branch that returns a 1×1 zero sentinel for a store at
`pathways` that exists but is not initialised (twod2.py:357-358). As
written, `__init__` never creates `_d__data`, the setter sets
`storage_initialized` whenever it creates it (twod2.py:467-470), and
`_convert_resolution` assigns it only when leaving `pathways`, so that
branch is never taken
(`StoreProperties.UninitialisedStoreIsAbsent`). On a spectrum that was
never assigned data the getter and `get_all_tags` raise AttributeError
(`StoreProperties.FreshReadFails`). A sentinel appears only once such a
spectrum has been lowered to `types`
(`StoreProperties.UninitialisedLowering`).

## Model

| member | source | states |
|---|---|---|
| Resolution.ResolutionToNumber | quantarhei/spectroscopy/twod2.py:73-110 | a name has a level exactly when it is one of the five resolutions, and its level is its position in the ladder |
| Resolution.ResolutionNumbers | quantarhei/spectroscopy/twod2.py:73-106 | the docstring's table: off 0, signals 1, processes 2, types 3, pathways 4 |
| Resolution.TablesPartitionTypes | quantarhei/spectroscopy/twod2.py:51-65 | the four process blocks, in order, are exactly the eight pathway types; the three signal blocks hold eight names, which are exactly the pathway types |
| Resolution.TypesDistinct | quantarhei/spectroscopy/twod2.py:51 | the eight pathway type names are pairwise different |
| Resolution.TableKeys | quantarhei/spectroscopy/twod2.py:56-65 | the keys of the process and signal tables are exactly the names iterated in their dictionary order |
| Resolution.ChainsToOff | quantarhei/spectroscopy/twod2.py:789-867 | any chain of supported lowerings from pathways to off is pathways→types→processes→off or pathways→types→signals→off |
| Matrices.Zeros | quantarhei/spectroscopy/twod2.py:353-355 | the zero array has the requested shape and every sample is 0 |
| Matrices.AddInto | quantarhei/spectroscopy/twod2.py:378 | `acc += x` succeeds exactly when numpy can broadcast x to acc's shape; the result keeps acc's shape and adds the broadcast sample of x to each sample |
| Matrices.AddIntoZeros | quantarhei/spectroscopy/twod2.py:643-645 | adding an array into zeros of its own shape gives the array back |
| Matrices.Divide | quantarhei/spectroscopy/twod2.py:996-997 | division keeps the shape, and each quotient times the divisor is the original sample |
| Matrices.DivideTwice | quantarhei/spectroscopy/twod2.py:992-997 | dividing by u and then by v equals dividing by u*v |
| Matrices.Slice | quantarhei/spectroscopy/twod2.py:1205-1213 | a slice has the clamped span along each dimension and holds the samples at the clamped offsets |
| Matrices.AddAllExact | quantarhei/spectroscopy/twod2.py:372-381 | accumulating equally shaped arrays cannot fail, and each sample is the start sample plus the sum of that sample over the arrays |
| Matrices.AddAllFromZeros | quantarhei/spectroscopy/twod2.py:192-205 | accumulating into zeros gives, at each sample, the sum of that sample over the arrays |
| Aggregation.AxisZeros | quantarhei/spectroscopy/twod2.py:814-815 | the axis-sized zero array exists exactly when both axes are set, with their lengths as its shape |
| Aggregation.TypesToTotal | quantarhei/spectroscopy/twod2.py:307-325 | on an initialised store with axes, `_types_to_total` raises the missing-argument TypeError; uninitialised, it returns the sentinel |
| Store.Lookup | quantarhei/spectroscopy/twod2.py:363-364 | a tagged lookup returns an entry stored under that tag, and fails with KeyError exactly when no entry has it |
| Store.Initialise | quantarhei/spectroscopy/twod2.py:467-470 | any assignment leaves the store initialised and changes nothing but the storage and that flag; on an initialised store it changes nothing |
| StoreProperties.WriteStoresPathway | quantarhei/spectroscopy/twod2.py:479-501 | a write under a new (type, tag) appends the array to that type's pathways, initialises the store, and changes nothing else |
| StoreProperties.WriteReadsBack | quantarhei/spectroscopy/twod2.py:336-501 | the getter at the address just written returns the written array |
| StoreProperties.WriteFrame | quantarhei/spectroscopy/twod2.py:485-501 | the pathways of every other type are untouched by a write |
| StoreProperties.DuplicateTagRejected | quantarhei/spectroscopy/twod2.py:493-499 | a write under a stored (type, tag) raises "Tag already exists" and changes nothing, so the shape check after the raise is never reached |
| StoreProperties.WrongTypeRejected | quantarhei/spectroscopy/twod2.py:467-483 | a write whose dtype is not a pathway type raises, while the initialisation made first persists |
| StoreProperties.NonArrayRejected | quantarhei/spectroscopy/twod2.py:467-505 | assigning a non-array raises TypeError after initialising the store and changes nothing else |
| StoreProperties.FirstWriteInitialises | quantarhei/spectroscopy/twod2.py:467-501 | every write leaves the store initialised, and a first write of a pathway yields a store holding just that pathway |
| StoreProperties.SilentNonStore | quantarhei/spectroscopy/twod2.py:467-503 | below pathways an array write raises nothing and stores nothing, beyond the first-write initialisation |
| StoreProperties.WriteKeepsLayout | quantarhei/spectroscopy/twod2.py:464-505 | every write, refused or not, keeps the store's layout invariant |
| StoreProperties.FreshReadFails | quantarhei/spectroscopy/twod2.py:336-339 | on a spectrum never written, whatever the flag, the getter and `get_all_tags` raise AttributeError |
| StoreProperties.UninitialisedReadsSentinel | quantarhei/spectroscopy/twod2.py:344-358 | the getter's branch for an existing but uninitialised store reads any pathway type as the 1x1 zero sentinel; no store in its layout reaches it |
| StoreProperties.UninitialisedStoreIsAbsent | quantarhei/spectroscopy/twod2.py:336-358 | a store at pathways in its layout that is not initialised was never assigned, so the getter raises AttributeError and the sentinel branch is unreachable |
| StoreProperties.UninitialisedLowering | quantarhei/spectroscopy/twod2.py:795-825 | lowering a never-written spectrum to types succeeds, stays uninitialised, and fills every type with the sentinel |
| StoreProperties.UninitialisedReadsAfterLowering | quantarhei/spectroscopy/twod2.py:208-265 | after that lowering every type, process and signal reads as the sentinel, and so does every process or signal array lowered from it |
| StoreProperties.TaggedRead | quantarhei/spectroscopy/twod2.py:363-364 | a tagged read returns the array stored under that tag, or raises KeyError when the type has no such tag |
| StoreProperties.TaglessReadSums | quantarhei/spectroscopy/twod2.py:369-381 | for axis-shaped pathways (`Aggregation.PiecesShaped`), a tagless read returns an axis-shaped array whose every sample is the sum of that sample over the type's pathways |
| StoreProperties.UnwrittenTypeReadsZeros | quantarhei/spectroscopy/twod2.py:350-355 | a pathway type never written reads as axis-sized zeros |
| StoreProperties.ReadAtOffFails | quantarhei/spectroscopy/twod2.py:460-461 | any read at off raises "not implemented" |
| StoreProperties.TypesTotalFails | quantarhei/spectroscopy/twod2.py:422-427 | reading "total" at types, once initialised, raises the missing-argument TypeError |
| StoreProperties.SetResolutionRejects | quantarhei/spectroscopy/twod2.py:774-786 | an unknown name, or a resolution higher than the current one, is refused and nothing changes |
| StoreProperties.SameLevelIsIdentity | quantarhei/spectroscopy/twod2.py:774-786 | setting the current resolution again changes nothing |
| StoreProperties.OnlySupportedLowerings | quantarhei/spectroscopy/twod2.py:865-867 | a lowering succeeds only along the five supported moves; every other one raises "Cannot convert" with both levels and changes nothing |
| StoreProperties.SetResolutionOutcome | quantarhei/spectroscopy/twod2.py:774-867 | a refused call leaves the whole state as it was; a successful one sets the requested resolution, never raises the level, and changes only the storage |
| StoreProperties.LoweringToOffKeepsStore | quantarhei/spectroscopy/twod2.py:852-863 | after a successful lowering to off the level is off but the old store is kept |
| StoreProperties.LeafMapExact | quantarhei/spectroscopy/twod2.py:828-849 | when every sum succeeds, the lowered dictionary is keyed exactly by the new level's names and holds each name's sum |
| StoreProperties.SetResolutionKeepsLayout | quantarhei/spectroscopy/twod2.py:703-867 | every call of set_resolution keeps the store's layout invariant |
| StoreProperties.UninitialisedLoweringFromTypes | quantarhei/spectroscopy/twod2.py:828-849 | a types store of sentinels lowers to processes or signals without error, changing only resolution and storage |
| StoreProperties.UninitialisedLoweringToOff | quantarhei/spectroscopy/twod2.py:852-863 | an uninitialised processes or signals store lowers to off unchanged apart from its level |
| StoreProperties.SetResolutionDoctest | quantarhei/spectroscopy/twod2.py:724-771 | the docstring's session: pathways→types→processes succeeds, processes→signals and processes→types are refused, processes→off and types→signals→off succeed |
| StoreProperties.AllTagsListsAddresses | quantarhei/spectroscopy/twod2.py:683-700 | at pathways, `get_all_tags` lists a (type, tag) exactly when it is a stored address |
| StoreProperties.AllTagsBelowPathways | quantarhei/spectroscopy/twod2.py:683-700 | below pathways it lists nothing when no pathway type is a key, and raises when the types store holds R1g |
| StoreProperties.AddDataStores | quantarhei/spectroscopy/twod2.py:870-923 | `_add_data` of a pathway sets the two-element address and stores the array, which the getter then returns |
| StoreProperties.AddDataRejects | quantarhei/spectroscopy/twod2.py:901-923 | finer data, an unknown resolution, a non-pathway dtype and a missing tag are refused without change; coarser data are dropped without error |
| Totals.TypeLeafSums | quantarhei/spectroscopy/twod2.py:795-825 | for a store whose pathways all have the axes' shape (`Totals.Populated`), each lowered type array is axis-shaped, holds the sum of the type's pathways at every sample, and is zeros for an unwritten type |
| Totals.LoweringToTypes | quantarhei/spectroscopy/twod2.py:795-825 | for a store whose pathways all have the axes' shape (`Totals.Populated`), pathways→types succeeds, changes only resolution and storage, and stores one summed array per pathway type |
| Totals.TaglessReadIsTypeArray | quantarhei/spectroscopy/twod2.py:369-381 | for a store whose pathways all have the axes' shape (`Totals.Populated`), the array a type gets at types is what a tagless read of that type returned at pathways |
| Totals.BlockFromTypes | quantarhei/spectroscopy/twod2.py:208-265 | for a types store lowered from axis-shaped pathways (`Totals.LoweredFrom`), a process or signal computed from the types store is axis-shaped and, at every sample, sums that sample over its block's pathways |
| Totals.LoweringFromTypes | quantarhei/spectroscopy/twod2.py:828-849 | for a types store lowered from axis-shaped pathways (`Totals.LoweredFrom`), types→processes and types→signals succeed, change only resolution and storage, and store one block sum per name |
| Totals.ProcessBlocksAddUp | quantarhei/spectroscopy/twod2.py:56-59 | for axis-shaped pathways (`Aggregation.PiecesShaped`), the samples of the four process blocks add up to the sample of all pathways |
| Totals.SignalBlocksAddUp | quantarhei/spectroscopy/twod2.py:61-65 | for axis-shaped pathways (`Aggregation.PiecesShaped`), the samples of the three signal blocks add up to the sample of all pathways |
| Totals.ProcessesTotalSums | quantarhei/spectroscopy/twod2.py:287-304 | for a lowered store whose arrays are the block sums of axis-shaped pathways, `_processes_to_total` of a lowered processes store is axis-shaped and, at every sample, sums all stored pathways |
| Totals.SignalsTotalSums | quantarhei/spectroscopy/twod2.py:268-284 | for a lowered store whose arrays are the block sums of axis-shaped pathways, `_signals_to_total` of a lowered signals store is axis-shaped and, at every sample, sums all stored pathways |
| Totals.PathwaysProcessSums | quantarhei/spectroscopy/twod2.py:134-160 | for a store whose pathways all have the axes' shape (`Totals.Populated`), `_pathways_to_processes` is axis-shaped and, at every sample, sums the process's block of pathways |
| Totals.PathwaysSignalSums | quantarhei/spectroscopy/twod2.py:163-189 | for a store whose pathways all have the axes' shape (`Totals.Populated`), `_pathways_to_signals` is axis-shaped and, at every sample, sums the signal's block of pathways |
| Totals.PathwaysTotalSums | quantarhei/spectroscopy/twod2.py:192-205 | for a store whose pathways all have the axes' shape (`Totals.Populated`), `_pathways_to_total` is axis-shaped and, at every sample, sums all stored pathways |
| Totals.ProcessesRouteTotal | quantarhei/spectroscopy/twod2.py:287-304 | for a store whose pathways all have the axes' shape (`Totals.Populated`), the total after pathways→types→processes equals the total read at pathways |
| Totals.SignalsRouteTotal | quantarhei/spectroscopy/twod2.py:268-284 | for a store whose pathways all have the axes' shape (`Totals.Populated`), the total after pathways→types→signals equals the total read at pathways |
| Totals.TotalIsPathIndependent | quantarhei/spectroscopy/twod2.py:192-304 | for a store whose pathways all have the axes' shape (`Totals.Populated`), both lowering routes succeed and give the same total as the pathways store |
| Totals.ReadTotal | quantarhei/spectroscopy/twod2.py:396-457 | the getter for "total" returns the matching total function at pathways, processes and signals |
| Totals.TotalReadIsPathIndependent | quantarhei/spectroscopy/twod2.py:336-461 | for a store whose pathways all have the axes' shape (`Totals.Populated`), the getter's "total" returns an array, and the same one after either lowering route |
| Axes.Trimmed | quantarhei/spectroscopy/twod2.py:1178-1199 | the trimmed axis keeps step, atype and time_start, and its k-th frequency is the old axis's frequency at lo-1+k |
| SpectrumData.WithField | quantarhei/spectroscopy/twod2.py:618-625 | the field of the given dtype is replaced, all others and the lock are kept |
| SpectrumData.SetDataFixesLock | quantarhei/spectroscopy/twod2.py:611-625 | on a fresh spectrum, data of a known type fix the lock and are stored in that type's field; nothing else changes |
| SpectrumData.LockIsSticky | quantarhei/spectroscopy/twod2.py:611-659 | once the lock is set, set_data and add_data keep it, refuse another type without change, and set_data of the locked type stores the data |
| SpectrumData.FreshAddDataFails | quantarhei/spectroscopy/twod2.py:634-659 | as written, add_data on a spectrum without a lock always raises and changes nothing |
| SpectrumData.AddDataTwice | quantarhei/spectroscopy/twod2.py:641-655 | two additions of the locked type into an empty field give the sample-wise sum and leave the other fields alone |
| SpectrumData.AddDataShapeMismatch | quantarhei/spectroscopy/twod2.py:645-655 | an addition numpy cannot broadcast raises and keeps the data |
| SpectrumData.ValueAt | quantarhei/spectroscopy/twod2.py:968-984 | without a lock it raises; a returned value is the locked field's sample at the located indices; a None field raises |
| SpectrumData.ValueAtAfterSetData | quantarhei/spectroscopy/twod2.py:968-984 | after set_data, a read inside the array returns the stored sample and one outside raises IndexError |
| SpectrumData.DevideBy | quantarhei/spectroscopy/twod2.py:992-997 | it succeeds exactly when both signal parts exist; each divided sample times the divisor is the old one; lock and total data are kept |
| SpectrumData.DevideByTwice | quantarhei/spectroscopy/twod2.py:992-997 | dividing by u and then by v equals dividing by u*v |
| SpectrumData.TrimKeepsSamples | quantarhei/spectroscopy/twod2.py:1160-1214 | a trimmed array matches the trimmed axes, and each sample stays at the same pair of frequencies |
| SpectrumData.TrimFieldsFrame | quantarhei/spectroscopy/twod2.py:1203-1214 | trimming keeps the lock and the data it does not slice, and never fills a None field |
| Persistence.SaveFails | quantarhei/spectroscopy/twod2.py:1253-1292 | saving fails exactly when an axis, or a dataset that `keep_stypes` selects, is None |
| Persistence.SaveLoadRoundTrip | quantarhei/spectroscopy/twod2.py:1233-1307 | loading a saved record into any spectrum restores t2, both keep flags, the saved arrays and both axes; unsaved arrays keep their values |
| Persistence.LoadedAxisSamples | quantarhei/spectroscopy/twod2.py:1267-1279 | a loaded axis has the saved length and frequencies and loses atype and time_start |
| Spectrum.SumInto | quantarhei/spectroscopy/twod2.py:820-821 | the loop of `+=` computes the accumulation function, stopping at the first failure |
| Spectrum.SumPieces | quantarhei/spectroscopy/twod2.py:372-381 | the copy-then-add loop over a type's pathways computes the tagless type sum |
| Spectrum.LeafMapFailsOnward | quantarhei/spectroscopy/twod2.py:828-849 | a lowering that raises on one name raises the same exception for the whole list |
| Spectrum.TwoDSpectrum.constructor | quantarhei/spectroscopy/twod2.py:541-559 | a new spectrum has an absent store at pathways, no lock and no data, t2 = -1 and the given keep flags |
| Spectrum.TwoDSpectrum.SetAxis1 | quantarhei/spectroscopy/twod2.py:562-566 | only the x-axis changes |
| Spectrum.TwoDSpectrum.SetAxis3 | quantarhei/spectroscopy/twod2.py:569-573 | only the y-axis changes |
| Spectrum.TwoDSpectrum.SetT2 | quantarhei/spectroscopy/twod2.py:953-958 | only t2 changes |
| Spectrum.TwoDSpectrum.SetDataType | quantarhei/spectroscopy/twod2.py:576-589 | the new fields and exception are those of the set_data_type function; store and saved attributes are kept |
| Spectrum.TwoDSpectrum.SetData | quantarhei/spectroscopy/twod2.py:592-629 | the new fields and exception are those of the set_data function, with its lock properties; the store is kept |
| Spectrum.TwoDSpectrum.AddData | quantarhei/spectroscopy/twod2.py:632-659 | the new fields and exception are those of the add_data function as written; the store is kept |
| Spectrum.TwoDSpectrum.GetValueAt | quantarhei/spectroscopy/twod2.py:968-984 | without a lock it raises, without an axis it raises AttributeError, otherwise it returns the value-at function's result |
| Spectrum.TwoDSpectrum.DevideBy | quantarhei/spectroscopy/twod2.py:992-997 | the new signal parts and exception are those of the devide_by function; all else is kept |
| Spectrum.TwoDSpectrum.TrimTo | quantarhei/spectroscopy/twod2.py:1160-1218 | without a window nothing changes; with one, both axes are trimmed and the data sliced as the trim function says; flags and t2 are kept |
| Spectrum.TwoDSpectrum.TrimData | quantarhei/spectroscopy/twod2.py:1203-1214 | the data become the trimmed fields; the store is kept |
| Spectrum.TwoDSpectrum.Save | quantarhei/spectroscopy/twod2.py:1281-1292 | the saved record, or the exception, is that of the save function on the spectrum's attributes |
| Spectrum.TwoDSpectrum.LoadHeader | quantarhei/spectroscopy/twod2.py:1247-1251 | t2 and the keep flags become what the header function reads, with a failed index keeping earlier assignments |
| Spectrum.TwoDSpectrum.LoadDatasets | quantarhei/spectroscopy/twod2.py:1260-1265 | the arrays become what the data function reads, steered by keep_stypes; lock and store are kept |
| Spectrum.TwoDSpectrum.LoadAxes | quantarhei/spectroscopy/twod2.py:1274-1279 | the axes become what the axes function reads |
| Spectrum.TwoDSpectrum.Load | quantarhei/spectroscopy/twod2.py:1296-1307 | the new saved attributes and exception are those of the load function, which round-trips save; the lock is kept |
| Spectrum.TwoDSpectrum.SetDataFlag | quantarhei/spectroscopy/twod2.py:662-680 | the new address and exception are those of the set_data_flag function; data and saved attributes are kept |
| Spectrum.TwoDSpectrum.Get | quantarhei/spectroscopy/twod2.py:336-461 | the getter returns what the read function gives on the spectrum's store |
| Spectrum.TwoDSpectrum.Put | quantarhei/spectroscopy/twod2.py:464-505 | the new store and exception are those of the write function |
| Spectrum.TwoDSpectrum.GetAllTags | quantarhei/spectroscopy/twod2.py:683-700 | the loop over the pathway types returns the all-tags function's list |
| Spectrum.TwoDSpectrum.AddPathwayData | quantarhei/spectroscopy/twod2.py:870-923 | the new store and exception are those of the `_add_data` function |
| Spectrum.TwoDSpectrum.LowerTo | quantarhei/spectroscopy/twod2.py:828-849 | the loop `storage[name] = ...` computes the lowered dictionary, or the first exception |
| Spectrum.TwoDSpectrum.ConvertResolution | quantarhei/spectroscopy/twod2.py:789-867 | on success the storage becomes the converted one; on an exception the storage is kept; nothing else changes |
| Spectrum.TwoDSpectrum.ConvertedStorage | quantarhei/spectroscopy/twod2.py:795-863 | the branches compute the conversion function's storage, keeping the old store at off |
| Spectrum.TwoDSpectrum.SetResolution | quantarhei/spectroscopy/twod2.py:703-786 | the new store and exception are those of the set_resolution function; data are kept |
| Calculators.PyIndex | quantarhei/spectroscopy/twod2.py:1808-1838 | a Python list index succeeds exactly within -len..len-1, counting negative indices from the end, and otherwise raises IndexError |
| Calculators.ColumnFill | quantarhei/spectroscopy/twod2.py:1842-1894 | the column-by-column assignment succeeds exactly when omega_1 is empty or both axes have the same length, giving an N1 x N3 array |
| Calculators.CalculatePathway | quantarhei/spectroscopy/twod2.py:1803-1894 | a successful call returns an array for R and NR pathways and None for any other type |
| Calculators.FillColumns | quantarhei/spectroscopy/twod2.py:1842-1894 | the zeros-then-columns loop computes the column-fill function's result, or its exception |
| Calculators.ComputePathway | quantarhei/spectroscopy/twod2.py:1803-1894 | computes the calculate_pathway function's result |
| Calculators.SelectWidthsSucceeds | quantarhei/spectroscopy/twod2.py:1820-1838 | the width selection succeeds exactly when widths has 4 entries and dephs 2, and 4 when widths[3] is not negative |
| Calculators.SelectedWidths | quantarhei/spectroscopy/twod2.py:1820-1838 | a negative width or dephasing rate selects the calculator's default; dephy follows the test of widths[3] |
| Calculators.PeakParameters | quantarhei/spectroscopy/twod2.py:1808-1867 | sample (k, i) of a Gaussian peak is the prefactor times the profile at omega_1 (mirrored for R) and at omega_3, centred on frequency[0] and frequency[noe-2] |
| Calculators.FillIsTransposed | quantarhei/spectroscopy/twod2.py:1842-1867 | on square axes, row index follows omega_3 and column index follows omega_1 |
| Calculators.Mirror | quantarhei/spectroscopy/twod2.py:1842-1855 | the mirrored axis has the same length and negated frequencies |
| Calculators.RephasingIsMirrored | quantarhei/spectroscopy/twod2.py:1842-1894 | an R pathway's result is that of the same NR pathway on the mirrored omega_1 axis |
| Calculators.MockCalculator.constructor | quantarhei/spectroscopy/twod2.py:1695-1701 | the cursor is 0, no axes or pathways are set, and all four widths are the default |
| Calculators.MockCalculator.Bootstrap | quantarhei/spectroscopy/twod2.py:1704-1728 | the cursor is reset, axes, pathways, shape and sign mode are set, and the widths are kept |
| Calculators.MockCalculator.SetWidth | quantarhei/spectroscopy/twod2.py:1731-1733 | both line widths are set and nothing else changes |
| Calculators.MockCalculator.SetDeph | quantarhei/spectroscopy/twod2.py:1735-1737 | both dephasing rates are set and nothing else changes |
| Calculators.MockCalculator.SetPathways | quantarhei/spectroscopy/twod2.py:1740-1741 | only the pathways change |
| Calculators.MockCalculator.AddPathways | quantarhei/spectroscopy/twod2.py:1761-1770 | adding the pathways to a fresh spectrum succeeds exactly when there are none, because add_data refuses them |
| Calculators.MockCalculator.CalculateOne | quantarhei/spectroscopy/twod2.py:1752-1775 | it succeeds exactly for an empty pathway list and a valid t2 index, giving a fresh spectrum with that t2 and the calculator's axes |
| Calculators.MockCalculator.CalculateNext | quantarhei/spectroscopy/twod2.py:1744-1749 | it returns the spectrum at the cursor and advances the cursor, which stays put on an exception |
| Calculators.MockCalculator.Calculate | quantarhei/spectroscopy/twod2.py:1778-1800 | it succeeds exactly for an empty pathway list and returns a fresh spectrum with t2 = 0 and no data |
| Calculators.Calculator.constructor | quantarhei/spectroscopy/twod2.py:1330-1380 | the cursor starts at 0 and no axes are set |
| Calculators.Calculator.Bootstrap | quantarhei/spectroscopy/twod2.py:1537-1555 | the cursor is reset to 0 and the axes are set |
| Calculators.Calculator.CalculateOne | quantarhei/spectroscopy/twod2.py:1564-1650 | it always raises: IndexError outside the waiting times, otherwise the lock error of the second set_data |
| Calculators.Calculator.CalculateNext | quantarhei/spectroscopy/twod2.py:1557-1561 | it always raises and so never advances the cursor |

## Left out

- The physics of `TwoDSpectrumCalculator` is left out: response functions, their FFTs, aceto, and the bootstrap's Hamiltonian and time axes. Its arrays are parameters of `Calculator.CalculateOne`.
- `TwoDSpectrumCalculator.calculate` (twod2.py:1654-1683) is left out. It is a loop over `calculate_one`, and that call never succeeds.
- Plotting (`plot`, `show`, `savefig`) is outside the data model.
- `TwoDSpectrumContainer` and `get_PumpProbeSpectrum` are outside the data model.
- `get_max_value` and `get_t2` are trivial reads.
- Energy-unit contexts and the RWA shift are left out. Axes are values in one unit.
- HDF5 file mechanics are left out. `save`/`load` work on an abstract record, and the file name and units are ignored.
- Complex samples are modelled as reals. The model therefore loses one error path: numpy refuses the in-place `+=` of a complex array into a real one. This can happen in `add_data`, which zero-initialises with the first array's dtype (twod2.py:643-655), and in the tagless read, which starts from a copy of the first pathway (twod2.py:376-378). The model accepts both.
- `FrequencyAxis.locate` is left out. `get_value_at` and `trim_to` take the indices it would return.
- The axis constructor is not modelled. An axis's k-th frequency is taken to be `start + k*step`.
- `_get_type_and_tag` is unused by the core.
- `_set_data` is `pass`.
- `print`/verbose output is left out.
- In the mock calculator, both "attribute never set" and `None` are modelled as `None`.
- `Resolution.TablesPartitionTypes` states the signal blocks' permutation of the types as equal length plus equal membership, over distinct names (`Resolution.TypesDistinct`), not as a multiset equality.
- `Spectrum.TwoDSpectrum.DevideBy`, `SpectrumData.DevideBy`, `SpectrumData.DevideByTwice`, `Matrices.Divide` and `Matrices.DivideTwice` require a non-zero divisor. numpy's division by zero, which gives inf/nan with a warning, is not modelled.
- `Spectrum.TwoDSpectrum.TrimTo` requires both axes to be set and the located indices to leave one sample of margin inside each axis (`Axes.Trimmable`). The AttributeError for a missing axis is therefore not modelled. Neither is the wrap-around `data[-1]` when a window edge locates at index 0.
- `Spectrum.TwoDSpectrum.TrimTo` also requires the window to be in order, `lo <= hi + 2`, through the same `Axes.Trimmable`. It thereby excludes a reversed window, for which `trim_to` passes a negative `length = i_max - i_min` to `FrequencyAxis` (twod2.py:1185-1196).
- `Spectrum.TwoDSpectrum.TrimData`, `SpectrumData.TrimKeepsSamples` and `SpectrumData.TrimFieldsFrame` require located indices of at least 1, as above (`Axes.Trimmable`).
- `StoreProperties.TaglessReadSums`, `Totals.TypeLeafSums`, `Totals.LoweringToTypes`, `Totals.TaglessReadIsTypeArray`, `Totals.BlockFromTypes`, `Totals.LoweringFromTypes`, `Totals.ProcessBlocksAddUp`, `Totals.SignalBlocksAddUp`, `Totals.ProcessesTotalSums`, `Totals.SignalsTotalSums`, `Totals.PathwaysProcessSums`, `Totals.PathwaysSignalSums`, `Totals.PathwaysTotalSums`, `Totals.ProcessesRouteTotal`, `Totals.SignalsRouteTotal`, `Totals.TotalIsPathIndependent` and `Totals.TotalReadIsPathIndependent` require every stored pathway to have the axes' shape. The docstring of `_add_data` demands it (twod2.py:882), but the setter does not check it, because its shape check is dead (twod2.py:497-499). For a store holding a pathway of another shape, the lowerings may raise and the totals are not stated.
- `Spectrum.TwoDSpectrum.SetData`, `Spectrum.TwoDSpectrum.AddData`, `Spectrum.TwoDSpectrum.Put` and `Spectrum.TwoDSpectrum.TrimData` treat arrays as values. In the source, arrays are shared objects. `set_data` keeps the caller's array itself (twod2.py:619-625), and so does the store setter (twod2.py:501). `add_data`'s `+=` changes that array in place (twod2.py:643-655), and `trim_to` stores views (twod2.py:1205-1213). So after `set_data(A, "Reph")`, storing the same `A` as a pathway and then `add_data(B, "Reph")`, Python reads that pathway as A+B, and the caller's A has changed too. The model shares nothing. Its frame `Dictionary() == old(Dictionary())` on `AddData` holds only when the store and the data fields share no array.
- `Calculators.PeakParameters` is stated for the Gaussian shape.
- `Calculators.Sample` leaves the peak expressions uninterpreted. twod2.py:1846-1892 writes them inline: the Gaussian `pref*exp(-((o1-cen1)/widthx)**2)*exp(-((oo3-cen3)/widthy)**2)` and the Lorentzian `pref*(dephx/((o1-cen1)**2+dephx**2))*(dephy/((oo3-cen3)**2+dephy**2))`. The `Profile` parameter stands for one factor of either expression, one along each frequency.
- `Calculators.MockCalculator.AddPathways`: for a non-empty pathway list, the model states that the call fails, but not which exception is raised first.
- `Spectrum.TwoDSpectrum.LowerTo` and `Spectrum.TwoDSpectrum.ConvertedStorage` compute the sums through the zero-initialised sum functions (`_types_to_processes` and the others). Only the outer loops and `+=` loops are written as loops.
