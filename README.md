# Model page and region chart of the COVID projections site

A Dafny model of two pieces of the COVID projections web site.

**The model page of a US state** (`src/screens/ModelPage/ModelPage.js`, module `ModelPage`):

- The intervention map is built from the fetched scenario bundle. It has four slots: `baseline`, `distancing`, `distancingPoorEnforcement` and `contain`. Each slot holds a scenario model made from the matching raw projection and a fixed set of intervention parameters (kind, r0, duration).
- The page's view state is kept in the class `ModelPageState`: county or state view, the selected county and a pending redirect. The click and selection handlers change this state.
- Each render decides whether to return a redirect, the loading screen or the page. The page shows the model header and chart or the no-data banner.

**The region chart** (`src/components/VxCharts/RegionChart.tsx`, module `RegionChart`): what the chart computes before drawing.

- The inner plot size.
- The x and y extents.
- The zone ticks, which the grid and the left axis share.
- The last valid point, which the current-value annotation uses.
- The band edges when the optional `y0`/`y1` accessors are absent.

Behaviour captured exactly:

- **`showModel` always equals `!countyView`.** The expression at ModelPage.js:62-64 is evaluated while `modelDatas` is still `null`; it gets its value only at line 70. So in county view the model header and chart are never drawn, even for a selected county with usable data. `PageView`, `ModelShownOnlyInStateView` and `CountyModelHiddenDespiteUsableData` state this.
- **`buildInterventionMap` checks no field.** Each model wraps its raw projection as delivered, missing or not. The error flag is tested by the caller (lines 72-75), never by the builder. A partially populated bundle is therefore not rejected here.
- **JavaScript truthiness.** An empty `countyId` means no lookup. An empty redirect target is not pending. An empty county name hides the no-data banner.
- **`isDefined` is `!isUndefined`.** A `null` x or y therefore counts as defined. A point with a `null` y is valid, and its `null` is what the annotation shows. The extent skips `null` and `undefined`.
- **The default plot area is 510 by 350.** The defaults are width 600, left margin 40 and right margin 50; height 400, top margin 10 and bottom margin 40.

What `buildInterventionMap` does not check:

- It does not reject a partially populated bundle. Each slot wraps whatever the matching field holds.
- It does not look at the error flag. Only the page tests that flag, before it calls the builder (lines 72-75).

The scenario model class (`Model` from `utils/model`) is not part of this model. It is represented as the record of the data and parameters it is constructed with. The values r0 are real literals and no arithmetic is done on them.

## Model

Some helpers are a source expression written out and have no contract of their own. Their meaning is stated by the rows named here:
- `ShowModelGiven` (ModelPage.js:62-64), through `PageView`, `ModelShownOnlyInStateView` and `CountyModelHiddenDespiteUsableData`.
- `DatasForView` (66-68), `Usable` (73), `IsPending` (77) and `IsLoading` (91-94), through `PageView` and `InterventionsFor`.
- `StatePath` and `CountyPath` (122, 145), through `PathsIdentifyTheirTarget` and the handlers `ShowStateView` and `ChooseCounty`.
- `IsValidPoint` and `LastDataPoint` (RegionChart.tsx:66-67), through `ValidIndices`, `ValidPoints` and `LastDataPointIsLastValid`.
- `ShowsModel` (ModelPage.js:107 and 174, the guard `showModel && interventions`), through `ModelShownOnlyInStateView`, `ModelAndNoDataExclusive` and `ModelPageState.Render`.
- `IsDefined` (RegionChart.tsx:15), through `ValidIndices` and `LastDataY`.
- `Last` (RegionChart.tsx:67, the imported `last`), through its own contract and `LastDataPointIsLastValid`.
- `Values` (RegionChart.tsx:48 and 54, the accessor applied to each datum inside `d3extent`), through its own contract, `Extent` and `ComputeLayout`.

| member | source | states |
|---|---|---|
| `ModelPage.InterventionMapOf` | src/screens/ModelPage/ModelPage.js:250-290 | No bundle gives four null slots. A bundle fills all four slots: slot i wraps the bundle's i-th scenario projection unchanged (baseline, strictDistancingNow, weakDistancingNow, containNow) with that slot's fixed parameters. Those are LIMITED_ACTION r0 2.4 with no duration; SHELTER_IN_PLACE r0 1.2 for 90 days; SOCIAL_DISTANCING r0 1.7 for 90 days; LOCKDOWN r0 0.3 for 90 days |
| `ModelPage.BuildInterventionMap` | src/screens/ModelPage/ModelPage.js:250-290 | Starting from four null slots and assigning them one after another yields exactly the map `InterventionMapOf` describes |
| `ModelPage.BuildIgnoresErrorFlag` | src/screens/ModelPage/ModelPage.js:262-287 | The builder does not inspect the error flag: any bundle, flagged or not, yields a fully populated map, and the same one either way |
| `ModelPage.OutcomeModels` | src/screens/ModelPage/ModelPage.js:192-197 | The outcomes panel lists four models, the same four as the map's slots, in a different order |
| `ModelPage.OutcomesByDecreasingR0` | src/screens/ModelPage/ModelPage.js:192-197 | On a map built from a bundle, the panel's models go from the highest r0 to the lowest |
| `ModelPage.FindIndex` | src/screens/ModelPage/ModelPage.js:45-48 | A lookup by property finds the first position whose property equals the value. No earlier position matches. When nothing is found, no position matches |
| `ModelPage.Find` | src/screens/ModelPage/ModelPage.js:154-158 | The county found is in the list and matches. It is the first match. Nothing is found exactly when no county matches |
| `ModelPage.InitialCounty` | src/screens/ModelPage/ModelPage.js:43-50 | With no county id, or an empty one, no county is selected. Otherwise the selected county is the first whose URL name equals the id |
| `ModelPage.PathsIdentifyTheirTarget` | src/screens/ModelPage/ModelPage.js:143-148 | A county path `/state/<location>/county/<name>` extends its state path `/state/<location>`. Different locations give different state paths. Different county names give different county paths |
| `ModelPage.InterventionsFor` | src/screens/ModelPage/ModelPage.js:72-75 | The intervention map is built exactly when the chosen bundle is present and not error-flagged. It is then the map built from that very bundle, fully populated. Otherwise it stays null |
| `ModelPage.PageView` | src/screens/ModelPage/ModelPage.js:53-103 | A pending (non-empty) redirect is returned first. The loading screen comes exactly when there is no redirect, no bundle for the view, and either state view or a selected county. Otherwise the page: `showModel` equals `!countyView`; the map is there iff the view's bundle is usable, and it is the map built from the view's bundle; the no-data banner is there iff a county with a non-empty name is selected and the view's bundle is error-flagged, and it names that county's `county` |
| `ModelPage.CountyName` | src/screens/ModelPage/ModelPage.js:59 | The county name is present exactly when a county with a non-empty name is selected, and it is that county's `county` |
| `ModelPage.NoDataFor` | src/screens/ModelPage/ModelPage.js:167-170 | The banner appears exactly when the county name is present and the bundle is there and error-flagged. It names the selected county's `county`, which is non-empty |
| `ModelPage.ModelShownOnlyInStateView` | src/screens/ModelPage/ModelPage.js:62-75 | The model is drawn exactly in state view, with no redirect pending and a usable state bundle. In county view it is never drawn |
| `ModelPage.CountyModelHiddenDespiteUsableData` | src/screens/ModelPage/ModelPage.js:62-64 | Had `showModel` read the county's bundle, a selected county with usable data would show its model. As written it does not |
| `ModelPage.ModelAndNoDataExclusive` | src/screens/ModelPage/ModelPage.js:167 | In every state, the model and the no-data banner never appear together. When no county is selected outside county view (the page's invariant), the banner appears only in county view |
| `ModelPage.ModelPageState.constructor` | src/screens/ModelPage/ModelPage.js:42-51 | The first render's state: county view, the route's county (looked up by URL name) selected, no redirect pending; the page invariant holds |
| `ModelPage.ModelPageState.ShowStateView` | src/screens/ModelPage/ModelPage.js:121-125 | "State View" sets the redirect to `/state/<location>`, leaves county view and drops the selected county |
| `ModelPage.ModelPageState.ShowCountyView` | src/screens/ModelPage/ModelPage.js:131-133 | "County View" only turns county view on; county and redirect are unchanged |
| `ModelPage.ModelPageState.ChooseCounty` | src/screens/ModelPage/ModelPage.js:143-148 | Choosing a county sets the redirect to `/state/<location>/county/<county_url_name>` and selects that county |
| `ModelPage.ModelPageState.SelectCountyOnMap` | src/screens/ModelPage/ModelPage.js:153-160 | A map click selects the first county with that FIPS code, or none; the redirect is unchanged |
| `ModelPage.ModelPageState.Render` | src/screens/ModelPage/ModelPage.js:53-103 | A render returns `PageView` of the state before it and clears a pending redirect. Afterwards no redirect is pending and the view and county are unchanged. By the page invariant, the model and the no-data banner never appear together, and the banner appears only in county view |
| `RegionChart.ResolveSize` | src/components/VxCharts/RegionChart.tsx:17-23 | Each size prop that is given is used as given. An absent one takes its default: width 600, height 400, left margin 40, top margin 10, right margin 50, bottom margin 40 |
| `RegionChart.InnerWidth` | src/components/VxCharts/RegionChart.tsx:44 | Left margin, inner width and right margin add up to the width |
| `RegionChart.InnerHeight` | src/components/VxCharts/RegionChart.tsx:45 | Top margin, inner height and bottom margin add up to the height |
| `RegionChart.DefaultInnerArea` | src/components/VxCharts/RegionChart.tsx:17-45 | With every size prop at its default the inner area is 510 by 350 |
| `RegionChart.Extent` | src/components/VxCharts/RegionChart.tsx:48-54 | The extent is absent exactly when no value is a number. Otherwise min ≤ max, every number lies in [min, max], and min and max are themselves values of the list |
| `RegionChart.ValidIndices` | src/components/VxCharts/RegionChart.tsx:66-67 | The reference for the filter: the positions whose x and y are both defined (not `undefined`), strictly increasing, each valid position listed |
| `RegionChart.ValidPoints` | src/components/VxCharts/RegionChart.tsx:67 | The filter's result is the data at the valid positions, in data order: its k-th point is the point at the k-th valid position |
| `RegionChart.ValidPointsAreTheValidOnes` | src/components/VxCharts/RegionChart.tsx:66-67 | Every kept point is a valid point of the data, and every valid point of the data is kept |
| `RegionChart.LastValidIndex` | src/components/VxCharts/RegionChart.tsx:67 | The reference definition: a valid position after which no position is valid, or none when no position is valid |
| `RegionChart.LastDataPointIsLastValid` | src/components/VxCharts/RegionChart.tsx:66-67 | The last of the filtered points is the point at the last valid position of the data |
| `RegionChart.LastDataY` | src/components/VxCharts/RegionChart.tsx:66-68 | The annotation's y is absent exactly when no point is valid. Otherwise it is the y of the point at the last valid position, never `undefined`, though it may be `null` |
| `RegionChart.BandEdge` | src/components/VxCharts/RegionChart.tsx:79-80 | An absent band accessor gives an undefined edge, not a scaled number. A present one gives the scaled accessor value |
| `RegionChart.ComputeLayout` | src/components/VxCharts/RegionChart.tsx:44-68 | The inner area and margins tile the frame. The grid rows and the left axis get the same ticks, computed once from the y domain and the zones. The annotation sits at the inner width. The x and y domains are the extents of the x and y values, so every defined value lies in its domain and both ends are attained. The y domain is absent exactly when no y is a number. The annotation's y is `LastDataY` of the data |

## Left out

- JSX, styling and SVG drawing are not modelled: the page's markup and the chart's scales, clip path, area, line, grid and axes. `AllStates.js` is markup only.
- The data-fetch hook `useModelDatas` is I/O. Its result is a parameter (`ModelDatasMap`) of `Render` and `PageView`.
- The county list of a location comes from a static dataset. It is a constant of `ModelPageState`.
- The scenario model's constructor, `dateOverwhelmed` and outcome horizons live in `utils/model`, which is not part of this model. A model is the record of its data and parameters.
- `calculateYTicks`, `formatDecimal`, `last` and `randomizeId` live in `components/VxCharts/utils`, which is not part of this model. The ticks are an uninterpreted function parameter of `ComputeLayout`. `last` is taken to return the final element, or nothing for an empty list. The random clip-path id is not modelled.
- `LastDataY`: when no point is valid, the source applies the y accessor to `undefined`. The result depends on the accessor (the default one would throw), so the model returns none there.
- `InnerWidth`, `InnerHeight` and `ComputeLayout`: the source's numbers are IEEE doubles, but the model does its size arithmetic over exact reals. Floating-point rounding in the subtractions at RegionChart.tsx:44-45 is not captured. So the tiling identity holds for the program only where the subtractions are exact, such as whole-number props below 2^53.
- `ResolveSize`: a prop passed as `null` does not take its default in the source. It stays `null` and counts as 0 in the subtractions. The model has no `null` size prop.
- The default accessors `d => d.x` and `d => d.y` are not modelled separately. `ComputeLayout` takes the accessors as given.
- `Extent`: d3's extent also skips `NaN`. The model has no `NaN`, and dates are represented by their millisecond timestamp.
- `ModelPageState.ChooseCounty` and `ModelPageState.SelectCountyOnMap` require county view. The county selector and the map are only rendered in county view (ModelPage.js:138).
- The page state's location never changes within one page. A route change mounting a new page is not modelled.
- React's deferred state updates are modelled as immediate. A handler's updates take effect before the next `Render`.
- `ModelPageState.Render` and `PageView` take one render to be one committed call that returns the `Redirect` element. `setRedirectTarget(null)` is called during render (ModelPage.js:78). React re-runs a component whose state changes during render and keeps the second result, which could discard the `<Redirect>`. That re-run is not modelled.
- `ModelPageState.Render` and `PageView` take `Redirect` (ModelPage.js:79) to be the router's redirect component. The file does not import it (line 2 imports only `useParams` and `useHistory`), so the model assumes a global with that name exists.
- `Find` and `ModelPageState.SelectCountyOnMap` take `_` (ModelPage.js:45 and 154) to be lodash, whose `find` with a property pair is a first-match search. The file does not import `_`, so the model assumes a global lodash.
- Logging to the console (ModelPage.js:56) and the header, location-name and colour tables are not modelled.
