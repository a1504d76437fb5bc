/** The model page of one US state: the intervention map built from the fetched
    scenario bundle, the page's view state (state or county view, the selected
    county, a pending redirect) with its event handlers, and the decisions the
    page takes on each render. An absent value (`None`) stands for `null` or
    `undefined` alike: the page tests these values only for truthiness. */
module ModelPage {
  import opened Wrappers

  // ---------------------------------------------------------------------------
  // Scenario data and the intervention map
  // ---------------------------------------------------------------------------

  datatype Intervention = LimitedAction | SocialDistancing | ShelterInPlace | Lockdown

  /** The raw per-day projection of one scenario, as fetched; this page never
      looks inside it. */
  datatype Projection = Projection(rows: seq<seq<real>>)

  /** What the data-fetch hook delivers for one location: one projection per
      scenario (each possibly missing) and an error flag. */
  datatype ScenarioBundle = ScenarioBundle(
    baseline: Option<Projection>,
    strictDistancingNow: Option<Projection>,
    weakDistancingNow: Option<Projection>,
    containNow: Option<Projection>,
    error: bool)

  /** The fetched data for the page: the county's bundle and the state's bundle. */
  datatype ModelDatasMap = ModelDatasMap(countyDatas: Option<ScenarioBundle>, stateDatas: Option<ScenarioBundle>)

  /** The parameters a scenario model is constructed with; r0 is a literal here. */
  datatype InterventionParams = InterventionParams(intervention: Intervention, r0: real, durationDays: Option<nat>)

  /** A scenario model, kept as the opaque record of what it was constructed from. */
  datatype Model = Model(data: Option<Projection>, params: InterventionParams)

  /** A policy slot holding the model of the policy applied now. */
  datatype Policy = Policy(now: Model)

  datatype InterventionMap = InterventionMap(
    baseline: Option<Model>,
    distancing: Option<Policy>,
    distancingPoorEnforcement: Option<Policy>,
    contain: Option<Policy>)

  const BaselineParams := InterventionParams(LimitedAction, 2.4, None)
  const StrictDistancingParams := InterventionParams(ShelterInPlace, 1.2, Some(90))
  const WeakDistancingParams := InterventionParams(SocialDistancing, 1.7, Some(90))
  const ContainParams := InterventionParams(Lockdown, 0.3, Some(90))

  const NoInterventions := InterventionMap(None, None, None, None)

  /** All four slots are filled. */
  predicate Populated(m: InterventionMap) {
    m.baseline.Some? && m.distancing.Some? && m.distancingPoorEnforcement.Some? && m.contain.Some?
  }

  /** The four scenario models of a populated map, in slot order. */
  function SlotModels(m: InterventionMap): seq<Model>
    requires Populated(m)
  {
    [m.baseline.value, m.distancing.value.now, m.distancingPoorEnforcement.value.now, m.contain.value.now]
  }

  /** The bundle's four projections, in the order of the map's slots. */
  function BundleProjections(b: ScenarioBundle): seq<Option<Projection>> {
    [b.baseline, b.strictDistancingNow, b.weakDistancingNow, b.containNow]
  }

  /** The intervention map a bundle yields: no bundle gives four empty slots; a
      bundle gives four models, each wrapping the projection of its own scenario
      exactly as delivered (missing or not) under that slot's fixed parameters. */
  function InterventionMapOf(modelDatas: Option<ScenarioBundle>): (m: InterventionMap)
    ensures modelDatas.None? <==> m == NoInterventions
    ensures modelDatas.Some? <==> Populated(m)
    ensures Populated(m) ==>
      && |SlotModels(m)| == 4
      && (forall i :: 0 <= i < 4 ==> SlotModels(m)[i].data == BundleProjections(modelDatas.value)[i])
      && SlotModels(m)[0].params == BaselineParams
      && SlotModels(m)[1].params == StrictDistancingParams
      && SlotModels(m)[2].params == WeakDistancingParams
      && SlotModels(m)[3].params == ContainParams
  {
    match modelDatas
    case None => NoInterventions
    case Some(b) =>
      InterventionMap(
        Some(Model(b.baseline, BaselineParams)),
        Some(Policy(Model(b.strictDistancingNow, StrictDistancingParams))),
        Some(Policy(Model(b.weakDistancingNow, WeakDistancingParams))),
        Some(Policy(Model(b.containNow, ContainParams))))
  }

  /** Builds the map as the page does: four empty slots, then, when there is a
      bundle, the slots filled one after another. */
  method BuildInterventionMap(modelDatas: Option<ScenarioBundle>) returns (interventions: InterventionMap)
    ensures interventions == InterventionMapOf(modelDatas)
  {
    interventions := InterventionMap(None, None, None, None);
    if modelDatas.None? {
      return;
    }
    var datas := modelDatas.value;
    interventions := interventions.(baseline := Some(Model(datas.baseline, BaselineParams)));
    interventions := interventions.(distancing := Some(Policy(Model(datas.strictDistancingNow, StrictDistancingParams))));
    interventions := interventions.(distancingPoorEnforcement := Some(Policy(Model(datas.weakDistancingNow, WeakDistancingParams))));
    interventions := interventions.(contain := Some(Policy(Model(datas.containNow, ContainParams))));
  }

  /** The builder looks at neither the error flag nor the presence of any
      projection: flipping the flag changes nothing. */
  lemma BuildIgnoresErrorFlag(b: ScenarioBundle)
    ensures InterventionMapOf(Some(b)) == InterventionMapOf(Some(b.(error := !b.error)))
    ensures Populated(InterventionMapOf(Some(b)))
  {
  }

  /** The models the outcomes panel lists, in its order: baseline, poor
      enforcement, strict distancing, containment. */
  function OutcomeModels(m: InterventionMap): (models: seq<Model>)
    requires Populated(m)
    ensures |models| == 4
    ensures multiset(models) == multiset(SlotModels(m))
  {
    [m.baseline.value, m.distancingPoorEnforcement.value.now, m.distancing.value.now, m.contain.value.now]
  }

  /** On a map built from a bundle, the outcomes panel lists the scenarios from
      the highest reproduction number to the lowest. */
  lemma OutcomesByDecreasingR0(b: ScenarioBundle)
    ensures var models := OutcomeModels(InterventionMapOf(Some(b)));
      forall i, j :: 0 <= i < j < |models| ==> models[i].params.r0 > models[j].params.r0
  {
  }

  // ---------------------------------------------------------------------------
  // Counties and redirect paths
  // ---------------------------------------------------------------------------

  /** One entry of a state's county list. */
  datatype County = County(county: string, countyUrlName: string, fullFipsCode: string)

  /** The property a county is looked up by. */
  datatype CountyField = CountyUrlName | FullFipsCode

  function FieldOf(c: County, field: CountyField): string {
    match field
    case CountyUrlName => c.countyUrlName
    case FullFipsCode => c.fullFipsCode
  }

  /** The position of the first county whose `field` equals `value`. */
  function FindIndex(counties: seq<County>, field: CountyField, value: string): (r: Option<nat>)
    ensures r.Some? ==> r.value < |counties| && FieldOf(counties[r.value], field) == value
    ensures r.Some? ==> forall j :: 0 <= j < r.value ==> FieldOf(counties[j], field) != value
    ensures r.None? ==> forall j :: 0 <= j < |counties| ==> FieldOf(counties[j], field) != value
    decreases |counties|
  {
    if counties == [] then None
    else if FieldOf(counties[0], field) == value then Some(0)
    else
      match FindIndex(counties[1..], field, value)
      case None => None
      case Some(i) => Some(i + 1)
  }

  /** The first county whose `field` equals `value`, or none when no county matches. */
  function Find(counties: seq<County>, field: CountyField, value: string): (r: Option<County>)
    ensures r.Some? ==> r.value in counties && FieldOf(r.value, field) == value
    ensures r.None? <==> forall c :: c in counties ==> FieldOf(c, field) != value
    ensures r.Some? ==>
      exists i :: 0 <= i < |counties| && counties[i] == r.value &&
        forall j :: 0 <= j < i ==> FieldOf(counties[j], field) != value
  {
    match FindIndex(counties, field, value)
    case None => None
    case Some(i) => Some(counties[i])
  }

  /** The county selected when the page first renders: looked up by URL name when
      the route carries a non-empty county id, none otherwise. */
  function InitialCounty(counties: seq<County>, countyId: Option<string>): (r: Option<County>)
    ensures (countyId.None? || countyId.value == "") ==> r.None?
    ensures r.Some? ==> r.value in counties && r.value.countyUrlName == countyId.value
    ensures countyId.Some? && countyId.value != "" ==> r == Find(counties, CountyUrlName, countyId.value)
  {
    if countyId.Some? && countyId.value != "" then Find(counties, CountyUrlName, countyId.value) else None
  }

  function StatePath(location: string): string {
    "/state/" + location
  }

  function CountyPath(location: string, countyUrlName: string): string {
    "/state/" + location + "/county/" + countyUrlName
  }

  /** Every county path lies under its state's path, and different locations or
      different counties give different paths. */
  lemma {:induction false} PathsIdentifyTheirTarget(location: string, other: string, name: string, otherName: string)
    ensures StatePath(location) <= CountyPath(location, name)
    ensures StatePath(location) == StatePath(other) ==> location == other
    ensures CountyPath(location, name) == CountyPath(location, otherName) ==> name == otherName
  {
    var prefix := "/state/" + location + "/county/";
    assert CountyPath(location, name) == StatePath(location) + ("/county/" + name);
    if StatePath(location) == StatePath(other) {
      assert location == StatePath(location)[7..];
      assert other == StatePath(other)[7..];
    }
    if CountyPath(location, name) == CountyPath(location, otherName) {
      assert CountyPath(location, name) == prefix + name;
      assert CountyPath(location, otherName) == prefix + otherName;
      assert name == CountyPath(location, name)[|prefix|..];
      assert otherName == CountyPath(location, otherName)[|prefix|..];
    }
  }

  // ---------------------------------------------------------------------------
  // Render decisions
  // ---------------------------------------------------------------------------

  /** What one render of the page returns. `Page` carries whether the model
      header and chart are wanted, the intervention map (if built) and the
      county named by the no-data banner (if shown). */
  datatype Screen =
    | Redirect(to: string)
    | Loading
    | Page(showModel: bool, interventions: Option<InterventionMap>, noDataFor: Option<string>)

  /** A redirect is pending when the target is a non-empty string. */
  predicate IsPending(redirectTarget: Option<string>) {
    redirectTarget.Some? && redirectTarget.value != ""
  }

  /** A bundle the page can build a map from: present and not flagged as an error. */
  predicate Usable(modelDatas: Option<ScenarioBundle>) {
    modelDatas.Some? && !modelDatas.value.error
  }

  /** The bundle for the current view: the county's in county view, the state's otherwise. */
  function DatasForView(countyView: bool, datas: ModelDatasMap): Option<ScenarioBundle> {
    if countyView then datas.countyDatas else datas.stateDatas
  }

  /** The page's `showModel` expression, given the value `modelDatas` holds when
      it is evaluated. */
  function ShowModelGiven(countyView: bool, selectedCounty: Option<County>, modelDatas: Option<ScenarioBundle>): bool {
    !countyView || (countyView && selectedCounty.Some? && modelDatas.Some? && !modelDatas.value.error)
  }

  /** The intervention map is built only from a usable bundle. */
  function InterventionsFor(modelDatas: Option<ScenarioBundle>): (r: Option<InterventionMap>)
    ensures r.Some? <==> Usable(modelDatas)
    ensures r.Some? ==> Populated(r.value)
    ensures r.Some? ==> r.value == InterventionMapOf(modelDatas)
  {
    if Usable(modelDatas) then Some(InterventionMapOf(modelDatas)) else None
  }

  /** The loading screen: no bundle for the view, and either state view or a
      county selected in county view. */
  predicate IsLoading(countyView: bool, selectedCounty: Option<County>, modelDatas: Option<ScenarioBundle>) {
    (!countyView && modelDatas.None?) || (countyView && selectedCounty.Some? && modelDatas.None?)
  }

  /** The county name the page shows, when a county with a non-empty name is selected. */
  function CountyName(selectedCounty: Option<County>): (r: Option<string>)
    ensures r.Some? <==> selectedCounty.Some? && selectedCounty.value.county != ""
    ensures r.Some? ==> r.value == selectedCounty.value.county
  {
    if selectedCounty.Some? && selectedCounty.value.county != "" then Some(selectedCounty.value.county) else None
  }

  /** The no-data banner names the selected county when its bundle is flagged as an error. */
  function NoDataFor(selectedCounty: Option<County>, modelDatas: Option<ScenarioBundle>): (r: Option<string>)
    ensures r.Some? <==> CountyName(selectedCounty).Some? && modelDatas.Some? && modelDatas.value.error
    ensures r.Some? ==> r.value == selectedCounty.value.county && r.value != ""
  {
    if CountyName(selectedCounty).Some? && modelDatas.Some? && modelDatas.value.error
    then CountyName(selectedCounty) else None
  }

  /** One render, in the page's own order: `showModel` is taken while
      `modelDatas` is still null, then the bundle for the view is chosen, the map
      built, and a pending redirect, the loading screen or the page returned. */
  function PageView(countyView: bool, selectedCounty: Option<County>, redirectTarget: Option<string>, datas: ModelDatasMap): (s: Screen)
    ensures s.Redirect? <==> IsPending(redirectTarget)
    ensures s.Redirect? ==> s.to == redirectTarget.value
    ensures s.Loading? <==>
      && !IsPending(redirectTarget)
      && DatasForView(countyView, datas).None?
      && (!countyView || selectedCounty.Some?)
    ensures s.Page? ==> s.showModel == !countyView
    ensures s.Page? ==> (s.interventions.Some? <==> Usable(DatasForView(countyView, datas)))
    ensures s.Page? && s.interventions.Some? ==> Populated(s.interventions.value)
    ensures s.Page? && s.interventions.Some? ==> s.interventions.value == InterventionMapOf(DatasForView(countyView, datas))
    ensures s.Page? ==> (s.noDataFor.Some? <==>
      && selectedCounty.Some? && selectedCounty.value.county != ""
      && DatasForView(countyView, datas).Some? && DatasForView(countyView, datas).value.error)
    ensures s.Page? && s.noDataFor.Some? ==> s.noDataFor.value == selectedCounty.value.county
  {
    var modelDatas: Option<ScenarioBundle> := None;
    var showModel := ShowModelGiven(countyView, selectedCounty, modelDatas);
    var modelDatas := DatasForView(countyView, datas);
    var interventions := InterventionsFor(modelDatas);
    if IsPending(redirectTarget) then Redirect(redirectTarget.value)
    else if IsLoading(countyView, selectedCounty, modelDatas) then Loading
    else Page(showModel, interventions, NoDataFor(selectedCounty, modelDatas))
  }

  /** The model header and chart are drawn when `showModel` holds and a map was built. */
  predicate ShowsModel(s: Screen) {
    s.Page? && s.showModel && s.interventions.Some?
  }

  /** Because `showModel` is read before `modelDatas` is assigned, the model is
      drawn exactly in state view with a usable state bundle and no pending
      redirect; in county view it is never drawn, whatever county is selected and
      whatever its data. */
  lemma ModelShownOnlyInStateView(countyView: bool, selectedCounty: Option<County>, redirectTarget: Option<string>, datas: ModelDatasMap)
    ensures ShowsModel(PageView(countyView, selectedCounty, redirectTarget, datas)) <==>
      !countyView && !IsPending(redirectTarget) && Usable(datas.stateDatas)
    ensures countyView ==> !ShowsModel(PageView(countyView, selectedCounty, redirectTarget, datas))
  {
  }

  /** Had `showModel` been evaluated after the assignment, a selected county with
      usable data would show its model; as written it does not. */
  lemma CountyModelHiddenDespiteUsableData(c: County, b: ScenarioBundle)
    requires !b.error
    ensures ShowModelGiven(true, Some(c), Some(b))
    ensures !ShowsModel(PageView(true, Some(c), None, ModelDatasMap(Some(b), None)))
  {
  }

  /** The model and the no-data banner never appear together, in any state;
      when no county is selected outside county view (the page keeps that
      invariant), the banner appears only in county view. */
  lemma ModelAndNoDataExclusive(countyView: bool, selectedCounty: Option<County>, redirectTarget: Option<string>, datas: ModelDatasMap)
    ensures var s := PageView(countyView, selectedCounty, redirectTarget, datas);
      !(ShowsModel(s) && s.noDataFor.Some?)
    ensures var s := PageView(countyView, selectedCounty, redirectTarget, datas);
      (!countyView ==> selectedCounty.None?) ==> (s.Page? && s.noDataFor.Some? ==> countyView)
  {
  }

  // ---------------------------------------------------------------------------
  // The page's state
  // ---------------------------------------------------------------------------

  /** The view state of the page for one location, with the county list of that
      location. */
  class ModelPageState {
    const location: string
    const counties: seq<County>
    var countyView: bool
    var selectedCounty: Option<County>
    var redirectTarget: Option<string>

    /** A pending redirect always leads under this location's path, and outside
        county view no county is selected. */
    ghost predicate Valid()
      reads this
    {
      && (redirectTarget.Some? ==> StatePath(location) <= redirectTarget.value)
      && (!countyView ==> selectedCounty.None?)
    }

    /** The state of the first render: county view, the route's county (if any)
        selected, no redirect pending. */
    constructor (location: string, countyId: Option<string>, counties: seq<County>)
      ensures Valid()
      ensures this.location == location && this.counties == counties
      ensures countyView && selectedCounty == InitialCounty(counties, countyId) && redirectTarget.None?
    {
      this.location := location;
      this.counties := counties;
      countyView := true;
      var countyOption: Option<County> := None;
      if countyId.Some? && countyId.value != "" {
        countyOption := Find(counties, CountyUrlName, countyId.value);
      }
      selectedCounty := countyOption;
      redirectTarget := None;
    }

    /** "State View": redirect to the state's page, leave county view, drop the county. */
    method ShowStateView()
      requires Valid()
      modifies this
      ensures Valid()
      ensures redirectTarget == Some(StatePath(location))
      ensures !countyView && selectedCounty.None?
    {
      redirectTarget := Some(StatePath(location));
      countyView := false;
      selectedCounty := None;
    }

    /** "County View": only switch to county view. */
    method ShowCountyView()
      requires Valid()
      modifies this
      ensures Valid()
      ensures countyView
      ensures selectedCounty == old(selectedCounty) && redirectTarget == old(redirectTarget)
    {
      countyView := true;
    }

    /** Choosing a county in the selector, which is shown only in county view:
        redirect to the county's page and select it. */
    method ChooseCounty(option: County)
      requires Valid() && countyView
      modifies this
      ensures Valid()
      ensures redirectTarget == Some(CountyPath(location, option.countyUrlName))
      ensures selectedCounty == Some(option) && countyView
    {
      PathsIdentifyTheirTarget(location, location, option.countyUrlName, option.countyUrlName);
      redirectTarget := Some(CountyPath(location, option.countyUrlName));
      selectedCounty := Some(option);
    }

    /** A click on the county map, which is shown only in county view: select the
        first county with that FIPS code, or none when no county has it. */
    method SelectCountyOnMap(fullFips: string)
      requires Valid() && countyView
      modifies this
      ensures Valid()
      ensures selectedCounty == Find(counties, FullFipsCode, fullFips)
      ensures countyView && redirectTarget == old(redirectTarget)
    {
      var county := Find(counties, FullFipsCode, fullFips);
      selectedCounty := county;
    }

    /** One render with the data fetched for the current selection. A pending
        redirect is returned and cleared; afterwards no redirect is pending. The
        model and the no-data banner are never shown together, and the banner
        only in county view. */
    method Render(datas: ModelDatasMap) returns (screen: Screen)
      requires Valid()
      modifies this
      ensures Valid()
      ensures screen == PageView(old(countyView), old(selectedCounty), old(redirectTarget), datas)
      ensures redirectTarget.None?
      ensures countyView == old(countyView) && selectedCounty == old(selectedCounty)
      ensures !(ShowsModel(screen) && screen.noDataFor.Some?)
      ensures screen.Page? && screen.noDataFor.Some? ==> countyView
    {
      ModelAndNoDataExclusive(countyView, selectedCounty, redirectTarget, datas);
      var modelDatas: Option<ScenarioBundle> := None;
      var showModel := ShowModelGiven(countyView, selectedCounty, modelDatas);
      var datasForView := DatasForView(countyView, datas);
      modelDatas := datasForView;
      var interventions: Option<InterventionMap> := None;
      if modelDatas.Some? && !modelDatas.value.error {
        var built := BuildInterventionMap(datasForView);
        interventions := Some(built);
      }
      if redirectTarget.Some? && redirectTarget.value != "" {
        screen := Redirect(redirectTarget.value);
        redirectTarget := None;
        return;
      }
      if (!countyView && modelDatas.None?) || (countyView && selectedCounty.Some? && modelDatas.None?) {
        screen := Loading;
        return;
      }
      screen := Page(showModel, interventions, NoDataFor(selectedCounty, modelDatas));
    }
  }
}
