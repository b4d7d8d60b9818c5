/**
 * The enable / fragment-visibility state kept by every plugin
 * (`PluginBase`): a three-valued state, a visibility flag and the queries
 * that combine them with the plugin's static description.
 */
module PluginBase {

  datatype PluginType =
    | GENERAL | SENSITIVITY | PROFILE | APS | PUMP | CONSTRAINTS
    | LOOP | BGSOURCE | INSULIN | SYNC | SMOOTHING

  /** `PluginType.name`, as used in preference keys. */
  function TypeName(t: PluginType): string
  {
    match t
    case GENERAL => "GENERAL"
    case SENSITIVITY => "SENSITIVITY"
    case PROFILE => "PROFILE"
    case APS => "APS"
    case PUMP => "PUMP"
    case CONSTRAINTS => "CONSTRAINTS"
    case LOOP => "LOOP"
    case BGSOURCE => "BGSOURCE"
    case INSULIN => "INSULIN"
    case SYNC => "SYNC"
    case SMOOTHING => "SMOOTHING"
  }

  datatype State = NOT_INITIALIZED | ENABLED | DISABLED

  /** The plugin-category interfaces the plugin registry is queried by. */
  datatype Interface = InsulinI | SensitivityI | SmoothingI | ApsI | ProfileSourceI | BgSourceI | PumpI | NsClientI

  /**
   * The static description of a plugin, together with the values of its
   * overridable hooks (`specialEnableCondition`, `specialShowInListCondition`,
   * the `showInList` lambda), its display name, its class's simple name and
   * the category interfaces it implements.
   */
  datatype PluginDescription = PluginDescription(
    mainType: PluginType,
    alwaysEnabled: bool,
    alwaysVisible: bool,
    neverVisible: bool,
    enableByDefault: bool,
    visibleByDefault: bool,
    showInList: bool,
    specialEnableCondition: bool,
    specialShowInListCondition: bool,
    name: string,
    className: string,
    interfaces: set<Interface>)

  /** Which lifecycle hook a call to `setPluginEnabled` fired. */
  datatype Lifecycle = NoHook | Started | Stopped

  /** The state `setPluginEnabled(type, newState)` leaves behind. */
  function NextState(d: PluginDescription, s: State, t: PluginType, newState: bool): (r: State)
    ensures t != d.mainType ==> r == s
    ensures t == d.mainType && newState ==> r == ENABLED
    ensures t == d.mainType && !newState ==> r == (if s == ENABLED then DISABLED else s)
  {
    if t != d.mainType then s
    else if newState then ENABLED
    else if s == ENABLED then DISABLED
    else s
  }

  /** The visibility flag `setFragmentVisible(type, visible)` leaves behind. */
  function NextVisible(d: PluginDescription, v: bool, t: PluginType, visible: bool): bool
  {
    if t == d.mainType then visible && d.specialEnableCondition else v
  }

  /**
   * `isEnabled(type)` of a plugin described by `d` in state `s`: the main type
   * is enabled when always-enabled, or when ENABLED and the special condition
   * holds; a CONSTRAINTS query is always true for constraint plugins and
   * follows the main type for pumps and APS, and is false for everything else.
   */
  function IsEnabledFor(d: PluginDescription, s: State, t: PluginType): (r: bool)
    ensures t == d.mainType ==>
              (r <==> d.alwaysEnabled || t == CONSTRAINTS || (s == ENABLED && d.specialEnableCondition))
    ensures t != d.mainType ==>
              (r <==> t == CONSTRAINTS && d.mainType in {PUMP, APS} &&
                      (d.alwaysEnabled || (s == ENABLED && d.specialEnableCondition)))
    decreases if t == d.mainType then 0 else 1
  {
    if d.alwaysEnabled && t == d.mainType then true
    else if d.mainType == CONSTRAINTS && t == CONSTRAINTS then true
    else if t == d.mainType then s == ENABLED && d.specialEnableCondition
    else if t == CONSTRAINTS && d.mainType == PUMP && IsEnabledFor(d, s, PUMP) then true
    else t == CONSTRAINTS && d.mainType == APS && IsEnabledFor(d, s, APS)
  }

  /** `isFragmentVisible()`: always-visible wins over never-visible, which wins over the stored flag. */
  function FragmentVisibleFor(d: PluginDescription, fragmentVisible: bool): (r: bool)
    ensures d.alwaysVisible ==> r
    ensures !d.alwaysVisible && d.neverVisible ==> !r
    ensures !d.alwaysVisible && !d.neverVisible ==> r == fragmentVisible
  {
    if d.alwaysVisible then true
    else if d.neverVisible then false
    else fragmentVisible
  }

  class Plugin {
    const description: PluginDescription
    var state: State
    var fragmentVisible: bool

    constructor (d: PluginDescription)
      ensures description == d
      ensures state == NOT_INITIALIZED && !fragmentVisible
    {
      description := d;
      state := NOT_INITIALIZED;
      fragmentVisible := false;
    }

    function Name(): string
    {
      description.name
    }

    /** `isEnabled(type)`, on the plugin's own state. */
    function IsEnabled(t: PluginType): bool
      reads this
    {
      IsEnabledFor(description, state, t)
    }

    /** `isEnabled()`, the query in the plugin's own type. */
    function IsEnabledMain(): bool
      reads this
    {
      IsEnabled(description.mainType)
    }

    /**
     * `setPluginEnabled(type, newState)`: only a query in the main type has an
     * effect; enabling a non-ENABLED plugin starts it, disabling an ENABLED one
     * stops it, anything else changes nothing and fires no hook.
     */
    method SetPluginEnabled(t: PluginType, newState: bool) returns (hook: Lifecycle)
      modifies this
      ensures state == NextState(description, old(state), t, newState)
      ensures fragmentVisible == old(fragmentVisible)
      ensures hook == Started <==> t == description.mainType && newState && old(state) != ENABLED
      ensures hook == Stopped <==> t == description.mainType && !newState && old(state) == ENABLED
    {
      hook := NoHook;
      if t == description.mainType {
        if newState {
          if state != ENABLED {
            state := ENABLED;
            hook := Started;
          }
        } else {
          if state == ENABLED {
            state := DISABLED;
            hook := Stopped;
          }
        }
      }
    }

    /** `setFragmentVisible(type, visible)`: stores `visible && specialEnableCondition` for the main type only. */
    method SetFragmentVisible(t: PluginType, visible: bool)
      modifies this
      ensures fragmentVisible == NextVisible(description, old(fragmentVisible), t, visible)
      ensures state == old(state)
    {
      if t == description.mainType {
        fragmentVisible := visible && description.specialEnableCondition;
      }
    }

    /** `isFragmentVisible()`, on the plugin's own flag. */
    function IsFragmentVisible(): bool
      reads this
    {
      FragmentVisibleFor(description, fragmentVisible)
    }

    /** `showInList(type)`: listed only under its main type, and then as the two hooks say. */
    function ShowInList(t: PluginType): (r: bool)
      ensures r ==> t == description.mainType
      ensures t == description.mainType ==>
                (r <==> description.showInList && description.specialShowInListCondition)
    {
      description.mainType == t && description.showInList && description.specialShowInListCondition
    }
  }

  /** A fresh plugin is enabled in its main type only when it is always enabled (or a constraint plugin). */
  lemma FreshPluginNotEnabled(p: Plugin)
    requires p.state == NOT_INITIALIZED
    ensures p.IsEnabledMain() <==> p.description.alwaysEnabled || p.description.mainType == CONSTRAINTS
  {
  }

  /** Enabling twice is the same as enabling once; disabling likewise. */
  lemma SetEnabledIdempotent(d: PluginDescription, s: State, t: PluginType, b: bool)
    ensures NextState(d, NextState(d, s, t, b), t, b) == NextState(d, s, t, b)
  {
  }

  /** An ENABLED plugin is enabled in its main type, and in CONSTRAINTS exactly when it is a pump, APS or constraint plugin. */
  lemma EnabledPluginQueries(p: Plugin)
    requires p.state == ENABLED
    requires p.description.specialEnableCondition
    ensures p.IsEnabledMain() && p.IsEnabled(CONSTRAINTS) == (p.description.mainType in {PUMP, APS, CONSTRAINTS})
  {
  }
}
