/**
 * The configuration builder: persists each plugin's enabled/visible flags
 * under per-plugin preference keys, restores them, and keeps at most one
 * plugin enabled in each exclusive category.
 */
module ConfigBuilder {
  import opened Wrappers
  import opened PluginBase

  /** Categories in which several plugins may be enabled at once. */
  function AreMultipleSelectionsAllowed(t: PluginType): (r: bool)
    ensures r <==> t in {GENERAL, CONSTRAINTS, LOOP, SYNC}
  {
    t == GENERAL || t == CONSTRAINTS || t == LOOP || t == SYNC
  }

  /** The interface the category list of `type` is looked up by; the NsClient case applies to any remaining type. */
  function CategoryInterface(changedIsNsClient: bool, t: PluginType): Option<Interface>
  {
    match t
    case INSULIN => Some(InsulinI)
    case SENSITIVITY => Some(SensitivityI)
    case SMOOTHING => Some(SmoothingI)
    case APS => Some(ApsI)
    case PROFILE => Some(ProfileSourceI)
    case BGSOURCE => Some(BgSourceI)
    case PUMP => Some(PumpI)
    case _ => if changedIsNsClient then Some(NsClientI) else None
  }

  /** Exactly the exclusive categories have a category list of their own (the NsClient rule aside). */
  lemma ExclusiveCategoriesHaveList(t: PluginType)
    ensures CategoryInterface(false, t).Some? <==> !AreMultipleSelectionsAllowed(t)
    ensures AreMultipleSelectionsAllowed(t) ==> CategoryInterface(true, t) == Some(NsClientI)
  {
  }

  /** `getSpecificPluginsListByInterface`: the registered plugins implementing `i`, in registry order. */
  function PluginsImplementing(ps: seq<Plugin>, i: Interface): (r: seq<Plugin>)
    ensures forall k :: 0 <= k < |r| ==> r[k] in ps && i in r[k].description.interfaces
    ensures forall k :: 0 <= k < |ps| && i in ps[k].description.interfaces ==> ps[k] in r
  {
    if ps == [] then []
    else if i in ps[0].description.interfaces then [ps[0]] + PluginsImplementing(ps[1..], i)
    else PluginsImplementing(ps[1..], i)
  }

  /* ---------------- preference keys ---------------- */

  function EnabledKey(t: PluginType, className: string): string
  {
    "ConfigBuilder_" + TypeName(t) + "_" + className + "_Enabled"
  }

  function VisibleKey(t: PluginType, className: string): string
  {
    "ConfigBuilder_" + TypeName(t) + "_" + className + "_Visible"
  }

  lemma TypeNameHasNoUnderscore(t: PluginType)
    ensures '_' !in TypeName(t) && |TypeName(t)| > 0
  {
  }

  lemma TypeNameInjective(t1: PluginType, t2: PluginType)
    requires TypeName(t1) == TypeName(t2)
    ensures t1 == t2
  {
  }

  /** A word without underscores followed by an underscore-led rest splits uniquely. */
  lemma SplitAtUnderscore(n1: string, r1: string, n2: string, r2: string)
    requires '_' !in n1 && '_' !in n2
    requires |r1| > 0 && |r2| > 0 && r1[0] == '_' && r2[0] == '_'
    requires n1 + r1 == n2 + r2
    ensures n1 == n2 && r1 == r2
  {
    var k := n1 + r1;
    assert n1 == k[..|n1|] && n2 == k[..|n2|];
    assert r1 == k[|n1|..] && r2 == k[|n2|..];
  }

  /** Keys built as `pre + name + "_" + className + suf`, with an underscore-free name, determine name and class name. */
  lemma {:induction false} KeyInjective(pre: string, suf: string, n1: string, c1: string, n2: string, c2: string)
    requires '_' !in n1 && '_' !in n2
    requires pre + n1 + "_" + c1 + suf == pre + n2 + "_" + c2 + suf
    ensures n1 == n2 && c1 == c2
  {
    var k := pre + n1 + "_" + c1 + suf;
    var r1, r2 := "_" + c1 + suf, "_" + c2 + suf;
    assert k == pre + (n1 + r1);
    assert k == pre + (n2 + r2);
    assert n1 + r1 == k[|pre|..] == n2 + r2;
    SplitAtUnderscore(n1, r1, n2, r2);
    assert c1 == r1[1..|r1| - |suf|];
    assert c2 == r2[1..|r2| - |suf|];
  }

  /** Two plugins share an enabled key only if they share main type and class name. */
  lemma EnabledKeyInjective(t1: PluginType, c1: string, t2: PluginType, c2: string)
    requires EnabledKey(t1, c1) == EnabledKey(t2, c2)
    ensures t1 == t2 && c1 == c2
  {
    TypeNameHasNoUnderscore(t1);
    TypeNameHasNoUnderscore(t2);
    KeyInjective("ConfigBuilder_", "_Enabled", TypeName(t1), c1, TypeName(t2), c2);
    TypeNameInjective(t1, t2);
  }

  /** Likewise for visible keys. */
  lemma EnabledKeyInjectiveVisible(t1: PluginType, c1: string, t2: PluginType, c2: string)
    requires VisibleKey(t1, c1) == VisibleKey(t2, c2)
    ensures t1 == t2 && c1 == c2
  {
    TypeNameHasNoUnderscore(t1);
    TypeNameHasNoUnderscore(t2);
    KeyInjective("ConfigBuilder_", "_Visible", TypeName(t1), c1, TypeName(t2), c2);
    TypeNameInjective(t1, t2);
  }

  /** An enabled key is never a visible key. */
  lemma EnabledKeyNotVisibleKey(t1: PluginType, c1: string, t2: PluginType, c2: string)
    ensures EnabledKey(t1, c1) != VisibleKey(t2, c2)
  {
    var e, v := EnabledKey(t1, c1), VisibleKey(t2, c2);
    assert e[|e| - 1] == 'd';
    assert v[|v| - 1] == 'e';
  }

  /* ---------------- store and load ---------------- */

  /** Plugins whose flags are never stored: always enabled and always or never visible. */
  predicate SkipsStore(d: PluginDescription)
  {
    d.alwaysEnabled && (d.alwaysVisible || d.neverVisible)
  }

  /** `savePref`: the plugin's `isEnabled()` and `isFragmentVisible()` under its two keys. */
  function SavePref(sp: map<string, bool>, d: PluginDescription, s: State, fragmentVisible: bool): (r: map<string, bool>)
  {
    sp[EnabledKey(d.mainType, d.className) := IsEnabledFor(d, s, d.mainType)]
      [VisibleKey(d.mainType, d.className) := FragmentVisibleFor(d, fragmentVisible)]
  }

  /** The preferences after `storeSettings` walked the plugin list `ps` in order. */
  function Stored(sp: map<string, bool>, ps: seq<Plugin>): map<string, bool>
    reads ps
  {
    if ps == [] then sp
    else
      var last := ps[|ps| - 1];
      var before := Stored(sp, ps[..|ps| - 1]);
      if SkipsStore(last.description) then before
      else SavePref(before, last.description, last.state, last.fragmentVisible)
  }

  predicate SameKeyOwner(p: Plugin, q: Plugin)
  {
    p.description.mainType == q.description.mainType && p.description.className == q.description.className
  }

  /**
   * After storing, a stored plugin's keys hold its current flags, unless a
   * later stored plugin of the same type and class name overwrote them.
   */
  lemma {:induction false} StoredFlags(sp: map<string, bool>, ps: seq<Plugin>, i: nat)
    requires i < |ps| && !SkipsStore(ps[i].description)
    requires forall j :: i < j < |ps| && !SkipsStore(ps[j].description) ==> !SameKeyOwner(ps[j], ps[i])
    ensures var d := ps[i].description;
            var m := Stored(sp, ps);
            EnabledKey(d.mainType, d.className) in m && VisibleKey(d.mainType, d.className) in m &&
            m[EnabledKey(d.mainType, d.className)] == ps[i].IsEnabled(d.mainType) &&
            m[VisibleKey(d.mainType, d.className)] == ps[i].IsFragmentVisible()
  {
    var d := ps[i].description;
    var last := ps[|ps| - 1];
    var ld := last.description;
    EnabledKeyNotVisibleKey(d.mainType, d.className, d.mainType, d.className);
    if i < |ps| - 1 {
      var prefix := ps[..|ps| - 1];
      assert prefix[i] == ps[i];
      StoredFlags(sp, prefix, i);
      if !SkipsStore(ld) {
        assert !SameKeyOwner(last, ps[i]);
        if EnabledKey(ld.mainType, ld.className) == EnabledKey(d.mainType, d.className) {
          EnabledKeyInjective(ld.mainType, ld.className, d.mainType, d.className);
        }
        if VisibleKey(ld.mainType, ld.className) == VisibleKey(d.mainType, d.className) {
          EnabledKeyInjectiveVisible(ld.mainType, ld.className, d.mainType, d.className);
        }
        EnabledKeyNotVisibleKey(d.mainType, d.className, ld.mainType, ld.className);
        EnabledKeyNotVisibleKey(ld.mainType, ld.className, d.mainType, d.className);
      }
    }
  }

  /** A key that belongs to no stored plugin keeps its value. */
  lemma {:induction false} StoredLeavesOtherKeys(sp: map<string, bool>, ps: seq<Plugin>, key: string)
    requires forall p :: p in ps && !SkipsStore(p.description) ==>
               key != EnabledKey(p.description.mainType, p.description.className) &&
               key != VisibleKey(p.description.mainType, p.description.className)
    ensures key in Stored(sp, ps) <==> key in sp
    ensures key in sp ==> Stored(sp, ps)[key] == sp[key]
  {
    if ps != [] {
      StoredLeavesOtherKeys(sp, ps[..|ps| - 1], key);
    }
  }

  /** What `loadPref` leaves as the state of a plugin described by `d` and in state `s`. */
  function LoadedState(sp: map<string, bool>, d: PluginDescription, s: State): State
  {
    var ek := EnabledKey(d.mainType, d.className);
    if ek in sp then NextState(d, s, d.mainType, sp[ek])
    else if d.enableByDefault || d.alwaysEnabled then NextState(d, s, d.mainType, true)
    else s
  }

  /** What `loadPref` leaves as the visibility flag: a stored visibility counts only together with a stored enabled flag. */
  function LoadedVisible(sp: map<string, bool>, d: PluginDescription, fragmentVisible: bool): bool
  {
    var ek := EnabledKey(d.mainType, d.className);
    var vk := VisibleKey(d.mainType, d.className);
    if vk in sp then NextVisible(d, fragmentVisible, d.mainType, sp[vk] && ek in sp && sp[ek])
    else if d.visibleByDefault then NextVisible(d, fragmentVisible, d.mainType, true)
    else fragmentVisible
  }

  /**
   * Storing a plugin's flags and loading them into a fresh plugin of the same
   * description restores whether it is enabled, and its visibility when that
   * was set through `setFragmentVisible` and the plugin is visible only while enabled.
   */
  lemma LoadAfterStore(sp: map<string, bool>, d: PluginDescription, s: State, fragmentVisible: bool)
    requires !SkipsStore(d)
    requires fragmentVisible ==> d.specialEnableCondition && IsEnabledFor(d, s, d.mainType)
    ensures var m := SavePref(sp, d, s, fragmentVisible);
            IsEnabledFor(d, LoadedState(m, d, NOT_INITIALIZED), d.mainType) == IsEnabledFor(d, s, d.mainType) &&
            FragmentVisibleFor(d, LoadedVisible(m, d, false)) == FragmentVisibleFor(d, fragmentVisible)
  {
    EnabledKeyNotVisibleKey(d.mainType, d.className, d.mainType, d.className);
  }

  /** Result of a call that may index an empty category list. */
  datatype Outcome = Done | IndexOutOfBounds

  class ConfigBuilderPlugin {
    /** `activePlugin.getPluginsList()`, in registry order. */
    const plugins: seq<Plugin>
    /** The shared preferences' boolean entries. */
    var sp: map<string, bool>

    constructor (registry: seq<Plugin>, prefs: map<string, bool>)
      ensures plugins == registry && sp == prefs
    {
      plugins := registry;
      sp := prefs;
    }

    /** `storeSettings`: `savePref` for every plugin not skipped, in registry order. */
    method StoreSettings()
      modifies this`sp
      ensures sp == Stored(old(sp), plugins)
    {
      var i := 0;
      while i < |plugins|
        invariant 0 <= i <= |plugins|
        invariant sp == Stored(old(sp), plugins[..i])
      {
        var p := plugins[i];
        assert plugins[..i + 1][..i] == plugins[..i];
        if !SkipsStore(p.description) {
          sp := SavePref(sp, p.description, p.state, p.fragmentVisible);
        }
        i := i + 1;
      }
      assert plugins[..|plugins|] == plugins;
    }

    /** `loadPref(p, p.getType())`: stored flags win, the description's defaults apply otherwise. */
    method LoadPref(p: Plugin)
      modifies p
      ensures p.state == LoadedState(sp, p.description, old(p.state))
      ensures p.fragmentVisible == LoadedVisible(sp, p.description, old(p.fragmentVisible))
    {
      var t := p.description.mainType;
      var settingEnabled := EnabledKey(t, p.description.className);
      var hook;
      if settingEnabled in sp {
        hook := p.SetPluginEnabled(t, sp[settingEnabled]);
      } else if p.description.enableByDefault || p.description.alwaysEnabled {
        hook := p.SetPluginEnabled(t, true);
      }
      var settingVisible := VisibleKey(t, p.description.className);
      if settingVisible in sp {
        var storedEnabled := if settingEnabled in sp then sp[settingEnabled] else false;
        p.SetFragmentVisible(t, sp[settingVisible] && storedEnabled);
      } else if p.description.visibleByDefault {
        p.SetFragmentVisible(t, true);
      }
    }

    /**
     * The loop over the category when a plugin was enabled: every other
     * plugin of the list (compared by name) is disabled and hidden for `t`.
     */
    method DisableOthers(inCategory: seq<Plugin>, name: string, t: PluginType)
      modifies set p | p in inCategory
      ensures forall p :: p in inCategory ==>
                if p.Name() != name then
                  p.state == NextState(p.description, old(p.state), t, false) &&
                  p.fragmentVisible == NextVisible(p.description, old(p.fragmentVisible), t, false)
                else
                  p.state == old(p.state) && p.fragmentVisible == old(p.fragmentVisible)
    {
      for i := 0 to |inCategory|
        invariant forall p :: p in inCategory ==>
                    if p in inCategory[..i] && p.Name() != name then
                      p.state == NextState(p.description, old(p.state), t, false) &&
                      p.fragmentVisible == NextVisible(p.description, old(p.fragmentVisible), t, false)
                    else
                      p.state == old(p.state) && p.fragmentVisible == old(p.fragmentVisible)
      {
        var p := inCategory[i];
        if p.Name() != name {
          var hook := p.SetPluginEnabled(t, false);
          p.SetFragmentVisible(t, false);
        }
        assert inCategory[..i + 1] == inCategory[..i] + [p];
      }
      assert inCategory[..|inCategory|] == inCategory;
    }

    /**
     * `processOnEnabledCategoryChanged`: if the changed plugin is now enabled
     * in `t`, every other plugin of its category (compared by name) is disabled
     * and hidden; if it is disabled and `t` is not SYNC, the first plugin of the
     * category is enabled (an empty category list fails on the index).
     */
    method ProcessOnEnabledCategoryChanged(changed: Plugin, t: PluginType) returns (outcome: Outcome)
      modifies plugins
      ensures var cat := CategoryInterface(NsClientI in changed.description.interfaces, t);
              var newSelection := old(changed.IsEnabled(t));
              (outcome == IndexOutOfBounds <==>
                 cat.Some? && !newSelection && t != SYNC && PluginsImplementing(plugins, cat.value) == []) &&
              forall p :: p in plugins ==>
                if cat.Some? && newSelection && p in PluginsImplementing(plugins, cat.value) &&
                   p.Name() != changed.Name() then
                  p.state == NextState(p.description, old(p.state), t, false) &&
                  p.fragmentVisible == NextVisible(p.description, old(p.fragmentVisible), t, false)
                else if cat.Some? && !newSelection && t != SYNC && PluginsImplementing(plugins, cat.value) != [] &&
                        p == PluginsImplementing(plugins, cat.value)[0] then
                  p.state == NextState(p.description, old(p.state), t, true) &&
                  p.fragmentVisible == old(p.fragmentVisible)
                else
                  p.state == old(p.state) && p.fragmentVisible == old(p.fragmentVisible)
    {
      outcome := Done;
      var cat := CategoryInterface(NsClientI in changed.description.interfaces, t);
      if cat.None? {
        return;
      }
      var inCategory := PluginsImplementing(plugins, cat.value);
      var newSelection := changed.IsEnabled(t);
      if newSelection {
        DisableOthers(inCategory, changed.Name(), t);
      } else if t != SYNC {
        if |inCategory| == 0 {
          return IndexOutOfBounds;
        }
        var hook := inCategory[0].SetPluginEnabled(t, true);
      }
    }

    /**
     * `performPluginSwitch`: set the changed plugin enabled and visible as
     * requested, enforce category exclusivity, then store the settings.
     */
    method PerformPluginSwitch(changed: Plugin, enabled: bool, t: PluginType) returns (outcome: Outcome)
      modifies this`sp, changed, plugins
      ensures var d := changed.description;
              var cat := CategoryInterface(NsClientI in d.interfaces, t);
              var newSelection := IsEnabledFor(d, NextState(d, old(changed.state), t, enabled), t);
              outcome == IndexOutOfBounds <==>
                cat.Some? && !newSelection && t != SYNC && PluginsImplementing(plugins, cat.value) == []
      ensures var d := changed.description;
              var cat := CategoryInterface(NsClientI in d.interfaces, t);
              var switched := NextState(d, old(changed.state), t, enabled);
              var switchedVisible := NextVisible(d, old(changed.fragmentVisible), t, enabled);
              var newSelection := IsEnabledFor(d, switched, t);
              changed.fragmentVisible == switchedVisible &&
              if cat.Some? && !newSelection && t != SYNC && PluginsImplementing(plugins, cat.value) != [] &&
                 changed == PluginsImplementing(plugins, cat.value)[0] then
                changed.state == NextState(d, switched, t, true)
              else
                changed.state == switched
      ensures var d := changed.description;
              var cat := CategoryInterface(NsClientI in d.interfaces, t);
              var newSelection := IsEnabledFor(d, NextState(d, old(changed.state), t, enabled), t);
              forall p :: p in plugins && p != changed ==>
                if cat.Some? && newSelection && p in PluginsImplementing(plugins, cat.value) && p.Name() != changed.Name() then
                  p.state == NextState(p.description, old(p.state), t, false) &&
                  p.fragmentVisible == NextVisible(p.description, old(p.fragmentVisible), t, false)
                else if cat.Some? && !newSelection && t != SYNC && PluginsImplementing(plugins, cat.value) != [] &&
                        p == PluginsImplementing(plugins, cat.value)[0] then
                  p.state == NextState(p.description, old(p.state), t, true) && p.fragmentVisible == old(p.fragmentVisible)
                else
                  p.state == old(p.state) && p.fragmentVisible == old(p.fragmentVisible)
      ensures outcome == Done ==> sp == Stored(old(sp), plugins)
      ensures outcome == IndexOutOfBounds ==> sp == old(sp)
    {
      var hook := changed.SetPluginEnabled(t, enabled);
      changed.SetFragmentVisible(t, enabled);
      outcome := ProcessOnEnabledCategoryChanged(changed, t);
      if outcome == Done {
        StoreSettings();
      }
    }
  }
}
