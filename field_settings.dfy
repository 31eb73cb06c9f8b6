/**
 * The plugin's own field settings: which ACF field types get them
 * (`action_add_acf_actions`) and the three settings rendered into ACF's field
 * editor (`render_field_settings`).
 */
module FieldSettings {
  import opened Optional
  import opened PhpValues
  import opened OrderedMaps
  import opened Hooks

  /** ACF_SETTING_NAME. */
  const SettingName: string := "admin_column"

  /** The field types that get no column settings unless the exclusion filter says otherwise. */
  const DefaultExcludedTypes: seq<string> :=
    ["accordion", "clone", "flexible_content", "google_map", "group", "message", "repeater", "tab"]

  /** The key of a field-type registry entry as a PHP value. */
  function KeyValue(k: Key): Value
  {
    match k
    case IntKey(i) => Int(i)
    case StrKey(s) => Str(s)
  }

  /** `in_array($type, $exclude)`. */
  predicate Excluded(t: Key, exclude: seq<string>)
  {
    exists i :: 0 <= i < |exclude| && LooseEqualsString(KeyValue(t), exclude[i])
  }

  /** The `add_action('acf/render_field_settings/type=' . $type, …, 1)` call for one field type. */
  function SettingsHook(t: Key): Hook
  {
    Hook(Action, "acf/render_field_settings/type=" + ToStr(KeyValue(t)), Callback.RenderFieldSettings, 1, 1)
  }

  /** The field types of a grouped registry (category => type => label), in order; a non-array category has none. */
  function GroupedTypes(sections: seq<(Key, Value)>): seq<Key>
  {
    if sections == [] then []
    else
      var last := sections[|sections| - 1].1;
      GroupedTypes(sections[..|sections| - 1]) + (if last.Arr? then Keys(last.entries) else [])
  }

  /**
   * The field types `action_add_acf_actions` iterates: the inner keys for the ACF
   * versions whose registry is grouped by category, the outer keys otherwise.
   */
  function FieldTypes(grouped: bool, sections: seq<(Key, Value)>): seq<Key>
  {
    if grouped then GroupedTypes(sections) else Keys(sections)
  }

  /** One settings hook per type that is not excluded, in order. */
  function SettingsHooks(types: seq<Key>, exclude: seq<string>): seq<Hook>
  {
    if types == [] then []
    else
      var t := types[|types| - 1];
      SettingsHooks(types[..|types| - 1], exclude) + (if Excluded(t, exclude) then [] else [SettingsHook(t)])
  }

  lemma GroupedTypesStep(sections: seq<(Key, Value)>, i: nat)
    requires i < |sections|
    ensures GroupedTypes(sections[..i + 1]) ==
            GroupedTypes(sections[..i]) + (if sections[i].1.Arr? then Keys(sections[i].1.entries) else [])
  {
    assert sections[..i + 1][..i] == sections[..i];
  }

  lemma SettingsHooksStep(types: seq<Key>, t: Key, exclude: seq<string>)
    ensures SettingsHooks(types + [t], exclude) ==
            SettingsHooks(types, exclude) + (if Excluded(t, exclude) then [] else [SettingsHook(t)])
  {
    assert (types + [t])[..|types|] == types;
  }

  /**
   * One `foreach ($types as $type => …)` loop of `action_add_acf_actions` (lines
   * 83-87, and 91-95 on the flat registry): every key of `entries` that is not
   * excluded gets its settings hook, appended to the `hooks` attached for the
   * types `before` already visited.
   */
  method AddSettingsHooks(hooks: seq<Hook>, entries: seq<(Key, Value)>, exclude: seq<string>, ghost before: seq<Key>)
    returns (r: seq<Hook>)
    requires hooks == SettingsHooks(before, exclude)
    ensures r == SettingsHooks(before + Keys(entries), exclude)
  {
    r := hooks;
    assert entries[..0] == [] && before + Keys(entries[..0]) == before;
    for j := 0 to |entries|
      invariant r == SettingsHooks(before + Keys(entries[..j]), exclude)
    {
      var t := entries[j].0;
      SettingsHooksNextKey(before, entries, j, exclude);
      if !Excluded(t, exclude) {
        r := r + [SettingsHook(t)];
      }
    }
    assert entries[..|entries|] == entries;
  }

  /** One more key of `entries` visited by the loop of `AddSettingsHooks`. */
  lemma SettingsHooksNextKey(before: seq<Key>, entries: seq<(Key, Value)>, j: nat, exclude: seq<string>)
    requires j < |entries|
    ensures SettingsHooks(before + Keys(entries[..j + 1]), exclude) ==
            SettingsHooks(before + Keys(entries[..j]), exclude)
              + (if Excluded(entries[j].0, exclude) then [] else [SettingsHook(entries[j].0)])
  {
    assert entries[..j + 1] == entries[..j] + [entries[j]];
    KeysAppend(entries[..j], entries[j]);
    assert before + Keys(entries[..j + 1]) == (before + Keys(entries[..j])) + [entries[j].0];
    SettingsHooksStep(before + Keys(entries[..j]), entries[j].0, exclude);
  }

  /** `h` is the settings hook that type `t` gets, and `t` is not excluded. */
  predicate HookFor(t: Key, exclude: seq<string>, h: Hook)
  {
    !Excluded(t, exclude) && h == SettingsHook(t)
  }

  /** Exactly the types outside the exclusion list get the settings hook. */
  lemma {:induction false} SettingsHooksSpec(types: seq<Key>, exclude: seq<string>, h: Hook)
    ensures h in SettingsHooks(types, exclude) <==> exists i :: 0 <= i < |types| && HookFor(types[i], exclude, h)
  {
    if types != [] {
      var init, t := types[..|types| - 1], types[|types| - 1];
      SettingsHooksSpec(init, exclude, h);
      assert SettingsHooks(types, exclude) == SettingsHooks(init, exclude) + (if Excluded(t, exclude) then [] else [SettingsHook(t)]);
      assert h in SettingsHooks(types, exclude) <==> h in SettingsHooks(init, exclude) || HookFor(t, exclude, h);
      if exists i :: 0 <= i < |types| && HookFor(types[i], exclude, h) {
        var i :| 0 <= i < |types| && HookFor(types[i], exclude, h);
        if i < |init| {
          assert init[i] == types[i];
        }
      }
      if exists i :: 0 <= i < |init| && HookFor(init[i], exclude, h) {
        var i :| 0 <= i < |init| && HookFor(init[i], exclude, h);
        assert types[i] == init[i];
      }
    }
  }

  /** Only the string key "repeater" is written as "repeater": an integer key prints as digits. */
  lemma KeyNamedRepeater(t: Key)
    ensures ToStr(KeyValue(t)) == "repeater" ==> t == StrKey("repeater")
  {
    if t.IntKey? {
      var s := DecimalString(t.i);
      assert s[0] == '-' || IsDigit(s[0]);
    }
  }

  /** With the exclusion filter left alone, a repeater (or any other default exclusion) gets no settings. */
  lemma RepeaterGetsNoSettings(types: seq<Key>)
    ensures SettingsHook(StrKey("repeater")) !in SettingsHooks(types, DefaultExcludedTypes)
  {
    var h := SettingsHook(StrKey("repeater"));
    var prefix := "acf/render_field_settings/type=";
    SettingsHooksSpec(types, DefaultExcludedTypes, h);
    forall i | 0 <= i < |types| && h == SettingsHook(types[i])
      ensures !HookFor(types[i], DefaultExcludedTypes, h)
    {
      var t := types[i];
      assert (prefix + ToStr(KeyValue(t)))[|prefix|..] == ToStr(KeyValue(t));
      assert (prefix + "repeater")[|prefix|..] == "repeater";
      KeyNamedRepeater(t);
      assert LooseEqualsString(KeyValue(t), DefaultExcludedTypes[6]);
    }
  }

  /** One setting passed to `acf_render_field_setting`. */
  datatype Setting = Setting(
    fieldType: string,
    name: string,
    title: string,
    choices: seq<(string, Value)>,
    defaultValue: Option<Value>,
    cssClass: string
  )

  /** The CSS class every setting receives from the loop of lines 453-457. */
  function SettingClass(name: string): string
  {
    "aac-field-settings-" + name
  }

  /** Lines 421-425: the post types offered, with a set `attachment` entry unset. */
  function PostTypeChoices(postTypes: seq<(string, Value)>): seq<(string, Value)>
  {
    if Isset(Get(postTypes, "attachment")) then Remove(postTypes, "attachment") else postTypes
  }

  /**
   * `render_field_settings`: the enabled switch, then the post-type and the taxonomy
   * checkbox lists. `postTypes` is what `get_post_types` offers, `taxonomies` what
   * `get_taxonomies` offers.
   */
  function RenderFieldSettings(postTypes: seq<(string, Value)>, taxonomies: seq<(string, Value)>): (r: seq<Setting>)
    ensures |r| == 3
    ensures r[0].name == SettingName + "_enabled" && r[0].fieldType == "true_false"
    ensures r[1].name == SettingName + "_post_types" && r[2].name == SettingName + "_taxonomies"
    ensures r[1].fieldType == "checkbox" && r[2].fieldType == "checkbox"
    ensures r[1].choices == PostTypeChoices(postTypes)
    ensures r[2].choices == taxonomies
    ensures r[1].defaultValue == Some(Int(1)) && r[2].defaultValue == Some(Int(1))
    ensures forall i :: 0 <= i < 3 ==> r[i].cssClass == SettingClass(r[i].name)
  {
    var enabledName := SettingName + "_enabled";
    var postTypesName := SettingName + "_post_types";
    var taxonomiesName := SettingName + "_taxonomies";
    [ Setting("true_false", enabledName, "Admin Column", [], None, SettingClass(enabledName)),
      Setting("checkbox", postTypesName, "Admin Column Post Types", PostTypeChoices(postTypes),
              Some(Int(1)), SettingClass(postTypesName)),
      Setting("checkbox", taxonomiesName, "Admin Column Taxonomies", taxonomies,
              Some(Int(1)), SettingClass(taxonomiesName)) ]
  }

  /**
   * Lines 423-425: the media post type `attachment` is never offered as a post-type
   * choice; only an `attachment` entry whose value is null, which `isset` does not
   * see, survives the `unset`. Every other post type is offered with its label.
   */
  lemma AttachmentNeverOffered(postTypes: seq<(string, Value)>, taxonomies: seq<(string, Value)>)
    requires UniqueKeys(postTypes)
    ensures forall v :: ("attachment", v) in RenderFieldSettings(postTypes, taxonomies)[1].choices ==> v == Null
    ensures forall p :: p in postTypes && p.0 != "attachment" ==> p in RenderFieldSettings(postTypes, taxonomies)[1].choices
  {
    var choices := PostTypeChoices(postTypes);
    if !Isset(Get(postTypes, "attachment")) {
      forall v | ("attachment", v) in choices ensures v == Null {
        GetEntry(postTypes, "attachment", v);
      }
    }
  }
}
