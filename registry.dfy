/**
 * Which ACF fields become columns on a list screen, and the column registry that
 * `action_prepare_columns` builds from them: an insertion-ordered map from
 * `"acf_" + name` to the field's label.
 */
module Registry {
  import opened Optional
  import opened PhpValues
  import opened OrderedMaps
  import opened ColumnNames
  import opened Screens

  /** A column list: column identifier to header label, in display order. */
  type Columns = m: seq<(string, string)> | UniqueKeys(m)

  /**
   * An ACF field definition as far as the plugin reads it. The three plugin
   * settings may be missing (`None`) or hold any PHP value.
   */
  datatype Field = Field(
    name: string,
    displayLabel: string,  // label
    enabled: Option<Value>,    // admin_column_enabled
    postTypes: Option<Value>,  // admin_column_post_types
    taxonomies: Option<Value>  // admin_column_taxonomies
  )

  /** An ACF field group, as handed back by `acf_get_field_groups`. */
  datatype FieldGroup = FieldGroup(key: string, title: string)

  /** `isset($field['admin_column_enabled']) && $field['admin_column_enabled'] != false`. */
  predicate Enabled(f: Field)
  {
    Isset(f.enabled) && Truthy(f.enabled.value)
  }

  /**
   * An allow-list setting admits `entity` unless it is unset, or it is an array in
   * which `array_search` does not find `entity`. A setting that is set to a scalar
   * admits everything.
   */
  predicate Allows(list: Option<Value>, entity: string)
  {
    Isset(list) && (list.value.Arr? ==> ArraySearch(entity, list.value.entries).Some?)
  }

  /** The field passes all three `continue` tests of lines 128-137 on screen `s`. */
  predicate Qualifies(f: Field, s: Screen)
  {
    && Enabled(f)
    && (IsTaxonomyIndex(s) ==> Allows(f.taxonomies, s.taxonomy))
    && (IsPostTypeIndex(s) ==> Allows(f.postTypes, s.postType))
  }

  /** The three `continue` tests of lines 128-137, written as the loop body tests them. */
  predicate DroppedAsWritten(f: Field, s: Screen)
  {
    || !Isset(f.enabled) || !Truthy(f.enabled.value)
    || (IsTaxonomyIndex(s) && (!Isset(f.taxonomies) ||
          (f.taxonomies.value.Arr? && ArraySearch(s.taxonomy, f.taxonomies.value.entries).None?)))
    || (IsPostTypeIndex(s) && (!Isset(f.postTypes) ||
          (f.postTypes.value.Arr? && ArraySearch(s.postType, f.postTypes.value.entries).None?)))
  }

  lemma DroppedIffNotQualifies(f: Field, s: Screen)
    ensures DroppedAsWritten(f, s) <==> !Qualifies(f, s)
  {
  }

  /** The fields of `groups`, group by group, as the nested loops visit them. */
  function FieldsOf(groups: seq<FieldGroup>, acfGetFields: FieldGroup -> seq<Field>): seq<Field>
  {
    if groups == [] then []
    else FieldsOf(groups[..|groups| - 1], acfGetFields) + acfGetFields(groups[|groups| - 1])
  }

  /** The registry after visiting `fields` in order, starting from an empty one. */
  function Collect(fields: seq<Field>, s: Screen): Columns
  {
    if fields == [] then []
    else
      var m := Collect(fields[..|fields| - 1], s);
      var f := fields[|fields| - 1];
      if Qualifies(f, s) then Put(m, ColumnKey(f.name), f.displayLabel) else m
  }

  /** One more field visited. */
  lemma CollectStep(fields: seq<Field>, f: Field, s: Screen)
    ensures Collect(fields + [f], s) ==
            if Qualifies(f, s) then Put(Collect(fields, s), ColumnKey(f.name), f.displayLabel) else Collect(fields, s)
  {
    assert (fields + [f])[..|fields|] == fields;
  }

  /** One more group visited. */
  lemma FieldsOfStep(groups: seq<FieldGroup>, acfGetFields: FieldGroup -> seq<Field>, g: nat)
    requires g < |groups|
    ensures FieldsOf(groups[..g + 1], acfGetFields) == FieldsOf(groups[..g], acfGetFields) + acfGetFields(groups[g])
  {
    assert groups[..g + 1][..g] == groups[..g];
  }

  /** The column keys of the qualifying fields, in visiting order, duplicates included. */
  function QualifyingKeys(fields: seq<Field>, s: Screen): seq<string>
  {
    if fields == [] then []
    else
      var f := fields[|fields| - 1];
      QualifyingKeys(fields[..|fields| - 1], s) + (if Qualifies(f, s) then [ColumnKey(f.name)] else [])
  }

  /** `ks` with every repeated key dropped after its first occurrence. */
  function Dedup(ks: seq<string>): seq<string>
  {
    if ks == [] then []
    else
      var init := Dedup(ks[..|ks| - 1]);
      if ks[|ks| - 1] in ks[..|ks| - 1] then init else init + [ks[|ks| - 1]]
  }

  lemma {:induction false} DedupMembers(ks: seq<string>)
    ensures forall k :: k in Dedup(ks) <==> k in ks
  {
    if ks != [] {
      DedupMembers(ks[..|ks| - 1]);
      assert ks == ks[..|ks| - 1] + [ks[|ks| - 1]];
    }
  }

  /**
   * Registry order: the columns appear in the order in which their keys were first
   * assigned; a later field with the same name does not move its column.
   */
  lemma {:induction false} CollectOrder(fields: seq<Field>, s: Screen)
    ensures Keys(Collect(fields, s)) == Dedup(QualifyingKeys(fields, s))
  {
    if fields != [] {
      var init := fields[..|fields| - 1];
      var f := fields[|fields| - 1];
      CollectOrder(init, s);
      DedupMembers(QualifyingKeys(init, s));
      if Qualifies(f, s) {
        var ks := QualifyingKeys(fields, s);
        assert ks == QualifyingKeys(init, s) + [ColumnKey(f.name)];
        assert ks[..|ks| - 1] == QualifyingKeys(init, s);
        assert ks[|ks| - 1] == ColumnKey(f.name);
        assert Dedup(ks) == if ColumnKey(f.name) in QualifyingKeys(init, s)
                            then Dedup(QualifyingKeys(init, s))
                            else Dedup(QualifyingKeys(init, s)) + [ColumnKey(f.name)];
        assert Collect(fields, s) == Put(Collect(init, s), ColumnKey(f.name), f.displayLabel);
      } else {
        assert QualifyingKeys(fields, s) == QualifyingKeys(init, s);
        assert Collect(fields, s) == Collect(init, s);
      }
    }
  }

  /**
   * A column is registered exactly when some visited field that qualifies on the
   * screen has that column key.
   */
  lemma {:induction false} CollectKeys(fields: seq<Field>, s: Screen, k: string)
    ensures k in Keys(Collect(fields, s)) <==>
            exists i :: 0 <= i < |fields| && Qualifies(fields[i], s) && ColumnKey(fields[i].name) == k
  {
    if fields != [] {
      var init := fields[..|fields| - 1];
      CollectKeys(init, s, k);
      if exists i :: 0 <= i < |fields| && Qualifies(fields[i], s) && ColumnKey(fields[i].name) == k {
        var i :| 0 <= i < |fields| && Qualifies(fields[i], s) && ColumnKey(fields[i].name) == k;
        if i < |init| {
          assert init[i] == fields[i];
        }
      }
      if exists i :: 0 <= i < |init| && Qualifies(init[i], s) && ColumnKey(init[i].name) == k {
        var i :| 0 <= i < |init| && Qualifies(init[i], s) && ColumnKey(init[i].name) == k;
        assert fields[i] == init[i];
      }
    }
  }

  /**
   * A registered column's label is the label of the last qualifying field with that
   * key: re-assigning a key overwrites the label.
   */
  lemma {:induction false} CollectLabel(fields: seq<Field>, s: Screen, i: nat)
    requires i < |fields| && Qualifies(fields[i], s)
    requires forall j :: i < j < |fields| && Qualifies(fields[j], s) ==> ColumnKey(fields[j].name) != ColumnKey(fields[i].name)
    ensures Get(Collect(fields, s), ColumnKey(fields[i].name)) == Some(fields[i].displayLabel)
  {
    var init := fields[..|fields| - 1];
    var k := ColumnKey(fields[i].name);
    if i < |init| {
      assert init[i] == fields[i];
      forall j | i < j < |init| && Qualifies(init[j], s) ensures ColumnKey(init[j].name) != k {
        assert init[j] == fields[j];
      }
      CollectLabel(init, s, i);
      CollectKeepsOthers(fields, s, k);
    } else {
      CollectLast(fields, s);
    }
  }

  /** The last field visited, when it qualifies, sets its column's label. */
  lemma CollectLast(fields: seq<Field>, s: Screen)
    requires fields != [] && Qualifies(fields[|fields| - 1], s)
    ensures Get(Collect(fields, s), ColumnKey(fields[|fields| - 1].name)) == Some(fields[|fields| - 1].displayLabel)
  {
    var last := fields[|fields| - 1];
    GetPut(Collect(fields[..|fields| - 1], s), ColumnKey(last.name), last.displayLabel, ColumnKey(last.name));
  }

  /** The last field visited leaves every other column's label alone. */
  lemma CollectKeepsOthers(fields: seq<Field>, s: Screen, k: string)
    requires fields != []
    requires Qualifies(fields[|fields| - 1], s) ==> ColumnKey(fields[|fields| - 1].name) != k
    ensures Get(Collect(fields, s), k) == Get(Collect(fields[..|fields| - 1], s), k)
  {
    var last := fields[|fields| - 1];
    if Qualifies(last, s) {
      GetPut(Collect(fields[..|fields| - 1], s), ColumnKey(last.name), last.displayLabel, k);
    }
  }

  /** Lines 128-130: a field whose enabled setting is unset or loosely false never qualifies. */
  lemma EnabledRequired(f: Field, s: Screen)
    requires !Isset(f.enabled) || !Truthy(f.enabled.value)
    ensures !Qualifies(f, s)
  {
  }

  /**
   * Lines 132-137 on a taxonomy screen: the taxonomy allow-list decides and the
   * post-type allow-list is not consulted; an unset list drops the field, an array
   * must contain the taxonomy, and a scalar (the checkbox default `1`) admits it.
   */
  lemma TaxonomyAllowList(f: Field, s: Screen)
    requires IsTaxonomyIndex(s) && Enabled(f)
    ensures !Isset(f.taxonomies) ==> !Qualifies(f, s)
    ensures Isset(f.taxonomies) && f.taxonomies.value.Arr? ==>
              (Qualifies(f, s) <==> exists i :: 0 <= i < |f.taxonomies.value.entries| &&
                                                LooseEqualsString(f.taxonomies.value.entries[i].1, s.taxonomy))
    ensures Isset(f.taxonomies) && !f.taxonomies.value.Arr? ==> Qualifies(f, s)
  {
  }

  /** The same rule for the post-type allow-list on a post-type screen. */
  lemma PostTypeAllowList(f: Field, s: Screen)
    requires IsPostTypeIndex(s) && Enabled(f)
    ensures !Isset(f.postTypes) ==> !Qualifies(f, s)
    ensures Isset(f.postTypes) && f.postTypes.value.Arr? ==>
              (Qualifies(f, s) <==> exists i :: 0 <= i < |f.postTypes.value.entries| &&
                                                LooseEqualsString(f.postTypes.value.entries[i].1, s.postType))
    ensures Isset(f.postTypes) && !f.postTypes.value.Arr? ==> Qualifies(f, s)
  {
  }

  /**
   * A field enabled for the post type `page` only gets a column on the page list
   * and none on the post list.
   */
  lemma PageOnlyField(f: Field)
    requires f.enabled == Some(Bool(true)) && f.postTypes == Some(List([Str("page")]))
    ensures Qualifies(f, Screen("edit-page", "edit", "page", ""))
    ensures !Qualifies(f, Screen("edit-post", "edit", "post", ""))
  {
    var entries := f.postTypes.value.entries;
    assert entries == [(IntKey(0), Str("page"))];
    assert ArraySearch("page", entries) == Some(IntKey(0));
    assert ArraySearch("post", entries[1..]) == None;
  }
}
