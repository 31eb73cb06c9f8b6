/**
 * The `FleiACFAdminColumns` object: the column registry and the two screen flags it
 * keeps for the current request, and the callbacks WordPress invokes on it.
 * WordPress's query object is modelled by `Query`.
 */
module AdminColumnsPlugin {
  import opened Optional
  import opened PhpValues
  import opened OrderedMaps
  import opened ColumnNames
  import opened Screens
  import opened Registry
  import opened ColumnLists
  import opened SortQuery
  import opened Hooks
  import FieldSettings
  import CellRenderer

  /** The WordPress list query, reduced to its variables. */
  class Query {
    var queryVars: QueryVars

    constructor (vars: QueryVars)
      ensures queryVars == vars
    {
      queryVars := vars;
    }

    /** `$query->set($key, $value)`. */
    method Set(key: string, value: Value)
      modifies this
      ensures queryVars == Put(old(queryVars), key, value)
    {
      queryVars := Put(queryVars, key, value);
    }
  }

  /** The `acf_get_field_groups` arguments for a list screen (lines 115-119). */
  function GroupArgs(s: Screen): seq<(string, string)>
  {
    if IsPostTypeIndex(s) then [("post_type", s.postType)]
    else if IsTaxonomyIndex(s) then [("taxonomy", s.taxonomy)]
    else []
  }

  /** The callbacks of lines 147-154, attached once the registry is non-empty. */
  function ColumnHooks(s: Screen): (hooks: seq<Hook>)
    ensures hooks != [] <==> IsListScreen(s)
    ensures forall h :: h in hooks ==> h.priority == 10
    ensures forall h :: h in hooks ==> (h.kind == Action <==> h.callback == ManagePostsCustomColumn)
    ensures forall h :: h in hooks && h.callback == ManagePostsCustomColumn ==> h.acceptedArgs == 2
    ensures forall h :: h in hooks && h.callback == ManageTaxonomyCustomColumn ==> h.acceptedArgs == 3
    ensures forall h :: h in hooks && (h.callback == ManagePostsColumns || h.callback == ManageSortableColumns) ==> h.acceptedArgs == 1
    ensures IsPostTypeIndex(s) ==>
              && |hooks| == 3
              && hooks[0].callback == ManagePostsColumns && hooks[0].tag == "manage_" + s.postType + "_posts_columns"
              && hooks[1].callback == ManageSortableColumns && hooks[1].tag == "manage_" + s.id + "_sortable_columns"
              && hooks[2].callback == ManagePostsCustomColumn && hooks[2].tag == "manage_" + s.postType + "_posts_custom_column"
    ensures !IsPostTypeIndex(s) && IsTaxonomyIndex(s) ==>
              && |hooks| == 2
              && hooks[0].callback == ManagePostsColumns && hooks[0].tag == "manage_edit-" + s.taxonomy + "_columns"
              && hooks[1].callback == ManageTaxonomyCustomColumn && hooks[1].tag == "manage_" + s.taxonomy + "_custom_column"
  {
    if IsPostTypeIndex(s) then
      [ Hook(Filter, "manage_" + s.postType + "_posts_columns", ManagePostsColumns, 10, 1),
        Hook(Filter, "manage_" + s.id + "_sortable_columns", ManageSortableColumns, 10, 1),
        Hook(Action, "manage_" + s.postType + "_posts_custom_column", ManagePostsCustomColumn, 10, 2) ]
    else if IsTaxonomyIndex(s) then
      [ Hook(Filter, "manage_edit-" + s.taxonomy + "_columns", ManagePostsColumns, 10, 1),
        Hook(Filter, "manage_" + s.taxonomy + "_custom_column", ManageTaxonomyCustomColumn, 10, 3) ]
    else []
  }

  /**
   * Columns become sortable on post lists only: the taxonomy branch of lines
   * 151-153 attaches no sortable-columns callback.
   */
  lemma SortableOnPostListsOnly(s: Screen)
    ensures (exists h :: h in ColumnHooks(s) && h.callback == ManageSortableColumns) <==> IsPostTypeIndex(s)
  {
    var hooks := ColumnHooks(s);
    if IsPostTypeIndex(s) {
      assert hooks[1] in hooks;
    } else {
      forall h | h in hooks ensures h.callback != ManageSortableColumns {
      }
    }
  }

  class FleiAcfAdminColumns {
    /** exclude_field_types. */
    const excludeFieldTypes: seq<string>
    /** admin_columns: the column registry of the current request. */
    var adminColumns: Columns
    var screenIsPostTypeIndex: bool
    var screenIsTaxonomyIndex: bool

    /** The two screen flags are never set together. */
    ghost predicate Valid()
      reads this
    {
      !(screenIsPostTypeIndex && screenIsTaxonomyIndex)
    }

    constructor ()
      ensures Valid()
      ensures excludeFieldTypes == FieldSettings.DefaultExcludedTypes
      ensures adminColumns == [] && !screenIsPostTypeIndex && !screenIsTaxonomyIndex
    {
      excludeFieldTypes := FieldSettings.DefaultExcludedTypes;
      adminColumns := [];
      screenIsPostTypeIndex := false;
      screenIsTaxonomyIndex := false;
    }

    /**
     * `is_valid_admin_screen`: `current` is what `get_current_screen` gives, `None`
     * when it is unavailable or gives nothing. Classifies the screen into the two
     * flags and returns it when it is a post-type or taxonomy list.
     */
    method IsValidAdminScreen(current: Option<Screen>) returns (r: Option<Screen>)
      requires Valid()
      modifies this`screenIsPostTypeIndex, this`screenIsTaxonomyIndex
      ensures Valid()
      ensures current.Some? ==> (screenIsPostTypeIndex == IsPostTypeIndex(current.value)
                              && screenIsTaxonomyIndex == IsTaxonomyIndex(current.value))
      ensures current.None? ==> (screenIsPostTypeIndex == old(screenIsPostTypeIndex)
                              && screenIsTaxonomyIndex == old(screenIsTaxonomyIndex))
      ensures r.Some? <==> current.Some? && IsListScreen(current.value)
      ensures r.Some? ==> r == current
    {
      if current.Some? {
        var screen := current.value;
        screenIsPostTypeIndex := screen.base == "edit" && Truthy(Str(screen.postType));
        screenIsTaxonomyIndex := screen.base == "edit-tags" && Truthy(Str(screen.taxonomy));
        if screenIsPostTypeIndex || screenIsTaxonomyIndex {
          return Some(screen);
        }
      }
      return None;
    }

    /**
     * The inner loop of `action_prepare_columns` (lines 126-140): one field group's
     * fields, in order, each put under its column key unless the enabled, taxonomy
     * or post type test drops it.
     */
    method AddGroupColumns(fields: seq<Field>, s: Screen, ghost before: seq<Field>)
      requires adminColumns == Collect(before, s)
      modifies this`adminColumns
      ensures adminColumns == Collect(before + fields, s)
    {
      var isPostTypeIndex := s.base == "edit" && Truthy(Str(s.postType));
      var isTaxonomyIndex := s.base == "edit-tags" && Truthy(Str(s.taxonomy));
      assert before + fields[..0] == before;
      for j := 0 to |fields|
        invariant adminColumns == Collect(before + fields[..j], s)
      {
        assert before + fields[..j + 1] == (before + fields[..j]) + [fields[j]];
        CollectStep(before + fields[..j], fields[j], s);
        DroppedIffNotQualifies(fields[j], s);
        var field := fields[j];
        if !Isset(field.enabled) || !Truthy(field.enabled.value) {
          assert !Enabled(field);
          continue;
        }
        if isTaxonomyIndex && (!Isset(field.taxonomies) ||
            (field.taxonomies.value.Arr? && ArraySearch(s.taxonomy, field.taxonomies.value.entries).None?)) {
          assert !Allows(field.taxonomies, s.taxonomy);
          continue;
        }
        if isPostTypeIndex && (!Isset(field.postTypes) ||
            (field.postTypes.value.Arr? && ArraySearch(s.postType, field.postTypes.value.entries).None?)) {
          assert !Allows(field.postTypes, s.postType);
          continue;
        }
        assert Qualifies(field, s);
        adminColumns := Put(adminColumns, ColumnKey(field.name), field.displayLabel);
      }
      assert fields[..|fields|] == fields;
    }

    /**
     * `action_prepare_columns`. `acfActive` says whether ACF's functions exist,
     * `acfGetFieldGroups` and `acfGetFields` are ACF's lookups and `columnsFilter`
     * the `acf/admin_columns/admin_columns` filter. Returns the callbacks attached.
     * Builds the registry only when ACF is active, the registry is still empty and
     * the screen is a list screen; otherwise leaves it as it was.
     */
    method ActionPrepareColumns(acfActive: bool, current: Option<Screen>,
                                acfGetFieldGroups: seq<(string, string)> -> seq<FieldGroup>,
                                acfGetFields: FieldGroup -> seq<Field>,
                                columnsFilter: Columns -> Columns)
      returns (hooks: seq<Hook>)
      requires Valid()
      modifies this`adminColumns, this`screenIsPostTypeIndex, this`screenIsTaxonomyIndex
      ensures Valid()
      ensures current.Some? ==> (screenIsPostTypeIndex == IsPostTypeIndex(current.value)
                              && screenIsTaxonomyIndex == IsTaxonomyIndex(current.value))
      ensures current.None? ==> (screenIsPostTypeIndex == old(screenIsPostTypeIndex)
                              && screenIsTaxonomyIndex == old(screenIsTaxonomyIndex))
      ensures !acfActive || old(adminColumns) != [] || current.None? || !IsListScreen(current.value) ==>
                adminColumns == old(adminColumns) && hooks == []
      ensures acfActive && old(adminColumns) == [] && current.Some? && IsListScreen(current.value) ==>
                var s := current.value;
                && adminColumns == columnsFilter(Collect(FieldsOf(acfGetFieldGroups(GroupArgs(s)), acfGetFields), s))
                && hooks == if adminColumns == [] then [] else ColumnHooks(s)
    {
      var screen := IsValidAdminScreen(current);
      if !acfActive || adminColumns != [] || screen.None? {
        return [];
      }
      var s := screen.value;
      var isPostTypeIndex := s.base == "edit" && Truthy(Str(s.postType));
      var isTaxonomyIndex := s.base == "edit-tags" && Truthy(Str(s.taxonomy));

      var args: seq<(string, string)> := [];
      if screenIsPostTypeIndex {
        args := [("post_type", s.postType)];
      } else if screenIsTaxonomyIndex {
        args := [("taxonomy", s.taxonomy)];
      }
      var groups := acfGetFieldGroups(args);

      for g := 0 to |groups|
        modifies this`adminColumns
        invariant adminColumns == Collect(FieldsOf(groups[..g], acfGetFields), s)
      {
        var fields := acfGetFields(groups[g]);
        AddGroupColumns(fields, s, FieldsOf(groups[..g], acfGetFields));
        FieldsOfStep(groups, acfGetFields, g);
      }
      assert groups[..|groups|] == groups;

      adminColumns := columnsFilter(adminColumns);

      if adminColumns != [] {
        hooks := ColumnHooks(s);
      } else {
        hooks := [];
      }
    }

    /**
     * `action_prepare_query_sort`. Rewrites the query when ACF is active, the screen
     * is a list screen and the query is ordered by a registered column.
     */
    method ActionPrepareQuerySort(acfActive: bool, current: Option<Screen>, query: Query)
      requires Valid()
      modifies this`screenIsPostTypeIndex, this`screenIsTaxonomyIndex, query
      ensures Valid()
      ensures acfActive && current.Some? ==> (screenIsPostTypeIndex == IsPostTypeIndex(current.value)
                                           && screenIsTaxonomyIndex == IsTaxonomyIndex(current.value))
      ensures !(acfActive && current.Some?) ==> (screenIsPostTypeIndex == old(screenIsPostTypeIndex)
                                              && screenIsTaxonomyIndex == old(screenIsTaxonomyIndex))
      ensures query.queryVars ==
                if acfActive && current.Some? && IsListScreen(current.value)
                then SortRewrite(old(query.queryVars), adminColumns)
                else old(query.queryVars)
    {
      if !acfActive {
        return;
      }
      var screen := IsValidAdminScreen(current);
      if screen.None? || query.queryVars == [] || !Isset(Get(query.queryVars, "orderby")) {
        return;
      }
      var orderby := Get(query.queryVars, "orderby").value;
      if orderby.Str? && orderby.s in Keys(adminColumns) {
        query.Set("meta_query", MetaQuery(CleanColumn(orderby.s)));
        query.Set("orderby", Str("meta_value"));
      }
    }

    /**
     * `filter_manage_posts_columns`: WordPress's columns keep their order, registry
     * columns they lack follow in registry order, a registry column WordPress already
     * has takes the registry label in place; an empty registry changes nothing.
     */
    function FilterManagePostsColumns(columns: Columns): (r: Columns)
      reads this
      ensures adminColumns == [] ==> r == columns
      ensures Keys(r) == Keys(columns) + Missing(Keys(adminColumns), Keys(columns))
      ensures forall k :: Get(r, k) == if k in Keys(adminColumns) then Get(adminColumns, k) else Get(columns, k)
    {
      MergeSpec(columns, adminColumns);
      if adminColumns != [] then MergeColumns(columns, adminColumns) else columns
    }

    /**
     * `filter_manage_sortable_columns`: every registry column becomes sortable by its
     * own key, then the `acf/admin_columns/sortable_columns` filter applies.
     */
    method FilterManageSortableColumns(columns: SortableList, sortableFilter: SortableList -> SortableList)
      returns (r: SortableList)
      ensures r == sortableFilter(SortableColumns(columns, adminColumns))
    {
      r := columns;
      for i := 0 to |adminColumns|
        invariant r == SortableColumns(columns, adminColumns[..i])
      {
        var idx := adminColumns[i].0;
        SortableStep(columns, adminColumns, i);
        r := Put(r, idx, Str(idx));
      }
      assert adminColumns[..|adminColumns|] == adminColumns;
      r := sortableFilter(r);
    }

    /**
     * `action_manage_posts_custom_column`: what is echoed into the cell of a registered
     * column (`None` for a column that is not the plugin's). `columnFilter` is the
     * `acf/admin_columns/column/<field name>` filter.
     */
    function ActionManagePostsCustomColumn(host: CellRenderer.Host, columnFilter: (string, Value) -> Value,
                                           column: string, postId: Value): (echoed: Option<string>)
      reads this
      ensures echoed.Some? <==> column in Keys(adminColumns)
      ensures echoed.Some? ==>
        echoed.value == ToStr(columnFilter(CleanColumn(column),
                                           CellRenderer.RenderColumnField(host, column, postId, Bool(false))))
    {
      if column in Keys(adminColumns) then
        var value := CellRenderer.RenderColumnField(host, column, postId, Bool(false));
        Some(ToStr(columnFilter(CleanColumn(column), value)))
      else None
    }

    /**
     * `filter_manage_taxonomy_custom_column`: the cell of a registered column on a
     * term list, rendered for the term `"<taxonomy>_<term id>"`; other columns keep
     * `content`.
     */
    function FilterManageTaxonomyCustomColumn(host: CellRenderer.Host, columnFilter: (string, Value) -> Value,
                                              content: Value, column: string, termId: Value,
                                              taxonomy: string): (r: Value)
      reads this
      ensures column !in Keys(adminColumns) ==> r == content
      ensures column in Keys(adminColumns) ==>
        r == columnFilter(CleanColumn(column), CellRenderer.RenderColumnField(host, column, termId, Str(taxonomy)))
    {
      if column in Keys(adminColumns) then
        columnFilter(CleanColumn(column), CellRenderer.RenderColumnField(host, column, termId, Str(taxonomy)))
      else content
    }

    /**
     * `action_add_acf_actions`: `excludeFilter` is the `acf/admin_columns/exclude_field_types`
     * filter, `grouped` the outcome of the ACF version test of line 81 and
     * `sections` what `acf_get_field_types` returns. Returns the settings hooks attached.
     */
    method ActionAddAcfActions(excludeFilter: seq<string> -> seq<string>, grouped: bool,
                               sections: seq<(Key, Value)>)
      returns (hooks: seq<Hook>)
      ensures hooks == FieldSettings.SettingsHooks(FieldSettings.FieldTypes(grouped, sections),
                                                   excludeFilter(excludeFieldTypes))
    {
      var exclude := excludeFilter(excludeFieldTypes);
      hooks := [];
      if grouped {
        for i := 0 to |sections|
          invariant hooks == FieldSettings.SettingsHooks(FieldSettings.GroupedTypes(sections[..i]), exclude)
        {
          FieldSettings.GroupedTypesStep(sections, i);
          var section := sections[i].1;
          if section.Arr? {
            hooks := FieldSettings.AddSettingsHooks(hooks, section.entries, exclude, FieldSettings.GroupedTypes(sections[..i]));
          } else {
            assert FieldSettings.GroupedTypes(sections[..i]) + [] == FieldSettings.GroupedTypes(sections[..i]);
          }
        }
        assert sections[..|sections|] == sections;
      } else {
        hooks := FieldSettings.AddSettingsHooks(hooks, sections, exclude, []);
        assert [] + Keys(sections) == Keys(sections);
      }
    }
  }
}
