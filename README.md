# Admin Columns for ACF Fields — a Dafny model

This project models the plugin class `FleiACFAdminColumns` of the WordPress
plugin "Admin Columns for ACF Fields" (version 0.1.2, `acf_admin_columns.php`).
The plugin adds columns for selected ACF fields to the post and term list
screens of the WordPress back end. The model covers:

- the object's state: the column registry `admin_columns` and the two screen
  flags `screen_is_post_type_index` / `screen_is_taxonomy_index`. It is a
  `class` whose methods update these fields (`plugin.dfy`);
- the screen classifier `is_valid_admin_screen`;
- the registry builder `action_prepare_columns`, with its nested loops over
  field groups and fields, its `continue` tests on the plugin's three field
  settings, and its build-once guard;
- the column-list callbacks `filter_manage_posts_columns` (`array_merge`) and
  `filter_manage_sortable_columns` (a loop);
- the sort rewrite `action_prepare_query_sort`, which changes the WordPress
  query object through `$query->set`;
- the prefix stripping `get_clean_column` (a one-pass `str_replace`);
- the cell renderer `render_column_field` and the two cell callbacks that use it;
- the settings registration `action_add_acf_actions` and the settings list
  built by `render_field_settings`.

PHP's loosely typed values are a datatype `Value`, with `isset`, loose
truthiness, `count`, `intval`, `array_search`, `implode` and the loose string
comparison written out as PHP 7 evaluates them, except that integers are
unbounded (`php_values.dfy`; see "Left out"). PHP arrays are insertion-ordered
sequences of key/value pairs. The column registry, the column lists and the
query variables are kept with unique keys. Assigning to a key overwrites it in
place or appends it, and `array_merge` is a fold of such assignments
(`ordered_maps.dfy`). An array inside a `Value` is not required to have unique
keys; reading it returns the first entry with the key.

Every WordPress and ACF call is a parameter of the operation that makes it:

- ACF's field lookups and the `apply_filters` extension points are passed in
  as functions;
- the current screen is an `Option<Screen>`;
- the test `is_acf_active()` is a boolean;
- the outcome of the ACF version test is a boolean;
- the hooks the plugin attaches with `add_action`/`add_filter` are returned as
  a list of `Hook` values.

Modules: `Optional`, `OrderedMaps`, `PhpValues`, `ColumnNames`, `Screens`,
`Hooks`, `Registry`, `ColumnLists`, `SortQuery`, `CellRenderer`,
`FieldSettings`, and `AdminColumnsPlugin` (the class `FleiAcfAdminColumns`
and WordPress's query object `Query`).

## Model

| member | source | states |
|---|---|---|
| AdminColumnsPlugin.FleiAcfAdminColumns.constructor | acf_admin_columns.php:20-34 | A new object has the default exclusion list of eight field types, an empty registry and both screen flags false. |
| AdminColumnsPlugin.FleiAcfAdminColumns.IsValidAdminScreen | acf_admin_columns.php:475-487 | When there is a screen, the flags become "base is `edit` with a truthy post type" and "base is `edit-tags` with a truthy taxonomy"; they are never both set; the screen is returned exactly when one holds; without a screen the flags keep their values and the result is none. |
| AdminColumnsPlugin.FleiAcfAdminColumns.ActionPrepareColumns | acf_admin_columns.php:102-156 | Build once: if ACF is inactive, the registry is already non-empty or the screen is not a list screen, the registry is unchanged and no hook is attached. Otherwise the registry becomes the filtered `Collect` of every field of every group fetched with the screen's arguments, and the three post-list hooks or the two term-list hooks are attached exactly when it is non-empty. The flags are classified as by `is_valid_admin_screen` in every case. |
| AdminColumnsPlugin.FleiAcfAdminColumns.AddGroupColumns | acf_admin_columns.php:126-140 | The inner loop over one group's fields takes the registry from `Collect(before)` to `Collect(before + fields)`. |
| AdminColumnsPlugin.ColumnHooks | acf_admin_columns.php:146-155 | Hooks are attached exactly on a list screen. A post list gets the columns filter on `manage_<post type>_posts_columns`, the sortable filter on `manage_<screen id>_sortable_columns` and the cell action on `manage_<post type>_posts_custom_column`. A term list gets the columns filter on `manage_edit-<taxonomy>_columns` and the cell filter on `manage_<taxonomy>_custom_column`. All use priority 10. Only the post-cell callback is an action. The cell callbacks take 2 (post) or 3 (term) arguments and the column-list filters take 1. |
| AdminColumnsPlugin.SortableOnPostListsOnly | acf_admin_columns.php:146-155 | A sortable-columns callback is attached exactly on a post list, never on a term list. |
| Registry.DroppedIffNotQualifies | acf_admin_columns.php:128-137 | The three `continue` tests, as written, drop a field exactly when it is not enabled or not allowed on the screen. |
| Registry.EnabledRequired | acf_admin_columns.php:128-130 | A field whose `admin_column_enabled` is unset, null or loosely false never gets a column. |
| Registry.TaxonomyAllowList | acf_admin_columns.php:132-134 | On a term list with an enabled field: an unset taxonomy list drops the field; an array keeps it exactly when some entry loosely equals the taxonomy; a set scalar keeps it. |
| Registry.PostTypeAllowList | acf_admin_columns.php:135-137 | The same rule for the post-type list on a post list. |
| Registry.PageOnlyField | acf_admin_columns.php:135-137 | A field enabled for `['page']` qualifies on the page list and not on the post list. |
| Registry.CollectKeys | acf_admin_columns.php:124-140 | A column key is in the registry exactly when some visited field that qualifies on the screen has that key. |
| Registry.CollectOrder | acf_admin_columns.php:124-140 | The registry's keys are the qualifying fields' keys in first-assignment order, with duplicates dropped: a repeated name does not move its column. |
| Registry.CollectLabel | acf_admin_columns.php:139 | A column's label is that of the last qualifying field with that key. |
| ColumnNames.CleanColumn | acf_admin_columns.php:494-499 | Stripping never lengthens the column name. |
| ColumnNames.CleanIdentityIff | acf_admin_columns.php:494-499 | `get_clean_column` leaves a string unchanged exactly when it contains no `acf_`. |
| ColumnNames.CleanWithPrefix | acf_admin_columns.php:494-499 | A string containing `acf_` loses at least four characters. |
| ColumnNames.CleanColumnKey | acf_admin_columns.php:494-499 | Stripping `"acf_" + name` gives back `name` exactly when `name` contains no `acf_`. |
| ColumnNames.CleanNotIdempotent | acf_admin_columns.php:496 | Deleting all occurrences in one pass can create a new one: `aacf_cf_` cleans to `acf_`, which cleans to the empty string. |
| OrderedMaps.Put | acf_admin_columns.php:139 | Assigning to a present key keeps the key order; a new key is appended; keys stay unique. |
| OrderedMaps.GetPut | acf_admin_columns.php:139 | After `$m[$k] = $v`, `$m[$k]` reads `$v` and every other key reads as before. |
| OrderedMaps.MergeKeys | acf_admin_columns.php:197 | `array_merge` keeps the first array's keys in order and appends the second array's new keys in its order; keys stay unique. |
| OrderedMaps.MergeGet | acf_admin_columns.php:197 | In `array_merge`, a key of the second array takes that array's value and every other key keeps the first array's value. |
| AdminColumnsPlugin.FleiAcfAdminColumns.FilterManagePostsColumns | acf_admin_columns.php:193-201 | An empty registry returns the columns unchanged. Otherwise WordPress's columns keep their order and registry columns they lack follow in registry order; a registry column WordPress already has takes the registry label in place. |
| AdminColumnsPlugin.FleiAcfAdminColumns.FilterManageSortableColumns | acf_admin_columns.php:209-219 | The sortable list may hold any PHP value (WordPress uses strings and `[orderby, desc]` pairs). The loop's result is the sortable-columns fold of the registry, passed through the sortable-columns filter. |
| ColumnLists.SortableKeys | acf_admin_columns.php:212-214 | The sortable list keeps WordPress's keys in order and appends the registry keys it lacks, in registry order. |
| ColumnLists.SortableGet | acf_admin_columns.php:212-214 | Every registry column maps to its own key as a string, replacing any earlier value. Other columns keep their value, whatever it is. |
| AdminColumnsPlugin.Query.Set | acf_admin_columns.php:179-180 | `$query->set` assigns one query variable in place. |
| AdminColumnsPlugin.FleiAcfAdminColumns.ActionPrepareQuerySort | acf_admin_columns.php:164-185 | With ACF active and a list screen, the query variables become `SortRewrite` of the old ones; otherwise they are unchanged. The screen flags are reclassified whenever ACF is active and a screen exists. |
| SortQuery.SortRewriteSpec | acf_admin_columns.php:167-181 | If `orderby` names a registry column, `meta_query` becomes OR(NOT EXISTS, EXISTS) on the cleaned name and `orderby` becomes `meta_value`; every other variable keeps its value and no variable other than `meta_query` is added. Any other query is unchanged. |
| SortQuery.SortByFieldName | acf_admin_columns.php:170-180 | Sorting by the column of a field whose name has no `acf_` puts the meta query on that field's own name. |
| AdminColumnsPlugin.FleiAcfAdminColumns.ActionManagePostsCustomColumn | acf_admin_columns.php:228-241 | Something is echoed exactly for a registered column: the rendered cell, passed through the per-field column filter, as a string. |
| AdminColumnsPlugin.FleiAcfAdminColumns.FilterManageTaxonomyCustomColumn | acf_admin_columns.php:250-268 | A registered column's cell is rendered for `<taxonomy>_<term id>` and filtered; other columns keep the incoming content. |
| CellRenderer.RenderColumnField | acf_admin_columns.php:277-392 | A field value identical to `''` gives null; no cell is ever an array. |
| CellRenderer.Finish | acf_admin_columns.php:382-388 | Array output is joined with `", "`. With a non-zero overflow count N, the cell is the joined output as a string followed by `<br>and N more`. With a zero count, the joined output is left as it is. |
| CellRenderer.ReferenceOverflow | acf_admin_columns.php:313-322 | A non-empty array `post_object`/`relationship` value shows an edit link to its first item, followed by `<br>and N more` with N = count − 1, and no suffix when N = 0. |
| CellRenderer.UserOverflow | acf_admin_columns.php:323-330 | The same for `user` values, with the user's edit link and display name. |
| CellRenderer.PassThroughJoined | acf_admin_columns.php:363-384 | A type without a branch of its own passes its value through, and an array value is joined with `", "`. |
| CellRenderer.ImageArrayCountsKeys | acf_admin_columns.php:331-359 | As written: an `image` value in array form with n ≥ 2 keys renders as its thumbnail tag (or nothing) followed by `<br>and n-1 more`. |
| CellRenderer.ImageNullShowsMinusOne | acf_admin_columns.php:331-359 | As written: an `image` field with a null value renders exactly `<br>and -1 more`. |
| CellRenderer.RenderColumnFieldCorrected | acf_admin_columns.php:277-392 | The renderer with the corrected image count keeps the `''` and no-array guarantees. |
| CellRenderer.ImageCorrectedHasNoOverflow | acf_admin_columns.php:331-359 | Corrected: an `image` cell never carries an overflow suffix. |
| CellRenderer.SwatchShowsColor | acf_admin_columns.php:296-298 | Once the tags are stripped, a `color_picker` cell shows exactly the colour, provided the colour holds neither `<` nor `>`. |
| CellRenderer.GalleryOverflow | acf_admin_columns.php:333-359 | A gallery of n ≥ 2 images still reports n-1 more after the correction. |
| AdminColumnsPlugin.FleiAcfAdminColumns.ActionAddAcfActions | acf_admin_columns.php:76-97 | The hooks attached are `SettingsHooks` of the field types: the inner keys of every category on the grouped registry, the outer keys otherwise, excluding the filtered exclusion list. |
| FieldSettings.AddSettingsHooks | acf_admin_columns.php:83-87 | One loop over a category's types appends exactly the hooks that `SettingsHooks` adds for those types. |
| FieldSettings.SettingsHooksSpec | acf_admin_columns.php:82-95 | A settings hook is attached exactly for each visited type that `in_array` does not find in the exclusion list. |
| FieldSettings.RepeaterGetsNoSettings | acf_admin_columns.php:20-29 | With the default exclusion list, `repeater` never gets the settings hook. |
| FieldSettings.RenderFieldSettings | acf_admin_columns.php:398-459 | Three settings are built: the `admin_column_enabled` switch and the `admin_column_post_types` and `admin_column_taxonomies` checkbox lists. Both lists default to 1, the taxonomy choices are the taxonomies, and each setting's CSS class is `aac-field-settings-<name>`. |
| FieldSettings.AttachmentNeverOffered | acf_admin_columns.php:421-425 | `attachment` is offered as a post-type choice only with a null label, which `isset` does not see; every other post type is offered. |
| PhpValues.ArraySearch | acf_admin_columns.php:132 | `array_search` finds nothing exactly when no entry loosely equals the needle. A key it returns belongs to the first loosely equal entry. |

## Left out

- WordPress and ACF calls (`get_current_screen`, `acf_get_field_groups`, `acf_get_fields`, `get_field`, `acf_get_field`, edit links, post titles, `wp_get_attachment_image_src`, `strip_tags`, `wp_trim_excerpt`, `filter_var`, `get_post_types`, `get_taxonomies`, `acf_get_setting`, `acf_get_field_types`) are parameters or uninterpreted functions; their behaviour is not modelled.
- Every `apply_filters` extension point is an arbitrary function passed in; third-party filters are not visible.
- `version_compare` on ACF's version is passed in as a boolean (`grouped`).
- `add_action`/`add_filter` are not executed: the hooks are returned as values. The singleton, the constructor's hook wiring and `action_enqueue_admin_scripts` (lines 36-71, 503-505) are plumbing and are not modelled.
- `echo`, `acf_render_field_setting` and the SQL behind `meta_query` are output or database work outside the model. `render_field_settings` is reduced to its type, name, title, choices, default and CSS class; the `ui`, `instructions` and `allow_null` entries and the unused `$setting_active` are left out.
- main.js (client-side toggling in the field editor) is not part of this model.
- Integers are unbounded. PHP's 64-bit `intval` saturates a longer numeric string at `PHP_INT_MAX`, and PHP compares overflowing numeric strings as floats. Neither is modelled.
- `CellRenderer.StripTags` is a simplified tag stripper used only to state `SwatchShowsColor`. It ignores quotes and comments. The renderer itself calls the host's `strip_tags`.
- Floats and objects are not PHP values here. Numeric strings with a decimal point or exponent compare as their leading integer. Two numeric strings are compared character by character, whereas PHP 7 compares them as numbers.
- Column lists and query variables have string keys only. PHP turns a numeric-string key into an integer key, and `array_merge` renumbers integer keys; neither is modelled. A non-string `orderby` never matches a column.
- A string offset read with a string key (`$field_value['filename']` on a string) is null here. PHP 7 warns and reads the first character.
- `CellRenderer.RenderColumnField`: the post title and the edit links are host functions of the item, so the model does not capture that `$p->post_title` on a non-object gives null.
- Later versions of the plugin add column positions, widths, user lists, search, default values and a no-value placeholder. The code modelled here (0.1.2) has none of these. Where the documentation of later versions and this code differ, the model follows the code. For example, both allow-lists are checked, each on its own screen kind.

## Findings

| source | as written | input that shows it | evidently intended | confidence | as-written member | corrected member |
|---|---|---|---|---|---|---|
| acf_admin_columns.php:359 | The `image` case wraps the value in a one-image list (line 332) but computes `$items_more = count($field_value) - 1` on the raw value. | An `image` field in ACF's array return format, e.g. a value array with keys `ID`, `url`, `alt`: the cell ends in `<br>and 2 more` though it shows a single image. | Count the images, i.e. `count($field_images) - 1`, which is 0 for a single image. | not executed | CellRenderer.ImageArrayCountsKeys | CellRenderer.ImageCorrectedHasNoOverflow |
| acf_admin_columns.php:359 | For an `image` field, `$items_more = count($field_value) - 1` is computed even when the value is null, and PHP 7's `count(null)` is 0. | An `image` field with no value stored: `get_field` returns null, and the cell reads `<br>and -1 more`. | Report no overflow for a single image slot: `count($field_images) - 1`, which is 0. | not executed | CellRenderer.ImageNullShowsMinusOne | CellRenderer.ImageCorrectedHasNoOverflow |
