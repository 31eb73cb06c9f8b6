/**
 * The admin screen descriptor the plugin inspects and the two classifications it
 * derives from it (acf_admin_columns.php lines 479-480).
 */
module Screens {
  import opened PhpValues

  /** The parts of WordPress's current screen object that the plugin reads; a missing property is "". */
  datatype Screen = Screen(id: string, base: string, postType: string, taxonomy: string)

  /** "All posts" list of some post type: base `edit` with a truthy post type. */
  predicate IsPostTypeIndex(s: Screen)
  {
    s.base == "edit" && Truthy(Str(s.postType))
  }

  /** Term list of some taxonomy: base `edit-tags` with a truthy taxonomy. */
  predicate IsTaxonomyIndex(s: Screen)
  {
    s.base == "edit-tags" && Truthy(Str(s.taxonomy))
  }

  /** A screen the plugin adds columns to. */
  predicate IsListScreen(s: Screen)
  {
    IsPostTypeIndex(s) || IsTaxonomyIndex(s)
  }
}
