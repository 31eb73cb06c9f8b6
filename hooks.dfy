/**
 * The WordPress callbacks the plugin attaches, recorded as values instead of being
 * handed to `add_filter` / `add_action`.
 */
module Hooks {

  datatype HookKind = Filter | Action

  /** The plugin methods that can be attached. */
  datatype Callback =
    | RenderFieldSettings
    | ManagePostsColumns
    | ManageSortableColumns
    | ManagePostsCustomColumn
    | ManageTaxonomyCustomColumn

  /** One `add_filter` / `add_action` call: tag, callback, priority, number of accepted arguments. */
  datatype Hook = Hook(kind: HookKind, tag: string, callback: Callback, priority: int, acceptedArgs: nat)
}
