/**
 * The column lists the plugin hands back to WordPress: the header list with the
 * registry merged in (`filter_manage_posts_columns`) and the sortable list in which
 * every registry column sorts by its own key (`filter_manage_sortable_columns`).
 */
module ColumnLists {
  import opened Optional
  import opened OrderedMaps
  import opened PhpValues
  import opened Registry

  /**
   * The sortable-columns list WordPress passes in: column identifier to sort
   * parameter, which may be any PHP value (WordPress's own post list sorts `date`
   * by the array `['date', true]`).
   */
  type SortableList = m: seq<(string, Value)> | UniqueKeys(m)

  /** `array_merge($columns, $reg)` on two column lists. */
  function MergeColumns(columns: Columns, reg: Columns): (r: Columns)
  {
    MergeKeys(columns, reg);
    Merge(columns, reg)
  }

  /** The loop of lines 212-214: `$columns[$idx] = $idx` for every registry key, in registry order. */
  function SortableColumns(columns: SortableList, reg: Columns): SortableList
  {
    if reg == [] then columns
    else
      var idx := reg[|reg| - 1].0;
      Put(SortableColumns(columns, reg[..|reg| - 1]), idx, Str(idx))
  }

  /** One more turn of the loop of lines 212-214. */
  lemma SortableStep(columns: SortableList, reg: Columns, i: nat)
    requires i < |reg|
    ensures SortableColumns(columns, reg[..i + 1]) == Put(SortableColumns(columns, reg[..i]), reg[i].0, Str(reg[i].0))
  {
    assert reg[..i + 1][..i] == reg[..i];
  }

  /**
   * The sortable list keeps WordPress's columns in their order and appends the
   * registry columns it lacks, in registry order: the key order `array_merge` of
   * the same two lists would give.
   */
  lemma {:induction false} SortableKeys(columns: SortableList, reg: Columns)
    ensures Keys(SortableColumns(columns, reg)) == Keys(columns) + Missing(Keys(reg), Keys(columns))
  {
    if reg != [] {
      var init, x := reg[..|reg| - 1], reg[|reg| - 1];
      assert reg == init + [x];
      UniqueAppend(init, x);
      SortableKeys(columns, init);
      KeysAppend(init, x);
      assert Keys(reg)[..|reg| - 1] == Keys(init);
      assert x.0 in Keys(SortableColumns(columns, init)) <==> x.0 in Keys(columns);
    }
  }

  /** Every registry column sorts by its own key, in place when WordPress already had it; other columns keep their value. */
  lemma {:induction false} SortableGet(columns: SortableList, reg: Columns, k: string)
    ensures Get(SortableColumns(columns, reg), k) == if k in Keys(reg) then Some(Str(k)) else Get(columns, k)
  {
    if reg != [] {
      var init, x := reg[..|reg| - 1], reg[|reg| - 1];
      assert reg == init + [x];
      SortableGet(columns, init, k);
      KeysAppend(init, x);
      GetPut(SortableColumns(columns, init), x.0, Str(x.0), k);
    }
  }
}
