/**
 * The rewrite `action_prepare_query_sort` applies to the list query's variables
 * when the list is ordered by an ACF column.
 */
module SortQuery {
  import opened Optional
  import opened PhpValues
  import opened OrderedMaps
  import opened ColumnNames
  import opened Registry

  /** A query's `query_vars`: variable name to value. */
  type QueryVars = m: seq<(string, Value)> | UniqueKeys(m)

  /** One clause of a meta query: the meta key and the comparison. */
  function MetaClause(key: string, compare: string): Value
  {
    Arr([(StrKey("key"), Str(key)), (StrKey("compare"), Str(compare))])
  }

  /**
   * Lines 173-177: rows without the field (NOT EXISTS, listed first) or with it
   * (EXISTS), so that rows never given a value still take part in the ordering.
   */
  function MetaQuery(field: string): Value
  {
    Arr([(StrKey("relation"), Str("OR")),
         (IntKey(0), MetaClause(field, "NOT EXISTS")),
         (IntKey(1), MetaClause(field, "EXISTS"))])
  }

  /** The registry column named by `orderby`, if it names one. */
  function SortColumn(vars: QueryVars, reg: Columns): Option<string>
  {
    var orderby := Get(vars, "orderby");
    if vars != [] && Isset(orderby) && orderby.value.Str? && orderby.value.s in Keys(reg)
    then Some(orderby.value.s) else None
  }

  /** The two `$query->set` calls of lines 179-180, or nothing. */
  function SortRewrite(vars: QueryVars, reg: Columns): QueryVars
  {
    match SortColumn(vars, reg)
    case None => vars
    case Some(column) => Put(Put(vars, "meta_query", MetaQuery(CleanColumn(column))), "orderby", Str("meta_value"))
  }

  /**
   * Ordering by a registered column replaces `meta_query` by the OR of NOT EXISTS
   * and EXISTS on the column's field name and `orderby` by `meta_value`, and leaves
   * every other variable as it was; any other query is returned unchanged.
   */
  lemma SortRewriteSpec(vars: QueryVars, reg: Columns)
    ensures SortColumn(vars, reg).None? ==> SortRewrite(vars, reg) == vars
    ensures SortColumn(vars, reg).Some? ==>
      var column := SortColumn(vars, reg).value;
      var r := SortRewrite(vars, reg);
      && Get(r, "orderby") == Some(Str("meta_value"))
      && Get(r, "meta_query") == Some(MetaQuery(CleanColumn(column)))
      && (forall k :: k != "orderby" && k != "meta_query" ==> Get(r, k) == Get(vars, k))
      && (forall k :: k in Keys(r) <==> k in Keys(vars) || k == "meta_query")
  {
    if SortColumn(vars, reg).Some? {
      var mq := MetaQuery(CleanColumn(SortColumn(vars, reg).value));
      var withMeta := Put(vars, "meta_query", mq);
      forall k ensures Get(SortRewrite(vars, reg), k) ==
                       if k == "orderby" then Some(Str("meta_value")) else if k == "meta_query" then Some(mq) else Get(vars, k) {
        GetPut(withMeta, "orderby", Str("meta_value"), k);
        GetPut(vars, "meta_query", mq, k);
      }
    }
  }

  /**
   * For a column the registry builder made from a field whose name holds no `acf_`,
   * the meta query is on that field's name.
   */
  lemma SortByFieldName(vars: QueryVars, reg: Columns, name: string)
    requires Get(vars, "orderby") == Some(Str(ColumnKey(name))) && ColumnKey(name) in Keys(reg)
    requires !ContainsPrefix(name)
    ensures Get(SortRewrite(vars, reg), "meta_query") == Some(MetaQuery(name))
    ensures Get(SortRewrite(vars, reg), "orderby") == Some(Str("meta_value"))
  {
    assert vars != [];
    assert SortColumn(vars, reg) == Some(ColumnKey(name));
    CleanColumnKey(name);
    SortRewriteSpec(vars, reg);
  }
}
