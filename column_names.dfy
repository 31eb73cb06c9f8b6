/**
 * Column identifiers: a field's column is its name behind the prefix `acf_`, and
 * the field name is recovered with `str_replace('acf_', '', $column)`, which
 * deletes every occurrence of the prefix and not only the leading one.
 */
module ColumnNames {

  /** COLUMN_NAME_PREFIX. */
  const Prefix: string := "acf_"

  /** The column identifier of a field (acf_admin_columns.php line 139). */
  function ColumnKey(name: string): string
  {
    Prefix + name
  }

  /** The prefix occurs in `s` starting at index `i`. */
  predicate PrefixAt(s: string, i: int)
  {
    0 <= i && i + |Prefix| <= |s| && s[i..i + |Prefix|] == Prefix
  }

  /** `s` contains the prefix somewhere. */
  predicate ContainsPrefix(s: string)
  {
    exists i :: 0 <= i <= |s| && PrefixAt(s, i)
  }

  /**
   * `get_clean_column`: one left-to-right pass that deletes each occurrence of the
   * prefix and resumes after it, as `str_replace` does.
   */
  function CleanColumn(s: string): (r: string)
    ensures |r| <= |s|
    decreases |s|
  {
    if |s| < |Prefix| then s
    else if s[..|Prefix|] == Prefix then CleanColumn(s[|Prefix|..])
    else [s[0]] + CleanColumn(s[1..])
  }

  lemma ContainsPrefixTail(s: string)
    requires |s| >= |Prefix| && s[..|Prefix|] != Prefix
    ensures ContainsPrefix(s) <==> ContainsPrefix(s[1..])
  {
    if ContainsPrefix(s) {
      var i :| 0 <= i <= |s| && PrefixAt(s, i);
      assert i != 0;
      assert s[1..][i - 1..i - 1 + |Prefix|] == s[i..i + |Prefix|];
      assert PrefixAt(s[1..], i - 1);
    }
    if ContainsPrefix(s[1..]) {
      var i :| 0 <= i <= |s[1..]| && PrefixAt(s[1..], i);
      assert s[i + 1..i + 1 + |Prefix|] == s[1..][i..i + |Prefix|];
      assert PrefixAt(s, i + 1);
    }
  }

  /** Without an occurrence of the prefix nothing is deleted. */
  lemma {:induction false} CleanWithoutPrefix(s: string)
    requires !ContainsPrefix(s)
    ensures CleanColumn(s) == s
    decreases |s|
  {
    if |s| >= |Prefix| {
      assert s[0..|Prefix|] == s[..|Prefix|];
      assert !PrefixAt(s, 0);
      ContainsPrefixTail(s);
      CleanWithoutPrefix(s[1..]);
    }
  }

  /** With an occurrence of the prefix at least one whole prefix is deleted. */
  lemma {:induction false} CleanWithPrefix(s: string)
    requires ContainsPrefix(s)
    ensures |CleanColumn(s)| <= |s| - |Prefix|
    decreases |s|
  {
    var i :| 0 <= i <= |s| && PrefixAt(s, i);
    if s[..|Prefix|] != Prefix {
      ContainsPrefixTail(s);
      CleanWithPrefix(s[1..]);
    }
  }

  /** `get_clean_column` leaves a string unchanged exactly when it holds no prefix. */
  lemma CleanIdentityIff(s: string)
    ensures CleanColumn(s) == s <==> !ContainsPrefix(s)
  {
    if ContainsPrefix(s) {
      CleanWithPrefix(s);
    } else {
      CleanWithoutPrefix(s);
    }
  }

  /**
   * The round trip between line 139 and lines 494-499: stripping the prefix from a
   * field's column gives back the field's name exactly when that name itself holds
   * no `acf_`.
   */
  lemma CleanColumnKey(name: string)
    ensures CleanColumn(ColumnKey(name)) == name <==> !ContainsPrefix(name)
  {
    var key := ColumnKey(name);
    assert key[..|Prefix|] == Prefix && key[|Prefix|..] == name;
    CleanIdentityIff(name);
  }

  /** Deleting every occurrence in one pass can create a new one: the function is not idempotent. */
  lemma CleanNotIdempotent()
    ensures CleanColumn("aacf_cf_") == "acf_"
    ensures CleanColumn(CleanColumn("aacf_cf_")) == ""
  {
    var s := "aacf_cf_";
    assert s[..4][1] != Prefix[1];
    assert s[1..][..4] == Prefix;
    assert s[1..][4..] == "cf_";
    assert CleanColumn("cf_") == "cf_";
    var t := "acf_";
    assert t[..4] == Prefix && t[4..] == "";
  }
}
