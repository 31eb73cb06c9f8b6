/**
 * `render_column_field`: the value shown in one cell of an ACF column. The field
 * value and type come from ACF and the links, titles, thumbnails and text filters
 * from WordPress; all of these are opaque functions collected in `Host`.
 */
module CellRenderer {
  import opened PhpValues
  import opened ColumnNames

  /** The host calls `render_column_field` makes, as uninterpreted functions. */
  datatype Host = Host(
    getField: (string, Value) -> Value,         // get_field($name, $post_id)
    fieldType: (string, Value) -> string,       // acf_get_field($name, $post_id)['type']
    editPostLink: Value -> string,              // get_edit_post_link($p, false)
    postTitle: Value -> string,                 // $p->post_title
    editUserLink: Value -> string,              // get_edit_user_link($u)
    attachmentImageSrc: Value -> Value,         // wp_get_attachment_image_src($id, 'thumbnail')
    stripTags: string -> string,                // strip_tags
    trimExcerpt: string -> string,              // wp_trim_excerpt
    isUrl: Value -> bool                        // filter_var($v, FILTER_VALIDATE_URL) is truthy
  )

  /** What the type switch leaves behind: `$render_output` and `$items_more`. */
  datatype Cell = Cell(output: Value, itemsMore: int)

  /** The id ACF is asked about: `"<taxonomy>_<term id>"` on a term list, the post id otherwise. */
  function RowId(postId: Value, taxonomy: Value): Value
  {
    if Truthy(taxonomy) then Str(ToStr(taxonomy) + "_" + ToStr(postId)) else postId
  }

  /** Markup of a `color_picker` cell. */
  function ColorSwatch(color: string): string
  {
    "<div style=\"" + "display:inline-block;" + "height:20px;width:100%;" + "background-color:" + color
      + ";white-space:nowrap;\">" + color + "</div><br>"
  }

  /** An edit link around the title of a post. */
  function PostLink(host: Host, p: Value): string
  {
    "<a href=\"" + host.editPostLink(p) + "\">" + host.postTitle(p) + "</a>"
  }

  /** An edit link around a user's display name. */
  function UserLink(host: Host, u: Value): string
  {
    "<a href=\"" + host.editUserLink(u) + "\">" + ToStr(Index(u, StrKey("display_name"))) + "</a>"
  }

  /**
   * The item a reference cell shows and how many more there are: a non-empty array
   * shows its entry at key 0 and counts the rest; anything else is shown as it is.
   */
  function FirstItem(v: Value): (Value, int)
  {
    if v.Arr? && v.entries != [] then (Index(v, IntKey(0)), Count(v) - 1) else (v, 0)
  }

  /** The thumbnail URL of a preview image: the value itself when it is a URL, else via its attachment id. */
  function PreviewUrl(host: Host, fieldValue: Value, preview: Value): Value
  {
    var id :=
      if fieldValue.Arr? && !Index(preview, StrKey("ID")).Null? then Index(preview, StrKey("ID"))
      else if IntVal(preview) > 0 then Int(IntVal(preview))
      else Int(0);
    if host.isUrl(preview) then preview
    else if GreaterThanZero(id) then
      var img := host.attachmentImageSrc(id);
      if img.Arr? && !Index(img, IntKey(0)).Null? then Index(img, IntKey(0)) else Str("")
    else Str("")
  }

  /** The thumbnail tag of line 354, or nothing when there is no URL. */
  function ImageMarkup(url: Value): string
  {
    if Truthy(url) then "<img style='width:100%;height:auto;' src='" + ToStr(url) + "'>" else ""
  }

  /**
   * The `image`/`gallery` branch: `images` is the list of images, `counted` the
   * value whose `count` gives the overflow.
   */
  function ImageCell(host: Host, fieldValue: Value, images: Value, counted: Value): Cell
  {
    if !Truthy(images) then Cell(Str(""), 0)
    else
      var url := PreviewUrl(host, fieldValue, Index(images, IntKey(0)));
      Cell(Str(ImageMarkup(url)), Count(counted) - 1)
  }

  /** The `switch ($field_properties['type'])` of lines 295-380, as written. */
  function CellFor(host: Host, fieldType: string, v: Value): Cell
  {
    if fieldType == "color_picker" then Cell(Str(ColorSwatch(ToStr(v))), 0)
    else if fieldType == "taxonomy" then Cell(v, 0)
    else if fieldType == "file" then
      var name := Index(v, StrKey("filename"));
      Cell(if Truthy(name) then name else Str(""), 0)
    else if fieldType == "wysiwyg" then Cell(Str(host.trimExcerpt(host.stripTags(ToStr(v)))), 0)
    else if fieldType == "link" then
      Cell(if v.Arr? && !Index(v, StrKey("url")).Null? then Index(v, StrKey("url")) else Str(""), 0)
    else if fieldType == "post_object" || fieldType == "relationship" then
      var (p, more) := FirstItem(v);
      Cell(Str(PostLink(host, p)), more)
    else if fieldType == "user" then
      var (u, more) := FirstItem(v);
      Cell(Str(UserLink(host, u)), more)
    else if fieldType == "image" then ImageCell(host, v, List([v]), v)
    else if fieldType == "gallery" then ImageCell(host, v, v, v)
    else Cell(v, 0)
  }

  /** The overflow suffix of line 387. */
  function MoreSuffix(n: int): string
  {
    "<br>and " + DecimalString(n) + " more"
  }

  /** Lines 382-388: arrays are joined with ", ", then a non-zero overflow count is appended. */
  function Finish(c: Cell): (r: Value)
    ensures !r.Arr?
    ensures c.itemsMore != 0 ==> r.Str? && |r.s| >= |MoreSuffix(c.itemsMore)|
                                 && r.s[|r.s| - |MoreSuffix(c.itemsMore)|..] == MoreSuffix(c.itemsMore)
                                 && r.s[..|r.s| - |MoreSuffix(c.itemsMore)|]
                                    == ToStr(if c.output.Arr? then Str(Implode(", ", c.output.entries)) else c.output)
    ensures c.itemsMore == 0 ==> r == if c.output.Arr? then Str(Implode(", ", c.output.entries)) else c.output
  {
    var output := if c.output.Arr? then Str(Implode(", ", c.output.entries)) else c.output;
    if c.itemsMore != 0 then Str(ToStr(output) + MoreSuffix(c.itemsMore)) else output
  }

  /**
   * `render_column_field($column, $post_id, $taxonomy)` as written. The cell of a
   * value identical to '' is null; no cell is ever an array.
   */
  function RenderColumnField(host: Host, column: string, postId: Value, taxonomy: Value): (r: Value)
    ensures host.getField(CleanColumn(column), RowId(postId, taxonomy)) == Str("") ==> r == Null
    ensures !r.Arr?
  {
    var name := CleanColumn(column);
    var id := RowId(postId, taxonomy);
    var v := host.getField(name, id);
    if v == Str("") then Null
    else Finish(CellFor(host, host.fieldType(name, id), v))
  }

  /** The switch with the overflow of a single image counted over the one-image list, as evidently intended. */
  function CellForCorrected(host: Host, fieldType: string, v: Value): Cell
  {
    if fieldType == "image" then ImageCell(host, v, List([v]), List([v]))
    else CellFor(host, fieldType, v)
  }

  /** `render_column_field` with the corrected image overflow. */
  function RenderColumnFieldCorrected(host: Host, column: string, postId: Value, taxonomy: Value): (r: Value)
    ensures host.getField(CleanColumn(column), RowId(postId, taxonomy)) == Str("") ==> r == Null
    ensures !r.Arr?
  {
    var name := CleanColumn(column);
    var id := RowId(postId, taxonomy);
    var v := host.getField(name, id);
    if v == Str("") then Null
    else Finish(CellForCorrected(host, host.fieldType(name, id), v))
  }

  /**
   * A post_object or relationship value that is a non-empty array renders its first
   * item as an edit link and, when there are N > 0 more items, the suffix
   * "<br>and N more"; no suffix when it holds one item.
   */
  lemma ReferenceOverflow(host: Host, column: string, postId: Value, taxonomy: Value)
    requires var id := RowId(postId, taxonomy);
             var v := host.getField(CleanColumn(column), id);
             && (host.fieldType(CleanColumn(column), id) == "post_object" || host.fieldType(CleanColumn(column), id) == "relationship")
             && v.Arr? && v.entries != []
    ensures var v := host.getField(CleanColumn(column), RowId(postId, taxonomy));
            var link := PostLink(host, Index(v, IntKey(0)));
            RenderColumnField(host, column, postId, taxonomy) ==
              if |v.entries| == 1 then Str(link) else Str(link + MoreSuffix(|v.entries| - 1))
  {
    var t := host.fieldType(CleanColumn(column), RowId(postId, taxonomy));
    var v := host.getField(CleanColumn(column), RowId(postId, taxonomy));
    assert CellFor(host, t, v) == Cell(Str(PostLink(host, Index(v, IntKey(0)))), |v.entries| - 1);
  }

  /** The same for `user` values, with the user's edit link and display name. */
  lemma UserOverflow(host: Host, column: string, postId: Value, taxonomy: Value)
    requires var id := RowId(postId, taxonomy);
             var v := host.getField(CleanColumn(column), id);
             host.fieldType(CleanColumn(column), id) == "user" && v.Arr? && v.entries != []
    ensures var v := host.getField(CleanColumn(column), RowId(postId, taxonomy));
            var link := UserLink(host, Index(v, IntKey(0)));
            RenderColumnField(host, column, postId, taxonomy) ==
              if |v.entries| == 1 then Str(link) else Str(link + MoreSuffix(|v.entries| - 1))
  {
    var v := host.getField(CleanColumn(column), RowId(postId, taxonomy));
    assert CellFor(host, "user", v) == Cell(Str(UserLink(host, Index(v, IntKey(0)))), |v.entries| - 1);
  }

  /** The types without a branch of their own pass their value through; an array value is joined with ", ". */
  lemma PassThroughJoined(host: Host, column: string, postId: Value, taxonomy: Value)
    requires var id := RowId(postId, taxonomy);
             var t := host.fieldType(CleanColumn(column), id);
             var v := host.getField(CleanColumn(column), id);
             && t !in {"color_picker", "file", "wysiwyg", "link", "post_object", "relationship", "user", "image", "gallery"}
             && v.Arr?
    ensures var v := host.getField(CleanColumn(column), RowId(postId, taxonomy));
            RenderColumnField(host, column, postId, taxonomy) == Str(Implode(", ", v.entries))
  {
    var t := host.fieldType(CleanColumn(column), RowId(postId, taxonomy));
    var v := host.getField(CleanColumn(column), RowId(postId, taxonomy));
    assert CellFor(host, t, v) == Cell(v, 0);
  }

  /**
   * As written, an image stored in ACF's array return format is counted by its keys:
   * an image array with n >= 2 keys ends in "<br>and n-1 more" though it is one image.
   */
  lemma ImageArrayCountsKeys(host: Host, column: string, postId: Value, taxonomy: Value)
    requires var id := RowId(postId, taxonomy);
             var v := host.getField(CleanColumn(column), id);
             host.fieldType(CleanColumn(column), id) == "image" && v.Arr? && |v.entries| >= 2
    ensures var v := host.getField(CleanColumn(column), RowId(postId, taxonomy));
            RenderColumnField(host, column, postId, taxonomy)
              == Str(ImageMarkup(PreviewUrl(host, v, v)) + MoreSuffix(|v.entries| - 1))
  {
    var v := host.getField(CleanColumn(column), RowId(postId, taxonomy));
    assert Truthy(List([v]));
    assert Index(List([v]), IntKey(0)) == v;
    assert CellFor(host, "image", v) == Cell(Str(ImageMarkup(PreviewUrl(host, v, v))), |v.entries| - 1);
  }

  /**
   * As written, an `image` field with no value (null, which `count` takes as 0)
   * renders "<br>and -1 more", with no thumbnail when null is not a URL.
   */
  lemma ImageNullShowsMinusOne(host: Host, column: string, postId: Value, taxonomy: Value)
    requires var id := RowId(postId, taxonomy);
             host.fieldType(CleanColumn(column), id) == "image" && host.getField(CleanColumn(column), id) == Null
    requires !host.isUrl(Null)
    ensures RenderColumnField(host, column, postId, taxonomy) == Str("<br>and -1 more")
  {
    assert Truthy(List([Null]));
    assert Index(List([Null]), IntKey(0)) == Null;
    assert PreviewUrl(host, Null, Null) == Str("");
    assert CellFor(host, "image", Null) == Cell(Str(""), -1);
    assert MoreSuffix(-1) == "<br>and -1 more";
  }

  /** Corrected: an `image` cell never carries an overflow suffix, whatever its value. */
  lemma ImageCorrectedHasNoOverflow(host: Host, fieldType: string, v: Value)
    requires fieldType == "image"
    ensures CellForCorrected(host, fieldType, v).itemsMore == 0
    ensures Finish(CellForCorrected(host, fieldType, v)) == CellForCorrected(host, fieldType, v).output
  {
    assert Truthy(List([v]));
    assert Count(List([v])) == 1;
  }

  /**
   * A model of `strip_tags` on text without comments or quoted '>': every run from
   * '<' up to the next '>' is dropped, and an unclosed '<' drops the rest.
   */
  function StripTags(s: string): string
    decreases |s|
  {
    if s == [] then []
    else if s[0] == '<' then StripTags(SkipTag(s[1..]))
    else [s[0]] + StripTags(s[1..])
  }

  /** What follows the first '>' of `s`, or nothing when there is none. */
  function SkipTag(s: string): (r: string)
    ensures |r| <= |s|
  {
    if s == [] then []
    else if s[0] == '>' then s[1..]
    else SkipTag(s[1..])
  }

  /** Text without '<' is kept as it is. */
  lemma {:induction false} StripPlain(t: string, b: string)
    requires '<' !in t
    ensures StripTags(t + b) == t + StripTags(b)
  {
    if t != [] {
      assert t == [t[0]] + t[1..];
      assert (t + b)[0] == t[0] && (t + b)[1..] == t[1..] + b;
      StripPlain(t[1..], b);
      assert StripTags(t + b) == [t[0]] + StripTags(t[1..] + b);
      assert [t[0]] + (t[1..] + StripTags(b)) == t + StripTags(b);
    } else {
      assert t + b == b;
    }
  }

  /** A tag whose body holds no '>' is dropped whole. */
  lemma {:induction false} SkipBody(body: string, b: string)
    requires '>' !in body
    ensures SkipTag(body + ">" + b) == b
  {
    if body != [] {
      assert body == [body[0]] + body[1..];
      assert (body + ">" + b)[1..] == body[1..] + ">" + b;
      SkipBody(body[1..], b);
    }
  }

  lemma StripTag(body: string, b: string)
    requires '>' !in body
    ensures StripTags("<" + body + ">" + b) == StripTags(b)
  {
    assert ("<" + body + ">" + b)[1..] == body + ">" + b;
    SkipBody(body, b);
  }

  /** The opening tag of a swatch, between its '<' and '>'. */
  function SwatchTag(color: string): string
  {
    "div style=\"" + "display:inline-block;" + "height:20px;width:100%;" + "background-color:" + color
      + ";white-space:nowrap;\""
  }

  lemma SwatchSplit(color: string)
    ensures ColorSwatch(color) == "<" + SwatchTag(color) + ">" + (color + "</div><br>")
  {
    assert "<div style=\"" == "<" + "div style=\"";
    assert ";white-space:nowrap;\">" == ";white-space:nowrap;\"" + ">";
  }

  lemma SwatchTagClosed(color: string)
    requires '>' !in color
    ensures '>' !in SwatchTag(color)
  {
    assert '>' !in "display:inline-block;" && '>' !in "height:20px;width:100%;" && '>' !in "background-color:";
    assert '>' !in ";white-space:nowrap;\"";
  }

  /**
   * The visible text of a `color_picker` cell is the colour itself, provided the
   * stored colour holds neither '<' nor '>' (the markup does not escape it).
   */
  lemma SwatchShowsColor(color: string)
    requires '<' !in color && '>' !in color
    ensures StripTags(ColorSwatch(color)) == color
  {
    SwatchSplit(color);
    SwatchTagClosed(color);
    StripTag(SwatchTag(color), color + "</div><br>");
    StripPlain(color, "</div><br>");
    assert "</div><br>" == "<" + "/div" + ">" + "<br>";
    StripTag("/div", "<br>");
    assert "<br>" == "<" + "br" + ">" + "";
    StripTag("br", "");
  }

  /** A gallery of n >= 2 images keeps its suffix "and n-1 more" in the corrected renderer. */
  lemma GalleryOverflow(host: Host, v: Value)
    requires v.Arr? && |v.entries| >= 2
    ensures CellForCorrected(host, "gallery", v).itemsMore == |v.entries| - 1
  {
  }
}
