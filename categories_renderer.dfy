/**
 * `CategoriesRenderer`: an entry's category path as breadcrumb links, the i-th link pointing to
 * the entries under the first i + 1 categories.
 */
module CategoriesRender {
  import opened Strings
  import opened BlogModel

  /** `🗃`, the card index box. */
  const CardIndex := "\U{1F5C3}"

  /** The link for the category path `path`: its comma-joined names in the href, its last name as text. */
  function Anchor(path: seq<string>): string
    requires |path| >= 1
  {
    "<a href=\"/categories/" + Join(path, ",") + "/entries\">" + path[|path| - 1] + "</a>"
  }

  /** One link per category, the i-th for the first i + 1 names. */
  function Anchors(names: seq<string>): (anchors: seq<string>)
    ensures |anchors| == |names|
    ensures forall i :: 0 <= i < |names| ==> anchors[i] == Anchor(names[..i + 1])
  {
    seq(|names|, i requires 0 <= i < |names| => Anchor(names[..i + 1]))
  }

  /** The rendering: nothing for no categories, otherwise the box, then the links joined by `/` in braces. */
  function Rendered(names: seq<string>): string
  {
    if |names| == 0 then "" else CardIndex + "&nbsp;{" + Join(Anchors(names), "/") + "}"
  }

  /**
   * `render(categories)`: grows `buf` by one name per category and renders each link from the
   * names gathered so far.
   */
  method Render(categories: seq<Category>) returns (html: string)
    ensures html == Rendered(CategoryNames(categories))
    ensures |categories| == 0 <==> html == ""
  {
    var list := CategoryNames(categories);
    if |list| == 0 {
      return "";
    }
    var ret: seq<string> := [];
    var buf: seq<string> := [];
    for i := 0 to |list|
      invariant buf == list[..i]
      invariant ret == Anchors(list[..i])
    {
      buf := buf + [list[i]];
      var anchor := "<a href=\"/categories/" + Join(buf, ",") + "/entries\">" + list[i] + "</a>";
      assert buf == list[..i + 1];
      assert anchor == Anchor(list[..i + 1]);
      forall k | 0 <= k < i + 1
        ensures Anchors(buf)[k] == (ret + [anchor])[k]
      {
        if k < i {
          assert buf[..k + 1] == list[..i][..k + 1];
          assert ret[k] == Anchor(list[..i][..k + 1]);
        } else {
          assert buf[..k + 1] == buf;
        }
      }
      assert Anchors(buf) == ret + [anchor];
      ret := ret + [anchor];
    }
    assert list[..|list|] == list;
    html := CardIndex + "&nbsp;{" + Join(ret, "/") + "}";
  }

  /** The href path of the i-th link: the first i + 1 names joined by commas. */
  function HrefPath(names: seq<string>, i: nat): string
    requires i < |names|
  {
    Join(names[..i + 1], ",")
  }

  /** Each link's path extends the previous one by a comma and the next name, so the paths are prefix-closed. */
  lemma HrefPathsExtend(names: seq<string>, i: nat)
    requires i + 1 < |names|
    ensures HrefPath(names, i + 1) == HrefPath(names, i) + "," + names[i + 1]
    ensures StartsWith(HrefPath(names, i + 1), HrefPath(names, i))
  {
    assert names[..i + 2] == names[..i + 1] + [names[i + 1]];
    JoinAppend(names[..i + 1], names[i + 1], ",");
  }

  /** The i-th link carries the i-th name as its text and the i-th path in its href. */
  lemma AnchorContent(names: seq<string>, i: nat)
    requires i < |names|
    ensures Anchors(names)[i] == "<a href=\"/categories/" + HrefPath(names, i) + "/entries\">" + names[i] + "</a>"
  {
  }
}
