/** `TagsRenderer`: tags as links to their entries, separated by non-breaking spaces. */
module TagsRender {
  import opened Strings
  import opened BlogModel

  /** `🏷`, the label. */
  const Label := "\U{1F3F7}"

  /** `render(tag)`: the label, then a link whose path segment and text are both the tag's name. */
  function RenderTag(tag: Tag): (html: string)
    ensures StartsWith(html, Label + "&nbsp;<a href=\"/tags/")
    ensures html[|Label + "&nbsp;<a href=\"/tags/"|..] == tag.name + "/entries\">" + tag.name + "</a>"
    ensures EndsWith(html, tag.name + "</a>")
  {
    var opening := Label + "&nbsp;<a href=\"/tags/";
    var rest := tag.name + "/entries\">" + tag.name + "</a>";
    assert (opening + rest)[..|opening|] == opening && (opening + rest)[|opening|..] == rest;
    opening + rest
  }

  function RenderAll(tags: seq<Tag>): (parts: seq<string>)
    ensures |parts| == |tags|
    ensures forall i :: 0 <= i < |tags| ==> parts[i] == RenderTag(tags[i])
  {
    seq(|tags|, i requires 0 <= i < |tags| => RenderTag(tags[i]))
  }

  /** `render(tags)`: each tag rendered, in order, joined by `&nbsp;`. */
  function RenderTags(tags: seq<Tag>): (html: string)
    ensures |tags| == 0 ==> html == ""
    ensures |tags| == 1 ==> html == RenderTag(tags[0])
  {
    Join(RenderAll(tags), "&nbsp;")
  }

  /** One more tag at the end adds a separator and its rendering at the end, and nothing else. */
  lemma RenderTagsAppend(tags: seq<Tag>, t: Tag)
    requires |tags| >= 1
    ensures RenderTags(tags + [t]) == RenderTags(tags) + "&nbsp;" + RenderTag(t)
  {
    assert RenderAll(tags + [t]) == RenderAll(tags) + [RenderTag(t)];
    JoinAppend(RenderAll(tags), RenderTag(t), "&nbsp;");
  }
}
