/**
 * The static text of src/components/forms/camunda/CamundaText.tsx: a
 * text starting with "# ", "## " or "### " is a heading of level 1, 2
 * or 3 without that prefix; any other non-empty text is a paragraph.
 */
module CamundaText {
  import opened Wrappers
  import opened Strings

  datatype TextBlock = Heading(level: nat, content: string) | Paragraph(content: string)

  /** The marker of a heading of the given level: that many "#" and a space. */
  function HeadingPrefix(level: nat): (p: string)
    requires 1 <= level <= 3
    ensures |p| == level + 1 && p[level] == ' ' && forall i :: 0 <= i < level ==> p[i] == '#'
  {
    if level == 1 then "# " else if level == 2 then "## " else "### "
  }

  /** What the component renders; `None` for an absent or empty text. */
  function ParseText(text: Option<string>): (r: Option<TextBlock>)
    ensures r.None? <==> text.None? || text.value == ""
    ensures r.Some? && r.value.Heading? ==>
      1 <= r.value.level <= 3 && HeadingPrefix(r.value.level) + r.value.content == text.value
    ensures r.Some? && r.value.Paragraph? ==>
      r.value.content == text.value && forall l :: 1 <= l <= 3 ==> !StartsWith(text.value, HeadingPrefix(l))
  {
    if text.None? || text.value == "" then None
    else
      var t := text.value;
      if StartsWith(t, "# ") then
        assert "# " + t[2..] == t;
        Some(Heading(1, t[2..]))
      else if StartsWith(t, "## ") then
        assert "## " + t[3..] == t;
        Some(Heading(2, t[3..]))
      else if StartsWith(t, "### ") then
        assert "### " + t[4..] == t;
        Some(Heading(3, t[4..]))
      else Some(Paragraph(t))
  }

  /** No text starts with two different heading markers, so the three cases never overlap. */
  lemma PrefixesDisjoint(s: string, l1: nat, l2: nat)
    requires 1 <= l1 < l2 <= 3
    ensures !(StartsWith(s, HeadingPrefix(l1)) && StartsWith(s, HeadingPrefix(l2)))
  {
  }

  /** A marker in front of any content is read back as that heading: the parse inverts the rendering. */
  lemma HeadingRoundTrip(level: nat, content: string)
    requires 1 <= level <= 3
    ensures ParseText(Some(HeadingPrefix(level) + content)) == Some(Heading(level, content))
  {
    var t := HeadingPrefix(level) + content;
    assert t[..level + 1] == HeadingPrefix(level);
    assert t[level + 1..] == content;
    forall l | 1 <= l <= 3 && l != level
      ensures !StartsWith(t, HeadingPrefix(l))
    {
      if l < level {
        PrefixesDisjoint(t, l, level);
      } else {
        PrefixesDisjoint(t, level, l);
      }
    }
    var r := ParseText(Some(t));
    assert r.Some?;
    assert r.value.Heading?;
    assert StartsWith(t, HeadingPrefix(r.value.level));
    assert r.value.level == level;
  }

  /** Four marks, or a mark without its space, make a paragraph of the whole text. */
  lemma NonHeadingsAreParagraphs()
    ensures ParseText(Some("#### x")) == Some(Paragraph("#### x"))
    ensures ParseText(Some("#x")) == Some(Paragraph("#x"))
  {
    assert "#### x"[..2][1] != "# "[1];
    assert "#### x"[..3][2] != "## "[2];
    assert "#### x"[..4][3] != "### "[3];
    assert "#x"[..2] != "# ";
  }
}
