/** The settings page (`pages/Settings.tsx`): the avatar initials, the panel the
    selected section shows and the coming-soon heading. */
module Settings {
  import Text

  /** `initials`: the first character of every space-separated part, joined,
      upper-cased and cut to two characters. Empty parts add nothing. */
  function Initials(fullName: string): (r: string)
    ensures |r| <= 2 && ' ' !in r
    ensures r == Text.Take(Text.Upper(Text.WordStarts(fullName)), 2)
  {
    Text.FirstLettersAreWordStarts(fullName);
    var upper := Text.Upper(Text.FirstLetters(fullName));
    assert ' ' !in upper by {
      forall i | 0 <= i < |upper|
        ensures upper[i] != ' '
      {
        assert Text.FirstLetters(fullName)[i] in Text.FirstLetters(fullName);
      }
    }
    Text.Take(upper, 2)
  }

  /** Leading and repeated spaces do not change the initials. */
  lemma InitialsIgnoreEmptyParts(a: string, b: string)
    ensures Initials(" " + b) == Initials(b)
    ensures Initials(a + "  " + b) == Initials(a + " " + b)
  {
    Text.EmptyPartsIgnored(a, b);
  }

  /** What the content area renders. */
  datatype Panel = GeneralPanel | UsagePanel | ComingSoon(heading: string)

  /** The three mutually exclusive conditions on `activeSection`; the coming-soon
      heading is the section id with its first '-' turned into a space. */
  function PanelFor(activeSection: string): (p: Panel)
    ensures p == GeneralPanel <==> activeSection == "general"
    ensures p == UsagePanel <==> activeSection == "usage"
    ensures p.ComingSoon? <==> activeSection != "general" && activeSection != "usage"
    ensures p.ComingSoon? ==> p.heading == Text.ReplaceFirst(activeSection, '-', ' ')
  {
    if activeSection == "general" then GeneralPanel
    else if activeSection == "usage" then UsagePanel
    else ComingSoon(Text.ReplaceFirst(activeSection, '-', ' '))
  }

  /** Only the first hyphen of a heading becomes a space; the rest of the id is kept. */
  lemma HeadingReplacesFirstHyphenOnly(before: string, after: string)
    requires '-' !in before
    ensures Text.ReplaceFirst(before + "-" + after, '-', ' ') == before + " " + after
  {
    var s := before + "-" + after;
    assert s[|before|] == '-';
    var i :| 0 <= i < |s| && s[i] == '-' && '-' !in s[..i]
             && Text.ReplaceFirst(s, '-', ' ') == s[..i] + [' '] + s[i + 1..];
    forall j | 0 <= j < i
      ensures s[j] != '-'
    {
      assert s[j] == s[..i][j];
    }
    assert forall j | 0 <= j < |before| :: s[j] == before[j];
    assert i == |before|;
    assert s[..i] == before && s[i + 1..] == after;
  }
}
