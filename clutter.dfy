/** Extraction of the clutter list from the scene analysis of step 1: three
    regular expressions `heading[\s\S]*?(?=【|$)` tried in a fixed order, the
    bracketed heading deleted from the match, the rest trimmed. */
module Clutter {
  import opened Wrappers
  import opened JsText

  /** The bracketed section heading, tried first. */
  const FullLabel: string := "【杂乱物品清单】"
  /** The bare heading, tried second. */
  const BareLabel: string := "杂乱物品清单"
  /** The loosest keyword, tried last. */
  const KeywordLabel: string := "杂乱物品"
  /** A section of the analysis ends at the next opening bracket. */
  const SectionOpen: char := '【'

  /** Where a lazy `[\s\S]*?(?=【|$)` that starts at `from` stops: the first
      opening bracket at or after `from`, or the end of the text. */
  function SectionEnd(s: string, from: nat): (q: nat)
    requires from <= |s|
    ensures from <= q <= |s|
    ensures q == |s| || s[q] == SectionOpen
    ensures forall k :: from <= k < q ==> s[k] != SectionOpen
    decreases |s| - from
  {
    if from == |s| || s[from] == SectionOpen then from else SectionEnd(s, from + 1)
  }

  /** `s.match(/heading[\s\S]*?(?=【|$)/i)[0]`: the match starts at the leftmost
      occurrence of the heading (the rest of the pattern always succeeds) and
      runs to the end of that section. The `i` flag changes nothing for
      these labels, which have no letter case. */
  function MatchSection(s: string, heading: string): (m: Option<string>)
    ensures m.None? <==> forall k :: !OccursAt(s, heading, k)
    ensures m.Some? ==> StartsWith(m.value, heading)
    ensures m.Some? ==> forall k :: |heading| <= k < |m.value| ==> m.value[k] != SectionOpen
    ensures m.Some? ==> var p := IndexOf(s, heading).value;
                        m.value == s[p..SectionEnd(s, p + |heading|)]
  {
    match IndexOf(s, heading)
    case None => None
    case Some(p) =>
      var q := SectionEnd(s, p + |heading|);
      assert s[p..q][..|heading|] == s[p..p + |heading|];
      Some(s[p..q])
  }

  /** The first of the three patterns that matches, in their fixed order. */
  function FirstSection(s: string): (r: Option<string>)
    ensures MatchSection(s, FullLabel).Some? ==> r == MatchSection(s, FullLabel)
    ensures MatchSection(s, FullLabel).None? && MatchSection(s, BareLabel).Some? ==> r == MatchSection(s, BareLabel)
    ensures MatchSection(s, FullLabel).None? && MatchSection(s, BareLabel).None? ==> r == MatchSection(s, KeywordLabel)
  {
    var full := MatchSection(s, FullLabel);
    if full.Some? then full
    else
      var bare := MatchSection(s, BareLabel);
      if bare.Some? then bare else MatchSection(s, KeywordLabel)
  }

  /** The clutter list of an analysis text. It never fails: an empty text or
      a text without any of the labels gives the empty string. */
  function ExtractClutterList(analysis: string): (r: string)
    ensures analysis == "" ==> r == ""
    ensures r == [] || (!IsWhitespace(r[0]) && !IsWhitespace(r[|r| - 1]))
  {
    if analysis == "" then ""
    else
      match FirstSection(analysis)
      case None => ""
      case Some(m) => SectionItems(m)
  }

  /** A matched section with the bracketed heading deleted and the rest
      trimmed. A section without any opening bracket (one matched by a
      bracket-free heading) is only trimmed. */
  function SectionItems(m: string): (r: string)
    ensures r == [] || (!IsWhitespace(r[0]) && !IsWhitespace(r[|r| - 1]))
    ensures (forall k :: 0 <= k < |m| ==> m[k] != SectionOpen) ==> r == Trim(m)
  {
    if forall k :: 0 <= k < |m| ==> m[k] != SectionOpen then
      assert FullLabel[0] == SectionOpen;
      RemoveAllAbsent(m, FullLabel);
      Trim(RemoveAll(m, FullLabel))
    else
      Trim(RemoveAll(m, FullLabel))
  }

  /** When the bracketed heading occurs, the list is the trimmed text between
      its leftmost occurrence and the next opening bracket (or the end). */
  lemma FullLabelSection(s: string, p: nat)
    requires OccursAt(s, FullLabel, p)
    requires forall j :: 0 <= j < p ==> !OccursAt(s, FullLabel, j)
    ensures ExtractClutterList(s) == Trim(s[p + |FullLabel|..SectionEnd(s, p + |FullLabel|)])
  {
    assert FullLabel[0] == SectionOpen;
    BracketedSection(s, FullLabel, p);
    assert FirstSection(s) == MatchSection(s, FullLabel);
  }

  /** For a heading that opens with a bracket, deleting the heading from its
      section leaves the section's body. */
  lemma BracketedSection(s: string, heading: string, p: nat)
    requires heading != [] && heading[0] == SectionOpen
    requires OccursAt(s, heading, p)
    requires forall j :: 0 <= j < p ==> !OccursAt(s, heading, j)
    ensures MatchSection(s, heading).Some?
    ensures RemoveAll(MatchSection(s, heading).value, heading)
            == s[p + |heading|..SectionEnd(s, p + |heading|)]
  {
    var q := SectionEnd(s, p + |heading|);
    var m := s[p..q];
    var body := s[p + |heading|..q];
    assert IndexOf(s, heading) == Some(p);
    assert MatchSection(s, heading) == Some(m);
    assert m[..|heading|] == heading;
    assert m[|heading|..] == body;
    assert RemoveAll(m, heading) == RemoveAll(body, heading);
    forall k | 0 <= k < |body| ensures body[k] != heading[0] {
      assert body[k] == s[p + |heading| + k];
    }
    RemoveAllAbsent(body, heading);
  }

  /** Without the bracketed heading, the list is the trimmed text from the
      leftmost bare heading (which stays in it) to the next opening bracket. */
  lemma BareLabelSection(s: string, p: nat)
    requires forall k :: !OccursAt(s, FullLabel, k)
    requires OccursAt(s, BareLabel, p)
    requires forall j :: 0 <= j < p ==> !OccursAt(s, BareLabel, j)
    ensures ExtractClutterList(s) == Trim(s[p..SectionEnd(s, p + |BareLabel|)])
  {
    assert MatchSection(s, FullLabel).None?;
    BracketFreeSection(s, BareLabel, p);
    assert FirstSection(s) == MatchSection(s, BareLabel);
  }

  /** Without either heading, the list is the trimmed text from the leftmost
      keyword to the next opening bracket. */
  lemma KeywordLabelSection(s: string, p: nat)
    requires forall k :: !OccursAt(s, FullLabel, k)
    requires forall k :: !OccursAt(s, BareLabel, k)
    requires OccursAt(s, KeywordLabel, p)
    requires forall j :: 0 <= j < p ==> !OccursAt(s, KeywordLabel, j)
    ensures ExtractClutterList(s) == Trim(s[p..SectionEnd(s, p + |KeywordLabel|)])
  {
    assert MatchSection(s, FullLabel).None? && MatchSection(s, BareLabel).None?;
    BracketFreeSection(s, KeywordLabel, p);
    assert FirstSection(s) == MatchSection(s, KeywordLabel);
  }

  /** The section of a bracket-free heading holds no opening bracket at all,
      so the bracketed-heading removal leaves it as it is. */
  lemma BracketFreeSection(s: string, heading: string, p: nat)
    requires heading == BareLabel || heading == KeywordLabel
    requires OccursAt(s, heading, p)
    requires forall j :: 0 <= j < p ==> !OccursAt(s, heading, j)
    ensures MatchSection(s, heading) == Some(s[p..SectionEnd(s, p + |heading|)])
    ensures SectionItems(s[p..SectionEnd(s, p + |heading|)]) == Trim(s[p..SectionEnd(s, p + |heading|)])
  {
    BracketFreeHeading(heading);
    assert IndexOf(s, heading) == Some(p);
    var m := s[p..SectionEnd(s, p + |heading|)];
    assert m[..|heading|] == heading;
    forall k | 0 <= k < |m| ensures m[k] != SectionOpen {
      if k < |heading| {
        assert m[k] == heading[k];
      }
    }
  }

  /** Without the bracketed heading, a bare heading is matched and is NOT removed:
      the list starts with it. */
  lemma BareLabelKept(s: string)
    requires forall k :: !OccursAt(s, FullLabel, k)
    requires exists k :: OccursAt(s, BareLabel, k)
    ensures StartsWith(ExtractClutterList(s), BareLabel)
  {
    assert MatchSection(s, FullLabel).None?;
    var m := MatchSection(s, BareLabel).value;
    assert FirstSection(s) == Some(m);
    assert s != [] && ExtractClutterList(s) == SectionItems(m);
    LabelKept(m, BareLabel);
  }

  /** Without either heading, the keyword is matched and is likewise kept. */
  lemma KeywordLabelKept(s: string)
    requires forall k :: !OccursAt(s, FullLabel, k)
    requires forall k :: !OccursAt(s, BareLabel, k)
    requires exists k :: OccursAt(s, KeywordLabel, k)
    ensures StartsWith(ExtractClutterList(s), KeywordLabel)
  {
    assert MatchSection(s, FullLabel).None? && MatchSection(s, BareLabel).None?;
    var m := MatchSection(s, KeywordLabel).value;
    assert FirstSection(s) == Some(m);
    assert s != [] && ExtractClutterList(s) == SectionItems(m);
    LabelKept(m, KeywordLabel);
  }

  /** What the two bracket-free headings have in common: no opening bracket,
      and no whitespace at either end. */
  lemma BracketFreeHeading(heading: string)
    requires heading == BareLabel || heading == KeywordLabel
    ensures heading != [] && SectionOpen !in heading
    ensures !IsWhitespace(heading[0]) && !IsWhitespace(heading[|heading| - 1])
  {
  }

  /** A section that starts with a bracket-free heading keeps it through the
      bracketed-heading removal and the trim. */
  lemma LabelKept(m: string, heading: string)
    requires heading == BareLabel || heading == KeywordLabel
    requires StartsWith(m, heading)
    requires forall k :: |heading| <= k < |m| ==> m[k] != SectionOpen
    ensures StartsWith(SectionItems(m), heading)
  {
    BracketFreeHeading(heading);
    assert FullLabel[0] == SectionOpen;
    PrefixSurvives(m, heading, FullLabel);
  }

  /** Deleting a pattern whose first character occurs nowhere in `m`, then
      trimming, keeps a prefix with non-whitespace ends. */
  lemma PrefixSurvives(m: string, prefix: string, pat: string)
    requires pat != [] && prefix != [] && pat[0] !in prefix
    requires !IsWhitespace(prefix[0]) && !IsWhitespace(prefix[|prefix| - 1])
    requires StartsWith(m, prefix)
    requires forall k :: |prefix| <= k < |m| ==> m[k] != pat[0]
    ensures StartsWith(Trim(RemoveAll(m, pat)), prefix)
  {
    forall k | 0 <= k < |m| ensures m[k] != pat[0] {
      if k < |prefix| {
        assert m[k] == prefix[k];
      }
    }
    RemoveAllAbsent(m, pat);
    TrimKeepsPrefix(m, prefix);
  }

  /** The keyword is part of both headings, so a text without it matches no
      pattern and yields the empty list. */
  lemma NoKeywordNoList(s: string)
    requires forall k :: !OccursAt(s, KeywordLabel, k)
    ensures ExtractClutterList(s) == ""
  {
    HeadingsNest();
    assert MatchSection(s, FullLabel).None? by {
      forall k: nat | OccursAt(s, FullLabel, k) ensures false {
        OccursInside(s, FullLabel, KeywordLabel, 1, k);
      }
    }
    assert MatchSection(s, BareLabel).None? by {
      forall k: nat | OccursAt(s, BareLabel, k) ensures false {
        OccursInside(s, BareLabel, KeywordLabel, 0, k);
      }
    }
    assert MatchSection(s, KeywordLabel).None?;
    assert FirstSection(s).None?;
  }

  /** The keyword sits inside both headings. */
  lemma HeadingsNest()
    ensures FullLabel[1..1 + |KeywordLabel|] == KeywordLabel
    ensures BareLabel[..|KeywordLabel|] == KeywordLabel
  {
  }

  /** A section with no further opening bracket runs to the end of the text. */
  lemma SectionToEnd(s: string, from: nat)
    requires from <= |s|
    requires forall k :: from <= k < |s| ==> s[k] != SectionOpen
    ensures SectionEnd(s, from) == |s|
  {
  }

  /** How a heading followed by a body sits in their concatenation. */
  lemma Concatenation(heading: string, body: string, s: string)
    requires s == heading + body
    ensures OccursAt(s, heading, 0) && s[|heading|..|s|] == body
    ensures forall k :: |heading| <= k < |s| ==> s[k] == body[k - |heading|]
  {
    assert s[0..0 + |heading|] == heading;
  }

  /** A bracketed heading followed by a bracket-free list that has no
      whitespace at either end yields exactly that list. */
  lemma SingleSection(analysis: string, items: string)
    requires analysis == FullLabel + items
    requires items != [] && SectionOpen !in items
    requires !IsWhitespace(items[0]) && !IsWhitespace(items[|items| - 1])
    ensures ExtractClutterList(analysis) == items
  {
    var n := |FullLabel|;
    Concatenation(FullLabel, items, analysis);
    FullLabelSection(analysis, 0);
    SectionToEnd(analysis, n);
    TrimUnchanged(items);
  }

  /** The worked example: a bracketed section with two items. */
  lemma ExampleBottlesAndCups(analysis: string)
    requires analysis == FullLabel + "bottles, cups"
    ensures ExtractClutterList(analysis) == "bottles, cups"
  {
    SingleSection(analysis, "bottles, cups");
  }
}
