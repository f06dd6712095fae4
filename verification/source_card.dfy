/**
  The arithmetic of the sources section under an assistant message: at most
  five source cards, previews cut to 150 characters plus `...`, and a note
  counting the sources that are not shown. Markup, styling and the score
  percentage are not modelled.
 */
module SourceCard {
  import opened Types
  import opened Text

  const MaxShown := 5
  const PreviewLimit := 150

  /** One source card: the file name and the preview text, if the preview is non-empty. */
  datatype Item = Item(filename: string, preview: Option<string>)

  /** The section: "n dari total", the cards, and how many more sources there are. */
  datatype Card = Card(count: nat, total: Option<int>, items: seq<Item>, more: Option<nat>)

  /** `sources.slice(0, 5)`. */
  function VisibleSources(s: seq<Source>): (v: seq<Source>)
    ensures |v| == (if |s| < MaxShown then |s| else MaxShown)
    ensures v == s[..|v|]
  {
    if |s| > MaxShown then s[..MaxShown] else s
  }

  /** The preview line: absent for an empty preview, cut to 150 characters plus `...` when longer. */
  function PreviewText(p: string): (r: Option<string>)
    ensures r.None? <==> p == ""
    ensures 0 < |p| <= PreviewLimit ==> r == Some(p)
    ensures |p| > PreviewLimit ==>
              && |r.value| == PreviewLimit + |Ellipsis|
              && r.value[..PreviewLimit] == p[..PreviewLimit]
              && r.value[PreviewLimit..] == Ellipsis
  {
    if p == "" then None
    else if |p| > PreviewLimit then Some(p[..PreviewLimit] + Ellipsis)
    else Some(p)
  }

  /** The "+n dokumen lainnya" note, shown only when there are more than five sources. */
  function Overflow(s: seq<Source>): (r: Option<nat>)
    ensures r.Some? <==> |s| > MaxShown
    ensures r.Some? ==> r.value > 0 && r.value + MaxShown == |s|
  {
    if |s| > MaxShown then Some(|s| - MaxShown) else None
  }

  /** The sources section of a message: only assistant messages with a non-empty source list have one. */
  function SourcesSection(m: Message): (c: Option<Card>)
    ensures c.Some? <==> m.AssistantMessage? && m.sources.Some? && |m.sources.value| > 0
    ensures c.Some? ==>
              var s := m.sources.value;
              && c.value.count == |s|
              && c.value.total == m.totalSources
              && |c.value.items| == (if |s| < MaxShown then |s| else MaxShown)
              && c.value.more == Overflow(s)
              && (forall i :: 0 <= i < |c.value.items| ==>
                    c.value.items[i] == Item(s[i].filename, PreviewText(s[i].contentPreview)))
  {
    match m
    case UserMessage(_) => None
    case AssistantMessage(_, sources, total, _) =>
      if sources.None? || |sources.value| == 0 then None
      else
        var s := sources.value;
        var v := VisibleSources(s);
        var items := seq(|v|, i requires 0 <= i < |v| => Item(v[i].filename, PreviewText(v[i].contentPreview)));
        Some(Card(|s|, total, items, Overflow(s)))
  }

  /** Every source is either shown as a card or counted in the overflow note. */
  lemma SectionAccountsForEverySource(m: Message)
    requires SourcesSection(m).Some?
    ensures var c := SourcesSection(m).value;
            |c.items| + ValueOr(c.more, 0) == c.count
  {
    var s := m.sources.value;
    assert |VisibleSources(s)| + ValueOr(Overflow(s), 0) == |s|;
  }
}
