/** The pull-request summary: issues are fed in one at a time, each counted by severity
    and either left to an inline comment or queued for the summary's global list; the
    summary is then rendered once as a Markdown document. */
module GlobalReport {
  import opened Wrappers
  import opened Text
  import opened Severities
  import opened MarkDownUtils

  /** The parts of a scanner issue the summary uses. */
  datatype Issue = Issue(componentKey: string, severity: Severity, message: string, ruleKey: RuleKey)

  /** An issue queued for the global list, with the link to its file when there is one. */
  datatype GlobalEntry = GlobalEntry(issue: Issue, fileUrl: Option<string>)

  /** How many global issues the list shows when no limit is given. */
  const DefaultMaxGlobalIssues: nat := 10

  /** Fixed for one analysis: whether inline comments are attempted, the most global
      issues listed, and the server base URL the rule links point to. */
  datatype Config = Config(inlineEnabled: bool, maxGlobalIssues: nat, serverBaseUrl: string)

  function DefaultConfig(inlineEnabled: bool, serverBaseUrl: string): (c: Config)
    ensures c.maxGlobalIssues == 10
    ensures c.inlineEnabled == inlineEnabled && c.serverBaseUrl == serverBaseUrl
  {
    Config(inlineEnabled, DefaultMaxGlobalIssues, serverBaseUrl)
  }

  /** The state built up by `Process`: counts per severity and the queued global issues
      in arrival order. Issues counted but not queued went inline. */
  datatype Report = Report(config: Config, counts: SeverityCounts, global: seq<GlobalEntry>) {

    function Total(): nat {
      counts.Total()
    }

    predicate HasInlineIssue() {
      Total() > |global|
    }

    /** Every queued issue was counted, and nothing goes inline when inline comments
        are disabled. */
    predicate Valid() {
      |global| <= Total() && (!config.inlineEnabled ==> |global| == Total())
    }
  }

  /** A report before any issue: nothing counted, nothing queued. */
  function NewReport(config: Config): (r: Report)
    ensures r.config == config && r.global == []
    ensures forall s :: r.counts.Get(s) == 0
  {
    Report(config, SeverityCounts(0, 0, 0, 0, 0), [])
  }

  /** A fresh report counts nothing and is valid. */
  lemma NewReportValid(config: Config)
    ensures NewReport(config).Total() == 0
    ensures NewReport(config).Valid()
  {
  }

  /** An issue goes inline only when inline comments are enabled and the caller found
      its line among the lines the pull request changed. */
  predicate PlacedInline(config: Config, canBeInline: bool) {
    config.inlineEnabled && canBeInline
  }

  /** Records one issue: its severity's count goes up by one and no other count moves;
      unless it goes inline it is queued at the end of the global list. */
  function Process(r: Report, issue: Issue, fileUrl: Option<string>, canBeInline: bool): (r': Report)
    ensures r'.config == r.config
    ensures r'.counts.Get(issue.severity) == r.counts.Get(issue.severity) + 1
    ensures forall s :: s != issue.severity ==> r'.counts.Get(s) == r.counts.Get(s)
    ensures r'.Total() == r.Total() + 1
    ensures PlacedInline(r.config, canBeInline) ==> r'.global == r.global
    ensures !PlacedInline(r.config, canBeInline) ==> r'.global == r.global + [GlobalEntry(issue, fileUrl)]
    ensures r.Valid() ==> r'.Valid()
    ensures r.Valid() && PlacedInline(r.config, canBeInline) ==> r'.HasInlineIssue()
  {
    var counts := r.counts.Increment(issue.severity);
    if PlacedInline(r.config, canBeInline) then r.(counts := counts)
    else r.(counts := counts, global := r.global + [GlobalEntry(issue, fileUrl)])
  }

  /** One call of `Process`: the issue, its file link and the caller's placement verdict. */
  datatype Observation = Observation(issue: Issue, fileUrl: Option<string>, canBeInline: bool)

  /** The report after processing `obs` in order from a fresh report. */
  function Run(config: Config, obs: seq<Observation>): Report
    decreases |obs|
  {
    if |obs| == 0 then NewReport(config)
    else
      var last := obs[|obs| - 1];
      Process(Run(config, obs[..|obs| - 1]), last.issue, last.fileUrl, last.canBeInline)
  }

  /** How many of `obs` have severity `s`. */
  function CountOf(obs: seq<Observation>, s: Severity): nat {
    if |obs| == 0 then 0
    else (if obs[0].issue.severity == s then 1 else 0) + CountOf(obs[1..], s)
  }

  /** The observations that do not go inline, as global entries, in arrival order. */
  function NotInline(config: Config, obs: seq<Observation>): seq<GlobalEntry> {
    if |obs| == 0 then []
    else
      var rest := NotInline(config, obs[1..]);
      if PlacedInline(config, obs[0].canBeInline) then rest
      else [GlobalEntry(obs[0].issue, obs[0].fileUrl)] + rest
  }

  lemma {:induction false} CountOfSnoc(obs: seq<Observation>, o: Observation, s: Severity)
    ensures CountOf(obs + [o], s) == CountOf(obs, s) + (if o.issue.severity == s then 1 else 0)
  {
    if |obs| > 0 {
      assert (obs + [o])[1..] == obs[1..] + [o];
      CountOfSnoc(obs[1..], o, s);
    }
  }

  lemma {:induction false} NotInlineSnoc(config: Config, obs: seq<Observation>, o: Observation)
    ensures NotInline(config, obs + [o]) ==
            NotInline(config, obs) + (if PlacedInline(config, o.canBeInline) then [] else [GlobalEntry(o.issue, o.fileUrl)])
  {
    if |obs| == 0 {
      assert obs + [o] == [o];
    } else {
      assert (obs + [o])[1..] == obs[1..] + [o];
      NotInlineSnoc(config, obs[1..], o);
    }
  }

  /** `NotInline` drops exactly the observations that go inline. */
  lemma {:induction false} NotInlineLength(config: Config, obs: seq<Observation>)
    ensures |NotInline(config, obs)| <= |obs|
    ensures |NotInline(config, obs)| == |obs| <==> forall i :: 0 <= i < |obs| ==> !PlacedInline(config, obs[i].canBeInline)
  {
    if |obs| > 0 {
      NotInlineLength(config, obs[1..]);
      assert forall i :: 1 <= i < |obs| ==> obs[i] == obs[1..][i - 1];
    }
  }

  /** What `RunState` promises about the report built from `obs`. */
  predicate RunFacts(config: Config, obs: seq<Observation>) {
    var r := Run(config, obs);
    && r.config == config
    && (forall s :: r.counts.Get(s) == CountOf(obs, s))
    && r.Total() == |obs|
    && r.global == NotInline(config, obs)
    && r.Valid()
  }

  lemma RunStateEmpty(config: Config, obs: seq<Observation>)
    requires |obs| == 0
    ensures RunFacts(config, obs)
  {
    assert Run(config, obs) == NewReport(config);
    assert NotInline(config, obs) == [];
    assert forall s :: CountOf(obs, s) == 0;
    NewReportValid(config);
  }

  lemma RunStateStep(config: Config, init: seq<Observation>, last: Observation)
    requires RunFacts(config, init)
    ensures RunFacts(config, init + [last])
  {
    var obs := init + [last];
    assert obs[..|obs| - 1] == init && obs[|obs| - 1] == last;
    forall s
      ensures Run(config, obs).counts.Get(s) == CountOf(obs, s)
    {
      CountOfSnoc(init, last, s);
    }
    NotInlineSnoc(config, init, last);
  }

  /** After any sequence of `Process` calls: each severity's count is the number of
      issues of that severity, the counts add up to the number of calls, the global list
      holds exactly the issues that did not go inline in arrival order, and the report
      is valid. */
  lemma {:induction false} RunState(config: Config, obs: seq<Observation>)
    ensures Run(config, obs).config == config
    ensures forall s :: Run(config, obs).counts.Get(s) == CountOf(obs, s)
    ensures Run(config, obs).Total() == |obs|
    ensures Run(config, obs).global == NotInline(config, obs)
    ensures Run(config, obs).Valid()
  {
    if |obs| == 0 {
      RunStateEmpty(config, obs);
    } else {
      var init, last := obs[..|obs| - 1], obs[|obs| - 1];
      RunState(config, init);
      RunStateStep(config, init, last);
      assert init + [last] == obs;
    }
    assert RunFacts(config, obs);
  }

  /** Some issue went inline exactly when inline comments are enabled and the caller
      could place at least one issue inline. */
  lemma RunHasInlineIssue(config: Config, obs: seq<Observation>)
    ensures Run(config, obs).HasInlineIssue() <==>
            exists i :: 0 <= i < |obs| && PlacedInline(config, obs[i].canBeInline)
  {
    RunState(config, obs);
    NotInlineLength(config, obs);
  }

  // ---------------------------------------------------------------- rendering

  const NoIssuesText := "SonarQube analysis reported no issues."
  const WatchText := "\nWatch the comments in this conversation to review them.\n"
  const NoteText := "\nNote: The following issues were found on lines that were not modified in the pull request. Because these issues can't be reported as line comments, they are summarized here:\n"

  /** The first line: the total number of issues, pluralised. */
  function Header(total: nat): string {
    "SonarQube analysis reported " + Pluralize(total, "issue") + "\n"
  }

  /** One summary bullet: icon, the count and the lower-cased severity name. */
  function Bullet(s: Severity, n: nat): string {
    "* " + SeverityIcon(s) + " " + ShowNat(n) + " " + LowerName(s) + "\n"
  }

  /** The bullet of each severity of `sevs`, in the same order. */
  function BulletTexts(sevs: seq<Severity>, counts: SeverityCounts): (r: seq<string>)
    ensures |r| == |sevs|
  {
    seq(|sevs|, i requires 0 <= i < |sevs| => Bullet(sevs[i], counts.Get(sevs[i])))
  }

  /** One bullet per severity counted at least once, most important first. */
  function Bullets(counts: SeverityCounts): string {
    Concat(BulletTexts(BulletSeverities(counts), counts))
  }

  /** One numbered entry of the global list; every entry is numbered "1." and the
      Markdown renderer numbers them in sequence. */
  function EntryLine(e: GlobalEntry, baseUrl: string): string {
    "1. " + GlobalIssue(e.issue.severity, e.issue.message, e.issue.ruleKey, e.fileUrl, e.issue.componentKey, baseUrl) + "\n"
  }

  function ListText(entries: seq<GlobalEntry>, baseUrl: string): string {
    if |entries| == 0 then "" else EntryLine(entries[0], baseUrl) + ListText(entries[1..], baseUrl)
  }

  lemma ListTextOne(e: GlobalEntry, baseUrl: string)
    ensures ListText([e], baseUrl) == EntryLine(e, baseUrl)
  {
    assert [e][1..] == [];
    assert ListText([e], baseUrl) == EntryLine(e, baseUrl) + "";
  }

  /** The list grows by one line per entry queued, in queue order. */
  lemma {:induction false} ListTextSnoc(entries: seq<GlobalEntry>, e: GlobalEntry, baseUrl: string)
    ensures ListText(entries + [e], baseUrl) == ListText(entries, baseUrl) + EntryLine(e, baseUrl)
  {
    if |entries| == 0 {
      assert entries + [e] == [e];
    } else {
      assert (entries + [e])[1..] == entries[1..] + [e];
      ListTextSnoc(entries[1..], e, baseUrl);
      Text.AppendAssoc(EntryLine(entries[0], baseUrl), ListText(entries[1..], baseUrl), EntryLine(e, baseUrl));
    }
  }

  function Min(a: nat, b: nat): nat {
    if a <= b then a else b
  }

  /** The global issues the list shows: the first ones queued, up to the limit. */
  function Shown(r: Report): (es: seq<GlobalEntry>)
    ensures |es| == Min(|r.global|, r.config.maxGlobalIssues)
    ensures es <= r.global
  {
    r.global[..Min(|r.global|, r.config.maxGlobalIssues)]
  }

  predicate Truncated(r: Report) {
    |r.global| > r.config.maxGlobalIssues
  }

  /** The sub-heading above the global list, when there is one. */
  datatype Heading =
    | ExtraIssues(top: bool, count: nat)   // "#### [Top ]N extra issues", inline comments enabled
    | TopIssues(count: nat)                // "#### Top N issues", inline comments disabled

  function HeadingText(h: Heading): string {
    match h
    case ExtraIssues(top, n) => "\n#### " + (if top then "Top " else "") + Pluralize(n, "extra issue") + "\n"
    case TopIssues(n) => "\n#### Top " + Pluralize(n, "issue") + "\n"
  }

  /** The five shapes a summary takes. */
  datatype Variant = NoIssues | AllInline | Mixed | AllGlobal | InlineDisabled

  function Classify(r: Report): (v: Variant)
    ensures v == NoIssues <==> r.Total() == 0
    ensures v == InlineDisabled <==> r.Total() > 0 && !r.config.inlineEnabled
    ensures v == AllInline <==> r.Total() > 0 && r.config.inlineEnabled && |r.global| == 0
    ensures v == Mixed <==> r.Total() > 0 && r.config.inlineEnabled && |r.global| > 0 && r.HasInlineIssue()
    ensures v == AllGlobal <==> r.Total() > 0 && r.config.inlineEnabled && !r.HasInlineIssue()
    ensures v == AllGlobal ==> |r.global| > 0
  {
    if r.Total() == 0 then NoIssues
    else if !r.config.inlineEnabled then InlineDisabled
    else if |r.global| == 0 then AllInline
    else if r.HasInlineIssue() then Mixed
    else AllGlobal
  }

  /** The sub-heading of the global list: with inline comments enabled it is there when
      some issue went inline or the list is cut short, and counts the entries shown;
      with inline comments disabled it is there only when the list is cut short. */
  function ListHeading(r: Report): Option<Heading> {
    if r.config.inlineEnabled then
      if r.HasInlineIssue() || Truncated(r) then Some(ExtraIssues(Truncated(r), |Shown(r)|)) else None
    else if Truncated(r) then Some(TopIssues(r.config.maxGlobalIssues))
    else None
  }

  /** The severity bullets, shown when some issue went inline or the list is cut short. */
  function SummaryPart(r: Report): string {
    if r.HasInlineIssue() || Truncated(r) then Bullets(r.counts) else ""
  }

  /** The watch sentence pointing to the inline comments, shown when some issue went inline. */
  function WatchPart(r: Report): string {
    if r.config.inlineEnabled && r.HasInlineIssue() then WatchText else ""
  }

  function HeadingPart(r: Report): string {
    if |r.global| == 0 then ""
    else match ListHeading(r) case Some(h) => HeadingText(h) case None => ""
  }

  /** The note explaining why issues are listed here rather than inline. */
  function NotePart(r: Report): string {
    if |r.global| > 0 && r.config.inlineEnabled then NoteText else ""
  }

  /** A blank line and the entries shown, when any issue was queued. */
  function ListPart(r: Report): string {
    if |r.global| > 0 then "\n" + ListText(Shown(r), r.config.serverBaseUrl) else ""
  }

  lemma PrefixOfParts(h: string, a: string, b: string, c: string, d: string, e: string)
    ensures StartsWith(h + a + b + c + d + e, h)
  {
    assert h + a + b + c + d + e == h + (a + b + c + d + e);
    StartsWithAppend(h, a + b + c + d + e);
  }

  /** The summary document: the fixed no-issue sentence, or the header with the total
      followed by the parts the placement of the issues calls for. */
  function Render(r: Report): (doc: string)
    ensures r.Total() == 0 ==> doc == NoIssuesText
    ensures r.Total() > 0 ==> StartsWith(doc, Header(r.Total()))
  {
    if r.Total() == 0 then NoIssuesText
    else
      PrefixOfParts(Header(r.Total()), SummaryPart(r), WatchPart(r), HeadingPart(r), NotePart(r), ListPart(r));
      Header(r.Total()) + SummaryPart(r) + WatchPart(r) + HeadingPart(r) + NotePart(r) + ListPart(r)
  }

  lemma EmptyTail(a: string)
    ensures a + "" + "" + "" == a
  {
  }

  lemma DropEmpty(a: string, b: string)
    ensures a + "" + b == a + b
  {
  }

  lemma AllInlineParts(r: Report)
    requires Classify(r) == AllInline
    ensures SummaryPart(r) == Bullets(r.counts) && WatchPart(r) == WatchText
    ensures HeadingPart(r) == "" && NotePart(r) == "" && ListPart(r) == ""
  {
  }

  /** Every issue went inline: the counts and the watch sentence, nothing more. */
  lemma RenderAllInline(r: Report)
    requires Classify(r) == AllInline
    ensures Render(r) == Header(r.Total()) + Bullets(r.counts) + WatchText
  {
    AllInlineParts(r);
    EmptyTail(Header(r.Total()) + Bullets(r.counts) + WatchText);
  }

  lemma MixedParts(r: Report)
    requires Classify(r) == Mixed
    ensures SummaryPart(r) == Bullets(r.counts) && WatchPart(r) == WatchText
    ensures HeadingPart(r) == HeadingText(ExtraIssues(Truncated(r), |Shown(r)|))
    ensures NotePart(r) == NoteText
    ensures ListPart(r) == "\n" + ListText(Shown(r), r.config.serverBaseUrl)
  {
  }

  /** Some issues inline, some not: the watch sentence, then the extra
      issues under a sub-heading that counts the entries shown. */
  lemma RenderMixed(r: Report)
    requires Classify(r) == Mixed
    ensures Render(r) == Header(r.Total()) + Bullets(r.counts) + WatchText
                         + HeadingText(ExtraIssues(Truncated(r), |Shown(r)|))
                         + NoteText + ("\n" + ListText(Shown(r), r.config.serverBaseUrl))
  {
    MixedParts(r);
  }

  /** Nothing went inline and the list fits: no counts, no sub-heading, only the note and the list. */
  lemma RenderAllGlobal(r: Report)
    requires Classify(r) == AllGlobal && !Truncated(r)
    ensures Render(r) == Header(r.Total()) + NoteText + ("\n" + ListText(r.global, r.config.serverBaseUrl))
  {
    var h := Header(r.Total());
    assert SummaryPart(r) == "" && WatchPart(r) == "" && HeadingPart(r) == "";
    assert Shown(r) == r.global;
    assert h + SummaryPart(r) + WatchPart(r) + HeadingPart(r) == h;
  }

  lemma AllGlobalTruncatedParts(r: Report)
    requires Classify(r) == AllGlobal && Truncated(r)
    ensures SummaryPart(r) == Bullets(r.counts) && WatchPart(r) == ""
    ensures HeadingPart(r) == HeadingText(ExtraIssues(true, r.config.maxGlobalIssues))
    ensures NotePart(r) == NoteText
    ensures ListPart(r) == "\n" + ListText(Shown(r), r.config.serverBaseUrl)
  {
    assert |Shown(r)| == r.config.maxGlobalIssues;
  }

  /** Nothing went inline and the list is cut short: the counts and a "Top N extra issues" sub-heading. */
  lemma RenderAllGlobalTruncated(r: Report)
    requires Classify(r) == AllGlobal && Truncated(r)
    ensures Render(r) == Header(r.Total()) + Bullets(r.counts)
                         + HeadingText(ExtraIssues(true, r.config.maxGlobalIssues))
                         + NoteText + ("\n" + ListText(Shown(r), r.config.serverBaseUrl))
  {
    AllGlobalTruncatedParts(r);
    DropEmpty(Header(r.Total()) + SummaryPart(r), HeadingPart(r));
  }

  /** Inline comments disabled and the list fits: the plain list. */
  lemma RenderInlineDisabled(r: Report)
    requires Classify(r) == InlineDisabled && r.Valid() && !Truncated(r)
    ensures Render(r) == Header(r.Total()) + ("\n" + ListText(r.global, r.config.serverBaseUrl))
  {
    var h := Header(r.Total());
    assert SummaryPart(r) == "" && WatchPart(r) == "" && HeadingPart(r) == "" && NotePart(r) == "";
    assert Shown(r) == r.global;
    assert h + SummaryPart(r) + WatchPart(r) + HeadingPart(r) + NotePart(r) == h;
  }

  /** Inline comments disabled and the list cut short: the counts and a "Top N issues" sub-heading. */
  lemma RenderInlineDisabledTruncated(r: Report)
    requires Classify(r) == InlineDisabled && Truncated(r)
    ensures Render(r) == Header(r.Total()) + Bullets(r.counts)
                         + HeadingText(TopIssues(r.config.maxGlobalIssues))
                         + ("\n" + ListText(Shown(r), r.config.serverBaseUrl))
  {
    var h := Header(r.Total());
    assert WatchPart(r) == "" && NotePart(r) == "";
    assert h + SummaryPart(r) + WatchPart(r) == h + Bullets(r.counts);
    assert h + Bullets(r.counts) + HeadingPart(r) + NotePart(r) == h + Bullets(r.counts) + HeadingPart(r);
  }
}
