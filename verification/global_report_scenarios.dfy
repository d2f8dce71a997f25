/** The summaries the plugin's own test suite expects, derived from the model. The
    expected documents are written with templates for the repeated lines; the long fixed
    texts inside them (the image host, the note, the repository URL) go through their
    named constants. */
module GlobalReportScenarios {
  import opened Wrappers
  import opened Severities
  import opened MarkDownUtils
  import opened GlobalReport
  import Text
  import UrlEncoding

  /** The tests' file URL, its last '/'-separated segment written apart: that segment is
      the label the file link shows. */
  const RepoUrl := "https://bitbucket.com/SonarCommunity" + "/" + "sonar-bitbucket"
  const ServerUrl := "http://myserver"

  function TestIssue(s: Severity, message: string, rule: string): Issue {
    Issue("component", s, message, RuleKey("repo", rule))
  }

  // ---------------------------------------------------------------- the tests' lines as templates

  function IconText(name: string, lower: string): string {
    "![" + name + "](" + ImagesRoot + "severity-" + lower + ".png)"
  }

  function BulletText(name: string, lower: string, count: string): string {
    "* " + IconText(name, lower) + " " + count + " " + lower + "\n"
  }

  function LinkText(caption: string, url: string): string {
    "[" + caption + "](" + url + ")"
  }

  function RuleLinkText(rule: string): string {
    "[![rule](" + ImagesRoot + "rule.png)](" + "http://myserver/coding_rules#rule_key=repo%3A" + rule + ")"
  }

  function EntryText(name: string, lower: string, place: string, message: string, rule: string): string {
    "1. " + (IconText(name, lower) + " " + place + ": " + message + " " + RuleLinkText(rule)) + "\n"
  }

  // ---------------------------------------------------------------- the templates match the model

  lemma BulletMatches(s: Severity, n: nat)
    ensures Bullet(s, n) == BulletText(Name(s), LowerName(s), Text.ShowNat(n))
  {
  }

  lemma NamesBlocker()
    ensures Name(Blocker) == "BLOCKER" && LowerName(Blocker) == "blocker"
  {
  }

  lemma NamesCritical()
    ensures Name(Critical) == "CRITICAL" && LowerName(Critical) == "critical"
  {
  }

  lemma NamesMajor()
    ensures Name(Major) == "MAJOR" && LowerName(Major) == "major"
  {
  }

  lemma NamesMinor()
    ensures Name(Minor) == "MINOR" && LowerName(Minor) == "minor"
  {
  }

  lemma NamesInfo()
    ensures Name(Info) == "INFO" && LowerName(Info) == "info"
  {
  }

  lemma EncodeColon()
    ensures UrlEncoding.Encode(":") == "%3A"
  {
    assert UrlEncoding.Utf8Char(':') == [58];
    assert UrlEncoding.EncodeChar(':') == "%3A";
  }

  lemma EncodeRepo()
    ensures UrlEncoding.Encode("repo") == "repo"
  {
    UrlEncoding.EncodeUnreserved("repo");
  }

  lemma EncodeRuleKey(rule: string)
    requires UrlEncoding.AllUnreserved(rule)
    ensures UrlEncoding.Encode("repo" + ":" + rule) == "repo%3A" + rule
  {
    UrlEncoding.EncodeAppend("repo" + ":", rule);
    UrlEncoding.EncodeAppend("repo", ":");
    EncodeRepo();
    EncodeColon();
    UrlEncoding.EncodeUnreserved(rule);
    assert "repo" + "%3A" == "repo%3A";
  }

  lemma ServerSlash()
    ensures RuleUrlPrefix(ServerUrl) == ServerUrl + "/"
  {
    assert !Text.EndsWith(ServerUrl, "/") by {
      assert ServerUrl[|ServerUrl| - 1] == 'r';
    }
  }

  lemma RuleUrlPrefixOfServer()
    ensures RuleUrlPrefix(ServerUrl) + RuleQuery == "http://myserver/coding_rules#rule_key="
  {
    ServerSlash();
    assert ServerUrl + "/" == "http://myserver/";
  }

  lemma RuleUrlOf(rule: string)
    requires UrlEncoding.AllUnreserved(rule)
    ensures RuleUrl(RuleKey("repo", rule), ServerUrl) == "http://myserver/coding_rules#rule_key=repo%3A" + rule
  {
    RuleUrlPrefixOfServer();
    EncodeRuleKey(rule);
    var q := "http://myserver/coding_rules#rule_key=";
    assert q + ("repo%3A" + rule) == q + "repo%3A" + rule;
    assert q + "repo%3A" == "http://myserver/coding_rules#rule_key=repo%3A";
  }

  /** The rule link of rule `rule` in repository "repo" on the test server. */
  lemma RuleLinkOf(rule: string)
    requires UrlEncoding.AllUnreserved(rule)
    ensures RuleLink(RuleKey("repo", rule), ServerUrl) == RuleLinkText(rule)
  {
    RuleUrlOf(rule);
  }

  /** Where an entry points: the file link labelled with its last segment, or the component key. */
  function Place(e: GlobalEntry): string {
    match e.fileUrl
    case Some(u) => LinkText(Location(u), u)
    case None => e.issue.componentKey
  }

  lemma EntryMatches(e: GlobalEntry)
    requires e.issue.ruleKey.repository == "repo" && UrlEncoding.AllUnreserved(e.issue.ruleKey.rule)
    ensures EntryLine(e, ServerUrl)
         == EntryText(Name(e.issue.severity), LowerName(e.issue.severity), Place(e), e.issue.message, e.issue.ruleKey.rule)
  {
    RuleLinkOf(e.issue.ruleKey.rule);
  }

  lemma RepoLabel()
    ensures Location(RepoUrl) == "sonar-bitbucket"
  {
    Text.AfterLastJoin("https://bitbucket.com/SonarCommunity", '/', "sonar-bitbucket");
  }

  lemma DescendingHead(order: seq<Severity>)
    requires forall i, j :: 0 <= i < j < |order| ==> Rank(order[i]) > Rank(order[j])
    ensures |order| >= 2 ==> order[0] != order[1]
  {
  }

  /** When a single severity was counted, the summary has the one bullet. */
  lemma BulletsSingle(s: Severity, c: SeverityCounts)
    requires c.Get(s) > 0
    requires forall t :: t != s ==> c.Get(t) == 0
    ensures Bullets(c) == Bullet(s, c.Get(s))
  {
    var order := BulletSeverities(c);
    assert s in order;
    forall i | 0 <= i < |order|
      ensures order[i] == s
    {
      assert c.Get(order[i]) > 0;
    }
    DescendingHead(order);
    if |order| >= 2 {
      assert false;
    }
    assert order == [s];
    assert BulletTexts(order, c)[0] == Bullet(s, c.Get(s));
  }

  lemma HeaderOne()
    ensures Header(1) == "SonarQube analysis reported 1 issue\n"
  {
    assert Text.ShowNat(1) == "1";
  }

  lemma HeaderFive()
    ensures Header(5) == "SonarQube analysis reported 5 issues\n"
  {
    assert Text.ShowNat(5) == "5";
  }

  lemma BulletBlockerOne()
    ensures Bullet(Blocker, 1) == BulletText("BLOCKER", "blocker", "1")
  {
    BulletMatches(Blocker, 1);
    NamesBlocker();
    assert Text.ShowNat(1) == "1";
  }

  lemma BulletCriticalOne()
    ensures Bullet(Critical, 1) == BulletText("CRITICAL", "critical", "1")
  {
    BulletMatches(Critical, 1);
    NamesCritical();
    assert Text.ShowNat(1) == "1";
  }

  lemma BulletMajorOne()
    ensures Bullet(Major, 1) == BulletText("MAJOR", "major", "1")
  {
    BulletMatches(Major, 1);
    NamesMajor();
    assert Text.ShowNat(1) == "1";
  }

  lemma BulletMinorOne()
    ensures Bullet(Minor, 1) == BulletText("MINOR", "minor", "1")
  {
    BulletMatches(Minor, 1);
    NamesMinor();
    assert Text.ShowNat(1) == "1";
  }

  lemma BulletInfoOne()
    ensures Bullet(Info, 1) == BulletText("INFO", "info", "1")
  {
    BulletMatches(Info, 1);
    NamesInfo();
    assert Text.ShowNat(1) == "1";
  }

  // ---------------------------------------------------------------- one issue

  /** GlobalReportTest.noIssues */
  lemma NoIssues()
    ensures Render(NewReport(DefaultConfig(true, ServerUrl))) == "SonarQube analysis reported no issues."
  {
  }

  function OneIssueReport(): Report {
    Process(NewReport(DefaultConfig(true, ServerUrl)), TestIssue(Info, "Issue", "rule"), Some(RepoUrl), true)
  }

  /** GlobalReportTest.oneIssue: the issue went inline. */
  lemma OneIssue()
    ensures Render(OneIssueReport())
         == "SonarQube analysis reported 1 issue\n"
          + BulletText("INFO", "info", "1")
          + "\nWatch the comments in this conversation to review them.\n"
  {
    var r := OneIssueReport();
    assert r.global == [] && r.Total() == 1;
    RenderAllInline(r);
    HeaderOne();
    BulletsSingle(Info, r.counts);
    BulletInfoOne();
  }

  function OneIssueOnDirReport(): Report {
    Process(NewReport(DefaultConfig(true, ServerUrl)), Issue("component0", Info, "Issue0", RuleKey("repo", "rule0")), None, false)
  }

  lemma OneIssueOnDirLine()
    ensures EntryLine(GlobalEntry(Issue("component0", Info, "Issue0", RuleKey("repo", "rule0")), None), ServerUrl)
         == EntryText("INFO", "info", "component0", "Issue0", "rule0")
  {
    var e := GlobalEntry(Issue("component0", Info, "Issue0", RuleKey("repo", "rule0")), None);
    assert UrlEncoding.AllUnreserved("rule0");
    EntryMatches(e);
    NamesInfo();
  }

  lemma OneIssueOnDirList()
    ensures ListText(OneIssueOnDirReport().global, ServerUrl) == EntryText("INFO", "info", "component0", "Issue0", "rule0")
  {
    var e := GlobalEntry(Issue("component0", Info, "Issue0", RuleKey("repo", "rule0")), None);
    assert OneIssueOnDirReport().global == [e];
    ListTextOne(e, ServerUrl);
    OneIssueOnDirLine();
  }

  /** GlobalReportTest.oneIssueOnDir: an issue on a directory has no file link and is listed
      under its component key. */
  lemma OneIssueOnDir()
    ensures Render(OneIssueOnDirReport())
         == "SonarQube analysis reported 1 issue\n"
          + NoteText + "\n"
          + EntryText("INFO", "info", "component0", "Issue0", "rule0")
  {
    var r := OneIssueOnDirReport();
    assert |r.global| == 1 && r.Total() == 1;
    RenderAllGlobal(r);
    HeaderOne();
    OneIssueOnDirList();
    Text.AppendAssoc(Header(1) + NoteText, "\n", ListText(r.global, ServerUrl));
  }

  // ---------------------------------------------------------------- five issues

  /** The five severity bullets of one issue each, as the tests write them. */
  function FiveBulletsText(): string {
    BulletText("BLOCKER", "blocker", "1")
    + BulletText("CRITICAL", "critical", "1")
    + BulletText("MAJOR", "major", "1")
    + BulletText("MINOR", "minor", "1")
    + BulletText("INFO", "info", "1")
  }

  /** Every severity counted: all five get a bullet, in display order. */
  lemma OneEachOrder(c: SeverityCounts)
    requires forall s :: c.Get(s) == 1
    ensures BulletSeverities(c) == [Blocker, Critical, Major, Minor, Info]
  {
    PositiveKeepsAll(DisplayOrder(), c);
  }

  lemma ConcatFive(a: string, b: string, c: string, d: string, e: string)
    ensures Text.Concat([a, b, c, d, e]) == a + b + c + d + e
  {
    Text.ConcatAppend([a, b, c, d], [e]);
    assert [a, b, c, d] + [e] == [a, b, c, d, e];
    Text.ConcatAppend([a, b, c], [d]);
    assert [a, b, c] + [d] == [a, b, c, d];
    Text.ConcatAppend([a, b], [c]);
    assert [a, b] + [c] == [a, b, c];
    Text.ConcatAppend([a], [b]);
    assert [a] + [b] == [a, b];
  }

  lemma ConcatOfFive(ts: seq<string>)
    requires |ts| == 5
    ensures Text.Concat(ts) == ts[0] + ts[1] + ts[2] + ts[3] + ts[4]
  {
    assert ts == [ts[0], ts[1], ts[2], ts[3], ts[4]];
    ConcatFive(ts[0], ts[1], ts[2], ts[3], ts[4]);
  }

  lemma BulletLinesOneEach(c: SeverityCounts)
    requires forall s :: c.Get(s) == 1
    ensures Bullets(c) == Bullet(Blocker, c.Get(Blocker)) + Bullet(Critical, c.Get(Critical)) + Bullet(Major, c.Get(Major))
                        + Bullet(Minor, c.Get(Minor)) + Bullet(Info, c.Get(Info))
  {
    OneEachOrder(c);
    ConcatOfFive(BulletTexts([Blocker, Critical, Major, Minor, Info], c));
  }

  /** One issue of each severity: five bullets, most important first. */
  lemma BulletsOneEach()
    ensures Bullets(SeverityCounts(1, 1, 1, 1, 1)) == FiveBulletsText()
  {
    BulletLinesOneEach(SeverityCounts(1, 1, 1, 1, 1));
    BulletBlockerOne();
    BulletCriticalOne();
    BulletMajorOne();
    BulletMinorOne();
    BulletInfoOne();
  }

  /** A global entry of the five-issue tests: linked to the repository URL, labelled with
      its last segment. */
  lemma RepoEntry(s: Severity, message: string, rule: string)
    requires UrlEncoding.AllUnreserved(rule)
    ensures EntryLine(GlobalEntry(TestIssue(s, message, rule), Some(RepoUrl)), ServerUrl)
         == EntryText(Name(s), LowerName(s), LinkText("sonar-bitbucket", RepoUrl), message, rule)
  {
    EntryMatches(GlobalEntry(TestIssue(s, message, rule), Some(RepoUrl)));
    RepoLabel();
  }

  /** The five issues of the numbered tests, in the order they are fed in. */
  function NumberedIssue(k: int): Issue
    requires 0 <= k < 5
  {
    if k == 0 then TestIssue(Info, "Issue 0", "rule0")
    else if k == 1 then TestIssue(Minor, "Issue 1", "rule1")
    else if k == 2 then TestIssue(Major, "Issue 2", "rule2")
    else if k == 3 then TestIssue(Critical, "Issue 3", "rule3")
    else TestIssue(Blocker, "Issue 4", "rule4")
  }

  function NumberedEntry(k: int): GlobalEntry
    requires 0 <= k < 5
  {
    GlobalEntry(NumberedIssue(k), Some(RepoUrl))
  }

  /** Feeds the five numbered issues, all linked to the repository URL, with the given
      placement verdicts. */
  function FeedFive(config: Config, in0: bool, in1: bool, in2: bool, in3: bool, in4: bool): Report {
    FeedFiveFrom(NewReport(config), in0, in1, in2, in3, in4)
  }

  function FeedFiveFrom(r: Report, in0: bool, in1: bool, in2: bool, in3: bool, in4: bool): Report {
    FeedFirst(r, [in0, in1, in2, in3, in4], 5)
  }

  /** Feeds the first `n` numbered issues in order, issue k with placement verdict `ins[k]`. */
  function FeedFirst(r: Report, ins: seq<bool>, n: nat): Report
    requires n <= |ins| && n <= 5
  {
    if n == 0 then r else Feed(FeedFirst(r, ins, n - 1), n - 1, ins[n - 1])
  }

  function Feed(r: Report, k: int, canBeInline: bool): Report
    requires 0 <= k < 5
  {
    Process(r, NumberedIssue(k), Some(RepoUrl), canBeInline)
  }

  const RepoLink := LinkText("sonar-bitbucket", RepoUrl)

  lemma NumberedEntry0()
    ensures NumberedEntry(0) == GlobalEntry(TestIssue(Info, "Issue 0", "rule0"), Some(RepoUrl))
  {
  }

  lemma NumberedLine0()
    ensures EntryLine(NumberedEntry(0), ServerUrl) == EntryText("INFO", "info", RepoLink, "Issue 0", "rule0")
  {
    NumberedEntry0();
    assert UrlEncoding.AllUnreserved("rule0");
    RepoEntry(Info, "Issue 0", "rule0");
    NamesInfo();
  }

  lemma NumberedEntry1()
    ensures NumberedEntry(1) == GlobalEntry(TestIssue(Minor, "Issue 1", "rule1"), Some(RepoUrl))
  {
  }

  lemma NumberedLine1()
    ensures EntryLine(NumberedEntry(1), ServerUrl) == EntryText("MINOR", "minor", RepoLink, "Issue 1", "rule1")
  {
    NumberedEntry1();
    assert UrlEncoding.AllUnreserved("rule1");
    RepoEntry(Minor, "Issue 1", "rule1");
    NamesMinor();
  }

  lemma NumberedEntry2()
    ensures NumberedEntry(2) == GlobalEntry(TestIssue(Major, "Issue 2", "rule2"), Some(RepoUrl))
  {
  }

  lemma NumberedLine2()
    ensures EntryLine(NumberedEntry(2), ServerUrl) == EntryText("MAJOR", "major", RepoLink, "Issue 2", "rule2")
  {
    NumberedEntry2();
    assert UrlEncoding.AllUnreserved("rule2");
    RepoEntry(Major, "Issue 2", "rule2");
    NamesMajor();
  }

  lemma NumberedEntry3()
    ensures NumberedEntry(3) == GlobalEntry(TestIssue(Critical, "Issue 3", "rule3"), Some(RepoUrl))
  {
  }

  lemma NumberedLine3()
    ensures EntryLine(NumberedEntry(3), ServerUrl) == EntryText("CRITICAL", "critical", RepoLink, "Issue 3", "rule3")
  {
    NumberedEntry3();
    assert UrlEncoding.AllUnreserved("rule3");
    RepoEntry(Critical, "Issue 3", "rule3");
    NamesCritical();
  }

  lemma NumberedEntry4()
    ensures NumberedEntry(4) == GlobalEntry(TestIssue(Blocker, "Issue 4", "rule4"), Some(RepoUrl))
  {
  }

  lemma NumberedLine4()
    ensures EntryLine(NumberedEntry(4), ServerUrl) == EntryText("BLOCKER", "blocker", RepoLink, "Issue 4", "rule4")
  {
    NumberedEntry4();
    assert UrlEncoding.AllUnreserved("rule4");
    RepoEntry(Blocker, "Issue 4", "rule4");
    NamesBlocker();
  }

  function NumberedSeverity(k: int): Severity
    requires 0 <= k < 5
  {
    [Info, Minor, Major, Critical, Blocker][k]
  }

  lemma FeedStep(r: Report, k: int, canBeInline: bool)
    requires 0 <= k < 5
    ensures Feed(r, k, canBeInline).counts == r.counts.Increment(NumberedSeverity(k))
    ensures Feed(r, k, canBeInline).config == r.config
  {
    assert NumberedIssue(k).severity == NumberedSeverity(k);
  }

  /** The counts after the first `k` numbered issues: one each of their severities. */
  function CountsAfter(k: int): SeverityCounts
    requires 0 <= k <= 5
  {
    SeverityCounts(if k > 0 then 1 else 0, if k > 1 then 1 else 0, if k > 2 then 1 else 0,
                   if k > 3 then 1 else 0, if k > 4 then 1 else 0)
  }

  lemma FeedCounts(r: Report, k: int, canBeInline: bool)
    requires 0 <= k < 5 && r.counts == CountsAfter(k)
    ensures Feed(r, k, canBeInline).counts == CountsAfter(k + 1)
    ensures Feed(r, k, canBeInline).config == r.config
  {
    FeedStep(r, k, canBeInline);
  }

  lemma FreshCounts(config: Config)
    ensures NewReport(config).counts == CountsAfter(0)
  {
  }

  /** Feeding the first `n` numbered issues to an empty count counts one of each of
      their severities, whatever their placement, and keeps the configuration. */
  lemma {:induction false} FeedFirstCounts(r: Report, ins: seq<bool>, n: nat)
    requires n <= |ins| && n <= 5 && r.counts == CountsAfter(0)
    ensures FeedFirst(r, ins, n).counts == CountsAfter(n)
    ensures FeedFirst(r, ins, n).config == r.config
  {
    if n > 0 {
      FeedFirstCounts(r, ins, n - 1);
      FeedCounts(FeedFirst(r, ins, n - 1), n - 1, ins[n - 1]);
    }
  }

  /** Feeding the five numbered issues counts one of each severity, whatever their placement. */
  lemma FeedFiveCounts(config: Config, in0: bool, in1: bool, in2: bool, in3: bool, in4: bool)
    ensures FeedFive(config, in0, in1, in2, in3, in4).counts == CountsAfter(5)
    ensures FeedFive(config, in0, in1, in2, in3, in4).config == config
  {
    FreshCounts(config);
    FeedFirstCounts(NewReport(config), [in0, in1, in2, in3, in4], 5);
  }

  /** The numbered issue goes to the global list exactly when it is not placed inline. */
  lemma FeedGlobal(r: Report, k: int, canBeInline: bool)
    requires 0 <= k < 5
    ensures PlacedInline(r.config, canBeInline) ==> Feed(r, k, canBeInline).global == r.global
    ensures !PlacedInline(r.config, canBeInline) ==> Feed(r, k, canBeInline).global == r.global + [NumberedEntry(k)]
  {
  }

  /** The configuration of the tests with inline comments enabled. */
  predicate InlineConfig(config: Config) {
    config == DefaultConfig(true, ServerUrl)
  }

  function MixedReport(config: Config): Report {
    FeedFive(config, true, false, true, false, true)
  }

  lemma MixedGlobalFrom(r0: Report)
    requires r0.config.inlineEnabled && r0.global == []
    ensures FeedFiveFrom(r0, true, false, true, false, true).global == [NumberedEntry(1), NumberedEntry(3)]
  {
    var ins := [true, false, true, false, true];
    assert FeedFirst(r0, ins, 0) == r0;
    var r1 := FeedFirst(r0, ins, 1);
    assert r1 == Feed(r0, 0, true);
    FeedStep(r0, 0, true);
    FeedGlobal(r0, 0, true);
    var r2 := FeedFirst(r0, ins, 2);
    assert r2 == Feed(r1, 1, false);
    FeedStep(r1, 1, false);
    FeedGlobal(r1, 1, false);
    var r3 := FeedFirst(r0, ins, 3);
    assert r3 == Feed(r2, 2, true);
    FeedStep(r2, 2, true);
    FeedGlobal(r2, 2, true);
    var r4 := FeedFirst(r0, ins, 4);
    assert r4 == Feed(r3, 3, false);
    FeedStep(r3, 3, false);
    FeedGlobal(r3, 3, false);
    assert FeedFirst(r0, ins, 5) == Feed(r4, 4, true);
    FeedGlobal(r4, 4, true);
  }

  /** Issues 1 and 3 could not go inline; they are queued in arrival order. */
  lemma MixedGlobal(config: Config)
    requires InlineConfig(config)
    ensures MixedReport(config).global == [NumberedEntry(1), NumberedEntry(3)]
  {
    MixedGlobalFrom(NewReport(config));
  }

  lemma CountsAfterFive()
    ensures CountsAfter(5) == SeverityCounts(1, 1, 1, 1, 1)
    ensures CountsAfter(5).Total() == 5
  {
  }

  lemma MixedState(config: Config)
    requires InlineConfig(config)
    ensures MixedReport(config).Total() == 5 && Classify(MixedReport(config)) == Mixed
    ensures !Truncated(MixedReport(config)) && Shown(MixedReport(config)) == MixedReport(config).global
    ensures MixedReport(config).config.serverBaseUrl == ServerUrl
  {
    FeedFiveCounts(config, true, false, true, false, true);
    MixedGlobal(config);
    MixedStateOf(MixedReport(config));
  }

  /** Any report holding one issue of each severity, issues 1 and 3 queued, under the
      inline-enabled configuration, has the mixed shape and shows its whole list. */
  lemma MixedStateOf(r: Report)
    requires InlineConfig(r.config) && r.counts == CountsAfter(5)
    requires r.global == [NumberedEntry(1), NumberedEntry(3)]
    ensures r.Total() == 5 && Classify(r) == Mixed
    ensures !Truncated(r) && Shown(r) == r.global
    ensures r.config.serverBaseUrl == ServerUrl
  {
    CountsAfterFive();
  }

  lemma ListTwo(a: GlobalEntry, b: GlobalEntry, baseUrl: string)
    ensures ListText([a, b], baseUrl) == EntryLine(a, baseUrl) + EntryLine(b, baseUrl)
  {
    ListTextOne(a, baseUrl);
    ListTextSnoc([a], b, baseUrl);
    assert [a] + [b] == [a, b];
  }

  lemma MixedList(config: Config)
    requires InlineConfig(config)
    ensures ListText(MixedReport(config).global, config.serverBaseUrl)
         == EntryText("MINOR", "minor", RepoLink, "Issue 1", "rule1")
          + EntryText("CRITICAL", "critical", RepoLink, "Issue 3", "rule3")
  {
    MixedGlobal(config);
    ListTwo(NumberedEntry(1), NumberedEntry(3), config.serverBaseUrl);
    NumberedLine1();
    NumberedLine3();
  }

  lemma PluralTwo()
    ensures Pluralize(2, "extra issue") == "2 extra issues"
  {
    assert Text.ShowNat(2) == "2";
  }

  lemma ExtraHeadingTwo()
    ensures HeadingText(ExtraIssues(false, 2)) == "\n#### 2 extra issues\n"
  {
    PluralTwo();
  }

  /** Re-associates a summary's parts from the order `Render` builds them to the order
      the tests write them. */
  lemma Assemble(head: string, parts: string, list: string, e1: string, e2: string)
    requires list == e1 + e2
    ensures head + parts + ("\n" + list) == head + parts + "\n" + e1 + e2
  {
  }

  lemma MixedTexts(config: Config)
    requires InlineConfig(config)
    ensures var r := MixedReport(config);
      && Header(r.Total()) == "SonarQube analysis reported 5 issues\n"
      && Bullets(r.counts) == FiveBulletsText()
      && HeadingText(ExtraIssues(Truncated(r), |Shown(r)|)) == "\n#### 2 extra issues\n"
      && ListText(Shown(r), r.config.serverBaseUrl)
         == EntryText("MINOR", "minor", RepoLink, "Issue 1", "rule1")
          + EntryText("CRITICAL", "critical", RepoLink, "Issue 3", "rule3")
  {
    MixedState(config);
    HeaderFive();
    FeedFiveCounts(config, true, false, true, false, true);
    CountsAfterFive();
    BulletsOneEach();
    MixedGlobal(config);
    ExtraHeadingTwo();
    MixedList(config);
  }

  /** GlobalReportTest: issues 1 and 3 off the changed lines, the rest inline. */
  lemma MixInlineGlobal(config: Config)
    requires InlineConfig(config)
    ensures Render(MixedReport(config))
         == "SonarQube analysis reported 5 issues\n"
          + FiveBulletsText()
          + "\nWatch the comments in this conversation to review them.\n"
          + "\n#### 2 extra issues\n"
          + NoteText + "\n"
          + EntryText("MINOR", "minor", RepoLink, "Issue 1", "rule1")
          + EntryText("CRITICAL", "critical", RepoLink, "Issue 3", "rule3")
  {
    var r := MixedReport(config);
    MixedState(config);
    RenderMixed(r);
    MixedTexts(config);
    Assemble("SonarQube analysis reported 5 issues\n" + FiveBulletsText() + WatchText + "\n#### 2 extra issues\n",
             NoteText, ListText(Shown(r), r.config.serverBaseUrl),
             EntryText("MINOR", "minor", RepoLink, "Issue 1", "rule1"),
             EntryText("CRITICAL", "critical", RepoLink, "Issue 3", "rule3"));
  }

  // ---------------------------------------------------------------- inline comments disabled

  /** The configuration of the tests with inline comments disabled, listing at most `limit`. */
  predicate DisabledConfig(config: Config, limit: nat) {
    config == Config(false, limit, ServerUrl)
  }

  function DisabledReport(config: Config): Report {
    FeedFive(config, false, false, false, false, false)
  }

  function AllNumbered(): seq<GlobalEntry> {
    [NumberedEntry(0), NumberedEntry(1), NumberedEntry(2), NumberedEntry(3), NumberedEntry(4)]
  }

  lemma AllGlobalFrom(r0: Report)
    requires r0.global == []
    ensures FeedFiveFrom(r0, false, false, false, false, false).global == AllNumbered()
  {
    var ins := [false, false, false, false, false];
    assert FeedFirst(r0, ins, 0) == r0;
    var r1 := FeedFirst(r0, ins, 1);
    assert r1 == Feed(r0, 0, false);
    FeedStep(r0, 0, false);
    FeedGlobal(r0, 0, false);
    var r2 := FeedFirst(r0, ins, 2);
    assert r2 == Feed(r1, 1, false);
    FeedStep(r1, 1, false);
    FeedGlobal(r1, 1, false);
    var r3 := FeedFirst(r0, ins, 3);
    assert r3 == Feed(r2, 2, false);
    FeedStep(r2, 2, false);
    FeedGlobal(r2, 2, false);
    var r4 := FeedFirst(r0, ins, 4);
    assert r4 == Feed(r3, 3, false);
    FeedStep(r3, 3, false);
    FeedGlobal(r3, 3, false);
    assert FeedFirst(r0, ins, 5) == Feed(r4, 4, false);
    FeedGlobal(r4, 4, false);
  }

  /** Nothing goes inline: all five issues are queued in arrival order. */
  lemma DisabledGlobal(config: Config)
    ensures DisabledReport(config).global == AllNumbered()
  {
    AllGlobalFrom(NewReport(config));
  }

  lemma DisabledState(config: Config, limit: nat)
    requires DisabledConfig(config, limit)
    ensures DisabledReport(config).Total() == 5 && Classify(DisabledReport(config)) == InlineDisabled
    ensures DisabledReport(config).Valid()
    ensures DisabledReport(config).counts == SeverityCounts(1, 1, 1, 1, 1)
    ensures Truncated(DisabledReport(config)) <==> limit < 5
    ensures DisabledReport(config).config == config
  {
    FeedFiveCounts(config, false, false, false, false, false);
    CountsAfterFive();
    DisabledGlobal(config);
  }

  lemma ListThree(a: GlobalEntry, b: GlobalEntry, c: GlobalEntry, baseUrl: string)
    ensures ListText([a, b, c], baseUrl) == ListText([a, b], baseUrl) + EntryLine(c, baseUrl)
  {
    assert [a, b] + [c] == [a, b, c];
    ListTextSnoc([a, b], c, baseUrl);
  }

  lemma ListFour(a: GlobalEntry, b: GlobalEntry, c: GlobalEntry, d: GlobalEntry, baseUrl: string)
    ensures ListText([a, b, c, d], baseUrl) == ListText([a, b, c], baseUrl) + EntryLine(d, baseUrl)
  {
    assert [a, b, c] + [d] == [a, b, c, d];
    ListTextSnoc([a, b, c], d, baseUrl);
  }

  lemma ListFive(a: GlobalEntry, b: GlobalEntry, c: GlobalEntry, d: GlobalEntry, e: GlobalEntry, baseUrl: string)
    ensures ListText([a, b, c, d, e], baseUrl) == ListText([a, b, c, d], baseUrl) + EntryLine(e, baseUrl)
  {
    assert [a, b, c, d] + [e] == [a, b, c, d, e];
    ListTextSnoc([a, b, c, d], e, baseUrl);
  }

  function Line0(): string { EntryText("INFO", "info", RepoLink, "Issue 0", "rule0") }
  function Line1(): string { EntryText("MINOR", "minor", RepoLink, "Issue 1", "rule1") }
  function Line2(): string { EntryText("MAJOR", "major", RepoLink, "Issue 2", "rule2") }
  function Line3(): string { EntryText("CRITICAL", "critical", RepoLink, "Issue 3", "rule3") }
  function Line4(): string { EntryText("BLOCKER", "blocker", RepoLink, "Issue 4", "rule4") }

  lemma DisabledList(config: Config)
    requires DisabledConfig(config, DefaultMaxGlobalIssues)
    ensures ListText(DisabledReport(config).global, config.serverBaseUrl)
         == Line0() + Line1() + Line2() + Line3() + Line4()
  {
    var url := config.serverBaseUrl;
    var e0, e1, e2, e3, e4 := NumberedEntry(0), NumberedEntry(1), NumberedEntry(2), NumberedEntry(3), NumberedEntry(4);
    DisabledGlobal(config);
    ListFive(e0, e1, e2, e3, e4, url);
    ListFour(e0, e1, e2, e3, url);
    ListThree(e0, e1, e2, url);
    ListTwo(e0, e1, url);
    NumberedLine0();
    NumberedLine1();
    NumberedLine2();
    NumberedLine3();
    NumberedLine4();
  }

  lemma AssembleFive(head: string, list: string, e0: string, e1: string, e2: string, e3: string, e4: string)
    requires list == e0 + e1 + e2 + e3 + e4
    ensures head + ("\n" + list) == head + "\n" + e0 + e1 + e2 + e3 + e4
  {
  }

  /** GlobalReportTest: with inline comments disabled every issue is listed, with no
      counts and no sub-heading. */
  lemma WhenInlineCommentsDisabled(config: Config)
    requires DisabledConfig(config, DefaultMaxGlobalIssues)
    ensures Render(DisabledReport(config))
         == "SonarQube analysis reported 5 issues\n" + "\n" + Line0() + Line1() + Line2() + Line3() + Line4()
  {
    DisabledState(config, DefaultMaxGlobalIssues);
    DisabledList(config);
    DisabledRenderAll(DisabledReport(config));
  }

  /** Any valid, untruncated inline-disabled report of five issues whose list reads
      `Line0()` to `Line4()` renders as the disabled test expects. */
  lemma DisabledRenderAll(r: Report)
    requires Classify(r) == InlineDisabled && r.Valid() && !Truncated(r) && r.Total() == 5
    requires ListText(r.global, r.config.serverBaseUrl) == Line0() + Line1() + Line2() + Line3() + Line4()
    ensures Render(r)
         == "SonarQube analysis reported 5 issues\n" + "\n" + Line0() + Line1() + Line2() + Line3() + Line4()
  {
    RenderInlineDisabled(r);
    HeaderFive();
    AssembleFive(Header(r.Total()), ListText(r.global, r.config.serverBaseUrl), Line0(), Line1(), Line2(), Line3(), Line4());
  }

  lemma TakeFour<T>(a: T, b: T, c: T, d: T, e: T)
    ensures [a, b, c, d, e][..4] == [a, b, c, d]
  {
  }

  lemma DisabledShownFour(config: Config)
    requires DisabledConfig(config, 4)
    ensures Shown(DisabledReport(config)) == [NumberedEntry(0), NumberedEntry(1), NumberedEntry(2), NumberedEntry(3)]
  {
    var r := DisabledReport(config);
    DisabledGlobal(config);
    assert |r.global| == 5;
    assert Shown(r) == r.global[..4];
    TakeFour(NumberedEntry(0), NumberedEntry(1), NumberedEntry(2), NumberedEntry(3), NumberedEntry(4));
  }

  lemma DisabledLimitList(config: Config)
    requires DisabledConfig(config, 4)
    ensures ListText(Shown(DisabledReport(config)), config.serverBaseUrl) == Line0() + Line1() + Line2() + Line3()
  {
    var url := config.serverBaseUrl;
    var e0, e1, e2, e3 := NumberedEntry(0), NumberedEntry(1), NumberedEntry(2), NumberedEntry(3);
    DisabledShownFour(config);
    ListFour(e0, e1, e2, e3, url);
    ListThree(e0, e1, e2, url);
    ListTwo(e0, e1, url);
    NumberedLine0();
    NumberedLine1();
    NumberedLine2();
    NumberedLine3();
  }

  lemma TopHeadingFour()
    ensures HeadingText(TopIssues(4)) == "\n#### Top 4 issues\n"
  {
    assert Text.ShowNat(4) == "4";
  }

  lemma AssembleFour(head: string, list: string, e0: string, e1: string, e2: string, e3: string)
    requires list == e0 + e1 + e2 + e3
    ensures head + ("\n" + list) == head + "\n" + e0 + e1 + e2 + e3
  {
  }

  lemma DisabledLimitParts(config: Config)
    requires DisabledConfig(config, 4)
    ensures var r := DisabledReport(config);
      && Header(r.Total()) == "SonarQube analysis reported 5 issues\n"
      && Bullets(r.counts) == FiveBulletsText()
      && HeadingText(TopIssues(r.config.maxGlobalIssues)) == "\n#### Top 4 issues\n"
      && ListText(Shown(r), r.config.serverBaseUrl) == Line0() + Line1() + Line2() + Line3()
  {
    DisabledState(config, 4);
    DisabledLimitList(config);
    CountedPartsOf(DisabledReport(config));
  }

  /** The header, bullets and "Top 4" heading of any report counting one issue of each
      severity with a limit of four. */
  lemma CountedPartsOf(r: Report)
    requires r.counts == SeverityCounts(1, 1, 1, 1, 1) && r.config.maxGlobalIssues == 4
    ensures Header(r.Total()) == "SonarQube analysis reported 5 issues\n"
    ensures Bullets(r.counts) == FiveBulletsText()
    ensures HeadingText(TopIssues(r.config.maxGlobalIssues)) == "\n#### Top 4 issues\n"
  {
    HeaderFive();
    BulletsOneEach();
    TopHeadingFour();
  }

  /** GlobalReportTest: inline comments disabled and a limit of four; the counts and a
      "Top 4 issues" sub-heading appear above the first four issues. */
  lemma WhenInlineCommentsDisabledAndLimitReached(config: Config)
    requires DisabledConfig(config, 4)
    ensures Render(DisabledReport(config))
         == "SonarQube analysis reported 5 issues\n" + FiveBulletsText() + "\n#### Top 4 issues\n"
          + "\n" + Line0() + Line1() + Line2() + Line3()
  {
    DisabledState(config, 4);
    DisabledLimitParts(config);
    DisabledRenderTop(DisabledReport(config));
  }

  /** Any truncated inline-disabled report with the counted parts and first four lines of
      the limit test renders as that test expects. */
  lemma DisabledRenderTop(r: Report)
    requires Classify(r) == InlineDisabled && Truncated(r)
    requires Header(r.Total()) == "SonarQube analysis reported 5 issues\n"
    requires Bullets(r.counts) == FiveBulletsText()
    requires HeadingText(TopIssues(r.config.maxGlobalIssues)) == "\n#### Top 4 issues\n"
    requires ListText(Shown(r), r.config.serverBaseUrl) == Line0() + Line1() + Line2() + Line3()
    ensures Render(r)
         == "SonarQube analysis reported 5 issues\n" + FiveBulletsText() + "\n#### Top 4 issues\n"
          + "\n" + Line0() + Line1() + Line2() + Line3()
  {
    RenderInlineDisabledTruncated(r);
    AssembleFour("SonarQube analysis reported 5 issues\n" + FiveBulletsText() + "\n#### Top 4 issues\n",
                 ListText(Shown(r), r.config.serverBaseUrl), Line0(), Line1(), Line2(), Line3());
  }

  // ---------------------------------------------------------------- five issues, all inline

  /** Feeds an issue of the k-th severity with the fixed message "Issue" and rule "rule",
      placed inline. */
  function FeedPlain(r: Report, k: int): Report
    requires 0 <= k < 5
  {
    Process(r, TestIssue(NumberedSeverity(k), "Issue", "rule"), Some(RepoUrl), true)
  }

  function PlainReportFrom(r: Report): Report {
    PlainFirst(r, 5)
  }

  /** Feeds the first `n` plain issues in order. */
  function PlainFirst(r: Report, n: nat): Report
    requires n <= 5
  {
    if n == 0 then r else FeedPlain(PlainFirst(r, n - 1), n - 1)
  }

  function PlainReport(config: Config): Report {
    PlainReportFrom(NewReport(config))
  }

  lemma FeedPlainStep(r: Report, k: int)
    requires 0 <= k < 5 && r.config.inlineEnabled && r.counts == CountsAfter(k)
    ensures FeedPlain(r, k).counts == CountsAfter(k + 1)
    ensures FeedPlain(r, k).config == r.config && FeedPlain(r, k).global == r.global
  {
  }

  lemma PlainFrom(r0: Report)
    requires r0.config.inlineEnabled && r0.counts == CountsAfter(0) && r0.global == []
    ensures PlainReportFrom(r0).counts == CountsAfter(5) && PlainReportFrom(r0).global == []
    ensures PlainReportFrom(r0).config == r0.config
  {
    PlainFirstState(r0, 5);
  }

  /** After the first `n` plain issues, one of each of their severities is counted and
      nothing is queued. */
  lemma {:induction false} PlainFirstState(r0: Report, n: nat)
    requires n <= 5
    requires r0.config.inlineEnabled && r0.counts == CountsAfter(0) && r0.global == []
    ensures PlainFirst(r0, n).counts == CountsAfter(n) && PlainFirst(r0, n).global == []
    ensures PlainFirst(r0, n).config == r0.config
  {
    if n > 0 {
      PlainFirstState(r0, n - 1);
      FeedPlainStep(PlainFirst(r0, n - 1), n - 1);
    }
  }

  lemma PlainState(config: Config)
    requires InlineConfig(config)
    ensures PlainReport(config).Total() == 5 && Classify(PlainReport(config)) == AllInline
    ensures PlainReport(config).counts == SeverityCounts(1, 1, 1, 1, 1)
  {
    FreshCounts(config);
    PlainFrom(NewReport(config));
    CountsAfterFive();
  }

  /** GlobalReportTest: every issue inline; the counts of all five severities, most
      important first, and the watch sentence. */
  lemma ShouldFormatIssuesForMarkdownNoInline(config: Config)
    requires InlineConfig(config)
    ensures Render(PlainReport(config))
         == "SonarQube analysis reported 5 issues\n" + FiveBulletsText()
          + "\nWatch the comments in this conversation to review them.\n"
  {
    var r := PlainReport(config);
    PlainState(config);
    RenderAllInline(r);
    HeaderFive();
    BulletsOneEach();
  }
}
