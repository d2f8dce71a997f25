/** The long-list tests: `n` MAJOR issues, each on its own line of one file and none
    inline, against a list limit below `n`. The summaries are derived for every such `n`
    and limit, then for the tests' seventeen issues and default limit of ten. */
module GlobalReportLimitScenarios {
  import opened Wrappers
  import opened Severities
  import opened MarkDownUtils
  import opened GlobalReport
  import opened GlobalReportScenarios
  import Text
  import UrlEncoding

  /** The file link of issue `i`: the repository URL, the file and the line anchor. */
  function FileUrl(i: nat): string {
    RepoUrl + "/" + ("File.java#L" + Text.ShowNat(i))
  }

  function LimitIssue(i: nat): Issue {
    TestIssue(Major, "Issue number:" + Text.ShowNat(i), "rule" + Text.ShowNat(i))
  }

  function LimitEntry(i: nat): GlobalEntry {
    GlobalEntry(LimitIssue(i), Some(FileUrl(i)))
  }

  /** Issues 0 to n - 1 fed in order, none of them placeable inline. */
  function FeedMany(config: Config, n: nat): Report {
    if n == 0 then NewReport(config)
    else Process(FeedMany(config, n - 1), LimitIssue(n - 1), Some(FileUrl(n - 1)), false)
  }

  function LimitEntries(n: nat): (es: seq<GlobalEntry>)
    ensures |es| == n
  {
    if n == 0 then [] else LimitEntries(n - 1) + [LimitEntry(n - 1)]
  }

  /** After `n` issues: `n` counted as MAJOR and nothing else, all of them queued in order. */
  lemma {:induction false} FeedManyState(config: Config, n: nat)
    ensures FeedMany(config, n).config == config
    ensures FeedMany(config, n).counts.Get(Major) == n
    ensures forall s :: s != Major ==> FeedMany(config, n).counts.Get(s) == 0
    ensures FeedMany(config, n).global == LimitEntries(n)
  {
    if n > 0 {
      FeedManyState(config, n - 1);
    }
  }

  lemma MajorTotal(c: SeverityCounts)
    requires forall s :: s != Major ==> c.Get(s) == 0
    ensures c.Total() == c.Get(Major)
  {
    assert c.Get(Info) == 0 && c.Get(Minor) == 0 && c.Get(Critical) == 0 && c.Get(Blocker) == 0;
  }

  /** The first `m` entries of the list of `n` are the list of `m`. */
  lemma {:induction false} LimitEntriesPrefix(m: nat, n: nat)
    requires m <= n
    ensures LimitEntries(n)[..m] == LimitEntries(m)
  {
    if m < n {
      LimitEntriesPrefix(m, n - 1);
      assert LimitEntries(n)[..n - 1] == LimitEntries(n - 1);
    }
  }

  /** The test's text of the global entry of issue `i`. */
  function FileLine(i: nat): string {
    EntryText("MAJOR", "major", LinkText("File.java#L" + Text.ShowNat(i), FileUrl(i)),
              "Issue number:" + Text.ShowNat(i), "rule" + Text.ShowNat(i))
  }

  /** The test's text of the entries of issues 0 to n - 1. */
  function FileLines(n: nat): string {
    if n == 0 then "" else FileLines(n - 1) + FileLine(n - 1)
  }

  lemma DigitsUnreserved(s: string)
    requires Text.AllDigits(s)
    ensures UrlEncoding.AllUnreserved(s)
  {
    forall i | 0 <= i < |s|
      ensures UrlEncoding.IsUnreserved(s[i])
    {
      assert Text.IsDigit(s[i]);
    }
  }

  lemma RuleUnreserved(i: nat)
    ensures UrlEncoding.AllUnreserved("rule" + Text.ShowNat(i))
  {
    var d := Text.ShowNat(i);
    DigitsUnreserved(d);
    var s := "rule" + d;
    forall k | 0 <= k < |s|
      ensures UrlEncoding.IsUnreserved(s[k])
    {
      if k >= 4 {
        assert s[k] == d[k - 4];
      }
    }
  }

  /** The link of issue `i` is labelled with the file name and line anchor. */
  lemma FileLocation(i: nat)
    ensures Location(FileUrl(i)) == "File.java#L" + Text.ShowNat(i)
  {
    var d := Text.ShowNat(i);
    var b := "File.java#L" + d;
    forall k | 0 <= k < |b|
      ensures b[k] != '/'
    {
      if k >= 11 {
        assert b[k] == d[k - 11];
        assert Text.IsDigit(d[k - 11]);
      }
    }
    Text.AfterLastJoin(RepoUrl, '/', b);
  }

  lemma FileEntryLine(i: nat)
    ensures EntryLine(LimitEntry(i), ServerUrl) == FileLine(i)
  {
    RuleUnreserved(i);
    EntryMatches(LimitEntry(i));
    FileLocation(i);
    NamesMajor();
  }

  lemma FileListStep(n: nat)
    requires n > 0 && ListText(LimitEntries(n - 1), ServerUrl) == FileLines(n - 1)
    ensures ListText(LimitEntries(n), ServerUrl) == FileLines(n)
  {
    FileEntryLine(n - 1);
    ListTextSnoc(LimitEntries(n - 1), LimitEntry(n - 1), ServerUrl);
  }

  /** The list of the first `n` entries reads as the test writes it. */
  lemma {:induction false} FileList(n: nat)
    ensures ListText(LimitEntries(n), ServerUrl) == FileLines(n)
  {
    if n > 0 {
      FileList(n - 1);
      FileListStep(n);
    }
  }

  /** The parts a truncated summary of `n` MAJOR issues is made of. */
  lemma LimitParts(config: Config, n: nat)
    requires config.serverBaseUrl == ServerUrl && n > config.maxGlobalIssues
    ensures FeedMany(config, n).Total() == n && Truncated(FeedMany(config, n))
    ensures Bullets(FeedMany(config, n).counts) == BulletText("MAJOR", "major", Text.ShowNat(n))
    ensures ListText(Shown(FeedMany(config, n)), config.serverBaseUrl) == FileLines(config.maxGlobalIssues)
  {
    var r := FeedMany(config, n);
    FeedManyState(config, n);
    MajorTotal(r.counts);
    BulletsSingle(Major, r.counts);
    BulletMatches(Major, n);
    NamesMajor();
    LimitEntriesPrefix(config.maxGlobalIssues, n);
    FileList(config.maxGlobalIssues);
  }

  lemma AssembleTail(head: string, list: string, lines: string)
    requires list == lines
    ensures head + ("\n" + list) == head + "\n" + lines
  {
  }

  /** With inline comments enabled and more issues than the limit, none of them inline:
      the MAJOR count, a "Top m extra issues" sub-heading, the note, and the first `m`
      issues. */
  lemma LimitGlobalIssues(config: Config, n: nat)
    requires config.inlineEnabled && config.serverBaseUrl == ServerUrl && n > config.maxGlobalIssues
    ensures Render(FeedMany(config, n))
         == Header(n) + BulletText("MAJOR", "major", Text.ShowNat(n))
          + HeadingText(ExtraIssues(true, config.maxGlobalIssues))
          + NoteText + "\n" + FileLines(config.maxGlobalIssues)
  {
    var r := FeedMany(config, n);
    FeedManyState(config, n);
    LimitParts(config, n);
    assert Classify(r) == AllGlobal;
    RenderAllGlobalTruncated(r);
    AssembleTail(Header(n) + BulletText("MAJOR", "major", Text.ShowNat(n))
                 + HeadingText(ExtraIssues(true, config.maxGlobalIssues)) + NoteText,
                 ListText(Shown(r), config.serverBaseUrl), FileLines(config.maxGlobalIssues));
  }

  /** With inline comments disabled and more issues than the limit: the MAJOR count, a
      "Top m issues" sub-heading and the first `m` issues. */
  lemma LimitGlobalIssuesWhenInlineCommentsDisabled(config: Config, n: nat)
    requires !config.inlineEnabled && config.serverBaseUrl == ServerUrl && n > config.maxGlobalIssues
    ensures Render(FeedMany(config, n))
         == Header(n) + BulletText("MAJOR", "major", Text.ShowNat(n))
          + HeadingText(TopIssues(config.maxGlobalIssues))
          + "\n" + FileLines(config.maxGlobalIssues)
  {
    var r := FeedMany(config, n);
    FeedManyState(config, n);
    LimitParts(config, n);
    assert Classify(r) == InlineDisabled;
    RenderInlineDisabledTruncated(r);
    AssembleTail(Header(n) + BulletText("MAJOR", "major", Text.ShowNat(n))
                 + HeadingText(TopIssues(config.maxGlobalIssues)),
                 ListText(Shown(r), config.serverBaseUrl), FileLines(config.maxGlobalIssues));
  }

  lemma ShowTen()
    ensures Text.ShowNat(10) == "10"
  {
  }

  lemma ShowSeventeen()
    ensures Text.ShowNat(17) == "17"
  {
  }

  lemma HeaderSeventeen()
    ensures Header(17) == "SonarQube analysis reported 17 issues\n"
  {
    ShowSeventeen();
  }

  lemma ExtraHeadingTen()
    ensures HeadingText(ExtraIssues(true, 10)) == "\n#### Top 10 extra issues\n"
  {
    ShowTen();
  }

  lemma TopHeadingTen()
    ensures HeadingText(TopIssues(10)) == "\n#### Top 10 issues\n"
  {
    ShowTen();
  }

  /** GlobalReportTest: seventeen issues off the changed lines, inline comments enabled,
      the default limit of ten. */
  lemma ShouldLimitGlobalIssues(config: Config)
    requires InlineConfig(config)
    ensures Render(FeedMany(config, 17))
         == "SonarQube analysis reported 17 issues\n" + BulletText("MAJOR", "major", "17")
          + "\n#### Top 10 extra issues\n" + NoteText + "\n" + FileLines(config.maxGlobalIssues)
    ensures config.maxGlobalIssues == 10
  {
    LimitGlobalIssues(config, 17);
    HeaderSeventeen();
    ShowSeventeen();
    ExtraHeadingTen();
  }

  /** GlobalReportTest: the same seventeen issues with inline comments disabled. */
  lemma ShouldLimitGlobalIssuesWhenInlineCommentsDisabled(config: Config)
    requires DisabledConfig(config, DefaultMaxGlobalIssues)
    ensures Render(FeedMany(config, 17))
         == "SonarQube analysis reported 17 issues\n" + BulletText("MAJOR", "major", "17")
          + "\n#### Top 10 issues\n" + "\n" + FileLines(config.maxGlobalIssues)
    ensures config.maxGlobalIssues == 10
  {
    LimitGlobalIssuesWhenInlineCommentsDisabled(config, 17);
    HeaderSeventeen();
    ShowSeventeen();
    TopHeadingTen();
  }
}
