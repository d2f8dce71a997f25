# sonar-bitbucket: pull-request summary and repository resolution in Dafny

This project models two pure parts of the SonarQube Bitbucket plugin.

**The global report** (`GlobalReport` together with `MarkDownUtils`). During an analysis, each issue is fed to `process(issue, fileUrl, canBeInline)`:
- its severity's count goes up by one;
- it either goes to an inline comment (inline comments enabled and the caller found its line among the changed lines) or is queued, in arrival order, on the global list.

`formatForMarkdown()` then renders one Markdown document. It has:
- a header with the pluralised total;
- severity bullets, most important first;
- the watch sentence pointing to the inline comments;
- an optional sub-heading;
- the explanatory note;
- the numbered global list, cut to a limit.

The formatting primitives are:
- severity icons;
- rule links, whose rule key is URL-encoded;
- file links, labelled with the last path segment;
- English pluralisation.

**Repository resolution** (`BitbucketPluginConfiguration.repository()` and the small accessors next to it). The repository name `owner/name` comes from three optional settings, in this order:
1. the explicit `sonar.bitbucket.repository` property;
2. the developer SCM link `sonar.links.scm_dev`;
3. the SCM link `sonar.links.scm`.

A location is recognised in the Maven SCM form `scm:git:git@host:owner/name.git` or as `http(s)://host/owner/name[.git]`. Resolution fails with one of two messages:
- "Unable to determine …" when nothing is configured;
- "Unable to parse …" when links are set but none is recognised. This message echoes both links, printing `null` for an unset one.

The accessors:
- the pull-request number is read as a signed 32-bit decimal number, and its presence enables reporting;
- the endpoint defaults to `https://api.bitbucket.com`;
- inline comments are attempted unless `sonar.bitbucket.disableInlineComments` reads as `true`.

The behaviour is taken from the exact-output tests `GlobalReportTest.java` and `BitbucketPluginConfigurationTest.java` and from the property declarations in `BitbucketPlugin.java`. Each test is replayed as a lemma about the model.

Files:
- `wrappers.dfy`: `Option`/`Result`.
- `text.dfy`: decimal printing and reading of signed 32-bit numbers, prefixes and suffixes, lower-casing, splitting, concatenation.
- `url_encoding.dfy`: `java.net.URLEncoder` in UTF-8, with a percent-decoder that inverts it.
- `severity.dfy`: severities, their names and display order, counts per severity.
- `markdown.dfy`: the formatting primitives.
- `global_report.dfy`: report state, `Process`, `Render`, and one rendering lemma per shape of summary.
- `global_report_scenarios.dfy`, `global_report_limit.dfy`: the report tests.
- `plugin_configuration.dfy`: settings, location parsing and printing, `Repository` and the accessors.
- `configuration_scenarios.dfy`: the configuration tests.

Where a property is about how two functions relate, or about a formatting primitive, it is stated as a lemma next to the function rather than as the function's own postcondition.

## Model

| member | source | states |
|---|---|---|
| GlobalReport.NewReport | src/test/java/org/sonar/plugins/bitbucket/GlobalReportTest.java:73-82 | a new report has the given configuration, counts zero for every severity and has an empty global list |
| GlobalReport.NewReportValid | src/test/java/org/sonar/plugins/bitbucket/GlobalReportTest.java:73-82 | a new report's total is zero and it satisfies the report invariant |
| GlobalReport.Process | src/test/java/org/sonar/plugins/bitbucket/GlobalReportTest.java:135-161 | one issue raises its own severity's count by one and leaves the others unchanged; it is appended to the global list exactly when it is not placed inline; the invariant is preserved; placing an issue inline makes the report have an inline issue |
| GlobalReport.RunStateEmpty | src/test/java/org/sonar/plugins/bitbucket/GlobalReportTest.java:73-82 | with no issues processed, every count is zero, the list is empty and the report is valid |
| GlobalReport.RunStateStep | src/test/java/org/sonar/plugins/bitbucket/GlobalReportTest.java:135-142 | if the report after some issues matches the reference counts and list, it still matches after one more issue |
| GlobalReport.RunState | src/test/java/org/sonar/plugins/bitbucket/GlobalReportTest.java:135-186 | after any sequence of issues: each count is the number of issues with that severity, the total is the number of issues, the global list holds exactly the non-inline issues in arrival order, and the report is valid |
| GlobalReport.CountOfSnoc | src/test/java/org/sonar/plugins/bitbucket/GlobalReportTest.java:116-120 | one more issue adds one to the reference count of its severity and nothing to the others |
| GlobalReport.NotInlineSnoc | src/test/java/org/sonar/plugins/bitbucket/GlobalReportTest.java:138-142 | one more issue extends the reference global list exactly when it is not placed inline |
| GlobalReport.NotInlineLength | src/test/java/org/sonar/plugins/bitbucket/GlobalReportTest.java:164-170 | the global list is never longer than the input, and has the same length exactly when no issue was placed inline |
| GlobalReport.RunHasInlineIssue | src/test/java/org/sonar/plugins/bitbucket/GlobalReportTest.java:135-161 | a report has an inline issue if and only if inline comments are enabled and some processed issue could be placed inline |
| GlobalReport.ListTextSnoc | src/test/java/org/sonar/plugins/bitbucket/GlobalReportTest.java:172-181 | the list text gains one entry line at its end for each queued issue, in queue order |
| GlobalReport.ListTextOne | src/test/java/org/sonar/plugins/bitbucket/GlobalReportTest.java:106 | a one-entry list is that entry's line |
| GlobalReport.Shown | src/test/java/org/sonar/plugins/bitbucket/GlobalReportTest.java:188-215 | the entries shown are a prefix of the global list, of length the smaller of the list length and the limit |
| GlobalReport.DefaultConfig | src/test/java/org/sonar/plugins/bitbucket/GlobalReportTest.java:217-226 | without an explicit limit, at most 10 global issues are listed; the inline switch and server base URL are the ones given |
| GlobalReport.Classify | src/test/java/org/sonar/plugins/bitbucket/GlobalReportTest.java:73-287 | the five shapes of summary (none, all inline, mixed, all global, inline disabled) are each characterised, in both directions, by the total, the inline flag and whether some issue went inline |
| GlobalReport.Render | src/test/java/org/sonar/plugins/bitbucket/GlobalReportTest.java:77-89 | with no issues the document is exactly the no-issues sentence; otherwise it starts with the header carrying the pluralised total |
| GlobalReport.RenderAllInline | src/test/java/org/sonar/plugins/bitbucket/GlobalReportTest.java:84-96 | when every issue went inline, the document is the header, the bullets and the watch sentence, and nothing more |
| GlobalReport.RenderMixed | src/test/java/org/sonar/plugins/bitbucket/GlobalReportTest.java:135-161 | with some issues inline and some not, the document is the header, the bullets, the watch sentence, the "extra issues" sub-heading counting the entries shown, the note and the list |
| GlobalReport.RenderAllGlobal | src/test/java/org/sonar/plugins/bitbucket/GlobalReportTest.java:98-111 | with nothing inline and the list within the limit, the document is the header, the note and the whole list: no bullets, no watch sentence, no sub-heading |
| GlobalReport.RenderAllGlobalTruncated | src/test/java/org/sonar/plugins/bitbucket/GlobalReportTest.java:217-252 | with nothing inline and the list cut short, the document is the header, the bullets, "Top N extra issues" for the limit N, the note and the first N entries |
| GlobalReport.RenderInlineDisabled | src/test/java/org/sonar/plugins/bitbucket/GlobalReportTest.java:163-186 | with inline comments disabled and the list within the limit, the document is the header and the whole list |
| GlobalReport.RenderInlineDisabledTruncated | src/test/java/org/sonar/plugins/bitbucket/GlobalReportTest.java:188-215 | with inline comments disabled and the list cut short, the document is the header, the bullets, "Top N issues" for the limit N and the first N entries |
| GlobalReport.AllInlineParts | src/test/java/org/sonar/plugins/bitbucket/GlobalReportTest.java:89-91 | in the all-inline shape, only the bullets and the watch sentence follow the header |
| GlobalReport.MixedParts | src/test/java/org/sonar/plugins/bitbucket/GlobalReportTest.java:144-156 | in the mixed shape, each part of the document is the bullets, the watch sentence, the extra-issues heading, the note and the list |
| GlobalReport.AllGlobalTruncatedParts | src/test/java/org/sonar/plugins/bitbucket/GlobalReportTest.java:224-229 | in the truncated all-global shape, the heading is "Top N extra issues" with N the limit, and there is no watch sentence |
| Severities.BulletSeverities | src/test/java/org/sonar/plugins/bitbucket/GlobalReportTest.java:116-128 | the severities that get a bullet are exactly those counted at least once, in strictly descending severity order |
| Severities.PositiveKeepsAll | src/test/java/org/sonar/plugins/bitbucket/GlobalReportTest.java:122-127 | when every severity of an ordering was counted, none is dropped and the order is kept |
| Severities.DisplayOrder | src/test/java/org/sonar/plugins/bitbucket/GlobalReportTest.java:123-127 | the display order holds every severity, from BLOCKER down to INFO |
| Severities.Increment | src/test/java/org/sonar/plugins/bitbucket/GlobalReportTest.java:220-225 | incrementing one severity raises only that count, and the total by one |
| Severities.LowerNameIsLower | src/test/java/org/sonar/plugins/bitbucket/GlobalReportTest.java:90 | the lower-case name used in bullets and icon files is the printed name lower-cased letter by letter |
| MarkDownUtils.SeverityIconLowerCased | src/test/java/org/sonar/plugins/bitbucket/GlobalReportTest.java:90 | the icon's alt text is the severity's name and its image file is `severity-` plus that name lower-cased |
| MarkDownUtils.RuleUrlPrefixEndsWithSlash | src/test/java/org/sonar/plugins/bitbucket/GlobalReportTest.java:54 | the rule URL base always ends with '/': it is the server URL unchanged when that already ends with '/', and the server URL plus one '/' otherwise |
| MarkDownUtils.RuleUrlDecodes | src/test/java/org/sonar/plugins/bitbucket/GlobalReportTest.java:106 | the rule URL is the base, then `coding_rules#rule_key=`, then a suffix that percent-decodes to the UTF-8 bytes of "repository:rule" |
| MarkDownUtils.RuleLinkTargets | src/test/java/org/sonar/plugins/bitbucket/GlobalReportTest.java:106 | the rule link is the rule image, linking to the rule URL |
| MarkDownUtils.LocationIsLastSegment | src/test/java/org/sonar/plugins/bitbucket/GlobalReportTest.java:229 | the file label is the URL's suffix after its last '/', and contains no '/' |
| MarkDownUtils.GlobalIssueShape | src/test/java/org/sonar/plugins/bitbucket/GlobalReportTest.java:106 | an entry starts with the icon, then either the file link or the plain component key, then ": " and the message; it ends with the rule link |
| MarkDownUtils.PluralizeForms | src/test/java/org/sonar/plugins/bitbucket/GlobalReportTest.java:89 | "N noun" exactly when N is one, "N nouns" exactly when it is not |
| MarkDownUtils.PluralizeInjective | src/test/java/org/sonar/plugins/bitbucket/GlobalReportTest.java:122 | different counts never produce the same text |
| UrlEncoding.DecodeEncode | src/test/java/org/sonar/plugins/bitbucket/GlobalReportTest.java:106 | percent-decoding the encoded text gives back its UTF-8 bytes |
| UrlEncoding.EncodeUnreserved | src/test/java/org/sonar/plugins/bitbucket/GlobalReportTest.java:106 | letters, digits and `.-*_` are left as they are by URL encoding |
| Text.ShowNatRoundTrip | src/test/java/org/sonar/plugins/bitbucket/GlobalReportTest.java:224 | a count printed in decimal reads back as the same count |
| Text.ShowNatInjective | src/test/java/org/sonar/plugins/bitbucket/GlobalReportTest.java:224 | different counts print differently |
| GlobalReportScenarios.NoIssues | src/test/java/org/sonar/plugins/bitbucket/GlobalReportTest.java:73-82 | with no issues processed, the summary is the no-issues sentence |
| GlobalReportScenarios.OneIssue | src/test/java/org/sonar/plugins/bitbucket/GlobalReportTest.java:84-96 | one INFO issue placed inline renders as the test's expected text |
| GlobalReportScenarios.OneIssueOnDir | src/test/java/org/sonar/plugins/bitbucket/GlobalReportTest.java:98-111 | one INFO issue without a file link, not placeable inline, renders as the test's expected text, naming its component key plainly |
| GlobalReportScenarios.ShouldFormatIssuesForMarkdownNoInline | src/test/java/org/sonar/plugins/bitbucket/GlobalReportTest.java:113-133 | five inline issues arriving INFO first render with their bullets from BLOCKER down to INFO, then the watch sentence |
| GlobalReportScenarios.MixInlineGlobal | src/test/java/org/sonar/plugins/bitbucket/GlobalReportTest.java:135-161 | three inline and two global issues render with "2 extra issues" and the two global entries in arrival order |
| GlobalReportScenarios.WhenInlineCommentsDisabled | src/test/java/org/sonar/plugins/bitbucket/GlobalReportTest.java:163-186 | with inline comments disabled, five issues render as the header and all five entries in arrival order |
| GlobalReportScenarios.WhenInlineCommentsDisabledAndLimitReached | src/test/java/org/sonar/plugins/bitbucket/GlobalReportTest.java:188-215 | with a limit of 4, the same five issues render with the bullets, "Top 4 issues" and the first four entries |
| GlobalReportScenarios.BulletsOneEach | src/test/java/org/sonar/plugins/bitbucket/GlobalReportTest.java:122-127 | one issue of each severity gives the five bullets of the test, BLOCKER first |
| GlobalReportScenarios.BulletsSingle | src/test/java/org/sonar/plugins/bitbucket/GlobalReportTest.java:225 | when only one severity was counted, the bullets are that severity's single bullet |
| GlobalReportScenarios.FeedFirstCounts | src/test/java/org/sonar/plugins/bitbucket/GlobalReportTest.java:137-142 | feeding the tests' first n numbered issues (INFO, MINOR, MAJOR, CRITICAL, BLOCKER in that order) counts one of each of their severities, whatever each issue's placement, and keeps the configuration |
| GlobalReportScenarios.MixedState | src/test/java/org/sonar/plugins/bitbucket/GlobalReportTest.java:137-142 | after the mixed test's five issues the total is 5, the summary has the mixed shape and the list is not cut |
| GlobalReportScenarios.MixedGlobal | src/test/java/org/sonar/plugins/bitbucket/GlobalReportTest.java:139-141 | the mixed test's global list holds issues 1 and 3, in that order |
| GlobalReportScenarios.DisabledState | src/test/java/org/sonar/plugins/bitbucket/GlobalReportTest.java:165-170 | with inline comments disabled, the five issues give total 5, one count per severity, a valid report, and a list cut short exactly when the limit is below 5 |
| GlobalReportScenarios.DisabledGlobal | src/test/java/org/sonar/plugins/bitbucket/GlobalReportTest.java:166-170 | with inline comments disabled, all five issues are queued in arrival order |
| GlobalReportLimitScenarios.FeedManyState | src/test/java/org/sonar/plugins/bitbucket/GlobalReportTest.java:220-222 | after n MAJOR issues, the MAJOR count is n, the others are zero, and all n issues are queued in order |
| GlobalReportLimitScenarios.LimitEntriesPrefix | src/test/java/org/sonar/plugins/bitbucket/GlobalReportTest.java:229-247 | the first m of the n queued entries are the entries of issues 0 to m - 1 |
| GlobalReportLimitScenarios.FileList | src/test/java/org/sonar/plugins/bitbucket/GlobalReportTest.java:229-247 | the list of the first n entries is the test's lines for issues 0 to n - 1, each linking `File.java#Li` |
| GlobalReportLimitScenarios.LimitGlobalIssues | src/test/java/org/sonar/plugins/bitbucket/GlobalReportTest.java:217-252 | for any n above the limit, with inline comments enabled: the MAJOR bullet with count n, "Top N extra issues", the note, and the first N entries |
| GlobalReportLimitScenarios.LimitGlobalIssuesWhenInlineCommentsDisabled | src/test/java/org/sonar/plugins/bitbucket/GlobalReportTest.java:254-287 | the same with inline comments disabled: "Top N issues" and no note |
| GlobalReportLimitScenarios.ShouldLimitGlobalIssues | src/test/java/org/sonar/plugins/bitbucket/GlobalReportTest.java:217-252 | seventeen MAJOR issues with the default limit render as "17 issues", "17 major", "Top 10 extra issues", the note and entries 0 to 9 |
| GlobalReportLimitScenarios.ShouldLimitGlobalIssuesWhenInlineCommentsDisabled | src/test/java/org/sonar/plugins/bitbucket/GlobalReportTest.java:254-287 | the same seventeen issues with inline comments disabled render with "Top 10 issues" and entries 0 to 9 |
| BitbucketPluginConfiguration.Repository | src/test/java/org/sonar/plugins/bitbucket/BitbucketPluginConfigurationTest.java:42-88 | an explicit repository always gives a name, and an explicit value that is not a recognised location is that name as written; resolution fails exactly when there is no explicit repository and neither link is recognised; it fails as "undetermined" exactly when nothing is configured, and otherwise as "unparsable" carrying the developer link first and the SCM link second, each as set or unset |
| BitbucketPluginConfiguration.ExplicitNameVerbatim | src/test/java/org/sonar/plugins/bitbucket/BitbucketPluginConfigurationTest.java:87-88 | an explicit repository property without ':' is never read as a location and is the name exactly as written, whatever the links say |
| BitbucketPluginConfiguration.ParseRemote | src/test/java/org/sonar/plugins/bitbucket/BitbucketPluginConfigurationTest.java:71-86 | every recognised location is well formed and prints back to exactly the input |
| BitbucketPluginConfiguration.ParsePrint | src/test/java/org/sonar/plugins/bitbucket/BitbucketPluginConfigurationTest.java:71-86 | every well-formed SSH or HTTP(S) location, with or without ".git", is recognised and read back to its own host, owner and name |
| BitbucketPluginConfiguration.ParsePrintSsh | src/test/java/org/sonar/plugins/bitbucket/BitbucketPluginConfigurationTest.java:71-72 | the SSH form `scm:git:git@host:owner/name.git` reads back to its components |
| BitbucketPluginConfiguration.ParsePrintHttp | src/test/java/org/sonar/plugins/bitbucket/BitbucketPluginConfigurationTest.java:83-86 | the HTTP(S) form reads back to its scheme, host, owner, name and ".git" flag |
| BitbucketPluginConfiguration.HttpOfPrint | src/test/java/org/sonar/plugins/bitbucket/BitbucketPluginConfigurationTest.java:83-86 | reading the last path segment drops a ".git" suffix and remembers it, so the location prints back as written |
| BitbucketPluginConfiguration.SplitScheme | src/test/java/org/sonar/plugins/bitbucket/BitbucketPluginConfigurationTest.java:83-86 | a recognised scheme and the rest of the URL join back to the URL |
| BitbucketPluginConfiguration.Message | src/test/java/org/sonar/plugins/bitbucket/BitbucketPluginConfigurationTest.java:48-58 | the undetermined message starts "Unable to determine"; the unparsable one starts "Unable to parse", echoes the developer link first and ends with the SCM link, each printing `null` when unset |
| BitbucketPluginConfiguration.MessagesDistinct | src/test/java/org/sonar/plugins/bitbucket/BitbucketPluginConfigurationTest.java:42-68 | the two failure messages always differ |
| BitbucketPluginConfiguration.LinkRemote | src/test/java/org/sonar/plugins/bitbucket/BitbucketPluginConfigurationTest.java:57-67 | an unset link is never recognised; a recognised one prints back to the setting |
| BitbucketPluginConfiguration.RepositoryFromLinks | src/test/java/org/sonar/plugins/bitbucket/BitbucketPluginConfigurationTest.java:70-81 | without an explicit repository, a resolved name is the "owner/name" of the developer link when that is recognised, else of the SCM link |
| BitbucketPluginConfiguration.DevLinkWins | src/test/java/org/sonar/plugins/bitbucket/BitbucketPluginConfigurationTest.java:77-81 | a recognised developer link decides the name whatever the SCM link says |
| BitbucketPluginConfiguration.ExplicitRepositoryWins | src/test/java/org/sonar/plugins/bitbucket/BitbucketPluginConfigurationTest.java:83-88 | an explicit repository decides the name whatever either link says |
| BitbucketPluginConfiguration.SlugOfLocation | src/test/java/org/sonar/plugins/bitbucket/BitbucketPluginConfigurationTest.java:70-86 | a well-formed location reduces to "owner/name" in whichever setting decides |
| BitbucketPluginConfiguration.RepositoryIdempotent | src/test/java/org/sonar/plugins/bitbucket/BitbucketPluginConfigurationTest.java:87-88 | a resolved name without ':', set as the explicit repository, resolves to itself |
| BitbucketPluginConfiguration.PullRequestNumber | src/test/java/org/sonar/plugins/bitbucket/BitbucketPluginConfigurationTest.java:96-99 | a pull-request number is read only when the property is set, and is then exactly what `ParseInt` reads from it, in the 32-bit signed range |
| BitbucketPluginConfiguration.PullRequestNumberRoundTrip | src/test/java/org/sonar/plugins/bitbucket/BitbucketPluginConfigurationTest.java:97-99 | every 32-bit number set in decimal reads back unchanged and enables reporting |
| Text.ParseShowInt | src/test/java/org/sonar/plugins/bitbucket/BitbucketPluginConfigurationTest.java:97-98 | `Integer.parseInt` inverts decimal printing on the whole 32-bit signed range |
| Text.ParseInt | src/test/java/org/sonar/plugins/bitbucket/BitbucketPluginConfigurationTest.java:97-98 | text is accepted exactly when, after an optional '+' or '-', it is a non-empty run of ASCII digits whose signed value fits 32 bits, and the result is that signed value |
| Text.ParseIntLeadingZero | src/test/java/org/sonar/plugins/bitbucket/BitbucketPluginConfigurationTest.java:97-98 | a leading zero after the optional sign changes neither acceptance nor value ("003" reads as 3) |
| Text.ParseIntRejectsNonDigit | src/test/java/org/sonar/plugins/bitbucket/BitbucketPluginConfigurationTest.java:97-98 | any character after the optional sign that is not a digit makes the text rejected ("3x", "abc") |
| Text.DigitsValueLeadingZero | src/test/java/org/sonar/plugins/bitbucket/BitbucketPluginConfigurationTest.java:97-98 | prefixing a run of digits with '0' keeps it a run of digits of the same value |
| BitbucketPluginConfiguration.Endpoint | src/main/java/org/sonar/plugins/bitbucket/BitbucketPlugin.java:29-34 | the endpoint is the configured one, or `https://api.bitbucket.com` when unset |
| BitbucketPluginConfiguration.TryReportIssuesInline | src/main/java/org/sonar/plugins/bitbucket/BitbucketPlugin.java:55-62 | inline comments are attempted when the disable flag is unset, and otherwise exactly when it does not read as "true" in any letter case |
| BitbucketPluginConfiguration.InlineOffExactlyForTrue | src/test/java/org/sonar/plugins/bitbucket/BitbucketPluginConfigurationTest.java:105-107 | a set flag turns inline comments off exactly when it has four characters that lower-case, one by one, to "true" |
| ConfigurationScenarios.NotALocation | src/test/java/org/sonar/plugins/bitbucket/BitbucketPluginConfigurationTest.java:52 | a value starting with neither 's' nor 'h' is not a recognised location |
| ConfigurationScenarios.NothingConfigured | src/test/java/org/sonar/plugins/bitbucket/BitbucketPluginConfigurationTest.java:44-50 | with nothing configured, resolution fails with the message naming `sonar.bitbucket.repository` and `sonar.links.scm` |
| ConfigurationScenarios.UnrecognisedLink | src/test/java/org/sonar/plugins/bitbucket/BitbucketPluginConfigurationTest.java:52-59 | an unrecognised SCM link fails with the message echoing `sonar.links.scm_dev: null` and the link |
| ConfigurationScenarios.UnrecognisedDevLink | src/test/java/org/sonar/plugins/bitbucket/BitbucketPluginConfigurationTest.java:60-68 | an unrecognised developer link fails with the message echoing it and `sonar.links.scm: null` |
| ConfigurationScenarios.FromScmLink | src/test/java/org/sonar/plugins/bitbucket/BitbucketPluginConfigurationTest.java:70-75 | an SSH-form SCM link gives "owner/name", also next to an unrecognised developer link |
| ConfigurationScenarios.FromScmDevLink | src/test/java/org/sonar/plugins/bitbucket/BitbucketPluginConfigurationTest.java:77-81 | an SSH-form developer link gives its "owner/name", with or without the SCM link |
| ConfigurationScenarios.FromRepositoryUrl | src/test/java/org/sonar/plugins/bitbucket/BitbucketPluginConfigurationTest.java:83-86 | an explicit `https://` or `http://` URL ending in ".git" gives "owner/name" without ".git" |
| ConfigurationScenarios.FromRepositoryName | src/test/java/org/sonar/plugins/bitbucket/BitbucketPluginConfigurationTest.java:87-88 | an explicit "owner/name" is used as written |
| ConfigurationScenarios.PullRequestThree | src/test/java/org/sonar/plugins/bitbucket/BitbucketPluginConfigurationTest.java:96-99 | without a pull-request number reporting is off; "3" turns it on with number 3 |
| ConfigurationScenarios.EndpointSwitch | src/test/java/org/sonar/plugins/bitbucket/BitbucketPluginConfigurationTest.java:101-103 | the endpoint is the public API by default and the configured one once set |
| ConfigurationScenarios.InlineSwitch | src/test/java/org/sonar/plugins/bitbucket/BitbucketPluginConfigurationTest.java:105-107 | inline comments are attempted by default and not once the disable flag is "true" |

## Left out

- Posting the summary and the inline comments, the Bitbucket API, OAuth and the `Settings`/property framework: these are I/O or framework calls. Settings are a record of optional strings.
- Whether an issue's line lies in the pull request's diff is decided by the caller. It is the `canBeInline` parameter.
- The `isNew` filter: every test feeds new issues, so no filtering is modelled.
- The server base URL is a configuration parameter. How SonarQube derives it from `sonar.host.url` or `sonar.core.serverBaseURL` is not modelled.
- Location recognition covers only the two shapes the tests use. It does not cover every string the plugin's regular expressions may accept.
- The default issue limit is 10, as `shouldLimitGlobalIssues` shows.
- Severity bullets are "count lower-case-name" without a plural "s" ("17 major"), as `shouldLimitGlobalIssues` shows.
- The bullets are shown only when some issue went inline or the list is cut short: the single global issue of `oneIssueOnDir` has no bullet.
- An all-global summary with inline comments enabled gets a "Top N extra issues" sub-heading when the list is cut short, as `shouldLimitGlobalIssues` shows; without truncation it has no sub-heading.
- GlobalReportLimitScenarios.ShouldLimitGlobalIssues: states the ten entries as `FileLines(10)`, the test's line for each issue i from 0 to 9, rather than as one literal string. `FileLine` spells out that text.
- ConfigurationScenarios.FromScmLink: proved for every host, owner and name of the SSH form, not for the test's literal URL. The test's segments satisfy the lemma's requirements, but deciding that on the literal strings is left out.
- ConfigurationScenarios.FromScmDevLink: proved for every SSH-form developer link, not for the test's literal URL, for the same reason.
- ConfigurationScenarios.FromRepositoryUrl: proved for every `http(s)://host/owner/name.git`, not for the test's literal URLs, for the same reason.
- ConfigurationScenarios.NothingConfigured: states the message with the property-key constants in place of their values, as the test does.
- The OAuth token accessor just returns a setting, so it is not modelled.
- BitbucketPluginConfiguration.PullRequestNumber: accepts only the ASCII digits '0'-'9', whereas the plugin's number reading also accepts the other Unicode decimal digits; and malformed text gives no number, the same result as an unset property, whereas the plugin fails with an exception there. Exceptions are not modelled.
- Text.ParseInt: reads ASCII digits only, for the same reason; the text of other scripts' digits is rejected.
- The sub-headings pluralise their count ("1 extra issue", "Top 1 issue"). The tests pin only counts above one, so the singular form is a choice of this model.
