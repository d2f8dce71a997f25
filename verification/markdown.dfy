/** Formatting primitives of the summary comment: severity icons, rule links, file
    labels, one global-issue entry and simple English pluralisation. */
module MarkDownUtils {
  import opened Wrappers
  import opened Text
  import opened Severities
  import UrlEncoding

  /** Where the plugin's images are hosted. */
  const ImagesRoot := "https://raw.bitbucketusercontent.com/SonarCommunity/sonar-bitbucket/master/images/"

  /** A rule key: the rule repository and the rule inside it, printed "repository:rule". */
  datatype RuleKey = RuleKey(repository: string, rule: string) {
    function ToString(): string {
      repository + ":" + rule
    }
  }

  /** Markdown image of a severity icon: alt text is the enum name, the file name
      carries the lower-cased name. */
  function SeverityIcon(s: Severity): string {
    "![" + Name(s) + "](" + ImagesRoot + "severity-" + LowerName(s) + ".png)"
  }

  /** The icon's file name is the severity's name lower-cased character by character. */
  lemma SeverityIconLowerCased(s: Severity)
    ensures SeverityIcon(s) == "![" + Name(s) + "](" + ImagesRoot + "severity-" + Lower(Name(s)) + ".png)"
  {
    LowerNameIsLower(s);
  }

  /** The server base URL with one '/' at its end: unchanged when it already ends with
      '/', extended by one '/' otherwise. */
  function RuleUrlPrefix(baseUrl: string): string {
    if EndsWith(baseUrl, "/") then baseUrl else baseUrl + "/"
  }

  lemma RuleUrlPrefixEndsWithSlash(baseUrl: string)
    ensures EndsWith(RuleUrlPrefix(baseUrl), "/")
    ensures StartsWith(RuleUrlPrefix(baseUrl), baseUrl)
    ensures EndsWith(baseUrl, "/") ==> RuleUrlPrefix(baseUrl) == baseUrl
    ensures !EndsWith(baseUrl, "/") ==> |RuleUrlPrefix(baseUrl)| == |baseUrl| + 1
  {
    if !EndsWith(baseUrl, "/") {
      StartsWithAppend(baseUrl, "/");
      EndsWithAppend(baseUrl, "/");
    }
  }

  /** The query text that names the rule on the server's rules page. */
  const RuleQuery := "coding_rules#rule_key="

  /** The server page of rule `key`: the prefix, then the rule key URL-encoded. */
  function RuleUrl(key: RuleKey, baseUrl: string): string {
    RuleUrlPrefix(baseUrl) + RuleQuery + UrlEncoding.Encode(key.ToString())
  }

  /** The rule page URL carries the rule key so that it decodes back to the UTF-8 bytes
      of "repository:rule", whatever characters the key holds. */
  lemma RuleUrlDecodes(key: RuleKey, baseUrl: string)
    ensures StartsWith(RuleUrl(key, baseUrl), RuleUrlPrefix(baseUrl) + RuleQuery)
    ensures UrlEncoding.Decode(RuleUrl(key, baseUrl)[|RuleUrlPrefix(baseUrl) + RuleQuery|..])
            == Some(UrlEncoding.Utf8(key.repository + ":" + key.rule))
  {
    var head := RuleUrlPrefix(baseUrl) + RuleQuery;
    var r := RuleUrl(key, baseUrl);
    StartsWithAppend(head, UrlEncoding.Encode(key.ToString()));
    assert r[|head|..] == UrlEncoding.Encode(key.ToString());
    UrlEncoding.DecodeEncode(key.ToString());
  }

  /** A clickable rule image linking to the rule's page. */
  function RuleLink(key: RuleKey, baseUrl: string): string {
    "[![rule](" + ImagesRoot + "rule.png)](" + (RuleUrl(key, baseUrl) + ")")
  }

  lemma RuleLinkTargets(key: RuleKey, baseUrl: string)
    ensures StartsWith(RuleLink(key, baseUrl), "[![rule](" + ImagesRoot + "rule.png)](")
    ensures EndsWith(RuleLink(key, baseUrl), RuleUrl(key, baseUrl) + ")")
  {
    var head := "[![rule](" + ImagesRoot + "rule.png)](";
    StartsWithAppend(head, RuleUrl(key, baseUrl) + ")");
    EndsWithAppend(head, RuleUrl(key, baseUrl) + ")");
  }

  /** The label shown for a file link: the last '/'-separated segment of the URL. */
  function Location(url: string): string {
    AfterLast(url, '/')
  }

  /** The label is a suffix of the URL without '/', preceded by a '/' unless it is the
      whole URL. */
  lemma LocationIsLastSegment(url: string)
    ensures '/' !in Location(url)
    ensures EndsWith(url, Location(url))
    ensures |Location(url)| < |url| ==> url[|url| - |Location(url)| - 1] == '/'
  {
  }

  /** A link labelled with the file's location. */
  function FileLink(url: string): string {
    "[" + Location(url) + "](" + url + ")"
  }

  /** One global issue: severity icon, then either a link labelled with the file's
      location or, without a URL, the plain component key, then ": ", the message and
      the rule link. */
  function GlobalIssue(severity: Severity, message: string, key: RuleKey, url: Option<string>,
                       componentKey: string, baseUrl: string): string {
    var place := match url
      case Some(u) => FileLink(u)
      case None => componentKey;
    SeverityIcon(severity) + " " + place + ": " + message + " " + RuleLink(key, baseUrl)
  }

  /** The entry starts with the icon and the file link or component key, followed by the
      message, and ends with the rule link. */
  lemma GlobalIssueShape(severity: Severity, message: string, key: RuleKey, url: Option<string>,
                         componentKey: string, baseUrl: string)
    ensures var r := GlobalIssue(severity, message, key, url, componentKey, baseUrl);
      && (url.None? ==> StartsWith(r, SeverityIcon(severity) + " " + componentKey + ": " + message))
      && (url.Some? ==> StartsWith(r, SeverityIcon(severity) + " " + FileLink(url.value) + ": " + message))
      && EndsWith(r, RuleLink(key, baseUrl))
  {
    var place := match url
      case Some(u) => FileLink(u)
      case None => componentKey;
    var head := SeverityIcon(severity) + " " + place + ": " + message;
    var r := head + " " + RuleLink(key, baseUrl);
    StartsWithAppend(head, " ");
    StartsWithAppend(head + " ", RuleLink(key, baseUrl));
    StartsWithTrans(r, head + " ", head);
    EndsWithAppend(head + " ", RuleLink(key, baseUrl));
  }

  /** "N noun" for one, "N nouns" otherwise; no locale handling. */
  function Pluralize(n: nat, noun: string): string {
    if n == 1 then ShowNat(n) + " " + noun else ShowNat(n) + " " + noun + "s"
  }

  /** The plural "s" is added exactly when the count is not one. */
  lemma PluralizeForms(n: nat, noun: string)
    ensures StartsWith(Pluralize(n, noun), ShowNat(n) + " " + noun)
    ensures n == 1 <==> Pluralize(n, noun) == ShowNat(n) + " " + noun
    ensures n != 1 <==> Pluralize(n, noun) == ShowNat(n) + " " + noun + "s"
  {
    var base := ShowNat(n) + " " + noun;
    StartsWithAppend(base, "s");
    if n != 1 {
      assert |Pluralize(n, noun)| == |base| + 1;
    }
  }

  /** Different counts never read alike: the count can be recovered from the text. */
  lemma PluralizeInjective(n: nat, m: nat, noun: string)
    requires Pluralize(n, noun) == Pluralize(m, noun)
    ensures n == m
  {
    var a, b := ShowNat(n), ShowNat(m);
    var p := Pluralize(n, noun);
    PluralizeForms(n, noun);
    PluralizeForms(m, noun);
    assert p[..|a|] == a && p[|a|] == ' ';
    assert p[..|b|] == b && p[|b|] == ' ';
    assert |a| == |b|;
    assert a == b;
    ShowNatInjective(n, m);
  }
}
