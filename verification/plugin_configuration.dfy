/** What the plugin reads from the analysis settings: which Bitbucket repository and
    pull request are analysed, the API endpoint, and whether inline comments are
    attempted. The repository name is resolved from up to three settings with a fixed
    precedence. */
module BitbucketPluginConfiguration {
  import opened Wrappers
  import opened Text

  const RepositoryKey := "sonar.bitbucket.repository"
  const LinksSourcesKey := "sonar.links.scm"
  const LinksSourcesDevKey := "sonar.links.scm_dev"
  const DefaultEndpoint := "https://api.bitbucket.com"

  /** The settings the plugin reads; an absent value is an unset property. */
  datatype Settings = Settings(
    repository: Option<string>,
    linksSourcesDev: Option<string>,
    linksSources: Option<string>,
    pullRequest: Option<string>,
    endpoint: Option<string>,
    disableInlineComments: Option<string>)

  const NoSettings := Settings(None, None, None, None, None, None)

  // ---------------------------------------------------------------- repository URLs

  /** A repository location the plugin recognises: the Maven SCM form
      `scm:git:git@host:owner/name.git`, or `http(s)://host/owner/name` with an
      optional `.git` suffix. */
  datatype Remote =
    | Ssh(host: string, owner: string, name: string)
    | Http(secure: bool, host: string, owner: string, name: string, dotGit: bool)

  const SshPrefix := "scm:git:git@"
  const GitSuffix := ".git"

  /** A non-empty URL path segment. */
  predicate IsSegment(s: string) {
    |s| > 0 && '/' !in s
  }

  /** Whether a last path segment loses a ".git" suffix when read: only when something remains. */
  predicate StripsGit(seg: string) {
    EndsWith(seg, GitSuffix) && |seg| > |GitSuffix|
  }

  /** The components a recognised location can have: non-empty segments without '/',
      an SSH host without ':', and an HTTP name that does not itself look like it
      carries the ".git" suffix when none is written. */
  predicate WellFormed(r: Remote) {
    match r
    case Ssh(host, owner, name) => IsSegment(host) && ':' !in host && IsSegment(owner) && IsSegment(name)
    case Http(_, host, owner, name, dotGit) =>
      IsSegment(host) && IsSegment(owner) && IsSegment(name) && (!dotGit ==> !StripsGit(name))
  }

  function Scheme(secure: bool): string {
    if secure then "https://" else "http://"
  }

  /** The last path segment of an HTTP location as written. */
  function LastSegment(name: string, dotGit: bool): string {
    name + if dotGit then GitSuffix else ""
  }

  /** The location written out. */
  function Print(r: Remote): string {
    match r
    case Ssh(host, owner, name) => SshPrefix + (host + ":" + (owner + "/" + name + GitSuffix))
    case Http(secure, host, owner, name, dotGit) =>
      Scheme(secure) + (host + "/" + (owner + "/" + LastSegment(name, dotGit)))
  }

  /** The canonical "owner/name" the plugin reports. */
  function Slug(r: Remote): string {
    r.owner + "/" + r.name
  }

  lemma StripSuffix(s: string, suffix: string)
    requires EndsWith(s, suffix)
    ensures s == s[..|s| - |suffix|] + suffix
  {
  }

  /** Reads `host:owner/name.git`, what follows the SSH prefix. */
  function ParseSshPath(rest: string): (r: Option<Remote>)
    ensures r.Some? ==> r.value.Ssh? && WellFormed(r.value) && Print(r.value) == SshPrefix + rest
  {
    match SplitFirst(rest, ':')
    case None => None
    case Some((host, path)) =>
      if !EndsWith(path, GitSuffix) then None
      else
        var body := path[..|path| - |GitSuffix|];
        StripSuffix(path, GitSuffix);
        match SplitFirst(body, '/')
        case None => None
        case Some((owner, name)) =>
          if IsSegment(host) && |owner| > 0 && IsSegment(name) then Some(Ssh(host, owner, name)) else None
  }

  function ParseSsh(u: string): (r: Option<Remote>)
    ensures r.Some? ==> r.value.Ssh? && WellFormed(r.value) && Print(r.value) == u
  {
    if !StartsWith(u, SshPrefix) then None
    else
      var rest := u[|SshPrefix|..];
      assert u == SshPrefix + rest;
      ParseSshPath(rest)
  }

  /** The HTTP location read from its last path segment: a ".git" suffix is dropped and
      remembered when something remains before it. */
  function HttpOf(secure: bool, host: string, owner: string, last: string): Remote {
    if StripsGit(last) then Http(secure, host, owner, last[..|last| - |GitSuffix|], true)
    else Http(secure, host, owner, last, false)
  }

  lemma HttpOfPrint(secure: bool, host: string, owner: string, last: string)
    requires IsSegment(host) && IsSegment(owner) && IsSegment(last)
    ensures WellFormed(HttpOf(secure, host, owner, last))
    ensures Print(HttpOf(secure, host, owner, last)) == Scheme(secure) + (host + "/" + (owner + "/" + last))
  {
    if StripsGit(last) {
      StripSuffix(last, GitSuffix);
      var name := last[..|last| - |GitSuffix|];
      assert forall k :: 0 <= k < |name| ==> name[k] == last[k];
      assert LastSegment(name, true) == last;
    }
  }

  lemma PathJoin(rest: string, host: string, path: string, owner: string, last: string)
    requires rest == host + ['/'] + path && path == owner + ['/'] + last
    ensures rest == host + "/" + (owner + "/" + last)
  {
  }

  /** Reads `host/owner/name` or `host/owner/name.git`, what follows the scheme. */
  function ParseHttpPath(secure: bool, rest: string): (r: Option<Remote>)
    ensures r.Some? ==> r.value.Http? && WellFormed(r.value) && Print(r.value) == Scheme(secure) + rest
  {
    match SplitFirst(rest, '/')
    case None => None
    case Some((host, path)) =>
      match SplitFirst(path, '/')
      case None => None
      case Some((owner, last)) =>
        if !(IsSegment(host) && |owner| > 0 && IsSegment(last)) then None
        else
          HttpOfPrint(secure, host, owner, last);
          PathJoin(rest, host, path, owner, last);
          Some(HttpOf(secure, host, owner, last))
  }

  /** The scheme of an HTTP(S) location and what follows it. */
  function SplitScheme(u: string): (r: Option<(bool, string)>)
    ensures r.Some? ==> u == Scheme(r.value.0) + r.value.1
  {
    if StartsWith(u, "https://") then
      assert u == "https://" + u[8..];
      Some((true, u[8..]))
    else if StartsWith(u, "http://") then
      assert u == "http://" + u[7..];
      Some((false, u[7..]))
    else None
  }

  function ParseHttp(u: string): (r: Option<Remote>)
    ensures r.Some? ==> r.value.Http? && WellFormed(r.value) && Print(r.value) == u
  {
    match SplitScheme(u)
    case None => None
    case Some((secure, rest)) => ParseHttpPath(secure, rest)
  }

  /** Reads a repository location; whatever it returns prints back to exactly the input. */
  function ParseRemote(u: string): (r: Option<Remote>)
    ensures r.Some? ==> WellFormed(r.value) && Print(r.value) == u
  {
    var ssh := ParseSsh(u);
    if ssh.Some? then ssh else ParseHttp(u)
  }

  lemma ParsePrintSsh(host: string, owner: string, name: string)
    requires WellFormed(Ssh(host, owner, name))
    ensures ParseSsh(Print(Ssh(host, owner, name))) == Some(Ssh(host, owner, name))
  {
    var path := owner + "/" + name + GitSuffix;
    var rest := host + ":" + path;
    var u := SshPrefix + rest;
    assert u[..|SshPrefix|] == SshPrefix;
    assert u[|SshPrefix|..] == rest;
    SplitFirstJoin(host, ':', path);
    assert path[..|path| - |GitSuffix|] == owner + "/" + name;
    SplitFirstJoin(owner, '/', name);
  }

  lemma SplitSchemeOf(secure: bool, rest: string)
    ensures SplitScheme(Scheme(secure) + rest) == Some((secure, rest))
  {
    var u := Scheme(secure) + rest;
    if secure {
      assert u[..8] == "https://";
    } else {
      assert u[4] == ':';
      assert u[..7] == "http://";
    }
  }

  lemma LastSegmentIsSegment(name: string)
    requires IsSegment(name)
    ensures IsSegment(LastSegment(name, true)) && StripsGit(LastSegment(name, true))
    ensures LastSegment(name, true)[..|LastSegment(name, true)| - |GitSuffix|] == name
  {
    var last := LastSegment(name, true);
    assert last[|last| - |GitSuffix|..] == GitSuffix;
    forall i | 0 <= i < |last| ensures last[i] != '/' {
      if i < |name| { assert last[i] == name[i]; } else { assert last[i] == GitSuffix[i - |name|]; }
    }
  }

  lemma ParsePrintHttpPath(secure: bool, host: string, owner: string, name: string, dotGit: bool)
    requires WellFormed(Http(secure, host, owner, name, dotGit))
    ensures ParseHttpPath(secure, host + "/" + (owner + "/" + LastSegment(name, dotGit)))
      == Some(Http(secure, host, owner, name, dotGit))
  {
    var last := LastSegment(name, dotGit);
    SplitFirstJoin(host, '/', owner + "/" + last);
    SplitFirstJoin(owner, '/', last);
    if dotGit {
      LastSegmentIsSegment(name);
    } else {
      assert last == name;
    }
  }

  lemma ParsePrintHttp(secure: bool, host: string, owner: string, name: string, dotGit: bool)
    requires WellFormed(Http(secure, host, owner, name, dotGit))
    ensures ParseHttp(Print(Http(secure, host, owner, name, dotGit))) == Some(Http(secure, host, owner, name, dotGit))
  {
    var rest := host + "/" + (owner + "/" + LastSegment(name, dotGit));
    SplitSchemeOf(secure, rest);
    ParsePrintHttpPath(secure, host, owner, name, dotGit);
  }

  /** Every well-formed location is recognised and read back to its own components. */
  lemma ParsePrint(r: Remote)
    requires WellFormed(r)
    ensures ParseRemote(Print(r)) == Some(r)
  {
    match r
    case Ssh(host, owner, name) =>
      ParsePrintSsh(host, owner, name);
    case Http(secure, host, owner, name, dotGit) =>
      ParsePrintHttp(secure, host, owner, name, dotGit);
      var u := Print(r);
      assert u[0] == 'h';
      assert !StartsWith(u, SshPrefix) by {
        assert SshPrefix[0] == 's';
      }
  }

  // ---------------------------------------------------------------- repository resolution

  /** Why no repository name could be found. */
  datatype ConfigError =
    | Undetermined                                          // neither SCM link is set
    | Unparsable(dev: Option<string>, links: Option<string>) // some SCM link is set but none is recognised

  /** An absent value prints as Java prints a null string. */
  function ShowSetting(v: Option<string>): string {
    match v
    case Some(s) => s
    case None => "null"
  }

  const UndeterminedText := "Unable to determine" + " Bitbucket repository name for this project. Please provide it using property '"
  const UnparsableText := "Unable to parse" + " Bitbucket repository name for this project. Please check configuration:\n  * "

  /** The message shown to the user: the undetermined case names the properties to set;
      the unparsable case echoes the developer link first and the link second. */
  function Message(e: ConfigError): (m: string)
    ensures e.Undetermined? ==> StartsWith(m, UndeterminedText)
    ensures e.Unparsable? ==> StartsWith(m, UnparsableText + LinksSourcesDevKey + ": " + ShowSetting(e.dev))
    ensures e.Unparsable? ==> EndsWith(m, "\n  * " + LinksSourcesKey + ": " + ShowSetting(e.links))
  {
    match e
    case Undetermined =>
      var tail := RepositoryKey + "' or configure property '" + LinksSourcesKey + "'.";
      StartsWithAppend(UndeterminedText, tail);
      UndeterminedText + tail
    case Unparsable(dev, links) =>
      var head := UnparsableText + LinksSourcesDevKey + ": " + ShowSetting(dev);
      var tail := "\n  * " + LinksSourcesKey + ": " + ShowSetting(links);
      StartsWithAppend(head, tail);
      EndsWithAppend(head, tail);
      head + tail
  }

  /** The two kinds of failure always read differently. */
  lemma MessagesDistinct(dev: Option<string>, links: Option<string>)
    ensures Message(Undetermined) != Message(Unparsable(dev, links))
  {
    var a, b := Message(Undetermined), Message(Unparsable(dev, links));
    assert a[10] == "Unable to determine"[10];
    assert b[10] == "Unable to parse"[10];
  }

  /** The repository name: an explicit repository property wins and is used as it is
      unless it is a recognised URL, which is reduced to "owner/name"; otherwise the
      developer SCM link, then the SCM link, whichever is recognised first; failing
      that, an error telling whether nothing was configured or nothing was recognised. */
  function Repository(s: Settings): (r: Result<string, ConfigError>)
    ensures s.repository.Some? ==> r.Ok?
    ensures r.Err? <==> s.repository.None? && LinkRemote(s.linksSourcesDev).None? && LinkRemote(s.linksSources).None?
    ensures r == Err(Undetermined) <==> s.repository.None? && s.linksSourcesDev.None? && s.linksSources.None?
    ensures r.Err? && r != Err(Undetermined) ==> r == Err(Unparsable(s.linksSourcesDev, s.linksSources))
    ensures s.repository.Some? && ParseRemote(s.repository.value).None? ==> r == Ok(s.repository.value)
  {
    match s.repository
    case Some(v) =>
      (match ParseRemote(v)
       case Some(remote) => Ok(Slug(remote))
       case None => Ok(v))
    case None =>
      match LinkRemote(s.linksSourcesDev)
      case Some(remote) => Ok(Slug(remote))
      case None =>
        match LinkRemote(s.linksSources)
        case Some(remote) => Ok(Slug(remote))
        case None =>
          if s.linksSourcesDev.Some? || s.linksSources.Some? then Err(Unparsable(s.linksSourcesDev, s.linksSources))
          else Err(Undetermined)
  }

  /** An SCM link setting read as a location; an unset link is not one. */
  function LinkRemote(v: Option<string>): (r: Option<Remote>)
    ensures v.None? ==> r.None?
    ensures r.Some? ==> v.Some? && WellFormed(r.value) && Print(r.value) == v.value
  {
    match v
    case None => None
    case Some(u) => ParseRemote(u)
  }

  /** Without an explicit repository property the name always comes from a recognised
      SCM link: the developer link when it is recognised, the other link otherwise. */
  lemma RepositoryFromLinks(s: Settings)
    requires s.repository.None? && Repository(s).Ok?
    ensures exists remote ::
              WellFormed(remote) && Repository(s).value == Slug(remote) &&
              (s.linksSourcesDev == Some(Print(remote)) ||
               (LinkRemote(s.linksSourcesDev).None? && s.linksSources == Some(Print(remote))))
  {
    match LinkRemote(s.linksSourcesDev)
    case Some(remote) =>
      assert WellFormed(remote) && Repository(s).value == Slug(remote) && s.linksSourcesDev == Some(Print(remote));
    case None =>
      var remote := LinkRemote(s.linksSources).value;
      assert WellFormed(remote) && Repository(s).value == Slug(remote) && s.linksSources == Some(Print(remote));
  }

  /** A recognised developer link makes the other link irrelevant. */
  lemma DevLinkWins(s: Settings, otherLinks: Option<string>)
    requires s.repository.None? && LinkRemote(s.linksSourcesDev).Some?
    ensures Repository(s) == Repository(s.(linksSources := otherLinks))
    ensures Repository(s) == Ok(Slug(LinkRemote(s.linksSourcesDev).value))
  {
  }

  /** The explicit repository property makes both links irrelevant. */
  lemma ExplicitRepositoryWins(s: Settings, dev: Option<string>, links: Option<string>)
    requires s.repository.Some?
    ensures Repository(s) == Repository(s.(linksSourcesDev := dev, linksSources := links))
  {
  }

  /** A recognised location reduces to its "owner/name" wherever it is configured. */
  lemma SlugOfLocation(s: Settings, remote: Remote)
    requires WellFormed(remote)
    requires s.repository == Some(Print(remote)) ||
             (s.repository.None? && s.linksSourcesDev == Some(Print(remote))) ||
             (s.repository.None? && s.linksSourcesDev.None? && s.linksSources == Some(Print(remote)))
    ensures Repository(s) == Ok(Slug(remote))
  {
    ParsePrint(remote);
  }

  /** Every written location contains a ':' (after "scm", "http" or "https"). */
  lemma PrintHasColon(r: Remote)
    ensures ':' in Print(r)
  {
    match r
    case Ssh(_, _, _) =>
      assert Print(r)[3] == SshPrefix[3] == ':';
    case Http(secure, _, _, _, _) =>
      assert Print(r)[|Scheme(secure)| - 3] == ':';
  }

  /** An explicit repository property without ':' is never a location, so it is the
      repository name exactly as written, whatever the links say. */
  lemma ExplicitNameVerbatim(s: Settings)
    requires s.repository.Some? && ':' !in s.repository.value
    ensures Repository(s) == Ok(s.repository.value)
  {
    var v := s.repository.value;
    if ParseRemote(v).Some? {
      PrintHasColon(ParseRemote(v).value);
      assert false;
    }
  }

  /** Resolving is idempotent: a name without ':' fed back as the explicit repository
      property resolves to itself, whatever the links say. */
  lemma RepositoryIdempotent(s: Settings, t: Settings)
    requires Repository(s).Ok? && ':' !in Repository(s).value
    requires t.repository == Some(Repository(s).value)
    ensures Repository(t) == Repository(s)
  {
  }

  // ---------------------------------------------------------------- other settings

  /** Reporting runs only for a pull-request analysis, i.e. when a pull-request number is set. */
  predicate IsEnabled(s: Settings) {
    s.pullRequest.Some?
  }

  /** The pull-request number: the property read as a signed 32-bit decimal number, or
      nothing when it is unset or is not such a number. */
  function PullRequestNumber(s: Settings): (r: Option<int>)
    ensures r.Some? ==> IsEnabled(s) && IntMin <= r.value <= IntMax
    ensures !IsEnabled(s) ==> r.None?
    ensures IsEnabled(s) ==> r == ParseInt(s.pullRequest.value)
  {
    match s.pullRequest
    case None => None
    case Some(v) => ParseInt(v)
  }

  /** Every 32-bit number set as the pull-request property is read back unchanged and
      enables reporting. */
  lemma PullRequestNumberRoundTrip(s: Settings, n: int)
    requires IntMin <= n <= IntMax && s.pullRequest == Some(ShowInt(n))
    ensures PullRequestNumber(s) == Some(n) && IsEnabled(s)
  {
    ParseShowInt(n);
  }

  /** The Bitbucket API endpoint: the configured one, else the public Bitbucket API. */
  function Endpoint(s: Settings): (r: string)
    ensures s.endpoint.None? ==> r == DefaultEndpoint
    ensures s.endpoint.Some? ==> r == s.endpoint.value
  {
    s.endpoint.GetOr(DefaultEndpoint)
  }

  /** Inline comments are attempted unless the disable flag reads as Java's
      `Boolean.parseBoolean` reads "true" (any letter case). */
  function TryReportIssuesInline(s: Settings): (r: bool)
    ensures s.disableInlineComments.None? ==> r
    ensures s.disableInlineComments.Some? ==> (r <==> !EqualsIgnoreCase(s.disableInlineComments.value, "true"))
  {
    match s.disableInlineComments
    case None => true
    case Some(v) => !EqualsIgnoreCase(v, "true")
  }

  /** Inline comments are switched off exactly by a four-letter flag that spells "true"
      in any mix of letter cases ("true", "TRUE", "True", ...). */
  lemma InlineOffExactlyForTrue(s: Settings, v: string)
    requires s.disableInlineComments == Some(v)
    ensures !TryReportIssuesInline(s) <==> |v| == 4 && forall i :: 0 <= i < 4 ==> LowerChar(v[i]) == "true"[i]
  {
    if |v| == 4 && forall i :: 0 <= i < 4 ==> LowerChar(v[i]) == "true"[i] {
      assert Lower(v) == "true";
    }
  }
}
