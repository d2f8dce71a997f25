/** The repository-resolution and settings tests of the plugin configuration, replayed on
    the model: which name each combination of settings yields, and the exact failure
    messages. */
module ConfigurationScenarios {
  import opened Wrappers
  import opened Text
  import opened BitbucketPluginConfiguration

  /** A value that is neither an SSH nor an HTTP(S) location is not recognised. */
  lemma NotALocation(v: string)
    requires |v| > 0 && v[0] != 's' && v[0] != 'h'
    ensures ParseRemote(v) == None
  {
    assert !StartsWith(v, SshPrefix) by { assert SshPrefix[0] == 's'; }
    assert !StartsWith(v, "https://") && !StartsWith(v, "http://");
  }

  /** Nothing configured: the message names the repository property and the SCM link. */
  lemma NothingConfigured(s: Settings)
    requires s.repository.None? && s.linksSourcesDev.None? && s.linksSources.None?
    ensures Repository(s) == Err(Undetermined)
    ensures Message(Repository(s).error)
         == UndeterminedText + (RepositoryKey + "' or configure property '" + LinksSourcesKey + "'.")
  {
  }

  /** An SCM link that is not recognised: both links are echoed, the unset one as "null". */
  lemma UnrecognisedLink(s: Settings)
    requires s.repository.None? && s.linksSourcesDev.None? && s.linksSources == Some("do_not_match_1")
    ensures Repository(s) == Err(Unparsable(None, Some("do_not_match_1")))
    ensures Message(Repository(s).error)
         == UnparsableText + LinksSourcesDevKey + ": " + "null"
          + ("\n  * " + LinksSourcesKey + ": " + "do_not_match_1")
  {
    NotALocation("do_not_match_1");
  }

  lemma UnrecognisedDevLink(s: Settings)
    requires s.repository.None? && s.linksSourcesDev == Some("do_not_match_2") && s.linksSources.None?
    ensures Repository(s) == Err(Unparsable(Some("do_not_match_2"), None))
    ensures Message(Repository(s).error)
         == UnparsableText + LinksSourcesDevKey + ": " + "do_not_match_2"
          + ("\n  * " + LinksSourcesKey + ": " + "null")
  {
    NotALocation("do_not_match_2");
  }

  /** The SSH form of the SCM link gives "owner/name", also when the developer link is set
      to something that is not recognised. */
  lemma FromScmLink(s: Settings, host: string, owner: string, name: string)
    requires WellFormed(Ssh(host, owner, name))
    requires s.repository.None? && s.linksSources == Some(SshPrefix + (host + ":" + (owner + "/" + name + GitSuffix)))
    requires s.linksSourcesDev.None? || s.linksSourcesDev == Some("do_not_parse")
    ensures Repository(s) == Ok(owner + "/" + name)
  {
    if s.linksSourcesDev.Some? {
      NotALocation("do_not_parse");
      assert LinkRemote(s.linksSourcesDev).None?;
    }
    ParsePrint(Ssh(host, owner, name));
  }

  /** A recognised developer link wins over the SCM link, set or not. */
  lemma FromScmDevLink(s: Settings, host: string, owner: string, name: string)
    requires WellFormed(Ssh(host, owner, name))
    requires s.repository.None? && s.linksSourcesDev == Some(SshPrefix + (host + ":" + (owner + "/" + name + GitSuffix)))
    ensures Repository(s) == Ok(owner + "/" + name)
  {
    SlugOfLocation(s, Ssh(host, owner, name));
  }

  /** An explicit HTTPS or HTTP repository URL ending in ".git" reduces to "owner/name". */
  lemma FromRepositoryUrl(s: Settings, secure: bool, host: string, owner: string, name: string)
    requires IsSegment(host) && IsSegment(owner) && IsSegment(name)
    requires s.repository == Some(Scheme(secure) + (host + "/" + (owner + "/" + (name + GitSuffix))))
    ensures Repository(s) == Ok(owner + "/" + name)
  {
    var remote := Http(secure, host, owner, name, true);
    assert Print(remote) == s.repository.value;
    SlugOfLocation(s, remote);
  }

  /** An explicit repository that is not a URL is used as written. */
  lemma FromRepositoryName(s: Settings)
    requires s.repository == Some("SonarCommunity3/bitbucket-integration")
    ensures Repository(s) == Ok("SonarCommunity3/bitbucket-integration")
  {
    NotALocation("SonarCommunity3/bitbucket-integration");
  }

  /** Without a pull-request number nothing is reported; "3" enables reporting on pull
      request 3. */
  lemma PullRequestThree(s: Settings, t: Settings)
    requires s.pullRequest.None? && t.pullRequest == Some("3")
    ensures !IsEnabled(s) && PullRequestNumber(s) == None
    ensures IsEnabled(t) && PullRequestNumber(t) == Some(3)
  {
    PullRequestNumberRoundTrip(t, 3);
  }

  /** Inline comments are attempted by default and not once the disable flag is "true". */
  lemma InlineSwitch(s: Settings, t: Settings)
    requires s.disableInlineComments.None? && t.disableInlineComments == Some("true")
    ensures TryReportIssuesInline(s) && !TryReportIssuesInline(t)
  {
    assert Lower("true") == "true";
  }

  /** The public Bitbucket API by default, the configured endpoint once one is set. */
  lemma EndpointSwitch(s: Settings, t: Settings)
    requires s.endpoint.None? && t.endpoint == Some("http://myprivate-endpoint")
    ensures Endpoint(s) == "https://api.bitbucket.com"
    ensures Endpoint(t) == "http://myprivate-endpoint"
  {
  }
}
