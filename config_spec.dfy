/**
 * `Simple::setCfg`: the options a caller passes, the derivation of `hostInfo` and `basePath`
 * from `siteUrl`, and the override of the defaults.
 */
module ConfigSpec {
  import opened Wrappers
  import opened Strings
  import opened PhpArray
  import opened RouteModel

  /** The array a caller passes to `new Simple($cfg)`: a key it leaves out is None. */
  datatype Settings = Settings(
    useModule: Option<bool>,
    defaultMod: Option<string>,
    defaultCtl: Option<string>,
    defaultAct: Option<string>,
    rewrite: Option<bool>,
    rewriteExt: Option<string>,
    fullUrl: Option<bool>,
    encode: Option<bool>,
    scriptName: Option<string>,
    siteUrl: Option<string>,
    hostInfo: Option<string>,
    basePath: Option<string>,
    domain: Option<map<string, string>>,
    alias: Option<Pairs>)

  /** `[]`: no option given. */
  const NoSettings: Settings := Settings(None, None, None, None, None, None, None, None, None, None, None, None, None, None)

  /** The `Exception` line 365 throws: `siteUrl` is not an http or https URL with a path. */
  datatype ConfigError = SiteUrlNotHttp

  /** PHP's `empty($cfg[$key])` for a string option: missing, "" or "0". */
  predicate Empty(x: Option<string>) {
    !Truthy(x.GetOr(""))
  }

  /** `u` starts with the letters `http` in any case. */
  predicate HttpLetters(u: string) {
    |u| >= 4 && LowerChar(u[0]) == 'h' && LowerChar(u[1]) == 't' && LowerChar(u[2]) == 't' && LowerChar(u[3]) == 'p'
  }

  /**
   * The length of the `http[s]?:\/\/` a case-insensitive pattern finds at the start of `u`:
   * 8 for `https://`, 7 for `http://`, letters in any case; 0 when there is neither.
   */
  function SchemeLen(u: string): (k: nat)
    ensures k == 0 || k == 7 || k == 8
    ensures k > 0 ==> k <= |u| && '\n' !in u[..k]
  {
    var k := if |u| >= 8 && HttpLetters(u) && LowerChar(u[4]) == 's' && u[5] == ':' && u[6] == '/' && u[7] == '/' then 8
      else if |u| >= 7 && HttpLetters(u) && u[4] == ':' && u[5] == '/' && u[6] == '/' then 7
      else 0;
    if k > 0 then
      SchemeHasNoNewline(u, k);
      k
    else k
  }

  /** The characters of a scheme are letters, `:` and `/`: no newline. */
  lemma SchemeHasNoNewline(u: string, k: nat)
    requires 7 <= k <= 8 && k <= |u| && HttpLetters(u) && u[k - 3] == ':' && u[k - 2] == '/' && u[k - 1] == '/'
    requires k == 8 ==> LowerChar(u[4]) == 's'
    ensures '\n' !in u[..k]
  {
    forall i | 0 <= i < k ensures u[..k][i] != '\n' {
      assert u[..k][i] == u[i];
      assert i < 4 || i == 4 || i >= k - 3;
    }
  }

  /**
   * `/^(http[s]?:\/\/.+?)(\/.*)/i` on `u`: the scheme and `://`, then at least one character up to
   * the first `/` after it (group 1, the host); then that `/` and the rest of the line (group 2,
   * the base path). There is a match exactly when the first line has a `/` past the character
   * that follows the scheme.
   */
  function SiteUrlParts(u: string): (r: Option<(string, string)>)
    ensures r.Some? <==>
      var k := SchemeLen(u); k > 0 && k < |Line(u)| && '/' in Line(u)[k + 1..]
    ensures r.Some? ==> r.value.0 + r.value.1 == Line(u)
    ensures r.Some? ==> r.value.1 != "" && r.value.1[0] == '/'
    ensures r.Some? ==> SchemeLen(u) < |r.value.0| && '/' !in r.value.0[SchemeLen(u) + 1..]
  {
    var k := SchemeLen(u);
    if k == 0 then None
    else if |u| <= k || u[k] == '\n' then
      ShortLine(u, k);
      None
    else
      LineAfterHostStart(u, k);
      match FirstInLine(u[k + 1..], '/')
      case None => None
      case Some(j) =>
        LineAfterHost(u, k, j);
        HostEndsAtSlash(u, k, j);
        Some((u[..k + 1 + j], Line(u[k + 1 + j..])))
  }

  /** When the character after the scheme is missing or a newline, the first line ends there. */
  lemma ShortLine(u: string, k: nat)
    requires k <= |u| && '\n' !in u[..k]
    requires |u| <= k || u[k] == '\n'
    ensures |Line(u)| <= k
  {
    LineAfter(u, k);
  }

  /** The host starts with a character that is not a newline: the line goes on past it. */
  lemma LineAfterHostStart(u: string, k: nat)
    requires k < |u| && '\n' !in u[..k] && u[k] != '\n'
    ensures k < |Line(u)| && Line(u)[k + 1..] == Line(u[k + 1..])
  {
    assert u[..k + 1] == u[..k] + [u[k]];
    LineAfter(u, k + 1);
  }

  /** The host ends at the first `/` of the line after its first character. */
  lemma LineAfterHost(u: string, k: nat, j: nat)
    requires k < |u| && '\n' !in u[..k] && u[k] != '\n'
    requires FirstInLine(u[k + 1..], '/') == Some(j)
    ensures u[..k + 1 + j] + Line(u[k + 1 + j..]) == Line(u)
  {
    HostHasNoNewline(u, k, j);
    LineAfterHostEnd(u, k, j);
  }

  /** The host holds no `/` after its first character, and a `/` follows it. */
  lemma HostEndsAtSlash(u: string, k: nat, j: nat)
    requires k < |u|
    requires FirstInLine(u[k + 1..], '/') == Some(j)
    ensures u[k + 1 + j] == '/' && '/' !in u[..k + 1 + j][k + 1..]
  {
    assert u[..k + 1 + j][k + 1..] == u[k + 1..][..j];
  }

  lemma HostHasNoNewline(u: string, k: nat, j: nat)
    requires k < |u| && '\n' !in u[..k] && u[k] != '\n'
    requires FirstInLine(u[k + 1..], '/') == Some(j)
    ensures '\n' !in u[..k + 1 + j]
  {
    var v := u[k + 1..];
    assert u[..k + 1 + j] == u[..k + 1] + v[..j];
    assert u[..k + 1] == u[..k] + [u[k]];
  }

  lemma LineAfterHostEnd(u: string, k: nat, j: nat)
    requires k < |u|
    requires FirstInLine(u[k + 1..], '/') == Some(j)
    requires '\n' !in u[..k + 1 + j]
    ensures u[..k + 1 + j] + Line(u[k + 1 + j..]) == Line(u)
  {
    var e := k + 1 + j;
    assert e < |u|;
    LineAfter(u, e);
    assert Line(u) == u[..e] + Line(u[e..]);
  }

  /** `siteUrl` is given and not empty but `hostInfo` or `basePath` is: the two are derived. */
  predicate DerivesFromSiteUrl(s: Settings) {
    !Empty(s.siteUrl) && (Empty(s.hostInfo) || Empty(s.basePath))
  }

  /** `array_replace_recursive($this->cfg, $cfg)`, each given option replacing the current one. */
  function Override(base: Config, s: Settings): Config {
    Config(
      s.useModule.GetOr(base.useModule),
      s.defaultMod.GetOr(base.defaultMod),
      s.defaultCtl.GetOr(base.defaultCtl),
      s.defaultAct.GetOr(base.defaultAct),
      s.rewrite.GetOr(base.rewrite),
      s.rewriteExt.GetOr(base.rewriteExt),
      s.fullUrl.GetOr(base.fullUrl),
      s.encode.GetOr(base.encode),
      s.scriptName.GetOr(base.scriptName),
      s.siteUrl.GetOr(base.siteUrl),
      s.hostInfo.GetOr(base.hostInfo),
      s.basePath.GetOr(base.basePath),
      s.domain.GetOr(base.domain),
      s.alias.GetOr(base.alias))
  }

  /**
   * `setCfg($cfg)` on a router configured with `base`. It fails exactly when the site URL has to
   * be used and does not have the `http(s)://host/path` shape; when it is used, `hostInfo` and
   * `basePath` together are the first line of `siteUrl`, and the base path starts with `/`.
   * Otherwise the given options simply replace the current ones.
   */
  function DeriveCfg(base: Config, s: Settings): (r: Result<Config, ConfigError>)
    ensures r.Failure? <==> DerivesFromSiteUrl(s) && SiteUrlParts(s.siteUrl.value).None?
    ensures r.Success? && DerivesFromSiteUrl(s) ==>
      r.value.hostInfo + r.value.basePath == Line(s.siteUrl.value) && StartsWith(r.value.basePath, "/")
    ensures r.Success? && !DerivesFromSiteUrl(s) ==> r.value == Override(base, s)
  {
    if DerivesFromSiteUrl(s) then
      match SiteUrlParts(s.siteUrl.value)
      case None => Failure(SiteUrlNotHttp)
      case Some(parts) => Success(Override(base, s).(hostInfo := parts.0, basePath := parts.1))
    else Success(Override(base, s))
  }
}
