# wf-route `Simple`: a two-way URL router in Dafny

`wf\route\Simple` (lib/Simple.php) is the URL router of the Windwork framework. It works in both
directions:

- `parse($uri)` turns a request URI into a route record (`RouteVO`). The record holds:
  - the module, the controller and the action;
  - the action parameters and the `/name:value` attributes;
  - the query and the fragment;
  - the name of the controller class the dispatcher loads.
- `createUrl`, `toUrl` and the private `buildUrL` go the other way. They write a URL for a routing
  id such as `blog.post.view/5`, with variables, a query and a fragment. Along the way they apply
  the alias table, base64url encoding, the rewrite suffix, the entry script and the per-module or
  per-controller domains.

The configuration (`$cfg`) has declared defaults. The constructor changes them through `setCfg`,
which can take `hostInfo` and `basePath` from `siteUrl` and throws when `siteUrl` is not an
`http(s)://host/path` URL.

The model has these parts:

- **`Router.Simple`**: a class with the fields `cfg` and `vo`. Each PHP method is a Dafny method
  that follows the PHP statement by statement. Each one is proved to compute what a specification
  function states, and to change only `vo`, or only `cfg` in the case of `SetCfg`.
- **Specification modules.** `RouteModel` holds the `Config` and `RouteVO` records, the defaults
  and the controller-class naming rule. `ConfigSpec` specifies `setCfg`. `ParseSpec` specifies
  `parse` phase by phase. `BuildSpec` specifies `buildUrL`, `createUrl` and `toUrl`.
- **PCRE patterns.** Every pattern the router uses is written out as a scanner. Each scanner keeps
  PCRE's leftmost-first and lazy/greedy behaviour, and keeps the rule that `.` does not match a
  newline.
- **Support modules.**
  - `Strings` holds the PHP string functions the router calls: `trim`, `strpos`, `explode`,
    `implode`, `strtr`, `str_replace`, ASCII `strtolower` and `ucfirst`. It also holds PHP's
    string truthiness, under which `""` and `"0"` are false.
  - `PhpArray` models ordered PHP arrays.
  - `Base64` models PHP's `base64_encode` and non-strict `base64_decode`, following sections 4 and
    5 of RFC 4648.
- **Property modules.** `ParseLaws`, `CleanLaws`, `BuildLaws`, `AttrLaws`, `RouteLaws`,
  `ConfigLaws` and `RoundTrip` state and prove what the router promises:
  - the home route;
  - how a routing id is split;
  - aliases in both directions;
  - that `parse` reads back the attributes `buildUrL` writes;
  - the encoding round trip;
  - domain precedence;
  - the query and fragment rules;
  - the `siteUrl` derivation;
  - how the cleaning steps remove hosts, the base path and the entry script;
  - `parse(toUrl(vo))` gives the record back.
- **`PrefixQuirks`** shows two URLs `toUrl` writes that `parse` does not read back, because the
  base path and the entry script are found by a plain text prefix test, without looking for a
  segment boundary.

Behaviour of the code that is easy to miss:

- Hosts are removed wherever `http://…/` occurs in the URI, not only at its start (line 118).
- `q_` marks an encoded payload anywhere in the path. Everything before it is dropped (line 164).
- `buildUrL` finds the module and the controller for the domain lookup by running its two
  patterns over the whole URL, parameters included, not only over the routing id (line 291).
- The alias prefix test of `buildUrL` ignores case (`stripos`, line 301).
- A "missing" `hostInfo` or `basePath` in `setCfg` means PHP's `empty`, so `"0"` counts as missing.
- A `rewriteExt` of `"0"` is false to `parse`, so nothing is cut. `buildUrL` still appends it.
- The encoded form of the empty path is `q_` alone. `parse` does not decode it (line 164), so it is
  read as the routing id `q_`. With modules on, `q_` becomes the module and the controller stays
  the default one (lines 206-208 and 216-218). With modules off, `q_` is the controller.
- The base path (line 123) and the entry script (line 132) are cut off wherever the path starts
  with their text, also in the middle of a segment. A relative URL `blog.post.view` under the base
  path `/blog/` therefore loses its module, and with the entry script `index.php` the route
  `index.php` reads as the home route.
- `parse("0")` is the home route, because `"0"` is false to PHP.

## Model

| member | source | states |
|---|---|---|
| Router.Simple.constructor | lib/Simple.php:26-61 | a new router has the declared default configuration, and its record is the empty record |
| Router.Simple.New | lib/Simple.php:67-72 | `new Simple($cfg)` succeeds exactly when `setCfg` does, and then holds the configuration `setCfg` derives |
| Router.Simple.SetCfg | lib/Simple.php:359-375 | fails exactly when `siteUrl` has to be used and has no `http(s)://host/path` shape, and then leaves `cfg` unchanged; otherwise `cfg` becomes the derived configuration |
| Router.Simple.InitRouteVO | lib/Simple.php:77-91 | the record becomes the initial record: the default module only with modules on, the default controller and action, every other field empty |
| Router.Simple.BuildVOCtlClass | lib/Simple.php:383-407 | only `ctlClass` changes, and it becomes the class name of the record's module and controller |
| Router.Simple.Parse | lib/Simple.php:111-228 | the record left behind is the route `ParseSpec.ParseRoute` gives for the configuration and the URI |
| Router.Simple.RouteFromPath | lib/Simple.php:170-227 | the attributes, the route and the class name of the decoded path, as `ParseSpec.RouteOfPath` gives them |
| Router.Simple.NormalizedPath | lib/Simple.php:118-135 | returns the request path without hosts, base path and entry script, trimmed, as `ParseSpec.NormalizePath` gives it |
| Router.Simple.TakeAnchorAndQuery | lib/Simple.php:144-156 | returns the path left after the fragment and the query are cut off; the record takes the fragment and the query when they are present |
| Router.Simple.DecodedPath | lib/Simple.php:159-167 | returns the path with its rewrite suffix cut off and its payload decoded, as the specification functions give it |
| Router.Simple.TakeAttributes | lib/Simple.php:170-178 | returns the path without its `/name:value` segments; the record takes their attributes when there are any and is otherwise unchanged |
| Router.Simple.TakeRoute | lib/Simple.php:180-223 | the record takes the module, controller, action and parameters of `ParseSpec.ResolveRoute` |
| Router.Simple.ExpandedRoute | lib/Simple.php:188-201 | returns the routing id and parameters after alias expansion, as `ParseSpec.ExpandAlias` gives them |
| Router.Simple.SplitRoute | lib/Simple.php:203-219 | the record takes the module, controller and action of the routing id, as `ParseSpec.SplitRouteId` gives them |
| Router.Simple.ToUrl | lib/Simple.php:234-242 | returns the URL of the current record, as `BuildSpec.ToUrl` gives it |
| Router.Simple.CreateUrl | lib/Simple.php:251-272 | returns `BuildSpec.CreateUrl`: the fragment is cut at the first `#`, then the query at the first `?` |
| Router.Simple.BuildUrl | lib/Simple.php:283-353 | returns `BuildSpec.BuildUrl` of its arguments |
| Router.Simple.RelativeUrl | lib/Simple.php:298-324 | the alias, the variables, the encoding, the suffix and the entry script, as `BuildSpec.BuildPath` gives them |
| Router.Simple.WithVariables | lib/Simple.php:308-310 | the path followed by the variables' `/k:v` segments |
| Router.Simple.EncodedUrl | lib/Simple.php:313-316 | with encoding on, `q_` followed by the unpadded base64url text of the path; otherwise the path itself |
| Router.Simple.PlaceOnHost | lib/Simple.php:326-340 | the host chosen by the domain rules, as `BuildSpec.ApplyDomain` gives it |
| Router.Simple.ShortenByAlias | lib/Simple.php:298-305 | the loop computes `BuildSpec.ContractAlias`, in which the first matching rule is replaced by its tag |
| RouteModel.CtlClass | lib/Simple.php:383-407 | always in the module's namespace; a controller that is not nested is `ns\Ucfirst(ctl)Controller`; a nested one has its part before the last `.` as a sub-namespace and keeps the `.` in its base name |
| ConfigSpec.SchemeLen | lib/Simple.php:364 | the `http[s]?://` prefix has length 7 or 8, in any letter case, or there is none |
| ConfigLaws.SchemeLenHttps | lib/Simple.php:364 | the scheme is 8 characters long exactly when the URL starts with `https://` in some letter case |
| ConfigLaws.SchemeLenHttp | lib/Simple.php:364 | the scheme is 7 characters long exactly when the URL starts with `http://` in some letter case |
| ConfigSpec.SiteUrlParts | lib/Simple.php:364 | the pattern matches exactly when the first line has a `/` past the character after the scheme; group 1 and group 2 together are that line, and group 2 starts with `/` |
| ConfigSpec.DeriveCfg | lib/Simple.php:359-375 | fails exactly when `siteUrl` is needed and does not match; when it is used, `hostInfo + basePath` is its first line and `basePath` starts with `/`; otherwise the options simply override |
| ParseSpec.HostMatchLen | lib/Simple.php:118 | a host match starts with `http://` or `https://`, is at least 8 characters long, contains a `:` and ends with the first `/` after the scheme, with no newline before it |
| ParseSpec.StripHosts | lib/Simple.php:118 | removing hosts never makes the URI longer |
| ParseSpec.StripHostsNoColon | lib/Simple.php:118 | a URI without `:` contains no host to remove |
| ParseSpec.StripBasePath | lib/Simple.php:122-126 | the result is no longer than its input |
| ParseSpec.StripScriptName | lib/Simple.php:132-134 | the result is no longer than its input |
| CleanLaws.StripHttpHost | lib/Simple.php:118 | a leading `http://h/`, with no `/` or newline in `h`, is removed and the rest is cleaned the same way |
| CleanLaws.StripHttpsHost | lib/Simple.php:118 | a leading `https://h/`, with no `/` or newline in `h`, is removed and the rest is cleaned the same way |
| CleanLaws.StripSiteHost | lib/Simple.php:118 | a site host followed by `/` is removed, whatever follows it |
| CleanLaws.StripBasePathCut | lib/Simple.php:122-126 | a truthy base path is cut off the front of the path as text, with no segment boundary needed, and the rest is trimmed of `/` |
| CleanLaws.StripBaseSegment | lib/Simple.php:122-126 | a truthy base path followed by `/` is cut off, and the rest is trimmed of `/` |
| CleanLaws.StripScriptNameCut | lib/Simple.php:131-134 | a truthy path that starts with the entry script's text loses exactly that text |
| CleanLaws.SameCleanPath | lib/Simple.php:118-228 | two URIs that clean to the same path route alike |
| CleanLaws.SiteRequestCut | lib/Simple.php:118-126 | a path placed on a site host under the base path has host and base path removed again |
| CleanLaws.FullEntryRequest | lib/Simple.php:111-228 | a plain request behind a site host, the base path and `scriptName?` routes as the request alone |
| CleanLaws.CleanedVia | lib/Simple.php:118-135 | the cleaned path is the result of the host and base-path steps followed by the entry-script step |
| CleanLaws.PlainFixed | lib/Simple.php:118-135 | a plain request is left unchanged by the cleaning steps |
| ParseSpec.NormalizedEnds | lib/Simple.php:118-135 | the cleaned path neither starts nor ends with `.`, `/` or `?` |
| ParseSpec.SplitAnchorQuery | lib/Simple.php:144-156 | the path keeps no `#`, `&` or `?`; there is a fragment exactly when the URI has a `#`; path, query and fragment with their separators put back the URI with `?` read as `&` |
| ParseSpec.StripRewriteExt | lib/Simple.php:159-161 | the result is a prefix of the path, and differs from it exactly when a truthy suffix ends the path |
| ParseSpec.FindPayloadFrom | lib/Simple.php:164 | the leftmost position where `q_` followed by a non-newline character starts |
| ParseSpec.DecodePayload | lib/Simple.php:164-167 | without encoding or without a payload the path stays; otherwise the result is a decoded byte string |
| ParseSpec.KeyEnd | lib/Simple.php:170 | the lazy key ends at the first `:`, and no `/`, `&` or `:` comes before it |
| ParseSpec.ValueLen | lib/Simple.php:170 | the value runs up to the first `/`, `&` or `?` |
| ParseSpec.AttrMatchLen | lib/Simple.php:170 | a match starts with `/` and spans a `:` with no `/` or `&` in it |
| ParseSpec.AttrScan | lib/Simple.php:170-177 | every captured piece holds a `:` and no `/` or `&` |
| ParseSpec.SplitRouteId | lib/Simple.php:203-219 | without modules the module stays as it was |
| ParseSpec.RouteOfParts | lib/Simple.php:207-219 | without modules the module stays as it was |
| ParseSpec.ResolveRoute | lib/Simple.php:180-223 | without modules the module stays as it was |
| ParseSpec.RouteOfPath | lib/Simple.php:170-225 | the class name agrees with the module and the controller; without modules the module stays |
| ParseSpec.ParseRoute | lib/Simple.php:111-228 | the class name always agrees with the module and the controller, and without modules the module is empty |
| ParseSpec.ParseRouteHome | lib/Simple.php:137-141 | a path that is empty once cleaned gives the initial record with its class name |
| ParseSpec.ParseRouteSteps | lib/Simple.php:144-227 | a path that is not empty once cleaned goes through the query, suffix, payload and route phases in order |
| BuildSpec.MatchModCtl | lib/Simple.php:291-293 | a match of `(.+?)\.(.+)\.(.+?)` gives a module and a controller, neither of them empty |
| BuildSpec.MatchCtl | lib/Simple.php:294-296 | a match of `(.+?)\.(.+)` gives a controller that is not empty |
| BuildSpec.EncodePath | lib/Simple.php:313-316 | the encoded URL is `q_` followed by the unpadded base64url text |
| ParseLaws.HomeRoute | lib/Simple.php:137-141 | an empty cleaned path gives the default module (with modules on), controller and action, with no parameters, attributes, query or fragment |
| ParseLaws.EmptyRequestIsHome | lib/Simple.php:137-141 | with modules on, `""` is `common`/`default`/`index` with the class `\app\common\controller\DefaultController` |
| ParseLaws.EmptyRequestWithoutModules | lib/Simple.php:137-141 | with the defaults, `""` has no module and the class `\app\controller\DefaultController` |
| ParseLaws.StripHostsPlain | lib/Simple.php:118 | a URI without `//` has no host to strip |
| ParseLaws.NoPayload | lib/Simple.php:164 | a path without `q` has no payload |
| ParseLaws.PlainUri | lib/Simple.php:118-167 | a URI without the characters the cleaning steps touch, on a root base path, is left alone by every cleaning step |
| ParseLaws.CleanParse | lib/Simple.php:118-167 | a URI that the cleaning leaves whole and that has no query or fragment routes as its suffix and payload handling makes it |
| ParseLaws.PlainParse | lib/Simple.php:118-227 | a plain request goes straight to the attribute and route phases |
| ParseLaws.RouteIdHasNoSlash | lib/Simple.php:185 | a routing id has no `/` |
| ParseLaws.RouteIdParts | lib/Simple.php:203-219 | the module is the first part (with modules on); of the parts left, the last is the action when there are at least two and the others are the controller; nothing else changes |
| ParseLaws.SplitThree | lib/Simple.php:203 | `m.c.a` with `.`-free parts splits into `[m, c, a]` |
| ParseLaws.ModuleControllerAction | lib/Simple.php:203-219 | with modules on, `m.c.a` gives module `m`, controller `c` and action `a`, lower-cased |
| ParseLaws.ControllerAction | lib/Simple.php:203-219 | with modules off, `c.a` gives controller `c` and action `a`, and the module is untouched |
| ParseLaws.RouteParams | lib/Simple.php:180-223 | a routing id with a `.` followed by the segments: the id gives the route and the segments are the parameters |
| ParseLaws.SplitSegments | lib/Simple.php:181 | segments without `/`, joined and then split again, come back unchanged |
| ParseLaws.NotARouteId | lib/Simple.php:185 | when the first segment is not a routing id, every segment is a parameter and the module, controller and action stay |
| ParseLaws.AliasTarget | lib/Simple.php:193-199 | a found tag is replaced by its expansion, and the expansion's own segments come before the parameters |
| ParseLaws.AliasExpands | lib/Simple.php:189-201 | a short id routes exactly as its expansion written in its place |
| ParseLaws.EncodedShape | lib/Simple.php:313-316 | the encoded text of a non-empty path is not empty and holds no newline |
| ParseLaws.PayloadRoundTrip | lib/Simple.php:164-167 | with encoding on, the payload of an encoded non-empty byte string decodes back to it |
| ParseLaws.PayloadAnywhere | lib/Simple.php:164 | text before `q_` is dropped, and the payload alone is decoded |
| ParseLaws.EncodedEmptyPath | lib/Simple.php:164 | the encoded empty path is `q_`, and `q_` is not decoded |
| ParseLaws.RoutedRequest | lib/Simple.php:170-227 | a plain `id/params/k1:v1/...` gives the id's route, the parameters and exactly the variables as attributes |
| ParseLaws.SortDesc | lib/Simple.php:308-310 | the variable `sort` = `desc` is written `/sort:desc` |
| ParseLaws.OneVar | lib/Simple.php:308-310 | one plain variable `k => v` is the segment `/k:v` |
| ParseLaws.BlogRequestPlain | lib/Simple.php:118-167 | `blog.post.view/5/sort:desc` is untouched by every cleaning step |
| ParseLaws.ModuleRequest | lib/Simple.php:111-228 | with modules on, `m.c.a/n/attributes` gives module, controller and action (lower-cased), the parameter `n`, the attributes and the class |
| ParseLaws.BlogPostView | lib/Simple.php:111-228 | `blog.post.view/5/sort:desc` is `blog`/`post`/`view` with parameter `5`, attribute `sort` = `desc` and the class `\app\blog\controller\PostController` |
| ParseLaws.ParseAlias | lib/Simple.php:189-201 | a plain request that starts with an alias tag parses as the same request with the expansion written out |
| ParseLaws.AliasWithParam | lib/Simple.php:189-201 | a one-parameter alias request parses as the expanded request |
| ParseLaws.ShortAliasParse | lib/Simple.php:189-201 | with `b` standing for `blog.post.view`, `b/5` parses as `blog.post.view/5` |
| AttrLaws.QuerySegments | lib/Simple.php:308-310 | the query string with `=` written as `:` is the segments of the variables joined with `/` |
| AttrLaws.AttrSuffixSegments | lib/Simple.php:308-310 | the variables' suffix is their segments, each behind a `/` |
| AttrLaws.SegmentMatch | lib/Simple.php:170 | the pattern matches a whole `/name:value` segment and no more |
| AttrLaws.AttrScanSegments | lib/Simple.php:170-177 | the segments alone are exactly the matches, and nothing is left |
| AttrLaws.AttrScanPrefix | lib/Simple.php:170-177 | text without `:` in front of the segments adds no match and stays in the path |
| AttrLaws.SegmentToken | lib/Simple.php:172 | turning `:` into `=` makes a segment back into its `name=value` token |
| AttrLaws.ParseStrTokens | lib/Simple.php:173 | `parse_str` of the joined tokens gives the variables back, in their order, for names PHP does not rename |
| AttrLaws.ScanAttrSuffix | lib/Simple.php:170-177 | for a path without `:` followed by variables, the segments are the matches and the path is what is left |
| AttrLaws.ExtractAttrSuffix | lib/Simple.php:170-178 | the variables `buildUrL` appends to a path without `:` are exactly the attributes `parse` takes out, in order, and the path is what remains |
| AttrLaws.ExtractNoAttributes | lib/Simple.php:170-178 | a path without `:` has no attributes and stays unchanged |
| AttrLaws.ParseStrColonValue | lib/Simple.php:173 | `parse_str("k=a=b")` splits at the first `=` only |
| AttrLaws.ColonInValue | lib/Simple.php:172 | every `:` becomes `=`, so `/k:a:b` gives the attribute `k` = `a=b` |
| BuildLaws.ContractFirstRule | lib/Simple.php:299-305 | the first rule that matches, and only that rule, is replaced by its tag |
| BuildLaws.ContractNoRule | lib/Simple.php:299-305 | when no rule matches, the URL stays unchanged |
| BuildLaws.RuleMatchesItself | lib/Simple.php:301 | a rule matches itself and any URL that continues from it after a `/` |
| BuildLaws.ModCtlOfRouteId | lib/Simple.php:291-293 | `m.c.t` on one line gives module `m` and controller `c` |
| BuildLaws.ModCtlOfPair | lib/Simple.php:294-296 | `c.t` on one line gives no module and controller `c` |
| BuildLaws.HostPrefixPlain | lib/Simple.php:330-331 | with an empty base path: the host without its trailing `/`, then one `/`, then the URL |
| BuildLaws.DomainPrecedence | lib/Simple.php:326-340 | a domain for `mod.ctl` wins over one for `mod`, which wins over the full-URL host; with none of these the URL stays relative |
| BuildLaws.QueryJoinsWithAmpersand | lib/Simple.php:343-345 | a `?` after the first character makes the query join with `&` |
| BuildLaws.QueryStartsFresh | lib/Simple.php:343-345 | without a `?`, the query starts with `?` |
| BuildLaws.QueryAfterLeadingMark | lib/Simple.php:344 | a `?` at position 0 counts as none, so a second `?` is written |
| BuildLaws.NoQuery | lib/Simple.php:343 | an empty query, or `"0"`, adds nothing |
| BuildLaws.QueryAfterEntryScript | lib/Simple.php:322-345 | without rewriting, a query always joins with `&` after `scriptName?` |
| BuildLaws.FragmentLast | lib/Simple.php:348-350 | a non-empty fragment goes last, after its `#`; an empty one adds nothing |
| BuildLaws.CreateUrlSplits | lib/Simple.php:251-272 | `path?query#fragment` builds `path` with that query and fragment; a `?` inside the fragment stays there |
| BuildLaws.CreateUrlPlain | lib/Simple.php:251-272 | a URI with neither `#` nor `?` has no query and no fragment |
| BuildLaws.CreateUrlFragment | lib/Simple.php:251-272 | for `path#fragment`, the fragment alone is moved to the end |
| BuildLaws.RelativeUrl | lib/Simple.php:283-353 | with no domains and no full URL, the URL is the built path followed by the query and the fragment |
| BuildLaws.AliasedPath | lib/Simple.php:298-324 | the first matching rule is shortened to its tag, followed by the attributes, the suffix and `scriptName?` when rewriting is off |
| BuildLaws.ShortUrlOnEntryScript | lib/Simple.php:251-353 | `createUrl("blog.post.view", ["sort" => "desc"])` with alias `b`, rewriting off, is `index.php?b/sort:desc` |
| BuildLaws.DomainOfRoute | lib/Simple.php:289-340 | for `m.c.t`, the lookup uses the lower-cased names: a domain for `m.c` places the URL, otherwise one for `m` |
| BuildLaws.ControllerHost | lib/Simple.php:251-353 | a URL `m.c.t` whose controller has the domain `h` is `h/m.c.t` |
| BuildLaws.ControllerHostWins | lib/Simple.php:326-340 | with domains for both `blog.post` and `blog`, `blog.post.view` goes on the controller's host |
| BuildLaws.EncodedUrl | lib/Simple.php:313-316 | with encoding on and nothing else that rewrites, the URL is `q_` followed by its base64url text |
| BuildLaws.EncodedSurvivesCleaning | lib/Simple.php:118-135 | the cleaning steps leave an encoded URL unchanged |
| BuildLaws.EncodedRoundTrip | lib/Simple.php:164-167 | with encoding on, the URL built for a non-empty byte-string path routes exactly as the path itself |
| BuildLaws.EncodedRequest | lib/Simple.php:313-316 | with encoding on, the URL of a plain request starts with `q_` and routes as the request does |
| BuildLaws.EncodedCreate | lib/Simple.php:251-272 | `createUrl` with encoding on, of a plain URI without `q`, starts with `q_` and routes as the URI does |
| BuildLaws.EncodedBlogUrl | lib/Simple.php:251-272 | with encoding on, the URL of `blog.post.view` starts with `q_` and routes as `blog.post.view` |
| RoundTrip.ToUrlParse | lib/Simple.php:111-353 | `parse(toUrl(vo))` gives the record back, with its class name filled in, for records `toUrl` can write without loss, with or without encoding, a suffix, the entry script, a base path, domains and a full URL |
| RoundTrip.WrittenUrl | lib/Simple.php:234-353 | the URL of a record is the placed path, followed by its query and its fragment |
| RoundTrip.PathOfRecord | lib/Simple.php:298-324 | without aliases, the path is `scriptName?` when rewriting is off, then the (encoded) id, parameters and attributes, then the suffix |
| RoundTrip.DomainCases | lib/Simple.php:326-340 | the placed URL is either the relative path or the path on a site host under the base path |
| RoundTrip.HostPrefixText | lib/Simple.php:330-331 | on a site host, the placed URL is the host, a `/` and the path under the base path |
| RoundTrip.BaseJoin | lib/Simple.php:330-331 | joining the base path and the path leaves exactly one `/` between them |
| RoundTrip.AppendsTail | lib/Simple.php:343-350 | the query and the fragment are appended with their separators, when they are present |
| RoundTrip.CleanRecordUrl | lib/Simple.php:118-135 | cleaning such a placed URL gives back the path, the suffix and the tail |
| RoundTrip.HostBase | lib/Simple.php:118-126 | cleaning removes the site host and the base path that `buildUrL` put in front |
| RoundTrip.RelativeBase | lib/Simple.php:118-126 | a relative path that does not start with the base path's text is left as it is |
| RoundTrip.ScriptCleaned | lib/Simple.php:131-135 | the entry script `buildUrL` wrote is cut off, and nothing of the path after it |
| RoundTrip.SplitTail | lib/Simple.php:144-156 | the fragment and the query written by `buildUrL` are cut off again as they were written |
| RoundTrip.PathBack | lib/Simple.php:159-167 | the suffix comes off and the payload decodes to the written path |
| RoundTrip.PiecesBack | lib/Simple.php:144-167 | a written URL, once cleaned, gives back the record's fragment, query and path text |
| RoundTrip.RouteOfRecord | lib/Simple.php:170-227 | the path text of a record gives back its attributes, route and parameters |
| RoundTrip.ReadBack | lib/Simple.php:203-219 | with modules on, the routing id of a writable record sets that record's own module, controller and action |
| RoundTrip.RecordSteps | lib/Simple.php:137-227 | a URI that cleans to the record's path text and tail parses as the record |
| PrefixQuirks.BaseTextPrefix | lib/Simple.php:122-126 | with modules on, a relative URL `m.c.a` stays relative when `m` is also the base path, and `parse` then reads it as `c.a`: the record does not come back |
| PrefixQuirks.BlogUnderBlog | lib/Simple.php:122-126 | under the base path `/blog/`, the URL of `blog.post.view` parses as `post`/`view`/`index` |
| PrefixQuirks.ScriptTextPrefix | lib/Simple.php:131-141 | with modules off and rewriting on, the URL of the route `c.a` equals an entry script named `c.a`, and the request `/c.a` is the home route |
| PrefixQuirks.IndexPhp | lib/Simple.php:131-141 | with the default options, the URL of `index.php` is `index.php`, and it parses as the home route `default`/`index` |
| RouteLaws.PlainClass | lib/Simple.php:401-406 | a controller that is not nested is `ns\NameController` |
| RouteLaws.ModuleClass | lib/Simple.php:388-406 | `common`/`default` is `\app\common\controller\DefaultController` |
| RouteLaws.GlobalClass | lib/Simple.php:388-406 | without a module, `default` is `\app\controller\DefaultController` |
| RouteLaws.BlogPostClass | lib/Simple.php:388-406 | `blog`/`post` is `\app\blog\controller\PostController` |
| RouteLaws.NestedClass | lib/Simple.php:396-406 | `a.b` puts the class in sub-namespace `a` (with `\` for its `.`) and keeps the leading `.` of the base name (line 398) |
| RouteLaws.NestedExample | lib/Simple.php:396-406 | `admin.user` is the class `.userController` in the sub-namespace `admin` |
| RouteLaws.LeadingDotIsNotNested | lib/Simple.php:396 | a `.` at position 0 counts as none, so `.user` is not nested |
| RouteLaws.GlobalNamespace | lib/Simple.php:388-392 | with no module, every class lies in `\app\controller` |
| ConfigLaws.SiteUrlWithoutPath | lib/Simple.php:364 | a URL with no `/` past its seventh character does not match |
| ConfigLaws.SiteUrlSplit | lib/Simple.php:364-369 | `scheme host path` gives `scheme host` as group 1 and the path as group 2 |
| ConfigLaws.SiteUrlDerives | lib/Simple.php:362-372 | a `siteUrl` of that shape with no `hostInfo` sets `hostInfo` and `basePath` from it |
| ConfigLaws.SiteUrlExample | lib/Simple.php:362-372 | `http://www.site.com/ctx/` gives `http://www.site.com` and `/ctx/` |
| ConfigLaws.SiteUrlRejected | lib/Simple.php:364-366 | `http://host`, with no `hostInfo`, makes `setCfg` fail |
| ConfigLaws.NoSettingsKeeps | lib/Simple.php:372 | with no option given, the configuration stays unchanged |
| ConfigLaws.ZeroSiteUrl | lib/Simple.php:362 | a `siteUrl` of `"0"` is stored, and nothing is derived from it |
| PhpArray.Lookup | lib/Simple.php:192-193 | `array_key_exists` fails exactly when no pair has the key; otherwise `$a[$k]` is the value of the first pair with key `k` |
| PhpArray.Put | lib/Simple.php:173 | `$a[$k] = $v` stores `v` under `k`, leaves other keys alone, and adds a new key at the end |
| Base64.DecodeEncode | lib/Simple.php:313-316 | `base64_decode(base64_encode(s)) == s` for every byte string |
| Base64.UrlEncode | lib/Simple.php:313-316 | the base64url characters of the six-bit groups, unpadded and URL-safe |
| Base64.UrlDecodeEncode | lib/Simple.php:164-167 | decoding the base64url text of a byte string gives that string back |
| Strings.Trim | lib/Simple.php:119 | `trim` leaves no character of the set at either end, and gives `""` exactly when every character is in the set |
| Strings.Split | lib/Simple.php:181 | `explode` is never empty, its pieces hold no separator, and `implode` undoes it |
| Strings.SplitJoin | lib/Simple.php:197 | splitting joined separator-free pieces gives the pieces back |
| Strings.Cut | lib/Simple.php:147-156 | the text before the first `c`, and the text after it when there is one, put back together give `s` |
| Strings.IndexOf | lib/Simple.php:147 | `strpos` returns the first index of `c`, or false exactly when `c` is absent |
| Strings.LastIndexOf | lib/Simple.php:398-399 | `strrpos` returns the last index of `c`, or false exactly when `c` is absent |
| Strings.Lower | lib/Simple.php:191 | ASCII `strtolower` maps each character and leaves no upper-case letter |
| Strings.Ucfirst | lib/Simple.php:406 | `ucfirst` upper-cases the first character only |

## Left out

- Only the PCRE patterns the router uses are modelled, each as a hand-written scanner. There is no
  general regular-expression engine.
- `parse_str` is taken without URL decoding and without PHP's name mangling (`.`, space, `[`).
  The round-trip laws exclude names with those characters (`AttrLaws.PlainVar`), so they hold of
  PHP as well.
  `http_build_query` is taken without URL encoding, and only for string keys and values.
- `array_replace_recursive` is modelled as a plain per-option override. It does not merge the
  nested `domain` and `alias` arrays.
- `strtolower`, `stripos` and `ucfirst` are taken on ASCII only.
- A PHP string is a sequence of `char`, and base64 reads each character's low eight bits. The
  round trips hold for byte strings.
- lib/Exception.php, lib/RouteAbstract.php and lib/RouteInterface.php only declare types and are
  not part of this model. `getRouteVO` only returns `$this->vo`, which the class exposes as a field.
- Concurrency, and PHP's dynamic typing of the options (integers used as booleans), are not
  modelled. The switches are booleans.
- ParseLaws.RoutedRequest: proved for requests that no cleaning step touches, with plain names and
  values. URIs the cleaning steps rewrite go through `ParseSpec.ParseRoute` unchanged, with no
  separate reading-back law.
- RoundTrip.ToUrlParse: proved with modules on and no alias, for records with lower-case names
  without `.`, routing-id characters in the id, non-empty parameters without `/`, plain attributes,
  and a query and a fragment with no `?` (and no `#` in the query) that do not end in `.`, `/` or
  `?`. There must be no `:` in the id and parameters. The written text must be a byte string when
  encoding is on, and otherwise free of `#`, `&`, `?`, `//` and of `.` or `/` at its ends. The
  suffix must be readable, the entry script with rewriting off must not start with `/` or hold
  `//`, and the base path must not be `0` or hold `//`. Every host used must be an `http(s)://`
  name without `/` or newline. The relative URL must not start with the base path's text, and the
  written path must not start with the entry script's text when rewriting is on. Without these two
  conditions the round trip fails, as `PrefixQuirks` shows.
- BuildLaws.EncodedRoundTrip: proved with encoding and rewriting on and no suffix, alias, domain
  or full URL. The base path must be `""`, the entry script must not start with `q`, there are no
  variables, and the path is a non-empty byte string without `/` at its ends. The general case is
  `RoundTrip.ToUrlParse`.
- BuildLaws.EncodedRequest: the same options as `BuildLaws.EncodedRoundTrip`, for a plain request
  that is a byte string.
- BuildLaws.EncodedCreate: the same options, for a byte-string URI without `q`, `#`, `&`, `?` or
  `//`, not `0`, not starting with the entry script's first character, and without `.` or `/` at
  its ends.
- Router.Simple.constructor: PHP's `$vo` is `null` until `parse` or `initRouteVO` runs (line 26).
  The model starts it as the empty record, since a field needs a value. So `toUrl` called before
  `parse` gives a URL here, while PHP fails when it passes the null record's attributes on.
- RouteModel.Config: `alias` is a list of pairs. A PHP array holds each tag once, so a list that
  repeats a tag has no PHP counterpart. On such a list `PhpArray.Lookup` takes the first pair and
  `BuildSpec.ContractAlias` tries the pairs in order.
- BuildLaws.DomainPrecedence: states the order of the three rules for a module and controller
  without leading or trailing `.`. It does not cover names that `trim(…, '.')` would change.
