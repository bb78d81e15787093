/**
 * The router's state: its configuration (`Simple::$cfg`, lib/Simple.php) and the route record it
 * fills while parsing (`RouteVO`, lib/RouteVO.php), with the naming rule from a module and a
 * controller to the controller class the dispatcher loads.
 */
module RouteModel {
  import opened Wrappers
  import opened Strings
  import opened PhpArray

  /**
   * `Simple::$cfg`. The integer switches of the PHP array (`useModule`, `rewrite`, `fullUrl`,
   * `encode`) are booleans; `alias` keeps the order of the PHP array (short tag, rule).
   */
  datatype Config = Config(
    useModule: bool,
    defaultMod: string,
    defaultCtl: string,
    defaultAct: string,
    rewrite: bool,
    rewriteExt: string,
    fullUrl: bool,
    encode: bool,
    scriptName: string,
    siteUrl: string,
    hostInfo: string,
    basePath: string,
    domain: map<string, string>,
    alias: Pairs)

  /** The defaults written in the declaration of `Simple::$cfg`. */
  const DefaultCfg: Config := Config(
    false, "common", "default", "index",
    true, "", false, false,
    "index.php", "", "", "",
    map[], [])

  /** `RouteVO`: where a request is dispatched and with what. */
  datatype RouteVO = RouteVO(
    ctlClass: string,
    mod: string,
    ctl: string,
    act: string,
    actParams: seq<string>,
    attributes: Pairs,
    query: string,
    anchor: string)

  /** A `new RouteVO()`: every field at its declared initial value. */
  const EmptyVO: RouteVO := RouteVO("", "", "", "", [], [], "", "")

  /** The record `initRouteVO` leaves: the default module (only with modules on), controller and action. */
  function InitialVO(cfg: Config): RouteVO {
    EmptyVO.(mod := if cfg.useModule then cfg.defaultMod else "", ctl := cfg.defaultCtl, act := cfg.defaultAct)
  }

  /** The namespace of the controller classes: the global one, or the module's when `mod` is not empty. */
  function Namespace(mod: string): string {
    if Truthy(mod) then "\\app\\" + mod + "\\controller" else "\\app\\controller"
  }

  /**
   * A controller is nested when `strpos($ctl, '.')` is truthy. A `.` at position 0 gives the
   * index 0, which PHP reads as false: such a controller counts as not nested.
   */
  predicate IsNested(ctl: string) {
    match IndexOf(ctl, '.')
    case Some(p) => p > 0
    case None => false
  }

  /**
   * `buildVOCtlClass`: the class name `ns\Name` + "Controller". A nested `a.b.c` puts the class in
   * the sub-namespace `a\b`, and its base name is taken from the LAST `.` on, the `.` included:
   * `substr($ctl, strrpos($ctl, '.'))` keeps it, so the base name is `.c`, which `ucfirst` leaves
   * as it is.
   */
  function CtlClass(mod: string, ctl: string): (r: string)
    ensures StartsWith(r, Namespace(mod) + "\\")
    ensures !IsNested(ctl) ==> r == Namespace(mod) + "\\" + (Ucfirst(ctl) + "Controller")
    ensures IsNested(ctl) ==>
      var k := LastIndexOf(ctl, '.').value;
      r == Namespace(mod) + "\\" + (ReplaceChar(ctl[..k], '.', '\\') + "\\" + ctl[k..] + "Controller")
  {
    var ns := Namespace(mod);
    if IsNested(ctl) then
      var k := LastIndexOf(ctl, '.').value;
      var sub := Translate(ctl[..k], ".", "\\");
      NestedTail(ctl, k);
      Regroup(ns + "\\", sub, "\\", Ucfirst(ctl[k..]), "Controller");
      StartsWithAppend(ns + "\\", sub + "\\" + Ucfirst(ctl[k..]) + "Controller");
      ns + "\\" + sub + "\\" + Ucfirst(ctl[k..]) + "Controller"
    else
      StartsWithAppend(ns + "\\", Ucfirst(ctl) + "Controller");
      ns + "\\" + Ucfirst(ctl) + "Controller"
  }

  lemma Regroup(a: string, b: string, c: string, d: string, e: string)
    ensures a + b + c + d + e == a + (b + c + d + e)
  {
  }

  /** The sub-namespace is the path before the last `.` with `\` for `.`; the base name keeps its `.`. */
  lemma NestedTail(ctl: string, k: nat)
    requires k < |ctl| && ctl[k] == '.'
    ensures Translate(ctl[..k], ".", "\\") + "\\" + Ucfirst(ctl[k..]) + "Controller"
      == ReplaceChar(ctl[..k], '.', '\\') + "\\" + ctl[k..] + "Controller"
  {
    TranslateOne(ctl[..k], '.', '\\');
    assert Ucfirst(ctl[k..]) == ctl[k..];
  }

  /** The record with its `ctlClass` recomputed from its `mod` and `ctl`. */
  function WithCtlClass(vo: RouteVO): RouteVO {
    vo.(ctlClass := CtlClass(vo.mod, vo.ctl))
  }
}
