/**
 * The naming rule of `buildVOCtlClass` (lib/Simple.php:383-407) on examples, the nested
 * controller and the two `strpos`/`substr` quirks of lines 396-398.
 */
module RouteLaws {
  import opened Wrappers
  import opened Strings
  import opened RouteModel

  /** `default` has no `.`: it is not nested. */
  lemma DefaultNotNested(ctl: string)
    requires ctl == "default"
    ensures !IsNested(ctl) && Ucfirst(ctl) == "Default"
  {
    assert ctl[..1] == "d" && ctl[1..] == "efault";
    assert '.' !in ctl;
  }

  /** A controller that is not nested is `ns\Name` + "Controller", whatever the namespace and the name are. */
  lemma PlainClass(mod: string, ctl: string, ns: string, name: string)
    requires Namespace(mod) == ns && !IsNested(ctl) && Ucfirst(ctl) == name
    ensures CtlClass(mod, ctl) == ns + "\\" + (name + "Controller")
  {
  }

  /** A controller of a module: `\app\{mod}\controller\{Ctl}Controller`. */
  lemma ModuleClass(mod: string, ctl: string)
    requires mod == "common" && ctl == "default"
    ensures CtlClass(mod, ctl) == "\\app\\common\\controller" + "\\" + ("Default" + "Controller")
  {
    DefaultNotNested(ctl);
    CommonNamespace(mod);
    PlainClass(mod, ctl, "\\app\\common\\controller", "Default");
  }

  /** The namespace of the module `common`. */
  lemma CommonNamespace(mod: string)
    requires mod == "common"
    ensures Namespace(mod) == "\\app\\common\\controller"
  {
    assert Truthy(mod);
  }

  /** Without a module the class lies in `\app\controller`. */
  lemma GlobalClass(ctl: string)
    requires ctl == "default"
    ensures CtlClass("", ctl) == "\\app\\controller" + "\\" + ("Default" + "Controller")
  {
    DefaultNotNested(ctl);
    PlainClass("", ctl, "\\app\\controller", "Default");
  }

  /** The blog example: module `blog`, controller `post`. */
  lemma BlogPostClass(mod: string, ctl: string)
    requires mod == "blog" && ctl == "post"
    ensures CtlClass(mod, ctl) == "\\app\\blog\\controller" + "\\" + ("Post" + "Controller")
  {
    BlogPostNames(mod, ctl);
    PlainClass(mod, ctl, "\\app\\blog\\controller", "Post");
  }

  /** The namespace of `blog` and the class name of `post`. */
  lemma BlogPostNames(mod: string, ctl: string)
    requires mod == "blog" && ctl == "post"
    ensures Namespace(mod) == "\\app\\blog\\controller" && !IsNested(ctl) && Ucfirst(ctl) == "Post"
  {
    assert '.' !in ctl && Truthy(mod);
  }

  /** The last `.` of `a.b`, when `b` has none, is the one between them. */
  lemma LastDot(a: string, b: string)
    requires '.' !in b
    ensures LastIndexOf(a + "." + b, '.') == Some(|a|)
  {
    var ctl := a + "." + b;
    assert ctl[|a|] == '.';
    assert ctl[|a| + 1..] == b;
  }

  /**
   * A nested controller `a.b` (a `.` after the first character): the sub-namespace is `a` with
   * `\` for each of its `.`, and the base name keeps the `.` of line 398 and is not capitalised.
   */
  lemma NestedClass(mod: string, a: string, b: string)
    requires a != [] && a[0] != '.' && '.' !in b
    ensures CtlClass(mod, a + "." + b) == Namespace(mod) + "\\" + (ReplaceChar(a, '.', '\\') + "\\" + ("." + b) + "Controller")
  {
    LastDot(a, b);
    NestedParts(a, b);
  }

  /** `a.b` cut at the `.` between them, and nested because `a` does not start with a `.`. */
  lemma NestedParts(a: string, b: string)
    requires a != [] && a[0] != '.'
    ensures var ctl := a + "." + b; ctl[..|a|] == a && ctl[|a|..] == "." + b && IsNested(ctl)
  {
    var ctl := a + "." + b;
    assert ctl[|a|] == '.';
    assert ctl[0] == a[0];
  }

  /** `admin.user` is the class `.userController` of the sub-namespace `admin`. */
  lemma NestedExample(ctl: string)
    requires ctl == "admin.user"
    ensures CtlClass("", ctl) == "\\app\\controller" + "\\" + ("admin" + "\\" + ".user" + "Controller")
  {
    var a, b := "admin", "user";
    AdminUser(ctl, a, b);
    NestedClass("", a, b);
    ReplaceAbsent(a, '.', '\\');
  }

  /** The pieces of `admin.user`. */
  lemma AdminUser(ctl: string, a: string, b: string)
    requires ctl == "admin.user" && a == "admin" && b == "user"
    ensures ctl == a + "." + b && "." + b == ".user" && a[0] != '.' && '.' !in a && '.' !in b
    ensures Namespace("") == "\\app\\controller"
  {
  }

  /** A `.` at position 0 is `strpos` giving 0, read as false: `.user` is not nested. */
  lemma LeadingDotIsNotNested(ctl: string)
    requires ctl == ".user"
    ensures !IsNested(ctl)
    ensures CtlClass("", ctl) == "\\app\\controller" + "\\" + ".user" + "Controller"
  {
    assert ctl[0] == '.';
    assert Ucfirst(ctl) == ".user";
  }

  /** With modules off the module stays empty, so every class lies in `\app\controller`. */
  lemma GlobalNamespace(ctl: string)
    ensures StartsWith(CtlClass("", ctl), "\\app\\controller\\")
  {
  }
}
