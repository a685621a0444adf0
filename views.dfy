/**
 * What a handler of the front controller hands back to the web layer, and the
 * theme-relative template path that `FrontController.view` builds.
 */
module Views {
  import opened Wrappers
  import opened JavaStrings

  /** The active theme, read from the servlet context; only its name is used. */
  datatype Theme = Theme(name: string)

  /** The exceptions a handler can let escape. */
  datatype Fault =
    | ThemeMissing                  // no "theme" attribute: `theme.getName()` on null
    | TemplateWithoutDot(template: string) // `substring(0, -1)` in `view`
    | SlugOutOfRange(uri: string)    // `uri.substring(4)` on a URI shorter than 4
    | NegativePageIndex(index: int)  // `PageRequest.of` with a page index below 0

  /** A rendered template path, a redirect (built by the base controller), or an exception. */
  datatype Outcome = Render(path: string) | Redirect(url: string) | Fault(fault: Fault)

  /** The site root, where every miss is redirected. */
  const Home: string := "/"

  const ThemesRoot: string := "/themes/"

  /** The directory of a theme's templates, with its trailing slash. */
  function ThemeDir(theme: Theme): string {
    ThemesRoot + theme.name + "/"
  }

  /** `stem` is `template` cut before its first dot. */
  predicate IsStem(stem: string, template: string) {
    |stem| < |template| && template[..|stem|] == stem && template[|stem|] == '.' && '.' !in stem
  }

  /** `view(template)`: the theme directory followed by the template name up to
      its first dot. */
  function View(theme: Option<Theme>, template: string): (r: Outcome)
    ensures theme.None? ==> r == Fault(ThemeMissing)
    ensures theme.Some? && '.' !in template ==> r == Fault(TemplateWithoutDot(template))
    ensures theme.Some? && '.' in template ==>
      && r.Render?
      && var dir := ThemeDir(theme.value);
      && |dir| <= |r.path| && r.path[..|dir|] == dir
      && IsStem(r.path[|dir|..], template)
  {
    match theme
    case None => Fault(ThemeMissing)
    case Some(t) =>
      var i := IndexOf(template, '.');
      if i < 0 then Fault(TemplateWithoutDot(template))
      else
        var path := ThemeDir(t) + template[..i];
        assert path[|ThemeDir(t)|..] == template[..i];
        Render(path)
  }

  /** A template named `stem.ext`, with no dot in `stem`, renders as `stem`
      inside the theme directory, whatever the extension. */
  lemma ViewOfStem(theme: Theme, stem: string, ext: string)
    requires '.' !in stem
    ensures View(Some(theme), stem + "." + ext) == Render(ThemeDir(theme) + stem)
  {
    var template := stem + "." + ext;
    assert template[|stem|] == '.';
    var i := IndexOf(template, '.');
    assert template[..|stem|] == stem;
  }

  /** The stem is all the path keeps of a template. */
  lemma ViewIgnoresExtension(theme: Theme, stem: string, ext1: string, ext2: string)
    requires '.' !in stem
    ensures View(Some(theme), stem + "." + ext1) == View(Some(theme), stem + "." + ext2)
  {
    ViewOfStem(theme, stem, ext1);
    ViewOfStem(theme, stem, ext2);
  }
}
