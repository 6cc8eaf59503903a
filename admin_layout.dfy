/** The admin sidebar (components/AdminLayout.js): which entry is highlighted for the current path. */
module AdminLayout {
  import opened Text

  /** The four sidebar entries, in display order. */
  function Entries(): seq<string> {
    ["/admin/dashboard", "/admin/properties", "/admin/projects", "/admin/enquiries"]
  }

  /**
   * `isActive(path)`: the enquiries entry for any path under it, the projects
   * entry for any path under "/admin/projects" or "/admin/project/", every
   * other entry only for its exact path.
   */
  predicate IsActive(path: string, pathname: string): (r: bool)
    ensures pathname == path ==> r
    ensures r && path != "/admin/enquiries" && path != "/admin/projects" ==> pathname == path
  {
    if path == "/admin/enquiries" then StartsWith(pathname, "/admin/enquiries")
    else if path == "/admin/projects" then
      StartsWith(pathname, "/admin/projects") || StartsWith(pathname, "/admin/project/")
    else pathname == path
  }

  /** A single project's pages keep the projects entry highlighted. */
  lemma {:induction false} ProjectPagesHighlightProjects(id: string)
    ensures IsActive("/admin/projects", "/admin/project/" + id)
    ensures IsActive("/admin/projects", "/admin/projects")
  {
    assert ("/admin/project/" + id)[..|"/admin/project/"|] == "/admin/project/";
  }

  lemma {:induction false} PrefixChar(s: string, p: string, i: int)
    requires StartsWith(s, p) && 0 <= i < |p|
    ensures s[i] == p[i]
  {
    assert s[..|p|][i] == s[i];
  }

  /** Whatever the path, no two sidebar entries are highlighted together. */
  lemma {:induction false} AtMostOneActive(pathname: string, a: int, b: int)
    requires 0 <= a < b < |Entries()|
    ensures !(IsActive(Entries()[a], pathname) && IsActive(Entries()[b], pathname))
  {
    var e := Entries();
    if IsActive(e[a], pathname) && IsActive(e[b], pathname) {
      if a == 0 {
        assert pathname == "/admin/dashboard";
        if b == 2 {
          if StartsWith(pathname, "/admin/projects") {
            PrefixChar(pathname, "/admin/projects", 7);
          } else {
            PrefixChar(pathname, "/admin/project/", 7);
          }
        } else if b == 3 {
          PrefixChar(pathname, "/admin/enquiries", 7);
        }
      } else if a == 1 {
        assert pathname == "/admin/properties";
        if b == 2 {
          if StartsWith(pathname, "/admin/projects") {
            PrefixChar(pathname, "/admin/projects", 10);
          } else {
            PrefixChar(pathname, "/admin/project/", 10);
          }
        } else {
          PrefixChar(pathname, "/admin/enquiries", 7);
        }
      } else {
        PrefixChar(pathname, "/admin/enquiries", 7);
        if StartsWith(pathname, "/admin/projects") {
          PrefixChar(pathname, "/admin/projects", 7);
        } else {
          PrefixChar(pathname, "/admin/project/", 7);
        }
      }
    }
  }
}
