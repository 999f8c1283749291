/**
 * The route-prefix joiner of the gin server: `group(group, route)` puts a
 * route under a group prefix, rooting the prefix at '/', dropping one
 * trailing '/' from it when it has one, and inserting a '/' only where the
 * route lacks one.
 */
module NeveGin {

  /** The prefix with a leading '/', added only when missing. */
  function Rooted(group: string): (r: string)
    requires group != []
    ensures r != [] && r[0] == '/'
    ensures group[0] == '/' ==> r == group
    ensures group[0] != '/' ==> r == "/" + group
  {
    if group[0] != '/' then "/" + group else group
  }

  /** The prefix without its last character when that is a '/'. */
  function TrimSlash(group: string): (r: string)
    requires group != []
    ensures group == r || group == r + "/"
    ensures group[|group| - 1] == '/' <==> group == r + "/"
  {
    if group[|group| - 1] == '/' then group[..|group| - 1] else group
  }

  /** `group`: an empty part leaves the other unchanged; otherwise the route is joined under the rooted prefix. */
  function Group(group: string, route: string): (r: string)
    ensures route == [] ==> r == group
    ensures group == [] && route != [] ==> r == route
    ensures group != [] && route != [] ==> r != [] && r[0] == '/'
    ensures |r| >= |route| && r[|r| - |route|..] == route
  {
    if |route| == 0 then group
    else if |group| == 0 then route
    else
      var g := TrimSlash(Rooted(group));
      assert g != [] ==> g[0] == '/' by {
        if g != [] {
          assert Rooted(group) == g || Rooted(group) == g + "/";
          assert Rooted(group)[0] == g[0];
        }
      }
      if route[0] == '/' then g + route else g + "/" + route
  }

  /**
   * With both parts present, what comes before the route is the rooted
   * prefix with its trailing '/' dropped when it ends in one, followed by one inserted
   * '/' exactly when the route does not start with one.
   */
  lemma GroupJoin(group: string, route: string)
    requires group != [] && route != []
    ensures var r := Group(group, route);
      var before := r[..|r| - |route|];
      && (route[0] != '/' ==> before != [] && before[|before| - 1] == '/')
      && var core := if route[0] == '/' then before else before[..|before| - 1];
         var p := Rooted(group);
         && (p[|p| - 1] == '/' ==> p == core + "/")
         && (p[|p| - 1] != '/' ==> p == core)
  {
    var r := Group(group, route);
    var p := Rooted(group);
    var g := TrimSlash(p);
    if route[0] == '/' {
      assert r == g + route;
      assert r[..|r| - |route|] == g;
    } else {
      assert r == (g + "/") + route;
      assert r[..|r| - |route|] == g + "/";
      assert (g + "/")[..|g|] == g;
    }
  }

  /**
   * Only one trailing '/' is dropped: a rooted prefix ending in "//" keeps
   * one of them, so "/a//" joined with "b" is "/a//b".
   */
  lemma GroupKeepsDoubleSlash(group: string, route: string)
    requires |group| >= 2 && group[0] == '/' && group[|group| - 1] == '/' && group[|group| - 2] == '/'
    requires route != [] && route[0] != '/'
    ensures Group(group, route) == group + route
    ensures Group("/a//", "b") == "/a//b"
  {
    var g := TrimSlash(Rooted(group));
    assert g == group[..|group| - 1];
    assert g + "/" == group;
    assert Group(group, route) == (g + "/") + route;
  }
}
