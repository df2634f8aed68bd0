/**
 * The bottom navigation bar (src/app/components/Navbar.tsx): which of its
 * three links is highlighted for the current pathname.
 */
module Navbar {
  import opened Common

  const HomePath: string := "/"
  const ProgramPath: string := "/program"
  const RequestSongPath: string := "/request-song"

  /** The paths the bar passes to `isActive`, one per link, in display order. */
  const NavTargets: seq<string> := [HomePath, ProgramPath, RequestSongPath]

  /**
   * `isActive(path)` on the page at `pathname`. Home and Request Song are
   * active only on their exact path; Program on every pathname that starts
   * with `/program` (so `/programs` too); any other argument never is.
   */
  function IsActive(pathname: string, path: string): (r: bool)
    ensures r ==> path in NavTargets && path <= pathname
    ensures r && path != ProgramPath ==> pathname == path
    ensures path in NavTargets && pathname == path ==> r
    ensures path == ProgramPath ==> (r <==> ProgramPath <= pathname)
  {
    if path == HomePath && pathname == HomePath then true
    else if path == ProgramPath && ProgramPath <= pathname then true
    else if path == RequestSongPath && pathname == RequestSongPath then true
    else false
  }

  /** The links highlighted on `pathname`, as a set of indices into `NavTargets`. */
  function ActiveLinks(pathname: string): (r: set<nat>)
    ensures forall i :: i in r ==> i < |NavTargets| && IsActive(pathname, NavTargets[i])
    ensures forall i :: 0 <= i < |NavTargets| && IsActive(pathname, NavTargets[i]) ==> i in r
  {
    set i: nat | i < |NavTargets| && IsActive(pathname, NavTargets[i])
  }

  /** On any pathname at most one link is highlighted, and none on the wall of love. */
  lemma AtMostOneActive(pathname: string)
    ensures |ActiveLinks(pathname)| <= 1
    ensures pathname == WallOfLovePath ==> ActiveLinks(pathname) == {}
  {
    var a := ActiveLinks(pathname);
    if 1 in a {
      assert ProgramPath <= pathname;
      assert pathname != HomePath;
      assert pathname != RequestSongPath by {
        assert pathname[1] == 'p' && RequestSongPath[1] == 'r';
      }
      assert a == {1};
    } else if 0 in a {
      assert a == {0};
    } else if 2 in a {
      assert a == {2};
    } else {
      assert a == {};
    }
    if pathname == WallOfLovePath {
      assert !(ProgramPath <= pathname) by {
        assert pathname[1] != ProgramPath[1];
      }
    }
  }
}
