/**
 * The Docker Hub path redirect: a pull path `/v2/<name>/<kind>/<reference>`
 * whose image name has no namespace is sent, with a 301, to the same path
 * with the `library` segment inserted before the name.
 */
module LibraryPath {
  import opened Wrappers
  import opened Text
  import opened Http

  /** The redirected pathname, or `None` when the path is served as it is. */
  function Redirect(pathname: string): Option<string>
  {
    var parts := Split(pathname, '/');
    if |parts| == 5 && !Contains(parts[2], "library") then
      Some(Join(parts[..2] + ["library"] + parts[2..], '/'))
    else
      None
  }

  /**
   * The redirect as the handler runs it: split the path, splice `library`
   * in at index 2, and set the joined path on a copy of the request URL.
   */
  method RedirectLibrary(url: Url) returns (moved: Option<Url>)
    ensures Redirect(url.pathname).None? ==> moved == None
    ensures Redirect(url.pathname).Some? ==> moved == Some(url.(pathname := Redirect(url.pathname).value))
  {
    var parts := Split(url.pathname, '/');
    if |parts| == 5 && !Contains(parts[2], "library") {
      parts := parts[..2] + ["library"] + parts[2..];
      var redirectUrl := url;
      redirectUrl := redirectUrl.(pathname := Join(parts, '/'));
      return Some(redirectUrl);
    }
    return None;
  }

  /**
   * The redirect happens exactly for five `/`-segments whose segment 2 does
   * not contain `library`; the new path has the segments of the old one in
   * order, with `library` at index 2, so six in all.
   */
  lemma RedirectSegments(pathname: string)
    ensures var parts := Split(pathname, '/');
      && (Redirect(pathname).Some? <==> |parts| == 5 && !Contains(parts[2], "library"))
      && (Redirect(pathname).Some? ==>
            && Split(Redirect(pathname).value, '/') == parts[..2] + ["library"] + parts[2..]
            && |Split(Redirect(pathname).value, '/')| == 6)
  {
    var parts := Split(pathname, '/');
    if |parts| == 5 && !Contains(parts[2], "library") {
      var moved := parts[..2] + ["library"] + parts[2..];
      assert '/' !in "library";
      assert forall p <- moved :: p in parts || p == "library";
      SplitJoin(moved, '/');
    }
  }

  /** A redirected path has six segments, so it is never redirected again. */
  lemma RedirectOnce(pathname: string)
    requires Redirect(pathname).Some?
    ensures Redirect(Redirect(pathname).value) == None
  {
    RedirectSegments(pathname);
  }

  /** Joining the five segments of a pull path. */
  lemma JoinPullPath(name: string, kind: string, reference: string)
    ensures Join(["", "v2", name, kind, reference], '/') == "/v2/" + name + "/" + kind + "/" + reference
  {
    var parts := ["", "v2", name, kind, reference];
    assert Join(parts[3..], '/') == kind + "/" + reference by {
      assert parts[3..][1..] == [reference];
    }
    assert Join(parts[2..], '/') == name + "/" + kind + "/" + reference by {
      assert parts[2..][1..] == parts[3..];
    }
    assert Join(parts[1..], '/') == "v2/" + name + "/" + kind + "/" + reference by {
      assert parts[1..][1..] == parts[2..];
    }
  }

  /** Writing out `/v2/<name>/<kind>/<reference>` as its segments. */
  lemma PullPathSegments(name: string, kind: string, reference: string)
    requires '/' !in name && '/' !in kind && '/' !in reference
    ensures Split("/v2/" + name + "/" + kind + "/" + reference, '/') == ["", "v2", name, kind, reference]
  {
    var parts := ["", "v2", name, kind, reference];
    assert '/' !in parts[1];
    assert forall p <- parts :: '/' !in p;
    SplitJoin(parts, '/');
    JoinPullPath(name, kind, reference);
  }

  /** Joining the six segments of a redirected pull path. */
  lemma JoinLibraryPath(name: string, kind: string, reference: string)
    ensures Join(["", "v2", "library", name, kind, reference], '/') == "/v2/library/" + name + "/" + kind + "/" + reference
  {
    var parts := ["", "v2", "library", name, kind, reference];
    assert Join(parts[4..], '/') == kind + "/" + reference by {
      assert parts[4..][1..] == [reference];
    }
    assert Join(parts[3..], '/') == name + "/" + kind + "/" + reference by {
      assert parts[3..][1..] == parts[4..];
    }
    assert Join(parts[2..], '/') == "library/" + name + "/" + kind + "/" + reference by {
      assert parts[2..][1..] == parts[3..];
    }
    assert Join(parts[1..], '/') == "v2/library/" + name + "/" + kind + "/" + reference by {
      assert parts[1..][1..] == parts[2..];
    }
  }

  /**
   * `/v2/nginx/manifests/latest` goes to `/v2/library/nginx/manifests/latest`;
   * a name that contains `library` anywhere, such as `mylibrary`, is not
   * redirected, since the test is on the substring and not on the segment.
   */
  lemma PullPathRedirect(name: string, kind: string, reference: string)
    requires '/' !in name && '/' !in kind && '/' !in reference
    ensures Contains(name, "library") ==> Redirect("/v2/" + name + "/" + kind + "/" + reference) == None
    ensures !Contains(name, "library") ==>
      Redirect("/v2/" + name + "/" + kind + "/" + reference) == Some("/v2/library/" + name + "/" + kind + "/" + reference)
  {
    var pathname := "/v2/" + name + "/" + kind + "/" + reference;
    PullPathSegments(name, kind, reference);
    if !Contains(name, "library") {
      var parts := ["", "v2", name, kind, reference];
      assert parts[..2] + ["library"] + parts[2..] == ["", "v2", "library", name, kind, reference];
      JoinLibraryPath(name, kind, reference);
    }
  }
}
