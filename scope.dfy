/**
 * The Docker Hub scope rewrite on `/v2/auth`: an image name without a
 * namespace lives under `library/`, and the token request must name it.
 */
module Scope {
  import opened Wrappers
  import opened Text
  import opened Http

  /** The scope that is sent on, for the `scope` query value and whether the upstream is Docker Hub. */
  function LibraryScope(scope: Option<string>, isDockerHub: bool): Option<string>
  {
    if Truthy(scope) && isDockerHub then
      var parts := Split(scope.value, ':');
      if |parts| == 3 && '/' !in parts[1] then Some(Join(parts[1 := "library/" + parts[1]], ':'))
      else scope
    else
      scope
  }

  /**
   * The rewrite as the handler runs it: split on `:`, replace the middle
   * part in place, join again.
   */
  method RewriteScope(scope: Option<string>, isDockerHub: bool) returns (sent: Option<string>)
    ensures sent == LibraryScope(scope, isDockerHub)
  {
    sent := scope;
    if Truthy(sent) && isDockerHub {
      var parts := Split(sent.value, ':');
      if |parts| == 3 && '/' !in parts[1] {
        parts := parts[1 := "library/" + parts[1]];
        sent := Some(Join(parts, ':'));
      }
    }
  }

  /**
   * The rewrite fires exactly for a non-empty Docker Hub scope of three
   * `:`-parts whose middle part has no `/`; it then prefixes the middle part
   * with `library/` and keeps the other two; otherwise the scope is sent as
   * it came.
   */
  lemma LibraryScopeParts(scope: Option<string>, isDockerHub: bool)
    ensures var parts := if scope.Some? then Split(scope.value, ':') else [];
      var fires := Truthy(scope) && isDockerHub && |parts| == 3 && '/' !in parts[1];
      && (fires ==>
            && LibraryScope(scope, isDockerHub).Some?
            && Split(LibraryScope(scope, isDockerHub).value, ':') == [parts[0], "library/" + parts[1], parts[2]])
      && (!fires ==> LibraryScope(scope, isDockerHub) == scope)
  {
    if Truthy(scope) && isDockerHub {
      var parts := Split(scope.value, ':');
      if |parts| == 3 && '/' !in parts[1] {
        var rewritten := parts[1 := "library/" + parts[1]];
        assert ':' !in "library/";
        assert ':' !in "library/" + parts[1];
        SplitJoin(rewritten, ':');
      }
    }
  }

  /** A rewritten middle part holds a `/`, so rewriting twice is rewriting once. */
  lemma LibraryScopeIdempotent(scope: Option<string>, isDockerHub: bool)
    ensures LibraryScope(LibraryScope(scope, isDockerHub), isDockerHub) == LibraryScope(scope, isDockerHub)
  {
    LibraryScopeParts(scope, isDockerHub);
    var once := LibraryScope(scope, isDockerHub);
    if once != scope {
      LibraryScopeParts(once, isDockerHub);
      var parts := Split(scope.value, ':');
      assert ("library/" + parts[1])[7] == '/';
    }
  }

  /** The three-part join, written out. */
  lemma JoinThree(a: string, b: string, c: string)
    ensures Join([a, b, c], ':') == a + ":" + b + ":" + c
  {
    assert [a, b, c][1..] == [b, c];
    assert [b, c][1..] == [c];
    assert Join([b, c], ':') == b + [':'] + c;
    assert ":" == [':'];
    assert a + [':'] + (b + [':'] + c) == a + [':'] + b + [':'] + c;
  }

  /**
   * For a Docker Hub scope `type:name:actions` with no `:` inside the parts,
   * `library/` is put in front of a name without `/`, and a name with `/`
   * is kept: `repository:nginx:pull` becomes `repository:library/nginx:pull`.
   */
  lemma ScopeOfImage(kind: string, name: string, actions: string)
    requires ':' !in kind && ':' !in name && ':' !in actions
    ensures '/' !in name ==>
      LibraryScope(Some(kind + ":" + name + ":" + actions), true) == Some(kind + ":" + ("library/" + name) + ":" + actions)
    ensures '/' in name ==>
      LibraryScope(Some(kind + ":" + name + ":" + actions), true) == Some(kind + ":" + name + ":" + actions)
  {
    var scope := kind + ":" + name + ":" + actions;
    JoinThree(kind, name, actions);
    SplitJoin([kind, name, actions], ':');
    assert scope[|kind|] == ':';
    LibraryScopeParts(Some(scope), true);
    if '/' !in name {
      var sent := LibraryScope(Some(scope), true).value;
      JoinSplit(sent, ':');
      JoinThree(kind, "library/" + name, actions);
    }
  }
}
