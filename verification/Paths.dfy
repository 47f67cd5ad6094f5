/** posixpath.normpath and pathlib's "/", with a normal path kept as its components. */
module Paths {
  import opened Text

  /** Two leading slashes are kept apart from one, as POSIX allows; three or more are one. */
  datatype Path = Path(slashes: nat, parts: seq<string>)

  predicate StartsWith(s: string, prefix: string) {
    |prefix| <= |s| && s[..|prefix|] == prefix
  }

  predicate Absolute(path: string) {
    path != "" && path[0] == '/'
  }

  function LeadingSlashes(path: string): nat {
    if !Absolute(path) then 0
    else if StartsWith(path, "//") && !StartsWith(path, "///") then 2
    else 1
  }

  /** Drop "" and ".", and let ".." take back the component before it. */
  function Resolve(components: seq<string>, rooted: bool): seq<string> {
    if components == [] then []
    else
      var before := Resolve(components[..|components| - 1], rooted);
      var last := components[|components| - 1];
      if last == "" || last == "." then before
      else if last != ".." || (!rooted && before == []) || (before != [] && before[|before| - 1] == "..") then before + [last]
      else if before != [] then before[..|before| - 1]
      else before
  }

  function Normalize(path: string): Path {
    Path(LeadingSlashes(path), Resolve(Split(path, '/'), Absolute(path)))
  }

  /** str(Path(dir) / name), up to what Normalize removes. */
  function JoinPath(dir: string, name: string): string {
    if dir == "" || dir[|dir| - 1] == '/' then dir + name else dir + "/" + name
  }

  lemma JoinIsRelative(dir: string, name: string)
    requires PlainName(name) && !Absolute(dir)
    ensures !Absolute(JoinPath(dir, name))
  {
    assert name[0] in name;
  }

  predicate PlainName(name: string) {
    name != "" && name != "." && name != ".." && '/' !in name
  }

  function Below(dir: string, name: string): Path {
    Path(LeadingSlashes(dir), Normalize(dir).parts + [name])
  }

  lemma ResolveSnoc(components: seq<string>, last: string, rooted: bool)
    ensures last == "" ==> Resolve(components + [last], rooted) == Resolve(components, rooted)
    ensures PlainName(last) ==> Resolve(components + [last], rooted) == Resolve(components, rooted) + [last]
  {
    assert (components + [last])[..|components|] == components;
  }

  /** A file directly in an absolute directory normalises to the directory's components and its name. */
  lemma NormalizeJoin(dir: string, name: string)
    requires Absolute(dir) && PlainName(name)
    ensures Normalize(JoinPath(dir, name)) == Below(dir, name)
    ensures Absolute(JoinPath(dir, name))
  {
    var path := JoinPath(dir, name);
    SplitWithout(name, '/');
    if dir[|dir| - 1] == '/' {
      var front := dir[..|dir| - 1];
      assert dir == front + ['/'] + "";
      assert path == front + ['/'] + name;
      SplitAt(front, '/', "");
      SplitAt(front, '/', name);
      ResolveSnoc(Split(front, '/'), "", true);
      ResolveSnoc(Split(front, '/'), name, true);
    } else {
      SplitAt(dir, '/', name);
      ResolveSnoc(Split(dir, '/'), name, true);
    }
    SlashesOfJoin(dir, name);
  }

  lemma SlashesOfJoin(dir: string, name: string)
    requires Absolute(dir) && PlainName(name)
    ensures LeadingSlashes(JoinPath(dir, name)) == LeadingSlashes(dir)
  {
    var path := JoinPath(dir, name);
    assert path[..|dir|] == dir;
    assert name[0] in name && name[0] != '/';
    assert forall i :: 0 <= i < |dir| ==> path[i] == dir[i];
    forall p | p in {"//", "///"}
      ensures StartsWith(path, p) <==> StartsWith(dir, p)
    {
      if |p| <= |dir| {
        assert path[..|p|] == dir[..|p|];
      } else {
        var k := |dir|;
        if dir[k - 1] == '/' {
          assert path[k] == name[0];
        } else {
          assert path[k - 1] != '/';
        }
      }
    }
  }
}
