/**
 * The slash-separated path arithmetic the HTTP watcher uses to place the
 * entity-tag sidecar beside the local copy: `filepath.Dir`, `filepath.Base`
 * and `filepath.Join`. Unlike Go's, these do not clean their argument, so
 * they agree with Go's only on paths that `filepath.Clean` leaves unchanged.
 */
module Paths {
  import opened Common

  /** Index of the last '/' in `p`, or -1 when there is none. */
  function LastSlash(p: Path): (r: int)
    ensures -1 <= r < |p|
    ensures r >= 0 ==> p[r] == '/'
    ensures forall j :: r < j < |p| ==> p[j] != '/'
  {
    if p == [] then -1
    else if p[|p| - 1] == '/' then |p| - 1
    else LastSlash(p[..|p| - 1])
  }

  /** `filepath.Dir`: everything before the last element; "." when there is no separator. */
  function Dir(p: Path): Path {
    var i := LastSlash(p);
    if i < 0 then "." else if i == 0 then "/" else p[..i]
  }

  /** `filepath.Base`: the last element. */
  function Base(p: Path): Path {
    p[LastSlash(p) + 1..]
  }

  /** `filepath.Join` of a directory and a single element, cleaned of a leading "./". */
  function Join(dir: Path, name: Path): Path {
    if dir == "." then name else if dir == "/" then "/" + name else dir + "/" + name
  }

  /** The sidecar holding the entity tag: `Join(Dir(local), "." + Base(local) + ".etag")`. */
  function SidecarPath(local: Path): Path {
    Join(Dir(local), "." + Base(local) + ".etag")
  }

  /**
   * A path whose directory part, when it has one, is neither "." nor a bare
   * "/", so `Dir` keeps it as written. This is weaker than being unchanged by
   * `filepath.Clean`: doubled, trailing, "." and ".." elements are allowed.
   */
  predicate PlainDir(p: Path) {
    var i := LastSlash(p);
    i > 0 ==> p[..i] != "." && p[..i] != "/"
  }

  /** The sidecar is never the file it describes: its name is always longer or shorter. */
  lemma SidecarIsNotLocal(local: Path)
    ensures SidecarPath(local) != local
  {
    assert |SidecarPath(local)| != |local|;
  }

  /** Joining a name to the directory of a path with a plain directory part puts it right after the path's last separator. */
  lemma JoinDir(local: Path, name: Path)
    requires PlainDir(local)
    ensures Join(Dir(local), name) == local[..LastSlash(local) + 1] + name
  {
    var i := LastSlash(local);
    if i > 0 {
      assert local[..i + 1] == local[..i] + "/";
    } else if i == 0 {
      assert local[..1] == "/";
    }
  }

  /**
   * For a path with a plain directory part the sidecar sits in the directory of the local file, and
   * its name is the local file's base name with a leading "." and a trailing ".etag".
   */
  lemma SidecarShape(local: Path)
    requires PlainDir(local)
    ensures var k := LastSlash(local) + 1;
            SidecarPath(local) == local[..k] + "." + local[k..] + ".etag"
  {
    var k := LastSlash(local) + 1;
    JoinDir(local, "." + Base(local) + ".etag");
    Regroup(local[..k], Base(local));
  }

  /** Concatenation regrouped around the sidecar's name. */
  lemma Regroup(dir: Path, base: Path)
    ensures dir + ("." + base + ".etag") == dir + "." + base + ".etag"
  {
  }

  /** A path element: no separator anywhere in it. */
  predicate NoSlash(name: Path) {
    forall j :: 0 <= j < |name| ==> name[j] != '/'
  }

  /** Appending a separator-free element does not move the last separator. */
  lemma {:induction false} LastSlashAppend(dir: Path, name: Path)
    requires NoSlash(name)
    ensures LastSlash(dir + name) == LastSlash(dir)
    decreases |name|
  {
    if name != [] {
      var shorter := name[..|name| - 1];
      assert (dir + name)[..|dir + name| - 1] == dir + shorter;
      assert (dir + name)[|dir + name| - 1] == name[|name| - 1];
      LastSlashAppend(dir, shorter);
    } else {
      assert dir + name == dir;
    }
  }

  /** The sidecar's own name, `.<base>.etag`, is a single path element. */
  lemma SidecarNameHasNoSlash(local: Path)
    ensures NoSlash("." + Base(local) + ".etag")
  {
    var b := Base(local);
    var name := "." + b + ".etag";
    forall j | 0 <= j < |name|
      ensures name[j] != '/'
    {
      if 0 < j <= |b| {
        assert name[j] == b[j - 1];
      }
    }
  }

  /** Cutting a path just after its last separator keeps that separator last. */
  lemma DirPrefixLastSlash(local: Path)
    ensures LastSlash(local[..LastSlash(local) + 1]) == LastSlash(local)
  {
    var k := LastSlash(local) + 1;
    if k == 0 {
      assert local[..k] == [];
    }
  }

  /** For a path with a plain directory part the sidecar shares the local file's directory. */
  lemma SidecarIsNeighbour(local: Path)
    requires PlainDir(local)
    ensures Dir(SidecarPath(local)) == Dir(local)
    ensures Base(SidecarPath(local)) == "." + Base(local) + ".etag"
  {
    var k := LastSlash(local) + 1;
    var name := "." + Base(local) + ".etag";
    JoinDir(local, name);
    var s := SidecarPath(local);
    assert s == local[..k] + name;
    SidecarNameHasNoSlash(local);
    LastSlashAppend(local[..k], name);
    DirPrefixLastSlash(local);
    assert LastSlash(s) == k - 1;
    if k > 1 {
      assert s[..k - 1] == local[..k - 1];
    }
    assert s[k..] == name;
  }

  /** The sidecar of the file the package's own tests use. */
  lemma SidecarOfExample()
    ensures SidecarPath("example.txt") == ".example.txt.etag"
  {
    assert NoSlash("example.txt");
    LastSlashAppend("", "example.txt");
    assert "" + "example.txt" == "example.txt";
  }
}
