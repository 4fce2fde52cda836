/** The `user/device/stream` namespace: how a child's path is built from its
    parent's, how an owner's path is cut out of a child's, and how objects print. */
module Paths {
  import opened Values
  import opened Text

  /** `parent + "/" + name`: the path of a device under a user, or of a stream under a device. */
  function ChildPath(parent: string, name: string): (p: string)
    ensures |p| == |parent| + 1 + |name|
    ensures p[..|parent|] == parent && p[|parent|] == '/' && p[|parent| + 1..] == name
  {
    parent + "/" + name
  }

  /** `path.split("/")[0]`: the path of the user owning a device or a stream. It is
      the part before the first slash: it has no slash, and the path is either that
      part alone or continues with a slash. */
  function UserPathOf(path: string): (u: string)
    ensures '/' !in u
    ensures |u| <= |path| && path[..|u|] == u
    ensures |u| < |path| ==> path[|u|] == '/'
  {
    SplitPiecesFree(path, '/');
    SplitPrefix(path, '/');
    Split(path, '/')[0]
  }

  /** `s = path.split("/")` followed by `s[0] + "/" + s[1]`: the path of the device
      owning a stream. It is the beginning of the path; the index `s[1]` fails with
      IndexError exactly on a path without any slash. */
  function DevicePathOf(path: string): (r: Result<string>)
    ensures r.Failure? <==> '/' !in path
    ensures r.Failure? ==> r.error == IndexError
    ensures r.Success? ==> |r.value| <= |path| && path[..|r.value|] == r.value
  {
    SplitLength(path, '/');
    CountCharZero(path, '/');
    SplitPrefix(path, '/');
    var parts := Split(path, '/');
    if |parts| < 2 then Failure(IndexError) else Success(parts[0] + "/" + parts[1])
  }

  /** A device found under user `u` by name `d` (both without slashes) has exactly one
      slash, and its owner path is `u` again; under it, a stream named `s` has
      exactly two slashes and its device path is the device's path. */
  lemma OwnersOfChildren(u: string, d: string, s: string)
    requires '/' !in u && '/' !in d && '/' !in s
    ensures CountChar(ChildPath(u, d), '/') == 1
    ensures UserPathOf(ChildPath(u, d)) == u
    ensures CountChar(ChildPath(ChildPath(u, d), s), '/') == 2
    ensures UserPathOf(ChildPath(ChildPath(u, d), s)) == u
    ensures DevicePathOf(ChildPath(ChildPath(u, d), s)) == Success(ChildPath(u, d))
  {
    var dp := ChildPath(u, d);
    CountCharZero(u, '/');
    ChildCount(u, d);
    ChildCount(dp, s);
    SplitFree(u, '/');
    UserPathOfChild(u, d);
    UserPathOfChild(dp, s);
    DevicePathOfChild(dp, s);
  }


  /** A slash-free name adds one slash to its parent's count. */
  lemma ChildCount(parent: string, name: string)
    requires '/' !in name
    ensures CountChar(ChildPath(parent, name), '/') == CountChar(parent, '/') + 1
  {
    CountCharZero(name, '/');
    CountCharAppend(parent + "/", name, '/');
    CountCharAppend(parent, "/", '/');
  }

  /** Every pair of a slash-separated path's first two pieces is its device path: the
      device path keeps the stream's user and has exactly one slash. */
  lemma {:induction false} DevicePathOfKeepsUser(path: string)
    requires CountChar(path, '/') >= 1
    ensures DevicePathOf(path).Success?
    ensures UserPathOf(DevicePathOf(path).value) == UserPathOf(path)
    ensures CountChar(DevicePathOf(path).value, '/') == 1
  {
    SplitLength(path, '/');
    SplitPiecesFree(path, '/');
    var parts := Split(path, '/');
    assert '/' !in parts[0] && '/' !in parts[1];
    SplitWithSeparator(parts[0], parts[1], '/');
    SplitFree(parts[1], '/');
    CountCharZero(parts[0], '/');
    CountCharZero(parts[1], '/');
    CountCharAppend(parts[0] + "/", parts[1], '/');
    CountCharAppend(parts[0], "/", '/');
  }

  /** A path with exactly one slash is its own device path. */
  lemma DevicePathOfDevice(path: string)
    requires CountChar(path, '/') == 1
    ensures DevicePathOf(path) == Success(path)
  {
    SplitLength(path, '/');
    JoinSplit(path, '/');
    var parts := Split(path, '/');
    assert Join(parts, '/') == parts[0] + ['/'] + Join(parts[1..], '/');
  }

  /** The owner of a child is the owner of its parent: `user[d]` and `device[s]`
      keep the user path, whatever the names are. */
  lemma UserPathOfChild(parent: string, name: string)
    ensures UserPathOf(ChildPath(parent, name)) == UserPathOf(parent)
  {
    SplitAround(parent, name, '/');
  }

  /** The device of a stream `device[s]` is that device again, for a device path with
      exactly one slash and any stream name. */
  lemma DevicePathOfChild(devicePath: string, name: string)
    requires CountChar(devicePath, '/') == 1
    ensures DevicePathOf(ChildPath(devicePath, name)) == Success(devicePath)
  {
    SplitAround(devicePath, name, '/');
    SplitLength(devicePath, '/');
    JoinSplit(devicePath, '/');
    var parts := Split(devicePath, '/');
    assert Join(parts, '/') == parts[0] + ['/'] + Join(parts[1..], '/');
    assert (parts + Split(name, '/'))[..2] == parts;
  }

  /** `"[" + kind + ":" + path + "]"`, the form every object's `__repr__` takes. */
  function Repr(kind: string, path: string): (r: string)
    ensures |r| == |kind| + |path| + 3
    ensures r[0] == '[' && r[1..|kind| + 1] == kind && r[|kind| + 1] == ':'
    ensures r[|kind| + 2..|r| - 1] == path && r[|r| - 1] == ']'
  {
    "[" + kind + ":" + path + "]"
  }

  /** In a representation with a colon-free kind name the first colon follows the kind. */
  lemma FirstColon(kind: string, path: string)
    requires ':' !in kind
    ensures Repr(kind, path)[|kind| + 1] == ':'
    ensures forall i :: 0 <= i <= |kind| ==> Repr(kind, path)[i] != ':'
  {
    var r := Repr(kind, path);
    forall i | 0 <= i <= |kind| ensures r[i] != ':' {
      if i > 0 {
        assert r[i] == kind[i - 1];
      }
    }
  }

  /** Two representations with colon-free kind names are equal only for the same kind
      and the same path, so a printed object tells its class and its path. */
  lemma ReprInjective(k1: string, p1: string, k2: string, p2: string)
    requires ':' !in k1 && ':' !in k2
    requires Repr(k1, p1) == Repr(k2, p2)
    ensures k1 == k2 && p1 == p2
  {
    var r1, r2 := Repr(k1, p1), Repr(k2, p2);
    FirstColon(k1, p1);
    FirstColon(k2, p2);
    if |k1| != |k2| {
      assert false;
    }
    assert k1 == r1[1..|k1| + 1] == r2[1..|k2| + 1] == k2;
    assert p1 == r1[|k1| + 2..|r1| - 1] == r2[|k2| + 2..|r2| - 1] == p2;
  }
}
