/** The client's entry point (`ConnectorDB`): a connection together with the device
    it is logged in as, and the lookup of any user, device or stream by its path. */
module Client {
  import opened Values
  import opened Text
  import opened Paths
  import opened Connection
  import opened Objects

  /** What a path names, judged by its number of slashes alone. */
  datatype Kind = UserKind | DeviceKind | StreamKind

  function Classify(path: string): (k: Kind)
    ensures k == UserKind <==> CountChar(path, '/') == 0
    ensures k == DeviceKind <==> CountChar(path, '/') == 1
    ensures k == StreamKind <==> CountChar(path, '/') >= 2
  {
    var n := CountChar(path, '/');
    if n == 0 then UserKind else if n == 1 then DeviceKind else StreamKind
  }

  /** The paths the object classes build are named by `Classify` as what they are:
      a user `u`, the device `u/d`, the stream `u/d/s` (for slash-free names). */
  lemma ClassifyChildren(u: string, d: string, s: string)
    requires '/' !in u && '/' !in d && '/' !in s
    ensures Classify(u) == UserKind
    ensures Classify(ChildPath(u, d)) == DeviceKind
    ensures Classify(ChildPath(ChildPath(u, d), s)) == StreamKind
  {
    CountCharZero(u, '/');
    OwnersOfChildren(u, d, s);
  }

  /** The object `cdb(path)` returns. */
  datatype Target = UserTarget(user: User) | DeviceTarget(device: Device) | StreamTarget(stream: Stream)

  function KindOf(t: Target): Kind
  {
    match t
    case UserTarget(_) => UserKind
    case DeviceTarget(_) => DeviceKind
    case StreamTarget(_) => StreamKind
  }

  /** The object inside a target. */
  function ObjectOf(t: Target): ConnectorObject
  {
    match t
    case UserTarget(u) => u.obj
    case DeviceTarget(d) => d.obj
    case StreamTarget(s) => s.obj
  }

  /** `ConnectorDB` is the device it is logged in as; that device is `device` here. */
  class ConnectorDB {
    const device: Device

    /** Connect with the given credentials and server address. `thisPath` is the path
        the server reports for the logged-in device when it is pinged. */
    constructor (userOrApikey: string, userPassword: Option<string>, url: string,
                 server: (seq<Request>, Request) -> Response, thisPath: string)
      ensures fresh(device) && fresh(device.obj) && fresh(device.obj.db)
      ensures device.obj.path == thisPath && device.obj.metadata == NO_METADATA
      ensures device.obj.db.url == NormalizeUrl(url)
      ensures (device.obj.db.authUser, device.obj.db.authPassword) == Credentials(userOrApikey, userPassword)
      ensures device.obj.db.server == server && device.obj.db.log == []
    {
      var db := new DatabaseConnection(userOrApikey, userPassword, url, server);
      device := new Device(db, thisPath);
    }

    /** `cdb(path)`: a user for a path without slashes, a device for one slash and a
        stream for more, on the same connection; nothing is sent. */
    method Call(path: string) returns (t: Target)
      ensures KindOf(t) == Classify(path)
      ensures fresh(ObjectOf(t)) && ObjectOf(t).db == device.obj.db
      ensures ObjectOf(t).path == path && ObjectOf(t).metadata == NO_METADATA
    {
      var n := CountChar(path, '/');
      if n == 0 {
        var u := new User(device.obj.db, path);
        t := UserTarget(u);
      } else if n == 1 {
        var d := new Device(device.obj.db, path);
        t := DeviceTarget(d);
      } else {
        var s := new Stream(device.obj.db, path);
        t := StreamTarget(s);
      }
    }

    /** `__repr__`: "ConnectorDB" and the logged-in device's path in brackets. */
    function Repr(): (r: string)
      ensures r == "[ConnectorDB:" + device.obj.path + "]"
    {
      Paths.Repr("ConnectorDB", device.obj.path)
    }
  }
}
