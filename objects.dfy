/** Users, devices and streams, and the object they share (`ConnectorObject`): a path,
    the connection, and a cache of the object's JSON representation (`metadata`).

    The Python classes import each other (a user lists its devices, a device names
    its user and lists its streams, a stream names its user and device), so they
    live in one module here. Python's inheritance from ConnectorObject becomes a
    `ConnectorObject` held by each of them. */
module Objects {
  import opened Values
  import opened Text
  import opened Params
  import opened Paths
  import opened Connection
  import opened StreamQuery

  /** The URL parameters of a listing read. */
  const LIST_PARAMS: Params := [("q", "ls")]

  /** What an object's `metadata` holds: a decoded JSON answer, or, after a stream's
      `create`, the undecoded answer itself. Python's None is `Value(JNull)`, the
      same value a JSON `null` answer decodes to. */
  datatype Metadata = Value(json: Json) | RawAnswer(answer: Response)

  const NO_METADATA: Metadata := Value(JNull)

  /** `metadata[key]`: only a decoded object holding the key gives a value; a missing
      key raises KeyError, and a raw answer, like any value that is not an object,
      cannot be indexed. */
  function MetaIndex(m: Metadata, key: string): (r: Result<Json>)
    ensures r.Success? <==> m.Value? && m.json.JObj? && key in m.json.fields
    ensures r.Success? ==> r.value == m.json.fields[key]
    ensures m.Value? && m.json.JObj? && key !in m.json.fields ==> r == Failure(KeyError(key))
    ensures !(m.Value? && m.json.JObj?) ==> r == Failure(TypeError)
  {
    match m
    case Value(j) => Index(j, key)
    case RawAnswer(_) => Failure(TypeError)
  }

  /** `metadata[key] if key in metadata else default`; a raw answer is taken to hold
      no key. */
  function MetaGetOr(m: Metadata, key: string, default: Json): (r: Result<Json>)
    ensures m.Value? && m.json.JObj? ==>
      r == Success(if key in m.json.fields then m.json.fields[key] else default)
    ensures m.Value? ==> r == GetOr(m.json, key, default)
    ensures m.RawAnswer? ==> r == Success(default)
    ensures m.Value? && !(m.json.JObj? || m.json.JArr? || m.json.JStr?) ==> r == Failure(TypeError)
  {
    match m
    case Value(j) => GetOr(j, key, default)
    case RawAnswer(_) => Success(default)
  }

  class ConnectorObject {
    const db: DatabaseConnection
    const path: string
    /** The object's representation as last received. */
    var metadata: Metadata

    constructor (db: DatabaseConnection, path: string)
      ensures this.db == db && this.path == path && metadata == NO_METADATA
    {
      this.db := db;
      this.path := path;
      metadata := NO_METADATA;
    }

    /** What `data` yields in the current state: the cached metadata, or else the
        decoded answer to reading the object. */
    function DataNow(): Result<Metadata>
      reads this, db
    {
      if metadata != NO_METADATA then Success(metadata)
      else
        match Decoded(db.Answer(ReadRequest(path, None)))
        case Success(j) => Success(Value(j))
        case Failure(e) => Failure(e)
    }

    /** The requests `data` sends in the current state: none once metadata is cached. */
    function DataRequests(): seq<Request>
      reads this
    {
      if metadata != NO_METADATA then [] else [ReadRequest(path, None)]
    }

    /** `data` ran between the two states and nothing else happened here. */
    twostate predicate DataFetched()
      reads this, db
    {
      && db.log == old(db.log) + old(DataRequests())
      && metadata == (if old(DataNow()).Success? then old(DataNow()).value else old(metadata))
    }

    /** `refresh`: read the object and keep the answer as its metadata. */
    method Refresh() returns (r: Result<()>)
      modifies this, db
      ensures db.log == old(db.log) + [ReadRequest(path, None)]
      ensures var d := Decoded(old(db.Answer(ReadRequest(path, None))));
        r == Status(d) && metadata == (if d.Success? then Value(d.value) else old(metadata))
    {
      var res := db.Read(path, None);
      var d := Decoded(res);
      if d.Success? {
        metadata := Value(d.value);
      }
      r := Status(d);
    }

    /** `data`: the cached metadata; only when there is none is the object read. */
    method Data() returns (r: Result<Metadata>)
      modifies this, db
      ensures r == old(DataNow()) && DataFetched()
      ensures old(metadata) != NO_METADATA ==> db.log == old(db.log) && metadata == old(metadata)
      ensures old(metadata) == NO_METADATA ==> db.log == old(db.log) + [ReadRequest(path, None)]
    {
      if metadata == NO_METADATA {
        var s := Refresh();
        if s.Failure? {
          return Failure(s.error);
        }
      }
      r := Success(metadata);
    }

    /** `exists`: whether reading the object succeeds; a successful read refreshes
        the metadata. */
    method Exists() returns (b: bool)
      modifies this, db
      ensures db.log == old(db.log) + [ReadRequest(path, None)]
      ensures var d := Decoded(old(db.Answer(ReadRequest(path, None))));
        b == d.Success? && metadata == (if b then Value(d.value) else old(metadata))
    {
      var s := Refresh();
      b := s.Success?;
    }

    /** `set`: send the properties as an update; the answer becomes the metadata. */
    method Set(properties: map<string, Json>) returns (r: Result<()>)
      modifies this, db
      ensures db.log == old(db.log) + [UpdateRequest(path, JObj(properties))]
      ensures var d := Decoded(old(db.Answer(UpdateRequest(path, JObj(properties)))));
        r == Status(d) && metadata == (if d.Success? then Value(d.value) else old(metadata))
    {
      var res := db.Update(path, JObj(properties));
      var d := Decoded(res);
      if d.Success? {
        metadata := Value(d.value);
      }
      r := Status(d);
    }

    /** `delete`: a delete request for the object's path. */
    method Delete() returns (r: Result<()>)
      modifies db
      ensures db.log == old(db.log) + [DeleteRequest(path)]
      ensures r == Status(old(db.Answer(DeleteRequest(path))))
    {
      var res := db.Delete(path);
      r := Status(res);
    }

    /** A property read with the getter idiom: its value in `data`, or `default`. */
    method PropertyOr(key: string, default: Json) returns (r: Result<Json>)
      modifies this, db
      ensures DataFetched()
      ensures r == (var d := old(DataNow()); if d.Success? then MetaGetOr(d.value, key, default) else Failure(d.error))
    {
      var d := Data();
      if d.Failure? {
        return Failure(d.error);
      }
      r := MetaGetOr(d.value, key, default);
    }

    /** `name`: `data["name"]`, which fails when there is no name. */
    method Name() returns (r: Result<Json>)
      modifies this, db
      ensures DataFetched()
      ensures r == (var d := old(DataNow()); if d.Success? then MetaIndex(d.value, "name") else Failure(d.error))
    {
      var d := Data();
      if d.Failure? {
        return Failure(d.error);
      }
      r := MetaIndex(d.value, "name");
    }

    /** `name = n`: a `set` of the name and nothing else. */
    method SetName(newName: string) returns (r: Result<()>)
      modifies this, db
      ensures db.log == old(db.log) + [UpdateRequest(path, JObj(map["name" := JStr(newName)]))]
      ensures var d := Decoded(old(db.Answer(UpdateRequest(path, JObj(map["name" := JStr(newName)])))));
        r == Status(d) && metadata == (if d.Success? then Value(d.value) else old(metadata))
    {
      r := Set(map["name" := JStr(newName)]);
    }

    /** `nickname`: the nickname, or None when the metadata has none. */
    method Nickname() returns (r: Result<Json>)
      modifies this, db
      ensures DataFetched()
      ensures r == (var d := old(DataNow()); if d.Success? then MetaGetOr(d.value, "nickname", JNull) else Failure(d.error))
    {
      r := PropertyOr("nickname", JNull);
    }

    /** `nickname = n`: a `set` of the nickname and nothing else. */
    method SetNickname(newNickname: string) returns (r: Result<()>)
      modifies this, db
      ensures db.log == old(db.log) + [UpdateRequest(path, JObj(map["nickname" := JStr(newNickname)]))]
      ensures var d := Decoded(old(db.Answer(UpdateRequest(path, JObj(map["nickname" := JStr(newNickname)])))));
        r == Status(d) && metadata == (if d.Success? then Value(d.value) else old(metadata))
    {
      r := Set(map["nickname" := JStr(newNickname)]);
    }
  }

  /** The entries of a listing answer (`for d in result.json()`): none for a JSON
      `null`; a list gives its elements; an empty object or string gives nothing to
      iterate; any other value fails, when iterated or at the first `d["name"]`. */
  function Listing(res: Result<Response>): (es: Result<seq<Json>>)
    ensures res.Failure? ==> es == Failure(res.error)
    ensures res.Success? && res.value.body == Parsed(JNull) ==> es == Success([])
    ensures res.Success? && res.value.body.Parsed? && res.value.body.json.JArr? ==>
      es == Success(res.value.body.json.items)
    ensures res.Success? && res.value.body.Unparsable? ==> es == Failure(InvalidJson)
  {
    match Decoded(res)
    case Failure(e) => Failure(e)
    case Success(j) =>
      match j
      case JNull => Success([])
      case JArr(xs) => Success(xs)
      case JObj(m) => if |m| == 0 then Success([]) else Failure(TypeError)
      case JStr(s) => if s == "" then Success([]) else Failure(TypeError)
      case _ => Failure(TypeError)
  }

  /** `entry["name"]` used as a path piece: it must be a string. */
  function ChildName(entry: Json): (r: Result<string>)
    ensures r.Success? <==> entry.JObj? && "name" in entry.fields && entry.fields["name"].JStr?
    ensures r.Success? ==> r.value == entry.fields["name"].s
    ensures entry.JObj? && "name" !in entry.fields ==> r == Failure(KeyError("name"))
  {
    match Index(entry, "name")
    case Failure(e) => Failure(e)
    case Success(n) => if n.JStr? then Success(n.s) else Failure(TypeError)
  }

  /** The names of the listed children, taken in order; the first entry without a
      usable name stops the listing with its error. */
  function ChildNames(es: seq<Json>): (r: Result<seq<string>>)
    ensures r.Success? ==> |r.value| == |es|
    ensures r.Success? ==> forall k :: 0 <= k < |es| ==> ChildName(es[k]) == Success(r.value[k])
    ensures r.Failure? ==>
      exists k :: 0 <= k < |es| && ChildName(es[k]) == Failure(r.error) && forall j :: 0 <= j < k ==> ChildName(es[j]).Success?
  {
    if es == [] then Success([])
    else
      match ChildNames(es[..|es| - 1])
      case Failure(e) => Failure(e)
      case Success(ns) =>
        match ChildName(es[|es| - 1])
        case Failure(e) => Failure(e)
        case Success(n) => Success(ns + [n])
  }

  /** One more entry of a listing: its name is added, or its error ends the listing. */
  lemma ChildNamesStep(es: seq<Json>, i: nat)
    requires i < |es| && ChildNames(es[..i]).Success?
    ensures ChildName(es[i]).Failure? ==> ChildNames(es[..i + 1]) == Failure(ChildName(es[i]).error)
    ensures ChildName(es[i]).Success? ==>
      ChildNames(es[..i + 1]) == Success(ChildNames(es[..i]).value + [ChildName(es[i]).value])
  {
    assert es[..i + 1][..i] == es[..i];
  }

  /** Once a prefix of the entries fails, the whole listing fails with the same error. */
  lemma {:induction false} ChildNamesPrefixFailure(es: seq<Json>, j: nat)
    requires j <= |es| && ChildNames(es[..j]).Failure?
    ensures ChildNames(es) == ChildNames(es[..j])
    decreases |es| - j
  {
    if j < |es| {
      assert es[..j + 1][..j] == es[..j];
      ChildNamesPrefixFailure(es, j + 1);
    } else {
      assert es[..j] == es;
    }
  }

  class User {
    const obj: ConnectorObject

    constructor (db: DatabaseConnection, path: string)
      ensures fresh(obj) && obj.db == db && obj.path == path && obj.metadata == NO_METADATA
    {
      obj := new ConnectorObject(db, path);
    }

    /** `create(email, password)`: create the user; the answer becomes its metadata. */
    method Create(email: string, password: string) returns (r: Result<()>)
      modifies obj, obj.db
      ensures var req := CreateRequest(obj.path, JObj(map["email" := JStr(email), "password" := JStr(password)]));
        var d := Decoded(old(obj.db.Answer(req)));
        && obj.db.log == old(obj.db.log) + [req]
        && r == Status(d) && obj.metadata == (if d.Success? then Value(d.value) else old(obj.metadata))
    {
      var res := obj.db.Create(obj.path, JObj(map["email" := JStr(email), "password" := JStr(password)]));
      var d := Decoded(res);
      if d.Success? {
        obj.metadata := Value(d.value);
      }
      r := Status(d);
    }

    /** `set_password(p)`: a `set` of the password and nothing else. */
    method SetPassword(newPassword: string) returns (r: Result<()>)
      modifies obj, obj.db
      ensures obj.db.log == old(obj.db.log) + [UpdateRequest(obj.path, JObj(map["password" := JStr(newPassword)]))]
      ensures var d := Decoded(old(obj.db.Answer(UpdateRequest(obj.path, JObj(map["password" := JStr(newPassword)])))));
        r == Status(d) && obj.metadata == (if d.Success? then Value(d.value) else old(obj.metadata))
    {
      r := obj.Set(map["password" := JStr(newPassword)]);
    }

    /** `user[name]`: the device of that name under this user. */
    method Child(deviceName: string) returns (d: Device)
      ensures fresh(d) && fresh(d.obj)
      ensures d.obj.db == obj.db && d.obj.path == ChildPath(obj.path, deviceName) && d.obj.metadata == NO_METADATA
    {
      d := new Device(obj.db, obj.path + "/" + deviceName);
    }

    /** `self[entry["name"]]` with its metadata set to the listed entry. */
    method ListedDevice(deviceName: string, entry: Json) returns (d: Device)
      ensures fresh(d) && fresh(d.obj)
      ensures d.obj.db == obj.db && d.obj.path == ChildPath(obj.path, deviceName) && d.obj.metadata == Value(entry)
    {
      d := Child(deviceName);
      d.obj.metadata := Value(entry);
    }

    /** `devices()`: one device per listed entry, in order, named by the entry and
        holding the entry as its metadata. */
    method Devices() returns (r: Result<seq<Device>>)
      modifies obj.db
      ensures obj.db.log == old(obj.db.log) + [ReadRequest(obj.path, Some(LIST_PARAMS))]
      ensures var es := Listing(old(obj.db.Answer(ReadRequest(obj.path, Some(LIST_PARAMS)))));
        && (r.Success? <==> es.Success? && ChildNames(es.value).Success?)
        && (r.Failure? ==> r.error == (if es.Failure? then es.error else ChildNames(es.value).error))
        && (r.Success? ==> |r.value| == |es.value|)
        && (r.Success? ==> forall k :: 0 <= k < |r.value| ==>
              && fresh(r.value[k]) && fresh(r.value[k].obj) && r.value[k].obj.db == obj.db
              && r.value[k].obj.path == ChildPath(obj.path, ChildNames(es.value).value[k])
              && r.value[k].obj.metadata == Value(es.value[k]))
    {
      var res := obj.db.Read(obj.path, Some(LIST_PARAMS));
      var listing := Listing(res);
      if listing.Failure? {
        return Failure(listing.error);
      }
      r := DevicesOf(listing.value);
    }

    /** The loop of `devices()` over the listed entries: one child per entry, in order. */
    method DevicesOf(es: seq<Json>) returns (r: Result<seq<Device>>)
      ensures r.Success? <==> ChildNames(es).Success?
      ensures r.Failure? ==> r.error == ChildNames(es).error
      ensures r.Success? ==> |r.value| == |es|
      ensures r.Success? ==> forall k :: 0 <= k < |r.value| ==>
        && fresh(r.value[k]) && fresh(r.value[k].obj) && r.value[k].obj.db == obj.db
        && r.value[k].obj.path == ChildPath(obj.path, ChildNames(es).value[k])
        && r.value[k].obj.metadata == Value(es[k])
    {
      var devices: seq<Device> := [];
      ghost var names: seq<string> := [];
      var i := 0;
      while i < |es|
        invariant 0 <= i <= |es| && |devices| == i && |names| == i
        invariant ChildNames(es[..i]) == Success(names)
        invariant forall k :: 0 <= k < i ==> fresh(devices[k]) && fresh(devices[k].obj)
        invariant forall k :: 0 <= k < i ==> devices[k].obj.db == obj.db && devices[k].obj.path == ChildPath(obj.path, names[k])
        invariant forall k :: 0 <= k < i ==> devices[k].obj.metadata == Value(es[k])
      {
        var name := ChildName(es[i]);
        ChildNamesStep(es, i);
        if name.Failure? {
          ChildNamesPrefixFailure(es, i + 1);
          return Failure(name.error);
        }
        var dev := ListedDevice(name.value, es[i]);
        devices := devices + [dev];
        names := names + [name.value];
        i := i + 1;
      }
      assert es[..i] == es;
      r := Success(devices);
    }

    /** `email`: the e-mail address, or None when the metadata has none. */
    method Email() returns (r: Result<Json>)
      modifies obj, obj.db
      ensures obj.DataFetched()
      ensures r == (var d := old(obj.DataNow()); if d.Success? then MetaGetOr(d.value, "email", JNull) else Failure(d.error))
    {
      r := obj.PropertyOr("email", JNull);
    }

    /** `email = e`: a `set` of the e-mail address and nothing else. */
    method SetEmail(newEmail: string) returns (r: Result<()>)
      modifies obj, obj.db
      ensures obj.db.log == old(obj.db.log) + [UpdateRequest(obj.path, JObj(map["email" := JStr(newEmail)]))]
      ensures var d := Decoded(old(obj.db.Answer(UpdateRequest(obj.path, JObj(map["email" := JStr(newEmail)])))));
        r == Status(d) && obj.metadata == (if d.Success? then Value(d.value) else old(obj.metadata))
    {
      r := obj.Set(map["email" := JStr(newEmail)]);
    }

    /** `__repr__`: the class name and the path in brackets. */
    function Repr(): (r: string)
      ensures r == "[User:" + obj.path + "]"
    {
      Paths.Repr("User", obj.path)
    }
  }

  class Device {
    const obj: ConnectorObject

    constructor (db: DatabaseConnection, path: string)
      ensures fresh(obj) && obj.db == db && obj.path == path && obj.metadata == NO_METADATA
    {
      obj := new ConnectorObject(db, path);
    }

    /** `create()`: create the device (the body sent is JSON `null`); the answer
        becomes its metadata. */
    method Create() returns (r: Result<()>)
      modifies obj, obj.db
      ensures obj.db.log == old(obj.db.log) + [CreateRequest(obj.path, JNull)]
      ensures var d := Decoded(old(obj.db.Answer(CreateRequest(obj.path, JNull))));
        r == Status(d) && obj.metadata == (if d.Success? then Value(d.value) else old(obj.metadata))
    {
      var res := obj.db.Create(obj.path, JNull);
      var d := Decoded(res);
      if d.Success? {
        obj.metadata := Value(d.value);
      }
      r := Status(d);
    }

    /** `device[name]`: the stream of that name under this device. */
    method Child(streamName: string) returns (s: Stream)
      ensures fresh(s) && fresh(s.obj)
      ensures s.obj.db == obj.db && s.obj.path == ChildPath(obj.path, streamName) && s.obj.metadata == NO_METADATA
    {
      s := new Stream(obj.db, obj.path + "/" + streamName);
    }

    /** `self[entry["name"]]` with its metadata set to the listed entry. */
    method ListedStream(streamName: string, entry: Json) returns (s: Stream)
      ensures fresh(s) && fresh(s.obj)
      ensures s.obj.db == obj.db && s.obj.path == ChildPath(obj.path, streamName) && s.obj.metadata == Value(entry)
    {
      s := Child(streamName);
      s.obj.metadata := Value(entry);
    }

    /** `streams()`: one stream per listed entry, in order, named by the entry and
        holding the entry as its metadata. */
    method Streams() returns (r: Result<seq<Stream>>)
      modifies obj.db
      ensures obj.db.log == old(obj.db.log) + [ReadRequest(obj.path, Some(LIST_PARAMS))]
      ensures var es := Listing(old(obj.db.Answer(ReadRequest(obj.path, Some(LIST_PARAMS)))));
        && (r.Success? <==> es.Success? && ChildNames(es.value).Success?)
        && (r.Failure? ==> r.error == (if es.Failure? then es.error else ChildNames(es.value).error))
        && (r.Success? ==> |r.value| == |es.value|)
        && (r.Success? ==> forall k :: 0 <= k < |r.value| ==>
              && fresh(r.value[k]) && fresh(r.value[k].obj) && r.value[k].obj.db == obj.db
              && r.value[k].obj.path == ChildPath(obj.path, ChildNames(es.value).value[k])
              && r.value[k].obj.metadata == Value(es.value[k]))
    {
      var res := obj.db.Read(obj.path, Some(LIST_PARAMS));
      var listing := Listing(res);
      if listing.Failure? {
        return Failure(listing.error);
      }
      r := StreamsOf(listing.value);
    }

    /** The loop of `streams()` over the listed entries: one child per entry, in order. */
    method StreamsOf(es: seq<Json>) returns (r: Result<seq<Stream>>)
      ensures r.Success? <==> ChildNames(es).Success?
      ensures r.Failure? ==> r.error == ChildNames(es).error
      ensures r.Success? ==> |r.value| == |es|
      ensures r.Success? ==> forall k :: 0 <= k < |r.value| ==>
        && fresh(r.value[k]) && fresh(r.value[k].obj) && r.value[k].obj.db == obj.db
        && r.value[k].obj.path == ChildPath(obj.path, ChildNames(es).value[k])
        && r.value[k].obj.metadata == Value(es[k])
    {
      var streams: seq<Stream> := [];
      ghost var names: seq<string> := [];
      var i := 0;
      while i < |es|
        invariant 0 <= i <= |es| && |streams| == i && |names| == i
        invariant ChildNames(es[..i]) == Success(names)
        invariant forall k :: 0 <= k < i ==> fresh(streams[k]) && fresh(streams[k].obj)
        invariant forall k :: 0 <= k < i ==> streams[k].obj.db == obj.db && streams[k].obj.path == ChildPath(obj.path, names[k])
        invariant forall k :: 0 <= k < i ==> streams[k].obj.metadata == Value(es[k])
      {
        var name := ChildName(es[i]);
        ChildNamesStep(es, i);
        if name.Failure? {
          ChildNamesPrefixFailure(es, i + 1);
          return Failure(name.error);
        }
        var strm := ListedStream(name.value, es[i]);
        streams := streams + [strm];
        names := names + [name.value];
        i := i + 1;
      }
      assert es[..i] == es;
      r := Success(streams);
    }

    /** `apikey`: the device's API key, or None when the metadata has none. */
    method ApiKey() returns (r: Result<Json>)
      modifies obj, obj.db
      ensures obj.DataFetched()
      ensures r == (var d := old(obj.DataNow()); if d.Success? then MetaGetOr(d.value, "apikey", JNull) else Failure(d.error))
    {
      r := obj.PropertyOr("apikey", JNull);
    }

    /** `reset_apikey()`: a `set` of an empty API key; the new key is read from the
        metadata the server answered with. */
    method ResetApiKey() returns (r: Result<Json>)
      modifies obj, obj.db
      ensures obj.db.log == old(obj.db.log) + [UpdateRequest(obj.path, JObj(map["apikey" := JStr("")]))]
      ensures var d := Decoded(old(obj.db.Answer(UpdateRequest(obj.path, JObj(map["apikey" := JStr("")])))));
        && obj.metadata == (if d.Success? then Value(d.value) else old(obj.metadata))
        && r == (if d.Success? then Index(d.value, "apikey") else d)
    {
      var s := obj.Set(map["apikey" := JStr("")]);
      if s.Failure? {
        return Failure(s.error);
      }
      r := MetaIndex(obj.metadata, "apikey");
    }

    /** `user`: the user owning the device, at the first piece of the path. */
    method User() returns (u: User)
      ensures fresh(u) && fresh(u.obj)
      ensures u.obj.db == obj.db && u.obj.path == UserPathOf(obj.path) && u.obj.metadata == NO_METADATA
    {
      u := new User(obj.db, Split(obj.path, '/')[0]);
    }

    /** `__repr__`: the class name and the path in brackets. */
    function Repr(): (r: string)
      ensures r == "[Device:" + obj.path + "]"
    {
      Paths.Repr("Device", obj.path)
    }
  }

  class Stream {
    const obj: ConnectorObject

    constructor (db: DatabaseConnection, path: string)
      ensures fresh(obj) && obj.db == db && obj.path == path && obj.metadata == NO_METADATA
    {
      obj := new ConnectorObject(db, path);
    }

    /** The path of the stream's data. */
    function DataPath(): (p: string)
      ensures p == ChildPath(obj.path, "data")
      ensures UserPathOf(p) == UserPathOf(obj.path)
    {
      UserPathOfChild(obj.path, "data");
      obj.path + "/data"
    }

    /** `create(schema)`: create the stream with its JSON schema. Unlike the other
        `create`s, the answer is kept as metadata without being decoded. `schemaValid`
        is the JSON-schema validator's verdict on `schema`; an invalid schema is
        refused before anything is sent. */
    method Create(schema: Json, schemaValid: bool) returns (r: Result<()>)
      modifies obj, obj.db
      ensures !schemaValid ==> r == Failure(SchemaError) && obj.db.log == old(obj.db.log) && obj.metadata == old(obj.metadata)
      ensures schemaValid ==> obj.db.log == old(obj.db.log) + [CreateRequest(obj.path, schema)]
      ensures schemaValid ==> var a := old(obj.db.Answer(CreateRequest(obj.path, schema)));
        r == Status(a) && obj.metadata == (if a.Success? then RawAnswer(a.value) else old(obj.metadata))
    {
      if !schemaValid {
        return Failure(SchemaError);
      }
      var res := obj.db.Create(obj.path, schema);
      if res.Success? {
        obj.metadata := RawAnswer(res.value);
      }
      r := Status(res);
    }

    /** `insert_array(datapoints, restamp)`: the datapoints go to the data path, as an
        update when the server is to restamp them and as a create otherwise. */
    method InsertArray(datapoints: seq<Json>, restamp: bool) returns (r: Result<()>)
      modifies obj.db
      ensures var req := if restamp then UpdateRequest(DataPath(), JArr(datapoints)) else CreateRequest(DataPath(), JArr(datapoints));
        obj.db.log == old(obj.db.log) + [req] && r == Status(old(obj.db.Answer(req)))
    {
      var res;
      if restamp {
        res := obj.db.Update(DataPath(), JArr(datapoints));
      } else {
        res := obj.db.Create(DataPath(), JArr(datapoints));
      }
      r := Status(res);
    }

    /** `insert(data)`: one update of the data path with the single datapoint `{"d": data}`. */
    method Insert(data: Json) returns (r: Result<()>)
      modifies obj.db
      ensures var req := UpdateRequest(DataPath(), JArr([JObj(map["d" := data])]));
        obj.db.log == old(obj.db.log) + [req] && r == Status(old(obj.db.Answer(req)))
    {
      r := InsertArray([JObj(map["d" := data])], true);
    }

    /** `stream(t1=..., ..., transform=...)`: a read of the data path with the query's
        parameters; mixing time and index access fails before anything is sent. */
    method Call(a: QueryArgs) returns (r: Result<Json>)
      modifies obj.db
      ensures QueryParams(a).Failure? ==> r == Failure(QueryParams(a).error) && obj.db.log == old(obj.db.log)
      ensures QueryParams(a).Success? ==>
        var req := ReadRequest(DataPath(), Some(QueryParams(a).value));
        obj.db.log == old(obj.db.log) + [req] && r == Decoded(old(obj.db.Answer(req)))
    {
      var params := BuildParams(a);
      if params.Failure? {
        return Failure(params.error);
      }
      var res := obj.db.Read(DataPath(), Some(params.value));
      r := Decoded(res);
    }

    /** `stream[k]` reads the index range `k` to `k+1` and gives its first element;
        `stream[a:b]` reads the index range `a` to `b`. */
    method GetItem(key: Key) returns (r: Result<Json>)
      modifies obj.db
      ensures QueryParams(ItemArgs(key)).Success?
      ensures var req := ReadRequest(DataPath(), Some(QueryParams(ItemArgs(key)).value));
        var d := Decoded(old(obj.db.Answer(req)));
        && obj.db.log == old(obj.db.log) + [req]
        && r == (if key.Item? && d.Success? then First(d.value) else d)
    {
      ItemQueries(key);
      var d := Call(ItemArgs(key));
      if key.Item? && d.Success? {
        r := First(d.value);
      } else {
        r := d;
      }
    }

    /** `downlink`: the stored flag, or False when the metadata has none. */
    method Downlink() returns (r: Result<Json>)
      modifies obj, obj.db
      ensures obj.DataFetched()
      ensures r == (var d := old(obj.DataNow()); if d.Success? then MetaGetOr(d.value, "downlink", JBool(false)) else Failure(d.error))
    {
      r := obj.PropertyOr("downlink", JBool(false));
    }

    /** `downlink = b`: a `set` of the flag and nothing else. */
    method SetDownlink(isDownlink: bool) returns (r: Result<()>)
      modifies obj, obj.db
      ensures obj.db.log == old(obj.db.log) + [UpdateRequest(obj.path, JObj(map["downlink" := JBool(isDownlink)]))]
      ensures var d := Decoded(old(obj.db.Answer(UpdateRequest(obj.path, JObj(map["downlink" := JBool(isDownlink)])))));
        r == Status(d) && obj.metadata == (if d.Success? then Value(d.value) else old(obj.metadata))
    {
      r := obj.Set(map["downlink" := JBool(isDownlink)]);
    }

    /** `ephemeral`: the stored flag, or False when the metadata has none. */
    method Ephemeral() returns (r: Result<Json>)
      modifies obj, obj.db
      ensures obj.DataFetched()
      ensures r == (var d := old(obj.DataNow()); if d.Success? then MetaGetOr(d.value, "ephemeral", JBool(false)) else Failure(d.error))
    {
      r := obj.PropertyOr("ephemeral", JBool(false));
    }

    /** `ephemeral = b`: a `set` of the flag and nothing else. */
    method SetEphemeral(isEphemeral: bool) returns (r: Result<()>)
      modifies obj, obj.db
      ensures obj.db.log == old(obj.db.log) + [UpdateRequest(obj.path, JObj(map["ephemeral" := JBool(isEphemeral)]))]
      ensures var d := Decoded(old(obj.db.Answer(UpdateRequest(obj.path, JObj(map["ephemeral" := JBool(isEphemeral)])))));
        r == Status(d) && obj.metadata == (if d.Success? then Value(d.value) else old(obj.metadata))
    {
      r := obj.Set(map["ephemeral" := JBool(isEphemeral)]);
    }

    /** `user`: the user owning the stream, at the first piece of the path. */
    method User() returns (u: User)
      ensures fresh(u) && fresh(u.obj)
      ensures u.obj.db == obj.db && u.obj.path == UserPathOf(obj.path) && u.obj.metadata == NO_METADATA
    {
      u := new User(obj.db, Split(obj.path, '/')[0]);
    }

    /** `device`: the device owning the stream, at the first two pieces of the path;
        a path without a slash has no second piece and fails. */
    method Device() returns (r: Result<Device>)
      ensures DevicePathOf(obj.path).Failure? ==> r == Failure(DevicePathOf(obj.path).error)
      ensures DevicePathOf(obj.path).Success? ==>
        && r.Success? && fresh(r.value) && fresh(r.value.obj)
        && r.value.obj.db == obj.db && r.value.obj.path == DevicePathOf(obj.path).value
        && r.value.obj.metadata == NO_METADATA
    {
      var parts := Split(obj.path, '/');
      if |parts| < 2 {
        return Failure(IndexError);
      }
      var d := new Device(obj.db, parts[0] + "/" + parts[1]);
      r := Success(d);
    }

    /** `__repr__`: the class name and the path in brackets. */
    function Repr(): (r: string)
      ensures r == "[Stream:" + obj.path + "]"
    {
      Paths.Repr("Stream", obj.path)
    }
  }
}
