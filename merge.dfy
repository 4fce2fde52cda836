/** The merge query: several streams read together, merged by increasing timestamp.
    Each stream contributes the parameters of an ordinary stream read plus the
    stream's path under "stream"; the whole list is posted as one "merge" query. */
module MergeQuery {
  import opened Values
  import opened Text
  import opened Params
  import opened Paths
  import opened Connection
  import opened StreamQuery
  import opened Objects
  import opened Client

  /** What `addStream` accepts as a stream: a stream object or a stream name. */
  datatype StreamRef = StreamObject(stream: Stream) | StreamName(name: string)

  /** `get_stream`: a stream object gives its path; a name without slashes is a stream
      of the logged-in device; a full `user/device/stream` path is taken as it is;
      any other name is refused. */
  function GetStream(devicePath: string, s: StreamRef): (r: Result<string>)
    ensures s.StreamObject? ==> r == Success(s.stream.obj.path)
    ensures s.StreamName? ==>
      (r.Failure? <==> CountChar(s.name, '/') != 0 && CountChar(s.name, '/') != 2)
    ensures s.StreamName? && r.Failure? ==> r.error == InvalidStream("Stream '" + s.name + "' invalid")
    ensures s.StreamName? && CountChar(s.name, '/') == 0 ==> r == Success(ChildPath(devicePath, s.name))
    ensures s.StreamName? && CountChar(s.name, '/') == 2 ==> r == Success(s.name)
  {
    match s
    case StreamObject(strm) => Success(strm.obj.path)
    case StreamName(n) =>
      var slashes := CountChar(n, '/');
      if slashes == 0 then Success(devicePath + "/" + n)
      else if slashes == 2 then Success(n)
      else Failure(InvalidStream("Stream '" + n + "' invalid"))
  }

  /** Under a logged-in device (one slash), every accepted stream name resolves to a
      path that `cdb(...)` takes for a stream. */
  lemma {:induction false} NamesResolveToStreams(devicePath: string, name: string)
    requires CountChar(devicePath, '/') == 1
    requires GetStream(devicePath, StreamName(name)).Success?
    ensures CountChar(GetStream(devicePath, StreamName(name)).value, '/') == 2
    ensures Classify(GetStream(devicePath, StreamName(name)).value) == StreamKind
  {
    if CountChar(name, '/') == 0 {
      CountCharAppend(devicePath + "/", name, '/');
      CountCharAppend(devicePath, "/", '/');
    }
  }

  /** The parameters one stream adds to a merge query: the stream read's parameters
      with `params["stream"]` set to the stream's path. It fails exactly when the read
      or `get_stream` fails, and the read's errors come first. */
  function MergeEntry(devicePath: string, s: StreamRef, a: QueryArgs): (r: Result<Params>)
    ensures r.Failure? <==> QueryParams(a).Failure? || GetStream(devicePath, s).Failure?
    ensures QueryParams(a).Failure? ==> r == Failure(QueryParams(a).error)
    ensures QueryParams(a).Success? && GetStream(devicePath, s).Failure? ==> r == Failure(GetStream(devicePath, s).error)
  {
    match QueryParams(a)
    case Failure(e) => Failure(e)
    case Success(p) =>
      match GetStream(devicePath, s)
      case Failure(e) => Failure(e)
      case Success(path) => Success(Put(p, "stream", path))
  }

  /** A merge entry is the read's parameters followed by the stream's path: the read
      never sets "stream", so it is appended, and the keys stay unique. */
  lemma StreamEntryAppended(devicePath: string, s: StreamRef, a: QueryArgs)
    requires MergeEntry(devicePath, s, a).Success?
    ensures var e := MergeEntry(devicePath, s, a).value;
      && e == QueryParams(a).value + [("stream", GetStream(devicePath, s).value)]
      && Lookup(e, "stream") == Some(GetStream(devicePath, s).value)
      && UniqueKeys(e)
  {
    var p := QueryParams(a).value;
    var path := GetStream(devicePath, s).value;
    QueryLacksStream(a);
    PutNewKey(p, "stream", path);
    LookupPut(p, "stream", path, "stream");
    TransformLastAndKeysUnique(a);
    UniqueAppend(p, [("stream", path)]);
  }

  /** No stream read sets the key "stream". */
  lemma QueryLacksStream(a: QueryArgs)
    requires QueryParams(a).Success?
    ensures "stream" !in Keys(QueryParams(a).value)
  {
    SelectionKeys(a);
    var sel := Selection(a);
    var head := if sel == [] then [("i1", "0")] else sel;
    assert QueryParams(a).value == head + Entry("transform", a.transform);
    KeysAppend(head, Entry("transform", a.transform));
  }

  /** The list of dicts sent as the merge query, as JSON. */
  function QueryJson(q: seq<Params>): (j: Json)
    ensures j.JArr? && |j.items| == |q|
    ensures forall k :: 0 <= k < |q| ==> j.items[k] == ToJson(q[k])
  {
    if q == [] then JArr([])
    else JArr(QueryJson(q[..|q| - 1]).items + [ToJson(q[|q| - 1])])
  }

  class Merge {
    const cdb: ConnectorDB
    /** One entry per added stream, in the order they were added. */
    var query: seq<Params>

    constructor (cdb: ConnectorDB)
      ensures this.cdb == cdb && query == []
    {
      this.cdb := cdb;
      query := [];
    }

    /** `addStream(stream, t1=..., ..., transform=...)`: append the stream's entry;
        on an error nothing is added. */
    method AddStream(s: StreamRef, a: QueryArgs) returns (r: Result<()>)
      modifies this
      ensures var e := MergeEntry(cdb.device.obj.path, s, a);
        && r == Status(e)
        && query == (if e.Success? then old(query) + [e.value] else old(query))
    {
      var params := BuildParams(a);
      if params.Failure? {
        return Failure(params.error);
      }
      var path := GetStream(cdb.device.obj.path, s);
      if path.Failure? {
        return Failure(path.error);
      }
      query := query + [Put(params.value, "stream", path.value)];
      r := Success(());
    }

    /** `run()`: post the collected entries as a "merge" query and return the answer. */
    method Run() returns (r: Result<Response>)
      modifies cdb.device.obj.db
      ensures cdb.device.obj.db.log == old(cdb.device.obj.db.log) + [QueryRequest("merge", QueryJson(query))]
      ensures r == old(cdb.device.obj.db.Answer(QueryRequest("merge", QueryJson(query))))
    {
      r := cdb.device.obj.db.Query("merge", QueryJson(query));
    }
  }
}
