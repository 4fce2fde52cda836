# connectordb-python client core, modelled in Dafny

This project models the client side of the ConnectorDB Python library, covering these parts:

- **The connection** (`DatabaseConnection`). It normalises the server address and picks the basic-auth credentials. It sends create, read, update, delete and query requests. `handleresult` sorts the server's answers into results, `AuthenticationError` and `ServerError`.
- **Stream reads.** Stream reads build their URL parameters (`Stream.__call__`). Indexing a stream (`__getitem__`) maps an index or a slice onto those parameters.
- **The `user/device/stream` namespace.**
  - Child paths are `parent + "/" + name`.
  - Owner paths are cut from `path.split("/")`.
  - Objects print as `[Kind:path]`.
  - `ConnectorDB.__call__` dispatches on the number of slashes.
- **Users, devices and streams** (`ConnectorObject` and its subclasses). Each keeps a `metadata` cache of its JSON form:
  - `data` fills the cache lazily;
  - `refresh`, `set` and `create` replace it;
  - `exists` tests a read;
  - property getters fall back to a default;
  - `devices()` and `streams()` wrap each listed entry in a child object, in order.
- **The merge query.** `get_stream` resolves a stream object, a bare stream name or a full path. `Merge` collects one parameter dict per stream and posts the list as a "merge" query.

Modules:

| module | file | models |
|---|---|---|
| `Values` | values.dfy | `Option`, `Result` (a value or one of the client's exceptions), decoded JSON, and Python's `in`, `[key]` and `[0]` on JSON values |
| `Text` | text.dfy | `str.count`, `str.split` with the join that undoes it, and `str(int)` |
| `Paths` | paths.dfy | child, user and device paths, and `__repr__` |
| `Params` | params.dfy | URL parameters: a dict of strings, kept as a list of its entries |
| `Connection` | connection.dfy | `DatabaseConnection` and `handleresult` |
| `StreamQuery` | stream_query.dfy | the parameter builder of `Stream.__call__` and the arguments of `Stream.__getitem__` |
| `Objects` | objects.dfy | `ConnectorObject`, `User`, `Device` and `Stream` |
| `Client` | connectordb.dfy | `ConnectorDB` |
| `MergeQuery` | merge.dfy | `get_stream` and `Merge` |

## How the model is built

**The server.** The server is a function from the requests sent so far, and the next request, to that request's answer. A `DatabaseConnection` keeps the log of every request it has sent (`log`). Each CRUD method appends exactly one `Request` (kind, object path, payload or URL parameters) and returns the answer after `handleresult`. So every method's contract says which request, with which payload, it sends, and what it does with the answer. A raised exception is a `Failure` carrying the exception.

**Objects.** Python's `ConnectorObject` base class becomes a `ConnectorObject` held by each `User`, `Device` and `Stream`. The four classes import each other, so they live in one module (`Objects`). `metadata` is a field that the methods reassign. The Python `None` the cache starts from is `Value(JNull)`, the same value a JSON `null` answer decodes to, so a `null` answer leaves the cache empty, as in Python.

`Stream.create` stores the undecoded answer (`self.db.create(...)` without `.json()`). The model keeps that as `RawAnswer`.

**Loops.** The parameter builder of `Stream.__call__` and the loops of `devices()` and `streams()` are methods with the same step-by-step updates. Each is proved against a function that states the result outright:

- `BuildParams` against `QueryParams`;
- `Devices` and `Streams` against `Listing` and `ChildNames`.

**`merge.py` and `query_maker`.** `merge.py` imports `query_maker` from `_stream.py`, but the `_stream.py` of this version defines no such function. The model assumes that `query_maker(t1, t2, limit, i1, i2, transform)` builds the same dict as `Stream.__call__`, and reuses that builder.

**Edge cases the model keeps as written:**

- `handleresult` passes every status up to and including 300 as a success, so 1xx answers and the status 300 pass. Statuses 301 to 399 raise ServerError. Its docstring names only 2xx as ok.
- The scheme check is `startswith("http")`, so an address such as `httpbin.org` is kept without a scheme.
- A path with three or more slashes is still dispatched to a `Stream`.

## Model

| member | source | states |
|---|---|---|
| `Connection.NormalizeUrl` | connectordb/_connection.py:31-34 | the normalised URL starts with "http" and ends with "/" |
| `Connection.NormalizeUrlDefault` | connectordb/_connection.py:28-34 | the default address "https://connectordb.com" gains only its closing slash |
| `Connection.NormalizeUrlPrefix` | connectordb/_connection.py:31-32 | a URL starting with "http" keeps its beginning; any other gets "http://" in front; the result is that text, or that text plus one closing slash |
| `Connection.NormalizeUrlIdempotent` | connectordb/_connection.py:31-34 | normalising twice is normalising once |
| `Connection.Credentials` | connectordb/_connection.py:39-43 | without a password, the user is "" and the password is the API key; with one, both pass unchanged |
| `Connection.DatabaseConnection.constructor` | connectordb/_connection.py:28-43 | the kept URL is the normalised URL, the credentials are those of `Credentials`, and no request has been sent |
| `Connection.JsonOf` | connectordb/_connection.py:65 | `.json()` succeeds exactly on a body that parses, with the parsed value; otherwise it raises the JSON error |
| `Connection.CodeText` | connectordb/_connection.py:65 | Python 2's `str()` of the code succeeds exactly on a number, a boolean, null or an ASCII text; a number gives its digits, an ASCII text itself, a non-ASCII text raises UnicodeEncodeError; a readable code is always ASCII |
| `Connection.ErrorMessage` | connectordb/_connection.py:64-65 | an unparsable body raises the JSON error, a body that is not an object TypeError, a missing code KeyError("code"), an unprintable code its `str()` error; a message is produced only for an object holding code and text msg and ref, and it is "code: msg (ref)" |
| `Connection.HandleResult` | connectordb/_connection.py:54-75 | ok exactly for status at most 300, returning the answer unchanged; 4xx raises AuthenticationError with the formatted message, or the error reading it raises; any other status above 300 raises ServerError with the formatted message, or the fixed text when it cannot be read |
| `Connection.ErrorMessageFormat` | connectordb/_connection.py:66 | a body holding code, msg and ref formats as "code: msg (ref)" whatever other fields it has |
| `Connection.HandleResultClasses` | connectordb/_connection.py:64-74 | AuthenticationError comes only from 4xx; ServerError only from statuses above 300 outside 4xx; any other exception only from a 4xx answer whose message cannot be read |
| `Connection.NonAsciiCode` | connectordb/_connection.py:63-74 | an error answer whose code is non-ASCII text raises UnicodeEncodeError when it is 4xx, and the fixed ServerError text for any other status above 300 |
| `Connection.Decoded` | connectordb/_connectorobject.py:16 | an exception raised by `handleresult` passes through `.json()` unchanged; an answer that passed is decoded by `.json()` |
| `Connection.DatabaseConnection.Send` | connectordb/_connection.py:82-103 | exactly one request is appended to the log, and the result is the server's answer to it after `handleresult` |
| `Connection.DatabaseConnection.Query` | connectordb/_connection.py:82-84 | sends one query request of the given type and payload |
| `Connection.DatabaseConnection.Create` | connectordb/_connection.py:86-89 | sends one create request for the path with the payload |
| `Connection.DatabaseConnection.Read` | connectordb/_connection.py:91-94 | sends one read request for the path with the URL parameters |
| `Connection.DatabaseConnection.Update` | connectordb/_connection.py:96-99 | sends one update request for the path with the payload |
| `Connection.DatabaseConnection.Delete` | connectordb/_connection.py:101-103 | sends one delete request for the path |
| `StreamQuery.BuildParams` | connectordb/_stream.py:53-74 | the dict built step by step is `QueryParams`: the error for mixed access, otherwise the selecting entries (or `i1=0`) followed by the transform |
| `StreamQuery.SelectParams` | connectordb/_stream.py:53-66 | the selecting arguments filled in one by one: the AssertionError exactly when an index follows a time or count, otherwise the selecting entries in order |
| `StreamQuery.PutIfGiven` | connectordb/_stream.py:54-66 | `if not v is None: params[key] = v` for a key not yet present adds the entry of `key` exactly when `v` is given |
| `StreamQuery.QueryParams` | connectordb/_stream.py:53-74 | the parameters of a read fail exactly when a time or limit argument is given together with an index, with the AssertionError text; index arguments alone never fail |
| `StreamQuery.SuppliedArgumentsPresent` | connectordb/_stream.py:54-74 | each of t1, t2, limit, i1, i2 and transform is present exactly when supplied, under its own key and with its value; only `i1` appears unsupplied, as "0" when nothing selects |
| `StreamQuery.ParamLookup` | connectordb/_stream.py:54-74 | the value of any key in the built dict |
| `StreamQuery.Selection` | connectordb/_stream.py:54-70 | no selecting entry exactly when no time, limit or index argument is given |
| `StreamQuery.SelectionKeys` | connectordb/_stream.py:54-66 | the selecting entries have unique keys among t1, t2, limit, i1 and i2 |
| `StreamQuery.SelectionLacksTransform` | connectordb/_stream.py:70-74 | no "transform" key is set before the transform step |
| `StreamQuery.SelectionLookup` | connectordb/_stream.py:54-66 | each selecting key maps to its own argument |
| `StreamQuery.LookupAppend` | connectordb/_stream.py:73-74 | an entry appended after the others does not shadow an earlier key |
| `StreamQuery.DefaultIsFullRead` | connectordb/_stream.py:70-74 | with no selecting argument the dict is exactly `i1=0`, followed by the transform when one is given |
| `StreamQuery.TransformLastAndKeysUnique` | connectordb/_stream.py:73-74 | a given transform is the last entry, and no key occurs twice |
| `StreamQuery.ItemArgs` | connectordb/_stream.py:80-85 | indexing never passes a time argument or a transform |
| `StreamQuery.ItemQueries` | connectordb/_stream.py:78-85 | `stream[k]` reads `i1=k, i2=k+1`; `stream[a:b]` with a bound given reads `i1=a` and `i2=b` for the bounds given; `stream[:]` falls back to the full read `i1=0`; indexing never fails for mixed access |
| `Params.Keys` | connectordb/_stream.py:61 | the key set of the dict is exactly the keys of its entries |
| `Params.Lookup` | connectordb/_stream.py:53-74 | `params.get(key)` has a value exactly when the key is among the keys, and that value is stored under the key |
| `Params.Put` | connectordb/_stream.py:54-74 | `params[key] = value` makes the keys exactly the old keys plus `key` |
| `Params.LookupPut` | connectordb/query/merge.py:37 | after `params[key] = value` the key maps to the value and every other key is unchanged |
| `Params.PutNewKey` | connectordb/_stream.py:54-74 | storing a key not yet present appends one entry at the end |
| `Params.KeysAppend` | connectordb/_stream.py:54-74 | the keys of two joined entry lists are the union of their keys |
| `Params.UniqueAppend` | connectordb/_stream.py:54-74 | joining two dicts with no key in common keeps every key unique |
| `Params.ToJson` | connectordb/_connection.py:84 | `json.dumps` of a dict of strings is an object whose fields are the dict's keys, each with a string value |
| `Params.FieldsLookup` | connectordb/query/merge.py:44 | the JSON object sent for a dict holds exactly its keys, each with its value |
| `Text.StartsWith` | connectordb/_connection.py:31 | `url.startswith(p)` holds exactly when `p` is no longer than `url` and agrees with it at each of its positions |
| `Text.EndsWith` | connectordb/_connection.py:33 | `url.endswith(p)` holds exactly when `p` is no longer than `url` and agrees with its last characters |
| `Text.CountChar` | connectordb/_connectordb.py:31 | `path.count("/")` is the number of occurrences of the character, its multiplicity in the string |
| `Text.CountCharAppend` | connectordb/_connectordb.py:31 | the slash count of a concatenation is the sum of the counts |
| `Text.CountCharZero` | connectordb/_connectordb.py:31-33 | the count is zero exactly when the character does not occur |
| `Text.Split` | connectordb/_stream.py:139 | a split has at least one piece |
| `Text.JoinSplit` | connectordb/_stream.py:139-141 | joining the pieces of a split gives the path back |
| `Text.SplitJoin` | connectordb/_stream.py:139-141 | splitting a join of slash-free pieces gives those pieces |
| `Text.SplitPiecesFree` | connectordb/_stream.py:134 | no piece of a split contains the separator |
| `Text.SplitLength` | connectordb/_stream.py:139-141 | a split has one piece more than the string has separators |
| `Text.SplitFree` | connectordb/_device.py:53 | a string without a separator splits into itself |
| `Text.SplitWithSeparator` | connectordb/_stream.py:139-141 | `a + "/" + b` with a slash-free `a` splits into `a` followed by the pieces of `b` |
| `Text.SplitAround` | connectordb/_user.py:34 | `a + "/" + b` splits into the pieces of `a` followed by the pieces of `b` |
| `Text.NatToString` | connectordb/_stream.py:59 | `str` of a count is a non-empty run of decimal digits |
| `Text.IntToString` | connectordb/_stream.py:59-66 | `str` of an integer is non-empty ASCII text that starts with a minus sign exactly for a negative number, and is all digits otherwise |
| `Text.NatToStringValue` | connectordb/_stream.py:59 | the digits `str` writes for a natural number read back as that number |
| `Text.IntToStringValue` | connectordb/_stream.py:59-66 | `str(n)` reads back as `n`: its digits denote `n`, or after the minus sign denote `-n` |
| `Text.SplitPrefix` | connectordb/_stream.py:139-141 | the first piece of a split begins the string, a separator follows it exactly when there are more pieces, and the first two pieces with the separator between them begin the string |
| `Paths.ChildPath` | connectordb/_user.py:32-34 | the child path is the parent, a slash and the name, in that order |
| `Paths.UserPathOf` | connectordb/_stream.py:131-134 | the user path is the slash-free part of the path before its first slash |
| `Paths.DevicePathOf` | connectordb/_stream.py:136-141 | the device path is a beginning of the path; it fails with IndexError exactly on a path without a slash |
| `Paths.DevicePathOfDevice` | connectordb/_stream.py:139-141 | a path with exactly one slash is its own device path |
| `Paths.ChildCount` | connectordb/_user.py:32-34 | `self.path + "/" + name` with a slash-free name has one slash more than the parent path |
| `Paths.OwnersOfChildren` | connectordb/_device.py:50-53 | for slash-free names, `u/d` has one slash and user path `u`; `u/d/s` has two slashes, user path `u` and device path `u/d` |
| `Paths.DevicePathOfKeepsUser` | connectordb/_stream.py:136-141 | a path with a slash has a device path; it keeps the path's user and has exactly one slash |
| `Paths.UserPathOfChild` | connectordb/_device.py:50-53 | the user path of any child is the user path of its parent |
| `Paths.DevicePathOfChild` | connectordb/_stream.py:136-141 | the device path of a stream under a one-slash device path is that device path |
| `Paths.Repr` | connectordb/_user.py:36-38 | a representation is "[", the kind name, ":", the path and "]", in that order |
| `Paths.FirstColon` | connectordb/_device.py:31-33 | in a representation the first colon follows the kind name |
| `Paths.ReprInjective` | connectordb/_stream.py:92-94 | equal representations (colon-free kinds) have the same kind and the same path |
| `Values.Contains` | connectordb/_connectorobject.py:54 | `key in data` tests dict keys and list members; only dicts, lists and strings support `in` |
| `Values.IsSubstringWindow` | connectordb/_connectorobject.py:54 | `key in data` on a string holds exactly when the key fills some window of consecutive characters of it |
| `Values.Index` | connectordb/_connectorobject.py:44 | `data[key]` succeeds exactly for a dict holding the key, with its value; otherwise KeyError on a dict and TypeError on anything else |
| `Values.GetOr` | connectordb/_connectorobject.py:54-56 | on a dict, the stored value when the key is present and the default otherwise; anything else gives the default only when the key is absent |
| `Values.First` | connectordb/_stream.py:82 | the first element of a non-empty list; IndexError on an empty one; only lists and strings give a value |
| `Objects.ConnectorObject.constructor` | connectordb/_connectorobject.py:7-12 | a new object has its connection and path and no metadata |
| `Objects.ConnectorObject.Refresh` | connectordb/_connectorobject.py:14-16 | one read of the path; the decoded answer replaces the metadata; on an error the metadata is kept |
| `Objects.ConnectorObject.Data` | connectordb/_connectorobject.py:18-23 | the cached metadata with no request when there is some; otherwise exactly one read, whose answer fills the cache |
| `Objects.ConnectorObject.Exists` | connectordb/_connectorobject.py:29-35 | false exactly when the read raised; when true, the metadata is the answer |
| `Objects.ConnectorObject.Set` | connectordb/_connectorobject.py:37-39 | one update of the path with exactly the given properties; the decoded answer replaces the metadata |
| `Objects.ConnectorObject.Delete` | connectordb/_connectorobject.py:25-27 | one delete request for the path |
| `Objects.ConnectorObject.PropertyOr` | connectordb/_connectorobject.py:51-56 | `data` followed by the getter idiom: the stored value when present, the default otherwise |
| `Objects.ConnectorObject.Name` | connectordb/_connectorobject.py:41-44 | `data["name"]`, failing when there is no name |
| `Objects.ConnectorObject.SetName` | connectordb/_connectorobject.py:45-49 | one update whose properties are the name alone |
| `Objects.ConnectorObject.Nickname` | connectordb/_connectorobject.py:51-56 | the stored nickname when present, None otherwise |
| `Objects.ConnectorObject.SetNickname` | connectordb/_connectorobject.py:57-60 | one update whose properties are the nickname alone |
| `Objects.MetaIndex` | connectordb/_connectorobject.py:44 | `metadata[key]` gives a value exactly for a decoded object holding the key, and that value; KeyError for a missing key; TypeError for a raw answer or any other value |
| `Objects.MetaGetOr` | connectordb/_connectorobject.py:54-56 | on a decoded value, exactly the getter idiom `Values.GetOr`; so on a decoded object the stored value or the default; on a raw answer, the default; TypeError on a value that supports no `in` |
| `Objects.Listing` | connectordb/_user.py:21-26 | a raised exception passes through; a JSON `null` answer lists nothing; a list answer lists its elements; an undecodable body raises the JSON error |
| `Objects.ChildName` | connectordb/_user.py:27 | `d["name"]` as a path piece succeeds exactly for an object whose "name" is text, giving that text; KeyError("name") when it has none |
| `Objects.ChildNames` | connectordb/_user.py:26-27 | on success, one name per entry, in order, each the entry's "name"; on failure, the error of the first entry whose name fails, every earlier entry having a name |
| `Objects.ChildNamesPrefixFailure` | connectordb/_user.py:26-30 | once an entry's name fails, the whole listing fails with that error |
| `Objects.ChildNamesStep` | connectordb/_user.py:26-29 | one more listed entry adds its name, or ends the listing with its error |
| `Objects.User.constructor` | connectordb/_connectorobject.py:7-12 | a new user has its connection and path and no metadata |
| `Objects.User.Create` | connectordb/_user.py:9-13 | one create of the user's path with exactly the e-mail and the password; the decoded answer becomes the metadata |
| `Objects.User.SetPassword` | connectordb/_user.py:15-17 | one update whose properties are the password alone |
| `Objects.User.Child` | connectordb/_user.py:32-34 | a new device at `path + "/" + name` on the same connection |
| `Objects.User.Devices` | connectordb/_user.py:19-30 | one listing read; on success, one new device per listed entry, in order, at the child path of the entry's name, with the entry as metadata; otherwise the listing's or the first bad name's error |
| `Objects.User.DevicesOf` | connectordb/_user.py:25-30 | the loop: a device per entry exactly when every entry has a usable name, in order, at the child path of that name, holding the entry as metadata |
| `Objects.User.ListedDevice` | connectordb/_user.py:27-28 | `self[name]` with its metadata preset to the entry |
| `Objects.User.Email` | connectordb/_user.py:43-48 | the stored e-mail when present, None otherwise |
| `Objects.User.SetEmail` | connectordb/_user.py:50-53 | one update whose properties are the e-mail alone |
| `Objects.User.Repr` | connectordb/_user.py:36-38 | a user prints as "[User:" + path + "]" |
| `Objects.Device.constructor` | connectordb/_connectorobject.py:7-12 | a new device has its connection and path and no metadata |
| `Objects.Device.Create` | connectordb/_device.py:10-12 | one create of the device's path with the null payload; the decoded answer becomes the metadata |
| `Objects.Device.Child` | connectordb/_device.py:27-29 | a new stream at `path + "/" + name` on the same connection |
| `Objects.Device.Streams` | connectordb/_device.py:14-25 | one listing read; on success, one new stream per listed entry, in order, at the child path of the entry's name, with the entry as metadata |
| `Objects.Device.StreamsOf` | connectordb/_device.py:20-25 | the loop: a stream per entry exactly when every entry has a usable name, in order, at the child path of that name, holding the entry as metadata |
| `Objects.Device.ListedStream` | connectordb/_device.py:22-23 | `self[name]` with its metadata preset to the entry |
| `Objects.Device.ApiKey` | connectordb/_device.py:38-43 | the stored API key when present, None otherwise |
| `Objects.Device.ResetApiKey` | connectordb/_device.py:45-48 | one update with exactly `{"apikey": ""}`, then the "apikey" of the metadata it answered with |
| `Objects.Device.User` | connectordb/_device.py:50-53 | a new user at the first piece of the device's path |
| `Objects.Device.Repr` | connectordb/_device.py:31-33 | a device prints as "[Device:" + path + "]" |
| `Objects.Stream.constructor` | connectordb/_connectorobject.py:7-12 | a new stream has its connection and path and no metadata |
| `Objects.Stream.DataPath` | connectordb/_stream.py:76 | the data path is the child "data" of the stream's path, owned by the same user |
| `Objects.Stream.Create` | connectordb/_stream.py:13-16 | an invalid schema fails before anything is sent; otherwise one create with the schema, whose undecoded answer becomes the metadata |
| `Objects.Stream.InsertArray` | connectordb/_stream.py:18-25 | one update of the data path when restamping, one create otherwise, with the datapoints as payload |
| `Objects.Stream.Insert` | connectordb/_stream.py:27-38 | exactly one update of the data path with the payload `[{"d": data}]` |
| `Objects.Stream.Call` | connectordb/_stream.py:41-76 | mixed access fails with nothing sent; otherwise one read of the data path with the parameters of `QueryParams`, decoded |
| `Objects.Stream.GetItem` | connectordb/_stream.py:78-85 | one read with the parameters of the index or slice; an index gives element 0 of the answer |
| `Objects.Stream.Downlink` | connectordb/_stream.py:99-104 | the stored flag when present, False otherwise |
| `Objects.Stream.SetDownlink` | connectordb/_stream.py:106-108 | one update whose properties are the flag alone |
| `Objects.Stream.Ephemeral` | connectordb/_stream.py:110-115 | the stored flag when present, False otherwise |
| `Objects.Stream.SetEphemeral` | connectordb/_stream.py:117-122 | one update whose properties are the flag alone |
| `Objects.Stream.User` | connectordb/_stream.py:131-134 | a new user at the first piece of the stream's path |
| `Objects.Stream.Device` | connectordb/_stream.py:136-141 | a new device at the first two pieces of the path; IndexError for a path without a slash |
| `Objects.Stream.Repr` | connectordb/_stream.py:92-94 | a stream prints as "[Stream:" + path + "]" |
| `Client.Classify` | connectordb/_connectordb.py:31-37 | a user for no slash, a device for exactly one, a stream for two or more (so "a/b/c/d" is a stream) |
| `Client.ClassifyChildren` | connectordb/_connectordb.py:23-37 | the paths built by `user[d]` and `device[s]` from slash-free names dispatch back to a user, a device and a stream |
| `Client.ConnectorDB.constructor` | connectordb/_connectordb.py:17-21 | a new connection with normalised URL and chosen credentials, logged in as the device at the pinged path |
| `Client.ConnectorDB.Call` | connectordb/_connectordb.py:23-37 | a new object of the kind `Classify` names, at exactly the given path, on the same connection; nothing is sent |
| `Client.ConnectorDB.Repr` | connectordb/_connectordb.py:62-63 | the client prints as "[ConnectorDB:" + the logged-in device's path + "]" |
| `MergeQuery.GetStream` | connectordb/query/merge.py:4-12 | a stream object gives its own path before any slash counting; a slash-free name, the logged-in device's child path; a two-slash name, itself; any other name fails with "Stream '...' invalid" |
| `MergeQuery.NamesResolveToStreams` | connectordb/query/merge.py:7-10 | under a one-slash device path, every accepted name resolves to a two-slash path, which dispatches to a stream |
| `MergeQuery.StreamEntryAppended` | connectordb/query/merge.py:35-37 | an entry is the read's parameters followed by "stream" set to the resolved path, with unique keys |
| `MergeQuery.QueryLacksStream` | connectordb/query/merge.py:35-37 | no stream read sets "stream" itself |
| `MergeQuery.MergeEntry` | connectordb/query/merge.py:35-37 | an entry fails exactly when the read's parameters or the stream's resolution fail, the read's error first |
| `MergeQuery.QueryJson` | connectordb/query/merge.py:44 | the query is sent as a list with one object per entry, in order |
| `MergeQuery.Merge.constructor` | connectordb/query/merge.py:26-30 | a new merge has an empty query |
| `MergeQuery.Merge.AddStream` | connectordb/query/merge.py:32-40 | on success exactly one entry is appended at the end and earlier entries are unchanged; on an error the query is unchanged |
| `MergeQuery.Merge.Run` | connectordb/query/merge.py:42-44 | one query request of type "merge" carrying the entries in insertion order |

## Left out

- HTTP transport (`requests.Session`, basic-auth headers, JSON encoding and decoding of bodies) is not modelled. The server is a function from the requests already sent and the new request to an answer. A body either parses as JSON or does not.
- `urljoin`, which turns the normalised URL, `"/api/v1/"`, `"crud/"` and object paths into request URLs, is library behaviour kept uninterpreted. `Connection.DatabaseConnection.url` is the normalised address before that join, and a request names the object path and not a URL.
- `ping()`, `close()`, `get()`, `info()`, `count_users()`, `count_devices()`, `count_streams()` and `Stream.__len__` are transport or server queries. The constructor of `ConnectorDB` takes the path `ping()` would report as a parameter. So the ping request made at login is not in the connection's `log`, and a failed login (the AuthenticationError that `ping()` raises for wrong credentials) is not modelled.
- `Stream.schema` (`json.loads` of the stored schema) and JSON-schema checking are foreign calls. `Objects.Stream.Create` takes the schema validator's verdict as a parameter.
- Objects.Stream.Create: `Draft4Validator.check_schema` raises a `SchemaError` whose message describes the schema fault. The model has one `SchemaError` without the validator's message.
- `str()` of float timestamps: time arguments arrive as already-rendered strings, and limits and indices are integers.
- Connection.CodeText: `str()` of an error code that is a JSON list or object is Python's repr text. The model refuses such a code with `TypeError`, because the repr of JSON values is not modelled.
- Connection.ErrorMessage: for an error code that is a JSON list or object, Python formats the repr text into the message. The model gives `TypeError`, as `Connection.CodeText` does.
- Connection.HandleResult: for an error code that is a JSON list or object, Python puts the repr text into the AuthenticationError or ServerError message. The model raises TypeError for a 4xx answer and gives the fixed ServerError text for any other status above 300.
- Objects.MetaGetOr: Python's `key in response` on the undecoded answer that `Stream.create` stores compares the key with 128-byte chunks of the body. The model takes such an answer to hold no key. That differs from Python when some 128-byte chunk of the body equals the key, in particular the shorter last chunk, such as a body of 128·k bytes followed by the key. Python then indexes the answer and raises TypeError, where the model gives the default.
- URL-parameter order: the source is Python 2, whose `dict` keeps no insertion order, and `requests` writes the parameters in the dict's own order. The order of the entries of a `ReadRequest`'s parameters and of a merge entry is the model's own. So are the "appended at the end" and "last entry" parts of `Params.Put`, `Params.PutNewKey`, `StreamQuery.TransformLastAndKeysUnique` and `MergeQuery.StreamEntryAppended`. Only which keys are present, with which values, corresponds to the source.
- Byte strings and unicode in paths: Python 2 keeps them as different types, and joining a path that holds non-ASCII bytes with a unicode name raises `UnicodeDecodeError`. The model has one string type, so these joins always succeed: in `Objects.User.Child`, `Objects.Device.Child`, `Objects.User.Devices`, `Objects.Device.Streams` and `MergeQuery.GetStream`. Only error codes (`Connection.CodeText`) model Python 2's encoding errors.
- Byte strings and unicode in `repr()`: Python 2 raises `UnicodeEncodeError` when `__repr__` returns non-ASCII unicode. `Paths.Repr` and the classes' `Repr` members always succeed.
- JSON numbers are integers; floating point is not modelled. A JSON object is a map, so the key order that `json.dumps` writes is not modelled.
- Values.First: on a dict, Python's `value[0]` raises `KeyError(0)` with an integer key. The model writes that key as the text "0".
- Python objects are compared by identity. The model's objects are fresh Dafny objects, and the contracts of `Devices`, `Streams` and `Call` say so.
- The offline logger, `DatapointArray`, and the websocket-based API the tests use are not part of this model.
