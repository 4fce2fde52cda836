/** Values shared by the whole client: optional values, results carrying the
    client's exceptions, and the JSON values that the server sends back. */
module Values {

  datatype Option<+T> = None | Some(value: T)

  /** A Python call either returns a value or raises one of the client's exceptions. */
  datatype Result<+R> = Success(value: R) | Failure(error: Error)

  /** The outcome of a call whose Python counterpart returns None: only whether it raised. */
  function Status<T>(r: Result<T>): (s: Result<()>)
    ensures s.Success? <==> r.Success?
    ensures r.Failure? ==> s == Failure(r.error)
  {
    match r
    case Success(_) => Success(())
    case Failure(e) => Failure(e)
  }

  /** The exceptions the client code raises or lets escape. */
  datatype Error =
    | AuthenticationError(message: string)   // 4xx answer from the server
    | ServerError(message: string)           // any other non-ok answer
    | AssertionError(message: string)        // stream queried by index and by time at once
    | InvalidStream(message: string)         // merge query given a malformed stream path
    | InvalidJson                            // response body is not JSON (`.json()` fails)
    | KeyError(key: string)                  // dictionary lookup of an absent key
    | TypeError                              // operation on a value of the wrong kind
    | IndexError                             // sequence index out of range
    | SchemaError                            // the JSON schema given to a stream is not valid
    | UnicodeEncodeError                     // Python 2's `str()` of text with a non-ASCII character

  /** A JSON document as Python's json module decodes it. Numbers are integers here. */
  datatype Json =
    | JNull
    | JBool(b: bool)
    | JNum(n: int)
    | JStr(s: string)
    | JArr(items: seq<Json>)
    | JObj(fields: map<string, Json>)

  /** `needle` occurs as a contiguous piece of `hay` (Python's `in` on strings). */
  predicate IsSubstring(needle: string, hay: string)
  {
    (|needle| <= |hay| && hay[..|needle|] == needle) || (hay != [] && IsSubstring(needle, hay[1..]))
  }

  /** `needle` fills the window of `hay` that starts at position `i`. */
  predicate OccursAt(needle: string, hay: string, i: nat)
  {
    i + |needle| <= |hay| && hay[i..i + |needle|] == needle
  }

  /** `needle in hay` holds exactly when `needle` fills some window of `hay`. */
  lemma {:induction false} IsSubstringWindow(needle: string, hay: string)
    ensures IsSubstring(needle, hay) <==> exists i: nat :: OccursAt(needle, hay, i)
  {
    if hay == [] {
      if needle == [] {
        assert OccursAt(needle, hay, 0);
      }
    } else {
      var tail := hay[1..];
      IsSubstringWindow(needle, tail);
      if IsSubstring(needle, hay) {
        if |needle| <= |hay| && hay[..|needle|] == needle {
          assert OccursAt(needle, hay, 0);
        } else {
          var j: nat :| OccursAt(needle, tail, j);
          assert hay[j + 1..j + 1 + |needle|] == tail[j..j + |needle|];
          assert OccursAt(needle, hay, j + 1);
        }
      } else {
        forall i: nat | OccursAt(needle, hay, i)
          ensures false
        {
          if i > 0 {
            assert tail[i - 1..i - 1 + |needle|] == hay[i..i + |needle|];
            assert OccursAt(needle, tail, i - 1);
          }
        }
      }
    }
  }

  /** Python's `key in container` on a decoded JSON value: membership of the key in a
      dictionary, of the string in a list, substring test on a string; any other
      value raises TypeError. */
  function Contains(container: Json, key: string): (r: Result<bool>)
    ensures r.Failure? <==> !(container.JObj? || container.JArr? || container.JStr?)
    ensures container.JObj? ==> r == Success(key in container.fields)
    ensures container.JArr? ==> r == Success(JStr(key) in container.items)
  {
    match container
    case JObj(m) => Success(key in m)
    case JArr(xs) => Success(JStr(key) in xs)
    case JStr(s) => Success(IsSubstring(key, s))
    case _ => Failure(TypeError)
  }

  /** Python's `container[key]` with a string key on a decoded JSON value. */
  function Index(container: Json, key: string): (r: Result<Json>)
    ensures r.Success? <==> container.JObj? && key in container.fields
    ensures r.Success? ==> r.value == container.fields[key]
    ensures r.Failure? && container.JObj? ==> r.error == KeyError(key)
    ensures r.Failure? && !container.JObj? ==> r.error == TypeError
  {
    match container
    case JObj(m) => if key in m then Success(m[key]) else Failure(KeyError(key))
    case _ => Failure(TypeError)
  }

  /** The getter idiom `if key in data: return data[key]` followed by `return default`. */
  function GetOr(data: Json, key: string, default: Json): (r: Result<Json>)
    ensures data.JObj? ==> r == Success(if key in data.fields then data.fields[key] else default)
    ensures !data.JObj? ==> (r.Success? <==> Contains(data, key) == Success(false))
    ensures r.Success? && !data.JObj? ==> r.value == default
  {
    match Contains(data, key)
    case Failure(e) => Failure(e)
    case Success(present) => if present then Index(data, key) else Success(default)
  }

  /** Python's `value[0]` on a decoded JSON value: the first element of a list, the
      first character of a string. */
  function First(value: Json): (r: Result<Json>)
    ensures value.JArr? && |value.items| > 0 ==> r == Success(value.items[0])
    ensures value.JArr? && |value.items| == 0 ==> r == Failure(IndexError)
    ensures r.Success? ==> value.JArr? || value.JStr?
  {
    match value
    case JArr(xs) => if |xs| > 0 then Success(xs[0]) else Failure(IndexError)
    case JStr(s) => if |s| > 0 then Success(JStr([s[0]])) else Failure(IndexError)
    case JObj(_) => Failure(KeyError("0"))
    case _ => Failure(TypeError)
  }
}
