/**
 * The outside world the client talks to: the token file on disk and the
 * network. Both are oracles: the file holds whatever was last written, and
 * the network replays a scripted list of replies while logging every request.
 *
 * `World` is the pure value of both; the classes hold the same state as
 * fields that their methods update in place.
 */
module Env {
  import opened Wrappers
  import opened Model

  /** What token.json holds: a token record, or bytes that do not parse as one. */
  datatype TokenFile = Saved(token: Token) | Unparseable

  /** The network's answer to one request: a response, or a transport failure. */
  datatype Reply = Answer(response: Response) | Down

  /**
   * The file (None when absent), whether writing it succeeds, the replies the
   * network will give, and the requests it has received so far.
   */
  datatype World = World(file: Option<TokenFile>, writable: bool, script: seq<Reply>, log: seq<Request>)

  /** `os.ReadFile("token.json")` followed by `json.Unmarshal` into a token. */
  function Load(file: Option<TokenFile>): (r: Result<Token, Error>)
    ensures r.Ok? <==> file.Some? && file.value.Saved?
    ensures r.Ok? ==> r.value == file.value.token
    ensures file.None? ==> r == Err(TokenFileMissing)
    ensures file == Some(Unparseable) ==> r == Err(TokenFileCorrupt)
  {
    match file
    case None => Err(TokenFileMissing)
    case Some(Unparseable) => Err(TokenFileCorrupt)
    case Some(Saved(t)) => Ok(t)
  }

  /** One HTTP round trip: the request is logged and the next scripted reply consumed. */
  function Send(w: World, req: Request): (out: (Result<Response, Error>, World))
    ensures out.1.file == w.file && out.1.writable == w.writable
    ensures out.1.log == w.log + [req]
    ensures out.0.Ok? ==> w.script != [] && w.script[0] == Answer(out.0.value)
    ensures out.0.Err? ==> out.0.error == Transport
    ensures out.1.script == if w.script == [] then [] else w.script[1..]
    ensures w.script != [] && w.script[0].Answer? ==> out.0 == Ok(w.script[0].response)
  {
    if w.script == [] then (Err(Transport), w.(log := w.log + [req]))
    else
      var rest := w.(script := w.script[1..], log := w.log + [req]);
      match w.script[0]
      case Answer(resp) => (Ok(resp), rest)
      case Down => (Err(Transport), rest)
  }

  /** `os.WriteFile("token.json", ...)` of a token: on success the file holds it, on failure nothing changes. */
  function Save(w: World, t: Token): (out: (Outcome<Error>, World))
    ensures out.0.Pass? <==> w.writable
    ensures out.0.Fail? ==> out == (Fail(WriteFailed), w)
    ensures out.0.Pass? ==> out.1 == w.(file := Some(Saved(t))) && Load(out.1.file) == Ok(t)
  {
    if w.writable then (Pass, w.(file := Some(Saved(t)))) else (Fail(WriteFailed), w)
  }

  /** The token file. */
  class TokenStore {
    var file: Option<TokenFile>
    var writable: bool

    constructor (file: Option<TokenFile>, writable: bool)
      ensures this.file == file && this.writable == writable
    {
      this.file := file;
      this.writable := writable;
    }

    method Read() returns (r: Result<Token, Error>)
      ensures r == Load(file)
    {
      match file
      case None => r := Err(TokenFileMissing);
      case Some(Unparseable) => r := Err(TokenFileCorrupt);
      case Some(Saved(t)) => r := Ok(t);
    }

    method Write(t: Token) returns (o: Outcome<Error>)
      modifies this`file
      ensures o.Pass? <==> writable
      ensures file == if writable then Some(Saved(t)) else old(file)
      ensures o.Fail? ==> o.error == WriteFailed
    {
      if writable {
        file := Some(Saved(t));
        o := Pass;
      } else {
        o := Fail(WriteFailed);
      }
    }
  }

  /** The network: replays `script` in order and logs every request it is sent. */
  class Net {
    var script: seq<Reply>
    var log: seq<Request>

    constructor (script: seq<Reply>)
      ensures this.script == script && log == []
    {
      this.script := script;
      log := [];
    }

    method Do(req: Request) returns (r: Result<Response, Error>)
      modifies this
      ensures log == old(log) + [req]
      ensures script == if old(script) == [] then [] else old(script)[1..]
      ensures r == if old(script) == [] || old(script)[0].Down? then Err(Transport) else Ok(old(script)[0].response)
    {
      log := log + [req];
      if script == [] {
        r := Err(Transport);
      } else {
        var reply := script[0];
        script := script[1..];
        match reply
        case Answer(resp) => r := Ok(resp);
        case Down => r := Err(Transport);
      }
    }
  }

  /** The world as the two objects hold it. */
  ghost function WorldOf(store: TokenStore, net: Net): World
    reads store, net
  {
    World(store.file, store.writable, net.script, net.log)
  }
}
