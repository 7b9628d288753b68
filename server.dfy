/** The street index's file server (streetIndexConvertor/server.py): GET requests under
    /api/xlsx/ are answered from an allow-list of two spreadsheets, everything else goes to
    the static file handler, and HEAD always answers 200. A response is the sequence of calls
    the handler makes; whether a file exists is a parameter. */
module XlsxServer {
  import opened Text

  const DataDir: string := "data"
  const ApiPrefix: string := "/api/xlsx/"
  const AllowedFiles: seq<string> := ["war_time_streets_inUse.xlsx", "1938_Street_index_inUse.xlsx"]
  const Html: string := "text/html"
  const Spreadsheet: string := "application/vnd.openxmlformats-officedocument.spreadsheetml.sheet"

  /** One call on the handler. `FileBytes` writes the contents of the file at a path;
      `Static` hands the request to SimpleHTTPRequestHandler.do_GET, which is not modelled. */
  datatype Output =
    | SendResponse(code: int)
    | SendHeader(name: string, value: string)
    | EndHeaders
    | WriteText(body: string)
    | FileBytes(path: string)
    | Static(path: string)

  predicate StartsWith(s: string, prefix: string)
  {
    |prefix| <= |s| && s[..|prefix|] == prefix
  }

  /** A complete answer: status line, content type, end of headers, then the body. */
  function Answer(code: int, contentType: string, body: Output): (out: seq<Output>)
    ensures |out| == 4 && out[0] == SendResponse(code) && out[3] == body
  {
    [SendResponse(code), SendHeader("Content-type", contentType), EndHeaders, body]
  }

  /** `path[len("/api/xlsx/"):].strip("/")`. */
  function Filename(path: string): string
    requires StartsWith(path, ApiPrefix)
  {
    StripChar(path[|ApiPrefix|..], '/')
  }

  /** os.path.join(DATA_DIR, filename) for a relative filename. */
  function FilePath(filename: string): string
  {
    DataDir + "/" + filename
  }

  /** The calls of serve_xlsx for a filename; `fileExists` tells which files exist. */
  function XlsxOutputs(filename: string, fileExists: string -> bool): (out: seq<Output>)
    ensures |out| >= 3 && out[0].SendResponse? && out[2] == EndHeaders
    ensures out[0] == SendResponse(200) <==> filename in AllowedFiles && fileExists(FilePath(filename))
    ensures out[0] == SendResponse(404) <==> filename in AllowedFiles && !fileExists(FilePath(filename))
    ensures out[0] == SendResponse(403) <==> filename !in AllowedFiles
  {
    if filename in AllowedFiles then
      var filePath := FilePath(filename);
      if fileExists(filePath) then
        Answer(200, Spreadsheet, FileBytes(filePath))
      else
        Answer(404, Html, WriteText("File not found"))
    else
      Answer(403, Html, WriteText("Access denied"))
  }

  /** The calls of do_GET for a path. */
  function GetOutputs(path: string, fileExists: string -> bool): seq<Output>
  {
    if StartsWith(path, ApiPrefix) then XlsxOutputs(Filename(path), fileExists) else [Static(path)]
  }

  /** Only paths under /api/xlsx/ reach serve_xlsx; every other path is served statically. */
  lemma GetRouting(path: string, fileExists: string -> bool)
    ensures !StartsWith(path, ApiPrefix) <==> GetOutputs(path, fileExists) == [Static(path)]
    ensures StartsWith(path, ApiPrefix) ==> GetOutputs(path, fileExists)[0].SendResponse?
  {
  }

  /** A name outside the allow-list is refused whatever files exist, so no other path is
      ever joined to the data directory or read; a file is only read at data/<allowed name>. */
  lemma AllowListDecides(filename: string, fileExists: string -> bool, fileExists2: string -> bool)
    ensures filename !in AllowedFiles ==> XlsxOutputs(filename, fileExists) == XlsxOutputs(filename, fileExists2)
    ensures forall k :: 0 <= k < |XlsxOutputs(filename, fileExists)| && XlsxOutputs(filename, fileExists)[k].FileBytes? ==>
      filename in AllowedFiles && XlsxOutputs(filename, fileExists)[k].path == FilePath(filename)
  {
  }

  /** Names that climb out of the directory are never allowed: no allowed name contains '/'
      or starts with '.'. */
  lemma NoTraversal(filename: string)
    requires filename in AllowedFiles
    ensures '/' !in filename && filename != [] && filename[0] != '.'
  {
  }

  /** The leading and trailing slashes around an allowed name are ignored. */
  lemma SlashesIgnored(name: string, before: nat, after: nat)
    requires name in AllowedFiles
    ensures Filename(ApiPrefix + seq(before, _ => '/') + name + seq(after, _ => '/')) == name
  {
    var path := ApiPrefix + seq(before, _ => '/') + name + seq(after, _ => '/');
    assert path[|ApiPrefix|..] == seq(before, _ => '/') + name + seq(after, _ => '/');
    StripSlashes(name, before, after);
  }

  lemma StripSlashes(name: string, before: nat, after: nat)
    requires name != [] && name[0] != '/' && name[|name| - 1] != '/'
    ensures StripChar(seq(before, _ => '/') + name + seq(after, _ => '/'), '/') == name
  {
    StripStartSlashes(name + seq(after, _ => '/'), before);
    assert seq(before, _ => '/') + name + seq(after, _ => '/') == seq(before, _ => '/') + (name + seq(after, _ => '/'));
    StripEndSlashes(name, after);
  }

  lemma {:induction false} StripStartSlashes(s: string, n: nat)
    requires s != [] && s[0] != '/'
    ensures StripStart(seq(n, _ => '/') + s, '/') == s
  {
    if n > 0 {
      assert (seq(n, _ => '/') + s)[1..] == seq(n - 1, _ => '/') + s;
      StripStartSlashes(s, n - 1);
    } else {
      assert seq(n, _ => '/') + s == s;
    }
  }

  lemma {:induction false} StripEndSlashes(s: string, n: nat)
    requires s != [] && s[|s| - 1] != '/'
    ensures StripEnd(s + seq(n, _ => '/'), '/') == s
  {
    if n > 0 {
      assert (s + seq(n, _ => '/'))[..|s| + n - 1] == s + seq(n - 1, _ => '/');
      StripEndSlashes(s, n - 1);
    } else {
      assert s + seq(n, _ => '/') == s;
    }
  }

  /** The handler: what it has sent so far. */
  class APIHandler {
    const path: string
    var sent: seq<Output>

    constructor (path: string)
      ensures this.path == path && sent == []
    {
      this.path := path;
      sent := [];
    }

    method SendResponseCall(code: int)
      modifies this
      ensures sent == old(sent) + [SendResponse(code)]
    {
      sent := sent + [SendResponse(code)];
    }

    method SendHeaderCall(name: string, value: string)
      modifies this
      ensures sent == old(sent) + [SendHeader(name, value)]
    {
      sent := sent + [SendHeader(name, value)];
    }

    method EndHeadersCall()
      modifies this
      ensures sent == old(sent) + [EndHeaders]
    {
      sent := sent + [EndHeaders];
    }

    /** do_HEAD: always 200 with an HTML content type. */
    method DoHead()
      modifies this
      ensures sent == old(sent) + [SendResponse(200), SendHeader("Content-type", Html), EndHeaders]
    {
      Respond(200, Html);
    }

    /** do_GET: the API prefix goes to serve_xlsx, anything else to the static handler. */
    method DoGet(fileExists: string -> bool)
      modifies this
      ensures sent == old(sent) + GetOutputs(path, fileExists)
    {
      if StartsWith(path, ApiPrefix) {
        ServeXlsx(fileExists);
      } else {
        sent := sent + [Static(path)];
      }
    }

    /** serve_xlsx. */
    method ServeXlsx(fileExists: string -> bool)
      requires StartsWith(path, ApiPrefix)
      modifies this
      ensures sent == old(sent) + XlsxOutputs(Filename(path), fileExists)
    {
      var filename := Filename(path);
      if filename in AllowedFiles {
        var filePath := FilePath(filename);
        if fileExists(filePath) {
          Reply(200, Spreadsheet, FileBytes(filePath));
        } else {
          Reply(404, Html, WriteText("File not found"));
        }
      } else {
        Reply(403, Html, WriteText("Access denied"));
      }
    }

    /** The headers of an answer, then its body. */
    method Reply(code: int, contentType: string, body: Output)
      modifies this
      ensures sent == old(sent) + Answer(code, contentType, body)
    {
      Respond(code, contentType);
      sent := sent + [body];
    }

    /** The status line and the content type header. */
    method Respond(code: int, contentType: string)
      modifies this
      ensures sent == old(sent) + [SendResponse(code), SendHeader("Content-type", contentType), EndHeaders]
    {
      SendResponseCall(code);
      SendHeaderCall("Content-type", contentType);
      EndHeadersCall();
    }
  }
}
