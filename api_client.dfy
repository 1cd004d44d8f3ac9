/** `ApiClient`: builds the request for the synthesis server's
    `/infer_single` endpoint, asks it to render a line, and downloads the
    rendered audio from the path the server reports, on the configured host. */
module ApiClient {
  import opened PyValues
  import opened Text
  import opened UrlLib

  const InferEndpoint: string := "/infer_single"

  /** The three keys `generate_audio` sets from its own parameters. */
  const CoreKeys: set<string> := {"text", "model_name", "emotion"}

  /** The URL of the first request. */
  function InferUrl(baseUrl: string): (url: string)
    ensures StartsWith(url, baseUrl) && url[|baseUrl|..] == InferEndpoint
  {
    baseUrl + InferEndpoint
  }

  /** A configured base URL with or without trailing slashes gives the same
      endpoint, because the constructor strips them. */
  lemma InferUrlIgnoresTrailingSlashes(url: string, k: nat)
    ensures InferUrl(RStrip(url + Repeat('/', k), '/')) == InferUrl(RStrip(url, '/'))
  {
    RStripIgnoresAppended(url, '/', k);
  }

  /** The request body: the defaults, overwritten by the three core fields,
      overwritten by the caller's extra keyword arguments. Python's binding of
      `**kwargs` never puts a named parameter into it. */
  function MergedPayload(defaults: map<string, Value>, text: string, modelName: Value, emotion: string,
                         kwargs: map<string, Value>): (p: map<string, Value>)
    requires kwargs.Keys !! CoreKeys
    ensures p.Keys == defaults.Keys + CoreKeys + kwargs.Keys
    ensures forall k :: k in kwargs ==> p[k] == kwargs[k]
    ensures p["text"] == Str(text) && p["model_name"] == modelName && p["emotion"] == Str(emotion)
    ensures forall k :: k in defaults && k !in CoreKeys && k !in kwargs ==> p[k] == defaults[k]
  {
    defaults + map["text" := Str(text), "model_name" := modelName, "emotion" := Str(emotion)] + kwargs
  }

  /** What the HTTP library reports for one request: an exception of the
      transport (refused connection, timeout, malformed URL), or a response with
      its status, its body decoded as JSON (`None` when it is not JSON) and its
      raw bytes. */
  datatype Reply = TransportFailure | Response(status: int, json: Option<Value>, content: Bytes)

  /** `raise_for_status` raises for client and server errors only. */
  predicate RaisesForStatus(status: int) { 400 <= status < 600 }

  /** The server, as the replies it gives to a POST of a JSON body to a URL and
      to a GET of a URL. */
  datatype Network = Network(post: (string, map<string, Value>) -> Reply, get: string -> Reply)

  /** How the first step ends: with the server's `audio_url` value, with an
      early `return None`, or with an exception that escapes `generate_audio`. */
  datatype InferResult = AudioUrl(url: Value) | NoAudioUrl | Escapes

  /** The first step as written. After a transport failure the handler reads
      the response variable, which was never bound, so `UnboundLocalError`
      escapes; a JSON body that is not an object makes `.get` raise
      `AttributeError`, which no handler catches. */
  function InferStep(reply: Reply): (r: InferResult)
    ensures r.Escapes? <==>
      reply.TransportFailure? || (!RaisesForStatus(reply.status) && reply.json.Some? && !reply.json.value.Mapping?)
    ensures r.AudioUrl? ==>
      && reply.Response? && !RaisesForStatus(reply.status)
      && reply.json.Some? && reply.json.value.Mapping? && "audio_url" in reply.json.value.entries
      && r.url == reply.json.value.entries["audio_url"] && Truthy(r.url)
  {
    match reply
    case TransportFailure => Escapes
    case Response(status, json, _) =>
      if RaisesForStatus(status) then NoAudioUrl
      else
        match json
        case None => NoAudioUrl
        case Some(Mapping(m)) =>
          if "audio_url" in m && Truthy(m["audio_url"]) then AudioUrl(m["audio_url"]) else NoAudioUrl
        case Some(_) => Escapes
  }

  /** The download URL: the path of the server's URL (its scheme, host, port,
      parameters, query and fragment dropped) joined onto the base URL. `None`
      stands for a `ValueError` from either library call. */
  function DownloadUrl(baseUrl: string, serverUrl: string): (r: Option<string>)
    ensures UrlParse(serverUrl, []).None? ==> r.None?
    ensures baseUrl == [] && UrlParse(serverUrl, []).Some? ==> r == Some(UrlParse(serverUrl, []).value.path)
  {
    match UrlParse(serverUrl, [])
    case None => None
    case Some(p) => UrlJoin(baseUrl, p.path)
  }

  /** The second step: every failure, including a non-string `audio_url`
      that the URL parser rejects, is caught and yields `None`. */
  function DownloadStep(baseUrl: string, audioUrl: Value, get: string -> Reply): (r: Option<Bytes>)
    ensures r.Some? <==>
      && audioUrl.Str? && DownloadUrl(baseUrl, audioUrl.s).Some?
      && get(DownloadUrl(baseUrl, audioUrl.s).value).Response?
      && !RaisesForStatus(get(DownloadUrl(baseUrl, audioUrl.s).value).status)
    ensures r.Some? ==> r.value == get(DownloadUrl(baseUrl, audioUrl.s).value).content
  {
    if !audioUrl.Str? then None
    else
      match DownloadUrl(baseUrl, audioUrl.s)
      case None => None
      case Some(u) =>
        match get(u)
        case TransportFailure => None
        case Response(status, _, content) => if RaisesForStatus(status) then None else Some(content)
  }

  /** `generate_audio` after the payload is built, as written: it may raise. */
  function FetchAsWritten(baseUrl: string, payload: map<string, Value>, net: Network): (r: Outcome<Option<Bytes>>)
    ensures r.Raised? <==> InferStep(net.post(InferUrl(baseUrl), payload)).Escapes?
    ensures r.Returned? ==> r.value == Fetch(baseUrl, payload, net)
  {
    match InferStep(net.post(InferUrl(baseUrl), payload))
    case Escapes => Raised
    case NoAudioUrl => Returned(None)
    case AudioUrl(u) => Returned(DownloadStep(baseUrl, u, net.get))
  }

  /** `generate_audio` after the payload is built, as its documentation
      promises: the audio bytes, or `None` on every failure. */
  function Fetch(baseUrl: string, payload: map<string, Value>, net: Network): (r: Option<Bytes>)
    ensures r.Some? ==> Delivers(baseUrl, payload, net, r.value)
    ensures !InferStep(net.post(InferUrl(baseUrl), payload)).AudioUrl? ==> r.None?
  {
    match InferStep(net.post(InferUrl(baseUrl), payload))
    case Escapes => None
    case NoAudioUrl => None
    case AudioUrl(u) => DownloadStep(baseUrl, u, net.get)
  }

  /** The successful run: the POST succeeds with a JSON object holding a
      non-empty string `audio_url`, the download URL can be formed, and the GET
      of it succeeds with `audio` as its body. */
  ghost predicate Delivers(baseUrl: string, payload: map<string, Value>, net: Network, audio: Bytes)
  {
    var reply := net.post(InferUrl(baseUrl), payload);
    && reply.Response? && !RaisesForStatus(reply.status)
    && reply.json.Some? && reply.json.value.Mapping?
    && "audio_url" in reply.json.value.entries
    && reply.json.value.entries["audio_url"].Str?
    && var serverUrl := reply.json.value.entries["audio_url"].s;
       && serverUrl != []
       && DownloadUrl(baseUrl, serverUrl).Some?
       && var got := net.get(DownloadUrl(baseUrl, serverUrl).value);
          got.Response? && !RaisesForStatus(got.status) && got.content == audio
  }

  /** The corrected client returns bytes exactly on the successful run, and
      then the bytes of the GET; every other path gives `None`. */
  lemma FetchSucceedsExactlyWhenDelivered(baseUrl: string, payload: map<string, Value>, net: Network, audio: Bytes)
    ensures Fetch(baseUrl, payload, net) == Some(audio) <==> Delivers(baseUrl, payload, net, audio)
  {
    var f := Fetch(baseUrl, payload, net);
    if f == Some(audio) {
      assert Delivers(baseUrl, payload, net, f.value);
    }
    if Delivers(baseUrl, payload, net, audio) {
      DeliveredRunFetches(baseUrl, payload, net, audio);
    }
  }

  lemma DeliveredRunFetches(baseUrl: string, payload: map<string, Value>, net: Network, audio: Bytes)
    requires Delivers(baseUrl, payload, net, audio)
    ensures Fetch(baseUrl, payload, net) == Some(audio)
  {
    var reply := net.post(InferUrl(baseUrl), payload);
    var u := reply.json.value.entries["audio_url"];
    InferStepOfAudioUrl(reply);
    FetchOfAudioUrl(baseUrl, payload, net, u);
    var d := DownloadUrl(baseUrl, u.s).value;
    DownloadStepDelivers(baseUrl, u, net.get, d, audio);
  }

  lemma InferStepOfAudioUrl(reply: Reply)
    requires reply.Response? && !RaisesForStatus(reply.status)
    requires reply.json.Some? && reply.json.value.Mapping? && "audio_url" in reply.json.value.entries
    requires reply.json.value.entries["audio_url"].Str? && reply.json.value.entries["audio_url"].s != []
    ensures InferStep(reply) == AudioUrl(reply.json.value.entries["audio_url"])
  {
  }

  lemma DownloadStepDelivers(baseUrl: string, u: Value, get: string -> Reply, d: string, audio: Bytes)
    requires u.Str? && DownloadUrl(baseUrl, u.s) == Some(d)
    requires get(d).Response? && !RaisesForStatus(get(d).status) && get(d).content == audio
    ensures DownloadStep(baseUrl, u, get) == Some(audio)
  {
  }

  lemma FetchOfAudioUrl(baseUrl: string, payload: map<string, Value>, net: Network, u: Value)
    requires InferStep(net.post(InferUrl(baseUrl), payload)) == AudioUrl(u)
    ensures Fetch(baseUrl, payload, net) == DownloadStep(baseUrl, u, net.get)
  {
  }

  lemma DownloadStepOfString(baseUrl: string, serverUrl: string, get: string -> Reply, audio: Bytes)
    ensures DownloadStep(baseUrl, Str(serverUrl), get) == Some(audio) <==>
      && DownloadUrl(baseUrl, serverUrl).Some?
      && var got := get(DownloadUrl(baseUrl, serverUrl).value);
         got.Response? && !RaisesForStatus(got.status) && got.content == audio
  {
  }

  /** The code as written raises exactly on a transport failure of the POST and
      on a successful POST whose JSON body is not an object; on every other run
      it returns what the corrected client returns. */
  lemma AsWrittenRaisesOnlyOnTwoPaths(baseUrl: string, payload: map<string, Value>, net: Network)
    ensures var reply := net.post(InferUrl(baseUrl), payload);
      FetchAsWritten(baseUrl, payload, net).Raised?
      <==> reply.TransportFailure?
           || (!RaisesForStatus(reply.status) && reply.json.Some? && !reply.json.value.Mapping?)
    ensures FetchAsWritten(baseUrl, payload, net).Returned? ==>
      FetchAsWritten(baseUrl, payload, net).value == Fetch(baseUrl, payload, net)
  {
  }

  /** A JSON object without a usable `audio_url` (absent, empty or otherwise
      falsy) ends the call with `None` before any download, in the code as
      written as well as in the corrected client. */
  lemma MissingAudioUrlGivesNone(baseUrl: string, payload: map<string, Value>, net: Network, m: map<string, Value>)
    requires net.post(InferUrl(baseUrl), payload).Response?
    requires !RaisesForStatus(net.post(InferUrl(baseUrl), payload).status)
    requires net.post(InferUrl(baseUrl), payload).json == Some(Mapping(m))
    requires "audio_url" !in m || !Truthy(m["audio_url"])
    ensures FetchAsWritten(baseUrl, payload, net) == Returned(None)
    ensures Fetch(baseUrl, payload, net) == None
  {
  }

  /** An error status of the POST ends the call with `None`, in the code as
      written as well as in the corrected client. */
  lemma ErrorStatusGivesNone(baseUrl: string, payload: map<string, Value>, net: Network)
    requires net.post(InferUrl(baseUrl), payload).Response?
    requires RaisesForStatus(net.post(InferUrl(baseUrl), payload).status)
    ensures FetchAsWritten(baseUrl, payload, net) == Returned(None)
    ensures Fetch(baseUrl, payload, net) == None
  {
  }

  /** The download URL keeps the base URL's scheme and authority and takes the
      path the server reported; the server's host, port, query and fragment and
      the base URL's own path are dropped. */
  lemma DownloadUrlUsesBaseAuthority(baseUrl: string, b: Parts, serverUrl: string, s: Parts)
    requires UrlParse(baseUrl, []) == Some(b)
    requires b.scheme != [] && b.scheme in UsesRelative && b.scheme in UsesNetloc && b.netloc != []
    requires UrlParse(serverUrl, []) == Some(s)
    requires |s.path| >= 1 && s.path[0] == '/' && !(|s.path| >= 2 && s.path[1] == '/')
    requires ';' !in s.path && NoDotSegments(Split(s.path, '/'))
    ensures DownloadUrl(baseUrl, serverUrl) == Some(b.scheme + "://" + b.netloc + s.path)
  {
    JoinAbsolutePath(baseUrl, b, s.path);
  }

  /** A reported URL without a path downloads from the base URL itself. */
  lemma DownloadUrlWithoutPath(baseUrl: string, serverUrl: string, s: Parts)
    requires UrlParse(serverUrl, []) == Some(s) && s.path == []
    ensures DownloadUrl(baseUrl, serverUrl) == Some(baseUrl)
  {
  }

  /** A reported path that starts with two slashes names a host, and that host,
      not the base URL's, is the one the download goes to. */
  lemma DownloadUrlNetworkPath(baseUrl: string, b: Parts, serverUrl: string, s: Parts, host: string, rest: string)
    requires UrlParse(baseUrl, []) == Some(b)
    requires b.scheme != [] && b.scheme in UsesRelative && b.scheme in UsesNetloc
    requires UrlParse(serverUrl, []) == Some(s) && s.path == "//" + host + rest
    requires host != [] && '/' !in host && '[' !in host && ']' !in host
    requires rest == [] || rest[0] == '/'
    requires ';' !in rest
    ensures DownloadUrl(baseUrl, serverUrl) == Some(b.scheme + "://" + host + rest)
  {
    assert '?' !in host && '#' !in host && '?' !in rest && '#' !in rest;
    JoinNetworkPath(baseUrl, b, host, rest);
    DownloadUrlIsJoin(baseUrl, serverUrl, s);
  }

  /** A server URL such as `http://0.0.0.0:8000/audio/x.wav`, with or without
      a query, downloads from the base URL's scheme and authority followed by
      the server's path: the server's scheme, host, port and query are
      dropped. */
  lemma DownloadUrlOfServerUrl(baseUrl: string, b: Parts, scheme: string, host: string, path: string, query: Option<string>)
    requires UrlParse(baseUrl, []) == Some(b)
    requires b.scheme != [] && b.scheme in UsesRelative && b.scheme in UsesNetloc && b.netloc != []
    requires ValidScheme(scheme)
    requires '/' !in host && '?' !in host && '#' !in host && '[' !in host && ']' !in host
    requires |path| >= 1 && path[0] == '/' && !(|path| >= 2 && path[1] == '/')
    requires '?' !in path && '#' !in path && ';' !in path && NoDotSegments(Split(path, '/'))
    requires query.Some? ==> '#' !in query.value
    ensures DownloadUrl(baseUrl, scheme + "://" + host + path + (if query.Some? then "?" + query.value else []))
      == Some(b.scheme + "://" + b.netloc + path)
  {
    var serverUrl := scheme + "://" + host + path + (if query.Some? then "?" + query.value else []);
    ParseWithAuthority(scheme, host, path, query);
    DownloadUrlUsesBaseAuthority(baseUrl, b, serverUrl,
      Parts(AsciiLower(scheme), host, path, [], if query.Some? then query.value else [], []));
  }

  lemma DownloadUrlIsJoin(baseUrl: string, serverUrl: string, s: Parts)
    requires UrlParse(serverUrl, []) == Some(s)
    ensures DownloadUrl(baseUrl, serverUrl) == UrlJoin(baseUrl, s.path)
  {
  }

  class Client {
    var baseUrl: string
    var defaultParams: map<string, Value>

    /** `ApiClient(base_url, default_params)`: trailing slashes stripped, a
        missing or empty default map replaced by an empty one. */
    constructor (baseUrl: string, defaultParams: Option<map<string, Value>>)
      ensures this.baseUrl == RStrip(baseUrl, '/')
      ensures this.baseUrl == [] || this.baseUrl[|this.baseUrl| - 1] != '/'
      ensures this.defaultParams == if defaultParams.Some? then defaultParams.value else map[]
    {
      this.baseUrl := RStrip(baseUrl, '/');
      this.defaultParams := if defaultParams.Some? && defaultParams.value != map[] then defaultParams.value else map[];
    }

    /** The payload, built as the source builds it: a copy of the defaults,
        updated with the core fields, then with the keyword arguments. */
    method BuildPayload(text: string, modelName: Value, emotion: string, kwargs: map<string, Value>)
      returns (payload: map<string, Value>)
      requires kwargs.Keys !! CoreKeys
      ensures payload == MergedPayload(defaultParams, text, modelName, emotion, kwargs)
    {
      payload := defaultParams;
      payload := payload + map["text" := Str(text), "model_name" := modelName, "emotion" := Str(emotion)];
      payload := payload + kwargs;
    }

    /** `generate_audio(text, model_name, emotion, **kwargs)` as written. */
    method GenerateAudioAsWritten(text: string, modelName: Value, emotion: string, kwargs: map<string, Value>, net: Network)
      returns (r: Outcome<Option<Bytes>>)
      requires kwargs.Keys !! CoreKeys
      ensures r == FetchAsWritten(baseUrl, MergedPayload(defaultParams, text, modelName, emotion, kwargs), net)
    {
      var payload := BuildPayload(text, modelName, emotion, kwargs);
      r := FetchAsWritten(baseUrl, payload, net);
    }

    /** `generate_audio` with both escaping exceptions turned into `None`. */
    method GenerateAudio(text: string, modelName: Value, emotion: string, kwargs: map<string, Value>, net: Network)
      returns (audio: Option<Bytes>)
      requires kwargs.Keys !! CoreKeys
      ensures audio == Fetch(baseUrl, MergedPayload(defaultParams, text, modelName, emotion, kwargs), net)
    {
      var payload := BuildPayload(text, modelName, emotion, kwargs);
      audio := Fetch(baseUrl, payload, net);
    }
  }
}
