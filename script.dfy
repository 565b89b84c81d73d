/** The script's entry point (`execute` in src/index.ts) and its two steps,
    over an in-memory stand-in for the host's files and a network whose
    answer to each URL is given. */
module Script {
  import opened Wrappers
  import opened Url
  import opened Retrieval
  import opened Description

  /** The network. `respond` fixes the outcome of a request to each URL; the
      ghost `requests` records every URL requested, in order. */
  class Network {
    const respond: string -> FetchOutcome
    ghost var requests: seq<string>

    constructor (respond: string -> FetchOutcome)
      ensures this.respond == respond && requests == []
    {
      this.respond := respond;
      requests := [];
    }

    /** `await fetch(url, { method: 'GET', … })`. */
    method Fetch(url: string) returns (outcome: FetchOutcome)
      modifies this
      ensures outcome == respond(url)
      ensures requests == old(requests) + [url]
    {
      outcome := respond(url);
      requests := requests + [url];
    }
  }

  /** The host's files: the text held at each path, and, as ghost state,
      every write made, in order. */
  class FileStore {
    var files: map<string, string>
    ghost var writes: seq<(string, string)>

    constructor (files: map<string, string>)
      ensures this.files == files && writes == []
    {
      this.files := files;
      writes := [];
    }
  }

  /** The handle `context.getFile(path)` returns. */
  class OutputFile {
    const path: string
    const store: FileStore

    constructor (path: string, store: FileStore)
      ensures this.path == path && this.store == store
    {
      this.path := path;
      this.store := store;
    }

    /** `await outputFile.write(data)`: the file at `path` holds `data`
        afterwards, whatever it held before; no other file changes. */
    method Write(data: string)
      modifies store
      ensures store.files == old(store.files)[path := data]
      ensures store.writes == old(store.writes) + [(path, data)]
    {
      store.files := store.files[path := data];
      store.writes := store.writes + [(path, data)];
    }
  }

  /** The host's context: the parameter values and the file access. */
  class Context {
    const parameters: map<string, string>
    const store: FileStore

    constructor (parameters: map<string, string>, store: FileStore)
      ensures this.parameters == parameters && this.store == store
    {
      this.parameters := parameters;
      this.store := store;
    }

    method GetFile(path: string) returns (file: OutputFile)
      ensures fresh(file) && file.path == path && file.store == store
    {
      file := new OutputFile(path, store);
    }
  }

  /** The parameter ids `execute` reads. */
  const ExecuteParameterIds := {ConnectorId, EndpointId, TargetPathId}

  /** Every parameter `execute` reads has a value. */
  predicate ParametersPresent(parameters: map<string, string>) {
    ConnectorId in parameters && EndpointId in parameters && TargetPathId in parameters
  }

  /** `getSalesforceData(url)`: one request to `url`, then the value or error
      that `Retrieve` gives for its outcome. */
  method GetSalesforceData(network: Network, url: string) returns (r: Result<string>)
    modifies network
    ensures network.requests == old(network.requests) + [url]
    ensures r == Retrieve(network.respond(url))
  {
    var outcome := network.Fetch(url);
    match outcome {
      case NetworkError(reason) =>
        r := Failure(Wrap(reason));
      case Responded(response) =>
        if !IsOkStatus(response.status) {
          var thrown := ErrorString(NonOkMessage(response));
          r := Failure(Wrap(thrown));
        } else {
          match response.text {
            case Read(text) =>
              r := Success(text);
            case ReadFailed(reason) =>
              r := Failure(Wrap(reason));
          }
        }
    }
  }

  /** `saveDataToFile(context, data, path)`: one write of `data` to `path`. */
  method SaveDataToFile(context: Context, data: string, path: string)
    modifies context.store
    ensures context.store.files == old(context.store.files)[path := data]
    ensures context.store.writes == old(context.store.writes) + [(path, data)]
  {
    var outputFile := context.GetFile(path);
    outputFile.Write(data);
  }

  /** `execute(context)`: exactly one request, to the URL `PrepareUrl` builds
      from the connector host and the endpoint path; then, only if the fetch
      step succeeds, exactly one write, of the body text unchanged, to the
      target path. On failure the fetch step's error is passed on and no file
      is written. */
  method Execute(context: Context, network: Network) returns (r: Outcome)
    requires ParametersPresent(context.parameters)
    modifies context.store, network
    ensures var url := PrepareUrl(context.parameters[ConnectorId], context.parameters[EndpointId]);
            network.requests == old(network.requests) + [url] &&
            match Retrieve(network.respond(url))
            case Success(data) =>
              && r == Pass
              && context.store.files == old(context.store.files)[context.parameters[TargetPathId] := data]
              && context.store.writes == old(context.store.writes) + [(context.parameters[TargetPathId], data)]
            case Failure(error) =>
              && r == Fail(error)
              && context.store.files == old(context.store.files)
              && context.store.writes == old(context.store.writes)
  {
    var url := PrepareUrl(context.parameters[ConnectorId], context.parameters[EndpointId]);
    var data := GetSalesforceData(network, url);
    match data {
      case Failure(error) =>
        r := Fail(error);
      case Success(text) =>
        SaveDataToFile(context, text, context.parameters[TargetPathId]);
        r := Pass;
    }
  }

  /** The description declares exactly the parameters `execute` reads, all of
      them required; so a host that supplies every required parameter meets
      `Execute`'s precondition. */
  lemma {:induction false} DescriptionCoversExecute(parameters: map<string, string>)
    requires forall p :: p in GetDescription().input && p.required ==> p.id in parameters
    ensures (set p | p in GetDescription().input :: p.id) == ExecuteParameterIds
    ensures ParametersPresent(parameters)
  {
    var input := GetDescription().input;
    assert Ids(input) == [ConnectorId, EndpointId, TargetPathId];
    assert input[0].id == ConnectorId && input[1].id == EndpointId && input[2].id == TargetPathId;
    assert input[0] in input && input[1] in input && input[2] in input;
    forall p | p in input ensures p.id in ExecuteParameterIds {
      var i :| 0 <= i < |input| && input[i] == p;
    }
  }

  /** With the declared default endpoint, the request goes to the host
      followed by `services/data/v54.0/sobjects/`. */
  lemma DefaultEndpointUrl(host: string)
    ensures PrepareUrl(host, DefaultEndpoint) == host + "services/data/v54.0/sobjects/"
  {
    assert DefaultEndpoint[1..] == "services/data/v54.0/sobjects/";
  }
}
