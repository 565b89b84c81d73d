/** The static description the host platform reads before running the script
    (`getDescription` in src/index.ts): which parameters it takes. */
module Description {
  import opened Wrappers

  datatype ParamType = Connector | String | OutputResource

  datatype Param = Param(
    id: string,
    displayName: string,
    description: string,
    paramType: ParamType,
    defaultValue: Option<string>,
    required: bool)

  datatype ScriptDescription = ScriptDescription(
    description: string,
    icon: string,
    input: seq<Param>,
    output: seq<Param>)

  const ConnectorId := "salesforceConnector"
  const EndpointId := "salesforceEndpointUrl"
  const TargetPathId := "targetDataPath"
  const DefaultEndpoint := "/services/data/v54.0/sobjects/"

  /** The ids of a parameter list, in order. */
  function Ids(params: seq<Param>): (ids: seq<string>)
    ensures |ids| == |params|
    ensures forall i :: 0 <= i < |params| ==> ids[i] == params[i].id
  {
    seq(|params|, i requires 0 <= i < |params| => params[i].id)
  }

  /** The description: three inputs, in this order: the connector holding the
      Salesforce host, the endpoint path (with a default) and the output file;
      every one required; no outputs. */
  function GetDescription(): (d: ScriptDescription)
    ensures Ids(d.input) == [ConnectorId, EndpointId, TargetPathId]
    ensures forall p :: p in d.input ==> p.required && p.displayName == p.id
    ensures forall p :: p in d.input ==> (p.defaultValue.Some? <==> p.id == EndpointId)
    ensures forall p :: p in d.input && p.id == EndpointId ==> p.defaultValue == Some(DefaultEndpoint) && p.paramType == String
    ensures forall p :: p in d.input && p.id == ConnectorId ==> p.paramType == Connector
    ensures forall p :: p in d.input && p.id == TargetPathId ==> p.paramType == OutputResource
    ensures d.output == []
  {
    ScriptDescription(
      "Evolve script for integration with Salesforce.com. Fetches an arbitrary set of data (JSON format) using the Salesforce.com APIs.",
      "script",
      [ Param(ConnectorId, ConnectorId,
              "The Evolve connector (web endpoint) configured with the Salesforce instance's host URL.",
              Connector, None, true),
        Param(EndpointId, EndpointId,
              "The Salesforce API endpoint URL.",
              String, Some(DefaultEndpoint), true),
        Param(TargetPathId, TargetPathId,
              "The output file to write the data retrieved (JSON) in.",
              OutputResource, None, true) ],
      [])
  }
}
