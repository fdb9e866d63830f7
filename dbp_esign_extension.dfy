/**
 * The bundle's container extension: it appends the entity directory to the
 * API resource directories, appends the API paths to hide (the verification
 * paths only when verification is not enabled), and stores the bundle's
 * merged configuration.
 */
module DbpEsignExtension {
  import opened Wrappers

  /** A container parameter: a list of strings, a nested configuration array, or a single string. */
  datatype ParameterValue =
    | StringList(items: seq<string>)
    | Structure(entries: map<string, ParameterValue>)
    | Scalar(text: string)

  /** The dependency-injection container, seen through its parameter table. */
  class ContainerBuilder {
    var parameters: map<string, ParameterValue>

    constructor (parameters: map<string, ParameterValue>)
      ensures this.parameters == parameters
    {
      this.parameters := parameters;
    }

    function HasParameter(name: string): bool
      reads this
    {
      name in parameters
    }

    function GetParameter(name: string): ParameterValue
      reads this
      requires HasParameter(name)
    {
      parameters[name]
    }

    method SetParameter(name: string, value: ParameterValue)
      modifies this
      ensures parameters == old(parameters)[name := value]
    {
      parameters := parameters[name := value];
    }
  }

  const RESOURCE_CLASS_DIRECTORIES := "api_platform.resource_class_directories"
  const PATHS_TO_HIDE := "dbp_api.paths_to_hide"
  const ESIGN_CONFIG := "dbp_api.esign.config"

  const SIGNING_PATHS: seq<string> := [
    "/advancedly_signed_documents/{id}",
    "/advancedly_signed_documents",
    "/qualified_signing_requests/{id}",
    "/qualified_signing_requests"]

  const VERIFICATION_PATHS: seq<string> := [
    "/electronic_signature_verification_reports",
    "/electronic_signature_verification_reports/create",
    "/electronic_signature_verification_reports/{id}",
    "/electronic_signatures/{id}"]

  /** A parameter that is absent or holds a list, so that it can be extended. */
  predicate Extensible(parameters: map<string, ParameterValue>, name: string)
  {
    name !in parameters || parameters[name].StringList?
  }

  /** The list a parameter holds, an absent parameter counting as an empty list. */
  function ListOf(parameters: map<string, ParameterValue>, name: string): seq<string>
    requires Extensible(parameters, name)
  {
    if name in parameters then parameters[name].items else []
  }

  /** extendArrayParameter: the parameter becomes its old list followed by `values`; nothing else changes. */
  method ExtendArrayParameter(container: ContainerBuilder, parameter: string, values: seq<string>)
    requires Extensible(container.parameters, parameter)
    modifies container
    ensures container.parameters.Keys == old(container.parameters).Keys + {parameter}
    ensures container.parameters[parameter] == StringList(ListOf(old(container.parameters), parameter) + values)
    ensures forall name :: name in old(container.parameters) && name != parameter ==>
              container.parameters[name] == old(container.parameters)[name]
  {
    if !container.HasParameter(parameter) {
      container.SetParameter(parameter, StringList([]));
    }
    var oldValues := container.GetParameter(parameter);
    container.SetParameter(parameter, StringList(oldValues.items + values));
  }

  /** The paths hidden from the published API for a value of PDF_AS_VERIFICATION_ENABLE (None: unset). */
  function PathsToHide(verificationEnable: Option<string>): (paths: seq<string>)
    ensures forall p :: p in paths <==> p in SIGNING_PATHS || (p in VERIFICATION_PATHS && verificationEnable != Some("true"))
  {
    SIGNING_PATHS + if verificationEnable != Some("true") then VERIFICATION_PATHS else []
  }

  /**
   * loadInternal. `entityDirectory` is the bundle's Entity directory and
   * `verificationEnable` the environment's PDF_AS_VERIFICATION_ENABLE.
   */
  method LoadInternal(mergedConfig: ParameterValue, container: ContainerBuilder, entityDirectory: string,
                      verificationEnable: Option<string>)
    requires Extensible(container.parameters, RESOURCE_CLASS_DIRECTORIES)
    requires Extensible(container.parameters, PATHS_TO_HIDE)
    modifies container
    ensures container.parameters.Keys ==
            old(container.parameters).Keys + {RESOURCE_CLASS_DIRECTORIES, PATHS_TO_HIDE, ESIGN_CONFIG}
    ensures container.parameters[RESOURCE_CLASS_DIRECTORIES] ==
            StringList(ListOf(old(container.parameters), RESOURCE_CLASS_DIRECTORIES) + [entityDirectory])
    ensures container.parameters[PATHS_TO_HIDE] ==
            StringList(ListOf(old(container.parameters), PATHS_TO_HIDE) + PathsToHide(verificationEnable))
    ensures container.parameters[ESIGN_CONFIG] == mergedConfig
    ensures forall name :: name in old(container.parameters) &&
                           name != RESOURCE_CLASS_DIRECTORIES && name != PATHS_TO_HIDE && name != ESIGN_CONFIG ==>
              container.parameters[name] == old(container.parameters)[name]
  {
    ExtendArrayParameter(container, RESOURCE_CLASS_DIRECTORIES, [entityDirectory]);

    var pathsToHide := SIGNING_PATHS;
    if verificationEnable != Some("true") {
      pathsToHide := pathsToHide + VERIFICATION_PATHS;
    }
    ExtendArrayParameter(container, PATHS_TO_HIDE, pathsToHide);

    container.SetParameter(ESIGN_CONFIG, mergedConfig);
  }

  /** The signing paths are always hidden; the verification paths exactly when the flag is not the string "true". */
  lemma HiddenPaths(verificationEnable: Option<string>)
    ensures forall p :: p in SIGNING_PATHS ==> p in PathsToHide(verificationEnable)
    ensures forall p :: p in VERIFICATION_PATHS ==> (p in PathsToHide(verificationEnable) <==> verificationEnable != Some("true"))
    ensures |PathsToHide(verificationEnable)| == if verificationEnable == Some("true") then 4 else 8
  {
  }
}
