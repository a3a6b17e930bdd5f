/** load_test/parse_args.py: after argparse, the three backend flags are
    checked for conflicts and turned into a `client_type`; every other field
    is passed through. */
module LoadTestArgs {
  import opened Values
  import LoadTestClient

  /** What argparse produced (flags default to False). */
  datatype RawArgs = RawArgs(
    endpoint: string,
    apiKey: string,
    model: string,
    tiktoken: string,
    concurrencyLevel: int,
    duration: Option<string>,
    maxTokens: Option<int>,
    azureOpenai: bool,
    apiVersion: string,
    openai: bool,
    custom: bool)

  /** The `CommandLineArgs` named tuple. */
  datatype CommandLineArgs = CommandLineArgs(
    endpoint: string,
    apiKey: string,
    model: string,
    tiktoken: string,
    concurrencyLevel: int,
    duration: Option<string>,
    maxTokens: Option<int>,
    clientType: string,
    apiVersion: string)

  const FlagConflict: string := "Only one of --azure-openai, --openai, or --custom can be set at a time"

  function Count(b: bool): nat {
    if b then 1 else 0
  }

  /** The conflict test and the if/elif choice of `client_type`. */
  function SelectClientType(azureOpenai: bool, openai: bool, custom: bool): (r: Result<string>)
    ensures r.Err? <==> Count(azureOpenai) + Count(openai) + Count(custom) >= 2
    ensures r.Err? ==> r.error == ValueError(FlagConflict)
    ensures r.Ok? ==> (r.value == "openai" <==> openai)
    ensures r.Ok? ==> (r.value == "custom" <==> custom)
    ensures r.Ok? ==> (r.value == "azure" <==> !openai && !custom)
  {
    if (azureOpenai && openai) || (azureOpenai && custom) || (openai && custom) then Err(ValueError(FlagConflict))
    else if openai then Ok("openai")
    else if custom then Ok("custom")
    else Ok("azure")
  }

  /** `parse()` after `parser.parse_args()`. */
  function Parse(a: RawArgs): (r: Result<CommandLineArgs>)
    ensures r.Err? <==> SelectClientType(a.azureOpenai, a.openai, a.custom).Err?
    ensures r.Ok? ==> r.value.clientType == SelectClientType(a.azureOpenai, a.openai, a.custom).value
  {
    match SelectClientType(a.azureOpenai, a.openai, a.custom)
    case Err(e) => Err(e)
    case Ok(clientType) =>
      Ok(CommandLineArgs(a.endpoint, a.apiKey, a.model, a.tiktoken, a.concurrencyLevel,
        a.duration, a.maxTokens, clientType, a.apiVersion))
  }

  /** Every field but the client type is copied unchanged. */
  lemma ParseCopies(a: RawArgs)
    requires Parse(a).Ok?
    ensures var c := Parse(a).value;
      && c.endpoint == a.endpoint && c.apiKey == a.apiKey && c.model == a.model
      && c.tiktoken == a.tiktoken && c.concurrencyLevel == a.concurrencyLevel
      && c.duration == a.duration && c.maxTokens == a.maxTokens && c.apiVersion == a.apiVersion
  {
  }

  /** No flag, or only `--azure-openai`, selects the Azure client. */
  lemma DefaultIsAzure()
    ensures SelectClientType(false, false, false) == Ok("azure")
    ensures SelectClientType(true, false, false) == Ok("azure")
    ensures SelectClientType(false, true, false) == Ok("openai")
    ensures SelectClientType(false, false, true) == Ok("custom")
  {
  }

  /** A client type the parser selects is one the client accepts, as long as
      the encoding is known and, for "custom", the custom handler exists. */
  lemma SelectedTypeAccepted(a: RawArgs, knownEncodings: set<string>, customAvailable: bool)
    requires Parse(a).Ok? && a.tiktoken in knownEncodings
    requires a.custom ==> customAvailable
    ensures LoadTestClient.Configure(Parse(a).value.clientType, Parse(a).value.tiktoken, knownEncodings, customAvailable).Ok?
  {
  }
}
