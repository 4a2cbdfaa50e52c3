/**
 * The Ollama client's configuration and its check that the models the program needs are
 * installed (`NewOllamaClient`, `CheckModelsAvailable` and `generateInstallCommands` in
 * pkg/embedding/ollama.go). The request to the service's model listing is an oracle: the
 * check receives its outcome as a `Listing` value.
 */
module ModelCheck {
  import opened Wrappers
  import opened Text

  const DefaultBaseUrl: string := "http://localhost:11434"
  const DefaultEmbeddingModel: string := "nomic-embed-text"

  /** The model the summaries are requested from; it must be installed too. */
  const SummaryModel: string := "qwen3:0.6b"

  /** A listed name with this tag also counts as the name without it. */
  const LatestTag: string := ":latest"

  const PullPrefix: string := "ollama pull "

  datatype OllamaClient = OllamaClient(baseUrl: string, model: string)

  /** `NewOllamaClient`: an empty address or model name falls back to the default. */
  function NewOllamaClient(baseUrl: string, model: string): (c: OllamaClient)
    ensures c.baseUrl != [] && c.model != []
    ensures baseUrl != [] ==> c.baseUrl == baseUrl
    ensures model != [] ==> c.model == model
    ensures baseUrl == [] ==> c.baseUrl == DefaultBaseUrl
    ensures model == [] ==> c.model == DefaultEmbeddingModel
  {
    OllamaClient(if baseUrl == [] then DefaultBaseUrl else baseUrl,
                 if model == [] then DefaultEmbeddingModel else model)
  }

  /** What the request for the installed models came back with. */
  datatype Listing =
    | RequestFailed(cause: string)   // the GET itself failed
    | DecodeFailed(cause: string)    // the reply was not a model list
    | Listed(names: seq<string>)

  datatype CheckError =
    | CheckFailed(cause: string)
    | ParseFailed(cause: string)
    | MissingModels(missing: seq<string>, commands: string)

  /** The models the program needs, in the order they are reported. */
  function RequiredModels(c: OllamaClient): seq<string>
  {
    [c.model, SummaryModel]
  }

  /** `name` is listed exactly or with the `:latest` tag. */
  predicate Installed(names: seq<string>, name: string)
  {
    exists k :: 0 <= k < |names| && ListedAs(names[k], name)
  }

  predicate ListedAs(listed: string, name: string)
  {
    listed == name || listed == name + LatestTag
  }

  /** The required names that are not installed, in their original order (repeats kept). */
  function Missing(names: seq<string>, required: seq<string>): (r: seq<string>)
    ensures |r| <= |required|
  {
    if required == [] then []
    else
      var last := required[|required| - 1];
      Missing(names, required[..|required| - 1]) + (if Installed(names, last) then [] else [last])
  }

  /** A name is missing exactly when it is required and not installed. */
  lemma {:induction false} MissingIff(names: seq<string>, required: seq<string>, name: string)
    ensures name in Missing(names, required) <==> name in required && !Installed(names, name)
  {
    if required != [] {
      var front := required[..|required| - 1];
      MissingIff(names, front, name);
      assert required == front + [required[|required| - 1]];
    }
  }

  /** Nothing is missing exactly when every required name is installed. */
  lemma {:induction false} NothingMissingIff(names: seq<string>, required: seq<string>)
    ensures Missing(names, required) == [] <==>
      forall k :: 0 <= k < |required| ==> Installed(names, required[k])
  {
    if Missing(names, required) != [] {
      var m := Missing(names, required)[0];
      MissingIff(names, required, m);
    } else {
      forall k | 0 <= k < |required| ensures Installed(names, required[k]) {
        MissingIff(names, required, required[k]);
      }
    }
  }

  /** Removing the `:latest` tag from a name that has it gives `key` exactly when the name is
      `key` with the tag. */
  lemma {:induction false} TagRemovalIff(listed: string, key: string)
    ensures (HasSuffix(listed, LatestTag) && TrimSuffix(listed, LatestTag) == key)
            <==> listed == key + LatestTag
  {
    if listed == key + LatestTag {
      assert listed[|listed| - |LatestTag|..] == LatestTag;
    }
  }

  /** The keys the first `i` listed names put in the lookup table. */
  predicate Registered(names: seq<string>, i: nat, key: string)
    requires i <= |names|
  {
    exists k :: 0 <= k < i && ListedAs(names[k], key)
  }

  /** The lookup-table loop: every listed name is entered, and a `:latest` name is entered
      without its tag as well. */
  method BuildModelMap(names: seq<string>) returns (modelMap: map<string, bool>)
    ensures forall key :: key in modelMap <==> Installed(names, key)
    ensures forall key :: key in modelMap ==> modelMap[key]
  {
    modelMap := map[];
    var i := 0;
    while i < |names|
      invariant 0 <= i <= |names|
      invariant forall key :: key in modelMap <==> Registered(names, i, key)
      invariant forall key :: key in modelMap ==> modelMap[key]
    {
      var name := names[i];
      modelMap := modelMap[name := true];
      if HasSuffix(name, LatestTag) {
        var baseName := TrimSuffix(name, LatestTag);
        modelMap := modelMap[baseName := true];
        TagRemovalIff(name, baseName);
      }
      forall key ensures key in modelMap <==> Registered(names, i + 1, key) {
        TagRemovalIff(name, key);
        if Registered(names, i + 1, key) && !Registered(names, i, key) {
          assert ListedAs(names[i], key);
        }
      }
      i := i + 1;
    }
  }

  /** The lines of the install hint: one `ollama pull` command per model. */
  function PullCommands(models: seq<string>): (r: seq<string>)
    ensures |r| == |models|
    ensures forall k :: 0 <= k < |models| ==> r[k] == PullPrefix + models[k]
  {
    seq(|models|, k requires 0 <= k < |models| => PullPrefix + models[k])
  }

  /** `generateInstallCommands`: the pull commands joined by newlines. */
  method GenerateInstallCommands(models: seq<string>) returns (text: string)
    ensures text == Join(PullCommands(models), "\n")
  {
    var commands: seq<string> := [];
    var i := 0;
    while i < |models|
      invariant 0 <= i <= |models|
      invariant commands == PullCommands(models[..i])
    {
      commands := commands + [PullPrefix + models[i]];
      i := i + 1;
    }
    assert models[..i] == models;
    text := Join(commands, "\n");
  }

  /** When no model name holds a newline, the hint splits back into exactly one
      `ollama pull <model>` line per model, in order. */
  lemma {:induction false} InstallCommandsLines(models: seq<string>)
    requires |models| > 0
    requires forall k :: 0 <= k < |models| ==> '\n' !in models[k]
    ensures SplitLines(Join(PullCommands(models), "\n")) == PullCommands(models)
  {
    var lines := PullCommands(models);
    forall k | 0 <= k < |lines| ensures '\n' !in lines[k] {
      assert lines[k] == PullPrefix + models[k];
    }
    SplitLinesOfJoin(lines);
  }

  /** `CheckModelsAvailable` once the model listing is in: a failed request or an unreadable
      reply is reported as such; otherwise the check fails exactly when some required model
      is missing, and then names the missing ones in order with their install commands. */
  method CheckModelsAvailable(c: OllamaClient, listing: Listing) returns (r: Outcome<CheckError>)
    ensures listing.RequestFailed? ==> r == Fail(CheckFailed(listing.cause))
    ensures listing.DecodeFailed? ==> r == Fail(ParseFailed(listing.cause))
    ensures listing.Listed? ==>
      var missing := Missing(listing.names, RequiredModels(c));
      (r.Pass? <==> missing == []) &&
      (missing != [] ==> r == Fail(MissingModels(missing, Join(PullCommands(missing), "\n"))))
  {
    if listing.RequestFailed? {
      return Fail(CheckFailed(listing.cause));
    }
    if listing.DecodeFailed? {
      return Fail(ParseFailed(listing.cause));
    }
    var modelMap := BuildModelMap(listing.names);
    var requiredModels := RequiredModels(c);
    var missingModels: seq<string> := [];
    var i := 0;
    while i < |requiredModels|
      invariant 0 <= i <= |requiredModels|
      invariant missingModels == Missing(listing.names, requiredModels[..i])
    {
      var required := requiredModels[i];
      assert requiredModels[..i + 1][..i] == requiredModels[..i];
      if !(required in modelMap && modelMap[required]) {
        missingModels := missingModels + [required];
      }
      i := i + 1;
    }
    assert requiredModels[..i] == requiredModels;
    if |missingModels| > 0 {
      var commands := GenerateInstallCommands(missingModels);
      return Fail(MissingModels(missingModels, commands));
    }
    return Pass;
  }

  /** The check passes exactly when both the configured model and the summary model are
      installed (listed as such or with `:latest`). */
  lemma {:induction false} CheckPassesIff(c: OllamaClient, names: seq<string>)
    ensures Missing(names, RequiredModels(c)) == [] <==>
      Installed(names, c.model) && Installed(names, SummaryModel)
  {
    NothingMissingIff(names, RequiredModels(c));
  }
}
