/**
 * model_handler.py: a model is classified by its name (GPTQ-quantised, GGML or
 * full precision), and the loader picks how to obtain the model and tokenizer
 * from that class. Loading itself is a foreign call; the model records which
 * loader is called with which arguments.
 */
module ModelHandler {
  import opened Wrappers
  import opened Strings

  /** `Model_Type`. */
  datatype ModelType = Gptq | Ggml | FullPrecision

  /** `str.lower` on one character, for ASCII letters. */
  function LowerChar(c: char): char {
    if 'A' <= c <= 'Z' then (c as int - 'A' as int + 'a' as int) as char else c
  }

  /** `str.lower`, for ASCII letters. */
  function Lower(s: string): (r: string)
    ensures |r| == |s| && forall i :: 0 <= i < |s| ==> r[i] == LowerChar(s[i])
  {
    seq(|s|, i requires 0 <= i < |s| => LowerChar(s[i]))
  }

  /** Lowercasing twice is lowercasing once. */
  lemma LowerIdempotent(s: string)
    ensures Lower(Lower(s)) == Lower(s)
  {
  }

  /** `get_model_type`: "gptq" anywhere in the lowercased name wins over "ggml"; neither means full precision. */
  function GetModelType(modelName: string): (t: ModelType)
    ensures t == Gptq <==> Occurs("gptq", Lower(modelName))
    ensures t == FullPrecision ==> !Occurs("ggml", Lower(modelName))
  {
    var name := Lower(modelName);
    if Occurs("gptq", name) then Gptq
    else if Occurs("ggml", name) then Ggml
    else FullPrecision
  }

  /** The class is decided by the two substring tests, with "gptq" taking precedence. */
  lemma ModelTypePrecedence(modelName: string)
    ensures GetModelType(modelName) == Gptq <==> Occurs("gptq", Lower(modelName))
    ensures GetModelType(modelName) == Ggml <==> !Occurs("gptq", Lower(modelName)) && Occurs("ggml", Lower(modelName))
    ensures GetModelType(modelName) == FullPrecision <==>
              !Occurs("gptq", Lower(modelName)) && !Occurs("ggml", Lower(modelName))
  {
  }

  /** Only the lowercased name matters: names that agree up to case, and a name and its lowercase form, are classified alike. */
  lemma ModelTypeIgnoresCase(a: string, b: string)
    requires Lower(a) == Lower(b)
    ensures GetModelType(a) == GetModelType(b)
    ensures GetModelType(Lower(a)) == GetModelType(a)
  {
    LowerIdempotent(a);
  }

  /** A name that mentions both formats, in capitals, is a GPTQ model. */
  lemma BothFormatsIsGptq()
    ensures GetModelType("GGML-GPTQ") == Gptq
  {
    var name := Lower("GGML-GPTQ");
    assert name == "ggml-gptq";
    OccursAt("gptq", name, 5);
  }

  /** What a loaded model is: a causal LM from a repository or a Llama model from a name or file. */
  datatype Model = CausalLM(repository: string) | Llama(path: string)

  /** `AutoTokenizer.from_pretrained(source)`. */
  datatype Tokenizer = Tokenizer(source: string)

  /** The model and tokenizer, and the folder created for a download when there was one. */
  datatype Setup = Setup(model: Model, tokenizer: Tokenizer, createdFolder: Option<string>)

  /** `initialize_gpu_model_and_tokenizer`: GPTQ loads the repository itself, anything else a Llama model with the GPT-2 tokenizer. */
  function InitializeGpuModelAndTokenizer(modelName: string, modelType: ModelType): (r: Setup)
    ensures r.createdFolder == None
  {
    if modelType == Gptq then Setup(CausalLM(modelName), Tokenizer(modelName), None)
    else Setup(Llama(modelName), Tokenizer("gpt2"), None)
  }

  /**
   * `init_auto_model_and_tokenizer`. `download(repository, file, folder)` is the
   * path `hf_hub_download` returns; `None` is the `KeyError` of a configuration
   * without "models_folder" or "default_tokenizer".
   */
  function InitAutoModelAndTokenizer(
    modelName: string, modelType: ModelType, fileName: string, config: map<string, string>,
    download: (string, string, string) -> string): (r: Option<Setup>)
    ensures r.None? <==> modelType == Ggml && ("models_folder" !in config || "default_tokenizer" !in config)
    ensures r.Some? ==> (r.value.createdFolder.Some? <==> modelType == Ggml)
  {
    if modelType == Ggml then
      if "models_folder" !in config || "default_tokenizer" !in config then None
      else
        var folder := config["models_folder"];
        Some(Setup(Llama(download(modelName, fileName, folder)), Tokenizer(config["default_tokenizer"]), Some(folder)))
    else Some(InitializeGpuModelAndTokenizer(modelName, modelType))
  }

  /**
   * The download branch is taken exactly for GGML: it creates the configured
   * folder and loads the downloaded file; every other class goes to the GPU
   * loader and never fails.
   */
  lemma LoaderBranches(
    modelName: string, modelType: ModelType, fileName: string, config: map<string, string>,
    download: (string, string, string) -> string)
    ensures var r := InitAutoModelAndTokenizer(modelName, modelType, fileName, config, download);
            (r.Some? && r.value.createdFolder.Some? <==>
               modelType == Ggml && "models_folder" in config && "default_tokenizer" in config) &&
            (r.None? <==> modelType == Ggml && ("models_folder" !in config || "default_tokenizer" !in config)) &&
            (modelType == Ggml && r.Some? ==>
               r.value.model == Llama(download(modelName, fileName, config["models_folder"])) &&
               r.value.tokenizer == Tokenizer(config["default_tokenizer"]) &&
               r.value.createdFolder == Some(config["models_folder"])) &&
            (modelType != Ggml ==> r == Some(InitializeGpuModelAndTokenizer(modelName, modelType)))
  {
  }

  /** A full-precision model is loaded as a Llama model with the GPT-2 tokenizer, not as a causal LM. */
  lemma FullPrecisionLoadsLlama(modelName: string)
    ensures InitializeGpuModelAndTokenizer(modelName, FullPrecision) == Setup(Llama(modelName), Tokenizer("gpt2"), None)
  {
  }
}
