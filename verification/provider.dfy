/** Embedding provider selection and the template LLM
    (apps/server/internal/ai/provider/embedding.go and template.go). A
    provider factory is named by what it builds; the registry maps
    normalised provider names to factories. */
module Providers {
  import opened Wrappers
  import opened Text

  // ---------------------------------------------------------------------
  // Registry (embedding.go)

  datatype Config = Config(provider: string, endpoint: string, apiKey: string, model: string, dim: int, timeoutMs: int)

  /** The factories the server links in. */
  datatype Factory = NewFake | NewOpenAI | NewTemplate | Other(name: string)

  /** A provider: the factory that built it and the configuration it was
      built from. */
  datatype Provider = Provider(factory: Factory, cfg: Config)

  /** A registry key: the trimmed, lower-cased name. */
  function KeyOf(name: string): string {
    Lower(TrimSpace(name))
  }

  /** The registry after registering `factory` (None for a nil factory)
      under `name`. */
  function Registered(m: map<string, Factory>, name: string, factory: Option<Factory>): map<string, Factory> {
    if KeyOf(name) == "" || factory.None? then m else m[KeyOf(name) := factory.value]
  }

  /** Every key is non-empty and already lower-cased. */
  predicate NormalKeys(m: map<string, Factory>) {
    forall k :: k in m ==> k != "" && Lower(k) == k
  }

  /** The provider NewProvider builds: a blank name means "fake"; a
      registered name uses its factory; anything else falls back to the
      fake provider. */
  function ProviderFor(m: map<string, Factory>, cfg: Config): (p: Provider)
    ensures p.cfg == cfg
    ensures KeyOf(cfg.provider) != "" && KeyOf(cfg.provider) in m ==> p.factory == m[KeyOf(cfg.provider)]
    ensures KeyOf(cfg.provider) == "" ==> p.factory == (if "fake" in m then m["fake"] else NewFake)
    ensures p.factory == NewFake || p.factory in m.Values
  {
    var name := if KeyOf(cfg.provider) == "" then "fake" else KeyOf(cfg.provider);
    if name in m then Provider(m[name], cfg) else Provider(NewFake, cfg)
  }

  /** The package's registry, filled by RegisterProvider. */
  class ProviderRegistry {
    var factories: map<string, Factory>

    constructor ()
      ensures factories == map[]
    {
      factories := map[];
    }

    /** RegisterProvider: the key is the trimmed, lower-cased name; an
        empty key or a nil factory is ignored; registering a key again
        replaces its factory. */
    method RegisterProvider(name: string, factory: Option<Factory>)
      modifies this
      ensures factories == Registered(old(factories), name, factory)
      ensures NormalKeys(old(factories)) ==> NormalKeys(factories)
    {
      var key := Lower(TrimSpace(name));
      if key == "" || factory.None? {
        return;
      }
      LowerIdempotent(TrimSpace(name));
      factories := factories[key := factory.value];
    }

    /** NewProvider. */
    method NewProvider(cfg: Config) returns (p: Provider)
      ensures p == ProviderFor(factories, cfg)
    {
      var name := Lower(TrimSpace(cfg.provider));
      if name == "" {
        name := "fake";
      }
      if name in factories {
        return Provider(factories[name], cfg);
      }
      return Provider(NewFake, cfg);
    }

    /** The registrations of the package's init functions (fake.go,
        openai.go, deepseek.go, template.go). */
    method RegisterBuiltins()
      modifies this
      ensures factories == old(factories)["fake" := NewFake]["openai" := NewOpenAI]["http" := NewOpenAI]
                                         ["deepseek" := NewOpenAI]["template" := NewTemplate]
    {
      BuiltinKeys();
      RegisterProvider("fake", Some(NewFake));
      RegisterProvider("openai", Some(NewOpenAI));
      RegisterProvider("http", Some(NewOpenAI));
      RegisterProvider("deepseek", Some(NewOpenAI));
      RegisterProvider("template", Some(NewTemplate));
    }
  }

  /** The built-in names are their own keys. */
  lemma BuiltinKeys()
    ensures KeyOf("fake") == "fake" && KeyOf("openai") == "openai" && KeyOf("http") == "http"
    ensures KeyOf("deepseek") == "deepseek" && KeyOf("template") == "template"
  {
    TrimSpaceUntouched("fake");
    TrimSpaceUntouched("openai");
    TrimSpaceUntouched("http");
    TrimSpaceUntouched("deepseek");
    TrimSpaceUntouched("template");
  }

  /** Registering a name and then building a provider whose configured
      name has the same key uses the registered factory; registering a key
      twice keeps only the second factory. */
  lemma RegisterThenBuild(m: map<string, Factory>, name: string, f: Factory, g: Factory, cfg: Config)
    requires KeyOf(name) != "" && KeyOf(cfg.provider) == KeyOf(name)
    ensures ProviderFor(Registered(m, name, Some(f)), cfg) == Provider(f, cfg)
    ensures Registered(Registered(m, name, Some(f)), name, Some(g)) == Registered(m, name, Some(g))
  {
  }

  /** A name whose key is not registered, and is not blank, falls back to
      the fake provider; so does a blank name when "fake" is not
      registered. */
  lemma UnregisteredFallsBack(m: map<string, Factory>, cfg: Config)
    requires KeyOf(cfg.provider) !in m
    requires KeyOf(cfg.provider) == "" ==> "fake" !in m
    ensures ProviderFor(m, cfg) == Provider(NewFake, cfg)
  {
  }

  /** Ignored registrations change nothing. */
  lemma IgnoredRegistration(m: map<string, Factory>, name: string, factory: Option<Factory>)
    requires KeyOf(name) == "" || factory.None?
    ensures Registered(m, name, factory) == m
  {
  }

  // ---------------------------------------------------------------------
  // Template embeddings (template.go)

  /** Embed of the template provider: one vector per input, in order, each
      the deterministic embedding of its text. `draw(text, i)` stands for
      the i-th value of the generator seeded from the text's digest; a
      non-positive dimension gives empty vectors. */
  function TemplateEmbed(inputs: seq<string>, dim: int, draw: (string, nat) -> real): (out: seq<seq<real>>)
    ensures |out| == |inputs|
    ensures forall i :: 0 <= i < |out| ==> |out[i]| == (if dim <= 0 then 0 else dim)
    ensures forall i, j :: 0 <= i < |out| && 0 <= j < |out| && inputs[i] == inputs[j] ==> out[i] == out[j]
  {
    seq(|inputs|, i requires 0 <= i < |inputs| => DeterministicEmbedding(inputs[i], dim, draw))
  }

  function DeterministicEmbedding(text: string, dim: int, draw: (string, nat) -> real): (v: seq<real>)
    ensures |v| == (if dim <= 0 then 0 else dim)
    ensures forall i :: 0 <= i < |v| ==> v[i] == draw(text, i)
  {
    if dim <= 0 then [] else seq(dim, i requires 0 <= i => draw(text, i))
  }

  // ---------------------------------------------------------------------
  // Template LLM (template.go)

  /** The usage counters of an LLM answer; the template provider reports
      zero usage. */
  datatype LlmUsage = LlmUsage(promptTokens: int, completionTokens: int, totalTokens: int)

  const ZeroUsage := LlmUsage(0, 0, 0)

  datatype LlmResponse = LlmResponse(text: string, usage: LlmUsage)

  const TemplatePrefix := "RAG response (template): "
  const NoInput := "No input provided."
  const TemplateModel := "template-llm-v1"
  const TemplateLimit := 180

  /** truncateText of the provider package: the text unchanged when the
      limit is not positive or the text fits, otherwise its first `limit`
      characters and "..."; nothing is trimmed. */
  function TruncateText(text: string, limit: int): (r: string)
    ensures limit <= 0 || |text| <= limit ==> r == text
    ensures limit > 0 && |text| > limit ==> |r| == limit + 3 && HasPrefix(r, text[..limit]) && HasSuffix(r, "...")
    ensures limit > 0 ==> |r| <= limit + 3
  {
    if limit <= 0 || |text| <= limit then text else text[..limit] + "..."
  }

  /** Truncating twice with the same limit is truncating once. */
  lemma TruncateIdempotent(text: string, limit: int)
    ensures TruncateText(TruncateText(text, limit), limit) == TruncateText(text, limit)
  {
    if limit > 0 && |text| > limit {
      var r := TruncateText(text, limit);
      assert r[..limit] == text[..limit];
    }
  }

  /** Generate of the template LLM: the trimmed prompt (or a fixed text for
      a blank prompt), truncated to 180 characters, after a fixed prefix,
      with zero usage. It never fails. */
  function TemplateGenerate(prompt: string): (r: LlmResponse)
    ensures r.usage == ZeroUsage
    ensures HasPrefix(r.text, TemplatePrefix)
    ensures |r.text| <= |TemplatePrefix| + TemplateLimit + 3
    ensures TrimSpace(prompt) == "" ==> r.text == TemplatePrefix + NoInput
    ensures TrimSpace(prompt) != "" && |TrimSpace(prompt)| <= TemplateLimit ==> r.text == TemplatePrefix + TrimSpace(prompt)
  {
    var text := if TrimSpace(prompt) == "" then NoInput else TrimSpace(prompt);
    LlmResponse(TemplatePrefix + TruncateText(text, TemplateLimit), ZeroUsage)
  }

  /** The template reply is never blank. */
  lemma TemplateReplyNotBlank(prompt: string)
    ensures TrimSpace(TemplateGenerate(prompt).text) != ""
  {
    var t := TemplateGenerate(prompt).text;
    assert t[0] == 'R';
    TrimSpaceEmpty(t);
  }

  /** The model of a template LLM built with the configured name: the
      trimmed name, or the default when that is blank. */
  function TemplateModelName(configured: string): (m: string)
    ensures TrimSpace(configured) != "" ==> m == TrimSpace(configured)
    ensures TrimSpace(configured) == "" ==> m == TemplateModel
    ensures m != "" && TrimSpace(m) == m
  {
    var model := TrimSpace(configured);
    TrimSpaceIdempotent(configured);
    TrimSpaceUntouched(TemplateModel);
    if model == "" then TemplateModel else model
  }
}
