/** The table of extract.py (EXTRACTIONS) and what the dispatch does with
    the single-file entries whose suffix decides the banner. */
module ExtractionTable {
  import opened Extraction

  /** The entries, one constant each: source, destination, transform and
      credited upstream path, as the script lists them. */
  const AuditorAgent := Extraction("adk-samples/agents/llm-auditor/llm_auditor/agent.py",
    ".starter-kit/templates/simple_agent/agent.py",
    MakeConfigurable, "google/adk-samples/agents/llm-auditor/")
  const AuditorPrompt := Extraction("adk-samples/agents/llm-auditor/llm_auditor/prompt.py",
    ".starter-kit/templates/simple_agent/prompt.py",
    MakeConfigurable, "google/adk-samples/agents/llm-auditor/")
  const AuditorPyproject := Extraction("adk-samples/agents/llm-auditor/pyproject.toml",
    ".starter-kit/templates/simple_agent/pyproject.toml.template",
    TemplatizePyproject, "google/adk-samples/agents/llm-auditor/")
  const AuditorReadme := Extraction("adk-samples/agents/llm-auditor/README.md",
    ".starter-kit/templates/simple_agent/README.md.template",
    TemplatizeReadme, "google/adk-samples/agents/llm-auditor/")
  const AuditorEnv := Extraction("adk-samples/agents/llm-auditor/.env.example",
    ".starter-kit/templates/simple_agent/.env.example",
    EnvConfigurable, "google/adk-samples/agents/llm-auditor/")
  const CriticAgent := Extraction("adk-samples/agents/llm-auditor/llm_auditor/sub_agents/critic/agent.py",
    ".starter-kit/templates/multi_agent/sub_agents/critic/agent.py",
    MakeConfigurable, "google/adk-samples/agents/llm-auditor/sub_agents/")
  const ReviserAgent := Extraction("adk-samples/agents/llm-auditor/llm_auditor/sub_agents/reviser/agent.py",
    ".starter-kit/templates/multi_agent/sub_agents/reviser/agent.py",
    MakeConfigurable, "google/adk-samples/agents/llm-auditor/sub_agents/")
  const RagAgent := Extraction("adk-samples/agents/RAG/rag/agent.py",
    ".starter-kit/templates/rag_agent/agent.py",
    MakeConfigurable, "google/adk-samples/agents/RAG/")
  const RagTools := Extraction("adk-samples/agents/RAG/rag/tools/",
    ".starter-kit/templates/rag_agent/tools/",
    CopyDirectory, "google/adk-samples/agents/RAG/tools/")
  const ServiceAgent := Extraction("adk-samples/agents/customer-service/customer_service/agent.py",
    ".starter-kit/templates/tool_agent/agent.py",
    MakeConfigurable, "google/adk-samples/agents/customer-service/")
  const ServiceTools := Extraction("adk-samples/agents/customer-service/customer_service/tools.py",
    ".starter-kit/templates/tool_agent/tools.py",
    MakeConfigurable, "google/adk-samples/agents/customer-service/")
  const TestMatchers := Extraction("adk-python/tests/matchers.py",
    "tests/core/matchers.py",
    OtherTransform("add_attribution_only"), "google/adk-python/tests/")
  const TestFixtures := Extraction("adk-python/tests/fixtures.py",
    "tests/core/fixtures.py",
    OtherTransform("add_attribution_only"), "google/adk-python/tests/")
  const StarterTerraform := Extraction("agent-starter-pack/agents/adk_base/deployment/terraform/",
    "deployment/terraform/",
    CopyTerraform, "GoogleCloudPlatform/agent-starter-pack/deployment/")
  const StarterCi := Extraction("agent-starter-pack/agents/adk_base/deployment/ci/",
    "deployment/ci/",
    CopyDirectory, "GoogleCloudPlatform/agent-starter-pack/deployment/")
  const StarterMakefile := Extraction("agent-starter-pack/agents/adk_base/Makefile",
    "Makefile.template",
    TemplatizeMakefile, "GoogleCloudPlatform/agent-starter-pack/")

  /** The table, in the order the script walks it. */
  const Extractions: seq<Extraction> := [
    AuditorAgent, AuditorPrompt, AuditorPyproject, AuditorReadme,
    AuditorEnv, CriticAgent, ReviserAgent, RagAgent,
    RagTools, ServiceAgent, ServiceTools, TestMatchers,
    TestFixtures, StarterTerraform, StarterCi, StarterMakefile
  ]

  /** Every entry of the table names a transform the dispatch knows, except
      the two test helpers, whose `add_attribution_only` takes the
      unrecognised-name path on purpose. */
  lemma TableTransforms()
    ensures |Extractions| == 16
    ensures forall i :: 0 <= i < |Extractions| ==>
      (Extractions[i].transform.OtherTransform? <==> i == 11 || i == 12)
    ensures Extractions[11].transform == Extractions[12].transform == OtherTransform("add_attribution_only")
  {
  }

  /** The entries looked at one by one sit where the script lists them. */
  lemma TablePositions()
    ensures Extractions[3] == AuditorReadme && Extractions[4] == AuditorEnv
    ensures Extractions[11] == TestMatchers && Extractions[15] == StarterMakefile
  {
  }
}

/** What the dispatch of extract.py does with four single-file entries of
    the table, whose source suffixes pick three different banners. */
module ExtractionEntries {
  import opened Wrappers
  import opened Extraction
  import opened ExtractionTable

  // ---------------------------------------------------------------------
  // Suffixes of table paths

  /** The source paths of those entries, cut into directory, stem and
      extension. */
  lemma EnvExampleSource()
    ensures AuditorEnv.source == "adk-samples/agents/llm-auditor/" + (".env" + ".example")
  {
  }

  lemma MakefileSource()
    ensures StarterMakefile.source == "agent-starter-pack/agents/adk_base/" + "Makefile"
  {
  }

  lemma MatchersSource()
    ensures TestMatchers.source == "adk-python/tests/" + ("matchers" + ".py")
  {
  }

  lemma ReadmeSource()
    ensures AuditorReadme.source == "adk-samples/agents/llm-auditor/" + ("README" + ".md")
  {
  }

  /** A leading dot is not a suffix: only the last extension counts. */
  lemma EnvExampleSuffix()
    ensures PathSuffix(AuditorEnv.source) == ".example"
  {
    EnvExampleSource();
    PathSuffixOfJoin("adk-samples/agents/llm-auditor/", ".env", ".example");
  }

  /** No dot, no suffix. */
  lemma MakefileSuffix()
    ensures PathSuffix(StarterMakefile.source) == ""
  {
    MakefileSource();
    PathSuffixOfPlainName("agent-starter-pack/agents/adk_base/", "Makefile");
  }

  lemma MatchersSuffix()
    ensures PathSuffix(TestMatchers.source) == ".py"
  {
    MatchersSource();
    PathSuffixOfJoin("adk-python/tests/", "matchers", ".py");
  }

  lemma ReadmeSuffix()
    ensures PathSuffix(AuditorReadme.source) == ".md"
  {
    ReadmeSource();
    PathSuffixOfJoin("adk-samples/agents/llm-auditor/", "README", ".md");
  }

  // ---------------------------------------------------------------------
  // Entries

  /** The comment style each of those entries gets from its source suffix. */
  lemma EnvExampleStyle()
    ensures CommentStyleOf(PathSuffix(AuditorEnv.source)) == NoComments
  {
    EnvExampleSuffix();
  }

  lemma MakefileStyle()
    ensures CommentStyleOf(PathSuffix(StarterMakefile.source)) == NoComments
  {
    MakefileSuffix();
  }

  lemma ReadmeStyle()
    ensures CommentStyleOf(PathSuffix(AuditorReadme.source)) == HtmlComments
  {
    ReadmeSuffix();
  }

  lemma MatchersStyle()
    ensures CommentStyleOf(PathSuffix(TestMatchers.source)) == HashComments
  {
    MatchersSuffix();
  }

  /** The `.env.example` entry: its suffix is `.example`, so it gets the
      configuration header and no banner. */
  lemma EnvExampleEntry(content: string, rx: Rewrites)
    ensures ProcessExtraction(AuditorEnv, Some(content), rx)
            == WriteText(AuditorEnv.dest, EnvHeader + content)
  {
    EnvExampleStyle();
    SingleFileWithoutBanner(AuditorEnv, content, rx);
  }

  /** The Makefile entry: no suffix, so the rewritten text gets no banner. */
  lemma MakefileEntry(content: string, rx: Rewrites)
    ensures ProcessExtraction(StarterMakefile, Some(content), rx)
            == WriteText(StarterMakefile.dest, rx.templatizeMakefile(content))
  {
    MakefileStyle();
    assert StarterMakefile.transform == TemplatizeMakefile;
    SingleFileWithoutBanner(StarterMakefile, content, rx);
  }

  /** The README entry is rewritten and then gets the HTML banner. */
  lemma ReadmeEntry(content: string, rx: Rewrites)
    ensures ProcessExtraction(AuditorReadme, Some(content), rx)
            == WriteText(AuditorReadme.dest, Banner(HtmlComments, AuditorReadme.attribution) + rx.templatizeReadme(content))
  {
    ReadmeStyle();
    assert AuditorReadme.transform == TemplatizeReadme;
    TransformThenAttribute(AuditorReadme, content, rx);
  }

  /** The test helpers are copied as they are, under a `#` banner. */
  lemma TestHelperEntry(content: string, rx: Rewrites)
    ensures ProcessExtraction(TestMatchers, Some(content), rx)
            == WriteText(TestMatchers.dest, Banner(HashComments, TestMatchers.attribution) + content)
  {
    MatchersStyle();
    TransformThenAttribute(TestMatchers, content, rx);
  }
}
