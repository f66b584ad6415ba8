/** The static catalogue of configuration categories offered by the wizard,
    in the order the wizard walks through them. */
module Catalog {

  /** One category; `title` holds the source's `label` field, a name Dafny reserves. */
  datatype Category = Category(id: string, title: string, options: seq<string>)

  const ConfigOptions: seq<Category> := [
    Category("scaffolding", "Agent Scaffolding",
      ["LangGraph", "AutoGPT", "BabyAGI", "AgentGPT", "LangChain", "Haystack", "JARVIS", "Custom"]),
    Category("github", "GitHub Repository",
      ["Connect to GitHub"]),
    Category("model", "Language Model",
      ["GPT-4", "GPT-4-32k", "GPT-3.5-turbo", "GPT-3.5-turbo-16k",
       "Claude-3-Opus", "Claude-3-Sonnet", "Claude-3-Haiku",
       "Claude-2", "Claude-1", "Claude-Instant",
       "LLAMA-2-7B", "LLAMA-2-13B", "LLAMA-2-70B",
       "PaLM", "Cohere", "Jurassic-2",
       "Falcon-7B", "Falcon-40B", "Falcon-180B",
       "BLOOM", "GPT-NeoX", "Pythia",
       "Vicuna", "Alpaca", "Dolly",
       "Custom Open-Source Model"]),
    Category("os", "Operating System",
      ["Linux (Ubuntu)", "Linux (Debian)", "Linux (CentOS)", "Linux (Fedora)", "Windows Server",
       "Windows 10/11", "macOS", "FreeBSD", "OpenBSD"]),
    Category("hosting", "Hosting",
      ["AWS EC2", "AWS Lambda", "Google Cloud Compute Engine", "Google Cloud Functions",
       "Azure Virtual Machines", "Azure Functions", "DigitalOcean Droplets",
       "Heroku", "Netlify", "Vercel", "Cloudflare Workers",
       "IBM Cloud", "Oracle Cloud", "Linode", "Vultr",
       "Local (Docker)", "Local (Bare Metal)", "Custom VPS"]),
    Category("capabilities", "Capabilities",
      ["Web Browsing", "File I/O", "API Interaction", "Task Planning",
       "Natural Language Processing", "Image Generation", "Speech Recognition",
       "Text-to-Speech", "Data Analysis", "Machine Learning",
       "Database Management", "Email Integration", "Calendar Management",
       "Version Control", "Continuous Integration/Deployment",
       "Sentiment Analysis", "Language Translation", "Code Generation",
       "Automated Testing", "Cybersecurity Analysis"])
  ]

  /** `configOptions.length`: one wizard step per category, then the file
      step. Written out so that reasoning about steps does not have to unfold
      the catalogue; `CatalogSize` ties it to the catalogue. */
  const CategoryCount: nat := 6

  lemma CatalogSize()
    ensures |ConfigOptions| == CategoryCount
  {
  }

  /** The category ids in catalogue order. */
  function Ids(): (r: seq<string>)
    ensures |r| == CategoryCount
    ensures forall i :: 0 <= i < |r| ==> r[i] == ConfigOptions[i].id
  {
    CatalogSize();
    seq(CategoryCount, i requires 0 <= i < CategoryCount => ConfigOptions[i].id)
  }

  /** The catalogue has six categories with pairwise distinct ids and a
      non-empty option list each. */
  lemma CatalogWellFormed()
    ensures |ConfigOptions| == CategoryCount
    ensures Ids() == ["scaffolding", "github", "model", "os", "hosting", "capabilities"]
    ensures forall i, j :: 0 <= i < j < CategoryCount ==> ConfigOptions[i].id != ConfigOptions[j].id
    ensures forall i :: 0 <= i < CategoryCount ==> |ConfigOptions[i].options| > 0
  {
    var ids := Ids();
    assert ids == ["scaffolding", "github", "model", "os", "hosting", "capabilities"];
  }
}
