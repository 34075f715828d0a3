/** The OpenRouter model catalogue (src/api/models.py): three constant
    tables, their merge, and the lookups over them. Prices are floats and
    are not part of this model. */
module Models {
  import opened Wrappers

  /** What a catalogue entry records besides its prices. Only the
      transcription entries list languages. */
  datatype ModelInfo = ModelInfo(name: string, description: string, languages: Option<seq<string>>)

  const TranscriptionModels: map<string, ModelInfo> := map[
    "groq/whisper-large-v3" := ModelInfo("Whisper Large V3 (Groq)", "Rápido e preciso, melhor custo-benefício",
      Some(["pt", "en", "es", "fr", "de", "it", "ja", "ko", "zh"])),
    "groq/whisper-large-v3-turbo" := ModelInfo("Whisper Large V3 Turbo (Groq)", "Versão mais rápida do Whisper",
      Some(["pt", "en", "es", "fr", "de", "it", "ja", "ko", "zh"])),
    "groq/distil-whisper-large-v3-en" := ModelInfo("Distil Whisper (Groq)", "Mais barato, apenas inglês", Some(["en"]))
  ]

  const VisionModels: map<string, ModelInfo> := map[
    "google/gemini-2.0-flash-lite-001" := ModelInfo("Gemini 2.0 Flash Lite", "Mais barato, bom para OCR e análise básica", None),
    "google/gemini-2.0-flash-001" := ModelInfo("Gemini 2.0 Flash", "Balanceado entre custo e qualidade", None),
    "google/gemini-2.5-flash-lite" := ModelInfo("Gemini 2.5 Flash Lite", "Versão mais recente, melhor qualidade", None),
    "openai/gpt-4o-mini" := ModelInfo("GPT-4o Mini", "Boa qualidade, custo moderado", None)
  ]

  const TextModels: map<string, ModelInfo> := map[
    "openai/gpt-4o-mini" := ModelInfo("GPT-4o Mini", "Melhor custo-benefício para resumos", None),
    "openai/gpt-4o" := ModelInfo("GPT-4o", "Alta qualidade, custo maior", None),
    "anthropic/claude-3.5-haiku" := ModelInfo("Claude 3.5 Haiku", "Rápido e eficiente", None),
    "google/gemini-2.0-flash-lite-001" := ModelInfo("Gemini 2.0 Flash Lite", "Mais barato disponível", None)
  ]

  /** `{**a, **b, **c}`: later tables override earlier ones. */
  function Merge3<V>(a: map<string, V>, b: map<string, V>, c: map<string, V>): map<string, V> {
    a + b + c
  }

  /** Each key of the merge takes its value from the last table holding it,
      and the merge holds exactly the keys of the three tables. */
  lemma Merge3Precedence<V>(a: map<string, V>, b: map<string, V>, c: map<string, V>, id: string)
    ensures id in Merge3(a, b, c) <==> id in a || id in b || id in c
    ensures id in c ==> Merge3(a, b, c)[id] == c[id]
    ensures id !in c && id in b ==> Merge3(a, b, c)[id] == b[id]
    ensures id !in c && id !in b && id in a ==> Merge3(a, b, c)[id] == a[id]
  {
  }

  /** `get_model_info(model_id)` */
  function GetModelInfo(id: string): Option<ModelInfo> {
    var all := Merge3(TranscriptionModels, VisionModels, TextModels);
    if id in all then Some(all[id]) else None
  }

  /** The text table overrides the vision table, which overrides the
      transcription table; an id in none of them gives `None`. */
  lemma GetModelInfoPrecedence(id: string)
    ensures GetModelInfo(id) ==
      if id in TextModels then Some(TextModels[id])
      else if id in VisionModels then Some(VisionModels[id])
      else if id in TranscriptionModels then Some(TranscriptionModels[id])
      else None
  {
    Merge3Precedence(TranscriptionModels, VisionModels, TextModels, id);
  }

  /** The id listed both as a vision and as a text model reports the text
      entry. */
  lemma SharedIdReportsText()
    ensures "openai/gpt-4o-mini" in VisionModels && "openai/gpt-4o-mini" in TextModels
    ensures GetModelInfo("openai/gpt-4o-mini") == Some(ModelInfo("GPT-4o Mini", "Melhor custo-benefício para resumos", None))
  {
    GetModelInfoPrecedence("openai/gpt-4o-mini");
  }

  /** `list_models_by_type(model_type)` */
  function ListModelsByType(modelType: string): map<string, ModelInfo> {
    if modelType == "transcription" then TranscriptionModels
    else if modelType == "vision" then VisionModels
    else if modelType == "text" then TextModels
    else map[]
  }

  /** An id has catalogue information exactly when one of the three typed
      listings contains it, and any other type name lists nothing. */
  lemma CatalogueCoversTypes(id: string, other: string)
    requires other != "transcription" && other != "vision" && other != "text"
    ensures GetModelInfo(id).Some? <==>
      id in ListModelsByType("transcription") || id in ListModelsByType("vision") || id in ListModelsByType("text")
    ensures ListModelsByType(other) == map[]
  {
    GetModelInfoPrecedence(id);
  }
}
