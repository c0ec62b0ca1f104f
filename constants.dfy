/** The static data of constants.ts: the two UI string tables, the ten-entry
    style catalog and the model identifier, with the lookup by id the rest of
    the front end performs on the catalog. */
module Constants {
  import opened Types
  import Text

  // Each subtitle is written as three concatenated pieces so that the lemma
  // SubtitleCountsCatalog can find the count it quotes.

  /** One language's table of TRANSLATIONS: one text per interface key. */
  datatype UiStrings = UiStrings(
    title: string,
    subtitle: string,
    selectStyles: string,
    selected: string,
    inputTitle: string,
    promptLabel: string,
    promptPlaceholder: string,
    imageLabel: string,
    uploadText: string,
    generate: string,
    generating: string,
    galleryTitle: string,
    download: string,
    errorApiKey: string,
    errorGeneric: string,
    noPrompt: string,
    noStyle: string,
    poweredBy: string)

  /** The `en` table of TRANSLATIONS. */
  const EN_TRANSLATIONS: UiStrings := UiStrings(
    title := "2025 Poster Design Trends",
    subtitle := "Explore " + "10" + " avant-garde aesthetics. Powered by Nano Banana Pro.",
    selectStyles := "Select Styles",
    selected := "selected",
    inputTitle := "Input",
    promptLabel := "Describe your vision",
    promptPlaceholder := "E.g., A cybernetic cat sitting on a neon throne...",
    imageLabel := "Reference Image (Optional)",
    uploadText := "Click, drag & drop, or paste (Ctrl+V)",
    generate := "Generate",
    generating := "Generating...",
    galleryTitle := "Your Creations",
    download := "Download",
    errorApiKey := "Failed to generate images. Please check your API key and try again.",
    errorGeneric := "An unexpected error occurred.",
    noPrompt := "Please enter a prompt to continue.",
    noStyle := "Select at least one style.",
    poweredBy := "Powered by Gemini 2.5 Flash Image"
  )

  /** The `zh` table of TRANSLATIONS. */
  const ZH_TRANSLATIONS: UiStrings := UiStrings(
    title := "2025 先锋海报设计趋势",
    subtitle := "探索" + "10" + "种未来视觉美学。由 Nano Banana Pro 驱动。",
    selectStyles := "选择风格",
    selected := "已选",
    inputTitle := "输入",
    promptLabel := "描述您的愿景",
    promptPlaceholder := "例如：一只坐在霓虹王座上的赛博朋克猫...",
    imageLabel := "参考图片（可选）",
    uploadText := "点击、拖拽或直接粘贴图片 (Ctrl+V)",
    generate := "生成",
    generating := "生成中...",
    galleryTitle := "您的作品",
    download := "下载",
    errorApiKey := "生成图片失败。请检查您的 API 密钥并重试。",
    errorGeneric := "发生了意外错误。",
    noPrompt := "请输入提示词以继续。",
    noStyle := "请至少选择一种风格。",
    poweredBy := "由 Gemini 2.5 Flash Image 驱动"
  )

  /** The style catalog, in display order. */
  const STYLES: seq<StyleProfile> := [
    StyleProfile(
      id := "neo-song",
      name := "Neo-Song Aesthetics",
      name_zh := "新宋式极简美学",
      description := "Minimalist, negative space, archaic elegance, low saturation.",
      description_zh := "极简，留白，古朴雅致，低饱和度高级灰。",
      previewColor := "#7D929F",
      promptInstruction := "Style: Neo-Song Aesthetics (新宋式极简美学). \n    Core Philosophy: Minimalist, negative space (reserving white space), archaic elegance, serenity.\n    Visuals: Low saturation 'advanced gray' tones (Ru Kiln Blue, Rice Paper White, Ink Black). \n    Typography: Thin Serif/Song Ti, vertical layout. \n    Texture: Rice paper texture, ink wash blur, slight noise. \n    Composition: Asymmetrical balance. \n    Mood: Quiet, elegant, scholarly.",
      icon := "🍵"),
    StyleProfile(
      id := "avant-garde-guochao",
      name := "Avant-Garde Guochao",
      name_zh := "先锋国潮",
      description := "Cyber-traditional, neon meets ink, psychedelic, fluid.",
      description_zh := "赛博紫与水墨的碰撞，迷幻流体，故障艺术。",
      previewColor := "#B026FF",
      promptInstruction := "Style: Avant-Garde Guochao (先锋国潮).\n    Core Philosophy: Collision of traditional Chinese ink/porcelain with future tech/glitch art.\n    Visuals: Cyber Purple, Neon Pink, Holographic Blue against Midnight Black.\n    Elements: Fluidity, mesh gradients, luminous glow, digital glitches mixed with traditional patterns.\n    Mood: Psychedelic, conflicting, deja vu, high impact.",
      icon := "🔮"),
    StyleProfile(
      id := "playful-guochao",
      name := "Playful Guochao Pop",
      name_zh := "趣味国潮波普",
      description := "Historical figures with modern items, flat vector, humorous.",
      description_zh := "古人玩转现代科技，扁平矢量插画，反差萌。",
      previewColor := "#FFD700",
      promptInstruction := "Style: Playful Guochao Pop Fusion (趣味国潮).\n    Core Concept: Anachronistic collage. Ancient figures (emperors, scholars) using modern tech (laptops, sunglasses).\n    Visuals: Flat faux-traditional vector illustration with thick lines.\n    Colors: Low saturation background (beige) with high saturation accents (pop red, fluorescent).\n    Mood: Humorous, playful, absurd, relatable.",
      icon := "🕶️"),
    StyleProfile(
      id := "diffusion-dream",
      name := "Diffusion Dream",
      name_zh := "浮光幻梦",
      description := "Frosted glass, gradients, grainy noise, hazy, pastel.",
      description_zh := "磨砂玻璃质感，柔和渐变，胶片噪点，朦胧诗意。",
      previewColor := "#FFB7B2",
      promptInstruction := "Style: Diffusion Gradient & Grainy Dream (浮光幻梦).\n    Core Concept: Out of focus, fluid, atmospheric, frosted glass effect.\n    Visuals: Gaussian blur, gradient mesh, high-key dreamy pastels (pink, blue, mint).\n    Texture: Essential heavy film grain/noise overlay.\n    Mood: Hazy, poetic, fluid, healing, soft.",
      icon := "🌫️"),
    StyleProfile(
      id := "dopamine-brights",
      name := "Dopamine Brights",
      name_zh := "多巴胺高亮风",
      description := "High saturation, collage, Y2K, maximalist, joyful.",
      description_zh := "高饱和度彩虹色，拼贴艺术，Y2K，快乐张扬。",
      previewColor := "#00FF00",
      promptInstruction := "Style: Dopamine Brights / Gen Z Maximalism.\n    Core Concept: Visual vitamin. High saturation, acid pop.\n    Visuals: Rainbow palette (Gen Z Yellow, Klein Blue, Barbie Pink). \n    Elements: Collage art, stickers, Memphis shapes, emojis. \n    Layout: Chaotic, overlapping, breaking the grid.\n    Mood: Energetic, joyful, expressive, loud.",
      icon := "🌈"),
    StyleProfile(
      id := "deconstructed",
      name := "Deconstructed Layout",
      name_zh := "现代解构排版",
      description := "Broken grid, typography heavy, brutalist, experimental.",
      description_zh := "打破网格，文字为主，粗野主义，实验性设计。",
      previewColor := "#1A1A1A",
      promptInstruction := "Style: Modern Experimental Deconstructed Layout.\n    Core Concept: Order within disorder. Typography as the main visual element.\n    Visuals: Oversized headlines, mixed fonts (Serif vs Sans), utilitarian UI elements (barcodes, timestamps).\n    Composition: Overlapping text and images, cropped edges, chaotic but balanced.\n    Colors: High contrast (Black/White + Neon) or Morandi.\n    Mood: Avant-garde, free, artsy.",
      icon := "📐"),
    StyleProfile(
      id := "soft-3d",
      name := "Soft 3D / Clay",
      name_zh := "软萌3D / 粘土风",
      description := "Claymorphism, inflated shapes, soft lighting, cute.",
      description_zh := "粘土拟物，膨胀形状，柔光渲染，Q弹治愈。",
      previewColor := "#FF99CC",
      promptInstruction := "Style: 3D Hyper-Tactile & Material Pop (Soft 3D).\n    Core Concept: Tactile empathy, claymorphism, inflated art.\n    Visuals: Materials like matte clay, glossy balloon/plastic, felt/fur.\n    Shapes: Rounded, chubby, no sharp edges.\n    Lighting: Soft studio global illumination, occlusion.\n    Colors: Candy pastels, bright warm tones.\n    Mood: Healing, cute, playful, warm.",
      icon := "🎈"),
    StyleProfile(
      id := "acid-collage",
      name := "Acid Collage",
      name_zh := "酸性波普拼贴",
      description := "Receipts, stickers, high contrast, industrial, chaotic.",
      description_zh := "生活碎片，贴纸感，高对比度，有序混乱的工业风。",
      previewColor := "#CCFF00",
      promptInstruction := "Style: Playful Acid Collage / Gen Z Scrapbook.\n    Core Concept: Organized chaos, everyday symbols (receipts, warnings).\n    Visuals: Sticker art look with white strokes, pixel icons, Windows 95 UI elements.\n    Colors: High contrast, acid neon accents (Hot Pink, Caution Yellow) on neutral backgrounds.\n    Mood: Trendy, rebellious, deconstructed.",
      icon := "🧾"),
    StyleProfile(
      id := "y3k",
      name := "Y3K Future",
      name_zh := "Y3K 未来美学",
      description := "Liquid metal, silver, bio-tech, ethereal, AI surrealism.",
      description_zh := "液态金属，生化科技，空灵，AI超现实主义。",
      previewColor := "#C0C0C0",
      promptInstruction := "Style: Y3K (Year 3000 Aesthetics).\n    Core Concept: Fluid organic forms meet high-tech. Liquid metal.\n    Visuals: Chrome/Silver, Holographic Ice Blue, Iridescent White.\n    Texture: High-gloss liquid metal, aerogel, bionic skin.\n    Subject: Cyborgs, avatars, mutated nature, floating tech.\n    Mood: Ethereal, cold, post-human, surreal.",
      icon := "👽"),
    StyleProfile(
      id := "neo-brutalism",
      name := "Neo-Brutalism",
      name_zh := "新丑风 / 酸性设计",
      description := "Eye-straining contrast, raw, glitch, anti-design.",
      description_zh := "视觉冲击，反设计，故障艺术，高对比撞色。",
      previewColor := "#0000FF",
      promptInstruction := "Style: Neo-Brutalism & Acid Graphics.\n    Core Concept: Rebellion, anti-design, \"ugly-cool\".\n    Visuals: Eye-straining colors (Klein Blue + Green), stretched fonts, pixel art, glitch effects.\n    Composition: Decentralized, raw, unpolished.\n    Mood: Raw, playful, maverick, retro-futurist.",
      icon := "⚠️")
  ]

  /** The generation model every request is addressed to. */
  const MODEL_NAME: string := "gemini-2.5-flash-image"

  /** TRANSLATIONS[language]. */
  function Translations(lang: Language): UiStrings {
    match lang
    case En => EN_TRANSLATIONS
    case Zh => ZH_TRANSLATIONS
  }

  /** `styles.find(s => s.id === id)`: the first profile with that id, if any. */
  function FindById(styles: seq<StyleProfile>, id: string): (r: Option<StyleProfile>)
    ensures r.Some? ==> r.value in styles && r.value.id == id
    ensures r.None? <==> forall k :: 0 <= k < |styles| ==> styles[k].id != id
  {
    if |styles| == 0 then None
    else if styles[0].id == id then Some(styles[0])
    else FindById(styles[1..], id)
  }

  /** STYLES.find(s => s.id === id). */
  function FindStyle(id: string): Option<StyleProfile> {
    FindById(STYLES, id)
  }

  /** The catalog holds ten styles, as the subtitle announces. */
  lemma CatalogSize()
    ensures |STYLES| == 10
  {
  }

  /** No two catalog entries share an id. */
  lemma CatalogIdsDistinct()
    ensures forall i, j :: 0 <= i < j < |STYLES| ==> STYLES[i].id != STYLES[j].id
  {
  }

  /** Every style carries a prompt instruction. */
  lemma CatalogInstructionsNonEmpty()
    ensures forall i :: 0 <= i < |STYLES| ==> |STYLES[i].promptInstruction| > 0
  {
  }

  /** No style is displayed under the gallery's fallback label. */
  lemma CatalogNamesNotFallback()
    ensures forall i :: 0 <= i < |STYLES| ==>
      STYLES[i].name != "Unknown Style" && STYLES[i].name_zh != "Unknown Style"
  {
  }

  /** Because the ids are distinct, looking up an entry's id finds that entry. */
  lemma {:induction false} FindStyleOfEntry(i: nat)
    requires i < |STYLES|
    ensures FindStyle(STYLES[i].id) == Some(STYLES[i])
  {
    CatalogIdsDistinct();
    FindFirstWithDistinctIds(STYLES, i);
  }

  lemma {:induction false} FindFirstWithDistinctIds(styles: seq<StyleProfile>, i: nat)
    requires i < |styles|
    requires forall a, b :: 0 <= a < b < |styles| ==> styles[a].id != styles[b].id
    ensures FindById(styles, styles[i].id) == Some(styles[i])
  {
    if i > 0 {
      assert styles[0].id != styles[i].id;
      FindFirstWithDistinctIds(styles[1..], i - 1);
    }
  }

  /** Both subtitles quote the size of the catalog ("10"). */
  lemma SubtitleCountsCatalog(lang: Language)
    ensures Text.Contains(Translations(lang).subtitle, Text.NatToString(|STYLES|))
  {
    assert Text.NatToString(10) == "10";
    var pre := if lang == En then "Explore " else "探索";
    var post := if lang == En then " avant-garde aesthetics. Powered by Nano Banana Pro."
      else "种未来视觉美学。由 Nano Banana Pro 驱动。";
    assert Translations(lang).subtitle == pre + "10" + post;
    assert (pre + "10" + post)[|pre|..|pre| + 2] == "10";
    Text.ContainsAt(pre + "10" + post, "10", |pre|);
  }
}
