/** The configuration constants the core reads: the defaults of the bot's
    settings class and its image preset tables (src/config/settings.py). */
module Config {

  /** Default number of history entries kept per chat. */
  const ContextLimitDefault: int := 20
  /** Default minimum interval between two requests of one user, in seconds. */
  const MinRequestInterval: real := 2.0
  /** Default ceiling of requests per user per rolling minute. */
  const MaxRequestsPerMinute: int := 30
  /** Default of the per-chat "analyse generated images" switch. */
  const AutoAnalyzeGeneratedImages: bool := true

  datatype Dimensions = Dimensions(width: int, height: int)

  /** Image size presets, keyed by their (lower-case) names. */
  const ImageSizePresets: map<string, Dimensions> := map[
    "square" := Dimensions(1024, 1024),
    "portrait" := Dimensions(768, 1024),
    "landscape" := Dimensions(1024, 768),
    "wide" := Dimensions(1280, 720),
    "wallpaper" := Dimensions(1920, 1080),
    "mobile" := Dimensions(1080, 1920),
    "story" := Dimensions(1080, 1920),
    "post" := Dimensions(1080, 1080)
  ]

  /** Image style presets: the text appended to a prompt for each style key. */
  const ImageStylePrompts: map<string, string> := map[
    "realism" := "photorealistic, detailed, high quality",
    "anime" := "anime style, manga style, japanese animation",
    "cartoon" := "cartoon style, animated, colorful",
    "watercolor" := "watercolor painting, soft colors, artistic",
    "fantasy" := "fantasy art, magical, mystical, enchanted",
    "retro" := "retro style, vintage, classic",
    "cyberpunk" := "cyberpunk style, neon lights, futuristic",
    "minimalism" := "minimalist style, simple, clean, elegant"
  ]
}
