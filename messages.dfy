/** Localized block texts and the locale fallback of the ImageClassifier2Scratch extension. */
module Messages {

  /** The locales the message table is written for, in the source's order. */
  const AVAILABLE_LOCALES: seq<string> := ["en", "ja", "ja-Hira", "zh-cn"]

  /** Every block and menu text, by message key and then by locale. */
  const MESSAGE: map<string, map<string, string>> := map[
    "when_received_block" := map[
      "ja" := "認識結果を受け取ったとき",
      "ja-Hira" := "にんしきけっかをうけとったとき",
      "en" := "when received classification results",
      "zh-cn" := "收到分类结果时"],
    "result1" := map[
      "ja" := "認識結果1",
      "ja-Hira" := "にんしきけっか1",
      "en" := "result1",
      "zh-cn" := "结果1"],
    "result2" := map[
      "ja" := "認識結果2",
      "ja-Hira" := "にんしきけっか2",
      "en" := "result2",
      "zh-cn" := "结果2"],
    "result3" := map[
      "ja" := "認識結果3",
      "ja-Hira" := "にんしきけっか3",
      "en" := "result3",
      "zh-cn" := "结果3"],
    "confidence1" := map[
      "ja" := "精度1",
      "ja-Hira" := "せいど1",
      "en" := "confidence1",
      "zh-cn" := "置信度1"],
    "confidence2" := map[
      "ja" := "精度2",
      "ja-Hira" := "せいど2",
      "en" := "confidence2",
      "zh-cn" := "置信度2"],
    "confidence3" := map[
      "ja" := "精度3",
      "ja-Hira" := "せいど3",
      "en" := "confidence3",
      "zh-cn" := "置信度3"],
    "toggle_classification" := map[
      "ja" := "画像認識を[CLASSIFICATION_STATE]にする",
      "ja-Hira" := "がぞうにんしきを[CLASSIFICATION_STATE]にする",
      "en" := "turn classification [CLASSIFICATION_STATE]",
      "zh-cn" := "[CLASSIFICATION_STATE]分类"],
    "set_classification_interval" := map[
      "ja" := "画像認識を[CLASSIFICATION_INTERVAL]秒間に1回行う",
      "ja-Hira" := "がぞうにんしきを[CLASSIFICATION_INTERVAL]びょうかんに1かいおこなう",
      "en" := "Classify once every [CLASSIFICATION_INTERVAL] seconds",
      "zh-cn" := "每隔[CLASSIFICATION_INTERVAL]秒标记一次"],
    "video_toggle" := map[
      "ja" := "ビデオを[VIDEO_STATE]にする",
      "ja-Hira" := "ビデオを[VIDEO_STATE]にする",
      "en" := "turn video [VIDEO_STATE]",
      "zh-cn" := "[VIDEO_STATE]摄像头"],
    "on" := map[
      "ja" := "入",
      "ja-Hira" := "いり",
      "en" := "on",
      "zh-cn" := "开启"],
    "off" := map[
      "ja" := "切",
      "ja-Hira" := "きり",
      "en" := "off",
      "zh-cn" := "关闭"],
    "video_on_flipped" := map[
      "ja" := "左右反転",
      "ja-Hira" := "さゆうはんてん",
      "en" := "on flipped",
      "zh-cn" := "镜像开启"]
  ]

  /** `setLocale`: the locale reported by the message formatter when the table has
      texts for it, English otherwise. The detected locale is an input here, since
      the formatter's own state is outside the model. */
  function SetLocale(detected: string): (locale: string)
    ensures locale in AVAILABLE_LOCALES
    ensures locale == detected <==> detected in AVAILABLE_LOCALES
    ensures detected !in AVAILABLE_LOCALES ==> locale == "en"
  {
    if detected in AVAILABLE_LOCALES then detected else "en"
  }

  /** Every entry of the table has a text for exactly the available locales. */
  lemma MessageTableComplete()
    ensures forall key | key in MESSAGE :: forall loc :: loc in MESSAGE[key] <==> loc in AVAILABLE_LOCALES
  {
  }

  /** The text of message `key` in `locale`, the lookup `Message[key][this.locale]`. */
  function Text(key: string, locale: string): string
    requires key in MESSAGE && locale in AVAILABLE_LOCALES
  {
    MessageTableComplete();
    MESSAGE[key][locale]
  }

  /** Looking up any message under the locale `SetLocale` chose always finds a text. */
  lemma LocalizedTextDefined(key: string, detected: string)
    requires key in MESSAGE
    ensures SetLocale(detected) in MESSAGE[key]
  {
    MessageTableComplete();
  }
}
