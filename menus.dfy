/** The three drop-down menus of the extension's command blocks and the meaning of
    the interval menu's values. */
module Menus {
  import Messages

  /** One menu entry: the localized text shown and the value passed to the block. */
  datatype MenuItem = MenuItem(text: string, value: string)

  function Values(items: seq<MenuItem>): (vs: seq<string>)
    ensures |vs| == |items|
    ensures forall i :: 0 <= i < |items| ==> vs[i] == items[i].value
  {
    if items == [] then [] else [items[0].value] + Values(items[1..])
  }

  /** The values of the interval menu, in seconds, slowest first. */
  const INTERVAL_VALUES: seq<string> := ["5", "2", "1", "0.5"]

  /** The classification periods, in milliseconds, that the interval menu can produce. */
  const INTERVAL_CHOICES: set<int> := {5000, 2000, 1000, 500}

  /** The message key that labels a menu value of the video and classification menus. */
  function MessageKey(value: string): (key: string)
  {
    if value == "on-flipped" then "video_on_flipped" else value
  }

  /** `getVideoMenu`: off, on, and on-flipped, in that order, each labelled in `locale`. */
  function VideoMenu(locale: string): (items: seq<MenuItem>)
    requires locale in Messages.AVAILABLE_LOCALES
    ensures Values(items) == ["off", "on", "on-flipped"]
    ensures forall i :: 0 <= i < |items| ==> items[i].text == Messages.Text(MessageKey(items[i].value), locale)
  {
    [ MenuItem(Messages.Text("off", locale), "off"),
      MenuItem(Messages.Text("on", locale), "on"),
      MenuItem(Messages.Text("video_on_flipped", locale), "on-flipped") ]
  }

  /** `getClassificationMenu`: off and on, each labelled in `locale`. */
  function ClassificationMenu(locale: string): (items: seq<MenuItem>)
    requires locale in Messages.AVAILABLE_LOCALES
    ensures Values(items) == ["off", "on"]
    ensures forall i :: 0 <= i < |items| ==> items[i].text == Messages.Text(MessageKey(items[i].value), locale)
  {
    [ MenuItem(Messages.Text("off", locale), "off"),
      MenuItem(Messages.Text("on", locale), "on") ]
  }

  /** `getClassificationIntervalMenu`: the four periods in seconds, shown as their own value. */
  function ClassificationIntervalMenu(): (items: seq<MenuItem>)
    ensures Values(items) == INTERVAL_VALUES
    ensures forall i :: 0 <= i < |items| ==> items[i].text == items[i].value
  {
    [ MenuItem("5", "5"), MenuItem("2", "2"), MenuItem("1", "1"), MenuItem("0.5", "0.5") ]
  }

  /** The period `setClassificationInterval` computes as `value * 1000` for a menu value. */
  function IntervalMillis(value: string): (ms: int)
    requires value in INTERVAL_VALUES
    ensures ms in INTERVAL_CHOICES
    ensures forall i | 0 <= i < |INTERVAL_VALUES| :: value == INTERVAL_VALUES[i] ==> ms == [5000, 2000, 1000, 500][i]
  {
    match value
    case "5" => 5000
    case "2" => 2000
    case "1" => 1000
    case "0.5" => 500
  }

  /** Every interval choice is reached by exactly one menu entry, and the menu lists
      them from the longest period to the shortest. */
  lemma IntervalMenuCoversChoices()
    ensures forall ms :: ms in INTERVAL_CHOICES <==> exists v :: v in INTERVAL_VALUES && IntervalMillis(v) == ms
    ensures forall i, j :: 0 <= i < j < |INTERVAL_VALUES| ==> IntervalMillis(INTERVAL_VALUES[i]) > IntervalMillis(INTERVAL_VALUES[j])
  {
    assert IntervalMillis("5") == 5000;
    assert IntervalMillis("2") == 2000;
    assert IntervalMillis("1") == 1000;
    assert IntervalMillis("0.5") == 500;
  }
}
