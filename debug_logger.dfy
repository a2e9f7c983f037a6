/**
 * Tag-filtered logging (`LoggerSettings` and `DebugLogger`): which tags are enabled,
 * the colour of each tag, and the shape of a formatted log line. The Unity console
 * itself is not modelled: a log call yields the line it would print, if any.
 */
module DebugLogger {
  import opened Wrappers
  import opened Strings
  import LogTag

  /** The colour of each single-flag tag in a fresh settings object. */
  const DefaultTagColors: map<bv32, string> := map[
    LogTag.UI := "#80FFFF",
    LogTag.Actions := "#FFE066",
    LogTag.Effects := "#FF99FF",
    LogTag.Creatures := "#90EE90",
    LogTag.Players := "#ADD8E6",
    LogTag.Cards := "#E0E0E0",
    LogTag.Combat := "#FF9999",
    LogTag.Initialization := "#DEB887",
    LogTag.Network := "#98FB98",
    LogTag.Economy := "#DDA0DD"
  ]

  class LoggerSettings {
    var enabledTags: bv32
    var tagColors: map<bv32, string>

    /** A new settings object enables every tag and copies the default colours. */
    constructor ()
      ensures enabledTags == LogTag.All && tagColors == DefaultTagColors
    {
      enabledTags := LogTag.All;
      tagColors := DefaultTagColors;
    }

    /** `LoggerSettings.Default`: every tag enabled, default colours. */
    static method Default() returns (settings: LoggerSettings)
      ensures fresh(settings)
      ensures settings.enabledTags == LogTag.All && settings.tagColors == DefaultTagColors
      ensures forall tags :: tags != LogTag.None ==> ShouldLog(settings.enabledTags, tags)
    {
      settings := new LoggerSettings();
      settings.enabledTags := LogTag.All;
      settings.tagColors := DefaultTagColors;
    }

    /** `EnableTags`: the enabled set gains every bit of `tags` (see `EnableSetsTags`). */
    method EnableTags(tags: bv32)
      modifies this`enabledTags
      ensures enabledTags == old(enabledTags) | tags
    {
      enabledTags := enabledTags | tags;
    }

    /** `DisableTags`: the enabled set loses every bit of `tags` (see `DisableClearsTags`). */
    method DisableTags(tags: bv32)
      modifies this`enabledTags
      ensures enabledTags == old(enabledTags) & !tags
    {
      enabledTags := enabledTags & !tags;
    }

    /** `SetTagColor`: maps the tag to the colour and leaves every other entry as it was. */
    method SetTagColor(tag: bv32, hexColor: string)
      modifies this`tagColors
      ensures tagColors == old(tagColors)[tag := hexColor]
      ensures tagColors.Keys == old(tagColors).Keys + {tag}
    {
      tagColors := tagColors[tag := hexColor];
    }
  }

  /** The static logger's settings: only `UI` enabled, default colours. */
  method StaticSettings() returns (settings: LoggerSettings)
    ensures fresh(settings)
    ensures settings.enabledTags == LogTag.UI && settings.tagColors == DefaultTagColors
  {
    settings := new LoggerSettings();
    settings.enabledTags := LogTag.UI;
    settings.tagColors := DefaultTagColors;
  }

  /**
   * `ShouldLog`: some tag of the call is enabled. A call tagged `None` never logs, and
   * with every tag enabled any other call does.
   */
  predicate ShouldLog(enabledTags: bv32, tags: bv32): (r: bool)
    ensures tags == LogTag.None ==> !r
    ensures enabledTags == LogTag.All ==> (r <==> tags != LogTag.None)
  {
    enabledTags & tags != 0
  }

  /** After `EnableTags(tags)` every bit of `tags` is set. */
  lemma EnableSetsTags(enabled: bv32, tags: bv32)
    ensures (enabled | tags) & tags == tags
  {
  }

  /** `EnableTags(tags)` leaves every bit outside `tags` as it was. */
  lemma EnableKeepsOtherTags(enabled: bv32, tags: bv32)
    ensures (enabled | tags) & !tags == enabled & !tags
  {
  }

  /** Enabling is idempotent, and afterwards every call carrying one of the tags logs. */
  lemma EnableIdempotent(enabled: bv32, tags: bv32)
    ensures (enabled | tags) | tags == enabled | tags
    ensures tags != 0 ==> ShouldLog(enabled | tags, tags)
  {
  }

  /** After `DisableTags(tags)` no bit of `tags` is set, and every other bit is as it was. */
  lemma DisableClearsTags(enabled: bv32, tags: bv32)
    ensures (enabled & !tags) & tags == 0
    ensures (enabled & !tags) & !tags == enabled & !tags
  {
  }

  /** Nothing is logged for `None`, nor for tags just disabled. */
  lemma NeverLogged(enabled: bv32, tags: bv32)
    ensures !ShouldLog(enabled, LogTag.None)
    ensures !ShouldLog(enabled & !tags, tags)
  {
  }

  /** With the static settings only calls that carry `UI` print; the combat warnings do not. */
  lemma StaticSettingsLogOnlyUI(tags: bv32)
    ensures ShouldLog(LogTag.UI, tags) <==> tags & LogTag.UI == LogTag.UI
    ensures !ShouldLog(LogTag.UI, LogTag.Creatures | LogTag.Actions)
  {
  }

  /** A member appears in a tag list: a single flag wholly contained in the tags. */
  predicate Listed(tags: bv32, m: LogTag.Member) {
    m.flag != LogTag.None && m.flag != LogTag.All && tags & m.flag == m.flag
  }

  /** The names of the listed members, in table order. */
  function TagNames(tags: bv32, members: seq<LogTag.Member>): (names: seq<string>) {
    if members == [] then []
    else (if Listed(tags, members[0]) then [members[0].name] else []) + TagNames(tags, members[1..])
  }

  /**
   * `GetTagList`: the names of the single flags contained in `tags`, `|`-separated, in
   * enum order; empty for `None`, and otherwise splitting back into the listed names.
   */
  function GetTagList(tags: bv32): (list: string)
    ensures tags == LogTag.None ==> list == ""
    ensures TagNames(tags, LogTag.Members) != [] ==> Split(list, '|') == TagNames(tags, LogTag.Members)
  {
    var names := TagNames(tags, LogTag.Members);
    TagNamesOfNone(LogTag.Members);
    LogTag.NamesSeparatorFree();
    TagNamesSeparatorFree(tags, LogTag.Members);
    if names == [] then Join(names, '|')
    else
      SplitJoin(names, '|');
      Join(names, '|')
  }

  /** A name is listed exactly when some member with that name is a contained single flag. */
  lemma {:induction false} TagNamesMembership(tags: bv32, members: seq<LogTag.Member>, name: string)
    ensures name in TagNames(tags, members) <==>
      exists i :: 0 <= i < |members| && members[i].name == name && Listed(tags, members[i])
  {
    if members != [] {
      TagNamesMembership(tags, members[1..], name);
      if name in TagNames(tags, members[1..]) {
        var i :| 1 <= i + 1 < |members| && members[1..][i].name == name && Listed(tags, members[1..][i]);
        assert members[i + 1].name == name && Listed(tags, members[i + 1]);
      }
      if exists i :: 0 <= i < |members| && members[i].name == name && Listed(tags, members[i]) {
        var i :| 0 <= i < |members| && members[i].name == name && Listed(tags, members[i]);
        if i > 0 {
          assert members[1..][i - 1] == members[i];
        }
      }
    }
  }

  /** Names are listed in table order: the list of a concatenated table is the concatenation of lists. */
  lemma {:induction false} TagNamesInOrder(tags: bv32, front: seq<LogTag.Member>, back: seq<LogTag.Member>)
    ensures TagNames(tags, front + back) == TagNames(tags, front) + TagNames(tags, back)
  {
    if front == [] {
      assert front + back == back;
    } else {
      assert (front + back)[0] == front[0] && (front + back)[1..] == front[1..] + back;
      TagNamesInOrder(tags, front[1..], back);
    }
  }

  /** No name in a table without separators carries a separator into the list. */
  lemma {:induction false} TagNamesSeparatorFree(tags: bv32, members: seq<LogTag.Member>)
    requires forall i :: 0 <= i < |members| ==> '|' !in members[i].name
    ensures forall k :: 0 <= k < |TagNames(tags, members)| ==> '|' !in TagNames(tags, members)[k]
  {
    if members != [] {
      TagNamesSeparatorFree(tags, members[1..]);
    }
  }

  /** A single flag is named in the tag list exactly when every bit of it is in `tags`. */
  lemma GetTagListNamesFlag(tags: bv32, i: nat)
    requires 0 < i < |LogTag.Members| - 1
    ensures LogTag.Members[i].name in TagNames(tags, LogTag.Members) <==>
      tags & LogTag.Members[i].flag == LogTag.Members[i].flag
  {
    var m := LogTag.Members[i];
    LogTag.MembersHaveDistinctNames();
    LogTag.SingleFlag(i);
    TagNamesMembership(tags, LogTag.Members, m.name);
    if m.name in TagNames(tags, LogTag.Members) {
      var j :| 0 <= j < |LogTag.Members| && LogTag.Members[j].name == m.name && Listed(tags, LogTag.Members[j]);
      assert j == i;
    }
  }

  /** `None` contains no single flag, so it lists nothing. */
  lemma {:induction false} TagNamesOfNone(members: seq<LogTag.Member>)
    ensures TagNames(LogTag.None, members) == []
  {
    if members != [] {
      assert !Listed(LogTag.None, members[0]);
      TagNamesOfNone(members[1..]);
    }
  }

  /** `None` and `All` are never named. */
  lemma GetTagListNone(tags: bv32)
    ensures "None" !in TagNames(tags, LogTag.Members) && "All" !in TagNames(tags, LogTag.Members)
  {
    LogTag.MembersHaveDistinctNames();
    TagNamesMembership(tags, LogTag.Members, "None");
    TagNamesMembership(tags, LogTag.Members, "All");
  }

  /**
   * The colour markup of one tag-list part: wrapped when it parses to a tag that has a
   * colour, unchanged otherwise; it gains no separator unless a colour holds one.
   */
  function Colorize(part: string, colors: map<bv32, string>): (r: string)
    ensures LogTag.Parse(part).None? ==> r == part
    ensures '|' !in part && (forall tag :: tag in colors ==> '|' !in colors[tag]) ==> '|' !in r
  {
    match LogTag.Parse(part)
    case Some(tag) =>
      if tag in colors then
        var wrapped := "<color=" + colors[tag] + ">" + part + "</color>";
        WrappedSeparatorFree(colors[tag], part);
        wrapped
      else part
    case None => part
  }

  /** The markup adds no separator of its own. */
  lemma WrappedSeparatorFree(color: string, part: string)
    ensures '|' !in color && '|' !in part ==> '|' !in "<color=" + color + ">" + part + "</color>"
  {
    assert '|' !in "<color=" && '|' !in ">" && '|' !in "</color>";
  }

  /** Each part coloured on its own, in the same number and order. */
  function ColorizeEach(parts: seq<string>, colors: map<bv32, string>): (colored: seq<string>)
    ensures |colored| == |parts|
    ensures forall i :: 0 <= i < |parts| ==> colored[i] == Colorize(parts[i], colors)
  {
    seq(|parts|, i requires 0 <= i < |parts| => Colorize(parts[i], colors))
  }

  /**
   * `ColorizeTags`: splits the tag list on `|`, colours each part and joins them again.
   * When no colour contains `|`, the result splits into the coloured parts, so the
   * number and the order of the parts are kept.
   */
  function ColorizeTags(tagList: string, colors: map<bv32, string>): (colored: string)
    ensures (forall tag :: tag in colors ==> '|' !in colors[tag]) ==>
      Split(colored, '|') == ColorizeEach(Split(tagList, '|'), colors)
  {
    var parts := ColorizeEach(Split(tagList, '|'), colors);
    if forall tag :: tag in colors ==> '|' !in colors[tag] then
      SplitJoin(parts, '|');
      Join(parts, '|')
    else Join(parts, '|')
  }

  /** A member's name is wrapped in its tag's colour when one is registered, and left as is otherwise. */
  lemma ColorizeMember(i: nat, colors: map<bv32, string>)
    requires i < |LogTag.Members|
    ensures var m := LogTag.Members[i];
      Colorize(m.name, colors) == if m.flag in colors then "<color=" + colors[m.flag] + ">" + m.name + "</color>" else m.name
  {
  }

  /**
   * Colouring a non-empty tag list: its parts are the listed names, each coloured on
   * its own, in the same number and order.
   */
  lemma ColorizeTagList(tags: bv32, colors: map<bv32, string>)
    requires TagNames(tags, LogTag.Members) != []
    requires forall tag :: tag in colors ==> '|' !in colors[tag]
    ensures Split(ColorizeTags(GetTagList(tags), colors), '|') == ColorizeEach(TagNames(tags, LogTag.Members), colors)
  {
  }

  /** `GetClassName`: `"Unknown"` for a missing path, else the file name without its extension. */
  function GetClassName(sourceFilePath: string, fileNameWithoutExtension: string -> string): (className: string)
    ensures sourceFilePath == "" ==> className == "Unknown"
    ensures sourceFilePath != "" ==> className == fileNameWithoutExtension(sourceFilePath)
  {
    if sourceFilePath == "" then "Unknown" else fileNameWithoutExtension(sourceFilePath)
  }

  /** `FormatMessage`: `className: [coloured tags] message`. */
  function FormatMessage(message: string, tags: bv32, sourceFilePath: string,
                         fileNameWithoutExtension: string -> string, colors: map<bv32, string>): (line: string)
    ensures var className := GetClassName(sourceFilePath, fileNameWithoutExtension);
      && |line| >= |className| + 5 + |message|
      && line[..|className| + 3] == className + ": ["
      && line[|line| - |message| - 2..] == "] " + message
  {
    var className := GetClassName(sourceFilePath, fileNameWithoutExtension);
    var coloredTags := ColorizeTags(GetTagList(tags), colors);
    LineShape(className, coloredTags, message);
    className + ": [" + coloredTags + "] " + message
  }

  lemma LineShape(className: string, coloredTags: string, message: string)
    ensures var line := className + ": [" + coloredTags + "] " + message;
      && |line| >= |className| + 5 + |message|
      && line[..|className| + 3] == className + ": ["
      && line[|line| - |message| - 2..] == "] " + message
  {
    var line := className + ": [" + coloredTags + "] " + message;
    assert line == (className + ": [") + (coloredTags + "] " + message);
    assert line == (className + ": [" + coloredTags) + ("] " + message);
  }

  /** A line without tags has empty brackets. */
  lemma FormatMessageUntagged(message: string, sourceFilePath: string,
                              fileNameWithoutExtension: string -> string, colors: map<bv32, string>)
    ensures FormatMessage(message, LogTag.None, sourceFilePath, fileNameWithoutExtension, colors)
      == GetClassName(sourceFilePath, fileNameWithoutExtension) + ": [] " + message
  {
    assert Split("", '|') == [""];
    assert LogTag.Parse("") == None by {
      forall i | 0 <= i < |LogTag.Members| ensures LogTag.Members[i].name != "" {
      }
    }
    assert ColorizeEach([""], colors) == [""];
  }

  /**
   * `Log`, `LogWarning` and `LogError`: the formatted line when the call's tags pass
   * `ShouldLog`, and nothing otherwise.
   */
  function LogLine(settings: LoggerSettings, message: string, tags: bv32, sourceFilePath: string,
                   fileNameWithoutExtension: string -> string): (line: Option<string>)
    reads settings
    ensures line.Some? <==> settings.enabledTags & tags != 0
    ensures line.Some? ==> line.value == FormatMessage(message, tags, sourceFilePath, fileNameWithoutExtension, settings.tagColors)
  {
    if !ShouldLog(settings.enabledTags, tags) then None
    else Some(FormatMessage(message, tags, sourceFilePath, fileNameWithoutExtension, settings.tagColors))
  }

  /**
   * What the game prints: the logger reads only its static settings, so a call prints
   * exactly when it carries `UI`, coloured with the default colours, whatever any other
   * settings object enables, disables or recolours.
   */
  lemma StaticLogLine(settings: LoggerSettings, message: string, tags: bv32, sourceFilePath: string,
                      fileNameWithoutExtension: string -> string)
    requires settings.enabledTags == LogTag.UI && settings.tagColors == DefaultTagColors
    ensures LogLine(settings, message, tags, sourceFilePath, fileNameWithoutExtension).Some? <==> tags & LogTag.UI == LogTag.UI
    ensures LogLine(settings, message, tags, sourceFilePath, fileNameWithoutExtension).Some? ==>
      LogLine(settings, message, tags, sourceFilePath, fileNameWithoutExtension).value
        == FormatMessage(message, tags, sourceFilePath, fileNameWithoutExtension, DefaultTagColors)
  {
    StaticSettingsLogOnlyUI(tags);
  }
}
