/** The Slack message formatters of the demo server (slack-utils.js): attendance and
    key messages with their emoji tables, and the room status summary. Users are
    reduced to the fields the formatters read; sending is outside the model. */
module SlackUtils {
  import opened Wrappers
  import opened Text

  /** The fields of a log entry the formatters interpolate. */
  datatype LogEntry = LogEntry(userName: string, action: string, room: string, timestamp: string)

  const ActionEmojis: map<string, string> :=
    map["入室" := "🚪➡️", "退室" := "🚪⬅️", "鍵取得" := "🔑➡️", "鍵返却" := "🔑⬅️"]
  const DefaultActionEmoji := "📝"

  const RoomEmojis: map<string, string> := map["2218室" := "🏢", "院生室" := "👥"]
  const DefaultRoomEmoji := "🏠"

  /** The names every object literal inherits from `Object.prototype`. */
  const InheritedNames: set<string> := {
    "constructor", "__proto__", "hasOwnProperty", "isPrototypeOf", "propertyIsEnumerable",
    "toString", "toLocaleString", "valueOf",
    "__defineGetter__", "__defineSetter__", "__lookupGetter__", "__lookupSetter__"}

  /** How a template literal renders an inherited member: `Object.prototype` itself
      for `__proto__`, and the text of a native function otherwise. Every such
      member is truthy, so `||` never falls back past it. */
  function InheritedText(name: string): (r: string)
    requires name in InheritedNames
    ensures |r| > 0 && (r[0] == 'f' || r[0] == '[')
    ensures '\n' !in name ==> '\n' !in r
  {
    if name == "__proto__" then "[object Object]"
    else if name == "constructor" then "function Object() { [native code] }"
    else "function " + name + "() { [native code] }"
  }

  /** `table[key] || fallback` for an object literal `table` whose entries are all
      non-empty: an own entry first, then an inherited member, then the fallback. */
  function Lookup(table: map<string, string>, key: string, fallback: string): (r: string)
    ensures key in table && table[key] != "" ==> r == table[key]
    ensures key !in table && key in InheritedNames ==> r == InheritedText(key)
    ensures (key in table && table[key] == "") || (key !in table && key !in InheritedNames) ==> r == fallback
  {
    if key in table then OrElse(table[key], fallback)
    else if key in InheritedNames then InheritedText(key)
    else fallback
  }

  function ActionEmoji(action: string): string {
    Lookup(ActionEmojis, action, DefaultActionEmoji)
  }

  function RoomEmoji(room: string): string {
    Lookup(RoomEmojis, room, DefaultRoomEmoji)
  }

  /** The action emoji is the default exactly for actions that are neither in the
      table nor inherited names. */
  lemma ActionEmojiDefault(action: string)
    ensures ActionEmoji(action) == DefaultActionEmoji <==> action !in ActionEmojis && action !in InheritedNames
  {
    if action in ActionEmojis {
      assert ActionEmoji(action)[0] != '📝';
    } else if action in InheritedNames {
      assert ActionEmoji(action)[0] != '📝';
    }
  }

  /** The room emoji is the default exactly for rooms that are neither in the table
      nor inherited names. */
  lemma RoomEmojiDefault(room: string)
    ensures RoomEmoji(room) == DefaultRoomEmoji <==> room !in RoomEmojis && room !in InheritedNames
  {
    if room in RoomEmojis {
      assert RoomEmoji(room)[0] != '🏠';
    } else if room in InheritedNames {
      assert RoomEmoji(room)[0] != '🏠';
    }
  }

  /** An action or room that names an inherited member shows that member's text
      where the emoji belongs. */
  lemma InheritedNamesShowThrough()
    ensures ActionEmoji("constructor") == "function Object() { [native code] }"
    ensures RoomEmoji("__proto__") == "[object Object]"
  {
    assert "constructor" !in ActionEmojis;
    assert "__proto__" !in RoomEmojis;
  }

  /** `user.provider && user.provider !== 'manual'`. */
  predicate ShowsProvider(provider: Option<string>) {
    provider.Some? && provider.value != "" && provider.value != "manual"
  }

  const ProviderEmojis: map<string, string> := map["google" := "🔴", "slack" := "💬"]
  const DefaultProviderEmoji := "🔐"

  /** The optional provider line. */
  function ProviderLine(provider: Option<string>): (line: string)
    ensures line != "" <==> ShowsProvider(provider)
    ensures ShowsProvider(provider) ==>
              line == "\n" + Lookup(ProviderEmojis, provider.value, DefaultProviderEmoji) + " " + provider.value + "認証"
    ensures ShowsProvider(provider) ==> IsSuffix(" " + provider.value + "認証", line)
  {
    if ShowsProvider(provider) then
      var tail := " " + provider.value + "認証";
      var lead := "\n" + Lookup(ProviderEmojis, provider.value, DefaultProviderEmoji);
      SuffixOfConcat(lead, tail, tail);
      assert lead + tail == "\n" + Lookup(ProviderEmojis, provider.value, DefaultProviderEmoji) + " " + provider.value + "認証";
      lead + tail
    else ""
  }

  /** The emoji holds no line break unless the key does. */
  lemma EmojiSingleLine(table: map<string, string>, key: string, fallback: string)
    requires forall k :: k in table ==> '\n' !in table[k]
    requires '\n' !in fallback
    ensures '\n' !in key ==> '\n' !in Lookup(table, key, fallback)
  {
  }

  /** The first line of an attendance message: the action emoji and the name up to
      `が`, then the room emoji, the room and the action; a single line when the
      name, the action and the room hold no line break. */
  function FirstLine(e: LogEntry): (r: string)
    ensures IsPrefix(ActionEmoji(e.action) + " " + e.userName + " が ", r)
    ensures IsSuffix(RoomEmoji(e.room) + e.room + " に " + e.action + "しました", r)
    ensures |r| == |ActionEmoji(e.action) + " " + e.userName + " が "| + |RoomEmoji(e.room) + e.room + " に " + e.action + "しました"|
    ensures '\n' !in e.userName && '\n' !in e.action && '\n' !in e.room ==> '\n' !in r
  {
    var lead := ActionEmoji(e.action) + " " + e.userName + " が ";
    var rest := RoomEmoji(e.room) + e.room + " に " + e.action + "しました";
    LeadSingleLine(e);
    RestSingleLine(e);
    ConcatParts(lead, rest);
    lead + rest
  }

  /** A concatenation starts with its left part, ends with its right part and has
      their joint length. */
  lemma ConcatParts(a: string, b: string)
    ensures IsPrefix(a, a + b) && IsSuffix(b, a + b) && |a + b| == |a| + |b|
  {
    assert (a + b)[..|a|] == a;
    assert (a + b)[|a + b| - |b|..] == b;
  }

  lemma LeadSingleLine(e: LogEntry)
    ensures '\n' !in e.userName && '\n' !in e.action ==> '\n' !in ActionEmoji(e.action) + " " + e.userName + " が "
  {
    EmojiSingleLine(ActionEmojis, e.action, DefaultActionEmoji);
    assert '\n' !in " " && '\n' !in " が ";
  }

  lemma RestSingleLine(e: LogEntry)
    ensures '\n' !in e.action && '\n' !in e.room ==> '\n' !in RoomEmoji(e.room) + e.room + " に " + e.action + "しました"
  {
    EmojiSingleLine(RoomEmojis, e.room, DefaultRoomEmoji);
    assert '\n' !in " に " && '\n' !in "しました";
  }

  /** `formatAttendanceMessage(logEntry, user)`; `provider` is `user.provider`. */
  function FormatAttendanceMessage(e: LogEntry, provider: Option<string>): (m: string)
    ensures IsPrefix(FirstLine(e) + "\n⏰ " + e.timestamp, m)
    ensures !ShowsProvider(provider) ==> m == FirstLine(e) + "\n⏰ " + e.timestamp
    ensures ShowsProvider(provider) ==>
              m[|FirstLine(e) + "\n⏰ " + e.timestamp|..]
                == "\n" + Lookup(ProviderEmojis, provider.value, DefaultProviderEmoji) + " " + provider.value + "認証"
    ensures ShowsProvider(provider) ==> IsSuffix(" " + provider.value + "認証", m)
  {
    var base := FirstLine(e) + "\n⏰ " + e.timestamp;
    var line := ProviderLine(provider);
    PrefixOfConcat(base, line);
    assert (base + line)[|base|..] == line;
    var tail := if ShowsProvider(provider) then " " + provider.value + "認証" else "";
    assert IsSuffix(tail, line);
    SuffixOfConcat(base, line, tail);
    base + line
  }

  const StationRoom := "詰所"

  /** The location the key line names: never empty, and the station exactly when
      the location is empty or is the station. */
  function KeyLocationText(keyLocation: string): (r: string)
    ensures r != ""
    ensures r == StationRoom <==> keyLocation == "" || keyLocation == StationRoom
  {
    if keyLocation != "" && keyLocation != StationRoom then keyLocation else StationRoom
  }

  /** The two branches of the key line amount to `keyLocation || '詰所'`. */
  lemma KeyLocationIsOrElse(keyLocation: string)
    ensures KeyLocationText(keyLocation) == OrElse(keyLocation, StationRoom)
  {
  }

  /** `formatKeyMessage(logEntry, user, keyLocation)`. */
  function FormatKeyMessage(e: LogEntry, provider: Option<string>, keyLocation: string): (m: string)
    ensures IsPrefix(FormatAttendanceMessage(e, provider), m)
    ensures IsSuffix("\n🔑 鍵の現在地: " + OrElse(keyLocation, StationRoom), m)
    ensures |m| == |FormatAttendanceMessage(e, provider)| + |"\n🔑 鍵の現在地: " + OrElse(keyLocation, StationRoom)|
  {
    KeyLocationIsOrElse(keyLocation);
    var base := FormatAttendanceMessage(e, provider);
    var tail := "\n🔑 鍵の現在地: " + KeyLocationText(keyLocation);
    assert (base + tail)[..|base|] == base;
    assert (base + tail)[|base + tail| - |tail|..] == tail;
    base + tail
  }

  const NobodyText := "誰もいません"

  /** The names part of a room line. */
  function NamesText(names: seq<string>): (t: string)
    ensures |names| == 0 ==> t == NobodyText
    ensures |names| > 0 ==> t == Join(names, ", ")
  {
    if |names| == 0 then NobodyText else Join(names, ", ")
  }

  /** The head count between a room's heading and its names holds no line break. */
  lemma CountSingleLine(n: nat)
    ensures '\n' !in " (" + NatToDecimal(n) + "人): "
  {
    var d := NatToDecimal(n);
    assert forall i :: 0 <= i < |d| ==> d[i] != '\n';
  }

  /** The names text holds no line break unless a name does. */
  lemma NamesTextSingleLine(names: seq<string>)
    ensures (forall i :: 0 <= i < |names| ==> '\n' !in names[i]) ==> '\n' !in NamesText(names)
  {
    if |names| > 0 && forall i :: 0 <= i < |names| ==> '\n' !in names[i] {
      JoinLacks(names, ", ", '\n');
    }
  }

  /** One room line: label, head count, then the names or the nobody text. It is a
      single line when neither the heading nor a name holds a line break. */
  function RoomLine(heading: string, names: seq<string>): (r: string)
    ensures IsPrefix(heading, r) && IsSuffix(NamesText(names), r)
    ensures |heading| + |NamesText(names)| <= |r| &&
            r[|heading|..|r| - |NamesText(names)|] == " (" + NatToDecimal(|names|) + "人): "
    ensures '\n' !in heading && (forall i :: 0 <= i < |names| ==> '\n' !in names[i]) ==> '\n' !in r
  {
    var count := " (" + NatToDecimal(|names|) + "人): ";
    CountSingleLine(|names|);
    NamesTextSingleLine(names);
    PrefixOfConcat(heading, count + NamesText(names));
    SuffixOfConcat(heading + count, NamesText(names), NamesText(names));
    assert heading + count + NamesText(names) == heading + (count + NamesText(names));
    assert (heading + count + NamesText(names))[|heading|..|heading| + |count|] == count;
    heading + count + NamesText(names)
  }

  const SummaryTitle := "📊 現在の研究室状況"
  const Room2218Heading := "🏢 2218室"
  const GradRoomHeading := "👥 院生室"
  const KeyLineLabel := "🔑 鍵の所在: "

  /** The key line: the holder's name, or the station when nobody holds the key. */
  function KeyLine(keyHolderName: Option<string>): (r: string)
    ensures keyHolderName.None? ==> r == KeyLineLabel + StationRoom
    ensures keyHolderName.Some? ==> r == KeyLineLabel + keyHolderName.value
  {
    KeyLineLabel + (if keyHolderName.Some? then keyHolderName.value else StationRoom)
  }

  /** `formatStatusSummary(room2218Users, gradRoomUsers, keyHolder)`, with each user
      given by its name and the key holder by its name when there is one. */
  function FormatStatusSummary(room2218Names: seq<string>, gradRoomNames: seq<string>, keyHolderName: Option<string>): (m: string)
    ensures IsPrefix(SummaryTitle + "\n" + RoomLine(Room2218Heading, room2218Names) + "\n", m)
    ensures IsSuffix("\n" + KeyLine(keyHolderName), m)
    ensures var head := SummaryTitle + "\n" + RoomLine(Room2218Heading, room2218Names) + "\n";
            var tail := "\n" + KeyLine(keyHolderName);
            |head| + |tail| <= |m| && m[|head|..|m| - |tail|] == RoomLine(GradRoomHeading, gradRoomNames)
  {
    var head := SummaryTitle + "\n" + RoomLine(Room2218Heading, room2218Names) + "\n";
    var tail := "\n" + KeyLine(keyHolderName);
    var m := head + RoomLine(GradRoomHeading, gradRoomNames) + tail;
    assert m[..|head|] == head;
    assert m[|m| - |tail|..] == tail;
    assert m[|head|..|m| - |tail|] == RoomLine(GradRoomHeading, gradRoomNames);
    m
  }

  /** The summary is its title, the two room lines and the key line joined by line breaks. */
  lemma {:induction false} SummaryIsJoin(room2218Names: seq<string>, gradRoomNames: seq<string>, keyHolderName: Option<string>)
    ensures FormatStatusSummary(room2218Names, gradRoomNames, keyHolderName)
              == Join([SummaryTitle, RoomLine(Room2218Heading, room2218Names), RoomLine(GradRoomHeading, gradRoomNames),
                       KeyLine(keyHolderName)], "\n")
  {
    var title := SummaryTitle;
    var a := RoomLine(Room2218Heading, room2218Names);
    var b := RoomLine(GradRoomHeading, gradRoomNames);
    var k := KeyLine(keyHolderName);
    assert Join([k], "\n") == k;
    assert Join([b, k], "\n") == b + "\n" + k by {
      assert [b, k][1..] == [k];
    }
    assert Join([a, b, k], "\n") == a + "\n" + (b + "\n" + k) by {
      assert [a, b, k][1..] == [b, k];
    }
    assert Join([title, a, b, k], "\n") == title + "\n" + (a + "\n" + (b + "\n" + k)) by {
      assert [title, a, b, k][1..] == [a, b, k];
    }
    Reassociate(title, a, b, k, "\n");
  }

  lemma Reassociate(t: string, a: string, b: string, k: string, sep: string)
    ensures t + sep + a + sep + b + (sep + k) == t + sep + (a + sep + (b + sep + k))
  {
  }

  /** The summary is four lines: the title, one line per room and the key line,
      provided no name holds a line break. */
  lemma {:induction false} SummaryLines(room2218Names: seq<string>, gradRoomNames: seq<string>, keyHolderName: Option<string>)
    requires forall i :: 0 <= i < |room2218Names| ==> '\n' !in room2218Names[i]
    requires forall i :: 0 <= i < |gradRoomNames| ==> '\n' !in gradRoomNames[i]
    requires keyHolderName.Some? ==> '\n' !in keyHolderName.value
    ensures Split(FormatStatusSummary(room2218Names, gradRoomNames, keyHolderName), '\n')
              == [SummaryTitle, RoomLine(Room2218Heading, room2218Names), RoomLine(GradRoomHeading, gradRoomNames),
                  KeyLine(keyHolderName)]
  {
    var parts := [SummaryTitle, RoomLine(Room2218Heading, room2218Names), RoomLine(GradRoomHeading, gradRoomNames),
                  KeyLine(keyHolderName)];
    FixedTextsSingleLine();
    KeyLineSingleLine(keyHolderName);
    assert forall i :: 0 <= i < |parts| ==> '\n' !in parts[i] by {
      assert parts[0] == SummaryTitle && parts[3] == KeyLine(keyHolderName);
      assert parts[1] == RoomLine(Room2218Heading, room2218Names);
      assert parts[2] == RoomLine(GradRoomHeading, gradRoomNames);
    }
    assert Split(Join(parts, "\n"), '\n') == parts by {
      SplitJoin(parts, '\n');
    }
    SummaryIsJoin(room2218Names, gradRoomNames, keyHolderName);
  }

  lemma FixedTextsSingleLine()
    ensures '\n' !in SummaryTitle && '\n' !in Room2218Heading && '\n' !in GradRoomHeading
  {
  }

  lemma KeyLineSingleLine(keyHolderName: Option<string>)
    ensures (keyHolderName.Some? ==> '\n' !in keyHolderName.value) ==> '\n' !in KeyLine(keyHolderName)
  {
    assert '\n' !in KeyLineLabel && '\n' !in StationRoom;
  }

  /** The names after the first, each with the blank that follows a comma. */
  function Spaced(names: seq<string>): (r: seq<string>)
    ensures |r| == |names|
    ensures forall i :: 0 <= i < |names| ==> r[i] == " " + names[i]
  {
    if |names| == 0 then [] else [" " + names[0]] + Spaced(names[1..])
  }

  lemma {:induction false} JoinCommaSpace(names: seq<string>)
    requires |names| >= 1
    ensures Join(names, ", ") == Join([names[0]] + Spaced(names[1..]), ",")
  {
    if |names| > 1 {
      var rest := names[1..];
      assert Spaced(rest) == [" " + rest[0]] + Spaced(rest[1..]);
      calc {
        Join(names, ", ");
        names[0] + ", " + Join(rest, ", ");
        { JoinCommaSpace(rest); }
        names[0] + ", " + Join([rest[0]] + Spaced(rest[1..]), ",");
        names[0] + "," + (" " + Join([rest[0]] + Spaced(rest[1..]), ","));
        { SpaceJoin(rest[0], Spaced(rest[1..])); }
        names[0] + "," + Join(Spaced(rest), ",");
        Join([names[0]] + Spaced(rest), ",");
      }
    }
  }

  /** Putting a blank before a joined list puts it before its first piece. */
  lemma SpaceJoin(first: string, rest: seq<string>)
    ensures " " + Join([first] + rest, ",") == Join([" " + first] + rest, ",")
  {
    if |rest| == 0 {
    } else {
      assert ([first] + rest)[1..] == rest;
      assert ([" " + first] + rest)[1..] == rest;
    }
  }

  /** The names in a room line can be read back: when no name holds a comma,
      splitting the list at commas gives the first name and then each further name
      behind its blank. */
  lemma {:induction false} NamesRecoverable(names: seq<string>)
    requires |names| >= 1
    requires forall i :: 0 <= i < |names| ==> ',' !in names[i]
    ensures Split(NamesText(names), ',') == [names[0]] + Spaced(names[1..])
  {
    var parts := [names[0]] + Spaced(names[1..]);
    JoinCommaSpace(names);
    forall i | 0 <= i < |parts|
      ensures ',' !in parts[i]
    {
      if i > 0 {
        assert parts[i] == " " + names[i];
      }
    }
    SplitJoin(parts, ',');
  }
}
