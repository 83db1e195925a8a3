/**
 * The Slack log formatter: turns a log entry into a Slack message, either
 * as one attachment coloured by severity or as a plain text line, with
 * every `PHP_EOL` removed and an optional `@channel` alert. The
 * framework's line formatter and type names are oracles.
 */
module SlackFormatter {
  import opened Wrappers
  import opened Php
  import Strings

  // The framework logger's severity constants.
  const SPECIAL: int := 9
  const CUSTOM: int := 8
  const DEBUG: int := 7
  const INFO: int := 6
  const NOTICE: int := 5
  const WARNING: int := 4
  const ERROR: int := 3
  const ALERT: int := 2
  const CRITICAL: int := 1
  const EMERGENCE: int := 0
  const EMERGENCY: int := 0

  // `PHP_EOL` as on Unix-like hosts; a carriage return is an ordinary character
  const EOL: string := "\n"
  const PLAIN_FORMAT: string := "%date% *%type%:* %message%"
  const ATTACHMENT_FORMAT: string := "%message%"
  const CHANNEL_ALERT: string := "@channel"

  /**
   * The framework's line formatter, `new Line($format)` then
   * `format($message, $type, $timestamp, $context)`, and its type names
   * (`getTypeString`).
   */
  datatype LineFormatter = LineFormatter(
    format: (Value, string, int, int, Value) -> string,
    typeString: int -> string)

  datatype Attachment = Attachment(fallback: string, title: string, text: string, color: string, timestamp: int)

  /** A Slack message: its text, when set, and its attachments. */
  datatype SlackMessage = SlackMessage(text: Option<string>, attachments: seq<Attachment>)

  /** `getOption`: a present key gives its value even when that value is null; otherwise the default. */
  function GetOption(options: map<string, Value>, name: string, default: Value): (v: Value)
    ensures name in options ==> v == options[name]
    ensures name !in options ==> v == default
  {
    if name in options then options[name] else default
  }

  /** `getColor`: red for error and worse, amber for warning to info, blue for debug, green otherwise. */
  function Color(severity: int): (c: string)
    ensures c == "danger" <==> EMERGENCY <= severity <= ERROR
    ensures c == "warning" <==> WARNING <= severity <= INFO
    ensures c == "#439FE0" <==> severity == DEBUG
    ensures c == "good" <==> !(EMERGENCY <= severity <= DEBUG)
  {
    if severity == EMERGENCY || severity == EMERGENCE || severity == CRITICAL || severity == ALERT || severity == ERROR then "danger"
    else if severity == WARNING || severity == NOTICE || severity == INFO then "warning"
    else if severity == DEBUG then "#439FE0"
    else "good"
  }

  /** The formatted line with every `EOL` removed: whatever the line formatter returns, no '\n' is left. */
  function LineText(line: LineFormatter, format: Value, message: string, severity: int, timestamp: int, context: Value): (text: string)
    ensures '\n' !in text
  {
    var formatted := line.format(format, message, severity, timestamp, context);
    Strings.RemoveCharGone(formatted, '\n');
    Strings.ReplaceAll(formatted, EOL, "")
  }

  /** `formatAsAttachment`. */
  function FormatAsAttachment(options: map<string, Value>, line: LineFormatter,
                              message: string, severity: int, timestamp: int, context: Value): (m: SlackMessage)
    ensures |m.attachments| == 1
    ensures var a := m.attachments[0];
      var text := LineText(line, GetOption(options, "format", Str(ATTACHMENT_FORMAT)), message, severity, timestamp, context);
      && a.title == line.typeString(severity) && a.text == text
      && a.fallback == a.title + ": " + a.text
      && a.color == Color(severity) && a.timestamp == timestamp
    ensures m.text == (if Truthy(GetOption(options, "alertChannel", Null)) then Some(CHANNEL_ALERT) else None)
  {
    var format := GetOption(options, "format", Str(ATTACHMENT_FORMAT));
    var title := line.typeString(severity);
    var text := LineText(line, format, message, severity, timestamp, context);
    var attachment := Attachment(title + ": " + text, title, text, Color(severity), timestamp);
    SlackMessage(if Truthy(GetOption(options, "alertChannel", Null)) then Some(CHANNEL_ALERT) else None, [attachment])
  }

  /**
   * `format`: an attachment unless `useAttachment` is present and falsy;
   * otherwise a plain line, prefixed with "@channel: " when alerting.
   */
  function Format(options: map<string, Value>, line: LineFormatter,
                  message: string, severity: int, timestamp: int, context: Value): (m: SlackMessage)
    ensures Truthy(GetOption(options, "useAttachment", Bool(true))) ==>
      m == FormatAsAttachment(options, line, message, severity, timestamp, context)
    ensures !Truthy(GetOption(options, "useAttachment", Bool(true))) ==>
      var text := LineText(line, GetOption(options, "format", Str(PLAIN_FORMAT)), message, severity, timestamp, context);
      && m.attachments == []
      && m.text == Some(if Truthy(GetOption(options, "alertChannel", Null)) then CHANNEL_ALERT + ": " + text else text)
  {
    if Truthy(GetOption(options, "useAttachment", Bool(true))) then
      FormatAsAttachment(options, line, message, severity, timestamp, context)
    else
      var text := LineText(line, GetOption(options, "format", Str(PLAIN_FORMAT)), message, severity, timestamp, context);
      SlackMessage(Some(if Truthy(GetOption(options, "alertChannel", Null)) then CHANNEL_ALERT + ": " + text else text), [])
  }

  /** No text the formatter produces contains a '\n', whatever the line formatter returns. */
  lemma FormattedTextIsOneLine(options: map<string, Value>, line: LineFormatter,
                               message: string, severity: int, timestamp: int, context: Value)
    ensures var m := Format(options, line, message, severity, timestamp, context);
      && (m.text.Some? ==> '\n' !in m.text.value)
      && (forall a | a in m.attachments :: '\n' !in a.text)
  {
    var m := Format(options, line, message, severity, timestamp, context);
    var plain := GetOption(options, "format", Str(PLAIN_FORMAT));
    var attached := GetOption(options, "format", Str(ATTACHMENT_FORMAT));
    Strings.RemoveCharGone(line.format(plain, message, severity, timestamp, context), '\n');
    Strings.RemoveCharGone(line.format(attached, message, severity, timestamp, context), '\n');
    if !Truthy(GetOption(options, "useAttachment", Bool(true))) && Truthy(GetOption(options, "alertChannel", Null)) {
      var text := LineText(line, plain, message, severity, timestamp, context);
      assert m.text.value == CHANNEL_ALERT + ": " + text;
      assert forall k :: 0 <= k < |m.text.value| ==> m.text.value[k] != '\n' by {
        forall k | 0 <= k < |m.text.value| ensures m.text.value[k] != '\n' {
          if k >= |CHANNEL_ALERT + ": "| {
            assert m.text.value[k] == text[k - |CHANNEL_ALERT + ": "|];
          }
        }
      }
    }
  }

  /**
   * An error entry under the default attachment format with alerting on:
   * title "ERROR", fallback "ERROR: <entry>", text the entry, red, and the
   * message text "@channel". The adapter passes an empty context array,
   * and the `useAttachments` option of the adapter's test is not the
   * formatter's `useAttachment` key, so the attachment default applies.
   */
  lemma ErrorEntryWithAlert(options: map<string, Value>, line: LineFormatter, entry: string, timestamp: int)
    requires "useAttachment" !in options && "format" !in options
    requires "alertChannel" in options && options["alertChannel"] == Bool(true)
    requires line.typeString(ERROR) == "ERROR"
    requires line.format(Str(ATTACHMENT_FORMAT), entry, ERROR, timestamp, Arr([])) == entry + EOL
    requires '\n' !in entry
    ensures var m := Format(options, line, entry, ERROR, timestamp, Arr([]));
      && m.text == Some(CHANNEL_ALERT)
      && m.attachments == [Attachment("ERROR: " + entry, "ERROR", entry, "danger", timestamp)]
  {
    StripTrailingEol(entry);
    assert GetOption(options, "format", Str(ATTACHMENT_FORMAT)) == Str(ATTACHMENT_FORMAT);
    assert LineText(line, Str(ATTACHMENT_FORMAT), entry, ERROR, timestamp, Arr([])) == entry;
    assert Color(ERROR) == "danger";
    assert "ERROR" + ": " == "ERROR: ";
  }

  /** Removing the line breaks of a line-break-free text followed by one line break gives the text. */
  lemma {:induction false} StripTrailingEol(s: string)
    requires '\n' !in s
    ensures Strings.ReplaceAll(s + EOL, EOL, "") == s
    decreases |s|
  {
    if s == [] {
      assert Strings.ReplaceAll(EOL, EOL, "") == "" + Strings.ReplaceAll([], EOL, "");
    } else {
      assert (s + EOL)[1..] == s[1..] + EOL;
      assert s[0] in s;
      assert (s + EOL)[0] == s[0];
      StripTrailingEol(s[1..]);
    }
  }
}
