/**
 * The log record and its severity scale: validity of a level and of an
 * entry, the level's name and priority, and the alert trigger.
 */
module Entities {
  import opened Wrappers

  /** Go's `type LogLevel int`: any integer, of which 1..5 are the named levels. */
  type LogLevel = int

  const Debug: LogLevel := 1
  const Info: LogLevel := 2
  const Warning: LogLevel := 3
  const Error: LogLevel := 4
  const Critical: LogLevel := 5

  /** The five named levels and nothing else. */
  predicate LevelIsValid(l: LogLevel)
  {
    Debug <= l <= Critical
  }

  function LevelString(l: LogLevel): (r: string)
    ensures r == "UNKNOWN" <==> !LevelIsValid(l)
    ensures LevelIsValid(l) ==> r in {"DEBUG", "INFO", "WARNING", "ERROR", "CRITICAL"}
    ensures l == Debug ==> r == "DEBUG"
    ensures l == Info ==> r == "INFO"
    ensures l == Warning ==> r == "WARNING"
    ensures l == Error ==> r == "ERROR"
    ensures l == Critical ==> r == "CRITICAL"
  {
    if l == Debug then "DEBUG"
    else if l == Info then "INFO"
    else if l == Warning then "WARNING"
    else if l == Error then "ERROR"
    else if l == Critical then "CRITICAL"
    else "UNKNOWN"
  }

  /** The five valid levels have five different names. */
  lemma LevelStringInjective(a: LogLevel, b: LogLevel)
    requires LevelIsValid(a) && LevelIsValid(b)
    ensures LevelString(a) == LevelString(b) ==> a == b
  {
  }

  /** A JSON-compatible metadata value; the service never looks inside one. */
  datatype MetaValue = Text(text: string) | Number(number: int) | Flag(flag: bool) | Null

  /** A nil metadata map is the empty map. */
  type Metadata = map<string, MetaValue>

  /** A stored log record; `timestamp == 0` is Go's zero `time.Time`. */
  datatype LogEntry = LogEntry(
    id: string,
    level: LogLevel,
    service: string,
    event: string,
    timestamp: int,
    userId: Option<int>,
    chatId: Option<int>,
    message: string,
    metadata: Metadata)

  /** `unicode.IsSpace`: the Latin-1 spaces and the other White_Space code points. */
  predicate IsSpace(c: char)
  {
    c == ' ' || c == '\t' || c == '\n' || c == '\U{B}' || c == '\U{C}' || c == '\r'
    || c == '\U{85}' || c == '\U{A0}' || c == '\U{1680}'
    || ('\U{2000}' <= c <= '\U{200A}')
    || c == '\U{2028}' || c == '\U{2029}' || c == '\U{202F}' || c == '\U{205F}' || c == '\U{3000}'
  }

  function TrimLeft(s: string): string
  {
    if s != [] && IsSpace(s[0]) then TrimLeft(s[1..]) else s
  }

  function TrimRight(s: string): string
  {
    if s != [] && IsSpace(s[|s| - 1]) then TrimRight(s[..|s| - 1]) else s
  }

  /** `strings.TrimSpace`. */
  function TrimSpace(s: string): string
  {
    TrimRight(TrimLeft(s))
  }

  /** Every character of `s` is white space. */
  predicate Blank(s: string)
  {
    forall i | 0 <= i < |s| :: IsSpace(s[i])
  }

  lemma {:induction false} TrimLeftEmptyIffBlank(s: string)
    ensures TrimLeft(s) == [] <==> Blank(s)
  {
    if s != [] && IsSpace(s[0]) {
      TrimLeftEmptyIffBlank(s[1..]);
      assert Blank(s) <==> Blank(s[1..]) by {
        assert forall i | 1 <= i < |s| :: s[i] == s[1..][i - 1];
      }
    }
  }

  lemma {:induction false} TrimRightEmptyIff(s: string)
    ensures TrimRight(s) == [] <==> s == [] || Blank(s)
  {
    if s != [] && IsSpace(s[|s| - 1]) {
      TrimRightEmptyIff(s[..|s| - 1]);
      assert Blank(s) <==> Blank(s[..|s| - 1]) by {
        assert forall i | 0 <= i < |s| - 1 :: s[i] == s[..|s| - 1][i];
      }
    }
  }

  lemma {:induction false} TrimLeftKeepsNonBlank(s: string)
    ensures !Blank(s) ==> TrimLeft(s) != [] && !IsSpace(TrimLeft(s)[0])
  {
    if s != [] && IsSpace(s[0]) {
      TrimLeftKeepsNonBlank(s[1..]);
      if !Blank(s) {
        var i :| 0 <= i < |s| && !IsSpace(s[i]);
        assert !IsSpace(s[1..][i - 1]);
      }
    }
  }

  /** `TrimSpace(s) == ""` holds exactly for the strings made of white space only. */
  lemma TrimSpaceEmptyIffBlank(s: string)
    ensures TrimSpace(s) == "" <==> Blank(s)
  {
    TrimLeftEmptyIffBlank(s);
    TrimLeftKeepsNonBlank(s);
    var t := TrimLeft(s);
    TrimRightEmptyIff(t);
    if !Blank(s) {
      assert !IsSpace(t[0]);
      assert !Blank(t);
    }
  }

  /** Validity of a record: every required field is set and the level is a named one. */
  predicate IsValid(e: LogEntry)
  {
    && TrimSpace(e.id) != ""
    && LevelIsValid(e.level)
    && TrimSpace(e.service) != ""
    && TrimSpace(e.event) != ""
    && e.timestamp != 0
    && TrimSpace(e.message) != ""
  }

  /** The optional fields (user id, chat id, metadata) never decide validity. */
  lemma IsValidIgnoresOptionalFields(e: LogEntry, userId: Option<int>, chatId: Option<int>, metadata: Metadata)
    ensures IsValid(e.(userId := userId, chatId := chatId, metadata := metadata)) == IsValid(e)
  {
  }

  /** An entry is valid iff its four text fields are not blank, its level is named and its time is set. */
  lemma IsValidCharacterized(e: LogEntry)
    ensures IsValid(e) <==>
      !Blank(e.id) && !Blank(e.service) && !Blank(e.event) && !Blank(e.message)
      && 1 <= e.level <= 5 && e.timestamp != 0
  {
    TrimSpaceEmptyIffBlank(e.id);
    TrimSpaceEmptyIffBlank(e.service);
    TrimSpaceEmptyIffBlank(e.event);
    TrimSpaceEmptyIffBlank(e.message);
  }

  /** The numeric priority: the level's ordinal for a named level, 0 otherwise. */
  function GetPriority(e: LogEntry): (r: int)
    ensures 0 <= r <= 5
    ensures LevelIsValid(e.level) ==> r == e.level
    ensures !LevelIsValid(e.level) ==> r == 0
  {
    if e.level == Debug then 1
    else if e.level == Info then 2
    else if e.level == Warning then 3
    else if e.level == Error then 4
    else if e.level == Critical then 5
    else 0
  }

  /** Among named levels, a more severe level never has a lower priority. */
  lemma PriorityMonotone(a: LogEntry, b: LogEntry)
    requires LevelIsValid(a.level) && LevelIsValid(b.level) && a.level <= b.level
    ensures GetPriority(a) <= GetPriority(b)
  {
  }

  /** Only ERROR and CRITICAL records raise an alert. */
  function ShouldAlert(e: LogEntry): (r: bool)
    ensures r <==> GetPriority(e) >= 4
    ensures r ==> LevelIsValid(e.level)
  {
    e.level == Error || e.level == Critical
  }
}
