/** The scoreboard's text form: what `save` writes and what `load` reads back, over the
    characters of the file (client/src/ScoreboardManager.cpp). */
module ScoreboardText {
  import opened Common
  import opened ScoreData

  // Decimal numbers.

  function Digit(d: nat): char
    requires d < 10
  {
    '0' + d as char
  }

  predicate IsDigit(c: char) {
    '0' <= c <= '9'
  }

  function Decimal(n: nat): string {
    if n < 10 then [Digit(n)] else Decimal(n / 10) + [Digit(n % 10)]
  }

  function DigitValue(c: char): nat
    requires IsDigit(c)
  {
    c as nat - '0' as nat
  }

  function DigitsValue(s: string): nat
    requires forall i :: 0 <= i < |s| ==> IsDigit(s[i])
  {
    if s == [] then 0 else 10 * DigitsValue(s[..|s| - 1]) + DigitValue(s[|s| - 1])
  }

  lemma {:induction false} DecimalRoundTrip(n: nat)
    ensures Decimal(n) != []
    ensures forall i :: 0 <= i < |Decimal(n)| ==> IsDigit(Decimal(n)[i])
    ensures DigitsValue(Decimal(n)) == n
  {
    if n >= 10 {
      DecimalRoundTrip(n / 10);
      assert Decimal(n)[..|Decimal(n)| - 1] == Decimal(n / 10);
    }
  }

  // Formatted extraction, `stream >> value`.

  predicate IsSpace(c: char) {
    c == ' ' || '\t' <= c <= '\r'
  }

  function SkipSpace(s: string): string {
    if s != [] && IsSpace(s[0]) then SkipSpace(s[1..]) else s
  }

  /** How many characters of `s` are digits before the first that is not. */
  function DigitRun(s: string): (k: nat)
    ensures k <= |s| && (forall i :: 0 <= i < k ==> IsDigit(s[i])) && (k < |s| ==> !IsDigit(s[k]))
  {
    if s != [] && IsDigit(s[0]) then 1 + DigitRun(s[1..]) else 0
  }

  datatype Scan<T> = Failed | Got(value: T, rest: string)

  /** `>>` into an unsigned integer below `limit`: skip blanks, take an optional sign and the
      longest run of digits; no digits or a magnitude out of range fails. A minus sign negates
      modulo `limit`. */
  function ScanUnsigned(s: string, limit: nat): Scan<nat>
    requires limit > 0
  {
    var t := SkipSpace(s);
    var signed := t != [] && (t[0] == '-' || t[0] == '+');
    var u := if signed then t[1..] else t;
    var k := DigitRun(u);
    if k == 0 || DigitsValue(u[..k]) >= limit then Failed
    else
      var v := DigitsValue(u[..k]);
      Got(if signed && t[0] == '-' then (limit - v) % limit else v, u[k..])
  }

  function ScanChar(s: string): Scan<char> {
    var t := SkipSpace(s);
    if t == [] then Failed else Got(t[0], t[1..])
  }

  // Lines and entries.

  /** Where `c` first stands in `s`, or the length of `s`. */
  function Find(s: string, c: char): (k: nat)
    ensures k <= |s| && c !in s[..k] && (k < |s| ==> s[k] == c)
  {
    if s == [] || s[0] == c then 0
    else
      assert s[..1 + Find(s[1..], c)] == [s[0]] + s[1..][..Find(s[1..], c)];
      1 + Find(s[1..], c)
  }

  datatype Parsed = Skipped | Entry(entry: ScoreEntry)

  /** An entry line: the name up to the first colon, then number, any one character, number. */
  function ParseEntry(line: string): Parsed {
    var k := Find(line, ':');
    var afterName := if k < |line| then line[k + 1..] else [];
    match ScanUnsigned(afterName, U32_LIMIT)
    case Failed => Skipped
    case Got(score, r1) =>
      match ScanChar(r1)
      case Failed => Skipped
      case Got(_, r2) =>
        match ScanUnsigned(r2, U64_LIMIT)
        case Failed => Skipped
        case Got(timestamp, _) => Entry(ScoreEntry(line[..k], score, timestamp))
  }

  datatype Section = NoSection | Solo | Multi
  datatype Board = Board(solo: seq<ScoreEntry>, multi: seq<ScoreEntry>)
  datatype Loading = Loading(section: Section, board: Board)

  const START := Loading(NoSection, Board([], []))

  function ReadLine(st: Loading, line: string): Loading {
    if line == [] || line[0] == '#' then st
    else if line == "[SOLO]" then st.(section := Solo)
    else if line == "[MULTI]" then st.(section := Multi)
    else Keep(st, ParseEntry(line))
  }

  function Keep(st: Loading, parsed: Parsed): Loading {
    match parsed
    case Skipped => st
    case Entry(e) =>
      match st.section
      case NoSection => st
      case Solo => st.(board := st.board.(solo := st.board.solo + [e]))
      case Multi => st.(board := st.board.(multi := st.board.multi + [e]))
  }

  /** The line loop of `load`. `std::getline` delivers the characters before each newline; a
      last line without newline counts, an empty one does not. */
  function ReadText(st: Loading, text: string): Loading
    decreases |text|
  {
    if text == [] then st
    else
      var k := Find(text, '\n');
      ReadText(ReadLine(st, text[..k]), if k < |text| then text[k + 1..] else [])
  }

  function Load(text: string): Board {
    ReadText(START, text).board
  }

  function EntryLine(e: ScoreEntry): string {
    e.playerName + ":" + Decimal(e.score) + ":" + Decimal(e.timestamp)
  }

  function EntryLines(es: seq<ScoreEntry>): string {
    if es == [] then "" else EntryLine(es[0]) + "\n" + EntryLines(es[1..])
  }

  const TITLE := "# R-Type Scoreboard Save File"
  const FORMAT := "# Format: PlayerName:Score:Timestamp"

  function Save(b: Board): string {
    TITLE + "\n" + FORMAT + "\n\n[SOLO]\n" + EntryLines(b.solo) + "\n[MULTI]\n" + EntryLines(b.multi)
  }

  class ScoreboardManager {
    var soloScores: seq<ScoreEntry>
    var multiScores: seq<ScoreEntry>

    function Data(): Board
      reads this
    {
      Board(soloScores, multiScores)
    }

    constructor ()
      ensures Data() == Board([], [])
    {
      soloScores, multiScores := [], [];
    }

    method LoadFrom(text: string)
      modifies this
      ensures Data() == Load(text)
    {
      soloScores, multiScores := [], [];
      var currentSection := NoSection;
      var unread := text;
      while unread != []
        invariant ReadText(Loading(currentSection, Data()), unread).board == Load(text)
        decreases |unread|
      {
        var k := Find(unread, '\n');
        var line := unread[..k];
        unread := if k < |unread| then unread[k + 1..] else [];
        if line == [] || line[0] == '#' {
        } else if line == "[SOLO]" {
          currentSection := Solo;
        } else if line == "[MULTI]" {
          currentSection := Multi;
        } else {
          AddParsed(currentSection, ParseEntry(line));
        }
      }
    }

    method AddParsed(section: Section, parsed: Parsed)
      modifies this
      ensures Loading(section, Data()) == Keep(Loading(section, old(Data())), parsed)
    {
      if parsed.Entry? {
        if section == Solo {
          soloScores := soloScores + [parsed.entry];
        } else if section == Multi {
          multiScores := multiScores + [parsed.entry];
        }
      }
    }

    method SaveTo() returns (text: string)
      ensures text == Save(Data())
    {
      text := TITLE + "\n" + FORMAT + "\n\n[SOLO]\n";
      var soloText := WriteEntries(soloScores);
      var multiText := WriteEntries(multiScores);
      text := text + soloText + "\n[MULTI]\n" + multiText;
    }

    static method WriteEntries(es: seq<ScoreEntry>) returns (text: string)
      ensures text == EntryLines(es)
    {
      text := "";
      for i := 0 to |es|
        invariant text + EntryLines(es[i..]) == EntryLines(es)
      {
        assert es[i..][1..] == es[i + 1..];
        assert text + EntryLines(es[i..]) == text + EntryLine(es[i]) + "\n" + EntryLines(es[i + 1..]);
        text := text + EntryLine(es[i]) + "\n";
      }
      assert text == text + EntryLines(es[|es|..]);
    }
  }

  // The round trip.

  /** A name the line format can carry. */
  predicate CleanName(name: string) {
    ':' !in name && '\n' !in name && (name != [] ==> name[0] != '#')
  }

  predicate CleanNames(es: seq<ScoreEntry>) {
    forall i :: 0 <= i < |es| ==> CleanName(es[i].playerName)
  }

  lemma {:induction false} FindIn(a: string, c: char, b: string)
    requires c !in a
    ensures Find(a + [c] + b, c) == |a|
  {
    if a != [] {
      assert (a + [c] + b)[1..] == a[1..] + [c] + b;
      FindIn(a[1..], c, b);
    } else {
      assert a + [c] + b == [c] + b;
    }
  }

  lemma ReadPlainLine(st: Loading, line: string, rest: string)
    requires '\n' !in line
    ensures ReadText(st, line + "\n" + rest) == ReadText(ReadLine(st, line), rest)
  {
    var text := line + "\n" + rest;
    FindIn(line, '\n', rest);
    assert text == line + ['\n'] + rest;
    assert text[..|line|] == line && text[|line| + 1..] == rest;
  }

  lemma {:induction false} DigitRunOf(digits: string, rest: string)
    requires forall i :: 0 <= i < |digits| ==> IsDigit(digits[i])
    requires rest != [] ==> !IsDigit(rest[0])
    ensures DigitRun(digits + rest) == |digits|
  {
    if digits != [] {
      assert (digits + rest)[1..] == digits[1..] + rest;
      DigitRunOf(digits[1..], rest);
    } else {
      assert digits + rest == rest;
    }
  }

  /** Reading back a printed number that is in range. */
  lemma ScanDecimal(n: nat, rest: string, limit: nat)
    requires n < limit && (rest != [] ==> !IsDigit(rest[0]))
    ensures ScanUnsigned(Decimal(n) + rest, limit) == Got(n, rest)
  {
    DecimalRoundTrip(n);
    var s := Decimal(n) + rest;
    assert IsDigit(s[0]);
    assert SkipSpace(s) == s;
    DigitRunOf(Decimal(n), rest);
    assert s[..|Decimal(n)|] == Decimal(n) && s[|Decimal(n)|..] == rest;
  }

  lemma ScanWrittenNumbers(e: ScoreEntry)
    ensures ScanUnsigned(Decimal(e.score) + (":" + Decimal(e.timestamp)), U32_LIMIT)
         == Got(e.score, ":" + Decimal(e.timestamp))
    ensures ScanChar(":" + Decimal(e.timestamp)) == Got(':', Decimal(e.timestamp))
    ensures ScanUnsigned(Decimal(e.timestamp), U64_LIMIT) == Got(e.timestamp, [])
  {
    var r := ":" + Decimal(e.timestamp);
    ScanDecimal(e.score, r, U32_LIMIT);
    assert SkipSpace(r) == r && r[1..] == Decimal(e.timestamp);
    ScanDecimal(e.timestamp, [], U64_LIMIT);
    assert Decimal(e.timestamp) + [] == Decimal(e.timestamp);
  }

  lemma ParseParts(line: string, name: string, numbers: string, score: u32, r1: string, c: char, r2: string,
                   timestamp: u64, r3: string)
    requires line == name + [':'] + numbers && ':' !in name
    requires ScanUnsigned(numbers, U32_LIMIT) == Got(score, r1)
    requires ScanChar(r1) == Got(c, r2)
    requires ScanUnsigned(r2, U64_LIMIT) == Got(timestamp, r3)
    ensures ParseEntry(line) == Entry(ScoreEntry(name, score, timestamp))
  {
    FindIn(name, ':', numbers);
    assert line[..|name|] == name && line[|name| + 1..] == numbers;
  }

  lemma ParseWritten(e: ScoreEntry)
    requires CleanName(e.playerName)
    ensures ParseEntry(EntryLine(e)) == Entry(e)
  {
    var r := ":" + Decimal(e.timestamp);
    var numbers := Decimal(e.score) + r;
    assert EntryLine(e) == e.playerName + [':'] + numbers;
    ScanWrittenNumbers(e);
    ParseParts(EntryLine(e), e.playerName, numbers, e.score, r, ':', Decimal(e.timestamp), e.timestamp, []);
  }

  lemma WrittenLineIsPlain(e: ScoreEntry)
    requires CleanName(e.playerName)
    ensures '\n' !in EntryLine(e) && EntryLine(e) != [] && EntryLine(e)[0] != '#'
    ensures EntryLine(e) != "[SOLO]" && EntryLine(e) != "[MULTI]"
  {
    DecimalRoundTrip(e.score);
    DecimalRoundTrip(e.timestamp);
    assert EntryLine(e)[|e.playerName|] == ':';
  }

  function WithEntries(st: Loading, es: seq<ScoreEntry>): Loading
    requires st.section != NoSection
  {
    if st.section == Solo then st.(board := st.board.(solo := st.board.solo + es))
    else st.(board := st.board.(multi := st.board.multi + es))
  }

  lemma ReadWrittenLine(st: Loading, e: ScoreEntry)
    requires st.section != NoSection && CleanName(e.playerName)
    ensures ReadLine(st, EntryLine(e)) == WithEntries(st, [e])
  {
    WrittenLineIsPlain(e);
    ParseWritten(e);
  }

  lemma WithMoreEntries(st: Loading, a: seq<ScoreEntry>, b: seq<ScoreEntry>)
    requires st.section != NoSection
    ensures WithEntries(WithEntries(st, a), b) == WithEntries(st, a + b)
  {
    assert st.board.solo + a + b == st.board.solo + (a + b);
    assert st.board.multi + a + b == st.board.multi + (a + b);
  }

  lemma WrittenBlock(es: seq<ScoreEntry>, rest: string)
    requires es != []
    ensures EntryLines(es) + rest == EntryLine(es[0]) + "\n" + (EntryLines(es[1..]) + rest)
  {
  }

  /** A block of written entries is read back into the current section. */
  lemma {:induction false} ReadWritten(st: Loading, es: seq<ScoreEntry>, rest: string)
    requires st.section != NoSection && CleanNames(es)
    ensures ReadText(st, EntryLines(es) + rest) == ReadText(WithEntries(st, es), rest)
    decreases |es|
  {
    if es == [] {
      WithNoEntries(st, es);
      assert EntryLines(es) + rest == rest;
    } else {
      var first, more := es[..1], es[1..];
      ReadFirstWritten(st, es, rest);
      ReadWritten(WithEntries(st, first), more, rest);
      WithMoreEntries(st, first, more);
      assert first + more == es;
    }
  }

  lemma WithNoEntries(st: Loading, es: seq<ScoreEntry>)
    requires st.section != NoSection && es == []
    ensures WithEntries(st, es) == st
  {
    assert st.board.solo + es == st.board.solo && st.board.multi + es == st.board.multi;
  }

  lemma ReadFirstWritten(st: Loading, es: seq<ScoreEntry>, rest: string)
    requires st.section != NoSection && es != [] && CleanNames(es)
    ensures ReadText(st, EntryLines(es) + rest)
         == ReadText(WithEntries(st, es[..1]), EntryLines(es[1..]) + rest)
    ensures CleanNames(es[1..])
  {
    WrittenBlock(es, rest);
    WrittenLineIsPlain(es[0]);
    ReadPlainLine(st, EntryLine(es[0]), EntryLines(es[1..]) + rest);
    ReadWrittenLine(st, es[0]);
    assert es[..1] == [es[0]];
  }

  predicate IsComment(line: string) {
    line != [] && line[0] == '#' && '\n' !in line
  }

  lemma SkipComments(st: Loading, l1: string, l2: string, rest: string)
    requires IsComment(l1) && IsComment(l2)
    ensures ReadText(st, (l1 + "\n" + (l2 + "\n" + rest))) == ReadText(st, (rest))
  {
    ReadPlainLine(st, l1, l2 + "\n" + rest);
    ReadPlainLine(st, l2, rest);
  }

  lemma OpenSection(st: Loading, header: string, section: Section, rest: string)
    requires (header == "[SOLO]" && section == Solo) || (header == "[MULTI]" && section == Multi)
    ensures ReadText(st, ("\n" + (header + "\n" + rest))) == ReadText(st.(section := section), (rest))
  {
    var t := header + "\n" + rest;
    assert "\n" + t == "" + "\n" + t;
    ReadPlainLine(st, "", t);
    ReadPlainLine(st, header, rest);
  }

  /** The text of `save`, cut where `load` changes its state. */
  lemma SaveShape(b: Board)
    ensures Save(b) == TITLE + "\n" + (FORMAT + "\n" + ("\n" + ("[SOLO]" + "\n" +
              (EntryLines(b.solo) + ("\n" + ("[MULTI]" + "\n" + EntryLines(b.multi)))))))
  {
    Regroup(TITLE + "\n", FORMAT, EntryLines(b.solo), EntryLines(b.multi));
    assert TITLE + "\n" + FORMAT + "\n\n[SOLO]\n" + EntryLines(b.solo) + "\n[MULTI]\n" + EntryLines(b.multi) == Save(b);
  }

  lemma Regroup(a: string, b: string, c: string, d: string)
    ensures a + b + "\n\n[SOLO]\n" + c + "\n[MULTI]\n" + d
         == a + (b + "\n" + ("\n" + ("[SOLO]" + "\n" + (c + ("\n" + ("[MULTI]" + "\n" + d))))))
  {
  }

  lemma RoundTrip(b: Board)
    requires CleanNames(b.solo) && CleanNames(b.multi)
    ensures Load(Save(b)) == b
  {
    var m := "\n" + ("[MULTI]" + "\n" + EntryLines(b.multi));
    SaveShape(b);
    SkipComments(START, TITLE, FORMAT, "\n" + ("[SOLO]" + "\n" + (EntryLines(b.solo) + m)));
    OpenSection(START, "[SOLO]", Solo, EntryLines(b.solo) + m);
    RoundTripEntries(b, m);
  }

  lemma RoundTripEntries(b: Board, m: string)
    requires CleanNames(b.solo) && CleanNames(b.multi)
    requires m == "\n" + ("[MULTI]" + "\n" + EntryLines(b.multi))
    ensures ReadText(START.(section := Solo), (EntryLines(b.solo) + m)).board == b
  {
    var s1 := START.(section := Solo);
    ReadWritten(s1, b.solo, m);
    var s2 := WithEntries(s1, b.solo);
    OpenSection(s2, "[MULTI]", Multi, EntryLines(b.multi));
    assert EntryLines(b.multi) + "" == EntryLines(b.multi);
    ReadWritten(s2.(section := Multi), b.multi, "");
  }

  /** Whatever the text, `load` never delivers a name that is not clean. */
  lemma {:induction false} LoadedNamesAreClean(st: Loading, text: string)
    requires CleanNames(st.board.solo) && CleanNames(st.board.multi)
    ensures CleanNames(ReadText(st, text).board.solo) && CleanNames(ReadText(st, text).board.multi)
    decreases |text|
  {
    if text != [] {
      var k := Find(text, '\n');
      LoadedNamesAreClean(ReadLine(st, text[..k]), if k < |text| then text[k + 1..] else []);
    }
  }

  /** `load` of what `save` wrote restores both lists, exactly when every name is clean. */
  lemma LoadRestoresSave(b: Board)
    ensures Load(Save(b)) == b <==> CleanNames(b.solo) && CleanNames(b.multi)
  {
    if CleanNames(b.solo) && CleanNames(b.multi) {
      RoundTrip(b);
    } else {
      LoadedNamesAreClean(START, Save(b));
    }
  }
}
