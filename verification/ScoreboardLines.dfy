/** The scoreboard file, character by character: what stands in it for a board, and where its
    entries go when it is read. */
module ScoreboardLines {
  import opened Common
  import opened ScoreData
  import opened ScoreboardText

  function Line(e: ScoreEntry): string {
    e.playerName + ":" + Decimal(e.score) + ":" + Decimal(e.timestamp)
  }

  /** Each entry on a line of its own. */
  function Lines(es: seq<ScoreEntry>): string
    decreases |es|
  {
    if es == [] then "" else Line(es[0]) + "\n" + Lines(es[1..])
  }

  lemma {:induction false} EntryLinesAreLines(es: seq<ScoreEntry>)
    ensures EntryLines(es) == Lines(es)
    decreases |es|
  {
    if es != [] {
      EntryLinesAreLines(es[1..]);
    }
  }

  /** The text of `save`. */
  lemma SavedText(b: Board)
    ensures Save(b) == "# R-Type Scoreboard Save File" + "\n" + "# Format: PlayerName:Score:Timestamp" + "\n\n[SOLO]\n"
                         + Lines(b.solo) + "\n[MULTI]\n" + Lines(b.multi)
  {
    EntryLinesAreLines(b.solo);
    EntryLinesAreLines(b.multi);
  }

  /** Numbers are written in decimal. */
  lemma DecimalDigits(n: nat)
    ensures n < 10 ==> Decimal(n) == [['0', '1', '2', '3', '4', '5', '6', '7', '8', '9'][n]]
    ensures n >= 10 ==> Decimal(n) == Decimal(n / 10) + Decimal(n % 10)
  {
  }

  /** A line without a colon gives no entry, nor does any line before the first heading, a comment
      or an empty line. */
  lemma NothingFromOtherLines(st: Loading, line: string)
    ensures ':' !in line ==> ReadLine(st, line).board == st.board
    ensures line == "" || line[0] == '#' || st.section == NoSection ==> ReadLine(st, line).board == st.board
  {
    if ':' !in line {
      assert Find(line, ':') == |line|;
      assert SkipSpace([]) == [];
      assert ScanUnsigned([], U32_LIMIT) == Failed;
    }
  }

  /** What stands under a section's heading goes to that list, whatever the order of the sections. */
  lemma SectionsAreKept(solo: seq<ScoreEntry>, multi: seq<ScoreEntry>)
    requires CleanNames(solo) && CleanNames(multi)
    ensures Load("[SOLO]" + "\n" + Lines(solo)) == Board(solo, [])
    ensures Load("[MULTI]" + "\n" + Lines(multi)) == Board([], multi)
  {
    Section("[SOLO]", Solo, solo);
    Section("[MULTI]", Multi, multi);
  }

  lemma Section(header: string, section: Section, es: seq<ScoreEntry>)
    requires CleanNames(es)
    requires (header == "[SOLO]" && section == Solo) || (header == "[MULTI]" && section == Multi)
    ensures Load(header + "\n" + Lines(es)) == if section == Solo then Board(es, []) else Board([], es)
  {
    var st := Loading(section, Board([], []));
    ReadPlainLine(START, header, Lines(es));
    EntryLinesAreLines(es);
    assert EntryLines(es) + "" == EntryLines(es);
    ReadWritten(st, es, "");
  }
}
