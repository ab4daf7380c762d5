/**
  A reader for the part of the WireGuard configuration-file format (wg(8), wg-quick(8)) that
  WireStack writes: `[Section]` header lines, `Key = Value` entry lines and blank lines.

  It is the reference against which the rendered configurations are checked: reading the text
  a renderer produces gives back the sections and entries it was meant to hold.
 */
module WgSyntax {
  import opened Results
  import opened Text

  datatype Entry = Entry(key: string, value: string)

  datatype Section = Section(name: string, entries: seq<Entry>)

  /** What one line of a configuration file is. */
  datatype Line = Blank | Header(name: string) | Pair(entry: Entry) | Other

  function HeaderLine(name: string): string {
    "[" + name + "]"
  }

  function EntryLine(e: Entry): string {
    e.key + " = " + e.value
  }

  /** A key as WireGuard spells them: a word that does not start a header. */
  predicate ValidKey(key: string) {
    key != "" && ' ' !in key && key[0] != '['
  }

  predicate ValidEntries(entries: seq<Entry>) {
    forall i :: 0 <= i < |entries| ==> ValidKey(entries[i].key)
  }

  function ClassifyLine(line: string): Line {
    if line == "" then Blank
    else if line[0] == '[' then
      if |line| >= 2 && line[|line| - 1] == ']' then Header(line[1..|line| - 1]) else Other
    else
      var i := IndexOf(line, ' ');
      if i > 0 && HasPrefix(line[i..], " = ") then Pair(Entry(line[..i], line[i + 3..])) else Other
  }

  lemma ClassifyHeader(name: string)
    ensures ClassifyLine(HeaderLine(name)) == Header(name)
  {
    var l := HeaderLine(name);
    assert l[1..|l| - 1] == name;
  }

  lemma ClassifyEntry(e: Entry)
    requires ValidKey(e.key)
    ensures ClassifyLine(EntryLine(e)) == Pair(e)
  {
    var l := EntryLine(e);
    assert l == e.key + [' '] + ("= " + e.value);
    IndexOfAfter(e.key, ' ', "= " + e.value);
    assert l[..|e.key|] == e.key;
    assert l[|e.key|..][..3] == " = ";
    assert l[|e.key| + 3..] == e.value;
  }

  // ---------------------------------------------------------------- reading

  /** The entries up to the next line that is neither an entry nor blank, and the lines from there on. */
  function TakeEntries(lines: seq<string>): (r: (seq<Entry>, seq<string>))
    ensures |r.1| <= |lines|
  {
    if lines == [] then ([], [])
    else match ClassifyLine(lines[0])
      case Blank => TakeEntries(lines[1..])
      case Pair(e) =>
        var (entries, rest) := TakeEntries(lines[1..]);
        ([e] + entries, rest)
      case _ => ([], lines)
  }

  /**
    The sections of a configuration given as lines. Blank lines are skipped; an entry outside
    any section, or a line of no known kind, makes the whole text unreadable.
   */
  function ReadSections(lines: seq<string>): Result<seq<Section>>
    decreases |lines|
  {
    if lines == [] then Ok([])
    else match ClassifyLine(lines[0])
      case Blank => ReadSections(lines[1..])
      case Header(name) =>
        var (entries, rest) := TakeEntries(lines[1..]);
        (match ReadSections(rest)
         case Err(e) => Err(e)
         case Ok(sections) => Ok([Section(name, entries)] + sections))
      case _ => Err(InvalidInput)
  }

  /** The sections of a configuration text. */
  function ReadConfig(text: string): Result<seq<Section>> {
    ReadSections(SplitLines(text))
  }

  // ---------------------------------------------------------------- writing

  function EntryLines(entries: seq<Entry>): (r: seq<string>)
    ensures |r| == |entries| && forall i :: 0 <= i < |entries| ==> r[i] == EntryLine(entries[i])
  {
    if entries == [] then [] else [EntryLine(entries[0])] + EntryLines(entries[1..])
  }

  function SectionLines(s: Section): seq<string> {
    [HeaderLine(s.name)] + EntryLines(s.entries)
  }

  /** Sections written one after the other, each followed by a blank line. */
  function Document(sections: seq<Section>): seq<string> {
    if sections == [] then [] else SectionLines(sections[0]) + [""] + Document(sections[1..])
  }

  predicate AllBlank(lines: seq<string>) {
    forall i :: 0 <= i < |lines| ==> lines[i] == ""
  }

  /** Lines that start a new section, or none at all. */
  predicate StartsSection(lines: seq<string>) {
    lines == [] || ClassifyLine(lines[0]).Header?
  }

  lemma {:induction false} TakeBlanks(gap: seq<string>, rest: seq<string>)
    requires AllBlank(gap) && StartsSection(rest)
    ensures TakeEntries(gap + rest) == ([], rest)
  {
    if gap != [] {
      assert (gap + rest)[1..] == gap[1..] + rest;
      TakeBlanks(gap[1..], rest);
    } else {
      assert gap + rest == rest;
    }
  }

  lemma {:induction false} TakeWritten(entries: seq<Entry>, gap: seq<string>, rest: seq<string>)
    requires ValidEntries(entries) && AllBlank(gap) && StartsSection(rest)
    ensures TakeEntries(EntryLines(entries) + gap + rest) == (entries, rest)
  {
    if entries == [] {
      assert EntryLines(entries) + gap + rest == gap + rest;
      TakeBlanks(gap, rest);
    } else {
      var tail := EntryLines(entries[1..]) + gap + rest;
      assert EntryLines(entries) + gap + rest == [EntryLine(entries[0])] + tail by {
        AppendAssociative([EntryLine(entries[0])], EntryLines(entries[1..]), gap);
        AppendAssociative([EntryLine(entries[0])], EntryLines(entries[1..]) + gap, rest);
      }
      assert ([EntryLine(entries[0])] + tail)[1..] == tail;
      ClassifyEntry(entries[0]);
      TakeWritten(entries[1..], gap, rest);
      assert [entries[0]] + entries[1..] == entries;
    }
  }

  /** A written section followed by blank lines is read back, and reading goes on after it. */
  lemma ReadWrittenSection(s: Section, gap: seq<string>, rest: seq<string>)
    requires ValidEntries(s.entries) && AllBlank(gap) && StartsSection(rest)
    ensures ReadSections(SectionLines(s) + gap + rest) ==
      match ReadSections(rest)
      case Err(e) => Err(e)
      case Ok(sections) => Ok([s] + sections)
  {
    var lines := SectionLines(s) + gap + rest;
    ClassifyHeader(s.name);
    assert lines[0] == HeaderLine(s.name);
    assert lines[1..] == EntryLines(s.entries) + gap + rest;
    TakeWritten(s.entries, gap, rest);
  }

  /** Two written sections separated by a blank line, as a client configuration is laid out, are read back. */
  lemma ReadTwoSections(a: Section, b: Section)
    requires ValidEntries(a.entries) && ValidEntries(b.entries)
    ensures ReadSections(SectionLines(a) + [""] + SectionLines(b)) == Ok([a, b])
  {
    assert ReadSections(SectionLines(b)) == Ok([b]) by {
      ReadWrittenSection(b, [], []);
      assert SectionLines(b) + [] + [] == SectionLines(b);
      assert ReadSections([]) == Ok([]);
      assert [b] + [] == [b];
    }
    assert StartsSection(SectionLines(b)) by {
      ClassifyHeader(b.name);
    }
    ReadWrittenSection(a, [""], SectionLines(b));
    assert [a] + [b] == [a, b];
  }

  predicate ValidSections(sections: seq<Section>) {
    forall i :: 0 <= i < |sections| ==> ValidEntries(sections[i].entries)
  }

  /** Reading a written document gives back its sections. */
  lemma {:induction false} ReadDocument(sections: seq<Section>)
    requires ValidSections(sections)
    ensures ReadSections(Document(sections)) == Ok(sections)
  {
    if sections != [] {
      var rest := Document(sections[1..]);
      ReadDocument(sections[1..]);
      if sections[1..] != [] {
        ClassifyHeader(sections[1].name);
        assert rest[0] == HeaderLine(sections[1].name);
      }
      ReadWrittenSection(sections[0], [""], rest);
      assert [sections[0]] + sections[1..] == sections;
    }
  }

  lemma {:induction false} DocumentAppend(a: seq<Section>, b: seq<Section>)
    ensures Document(a + b) == Document(a) + Document(b)
  {
    if a == [] {
      assert a + b == b;
    } else {
      DocumentAppend(a[1..], b);
      assert (a + b)[0] == a[0] && (a + b)[1..] == a[1..] + b;
      AppendAssociative(SectionLines(a[0]) + [""], Document(a[1..]), Document(b));
    }
  }

  // ---------------------------------------------------------------- line structure of the text

  predicate EntriesWithoutNewlines(entries: seq<Entry>) {
    forall i :: 0 <= i < |entries| ==> '\n' !in entries[i].key && '\n' !in entries[i].value
  }

  predicate SectionsWithoutNewlines(sections: seq<Section>) {
    forall i :: 0 <= i < |sections| ==>
      '\n' !in sections[i].name && EntriesWithoutNewlines(sections[i].entries)
  }

  lemma {:induction false} EntryLinesWithoutNewlines(entries: seq<Entry>)
    requires EntriesWithoutNewlines(entries)
    ensures NoNewlines(EntryLines(entries))
  {
    if entries != [] {
      EntryLinesWithoutNewlines(entries[1..]);
      var l := EntryLine(entries[0]);
      assert '\n' !in l;
    }
  }

  lemma {:induction false} DocumentWithoutNewlines(sections: seq<Section>)
    requires SectionsWithoutNewlines(sections)
    ensures NoNewlines(Document(sections))
  {
    if sections != [] {
      DocumentWithoutNewlines(sections[1..]);
      EntryLinesWithoutNewlines(sections[0].entries);
      assert '\n' !in HeaderLine(sections[0].name);
    }
  }
}
